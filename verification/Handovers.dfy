/**
 When a migration hands over what the client really holds. A source hands over what it composes
 from its newest view, so a client that lags behind its shard is handed on with a view it does
 not hold: over every run of the system whose shards keep to their guards, that is the only way
 a shard, a mailbox or a migration comes to be wrong about a client.
 */
module Handovers {
  import opened Collections
  import opened Views
  import opened Planner
  import opened Clients
  import opened Migration
  import Shards
  import ShardRuns

  /** What a shard has told a connection, from the view it was attached with. */
  function ToldAt(w: ShardRuns.World, c: ConnectionId): Client {
    if c in w.base && c in w.sent then Run(Show(w.base[c]), w.sent[c]) else Show(EMPTY_VIEW)
  }

  /** What whoever has the connection takes its client to hold. */
  function Believed(s: System, c: ConnectionId, p: Place): Client
    requires Holds(s, c, p)
  {
    if p.AtShard? then ToldAt(s.shards[p.shard].world, c) else Show(ViewAt(s, c, p))
  }

  /** Whoever has the connection is right about its client. */
  ghost predicate Exact(s: System, c: ConnectionId) {
    forall p | Holds(s, c, p) :: c in s.client && s.client[c] == Believed(s, c, p)
  }

  /** Every shard's run is faithful to its own records, and every view is well keyed. */
  ghost predicate Healthy(s: System) {
    && (forall id | id in s.shards :: ShardRuns.Invariant(s.shards[id].world))
    && (forall c, p | Holds(s, c, p) :: WellKeyed(ViewAt(s, c, p)))
  }

  /** A shard's own work keeps to the guards of its run. */
  ghost predicate Mindful(s: System, a: Action) {
    a.Work? && a.shard in s.shards ==> ShardRuns.Guarded(s.shards[a.shard].world, a.event)
  }

  /** The connection still holds the view it was attached with, or the newest view shows it what its cursor's does. */
  ghost predicate ShowsClient(t: ShardTask, c: ConnectionId) {
    IsAttached(t, c) ==>
      var a := t.world.shard.connections[c];
      a.held.Some?
      || (a.cursor < |t.world.history|
          && ShardRuns.ShowsTheSame(t.world.history[a.cursor], t.world.shard.view, a.see, a.overlay))
  }

  // ---------------------------------------------------------------- every shard stays faithful

  lemma HandledWorld(s: System, a: Action)
    requires Healthy(s) && Enabled(s, a) && a.Handle?
    ensures a.shard in Next(s, a).shards ==> ShardRuns.Invariant(Next(s, a).shards[a.shard].world)
  {
    hide ShardRuns.Invariant, ShardRuns.Step, Shards.Composed, WellKeyed;
    var t := s.shards[a.shard];
    match t.mailbox[0] {
      case Attach(c, held) =>
        assert Holds(s, c, Queued(a.shard, 0));
        if a.session.Some? {
          ShardRuns.StepKeeps(t.world, ShardRuns.Attach(c, a.session.value, held));
        }
      case Detach(c, _) => ShardRuns.StepKeeps(t.world, ShardRuns.Detach(c));
    }
  }

  lemma WorldsNext(s: System, a: Action, id: ShardId)
    requires Healthy(s) && Enabled(s, a) && Mindful(s, a) && id in Next(s, a).shards
    ensures ShardRuns.Invariant(Next(s, a).shards[id].world)
  {
    hide ShardRuns.Invariant, ShardRuns.Step, ShardRuns.Guarded, Given, Run, Handled, Standing;
    if a.Handle? && id == a.shard {
      HandledWorld(s, a);
    } else if a.Work? && id == a.shard {
      ShardRuns.StepKeeps(s.shards[id].world, a.event);
    } else {
      ShardRuns.NewWorldInvariant();
      WorldsElsewhere(s, a, id);
    }
  }

  lemma WorldsElsewhere(s: System, a: Action, id: ShardId)
    requires Enabled(s, a) && id in Next(s, a).shards && !((a.Handle? || a.Work?) && id == a.shard)
    ensures Next(s, a).shards[id].world == ShardRuns.NEW_WORLD
      || (id in s.shards && Next(s, a).shards[id].world == s.shards[id].world)
  {
    hide ShardRuns.Step, Given, Run, Standing;
  }

  lemma StandingKeyed(t: ShardTask, c: ConnectionId)
    requires ShardRuns.Invariant(t.world) && IsAttached(t, c)
    ensures WellKeyed(Standing(t, c))
  {
    hide ShardRuns.Recorded, ShardRuns.Sound, Shards.Composed, WellKeyed, Run, Show;
    assert ShardRuns.Faithful(t.world, c);
    ShardRuns.ComposedKeyed(t.world.shard.connections[c], t.world.shard, t.world.history);
  }

  lemma HealthyNext(s: System, a: Action)
    requires SinglePlace(s) && Healthy(s) && Enabled(s, a) && Mindful(s, a)
    ensures Healthy(Next(s, a))
  {
    hide Next, Enabled, ShardRuns.Invariant, WellKeyed, SinglePlace, Mindful, Origin;
    var s' := Next(s, a);
    forall id | id in s'.shards ensures ShardRuns.Invariant(s'.shards[id].world) {
      WorldsNext(s, a, id);
    }
    forall c, p | Holds(s', c, p) ensures WellKeyed(ViewAt(s', c, p)) {
      if p.AtShard? {
        StandingKeyed(s'.shards[p.shard], c);
      } else if a.Register? && a.connection == c {
        FreshlyRegistered(s, a, p);
        NothingIsKeyed();
      } else {
        Traced(s, a, c, p);
      }
    }
  }

  lemma NothingIsKeyed()
    ensures WellKeyed(EMPTY_VIEW)
  {
  }

  // ---------------------------------------------------------------- one step

  /** A shard's work adds to its record exactly what the queue accepted. */
  lemma WorkTells(w: ShardRuns.World, e: ShardRuns.Event, c: ConnectionId)
    requires ShardRuns.Known(w) && c in w.shard.connections && !e.Attach? && !e.Detach?
    ensures ToldAt(ShardRuns.Step(w, e), c) == Run(ToldAt(w, c), Given(w, e, c))
  {
    hide Shards.Idle, Shards.TurnOf, Shards.RetryTurn, Shards.LogAfter, Shards.Reconciled, Shards.Retried, Run, Show;
    assert c in w.base && c in w.sent;
    RunConcat(Show(w.base[c]), w.sent[c], Given(w, e, c));
    assert w.sent[c] + [] == w.sent[c];
  }

  lemma AttachTells(w: ShardRuns.World, c: ConnectionId, session: SessionId, held: ShardView)
    ensures ToldAt(ShardRuns.Step(w, ShardRuns.Attach(c, session, held)), c) == Show(held)
  {
    hide Show;
  }

  /** Another connection's attach or detach leaves what was told alone. */
  lemma OthersTold(w: ShardRuns.World, e: ShardRuns.Event, c: ConnectionId)
    requires (e.Attach? && e.connection != c) || e.Detach?
    ensures ToldAt(ShardRuns.Step(w, e), c) == ToldAt(w, c)
  {
    hide Run, Show;
  }

  /** Only a shard's work that has the connection attached reaches its client. */
  lemma ClientUntouched(s: System, a: Action, c: ConnectionId)
    requires Enabled(s, a) && c in s.client && !(a.Register? && a.connection == c)
    requires !(a.Work? && IsAttached(s.shards[a.shard], c))
    ensures c in Next(s, a).client && Next(s, a).client[c] == s.client[c]
  {
    hide ShardRuns.Step, Run, Given, Standing, Handled;
    if a.Handle? {
      HandlingTellsNobody(s, a);
    }
  }

  lemma HandlingTellsNobody(s: System, a: Action)
    requires Enabled(s, a) && a.Handle?
    ensures Next(s, a).client == s.client
  {
    hide ShardRuns.Step, Run, Given, Standing;
  }

  lemma WorkReachesClient(s: System, a: Action, c: ConnectionId)
    requires Enabled(s, a) && a.Work? && IsAttached(s.shards[a.shard], c) && c in s.client
    ensures c in Next(s, a).client
    ensures Next(s, a).client[c] == Run(s.client[c], Given(s.shards[a.shard].world, a.event, c))
  {
    hide ShardRuns.Step, Run, Given;
  }

  /** A shard that handles an attach starts from the view it came with; the others it has told stay told. */
  lemma BelievedAtHandler(s: System, a: Action, c: ConnectionId)
    requires Enabled(s, a) && a.Handle? && Holds(Next(s, a), c, AtShard(a.shard))
    ensures Holds(s, c, Origin(s, a, c, AtShard(a.shard)))
    ensures Believed(Next(s, a), c, AtShard(a.shard)) == Believed(s, c, Origin(s, a, c, AtShard(a.shard)))
  {
    hide ToldAt, Show, Shards.Composed;
    var t := s.shards[a.shard];
    match t.mailbox[0] {
      case Attach(d, held) =>
        if a.session.Some? {
          if d == c {
            AttachTells(t.world, c, a.session.value, held);
          } else {
            OthersTold(t.world, ShardRuns.Attach(d, a.session.value, held), c);
          }
        }
      case Detach(d, _) =>
        OthersTold(t.world, ShardRuns.Detach(d), c);
    }
  }

  lemma OriginInFlight(s: System, a: Action, c: ConnectionId, p: Place)
    requires Enabled(s, a) && Holds(Next(s, a), c, p) && !p.AtShard? && !(a.Register? && a.connection == c)
    ensures Origin(s, a, c, p).AtShard? ==> p.InFlight? && HandsOver(s, a, c, p.task)
  {
    hide ShardRuns.Step, Run, Given, Standing;
  }

  lemma OriginAtShard(s: System, a: Action, c: ConnectionId, id: ShardId)
    requires Enabled(s, a) && !(a.Handle? && id == a.shard)
    ensures Origin(s, a, c, AtShard(id)) == AtShard(id)
  {
  }

  /** Apart from a registration, a shard's own work and a hand-over, belief moves with the place. */
  lemma BelievedKept(s: System, a: Action, c: ConnectionId, p: Place)
    requires Enabled(s, a) && Holds(Next(s, a), c, p)
    requires !(a.Register? && a.connection == c) && !(a.Work? && p == AtShard(a.shard))
    requires p.InFlight? ==> !HandsOver(s, a, c, p.task)
    ensures Holds(s, c, Origin(s, a, c, p))
    ensures Believed(Next(s, a), c, p) == Believed(s, c, Origin(s, a, c, p))
  {
    hide Next, Enabled, Origin, ToldAt, Show, HandsOver, Standing;
    Traced(s, a, c, p);
    if !p.AtShard? {
      OriginInFlight(s, a, c, p);
    } else if a.Handle? && p.shard == a.shard {
      BelievedAtHandler(s, a, c);
    } else {
      WorldsElsewhere(s, a, p.shard);
      OriginAtShard(s, a, c, p.shard);
    }
  }

  lemma HeldElsewhere(s: System, c: ConnectionId, p: Place, id: ShardId)
    requires SinglePlace(s) && Holds(s, c, p) && p != AtShard(id) && id in s.shards
    ensures !IsAttached(s.shards[id], c)
  {
    assert IsAttached(s.shards[id], c) ==> Holds(s, c, AtShard(id));
  }

  /** A shard's own work keeps it right about the clients it has attached, and touches no other. */
  lemma WorkExact(s: System, a: Action, c: ConnectionId)
    requires SinglePlace(s) && Healthy(s) && Enabled(s, a) && a.Work? && Exact(s, c)
    ensures Exact(Next(s, a), c)
  {
    hide Next, Origin, ToldAt, Show, Standing, Given, Run, ShardRuns.Step;
    var s' := Next(s, a);
    forall p | Holds(s', c, p) ensures c in s'.client && s'.client[c] == Believed(s', c, p) {
      Traced(s, a, c, p);
      WorkStaysPut(s, a, c, p);
      if p == AtShard(a.shard) {
        assert ShardRuns.Invariant(s.shards[a.shard].world);
        WorkReachesClient(s, a, c);
        WorkTells(s.shards[a.shard].world, a.event, c);
        WorkedWorld(s, a);
      } else {
        BelievedKept(s, a, c, p);
        HeldElsewhere(s, c, p, a.shard);
        ClientUntouched(s, a, c);
      }
    }
  }

  lemma WorkStaysPut(s: System, a: Action, c: ConnectionId, p: Place)
    requires Enabled(s, a) && a.Work?
    ensures Origin(s, a, c, p) == p
  {
  }

  lemma WorkedWorld(s: System, a: Action)
    requires Enabled(s, a) && a.Work?
    ensures a.shard in Next(s, a).shards
    ensures Next(s, a).shards[a.shard].world == ShardRuns.Step(s.shards[a.shard].world, a.event)
  {
    hide ShardRuns.Step, Given, Run;
  }

  /** A shard and its record agree with the client: what is handed over shows it exactly when the condition holds. */
  lemma StandingShows(t: ShardTask, c: ConnectionId)
    requires ShardRuns.Invariant(t.world) && IsAttached(t, c)
    ensures Show(Standing(t, c)) == ToldAt(t.world, c) <==> ShowsClient(t, c)
  {
    hide Show, Run, ShardRuns.ShowsTheSame, Shards.Composed, ShardRuns.Recorded, ShardRuns.Faithful;
    ShardRuns.HandoverExact(t.world, c);
  }

  /** A hand-over leaves the migration right about the client if and only if the source's newest view shows it. */
  lemma HandedOver(s: System, a: Action, c: ConnectionId, task: TaskId)
    requires SinglePlace(s) && Healthy(s) && Exact(s, c) && HandsOver(s, a, c, task)
    ensures Exact(Next(s, a), c) <==> ShowsClient(s.shards[a.shard], c)
  {
    hide Next, Show, ToldAt, ShowsClient, ShardRuns.Invariant, WellKeyed, Standing;
    var s', t := Next(s, a), s.shards[a.shard];
    assert Holds(s, c, AtShard(a.shard));
    StandingShows(t, c);
    HandingOver(s, a, c, task);
    HandlingTellsNobody(s, a);
    NextSinglePlace(s, a);
  }

  lemma HandingOver(s: System, a: Action, c: ConnectionId, task: TaskId)
    requires HandsOver(s, a, c, task)
    ensures Holds(Next(s, a), c, InFlight(task))
    ensures ViewAt(Next(s, a), c, InFlight(task)) == Standing(s.shards[a.shard], c)
  {
    hide ShardRuns.Step, Standing;
  }

  /** The step's hand-overs of this connection all show its client. */
  ghost predicate HandsOverWell(s: System, a: Action, c: ConnectionId) {
    forall task | HandsOver(s, a, c, task) :: ShowsClient(s.shards[a.shard], c)
  }

  /**
   Every step of the system: where whoever has the connection was right about its client, they
   are right afterwards if and only if the step hands over nothing the client does not hold.
   */
  lemma NextExact(s: System, a: Action, c: ConnectionId)
    requires SinglePlace(s) && Healthy(s) && Enabled(s, a) && Mindful(s, a) && Exact(s, c)
    ensures Exact(Next(s, a), c) <==> HandsOverWell(s, a, c)
  {
    hide Next, Enabled, SinglePlace, Healthy, Mindful, ShowsClient, Holds, Origin, HandsOver, ViewAt, Show;
    if task :| HandsOver(s, a, c, task) {
      HandedOver(s, a, c, task);
    } else if a.Work? {
      WorkExact(s, a, c);
    } else {
      OthersExact(s, a, c);
    }
  }

  lemma OthersExact(s: System, a: Action, c: ConnectionId)
    requires SinglePlace(s) && Enabled(s, a) && Exact(s, c) && !a.Work?
    requires forall task :: !HandsOver(s, a, c, task)
    ensures Exact(Next(s, a), c)
  {
    hide Next, Enabled, SinglePlace, Holds, Origin, HandsOver, ViewAt, Show, ToldAt;
    var s' := Next(s, a);
    forall p | Holds(s', c, p) ensures c in s'.client && s'.client[c] == Believed(s', c, p) {
      if a.Register? && a.connection == c {
        FreshlyRegistered(s, a, p);
      } else {
        BelievedKept(s, a, c, p);
        ClientUntouched(s, a, c);
      }
    }
  }

  // ---------------------------------------------------------------- whole runs

  /** Up to step `n` every shard keeps to its guards. */
  ghost predicate MindfulRun(systems: seq<System>, actions: seq<Action>, n: nat) {
    && IsRun(systems, actions) && n < |systems|
    && forall i | 0 <= i < n :: Mindful(systems[i], actions[i])
  }

  lemma {:induction false} RunsStayHealthy(systems: seq<System>, actions: seq<Action>, n: nat)
    requires MindfulRun(systems, actions, n)
    ensures SinglePlace(systems[n]) && Healthy(systems[n])
  {
    hide SinglePlace, Healthy, Next, Enabled, Mindful;
    RunsKeepSinglePlace(systems, actions, n);
    if n == 0 {
      NewSystem();
    } else {
      RunsStayHealthy(systems, actions, n - 1);
      HealthyNext(systems[n - 1], actions[n - 1]);
    }
  }

  lemma NewSystem()
    ensures Healthy(NEW_SYSTEM)
  {
  }

  lemma NewSystemExact(c: ConnectionId)
    ensures Exact(NEW_SYSTEM, c)
  {
  }

  /** At every point up to `n`, whoever has the connection is right about its client. */
  ghost predicate ExactUpTo(systems: seq<System>, n: nat, c: ConnectionId)
    requires n < |systems|
  {
    forall i | 0 <= i <= n :: Exact(systems[i], c)
  }

  /** Every hand-over of the connection before `n` shows its client. */
  ghost predicate HandedOverWell(systems: seq<System>, actions: seq<Action>, n: nat, c: ConnectionId)
    requires n < |systems| && n <= |actions|
  {
    forall i | 0 <= i < n :: HandsOverWell(systems[i], actions[i], c)
  }

  /**
   Over every run whose shards keep to their guards: whoever has the connection is right about
   its client at every point, if and only if every hand-over of it is of a connection whose
   source's newest view shows what its client holds.
   */
  lemma {:induction false} RunsStayExact(systems: seq<System>, actions: seq<Action>, n: nat, c: ConnectionId)
    requires MindfulRun(systems, actions, n)
    ensures ExactUpTo(systems, n, c) <==> HandedOverWell(systems, actions, n, c)
  {
    hide SinglePlace, Healthy, Next, Enabled, Mindful, Exact, HandsOverWell;
    if n == 0 {
      NewSystemExact(c);
    } else {
      RunsStayExact(systems, actions, n - 1, c);
      RunsStayHealthy(systems, actions, n - 1);
      assert ExactUpTo(systems, n, c) <==> ExactUpTo(systems, n - 1, c) && Exact(systems[n], c);
      assert HandedOverWell(systems, actions, n, c) <==>
        HandedOverWell(systems, actions, n - 1, c) && HandsOverWell(systems[n - 1], actions[n - 1], c);
      if ExactUpTo(systems, n - 1, c) {
        assert Exact(systems[n - 1], c);
        NextExact(systems[n - 1], actions[n - 1], c);
      }
    }
  }

  /** Nobody reaches a client whose view is travelling. */
  lemma {:induction false} TravellersHearNothing(
    systems: seq<System>, actions: seq<Action>, k: nat, n: nat, c: ConnectionId, task: TaskId)
    requires IsRun(systems, actions) && k <= n < |systems|
    requires forall j | k <= j <= n :: Holds(systems[j], c, InFlight(task))
    ensures c in systems[k].client && c in systems[n].client && systems[n].client[c] == systems[k].client[c]
  {
    hide Next;
    RunsKeepSinglePlace(systems, actions, k);
    assert Holds(systems[k], c, InFlight(task));
    if k < n {
      TravellersHearNothing(systems, actions, k, n - 1, c, task);
      RunsKeepSinglePlace(systems, actions, n - 1);
      var s, a := systems[n - 1], actions[n - 1];
      assert Holds(s, c, InFlight(task));
      if a.Work? {
        HeldElsewhere(s, c, InFlight(task), a.shard);
      }
      ClientUntouched(s, a, c);
    }
  }

  /**
   What the destination is asked to attach, against what the client holds at that moment. If the
   source was right about its client when it handled the detach, then the view queued shows what
   the client holds if and only if the source's newest view did.
   */
  lemma HandOverDeliversClientView(systems: seq<System>, actions: seq<Action>, n: nat, task: TaskId) returns (k: nat)
    requires MindfulRun(systems, actions, n) && n < |actions| && actions[n] == HandOver(task, false)
    requires Takes(systems[n], systems[n].tasks[task].to, false)
    ensures k < n && HandsOver(systems[k], actions[k], systems[n].tasks[task].connection, task)
    ensures var s, s', m := systems[n], systems[n + 1], systems[n].tasks[task];
      && |s'.shards[m.to].mailbox| == |s.shards[m.to].mailbox| + 1
      && s'.shards[m.to].mailbox[|s.shards[m.to].mailbox|].Attach?
      && m.connection in s'.client
      && (Exact(systems[k], m.connection) ==>
            (Show(s'.shards[m.to].mailbox[|s.shards[m.to].mailbox|].held) == s'.client[m.connection] <==>
             ShowsClient(systems[k].shards[actions[k].shard], m.connection)))
  {
    hide Show, ToldAt, ShowsClient, Healthy, SinglePlace, Standing, Exact, Mindful, HandsOver, Next;
    var s, c := systems[n], systems[n].tasks[task].connection;
    assert Enabled(s, actions[n]) && systems[n + 1] == Next(s, actions[n]);
    k := TravelsAsComposed(systems, actions, n, c, task);
    TravellersHearNothing(systems, actions, k + 1, n, c, task);
    QueuesTheView(s, task);
    SourceShows(systems, actions, k, c, task);
  }

  lemma QueuesTheView(s: System, task: TaskId)
    requires Enabled(s, HandOver(task, false)) && Takes(s, s.tasks[task].to, false)
    ensures var s', m := Next(s, HandOver(task, false)), s.tasks[task];
      && s'.client == s.client && m.to in s'.shards
      && s'.shards[m.to].mailbox == s.shards[m.to].mailbox + [Attach(m.connection, m.view)]
  {
  }

  /** The source's own moment: right about its client, it hands over what the client holds exactly on the condition. */
  lemma SourceShows(systems: seq<System>, actions: seq<Action>, k: nat, c: ConnectionId, task: TaskId)
    requires MindfulRun(systems, actions, k) && k < |actions| && HandsOver(systems[k], actions[k], c, task)
    ensures systems[k + 1].client == systems[k].client
    ensures Exact(systems[k], c) ==>
      var t := systems[k].shards[actions[k].shard];
      c in systems[k].client && (Show(Standing(t, c)) == systems[k].client[c] <==> ShowsClient(t, c))
  {
    hide Show, ToldAt, ShowsClient, SinglePlace, Standing, Mindful, Next, ShardRuns.Invariant, WellKeyed;
    var s, a := systems[k], actions[k];
    RunsStayHealthy(systems, actions, k);
    assert systems[k + 1] == Next(s, a);
    HandlingTellsNobody(s, a);
    StandingShows(s.shards[a.shard], c);
    assert Holds(s, c, AtShard(a.shard));
  }
}
