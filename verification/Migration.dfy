/**
 Moving a connection between shards: mailboxes, concurrent migration tasks, shard destruction
 and departures, as a transition system whose every step is one indivisible action of the
 runtime. Every shard is a whole shard: between two commands it reconciles and retries as it
 will, and its queues refuse as they will, so what it composes for a connection can run ahead
 of what the connection's client holds.
 */
module Migration {
  import opened Collections
  import opened Views
  import opened Planner
  import opened Clients
  import Shards
  import ShardRuns

  type TaskId = nat

  datatype Command =
    | Attach(connection: ConnectionId, held: ShardView)
    | Detach(connection: ConnectionId, reply: Option<TaskId>)

  /** A shard's task: its mailbox, and the shard with what is remembered about its run. */
  datatype ShardTask = ShardTask(alive: bool, mailbox: seq<Command>, world: ShardRuns.World)

  datatype Peer = Peer(shard: ShardId, closing: bool)

  /** How far a migration has got. The view travels in `Delivered` and `Moving`. */
  datatype Task =
    | Started(connection: ConnectionId, to: ShardId)
    | Routed(connection: ConnectionId, to: ShardId, from: ShardId)
    | Ready(connection: ConnectionId, to: ShardId, from: ShardId)
    | Asked(connection: ConnectionId, to: ShardId)
    | Delivered(connection: ConnectionId, to: ShardId, view: ShardView)
    | Moving(connection: ConnectionId, to: ShardId, view: ShardView)
    | Done

  datatype System = System(
    shards: map<ShardId, ShardTask>,
    directory: set<ShardId>,
    peers: map<ConnectionId, Peer>,
    tasks: map<TaskId, Task>,
    registered: set<ConnectionId>,
    /** What each client really holds: everything its queue ever accepted, folded from nothing. */
    client: map<ConnectionId, Client>)

  const NEW_SYSTEM := System(map[], {}, map[], map[], {}, map[])

  datatype Action =
    | CreateShard(shard: ShardId)
    /** The gateway attaches a connection that has just been routed; connection ids are never reused. */
    | Register(connection: ConnectionId, shard: ShardId, full: bool)
    | RequestMove(task: TaskId, connection: ConnectionId, to: ShardId)
    | ReadPeer(task: TaskId)
    | ReadDirectory(task: TaskId)
    | AskSource(task: TaskId, full: bool)
    /** A reply channel closed without a value, or a task reaped with its supervisor. */
    | Abandon(task: TaskId)
    | MovePeer(task: TaskId)
    | HandOver(task: TaskId, full: bool)
    /** A shard handles its oldest command; an attach that finds no session left is refused and the peer closed. */
    | Handle(shard: ShardId, session: Option<SessionId>)
    /** A shard reconciles or retries; what each queue answers is part of the event. */
    | Work(shard: ShardId, event: ShardRuns.Event)
    | Destroy(shard: ShardId)
    | Abort(shard: ShardId)
    | Leave(connection: ConnectionId, full: bool)

  // ---------------------------------------------------------------- the steps

  predicate Takes(s: System, shard: ShardId, full: bool) {
    shard in s.shards && s.shards[shard].alive && !full
  }

  function Send(s: System, shard: ShardId, command: Command): System
    requires shard in s.shards
  {
    s.(shards := s.shards[shard := s.shards[shard].(mailbox := s.shards[shard].mailbox + [command])])
  }

  function SetTask(s: System, task: TaskId, state: Task): System {
    s.(tasks := s.tasks[task := state])
  }

  function ClosePeer(s: System, connection: ConnectionId): System {
    if connection in s.peers then s.(peers := s.peers[connection := s.peers[connection].(closing := true)]) else s
  }

  predicate Enabled(s: System, a: Action) {
    match a
    case CreateShard(shard) => shard !in s.shards
    case Register(c, shard, _) => c !in s.registered && shard in s.directory && shard in s.shards
    case RequestMove(task, _, _) => task !in s.tasks
    case ReadPeer(task) => task in s.tasks && s.tasks[task].Started?
    case ReadDirectory(task) => task in s.tasks && s.tasks[task].Routed?
    case AskSource(task, _) => task in s.tasks && s.tasks[task].Ready?
    case Abandon(task) => task in s.tasks
    case MovePeer(task) => task in s.tasks && s.tasks[task].Delivered?
    case HandOver(task, _) => task in s.tasks && s.tasks[task].Moving?
    case Handle(shard, _) => shard in s.shards && s.shards[shard].alive && s.shards[shard].mailbox != []
    case Work(shard, e) => shard in s.shards && s.shards[shard].alive && !e.Attach? && !e.Detach?
    case Destroy(shard) => shard in s.directory
    case Abort(shard) => shard in s.shards && shard !in s.directory
    case Leave(c, _) => c in s.peers
  }

  /** The gateway's attach: point the peer at the shard, then queue the command. */
  function Registered(s: System, c: ConnectionId, shard: ShardId, full: bool): System {
    var named := s.(
      registered := s.registered + {c},
      peers := s.peers[c := Peer(shard, false)],
      client := s.client[c := Show(EMPTY_VIEW)]);
    if Takes(s, shard, full) then Send(named, shard, Attach(c, EMPTY_VIEW)) else named
  }

  predicate IsAttached(t: ShardTask, c: ConnectionId) {
    c in t.world.shard.connections
  }

  /** What a shard composes for a connection, from its newest view. */
  function Standing(t: ShardTask, c: ConnectionId): ShardView
    requires IsAttached(t, c)
  {
    Shards.Composed(t.world.shard.connections[c], t.world.shard.view)
  }

  /** Somebody is waiting for the reply to a detach of `c`. */
  predicate Awaited(s: System, c: ConnectionId, reply: Option<TaskId>) {
    reply.Some? && reply.value in s.tasks && s.tasks[reply.value].Asked? && s.tasks[reply.value].connection == c
  }

  /** A shard takes one command off its mailbox. */
  function Handled(s: System, shard: ShardId, session: Option<SessionId>): System
    requires Enabled(s, Handle(shard, session))
  {
    var task := s.shards[shard];
    var command, rest := task.mailbox[0], task.mailbox[1..];
    match command
    case Attach(c, held) =>
      if session.None? then ClosePeer(s.(shards := s.shards[shard := task.(mailbox := rest)]), c)
      else
        var world := ShardRuns.Step(task.world, ShardRuns.Attach(c, session.value, held));
        s.(shards := s.shards[shard := task.(mailbox := rest, world := world)])
    case Detach(c, reply) =>
      var world := ShardRuns.Step(task.world, ShardRuns.Detach(c));
      var after := s.(shards := s.shards[shard := task.(mailbox := rest, world := world)]);
      // A connection that is not attached here answers nobody: the reply channel is dropped.
      if IsAttached(task, c) && Awaited(s, c, reply)
      then SetTask(after, reply.value, Delivered(c, s.tasks[reply.value].to, Standing(task, c)))
      else after
  }

  /** What an event of a shard has a connection's queue accept. */
  function Given(w: ShardRuns.World, e: ShardRuns.Event, c: ConnectionId): seq<PlanOp>
    requires c in w.shard.connections
  {
    match e
    case Retry(d, verdict) => if d == c then Shards.RetryTurn(w.shard, c, verdict).sent else []
    case Reconcile(r, observations, verdicts) =>
      if Shards.Idle(w.shard, r, observations) then []
      else Shards.TurnOf(w.shard, r, observations, verdicts, c).sent
    case Attach(_, _, _) => []
    case Detach(_) => []
    case Refuse => []
  }

  /** A shard works: its own run takes a step, and each client receives what its queue accepted. */
  function Worked(s: System, shard: ShardId, e: ShardRuns.Event): System
    requires shard in s.shards
  {
    var t := s.shards[shard];
    s.(shards := s.shards[shard := t.(world := ShardRuns.Step(t.world, e))],
       client := map c | c in s.client ::
         if IsAttached(t, c) then Run(s.client[c], Given(t.world, e, c)) else s.client[c])
  }

  function Next(s: System, a: Action): System
    requires Enabled(s, a)
  {
    match a
    case CreateShard(shard) =>
      s.(shards := s.shards[shard := ShardTask(true, [], ShardRuns.NEW_WORLD)], directory := s.directory + {shard})
    case Register(c, shard, full) => Registered(s, c, shard, full)
    case RequestMove(task, c, to) => SetTask(s, task, Started(c, to))
    case ReadPeer(task) =>
      var m := s.tasks[task];
      if m.connection !in s.peers || s.peers[m.connection].shard == m.to then SetTask(s, task, Done)
      else SetTask(s, task, Routed(m.connection, m.to, s.peers[m.connection].shard))
    case ReadDirectory(task) =>
      var m := s.tasks[task];
      if m.to !in s.directory then SetTask(s, task, Done)
      else if m.from !in s.directory then SetTask(ClosePeer(s, m.connection), task, Done)
      else SetTask(s, task, Ready(m.connection, m.to, m.from))
    case AskSource(task, full) =>
      var m := s.tasks[task];
      if Takes(s, m.from, full)
      then SetTask(Send(s, m.from, Detach(m.connection, Some(task))), task, Asked(m.connection, m.to))
      else SetTask(ClosePeer(s, m.connection), task, Done)
    case Abandon(task) =>
      if s.tasks[task].Done? then s else SetTask(ClosePeer(s, s.tasks[task].connection), task, Done)
    case MovePeer(task) =>
      var m := s.tasks[task];
      var moved := if m.connection in s.peers
        then s.(peers := s.peers[m.connection := s.peers[m.connection].(shard := m.to)]) else s;
      SetTask(moved, task, Moving(m.connection, m.to, m.view))
    case HandOver(task, full) =>
      var m := s.tasks[task];
      if Takes(s, m.to, full) then SetTask(Send(s, m.to, Attach(m.connection, m.view)), task, Done)
      else SetTask(ClosePeer(s, m.connection), task, Done)
    case Handle(shard, session) => Handled(s, shard, session)
    case Work(shard, e) => Worked(s, shard, e)
    case Destroy(shard) =>
      s.(directory := s.directory - {shard},
         peers := map c | c in s.peers ::
           if s.peers[c].shard == shard then s.peers[c].(closing := true) else s.peers[c])
    case Abort(shard) => s.(shards := s.shards[shard := ShardTask(false, [], ShardRuns.NEW_WORLD)])
    case Leave(c, full) =>
      var gone := s.(peers := s.peers - {c});
      if Takes(s, s.peers[c].shard, full) then Send(gone, s.peers[c].shard, Detach(c, None)) else gone
  }

  // ---------------------------------------------------------------- where a connection's view can be

  datatype Place = AtShard(shard: ShardId) | Queued(shard: ShardId, index: nat) | InFlight(task: TaskId)

  /** Attached at a shard, waiting in a mailbox to be attached, or travelling with a migration. */
  predicate Holds(s: System, c: ConnectionId, p: Place) {
    match p
    case AtShard(shard) => shard in s.shards && IsAttached(s.shards[shard], c)
    case Queued(shard, i) =>
      shard in s.shards && i < |s.shards[shard].mailbox| && s.shards[shard].mailbox[i].Attach?
      && s.shards[shard].mailbox[i].connection == c
    case InFlight(task) =>
      task in s.tasks && (s.tasks[task].Delivered? || s.tasks[task].Moving?) && s.tasks[task].connection == c
  }

  /** The view there: what the shard composes, what the mailbox carries, what travels. */
  function ViewAt(s: System, c: ConnectionId, p: Place): ShardView
    requires Holds(s, c, p)
  {
    match p
    case AtShard(shard) => Standing(s.shards[shard], c)
    case Queued(shard, i) => s.shards[shard].mailbox[i].held
    case InFlight(task) => s.tasks[task].view
  }

  /** Where what is at `p` after an action was before it. */
  function Origin(s: System, a: Action, c: ConnectionId, p: Place): Place
    requires Enabled(s, a)
  {
    match a
    case Handle(shard, _) =>
      var command := s.shards[shard].mailbox[0];
      if p == AtShard(shard) && command.Attach? && command.connection == c && a.session.Some? then Queued(shard, 0)
      else if p.Queued? && p.shard == shard then Queued(shard, p.index + 1)
      else if p.InFlight? && command.Detach? && command.reply == Some(p.task) && command.connection == c
           && IsAttached(s.shards[shard], c) && p.task in s.tasks && s.tasks[p.task].Asked?
      then AtShard(shard)
      else p
    case HandOver(task, full) =>
      var m := s.tasks[task];
      if m.connection == c && Takes(s, m.to, full) && p == Queued(m.to, |s.shards[m.to].mailbox|) then InFlight(task)
      else p
    case CreateShard(_) => p
    case Register(_, _, _) => p
    case RequestMove(_, _, _) => p
    case ReadPeer(_) => p
    case ReadDirectory(_) => p
    case AskSource(_, _) => p
    case Abandon(_) => p
    case MovePeer(_) => p
    case Work(_, _) => p
    case Destroy(_) => p
    case Abort(_) => p
    case Leave(_, _) => p
  }

  lemma NextHandles(s: System, a: Action)
    requires Enabled(s, a) && a.Handle?
    ensures Next(s, a) == Handled(s, a.shard, a.session)
  {
    hide Handled;
  }

  lemma TracedAttach(s: System, a: Action, c: ConnectionId, p: Place)
    requires Enabled(s, a) && Holds(Next(s, a), c, p)
    requires a.Handle? && s.shards[a.shard].mailbox[0].Attach? && a.session.Some?
    ensures Holds(s, c, Origin(s, a, c, p))
    ensures ViewAt(Next(s, a), c, p) == ViewAt(s, c, Origin(s, a, c, p))
  {
    hide Given, Run, Worked, ClosePeer;
    NextHandles(s, a);
    hide Next;
  }

  lemma TracedRefusal(s: System, a: Action, c: ConnectionId, p: Place)
    requires Enabled(s, a) && Holds(Next(s, a), c, p)
    requires a.Handle? && s.shards[a.shard].mailbox[0].Attach? && a.session.None?
    ensures Holds(s, c, Origin(s, a, c, p))
    ensures ViewAt(Next(s, a), c, p) == ViewAt(s, c, Origin(s, a, c, p))
  {
    hide Given, Run, Worked, ClosePeer, ShardRuns.Step, Shards.Composed;
    NextHandles(s, a);
    ClosingMovesNobody(s.(shards := s.shards[a.shard := s.shards[a.shard].(mailbox := s.shards[a.shard].mailbox[1..])]),
                       s.shards[a.shard].mailbox[0].connection);
    hide Next;
  }

  lemma ClosingMovesNobody(s: System, c: ConnectionId)
    ensures ClosePeer(s, c).shards == s.shards && ClosePeer(s, c).tasks == s.tasks
  {
  }

  lemma TracedDetach(s: System, a: Action, c: ConnectionId, p: Place)
    requires Enabled(s, a) && Holds(Next(s, a), c, p)
    requires a.Handle? && s.shards[a.shard].mailbox[0].Detach?
    ensures Holds(s, c, Origin(s, a, c, p))
    ensures ViewAt(Next(s, a), c, p) == ViewAt(s, c, Origin(s, a, c, p))
  {
    hide Shards.Composed, Given, Run, Worked;
    NextHandles(s, a);
    hide Next;
  }

  lemma TracedTasks(s: System, a: Action, c: ConnectionId, p: Place)
    requires Enabled(s, a) && Holds(Next(s, a), c, p)
    requires a.RequestMove? || a.ReadPeer? || a.ReadDirectory? || a.Abandon? || a.MovePeer?
    ensures Holds(s, c, Origin(s, a, c, p))
    ensures ViewAt(Next(s, a), c, p) == ViewAt(s, c, Origin(s, a, c, p))
  {
    hide ShardRuns.Step, Shards.Composed, Given, Run, Handled;
  }

  lemma TracedSends(s: System, a: Action, c: ConnectionId, p: Place)
    requires Enabled(s, a) && Holds(Next(s, a), c, p)
    requires a.AskSource? || a.Leave?
    ensures Holds(s, c, Origin(s, a, c, p))
    ensures ViewAt(Next(s, a), c, p) == ViewAt(s, c, Origin(s, a, c, p))
  {
    hide ShardRuns.Step, Shards.Composed, Given, Run, Handled, Registered;
  }

  lemma TracedRegister(s: System, a: Action, c: ConnectionId, p: Place)
    requires Enabled(s, a) && Holds(Next(s, a), c, p)
    requires a.Register? && a.connection != c
    ensures Holds(s, c, Origin(s, a, c, p))
    ensures ViewAt(Next(s, a), c, p) == ViewAt(s, c, Origin(s, a, c, p))
  {
    hide ShardRuns.Step, Shards.Composed, Given, Run, Handled;
  }

  lemma TracedHandOver(s: System, a: Action, c: ConnectionId, p: Place)
    requires Enabled(s, a) && Holds(Next(s, a), c, p)
    requires a.HandOver?
    ensures Holds(s, c, Origin(s, a, c, p))
    ensures ViewAt(Next(s, a), c, p) == ViewAt(s, c, Origin(s, a, c, p))
  {
    hide ShardRuns.Step, Shards.Composed, Given, Run, Handled;
  }

  lemma TracedShards(s: System, a: Action, c: ConnectionId, p: Place)
    requires Enabled(s, a) && Holds(Next(s, a), c, p)
    requires a.CreateShard? || a.Destroy? || a.Abort?
    ensures Holds(s, c, Origin(s, a, c, p))
    ensures ViewAt(Next(s, a), c, p) == ViewAt(s, c, Origin(s, a, c, p))
  {
    hide ShardRuns.Step, Shards.Composed, Given, Run, Handled;
  }

  /** Reconciling and retrying attach nobody and detach nobody. */
  lemma WorkKeepsAttached(w: ShardRuns.World, e: ShardRuns.Event)
    requires !e.Attach? && !e.Detach?
    ensures ShardRuns.Step(w, e).shard.connections.Keys == w.shard.connections.Keys
  {
    hide Shards.Idle, Shards.TurnOf, Shards.RetryTurn, Shards.LogAfter;
  }

  lemma TracedWork(s: System, a: Action, c: ConnectionId, p: Place)
    requires Enabled(s, a) && Holds(Next(s, a), c, p) && a.Work?
    ensures Holds(s, c, Origin(s, a, c, p))
    ensures p != AtShard(a.shard) ==> ViewAt(Next(s, a), c, p) == ViewAt(s, c, Origin(s, a, c, p))
  {
    WorkKeepsAttached(s.shards[a.shard].world, a.event);
    hide ShardRuns.Step, Shards.Composed, Given, Run;
  }

  /**
   No action invents a place: apart from a registration, whatever is held was held before. And
   no action but a shard's own work changes the view there.
   */
  lemma Traced(s: System, a: Action, c: ConnectionId, p: Place)
    requires Enabled(s, a) && Holds(Next(s, a), c, p)
    requires !(a.Register? && a.connection == c)
    ensures Holds(s, c, Origin(s, a, c, p))
    ensures !(a.Work? && p == AtShard(a.shard)) ==> ViewAt(Next(s, a), c, p) == ViewAt(s, c, Origin(s, a, c, p))
  {
    assert a.Handle? ==> a.shard in s.shards && s.shards[a.shard].mailbox != [];
    hide Enabled, Holds, Next, Origin, ViewAt;
    match a {
      case CreateShard(_) => TracedShards(s, a, c, p);
      case Register(_, _, _) => TracedRegister(s, a, c, p);
      case RequestMove(_, _, _) => TracedTasks(s, a, c, p);
      case ReadPeer(_) => TracedTasks(s, a, c, p);
      case ReadDirectory(_) => TracedTasks(s, a, c, p);
      case AskSource(_, _) => TracedSends(s, a, c, p);
      case Abandon(_) => TracedTasks(s, a, c, p);
      case MovePeer(_) => TracedTasks(s, a, c, p);
      case HandOver(_, _) => TracedHandOver(s, a, c, p);
      case Handle(shard, session) =>
        if s.shards[shard].mailbox[0].Detach? { TracedDetach(s, a, c, p); }
        else if session.Some? { TracedAttach(s, a, c, p); }
        else { TracedRefusal(s, a, c, p); }
      case Work(_, _) => TracedWork(s, a, c, p);
      case Destroy(_) => TracedShards(s, a, c, p);
      case Abort(_) => TracedShards(s, a, c, p);
      case Leave(_, _) => TracedSends(s, a, c, p);
    }
  }

  /** And no action copies one: two places held afterwards were two places before. */
  lemma Separate(s: System, a: Action, c: ConnectionId, p: Place, q: Place)
    requires Enabled(s, a) && Holds(Next(s, a), c, p) && Holds(Next(s, a), c, q)
    requires Origin(s, a, c, p) == Origin(s, a, c, q)
    ensures p == q
  {
  }

  // ---------------------------------------------------------------- one connection, one place

  /** For each connection, attaching shards, queued attaches and travelling views number at most one in all. */
  ghost predicate SinglePlace(s: System) {
    && (forall c, p, q | Holds(s, c, p) && Holds(s, c, q) :: p == q)
    && (forall c, p | Holds(s, c, p) :: c in s.registered && c in s.client)
  }

  lemma RegisteredGrows(s: System, a: Action)
    requires Enabled(s, a)
    ensures s.registered <= Next(s, a).registered && s.client.Keys <= Next(s, a).client.Keys
  {
    hide ShardRuns.Step, Given, Run, Shards.Composed;
  }

  lemma NextSinglePlace(s: System, a: Action)
    requires SinglePlace(s) && Enabled(s, a)
    ensures SinglePlace(Next(s, a))
  {
    hide Enabled, Holds, Next, Origin, ViewAt;
    var s' := Next(s, a);
    forall c, p, q | Holds(s', c, p) && Holds(s', c, q) ensures p == q {
      if a.Register? && a.connection == c {
        FreshlyRegistered(s, a, p);
        FreshlyRegistered(s, a, q);
      } else {
        Traced(s, a, c, p);
        Traced(s, a, c, q);
        Separate(s, a, c, p, q);
      }
    }
    forall c, p | Holds(s', c, p) ensures c in s'.registered && c in s'.client {
      if a.Register? && a.connection == c {
        FreshlyRegistered(s, a, p);
      } else {
        Traced(s, a, c, p);
        RegisteredGrows(s, a);
      }
    }
  }

  /** A fresh connection is in exactly one place: at the end of its first shard's mailbox. */
  lemma FreshlyRegistered(s: System, a: Action, p: Place)
    requires SinglePlace(s) && a.Register? && Enabled(s, a) && Holds(Next(s, a), a.connection, p)
    ensures p == Queued(a.shard, |s.shards[a.shard].mailbox|)
    ensures var s' := Next(s, a);
      && a.connection in s'.registered && a.connection in s'.client
      && ViewAt(s', a.connection, p) == EMPTY_VIEW && s'.client[a.connection] == Show(EMPTY_VIEW)
  {
    if p != Queued(a.shard, |s.shards[a.shard].mailbox|) {
      assert Holds(s, a.connection, p);
    }
  }

  ghost predicate IsRun(systems: seq<System>, actions: seq<Action>) {
    && |systems| == |actions| + 1
    && systems[0] == NEW_SYSTEM
    && forall i | 0 <= i < |actions| ::
         Enabled(systems[i], actions[i]) && systems[i + 1] == Next(systems[i], actions[i])
  }

  /** Under every interleaving, every connection is in at most one place. */
  lemma {:induction false} RunsKeepSinglePlace(systems: seq<System>, actions: seq<Action>, n: nat)
    requires IsRun(systems, actions) && n < |systems|
    ensures SinglePlace(systems[n])
  {
    hide SinglePlace, Next;
    if n == 0 {
      StartsEmpty();
    } else {
      RunsKeepSinglePlace(systems, actions, n - 1);
      NextSinglePlace(systems[n - 1], actions[n - 1]);
    }
  }

  lemma StartsEmpty()
    ensures SinglePlace(NEW_SYSTEM)
  {
  }

  // ---------------------------------------------------------------- what is handed over

  /** A shard about to handle the detach a migration is waiting for, of a connection it has attached. */
  predicate HandsOver(s: System, a: Action, c: ConnectionId, task: TaskId) {
    && a.Handle? && Enabled(s, a)
    && s.shards[a.shard].mailbox[0] == Detach(c, Some(task))
    && IsAttached(s.shards[a.shard], c) && Awaited(s, c, Some(task))
  }

  /** Apart from a shard handling a detach, no action starts a view travelling or changes one that travels. */
  lemma TravelsAlready(s: System, a: Action, c: ConnectionId, task: TaskId)
    requires Enabled(s, a) && !a.Handle? && Holds(Next(s, a), c, InFlight(task))
    ensures Holds(s, c, InFlight(task)) && Next(s, a).tasks[task].view == s.tasks[task].view
  {
    hide ShardRuns.Step, Given, Run, Shards.Composed, Handled, Registered, Send;
    if a.Register? || a.Leave? {
      SendingMovesNoTask(s, a);
    } else if a.AskSource? {
      AskingMovesOneTask(s, a);
    } else if a.HandOver? {
      HandingOverEndsTask(s, a);
    }
  }

  lemma SendingMovesNoTask(s: System, a: Action)
    requires Enabled(s, a) && (a.Register? || a.Leave?)
    ensures Next(s, a).tasks == s.tasks
  {
    hide Handled, Worked;
  }

  lemma AskingMovesOneTask(s: System, a: Action)
    requires Enabled(s, a) && a.AskSource?
    ensures exists t: Task :: (t.Asked? || t.Done?) && Next(s, a).tasks == s.tasks[a.task := t]
  {
    hide Handled, Worked;
    var t := Next(s, a).tasks[a.task];
    assert (t.Asked? || t.Done?) && Next(s, a).tasks == s.tasks[a.task := t];
  }

  lemma HandingOverEndsTask(s: System, a: Action)
    requires Enabled(s, a) && a.HandOver?
    ensures Next(s, a).tasks == s.tasks[a.task := Done]
  {
    hide Handled, Worked;
  }

  /** A view starts travelling only when a source hands it over, and it is what the source composes then. */
  lemma StartsTravelling(s: System, a: Action, c: ConnectionId, task: TaskId)
    requires Enabled(s, a) && Holds(Next(s, a), c, InFlight(task)) && !Holds(s, c, InFlight(task))
    ensures HandsOver(s, a, c, task)
    ensures Next(s, a).tasks[task].view == Standing(s.shards[a.shard], c)
  {
    hide ShardRuns.Step, Shards.Composed, Next;
    if a.Handle? {
      NextHandles(s, a);
    } else {
      TravelsAlready(s, a, c, task);
    }
  }

  /** And nothing changes it on the way. */
  lemma KeepsTravelling(s: System, a: Action, c: ConnectionId, task: TaskId)
    requires Enabled(s, a) && Holds(Next(s, a), c, InFlight(task)) && Holds(s, c, InFlight(task))
    ensures Next(s, a).tasks[task].view == s.tasks[task].view
  {
    hide ShardRuns.Step, Shards.Composed, Next;
    if a.Handle? {
      NextHandles(s, a);
    } else {
      TravelsAlready(s, a, c, task);
    }
  }

  /**
   Whatever travels with a migration at any point of any run is exactly what the source composed
   at the step at which it handled that migration's detach, and it has travelled ever since.
   */
  lemma {:induction false} TravelsAsComposed(
    systems: seq<System>, actions: seq<Action>, n: nat, c: ConnectionId, task: TaskId) returns (k: nat)
    requires IsRun(systems, actions) && n < |systems| && Holds(systems[n], c, InFlight(task))
    ensures k < n && HandsOver(systems[k], actions[k], c, task)
    ensures systems[n].tasks[task].view == Standing(systems[k].shards[actions[k].shard], c)
    ensures forall j | k < j <= n :: Holds(systems[j], c, InFlight(task))
  {
    hide Next, Enabled, HandsOver, Standing, IsAttached;
    assert n > 0;
    assert systems[n - 1 + 1] == Next(systems[n - 1], actions[n - 1]);
    if Holds(systems[n - 1], c, InFlight(task)) {
      k := TravelsAsComposed(systems, actions, n - 1, c, task);
      KeepsTravelling(systems[n - 1], actions[n - 1], c, task);
    } else {
      k := n - 1;
      StartsTravelling(systems[n - 1], actions[n - 1], c, task);
    }
  }

  /**
   What a migration delivers: the destination is asked to attach the connection with exactly the
   view the source composed when it handled the detach, and until it does nobody has the connection.
   */
  lemma HandOverDeliversComposed(systems: seq<System>, actions: seq<Action>, n: nat, task: TaskId) returns (k: nat)
    requires IsRun(systems, actions) && n < |actions| && actions[n] == HandOver(task, false)
    requires Takes(systems[n], systems[n].tasks[task].to, false)
    ensures k < n && HandsOver(systems[k], actions[k], systems[n].tasks[task].connection, task)
    ensures var s, s', m := systems[n], systems[n + 1], systems[n].tasks[task];
      && s'.shards[m.to].mailbox
           == s.shards[m.to].mailbox
              + [Attach(m.connection, Standing(systems[k].shards[actions[k].shard], m.connection))]
      && forall p | Holds(s', m.connection, p) :: p == Queued(m.to, |s.shards[m.to].mailbox|)
  {
    var s, s', m := systems[n], systems[n + 1], systems[n].tasks[task];
    assert Holds(s, m.connection, InFlight(task));
    k := TravelsAsComposed(systems, actions, n, m.connection, task);
    RunsKeepSinglePlace(systems, actions, n);
    NextSinglePlace(s, actions[n]);
    assert s' == Next(s, actions[n]);
    assert Holds(s', m.connection, Queued(m.to, |s.shards[m.to].mailbox|));
  }
}
