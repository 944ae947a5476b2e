/**
 Replans over whole runs: in every run whose renders and handed-over views are closed trees, each
 client holds a closed tree at every point, and a replan sent to a client that holds what it was
 planned from is tolerated operation by operation.
 */
module ReplanSafety {
  import opened Collections
  import opened Scopes
  import opened Views
  import opened Planner
  import opened Clients
  import opened Deltas
  import opened Composition
  import opened FastPath
  import opened Ordering
  import opened PrefixSafety
  import opened Emission
  import opened Journals
  import opened Shards
  import opened ShardRuns

  // ---------------------------------------------------------------- trees a client holds

  ghost predicate ClientRanked(c: Client, rank: map<ChannelId, nat>) {
    forall id {:trigger c.channels[id]} | id in c.channels ::
      var parent := c.channels[id].parent;
      id in rank && if id == ROOT then parent == ROOT
        else parent in c.channels && parent in rank && rank[parent] < rank[id]
  }

  /** The client's channels are a tree, and everything in it hangs from something it holds. */
  ghost predicate Treed(c: Client) {
    (exists rank :: ClientRanked(c, rank)) && ClosedClient(c)
  }

  lemma RankedShown(v: ShardView, rank: map<ChannelId, nat>)
    ensures ClientRanked(Show(v), rank) <==> Ranked(v, rank)
  {
    var c := Show(v);
    assert forall id {:trigger c.channels[id]} {:trigger v.channels[id]} | id in v.channels ::
        c.channels[id].parent == v.channels[id].parent;
  }

  lemma ParentHeld(v: ShardView, id: ChannelId)
    requires ClosedClient(Show(v)) && id in v.channels
    ensures v.channels[id].parent in v.channels
  {
    assert Show(v).channels[id].parent == v.channels[id].parent;
  }

  lemma ChannelHeld(v: ShardView, s: SessionId)
    requires ClosedClient(Show(v)) && s in v.users
    ensures v.users[s].channel in v.channels
  {
    assert Show(v).users[s].channel == v.users[s].channel;
  }

  lemma ClosedShown(v: ShardView)
    ensures ClosedClient(Show(v)) <==> ClosedView(v)
  {
    if ClosedView(v) {
      ShownClosed(v);
    }
    hide ClosedClient, Show;
    if ClosedClient(Show(v)) {
      forall id | id in v.channels ensures v.channels[id].parent in v.channels {
        ParentHeld(v, id);
      }
      forall s | s in v.users ensures v.users[s].channel in v.channels {
        ChannelHeld(v, s);
      }
    }
  }

  /** A view is a closed tree exactly when what it shows is. */
  lemma ShownTree(v: ShardView)
    ensures Treed(Show(v)) <==> Tree(v) && ClosedView(v)
  {
    hide Show, ClientRanked, Ranked, ClosedView, ClosedClient;
    ClosedShown(v);
    forall rank ensures ClientRanked(Show(v), rank) <==> Ranked(v, rank) {
      RankedShown(v, rank);
    }
  }

  // ---------------------------------------------------------------- runs of trees

  /** Every client holds a closed tree, as its record has it. */
  ghost predicate TreedWorld(w: World) {
    forall c | c in w.shard.connections ::
      var a := w.shard.connections[c];
      a.cursor < |w.history| && Treed(Holds(a, w.history))
  }

  /** What the event commits anyone to is a closed tree. */
  ghost predicate TreedEvent(w: World, e: Event) {
    match e
    case Attach(_, _, held) => Treed(Show(held))
    case Detach(_) => true
    case Refuse => true
    case Retry(c, verdict) =>
      c in w.shard.connections && RetryTurn(w.shard, c, verdict).outcome == Advanced ==>
        Treed(Held(w.shard.view, w.shard.connections[c].see, w.shard.connections[c].overlay))
    case Reconcile(r, observations, verdicts) =>
      forall c | c in w.shard.connections :: TreedTurn(w, r, observations, verdicts, c)
  }

  ghost predicate TreedTurn(
    w: World, r: Render, observations: map<ConnectionId, ScopeSet>, verdicts: map<ConnectionId, Verdict>,
    c: ConnectionId)
    requires c in w.shard.connections
  {
    TurnOf(w.shard, r, observations, verdicts, c).outcome == Advanced ==>
      Treed(Held(r.view, Observed(observations, c), OverlayOf(r, c)))
  }

  /** A turn commits the record to the render's target, or leaves it alone. */
  lemma TurnCommits(
    w: World, r: Render, observations: map<ConnectionId, ScopeSet>, verdicts: map<ConnectionId, Verdict>,
    c: ConnectionId)
    requires c in w.shard.connections
    ensures var a, t := w.shard.connections[c], TurnOf(w.shard, r, observations, verdicts, c);
      t.attached == if t.outcome == Advanced
        then Commit(a, |LogAfter(w.shard, r)|, Observed(observations, c), OverlayOf(r, c)) else a
  {
    hide Transition, SelfFirst, ReplanOps, Plan, LogAfter;
  }

  lemma TurnKeepsTree(
    w: World, r: Render, observations: map<ConnectionId, ScopeSet>, verdicts: map<ConnectionId, Verdict>,
    c: ConnectionId)
    requires Invariant(w) && Wellformed(r) && TreedWorld(w) && c in w.shard.connections
    requires TreedTurn(w, r, observations, verdicts, c)
    ensures var t := TurnOf(w.shard, r, observations, verdicts, c);
      t.attached.cursor < |HistoryAfter(w, r)| && Treed(Holds(t.attached, HistoryAfter(w, r)))
  {
    hide TurnOf, Treed, Held, Plan, WellKeyed, Recorded, Alike, LogAfter, HistoryAfter, Disjoint, Restrict;
    var a, history := w.shard.connections[c], HistoryAfter(w, r);
    var shard := Shard(r.view, LogAfter(w.shard, r), w.shard.connections);
    RecordedAfter(w, r, w.shard.connections);
    LastAlike(shard, history);
    TurnCommits(w, r, observations, verdicts, c);
    assert Faithful(w, c);
    SoundLonger(a, w.history, history);
    AlikeHeld(history[|shard.log|], r.view, Observed(observations, c), OverlayOf(r, c));
  }

  lemma RetryKeepsTree(w: World, c: ConnectionId, verdict: Verdict)
    requires Invariant(w) && TreedWorld(w) && c in w.shard.connections && TreedEvent(w, Retry(c, verdict))
    ensures var t := RetryTurn(w.shard, c, verdict);
      t.attached.cursor < |w.history| && Treed(Holds(t.attached, w.history))
  {
    hide Treed, Held, Plan, WellKeyed, Recorded, Alike, Transition, SelfFirst, Disjoint, Restrict;
    var a := w.shard.connections[c];
    LastAlike(w.shard, w.history);
    AlikeHeld(w.history[|w.shard.log|], w.shard.view, a.see, a.overlay);
  }

  lemma TreedStep(w: World, e: Event)
    requires Invariant(w) && Guarded(w, e) && TreedWorld(w) && TreedEvent(w, e)
    ensures TreedWorld(ShardRuns.Step(w, e))
  {
    hide Treed, Plan, WellKeyed, Recorded, TurnOf, RetryTurn, Show, Run, LogAfter, HistoryAfter, TurnGuard, TreedTurn;
    hide Idle;
    hide PushGuard, Restrict, Disjoint, Faithful;
    match e {
      case Attach(c, session, held) => RecordedLengths(w);
      case Detach(c) =>
      case Refuse =>
      case Retry(c, verdict) =>
        if c in w.shard.connections {
          RetryKeepsTree(w, c, verdict);
        }
      case Reconcile(r, observations, verdicts) =>
        if !Idle(w.shard, r, observations) {
          forall c | c in w.shard.connections
            ensures var t := TurnOf(w.shard, r, observations, verdicts, c);
              t.attached.cursor < |HistoryAfter(w, r)| && Treed(Holds(t.attached, HistoryAfter(w, r)))
          {
            TurnKeepsTree(w, r, observations, verdicts, c);
          }
        }
    }
  }

  lemma RecordedLengths(w: World)
    requires Invariant(w)
    ensures |w.history| == |w.shard.log| + 1
  {
  }

  /** Over every guarded run of closed trees, every client holds a closed tree at every point. */
  lemma {:induction false} RunsStayTreed(worlds: seq<World>, events: seq<Event>, n: nat)
    requires IsRun(worlds, events) && n < |worlds|
    requires forall i | 0 <= i < n :: TreedEvent(worlds[i], events[i])
    ensures Invariant(worlds[n]) && TreedWorld(worlds[n])
  {
    hide Invariant, TreedWorld, TreedEvent, ShardRuns.Step, Guarded;
    RunsAreFaithful(worlds, events, n);
    if n == 0 {
      NobodyIsTreed();
    } else {
      RunsStayTreed(worlds, events, n - 1);
      TreedStep(worlds[n - 1], events[n - 1]);
    }
  }

  lemma NobodyIsTreed()
    ensures TreedWorld(NEW_WORLD)
  {
  }

  // ---------------------------------------------------------------- the replan

  /** What a committed replan has the queue accept. */
  lemma ReplanSends(
    w: World, r: Render, observations: map<ConnectionId, ScopeSet>, verdicts: map<ConnectionId, Verdict>,
    c: ConnectionId)
    requires c in w.shard.connections && Moved(w.shard.connections[c], Observed(observations, c))
    requires TurnOf(w.shard, r, observations, verdicts, c).outcome == Advanced
    ensures var a, see := w.shard.connections[c], Observed(observations, c);
      TurnOf(w.shard, r, observations, verdicts, c).sent
      == SelfFirst(ReplanOps(a, w.shard.view, r.view, see, OverlayOf(r, c)), a.session)
  {
    hide ReplanOps, Plan;
    assert SelfFirst([], w.shard.connections[c].session) == [];
  }

  /**
   A committed replan between closed trees, sent to a client that holds what it was planned from:
   every prefix leaves the client tolerating the next operation and closed, and all of it leaves
   the client the view wanted.
   */
  lemma ReplanBatchSafe(
    w: World, r: Render, observations: map<ConnectionId, ScopeSet>, verdicts: map<ConnectionId, Verdict>,
    c: ConnectionId)
    requires Invariant(w) && Wellformed(r) && TreedWorld(w)
    requires c in w.shard.connections && Moved(w.shard.connections[c], Observed(observations, c))
    requires TurnOf(w.shard, r, observations, verdicts, c).outcome == Advanced
      && TreedTurn(w, r, observations, verdicts, c)
    requires var a := w.shard.connections[c];
      a.held.Some? || (a.cursor < |w.history| && ShowsTheSame(w.history[a.cursor], w.shard.view, a.see, a.overlay))
    ensures var client, sent := Run(Show(w.base[c]), w.sent[c]), TurnOf(w.shard, r, observations, verdicts, c).sent;
      && SafeRun(client, sent)
      && (forall n | 0 <= n <= |sent| :: ClosedClient(Run(client, sent[..n])))
      && Run(client, sent) == Held(r.view, Observed(observations, c), OverlayOf(r, c))
  {
    hide TurnOf, Treed, Plan, WellKeyed, Recorded, SafeRun, Run, Show, SelfFirst, Collapse, Bare, ShowsTheSame;
    hide Restrict;
    hide Compose, ClosedClient, Wellformed, Tree, ClosedView, Disjoint;
    var a, see, overlay := w.shard.connections[c], Observed(observations, c), OverlayOf(r, c);
    var client, from, to := Run(Show(w.base[c]), w.sent[c]), Composed(a, w.shard.view), Wanted(r.view, see, overlay);
    var ops := ReplanOps(a, w.shard.view, r.view, see, overlay);
    FromAndTo(w, r, see, c);
    ReplanSends(w, r, observations, verdicts, c);
    SlowPath(from, to);
    SelfFirstSafe(client, ops, a.session);
    SelfFirstMeansTheSame(client, ops, a.session);
    TreedIsClosed(client);
    var sent := SelfFirst(ops, a.session);
    forall n | 0 <= n <= |sent| ensures ClosedClient(Run(client, sent[..n])) {
      SafeRunKeepsClosed(client, sent, n);
    }
  }

  lemma TreedIsClosed(c: Client)
    requires Treed(c)
    ensures ClosedClient(c)
  {
  }

  /** Both ends of the plan are well-keyed closed trees, and the first is what the client holds. */
  lemma FromAndTo(w: World, r: Render, see: ScopeSet, c: ConnectionId)
    requires Invariant(w) && Wellformed(r) && TreedWorld(w) && c in w.shard.connections
    requires var a := w.shard.connections[c];
      a.held.Some? || (a.cursor < |w.history| && ShowsTheSame(w.history[a.cursor], w.shard.view, a.see, a.overlay))
    requires Treed(Held(r.view, see, OverlayOf(r, c)))
    ensures var from, to := Composed(w.shard.connections[c], w.shard.view), Wanted(r.view, see, OverlayOf(r, c));
      && WellKeyed(from) && Tree(from) && ClosedView(from) && WellKeyed(to) && Tree(to) && ClosedView(to)
      && Show(from) == Run(Show(w.base[c]), w.sent[c]) && Show(to) == Held(r.view, see, OverlayOf(r, c))
      && Treed(Show(from))
  {
    hide Treed, Plan, WellKeyed, Run, Show, ShowsTheSame, Restrict, Compose, Tree, ClosedView, Disjoint, Recorded;
    hide Sound;
    var a := w.shard.connections[c];
    assert Faithful(w, c);
    HandoverExact(w, c);
    ComposedKeyed(a, w.shard, w.history);
    OverlayWellformed(r, c);
    ComposeKeyed(r.view, see, OverlayOf(r, c));
    ShownTree(Composed(a, w.shard.view));
    ShownTree(Wanted(r.view, see, OverlayOf(r, c)));
  }

  /**
   The same over every run: whatever replan the run commits, for a client that holds what the
   shard composes, the batch its queue accepts is safe at every prefix.
   */
  lemma ReplansOfRunsSafe(worlds: seq<World>, events: seq<Event>, n: nat, c: ConnectionId)
    requires IsRun(worlds, events) && n < |events| && forall i | 0 <= i <= n :: TreedEvent(worlds[i], events[i])
    requires events[n].Reconcile? && c in worlds[n].shard.connections
    requires var w, e, a := worlds[n], events[n], worlds[n].shard.connections[c];
      && Moved(a, Observed(e.observations, c))
      && TurnOf(w.shard, e.render, e.observations, e.verdicts, c).outcome == Advanced
      && (UpToDate(a, w.shard)
          || (a.cursor < |w.history| && ShowsTheSame(w.history[a.cursor], w.shard.view, a.see, a.overlay)))
    ensures var w, e := worlds[n], events[n];
      && c in w.base && c in w.sent
      && SafeRun(Run(Show(w.base[c]), w.sent[c]), TurnOf(w.shard, e.render, e.observations, e.verdicts, c).sent)
  {
    hide Treed, Plan, WellKeyed, Run, Show, ShowsTheSame, SafeRun, TurnOf, TurnGuard, TreedTurn, ShardRuns.Step;
    hide TreedWorld;
    var w, e := worlds[n], events[n];
    RunsStayTreed(worlds, events, n);
    assert TreedEvent(w, e) && Guarded(w, e);
    if UpToDate(w.shard.connections[c], w.shard) {
      UpToDateHandsOver(w, c);
      HandoverExact(w, c);
    }
    hide Invariant, Wellformed;
    assert TreedTurn(w, e.render, e.observations, e.verdicts, c);
    KnownConnection(w, c);
    ReplanBatchSafe(w, e.render, e.observations, e.verdicts, c);
  }

  lemma KnownConnection(w: World, c: ConnectionId)
    requires Invariant(w) && c in w.shard.connections
    ensures c in w.base && c in w.sent
  {
  }
}
