/**
 What a turn achieves. The invariant of `ShardRuns` says the record is true of the client; here the
 record gets to where the render wants it, whichever path the turn takes and also when the shard
 decides that nothing changed.
 */
module ShardProgress {
  import opened Collections
  import opened Scopes
  import opened Views
  import opened Planner
  import opened Clients
  import opened Deltas
  import opened Composition
  import opened FastPath
  import opened Windows
  import opened Pushes
  import opened Replans
  import opened Emission
  import opened Journals
  import opened Shards
  import opened ShardRuns

  /** The record is at the newest version of `shard`, with this observation and this overlay. */
  predicate Arrived(shard: Shard, c: ConnectionId, see: ScopeSet, overlay: Overlay) {
    && c in shard.connections
    && var a := shard.connections[c];
       a.held.None? && a.cursor == |shard.log| && a.see == see && a.overlay == overlay
  }

  /** A batch its queue accepts commits the record, unless the journal no longer reaches back to the cursor. */
  lemma AcceptedTurnAdvances(
    shard: Shard, r: Render, observations: map<ConnectionId, ScopeSet>, verdicts: map<ConnectionId, Verdict>,
    c: ConnectionId)
    requires c in shard.connections && VerdictOf(verdicts, c) == Accepted
    requires var a := shard.connections[c];
      a.held.Some? || a.see != Observed(observations, c)
      || (a.cursor <= |shard.log| && |LogAfter(shard, r)| - a.cursor <= DEPTH)
    ensures var t := TurnOf(shard, r, observations, verdicts, c);
      && t.outcome == Advanced
      && t.attached ==
           Commit(shard.connections[c], |LogAfter(shard, r)|, Observed(observations, c), OverlayOf(r, c))
  {
    hide Plan, Transition, ReplanOps, SelfFirst, LogAfter;
    var a, log := shard.connections[c], LogAfter(shard, r);
    if !Moved(a, Observed(observations, c)) {
      LogGrows(shard, r);
      ReplayWithinDepth(log, a.cursor);
    }
  }

  lemma LogGrows(shard: Shard, r: Render)
    ensures |shard.log| <= |LogAfter(shard, r)| <= |shard.log| + 1
  {
    hide Plan;
  }

  /** Where nothing is published, the record is already where the render wants it, and so is the client. */
  lemma IdleHasArrived(w: World, r: Render, observations: map<ConnectionId, ScopeSet>, c: ConnectionId)
    requires Invariant(w) && Wellformed(r) && c in w.shard.connections && UpToDate(w.shard.connections[c], w.shard)
    requires Idle(w.shard, r, observations)
    ensures Arrived(w.shard, c, Observed(observations, c), OverlayOf(r, c))
    ensures Run(Show(w.base[c]), w.sent[c]) == Held(r.view, Observed(observations, c), OverlayOf(r, c))
  {
    hide Plan, WellKeyed, Alike, IsDelta, Show, Run, Disjoint, Restrict, Held;
    var a, n := w.shard.connections[c], |w.shard.log|;
    assert !Moved(a, Observed(observations, c));
    assert Faithful(w, c);
    EmptyPlanMeansAlike(w.shard.view, r.view);
    AlikeTransitive(w.history[n], w.shard.view, r.view);
    AlikeHeld(w.history[n], r.view, a.see, a.overlay);
  }

  /** A turn whose batch is accepted leaves an up-to-date connection with what the render wants. */
  lemma TurnArrives(
    w: World, r: Render, observations: map<ConnectionId, ScopeSet>, verdicts: map<ConnectionId, Verdict>,
    c: ConnectionId)
    requires Invariant(w) && Wellformed(r) && c in w.shard.connections && UpToDate(w.shard.connections[c], w.shard)
    requires VerdictOf(verdicts, c) == Accepted
    ensures var t, see := TurnOf(w.shard, r, observations, verdicts, c), Observed(observations, c);
      && t.attached == Commit(w.shard.connections[c], |LogAfter(w.shard, r)|, see, OverlayOf(r, c))
      && Run(Show(w.base[c]), w.sent[c] + t.sent) == Held(r.view, see, OverlayOf(r, c))
  {
    hide Plan, WellKeyed, Recorded, Show, Run, Restrict, Compose, TurnOf, LogAfter, HistoryAfter, PushGuard, Disjoint;
    hide ReplanGuard;
    LogGrows(w.shard, r);
    AcceptedTurnAdvances(w.shard, r, observations, verdicts, c);
    UpToDateTurnIsGuarded(w, r, observations, verdicts, c);
    if Moved(w.shard.connections[c], Observed(observations, c)) {
      CommittedReplanFaithful(w, r, observations, verdicts, c);
    } else {
      CommittedPushFaithful(w, r, observations, verdicts, c);
    }
  }

  /**
   Every reconcile, idle or not: a connection that was up to date and whose queue accepts ends up at
   the newest version with the observation it asked for and the overlay it was given, and its client
   holds exactly the render's view restricted to that observation with that overlay on top.
   */
  lemma ReconcileArrives(
    w: World, r: Render, observations: map<ConnectionId, ScopeSet>, verdicts: map<ConnectionId, Verdict>,
    c: ConnectionId)
    requires Invariant(w) && Wellformed(r) && c in w.shard.connections && UpToDate(w.shard.connections[c], w.shard)
    requires VerdictOf(verdicts, c) == Accepted
    ensures var w' := ShardRuns.Step(w, Reconcile(r, observations, verdicts));
      && Arrived(w'.shard, c, Observed(observations, c), OverlayOf(r, c))
      && c in w'.base && c in w'.sent
      && Run(Show(w'.base[c]), w'.sent[c])
         == Show(Compose(Restrict(r.view, Observed(observations, c)), OverlayOf(r, c)))
  {
    hide Plan, Show, Run, Restrict, Compose, TurnOf, LogAfter, Wellformed, Faithful, Recorded, HistoryAfter;
    if Idle(w.shard, r, observations) {
      IdleHasArrived(w, r, observations, c);
    } else {
      hide Idle;
      TurnArrives(w, r, observations, verdicts, c);
    }
  }

  /** A queue that refuses is sent nothing, and its record is where it was or says no more than the client holds. */
  lemma RefusedSendsNothing(
    w: World, r: Render, observations: map<ConnectionId, ScopeSet>, verdicts: map<ConnectionId, Verdict>,
    c: ConnectionId)
    requires Invariant(w) && Wellformed(r) && c in w.shard.connections && UpToDate(w.shard.connections[c], w.shard)
    requires VerdictOf(verdicts, c) != Accepted
    ensures var w' := ShardRuns.Step(w, Reconcile(r, observations, verdicts));
      && c in w'.shard.connections && c in w'.sent && w'.sent[c] == w.sent[c]
      && (w'.shard.connections[c] == w.shard.connections[c]
          || Run(Show(w.base[c]), w.sent[c]) == Held(r.view, Observed(observations, c), OverlayOf(r, c)))
  {
    hide Plan, Show, Run, Restrict, Compose, LogAfter, Wellformed, Recorded, HistoryAfter, SelfFirst, Transition;
    hide ReplanOps, Held, PushGuard, ReplanGuard, Idle, Faithful;
    var a, t := w.shard.connections[c], TurnOf(w.shard, r, observations, verdicts, c);
    if !Idle(w.shard, r, observations) {
      assert w.sent[c] + [] == w.sent[c];
      assert t.sent == [];
      if t.outcome == Advanced {
        UpToDateTurnIsGuarded(w, r, observations, verdicts, c);
        if Moved(a, Observed(observations, c)) {
          CommittedReplanFaithful(w, r, observations, verdicts, c);
          ShownIsHeld(r.view, Observed(observations, c), OverlayOf(r, c));
        } else {
          CommittedPushFaithful(w, r, observations, verdicts, c);
        }
      }
    }
  }

  lemma ShownIsHeld(v: ShardView, see: ScopeSet, overlay: Overlay)
    ensures Show(Wanted(v, see, overlay)) == Held(v, see, overlay)
  {
  }

  /** An accepted retry brings a record within reach of the journal to the newest version, nothing else changed. */
  lemma RetryCatchesUp(w: World, c: ConnectionId)
    requires Invariant(w) && c in w.shard.connections && w.shard.connections[c].held.None?
    requires |w.shard.log| - w.shard.connections[c].cursor <= DEPTH
    ensures var a, w' := w.shard.connections[c], ShardRuns.Step(w, Retry(c, Accepted));
      Arrived(w'.shard, c, a.see, a.overlay) && w'.shard.log == w.shard.log && w'.shard.view == w.shard.view
  {
    hide Show, Run, SelfFirst, Transition, Recorded, IsDelta;
    assert Faithful(w, c);
    RecordedLength(w.shard, w.history);
    ReplayWithinDepth(w.shard.log, w.shard.connections[c].cursor);
  }

  /** The journal no longer reaches back to the cursor of a connection that is to be pushed to. */
  predicate OutOfReach(shard: Shard, r: Render, observed: ScopeSet, c: ConnectionId)
    requires c in shard.connections
  {
    var a := shard.connections[c];
    a.held.None? && a.see == observed && |LogAfter(shard, r)| - a.cursor > DEPTH
  }

  /** A connection is closed for falling too far behind or for a fatal queue, and kept waiting for congestion only. */
  lemma OutcomeExactly(
    shard: Shard, r: Render, observations: map<ConnectionId, ScopeSet>, verdicts: map<ConnectionId, Verdict>,
    c: ConnectionId)
    requires c in shard.connections && shard.connections[c].cursor <= |shard.log|
    ensures var t, verdict := TurnOf(shard, r, observations, verdicts, c), VerdictOf(verdicts, c);
      if OutOfReach(shard, r, Observed(observations, c), c) then t.outcome == Close && t.sent == []
      else match verdict
        case Accepted => t.outcome == Advanced
        case Congestion => t.outcome == Stalled || (t.outcome == Advanced && t.sent == [])
        case Fatal => t.outcome == Close || (t.outcome == Advanced && t.sent == [])
    ensures var t := TurnOf(shard, r, observations, verdicts, c);
      t.outcome != Advanced ==> t.attached == shard.connections[c] && t.sent == []
  {
    hide Plan, Transition, ReplanOps, SelfFirst, LogAfter;
    var a, log := shard.connections[c], LogAfter(shard, r);
    LogGrows(shard, r);
    ReplayWithinDepth(log, a.cursor);
  }

  /** A departure takes everything down again: an up-to-date client is left with nothing. */
  lemma TeardownLeavesNothing(w: World, c: ConnectionId)
    requires Invariant(w) && c in w.shard.connections && UpToDate(w.shard.connections[c], w.shard)
    ensures var a := w.shard.connections[c];
      Run(Run(Show(w.base[c]), w.sent[c]),
          SelfFirst(Collapse(Bare(Plan(Composed(a, w.shard.view), EMPTY_VIEW))), a.session)) == Show(EMPTY_VIEW)
  {
    hide Plan, Show, Run, SelfFirst, Collapse, Bare, Composed, Recorded, Sound, UpToDate, Holds, WellKeyed;
    var a := w.shard.connections[c];
    assert Faithful(w, c);
    ComposedKeyed(a, w.shard, w.history);
    UpToDateHandsOver(w, c);
    NothingKeyed();
    ReplanExact(Composed(a, w.shard.view), EMPTY_VIEW);
    SelfFirstMeansTheSame(Show(Composed(a, w.shard.view)),
                          Collapse(Bare(Plan(Composed(a, w.shard.view), EMPTY_VIEW))), a.session);
  }

  lemma NothingKeyed()
    ensures WellKeyed(EMPTY_VIEW)
  {
  }
}
