/** The batches a shard pushes while it also changes a connection's overlay. */
module OverlayBatches {
  import opened Collections
  import opened Scopes
  import opened Views
  import opened Planner
  import opened Clients
  import opened Composition
  import opened FastPath
  import opened Ordering
  import opened PrefixSafety
  import opened Emission
  import opened Journals
  import opened Shards
  import opened ShardRuns
  import opened PushSafety
  import opened OverlayLeaving
  import opened OverlayArriving
  import opened OverlayPushes

  /** The record is up to date and the observer travels, overlay and all, from the newest view to the render's. */
  ghost predicate PushesAcross(w: World, r: Render, c: ConnectionId)
    requires c in w.shard.connections
  {
    var a := w.shard.connections[c];
    && a.held.None? && a.cursor == |w.shard.log|
    && Across(w.shard.view, r.view, a.see, a.overlay, OverlayOf(r, c))
  }

  /**
   A committed push to a client whose record is up to date, whatever becomes of the overlay: every
   prefix of the batch is safe if and only if the three conditions on the two renders hold.
   */
  lemma ChangingBatchSafe(
    w: World, r: Render, observations: map<ConnectionId, ScopeSet>, verdicts: map<ConnectionId, Verdict>,
    c: ConnectionId)
    requires Invariant(w) && Wellformed(r) && c in w.shard.connections && PushesAcross(w, r, c)
    requires !Moved(w.shard.connections[c], Observed(observations, c))
    requires TurnOf(w.shard, r, observations, verdicts, c).outcome == Advanced
    ensures var a, overlay := w.shard.connections[c], OverlayOf(r, c);
      SafeRun(Run(Show(w.base[c]), w.sent[c]), TurnOf(w.shard, r, observations, verdicts, c).sent) <==>
        && RevealedInTime(w.shard.view, r.view, a.see)
        && NoneLeftHanging(a.overlay, overlay) && BornInOrder(a.overlay, overlay)
  {
    hide SafeRun, Run, Show, Plan, Transition, SelfFirst, TurnOf, RevealedInTime, Across, WellKeyed, Restrict, Held;
    hide Disjoint, Wellformed, Recorded, Sound, NoneLeftHanging, BornInOrder, OverlayOf;
    var a, overlay := w.shard.connections[c], OverlayOf(r, c);
    NewestHeld(w, c);
    PushSends(w, r, observations, verdicts, c);
    SelfFirstSafe(Held(w.shard.view, a.see, a.overlay),
                  Transition(Plan(w.shard.view, r.view), a.see, a.overlay, overlay), a.session);
    ChangingPushSafe(w.shard.view, r.view, a.see, a.overlay, overlay);
  }

  /** The same at every step of every guarded run. */
  lemma ChangingBatchesOfRuns(worlds: seq<World>, events: seq<Event>, n: nat, c: ConnectionId)
    requires IsRun(worlds, events) && n < |events| && events[n].Reconcile? && c in worlds[n].shard.connections
    requires var w, e := worlds[n], events[n];
      && PushesAcross(w, e.render, c) && !Moved(w.shard.connections[c], Observed(e.observations, c))
      && TurnOf(w.shard, e.render, e.observations, e.verdicts, c).outcome == Advanced
    ensures var w, e := worlds[n], events[n];
      var a, overlay := w.shard.connections[c], OverlayOf(e.render, c);
      && c in w.base && c in w.sent
      && (SafeRun(Run(Show(w.base[c]), w.sent[c]), TurnOf(w.shard, e.render, e.observations, e.verdicts, c).sent) <==>
            && RevealedInTime(w.shard.view, e.render.view, a.see)
            && NoneLeftHanging(a.overlay, overlay) && BornInOrder(a.overlay, overlay))
  {
    hide SafeRun, Run, Show, TurnOf, RevealedInTime, TurnGuard, ShardRuns.Step, Wellformed, PushesAcross, Recorded;
    hide Faithful, NoneLeftHanging, BornInOrder;
    var w, e := worlds[n], events[n];
    RunsAreFaithful(worlds, events, n);
    assert Guarded(w, e);
    ChangingBatchSafe(w, e.render, e.observations, e.verdicts, c);
  }
}
