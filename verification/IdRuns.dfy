/**
 Wire identifiers over whole runs of a shard: while a client stays attached it never accepts
 the creation of a non-root channel id whose removal it has already accepted.
 */
module IdRuns {
  import opened Collections
  import opened Scopes
  import opened Views
  import opened Planner
  import opened Clients
  import opened Deltas
  import opened OverlayDeltas
  import opened Composition
  import opened FastPath
  import opened Windows
  import opened PrefixSafety
  import opened Emission
  import opened Journals
  import opened Shards
  import ShardRuns
  import I = Identifiers

  type World = ShardRuns.World

  // ---------------------------------------------------------------- which channels a batch names

  predicate Creates(op: PlanOp, id: ChannelId) {
    op.CreateChannel? && op.channel.id == id
  }

  /** An addition names an element of the new view, a removal one of the old. */
  lemma DeltaMembers(ops: seq<PlannedOp>, before: ShardView, after: ShardView, p: PlannedOp)
    requires IsDelta(ops, before, after) && p in ops
    ensures IsAddition(p.op) ==> Look(after, Target(p.op)).Some?
    ensures IsRemoval(p.op) ==> Look(before, Target(p.op)).Some?
  {
    hide Look, Steps;
    var i :| 0 <= i < |ops| && ops[i] == p;
    AboutHolds(ops, i);
    assert Delta(About(ops, Target(p.op)), Look(before, Target(p.op)), Look(after, Target(p.op)));
  }

  lemma {:induction false} FlattenMembers(deltas: seq<seq<PlannedOp>>, p: PlannedOp)
    requires p in Flatten(deltas)
    ensures exists i :: 0 <= i < |deltas| && p in deltas[i]
  {
    var n := |deltas| - 1;
    if p in deltas[n] {
    } else {
      FlattenMembers(deltas[..n], p);
      var i :| 0 <= i < n && p in deltas[..n][i];
      assert p in deltas[i];
    }
  }

  lemma {:induction false} OnHolds(ops: seq<PlanOp>, op: PlanOp)
    requires op in ops
    ensures op in On(ops, Target(op))
    decreases |ops|
  {
    var n := |ops| - 1;
    if op != ops[n] {
      assert ops == ops[..n] + [ops[n]];
      OnHolds(ops[..n], op);
    }
  }

  lemma OverlayMembers(was: Overlay, now: Overlay, op: PlanOp)
    requires WellKeyed(was) && WellKeyed(now)
    requires op in PlanElements(was, now).removals || op in PlanElements(was, now).additions
    ensures IsAddition(op) ==> Look(now, Target(op)).Some?
    ensures IsRemoval(op) ==> Look(was, Target(op)).Some?
  {
    hide PlanElements, Look, WellKeyed, Steps;
    var e := Target(op);
    PlanElementsIsDelta(was, now, e);
    if op in PlanElements(was, now).removals {
      OnHolds(PlanElements(was, now).removals, op);
    } else {
      OnHolds(PlanElements(was, now).additions, op);
    }
  }

  /** After `Collapse` nothing is both created and removed. */
  lemma CollapsedMembers(ops: seq<PlanOp>)
    ensures forall op | op in Collapse(ops) :: op in ops
    ensures forall a, b | a in Collapse(ops) && b in Collapse(ops) && IsAddition(a) && IsRemoval(b) ::
      Target(a) != Target(b)
  {
    RetainMembers(ops, AddedIn(ops));
    RetainDrops(ops, AddedIn(ops));
    forall a | a in ops && IsAddition(a) ensures Target(a) in AddedIn(ops) {
      var i :| 0 <= i < |ops| && ops[i] == a;
    }
  }

  lemma {:induction false} RetainDrops(ops: seq<PlanOp>, added: set<ElementId>)
    ensures forall op | op in Retain(ops, added) && IsRemoval(op) :: Target(op) !in added
    decreases |ops|
  {
    if ops != [] {
      RetainDrops(ops[..|ops| - 1], added);
    }
  }

  lemma SelfFirstMembers(ops: seq<PlanOp>, self: SessionId)
    ensures forall op :: op in SelfFirst(ops, self) <==> op in ops
  {
    SelfFirstPermutes(ops, self);
    forall op ensures op in SelfFirst(ops, self) <==> op in ops {
      assert op in multiset(SelfFirst(ops, self)) <==> op in multiset(ops);
    }
  }

  /** A channel id of one of the views a cursor has not reached. */
  ghost predicate Upcoming(history: seq<ShardView>, cursor: nat, id: ChannelId) {
    exists k :: cursor < k < |history| && id in history[k].channels
  }

  /** A channel id of one of the views a connection can still be asked to withdraw from. */
  ghost predicate Recent(history: seq<ShardView>, cursor: nat, id: ChannelId) {
    exists k :: cursor <= k < |history| && id in history[k].channels
  }

  /** What the ids of an accepted batch can be. */
  ghost predicate BatchIds(sent: seq<PlanOp>, news: iset<ChannelId>, olds: iset<ChannelId>) {
    && (forall op | op in sent && op.CreateChannel? :: op.channel.id in news)
    && (forall op | op in sent && op.RemoveChannel? :: op.goneChannel in olds)
    && (forall a, b | a in sent && b in sent && a.CreateChannel? && b.RemoveChannel? :: a.channel.id != b.goneChannel)
  }

  lemma DeliveredIds(
    a: Attached, ops: seq<PlanOp>, head: nat, see: ScopeSet, overlay: Overlay, verdict: Verdict,
    news: iset<ChannelId>, olds: iset<ChannelId>)
    requires forall op | op in ops && op.CreateChannel? :: op.channel.id in news
    requires forall op | op in ops && op.RemoveChannel? :: op.goneChannel in olds
    requires forall x, y | x in ops && y in ops && IsAddition(x) && IsRemoval(y) :: Target(x) != Target(y)
    ensures BatchIds(Deliver(a, ops, head, see, overlay, verdict).sent, news, olds)
  {
    hide SelfFirst;
    SelfFirstMembers(ops, a.session);
    forall x, y | x in ops && y in ops && x.CreateChannel? && y.RemoveChannel? ensures x.channel.id != y.goneChannel {
      assert Target(x) != Target(y);
    }
  }

  ghost function PushNews(a: Attached, history: seq<ShardView>, overlay: Overlay): iset<ChannelId> {
    iset id | Upcoming(history, a.cursor, id) || (overlay != a.overlay && id in overlay.channels)
  }

  ghost function PushOlds(a: Attached, history: seq<ShardView>): iset<ChannelId> {
    iset id | Recent(history, a.cursor, id) || id in a.overlay.channels
  }

  lemma PushIds(a: Attached, shard: Shard, history: seq<ShardView>, overlay: Overlay, verdict: Verdict)
    requires ShardRuns.Recorded(shard, history) && a.cursor < |history| && WellKeyed(a.overlay) && WellKeyed(overlay)
    ensures BatchIds(Push(a, shard.log, |shard.log|, overlay, verdict).sent, PushNews(a, history, overlay),
      PushOlds(a, history))
  {
    hide ShardRuns.Recorded, WellKeyed, Transition, Deliver, PushNews, PushOlds;
    var t := Push(a, shard.log, |shard.log|, overlay, verdict);
    ShardRuns.RecordedLength(shard, history);
    ReplayWithinDepth(shard.log, a.cursor);
    if t.sent != [] {
      var replayed := Flatten(shard.log[a.cursor..]);
      var ops := Transition(replayed, a.see, a.overlay, overlay);
      TransitionIds(a, shard, history, overlay);
      DeliveredIds(a, ops, |shard.log|, a.see, overlay, verdict, PushNews(a, history, overlay), PushOlds(a, history));
    }
  }

  lemma TransitionIds(a: Attached, shard: Shard, history: seq<ShardView>, overlay: Overlay)
    requires ShardRuns.Recorded(shard, history) && a.cursor < |history| && WellKeyed(a.overlay) && WellKeyed(overlay)
    ensures var ops := Transition(Flatten(shard.log[a.cursor..]), a.see, a.overlay, overlay);
      && (forall op | op in ops && op.CreateChannel? :: op.channel.id in PushNews(a, history, overlay))
      && (forall op | op in ops && op.RemoveChannel? :: op.goneChannel in PushOlds(a, history))
      && (forall x, y | x in ops && y in ops && IsAddition(x) && IsRemoval(y) :: Target(x) != Target(y))
  {
    hide ShardRuns.Recorded, WellKeyed, Filter, PlanElements, Collapse, Splice, PushNews, PushOlds;
    ShardRuns.RecordedLength(shard, history);
    var replayed := Flatten(shard.log[a.cursor..]);
    var shared, private := Filter(replayed, a.see), PlanElements(a.overlay, overlay);
    var spliced := Splice(shared, private);
    CollapsedMembers(spliced);
    SpliceMembers(shared, private);
    forall op | op in spliced
      ensures op.CreateChannel? ==> op.channel.id in PushNews(a, history, overlay)
      ensures op.RemoveChannel? ==> op.goneChannel in PushOlds(a, history)
    {
      if op in shared {
        SharedIds(a, shard, history, overlay, op);
      } else {
        PrivateIds(a, history, overlay, op);
      }
    }
  }

  lemma SpliceMembers(shared: seq<PlanOp>, private: OverlayOps)
    ensures forall op | op in Splice(shared, private) ::
      op in shared || op in private.removals || op in private.additions
  {
    var b := Boundary(shared);
    assert shared == shared[..b] + shared[b..];
  }

  lemma PrivateIds(a: Attached, history: seq<ShardView>, overlay: Overlay, op: PlanOp)
    requires WellKeyed(a.overlay) && WellKeyed(overlay)
    requires op in PlanElements(a.overlay, overlay).removals || op in PlanElements(a.overlay, overlay).additions
    ensures op.CreateChannel? ==> op.channel.id in PushNews(a, history, overlay)
    ensures op.RemoveChannel? ==> op.goneChannel in PushOlds(a, history)
  {
    hide PlanElements, WellKeyed;
    OverlayMembers(a.overlay, overlay, op);
    UnchangedOverlay(a.overlay);
  }

  lemma SharedIds(a: Attached, shard: Shard, history: seq<ShardView>, overlay: Overlay, op: PlanOp)
    requires ShardRuns.Recorded(shard, history) && a.cursor < |history|
    requires op in Filter(Flatten(shard.log[a.cursor..]), a.see)
    ensures op.CreateChannel? ==> op.channel.id in PushNews(a, history, overlay)
    ensures op.RemoveChannel? ==> op.goneChannel in PushOlds(a, history)
  {
    hide WellKeyed, Filter, Flatten, IsDelta, Alike;
    var deltas := shard.log[a.cursor..];
    FilterMembers(Flatten(deltas), a.see);
    var p :| p in Flatten(deltas) && p.op == op;
    FlattenMembers(deltas, p);
    var i :| 0 <= i < |deltas| && p in deltas[i];
    var k := a.cursor + i;
    assert deltas[i] == shard.log[k];
    DeltaMembers(shard.log[k], history[k], history[k + 1], p);
    if op.CreateChannel? {
      assert Upcoming(history, a.cursor, op.channel.id) by {
        assert a.cursor < k + 1 < |history| && op.channel.id in history[k + 1].channels;
      }
    }
    if op.RemoveChannel? {
      assert Recent(history, a.cursor, op.goneChannel) by {
        assert a.cursor <= k < |history| && op.goneChannel in history[k].channels;
      }
    }
  }

  lemma ReplanIds(
    a: Attached, before: ShardView, after: ShardView, head: nat, see: ScopeSet, overlay: Overlay, verdict: Verdict)
    requires WellKeyed(Composed(a, before)) && WellKeyed(after) && WellKeyed(overlay)
    ensures BatchIds(Replan(a, before, after, head, see, overlay, verdict).sent,
      iset id | id in after.channels || id in overlay.channels, iset id | id in Composed(a, before).channels)
  {
    hide Plan, WellKeyed, Collapse, Deliver, Compose, Restrict;
    ShardRuns.ComposeKeyed(after, see, overlay);
    PlannedIds(Composed(a, before), Compose(Restrict(after, see), overlay));
    ComposedIds(after, see, overlay);
    DeliveredIds(a, ReplanOps(a, before, after, see, overlay), head, see, overlay, verdict,
      iset id | id in after.channels || id in overlay.channels, iset id | id in Composed(a, before).channels);
  }

  lemma ComposedIds(v: ShardView, see: ScopeSet, overlay: Overlay)
    ensures forall id | id in Compose(Restrict(v, see), overlay).channels :: id in v.channels || id in overlay.channels
  {
  }

  lemma PlannedIds(from: ShardView, to: ShardView)
    requires WellKeyed(from) && WellKeyed(to)
    ensures var ops := Collapse(Bare(Plan(from, to)));
      && (forall op | op in ops && op.CreateChannel? :: op.channel.id in to.channels)
      && (forall op | op in ops && op.RemoveChannel? :: op.goneChannel in from.channels)
      && (forall x, y | x in ops && y in ops && IsAddition(x) && IsRemoval(y) :: Target(x) != Target(y))
  {
    hide Plan, WellKeyed, Collapse, IsDelta;
    var planned := Plan(from, to);
    PlanIsDelta(from, to);
    CollapsedMembers(Bare(planned));
    forall op | op in Bare(planned)
      ensures op.CreateChannel? ==> op.channel.id in to.channels
      ensures op.RemoveChannel? ==> op.goneChannel in from.channels
    {
      var i :| 0 <= i < |planned| && Bare(planned)[i] == op;
      assert planned[i] in planned;
      DeltaMembers(planned, from, to, planned[i]);
    }
  }

  // ---------------------------------------------------------------- runs of a shard and its allocator

  datatype State = State(world: World, ids: I.Ids)

  datatype Move =
    /** Anyone's use of the shared allocator between this shard's events. */
    | Elsewhere(calls: seq<I.Call>)
    /** An event of this shard, with the allocator calls made during it. */
    | Here(event: ShardRuns.Event, allocations: seq<I.Call>)

  const NEW_STATE := State(ShardRuns.NEW_WORLD, I.NEW_IDS)

  function AfterAll(ids: I.Ids, calls: seq<I.Call>): I.Ids {
    if calls == [] then ids else I.After(AfterAll(ids, calls[..|calls| - 1]), calls[|calls| - 1])
  }

  /** The channel ids an accepted batch withdrew. */
  function RetiredIn(sent: seq<PlanOp>): set<ChannelId> {
    set i | 0 <= i < |sent| && sent[i].RemoveChannel? :: sent[i].goneChannel
  }

  /** What the shard retires after an event. */
  function Retired(w: World, e: ShardRuns.Event): set<ChannelId> {
    match e
    case Reconcile(r, observations, verdicts) =>
      if Idle(w.shard, r, observations) then {}
      else
        set c, id |
          c in w.shard.connections && id in RetiredIn(TurnOf(w.shard, r, observations, verdicts, c).sent) :: id
    case Retry(c, verdict) => if c in w.shard.connections then RetiredIn(RetryTurn(w.shard, c, verdict).sent) else {}
    case Attach(_, _, _) => {}
    case Detach(_) => {}
    case Refuse => {}
  }

  function KeysOf(v: ShardView): set<ChannelKey> {
    set id | id in v.channels && id != ROOT :: v.channels[id].key
  }

  function RetainedKeys(r: Render): set<ChannelKey> {
    KeysOf(r.view) + set c, key | c in r.overlays && key in KeysOf(r.overlays[c]) :: key
  }

  function Step(me: ShardId, s: State, m: Move): State {
    match m
    case Elsewhere(calls) => s.(ids := AfterAll(s.ids, calls))
    case Here(e, allocations) =>
      var rendered := AfterAll(s.ids, allocations);
      var retained := if e.Reconcile? && !Idle(s.world.shard, e.render, e.observations)
        then I.RetainChannels(rendered, me, RetainedKeys(e.render)) else rendered;
      State(ShardRuns.Step(s.world, e), I.RetireChannels(retained, me, Retired(s.world, e)))
  }

  /** The ids this shard's keys currently stand for. */
  ghost predicate Live(ids: I.Ids, me: ShardId, id: ChannelId) {
    exists i :: i in ids.channels && i.0 == me && ids.channels[i] == id
  }

  ghost predicate LiveView(ids: I.Ids, me: ShardId, v: ShardView) {
    forall id | id in v.channels :: id == ROOT || Live(ids, me, id)
  }

  ghost predicate BelowBound(ids: I.Ids, v: ShardView) {
    forall id | id in v.channels :: id < I.Bound(ids.nextChannel)
  }

  /** A render draws every id from the allocator; a handed-over view was drawn from the same one. */
  ghost predicate Allowed(me: ShardId, s: State, m: Move) {
    match m
    case Elsewhere(_) => true
    case Here(Attach(_, _, held), _) => WellKeyed(held) && BelowBound(s.ids, held)
    case Here(Reconcile(r, _, _), allocations) =>
      && ShardRuns.Wellformed(r)
      && LiveView(AfterAll(s.ids, allocations), me, r.view)
      && forall c | c in r.overlays :: LiveView(AfterAll(s.ids, allocations), me, r.overlays[c])
    case Here(_, _) => true
  }

  // ---------------------------------------------------------------- the invariant

  /** Handed out, and no longer what any of this shard's keys stands for. */
  ghost predicate Gone(ids: I.Ids, me: ShardId, id: ChannelId) {
    id < I.Bound(ids.nextChannel) && !Live(ids, me, id)
  }

  ghost predicate NoReturn(sent: seq<PlanOp>) {
    forall i, j | 0 <= i < j < |sent| && sent[i].RemoveChannel? && sent[i].goneChannel != ROOT ::
      !Creates(sent[j], sent[i].goneChannel)
  }

  ghost predicate Withdrawn(sent: seq<PlanOp>, id: ChannelId) {
    id != ROOT && RemoveChannel(id) in sent
  }

  ghost predicate Keyed(a: Attached, history: seq<ShardView>, ids: I.Ids) {
    && a.cursor < |history|
    && WellKeyed(a.overlay) && BelowBound(ids, a.overlay)
    && (a.held.Some? ==> WellKeyed(a.held.value) && BelowBound(ids, a.held.value))
  }

  /** What one connection has accepted, against what it can still be sent. */
  ghost predicate Final(a: Attached, sent: seq<PlanOp>, history: seq<ShardView>, ids: I.Ids, me: ShardId) {
    && Keyed(a, history, ids)
    && NoReturn(sent)
    && forall id | Withdrawn(sent, id) :: Gone(ids, me, id) && !Upcoming(history, a.cursor, id)
  }

  ghost predicate Drawn(w: World, ids: I.Ids) {
    && I.Consistent(ids)
    && ShardRuns.Known(w) && ShardRuns.Recorded(w.shard, w.history)
    && BelowBound(ids, w.shard.view)
    && forall k | 0 <= k < |w.history| :: BelowBound(ids, w.history[k])
  }

  ghost predicate Invariant(me: ShardId, s: State) {
    && Drawn(s.world, s.ids)
    && forall c | c in s.world.shard.connections ::
         Final(s.world.shard.connections[c], s.world.sent[c], s.world.history, s.ids, me)
  }

  // ---------------------------------------------------------------- the allocator's side

  lemma GoneStaysGone(ids: I.Ids, me: ShardId, call: I.Call, id: ChannelId)
    requires I.Consistent(ids) && Gone(ids, me, id)
    ensures Gone(I.After(ids, call), me, id)
  {
  }

  lemma {:induction false} AfterAllKeeps(ids: I.Ids, me: ShardId, calls: seq<I.Call>)
    requires I.Consistent(ids)
    ensures I.Consistent(AfterAll(ids, calls))
    ensures I.Bound(ids.nextChannel) <= I.Bound(AfterAll(ids, calls).nextChannel)
    ensures forall id | Gone(ids, me, id) :: Gone(AfterAll(ids, calls), me, id)
  {
    hide I.Consistent, I.After, Gone;
    if calls != [] {
      var n := |calls| - 1;
      AfterAllKeeps(ids, me, calls[..n]);
      var mid := AfterAll(ids, calls[..n]);
      I.AfterConsistent(mid, calls[n]);
      forall id | Gone(ids, me, id) ensures Gone(AfterAll(ids, calls), me, id) {
        GoneStaysGone(mid, me, calls[n], id);
      }
    }
  }

  lemma LiveIsBelow(ids: I.Ids, me: ShardId, v: ShardView)
    requires I.Consistent(ids) && LiveView(ids, me, v)
    ensures BelowBound(ids, v)
  {
  }

  lemma RetireMakesGone(ids: I.Ids, me: ShardId, retired: set<ChannelId>, id: ChannelId)
    requires id in retired && id < I.Bound(ids.nextChannel)
    ensures Gone(I.RetireChannels(ids, me, retired), me, id)
  {
  }

  // ---------------------------------------------------------------- one batch

  /** Accepting a batch keeps the promise, if what it creates was never withdrawn. */
  lemma BatchFinal(
    sent: seq<PlanOp>, batch: seq<PlanOp>, news: iset<ChannelId>, olds: iset<ChannelId>)
    requires NoReturn(sent) && BatchIds(batch, news, olds)
    requires forall id | Withdrawn(sent, id) :: id !in news
    ensures NoReturn(sent + batch)
    ensures forall id | Withdrawn(sent + batch, id) && !Withdrawn(sent, id) :: id in olds && id in RetiredIn(batch)
  {
    var all := sent + batch;
    forall i, j | 0 <= i < j < |all| && all[i].RemoveChannel? && all[i].goneChannel != ROOT
      ensures !Creates(all[j], all[i].goneChannel)
    {
      if i < |sent| {
        assert Withdrawn(sent, all[i].goneChannel) by { assert all[i] == RemoveChannel(all[i].goneChannel); }
        if j >= |sent| { assert all[j] in batch; }
      } else {
        assert all[i] in batch && all[j] in batch;
      }
    }
    forall id | Withdrawn(all, id) && !Withdrawn(sent, id) ensures id in olds && id in RetiredIn(batch) {
      assert RemoveChannel(id) in batch;
      var i :| 0 <= i < |batch| && batch[i] == RemoveChannel(id);
    }
  }

  /** A turn either commits the head and the new overlay, or changes nothing. */
  ghost predicate Settles(t: Turn, a: Attached, head: nat, overlay: Overlay) {
    || (t.attached.cursor == head && t.attached.overlay == overlay && t.attached.held.None?)
    || (t.attached == a && t.sent == [])
  }

  lemma PushSettles(a: Attached, log: Log, head: nat, overlay: Overlay, verdict: Verdict)
    ensures Settles(Push(a, log, head, overlay, verdict), a, head, overlay)
  {
    hide Transition, SelfFirst;
  }

  lemma ReplanSettles(
    a: Attached, before: ShardView, after: ShardView, head: nat, see: ScopeSet, overlay: Overlay, verdict: Verdict)
    ensures Settles(Replan(a, before, after, head, see, overlay, verdict), a, head, overlay)
  {
    hide ReplanOps, SelfFirst;
  }

  /** From a batch whose creations were never withdrawn to the connection's new record. */
  lemma TurnFinal(
    me: ShardId, a: Attached, t: Turn, sent: seq<PlanOp>, overlay: Overlay,
    history: seq<ShardView>, history': seq<ShardView>, ids: I.Ids, ids': I.Ids, news: iset<ChannelId>,
    olds: iset<ChannelId>)
    requires Final(a, sent, history, ids, me) && history <= history'
    requires Settles(t, a, |history'| - 1, overlay)
    requires I.Bound(ids.nextChannel) <= I.Bound(ids'.nextChannel)
    requires forall id | Gone(ids, me, id) :: Gone(ids', me, id)
    requires WellKeyed(overlay) && BelowBound(ids', overlay)
    requires BatchIds(t.sent, news, olds)
    requires forall id | Withdrawn(sent, id) :: id !in news && !Upcoming(history', a.cursor, id)
    requires forall id | id in olds && id in RetiredIn(t.sent) :: Gone(ids', me, id)
    ensures Final(t.attached, sent + t.sent, history', ids', me)
  {
    hide WellKeyed, BatchIds, Gone, NoReturn, RetiredIn;
    BatchFinal(sent, t.sent, news, olds);
    assert Keyed(t.attached, history', ids') by { KeyedLater(a, history, history', ids, ids'); }
    if t.attached == a && t.sent == [] {
      assert sent + t.sent == sent;
    }
  }

  lemma KeyedLater(a: Attached, history: seq<ShardView>, history': seq<ShardView>, ids: I.Ids, ids': I.Ids)
    requires Keyed(a, history, ids) && history <= history' && I.Bound(ids.nextChannel) <= I.Bound(ids'.nextChannel)
    ensures Keyed(a, history', ids')
  {
    hide WellKeyed;
  }

  /** The allocator calls of one event: the render's, then retention and retirement. */
  function CallsOf(me: ShardId, w: World, e: ShardRuns.Event, allocations: seq<I.Call>): seq<I.Call> {
    allocations
    + (if e.Reconcile? && !Idle(w.shard, e.render, e.observations) then [I.Retain(me, RetainedKeys(e.render))] else [])
    + [I.Retire(me, Retired(w, e))]
  }

  lemma CallsAreAll(me: ShardId, s: State, e: ShardRuns.Event, allocations: seq<I.Call>)
    ensures Step(me, s, Here(e, allocations)).ids == AfterAll(s.ids, CallsOf(me, s.world, e, allocations))
  {
    hide Idle, Retired, RetainedKeys;
    var calls := CallsOf(me, s.world, e, allocations);
    var n := |calls| - 1;
    assert calls[n] == I.Retire(me, Retired(s.world, e));
    if e.Reconcile? && !Idle(s.world.shard, e.render, e.observations) {
      assert calls[..n] == allocations + [I.Retain(me, RetainedKeys(e.render))];
      assert calls[..n][..|allocations|] == allocations;
    } else {
      assert calls[..n] == allocations;
    }
  }

  lemma ReconcileFinal(
    me: ShardId, s: State, r: Render, observations: map<ConnectionId, ScopeSet>, verdicts: map<ConnectionId, Verdict>,
    allocations: seq<I.Call>, c: ConnectionId)
    requires Invariant(me, s) && c in s.world.shard.connections
    requires Allowed(me, s, Here(ShardRuns.Reconcile(r, observations, verdicts), allocations))
    requires !Idle(s.world.shard, r, observations)
    ensures var t := TurnOf(s.world.shard, r, observations, verdicts, c);
      var ids' := Step(me, s, Here(ShardRuns.Reconcile(r, observations, verdicts), allocations)).ids;
      Final(t.attached, s.world.sent[c] + t.sent, ShardRuns.HistoryAfter(s.world, r), ids', me)
  {
    hide Plan, WellKeyed, Push, Replan, ShardRuns.Recorded, I.Consistent, I.After, Idle, Retired, RetainedKeys, Live;
    hide NoReturn;
    var e := ShardRuns.Reconcile(r, observations, verdicts);
    var w, a := s.world, s.world.shard.connections[c];
    var t := TurnOf(w.shard, r, observations, verdicts, c);
    var history := ShardRuns.HistoryAfter(w, r);
    var ids' := Step(me, s, Here(e, allocations)).ids;
    var overlay := OverlayOf(r, c);
    assert Final(a, w.sent[c], w.history, s.ids, me);
    CallsAreAll(me, s, e, allocations);
    AfterAllKeeps(s.ids, me, CallsOf(me, w, e, allocations));
    ShardRuns.RecordedAfter(w, r, w.shard.connections);
    var shard := Shard(r.view, LogAfter(w.shard, r), w.shard.connections);
    ShardRuns.RecordedLength(shard, history);
    ShardRuns.OverlayWellformed(r, c);
    var news, olds := TurnNews(me, s, r, observations, verdicts, allocations, c);
    TurnRetires(w, e, c);
    forall id | id in olds && id in RetiredIn(t.sent) ensures Gone(ids', me, id) {
      RetiredIsGone(me, s, e, allocations, id);
    }
    RenderBelow(me, s, r, allocations, c, ids');
    TurnFinal(me, a, t, w.sent[c], overlay, w.history, history, s.ids, ids', news, olds);
  }

  lemma TurnRetires(w: World, e: ShardRuns.Event, c: ConnectionId)
    requires e.Reconcile? && !Idle(w.shard, e.render, e.observations) && c in w.shard.connections
    ensures RetiredIn(TurnOf(w.shard, e.render, e.observations, e.verdicts, c).sent) <= Retired(w, e)
  {
    hide Idle, TurnOf, RetiredIn;
  }

  lemma RetiredIsGone(me: ShardId, s: State, e: ShardRuns.Event, allocations: seq<I.Call>, id: ChannelId)
    requires I.Consistent(s.ids) && id in Retired(s.world, e)
    requires id < I.Bound(AfterAll(s.ids, allocations).nextChannel)
    ensures Gone(Step(me, s, Here(e, allocations)).ids, me, id)
  {
    hide I.Consistent, Idle, Retired, RetainedKeys, I.After;
    AfterAllKeeps(s.ids, me, allocations);
    var rendered := AfterAll(s.ids, allocations);
    var retained := if e.Reconcile? && !Idle(s.world.shard, e.render, e.observations)
      then I.RetainChannels(rendered, me, RetainedKeys(e.render)) else rendered;
    RetireMakesGone(retained, me, Retired(s.world, e), id);
  }

  lemma RenderBelow(me: ShardId, s: State, r: Render, allocations: seq<I.Call>, c: ConnectionId, ids': I.Ids)
    requires I.Consistent(s.ids)
    requires I.Bound(ids'.nextChannel) >= I.Bound(AfterAll(s.ids, allocations).nextChannel)
    requires LiveView(AfterAll(s.ids, allocations), me, r.view)
    requires forall d | d in r.overlays :: LiveView(AfterAll(s.ids, allocations), me, r.overlays[d])
    ensures BelowBound(ids', r.view) && BelowBound(ids', OverlayOf(r, c))
  {
    hide I.Consistent, Live;
    AfterAllKeeps(s.ids, me, allocations);
    LiveIsBelow(AfterAll(s.ids, allocations), me, r.view);
    if c in r.overlays {
      LiveIsBelow(AfterAll(s.ids, allocations), me, r.overlays[c]);
    }
  }

  /** What was withdrawn is neither in the render nor in any view still to come. */
  lemma WithdrawnIsPast(
    me: ShardId, s: State, r: Render, allocations: seq<I.Call>, c: ConnectionId, id: ChannelId)
    requires I.Consistent(s.ids) && ShardRuns.Known(s.world) && c in s.world.shard.connections
    requires Final(s.world.shard.connections[c], s.world.sent[c], s.world.history, s.ids, me)
    requires LiveView(AfterAll(s.ids, allocations), me, r.view)
    requires forall d | d in r.overlays :: LiveView(AfterAll(s.ids, allocations), me, r.overlays[d])
    requires Withdrawn(s.world.sent[c], id)
    ensures id !in r.view.channels && id !in OverlayOf(r, c).channels
    ensures !Upcoming(ShardRuns.HistoryAfter(s.world, r), s.world.shard.connections[c].cursor, id)
  {
    hide I.Consistent, I.After, Live, Plan, NoReturn, Withdrawn, Keyed;
    AfterAllKeeps(s.ids, me, allocations);
    assert Gone(s.ids, me, id);
    assert Gone(AfterAll(s.ids, allocations), me, id);
    assert id != ROOT by { WithdrawnNotRoot(s.world.sent[c], id); }
  }

  lemma WithdrawnNotRoot(sent: seq<PlanOp>, id: ChannelId)
    requires Withdrawn(sent, id)
    ensures id != ROOT
  {
  }

  /** What one connection's turn can create and withdraw. */
  lemma TurnNews(
    me: ShardId, s: State, r: Render, observations: map<ConnectionId, ScopeSet>, verdicts: map<ConnectionId, Verdict>,
    allocations: seq<I.Call>, c: ConnectionId)
    returns (news: iset<ChannelId>, olds: iset<ChannelId>)
    requires Invariant(me, s) && c in s.world.shard.connections
    requires Allowed(me, s, Here(ShardRuns.Reconcile(r, observations, verdicts), allocations))
    ensures var t := TurnOf(s.world.shard, r, observations, verdicts, c);
      var history := ShardRuns.HistoryAfter(s.world, r);
      && BatchIds(t.sent, news, olds)
      && Settles(t, s.world.shard.connections[c], |history| - 1, OverlayOf(r, c))
      && (forall id | Withdrawn(s.world.sent[c], id) ::
           id !in news && !Upcoming(history, s.world.shard.connections[c].cursor, id))
      && (forall id | id in olds :: id < I.Bound(AfterAll(s.ids, allocations).nextChannel))
  {
    hide Plan, WellKeyed, Push, Replan, ShardRuns.Recorded, I.Consistent, I.After, NoReturn, Withdrawn, Upcoming;
    hide Recent, LiveView, BatchIds, Settles, BelowBound, Gone;
    var w, a, overlay := s.world, s.world.shard.connections[c], OverlayOf(r, c);
    var history := ShardRuns.HistoryAfter(w, r);
    assert Final(a, w.sent[c], w.history, s.ids, me);
    ShardRuns.RecordedAfter(w, r, w.shard.connections);
    var shard := Shard(r.view, LogAfter(w.shard, r), w.shard.connections);
    ShardRuns.RecordedLength(shard, history);
    ShardRuns.OverlayWellformed(r, c);
    forall id | Withdrawn(w.sent[c], id)
      ensures id !in r.view.channels && id !in overlay.channels && !Upcoming(history, a.cursor, id)
    {
      WithdrawnIsPast(me, s, r, allocations, c, id);
    }
    if Moved(a, Observed(observations, c)) {
      var see, verdict := Observed(observations, c), VerdictOf(verdicts, c);
      KeyedComposed(a, w, s.ids);
      ReplanIds(a, w.shard.view, r.view, |shard.log|, see, overlay, verdict);
      ReplanSettles(a, w.shard.view, r.view, |shard.log|, see, overlay, verdict);
      news := iset id | id in r.view.channels || id in overlay.channels;
      olds := iset id | id in Composed(a, w.shard.view).channels;
      ComposedBelow(a, w, s.ids, me, allocations);
    } else {
      PushIds(a, shard, history, overlay, VerdictOf(verdicts, c));
      PushSettles(a, shard.log, |shard.log|, overlay, VerdictOf(verdicts, c));
      news, olds := PushNews(a, history, overlay), PushOlds(a, history);
      PushBelow(me, s, r, allocations, c);
    }
  }

  lemma KeyedComposed(a: Attached, w: World, ids: I.Ids)
    requires ShardRuns.Recorded(w.shard, w.history) && Keyed(a, w.history, ids)
    ensures WellKeyed(Composed(a, w.shard.view))
  {
    hide WellKeyed, IsDelta, Alike, BelowBound;
    if a.held.None? {
      ShardRuns.ComposeKeyed(w.shard.view, a.see, a.overlay);
    }
  }

  lemma ComposedBelow(a: Attached, w: World, ids: I.Ids, me: ShardId, allocations: seq<I.Call>)
    requires I.Consistent(ids) && Keyed(a, w.history, ids) && BelowBound(ids, w.shard.view)
    ensures forall id | id in Composed(a, w.shard.view).channels :: id < I.Bound(AfterAll(ids, allocations).nextChannel)
  {
    hide WellKeyed, I.Consistent, I.After, Gone;
    AfterAllKeeps(ids, me, allocations);
    if a.held.None? {
      ComposedIds(w.shard.view, a.see, a.overlay);
    }
  }

  lemma PushBelow(me: ShardId, s: State, r: Render, allocations: seq<I.Call>, c: ConnectionId)
    requires Drawn(s.world, s.ids) && c in s.world.shard.connections
    requires Keyed(s.world.shard.connections[c], s.world.history, s.ids)
    requires LiveView(AfterAll(s.ids, allocations), me, r.view)
    requires forall d | d in r.overlays :: LiveView(AfterAll(s.ids, allocations), me, r.overlays[d])
    ensures forall id | id in PushOlds(s.world.shard.connections[c], ShardRuns.HistoryAfter(s.world, r)) ::
      id < I.Bound(AfterAll(s.ids, allocations).nextChannel)
  {
    hide WellKeyed, ShardRuns.Recorded, I.Consistent, I.After, Gone, Plan, LiveView;
    AfterAllKeeps(s.ids, me, allocations);
    RenderBelow(me, s, r, allocations, c, AfterAll(s.ids, allocations));
  }

  // ---------------------------------------------------------------- every move keeps the invariant

  lemma DrawnAfter(
    me: ShardId, s: State, r: Render, observations: map<ConnectionId, ScopeSet>, verdicts: map<ConnectionId, Verdict>,
    allocations: seq<I.Call>)
    requires Invariant(me, s)
    requires Allowed(me, s, Here(ShardRuns.Reconcile(r, observations, verdicts), allocations))
    ensures var s' := Step(me, s, Here(ShardRuns.Reconcile(r, observations, verdicts), allocations));
      Drawn(s'.world, s'.ids)
  {
    hide Plan, WellKeyed, ShardRuns.Recorded, I.Consistent, I.After, TurnOf, Retired, RetainedKeys, LiveView, Final;
    hide Live, Idle;
    var e := ShardRuns.Reconcile(r, observations, verdicts);
    var s' := Step(me, s, Here(e, allocations));
    CallsAreAll(me, s, e, allocations);
    AfterAllKeeps(s.ids, me, CallsOf(me, s.world, e, allocations));
    if !Idle(s.world.shard, r, observations) {
      ShardRuns.RecordedAfter(s.world, r, s'.world.shard.connections);
      RenderBelow(me, s, r, allocations, 0, s'.ids);
    }
  }

  lemma ReconcileKeeps(
    me: ShardId, s: State, r: Render, observations: map<ConnectionId, ScopeSet>, verdicts: map<ConnectionId, Verdict>,
    allocations: seq<I.Call>)
    requires Invariant(me, s)
    requires Allowed(me, s, Here(ShardRuns.Reconcile(r, observations, verdicts), allocations))
    ensures Invariant(me, Step(me, s, Here(ShardRuns.Reconcile(r, observations, verdicts), allocations)))
  {
    hide Plan, WellKeyed, ShardRuns.Recorded, I.Consistent, I.After, TurnOf, Retired, RetainedKeys, LiveView, Final;
    hide Live, Idle, BelowBound;
    var e := ShardRuns.Reconcile(r, observations, verdicts);
    var s' := Step(me, s, Here(e, allocations));
    DrawnAfter(me, s, r, observations, verdicts, allocations);
    forall c | c in s'.world.shard.connections
      ensures Final(s'.world.shard.connections[c], s'.world.sent[c], s'.world.history, s'.ids, me)
    {
      if Idle(s.world.shard, r, observations) {
        CallsAreAll(me, s, e, allocations);
        AfterAllKeeps(s.ids, me, CallsOf(me, s.world, e, allocations));
        FinalLater(me, s.world.shard.connections[c], s.world.sent[c], s.world.history, s.ids, s'.ids);
      } else {
        ReconcileFinal(me, s, r, observations, verdicts, allocations, c);
      }
    }
  }

  /** Allocation elsewhere changes nothing for a connection. */
  lemma FinalLater(me: ShardId, a: Attached, sent: seq<PlanOp>, history: seq<ShardView>, ids: I.Ids, ids': I.Ids)
    requires Final(a, sent, history, ids, me) && I.Bound(ids.nextChannel) <= I.Bound(ids'.nextChannel)
    requires forall id | Gone(ids, me, id) :: Gone(ids', me, id)
    ensures Final(a, sent, history, ids', me)
  {
    hide NoReturn, Withdrawn, Gone, Upcoming, Keyed;
    KeyedLater(a, history, history, ids, ids');
  }

  lemma DrawnLater(w: World, w': World, ids: I.Ids, ids': I.Ids)
    requires Drawn(w, ids) && I.Consistent(ids') && I.Bound(ids.nextChannel) <= I.Bound(ids'.nextChannel)
    requires w'.shard.view == w.shard.view && w'.shard.log == w.shard.log && w'.history == w.history
      && ShardRuns.Known(w')
    ensures Drawn(w', ids')
  {
    hide I.Consistent, ShardRuns.Recorded;
    ShardRuns.RecordedWith(w.shard, w'.shard, w.history);
  }

  lemma RetryFinal(me: ShardId, s: State, c: ConnectionId, verdict: Verdict, allocations: seq<I.Call>)
    requires Invariant(me, s) && c in s.world.shard.connections
    ensures var t := RetryTurn(s.world.shard, c, verdict);
      var ids' := Step(me, s, Here(ShardRuns.Retry(c, verdict), allocations)).ids;
      Final(t.attached, s.world.sent[c] + t.sent, s.world.history, ids', me)
  {
    hide Plan, WellKeyed, Push, ShardRuns.Recorded, I.Consistent, I.After, RetiredIn, NoReturn, Withdrawn, Upcoming;
    hide BatchIds, BelowBound, Gone, Recent, PushOlds, Settles;
    var e := ShardRuns.Retry(c, verdict);
    var w, a := s.world, s.world.shard.connections[c];
    var t := RetryTurn(w.shard, c, verdict);
    var ids' := Step(me, s, Here(e, allocations)).ids;
    assert Final(a, w.sent[c], w.history, s.ids, me);
    CallsAreAll(me, s, e, allocations);
    AfterAllKeeps(s.ids, me, CallsOf(me, w, e, allocations));
    if a.held.Some? {
      assert w.sent[c] + t.sent == w.sent[c];
      FinalLater(me, a, w.sent[c], w.history, s.ids, ids');
    } else {
      ShardRuns.RecordedLength(w.shard, w.history);
      PushIds(a, w.shard, w.history, a.overlay, verdict);
      PushSettles(a, w.shard.log, |w.shard.log|, a.overlay, verdict);
      OldsBelow(a, w, s.ids, me, allocations);
      forall id | id in PushOlds(a, w.history) && id in RetiredIn(t.sent) ensures Gone(ids', me, id) {
        RetiredIsGone(me, s, e, allocations, id);
      }
      KeyedLater(a, w.history, w.history, s.ids, ids');
      TurnFinal(me, a, t, w.sent[c], a.overlay, w.history, w.history, s.ids, ids',
                PushNews(a, w.history, a.overlay), PushOlds(a, w.history));
    }
  }

  lemma OldsBelow(a: Attached, w: World, ids: I.Ids, me: ShardId, allocations: seq<I.Call>)
    requires Drawn(w, ids) && Keyed(a, w.history, ids)
    ensures forall id | id in PushOlds(a, w.history) :: id < I.Bound(AfterAll(ids, allocations).nextChannel)
  {
    hide WellKeyed, ShardRuns.Recorded, I.Consistent, I.After, Gone;
    AfterAllKeeps(ids, me, allocations);
  }

  /** Events other than a reconcile: the shared state stays, and at most one connection changes. */
  lemma QuietKeeps(me: ShardId, s: State, e: ShardRuns.Event, allocations: seq<I.Call>)
    requires Invariant(me, s) && !e.Reconcile? && Allowed(me, s, Here(e, allocations))
    ensures Invariant(me, Step(me, s, Here(e, allocations)))
  {
    hide WellKeyed, Push, ShardRuns.Recorded, I.Consistent, I.After, Retired, Final, BelowBound, Gone;
    var s' := Step(me, s, Here(e, allocations));
    CallsAreAll(me, s, e, allocations);
    AfterAllKeeps(s.ids, me, CallsOf(me, s.world, e, allocations));
    assert ShardRuns.Known(s'.world);
    DrawnLater(s.world, s'.world, s.ids, s'.ids);
    forall c | c in s'.world.shard.connections
      ensures Final(s'.world.shard.connections[c], s'.world.sent[c], s'.world.history, s'.ids, me)
    {
      if e.Retry? && e.connection == c {
        RetryFinal(me, s, c, e.verdict, allocations);
      } else if e.Attach? && e.connection == c {
        ShardRuns.RecordedLength(s.world.shard, s.world.history);
        AttachFinal(me, s'.world.shard.connections[c], s'.world.history, s.ids, s'.ids);
      } else {
        FinalLater(me, s.world.shard.connections[c], s.world.sent[c], s.world.history, s.ids, s'.ids);
      }
    }
  }

  lemma AttachFinal(me: ShardId, a: Attached, history: seq<ShardView>, ids: I.Ids, ids': I.Ids)
    requires a.held.Some? && WellKeyed(a.held.value) && BelowBound(ids, a.held.value) && a.overlay == EMPTY_VIEW
    requires a.cursor < |history| && I.Bound(ids.nextChannel) <= I.Bound(ids'.nextChannel)
    ensures Final(a, [], history, ids', me)
  {
  }

  lemma MoveKeeps(me: ShardId, s: State, m: Move)
    requires Invariant(me, s) && Allowed(me, s, m)
    ensures Invariant(me, Step(me, s, m))
  {
    match m {
      case Elsewhere(calls) =>
        hide I.Consistent, ShardRuns.Recorded, ShardRuns.Known, Final, Gone, BelowBound;
        AfterAllKeeps(s.ids, me, calls);
        DrawnLater(s.world, s.world, s.ids, AfterAll(s.ids, calls));
        forall c | c in s.world.shard.connections
          ensures Final(s.world.shard.connections[c], s.world.sent[c], s.world.history, AfterAll(s.ids, calls), me)
        {
          FinalLater(me, s.world.shard.connections[c], s.world.sent[c], s.world.history, s.ids, AfterAll(s.ids, calls));
        }
      case Here(e, allocations) =>
        hide Invariant, Allowed, Step;
        if e.Reconcile? {
          ReconcileKeeps(me, s, e.render, e.observations, e.verdicts, allocations);
        } else {
          QuietKeeps(me, s, e, allocations);
        }
    }
  }

  ghost predicate IsRun(me: ShardId, states: seq<State>, moves: seq<Move>) {
    && |states| == |moves| + 1
    && states[0] == NEW_STATE
    && forall i | 0 <= i < |moves| :: Allowed(me, states[i], moves[i]) && states[i + 1] == Step(me, states[i], moves[i])
  }

  lemma NewStateInvariant(me: ShardId)
    ensures Invariant(me, NEW_STATE)
  {
    ShardRuns.AlikeItself(EMPTY_VIEW);
  }

  lemma {:induction false} RunsKeepInvariant(me: ShardId, states: seq<State>, moves: seq<Move>, n: nat)
    requires IsRun(me, states, moves) && n < |states|
    ensures Invariant(me, states[n])
  {
    hide Invariant;
    if n == 0 {
      NewStateInvariant(me);
    } else {
      RunsKeepInvariant(me, states, moves, n - 1);
      MoveKeeps(me, states[n - 1], moves[n - 1]);
    }
  }

  /**
   Over every run: nothing an attached client has accepted creates a non-root channel id after
   an operation it accepted earlier removed it.
   */
  lemma RemovedIdsNeverReturn(
    me: ShardId, states: seq<State>, moves: seq<Move>, n: nat, c: ConnectionId, i: nat, j: nat)
    requires IsRun(me, states, moves) && n < |states| && c in states[n].world.shard.connections
    requires c in states[n].world.sent && i < j < |states[n].world.sent[c]|
    requires states[n].world.sent[c][i].RemoveChannel? && states[n].world.sent[c][i].goneChannel != ROOT
    ensures !Creates(states[n].world.sent[c][j], states[n].world.sent[c][i].goneChannel)
  {
    hide Drawn, Keyed, Gone;
    RunsKeepInvariant(me, states, moves, n);
    assert Final(states[n].world.shard.connections[c], states[n].world.sent[c], states[n].world.history, states[n].ids,
      me);
  }
}
