/**
 Pushes over any window with any overlay change. The overlay's operations are spliced in before the
 first removal of the whole window, so what later versions say about an element comes after what
 the overlay says about it: the push is exact if and only if that leaves the overlay's item alone,
 and every leftover is covered.
 */
module Pushes {
  import opened Collections
  import opened Scopes
  import opened Views
  import opened Planner
  import opened Clients
  import opened Deltas
  import opened OverlayDeltas
  import opened Composition
  import opened FastPath
  import opened Windows
  import opened Journals

  // ---------------------------------------------------------------- where the overlay is spliced in

  /** The observer is told, in version `i` of the window, that the element is gone. */
  ghost predicate Leaves(views: seq<ShardView>, see: ScopeSet, e: ElementId, i: nat)
    requires i + 1 < |views|
  {
    var x, y := Look(views[i], e), Look(views[i + 1], e);
    Seen(see, x).Some? && (y.None? || y.value.scope != x.value.scope)
  }

  ghost predicate SomethingLeaves(views: seq<ShardView>, see: ScopeSet, i: nat)
    requires i + 1 < |views|
  {
    exists e :: Leaves(views, see, e, i)
  }

  /** The first version from `i` on that withdraws anything, counted in: the overlay goes in before what follows it. */
  ghost function Cut(views: seq<ShardView>, see: ScopeSet, i: nat): (m: nat)
    requires i < |views|
    ensures i <= m < |views|
    ensures forall j: nat | i <= j && j + 1 < m :: !SomethingLeaves(views, see, j)
    ensures m == |views| - 1 || (i < m && SomethingLeaves(views, see, m - 1))
    decreases |views| - i
  {
    if i + 1 == |views| then i
    else if SomethingLeaves(views, see, i) then i + 1
    else Cut(views, see, i + 1)
  }

  lemma {:induction false} OnMember(ops: seq<PlanOp>, op: PlanOp, e: ElementId)
    ensures op in On(ops, e) <==> op in ops && Target(op) == e
    decreases |ops|
  {
    if ops != [] {
      var n := |ops| - 1;
      assert ops == ops[..n] + [ops[n]];
      OnMember(ops[..n], op, e);
    }
  }

  predicate NoRemoval(ops: seq<PlanOp>) {
    forall i | 0 <= i < |ops| :: !IsRemoval(ops[i])
  }

  /** A version's received operations include a removal exactly when something leaves. */
  lemma VersionWithdraws(deltas: seq<seq<PlannedOp>>, views: seq<ShardView>, see: ScopeSet, i: nat)
    requires Chain(deltas, views) && i < |deltas| && |views| == |deltas| + 1
    ensures NoRemoval(Filter(deltas[i], see)) <==> !SomethingLeaves(views, see, i)
  {
    hide Chain, Filter, Leaves, IsRemoval, On;
    var ops := Filter(deltas[i], see);
    if e :| Leaves(views, see, e, i) {
      LeavingIsTold(deltas, views, see, i, e);
    }
    if j :| 0 <= j < |ops| && IsRemoval(ops[j]) {
      ToldIsLeaving(deltas, views, see, i, ops[j]);
    }
  }

  lemma LeavingIsTold(deltas: seq<seq<PlannedOp>>, views: seq<ShardView>, see: ScopeSet, i: nat, e: ElementId)
    requires Chain(deltas, views) && i < |deltas| && |views| == |deltas| + 1 && Leaves(views, see, e, i)
    ensures exists j :: 0 <= j < |Filter(deltas[i], see)| && IsRemoval(Filter(deltas[i], see)[j])
  {
    hide Filter, On, Sees, Look, About, Chain;
    var d := About(deltas[i], e);
    ChainDelta(deltas, views, i, e);
    FilterDelta(d, Look(views[i], e), Look(views[i + 1], e), see);
    FilterOn(deltas[i], see, e);
    var gone := d[|d| - 1].op;
    assert IsRemoval(gone) && gone in On(Filter(deltas[i], see), e);
    OnMember(Filter(deltas[i], see), gone, e);
  }

  lemma RemovalReceived(d: seq<PlannedOp>, x: Option<Entry>, y: Option<Entry>, see: ScopeSet, op: PlanOp)
    requires Delta(d, x, y) && op in Filter(d, see) && IsRemoval(op)
    ensures Seen(see, x).Some? && (y.None? || y.value.scope != x.value.scope)
  {
    FilterDelta(d, x, y, see);
    hide Filter, Sees;
  }

  lemma ToldIsLeaving(deltas: seq<seq<PlannedOp>>, views: seq<ShardView>, see: ScopeSet, i: nat, op: PlanOp)
    requires Chain(deltas, views) && i < |deltas| && |views| == |deltas| + 1
    requires op in Filter(deltas[i], see) && IsRemoval(op)
    ensures Leaves(views, see, Target(op), i)
  {
    hide Filter, On, Sees, Look, About, Chain, Delta, IsRemoval;
    var e := Target(op);
    ChainDelta(deltas, views, i, e);
    FilterOn(deltas[i], see, e);
    OnMember(Filter(deltas[i], see), op, e);
    RemovalReceived(About(deltas[i], e), Look(views[i], e), Look(views[i + 1], e), see, op);
  }

  lemma {:induction false} NothingRemovedYet(deltas: seq<seq<PlannedOp>>, views: seq<ShardView>, see: ScopeSet, n: nat)
    requires Chain(deltas, views) && n <= |deltas| && |views| == |deltas| + 1
    requires forall j: nat | j < n :: !SomethingLeaves(views, see, j)
    ensures NoRemoval(Filter(Flatten(deltas[..n]), see))
  {
    if n == 0 {
      assert deltas[..0] == [] && Flatten([]) == [] && Filter([], see) == [];
    } else {
      hide Filter, Chain, SomethingLeaves;
      NothingRemovedYet(deltas, views, see, n - 1);
      VersionWithdraws(deltas, views, see, n - 1);
      assert deltas[..n][..n - 1] == deltas[..n - 1];
      FilterConcat(Flatten(deltas[..n - 1]), deltas[n - 1], see);
    }
  }

  /** Up to the cut, removals trail; and there is one, unless the cut is the end of the window. */
  lemma BeforeTheCut(deltas: seq<seq<PlannedOp>>, views: seq<ShardView>, see: ScopeSet)
    requires Chain(deltas, views) && |views| == |deltas| + 1
    ensures var m, ops := Cut(views, see, 0), Filter(Flatten(deltas[..Cut(views, see, 0)]), see);
      RemovalsTrail(ops) && (m == |deltas| || !NoRemoval(ops))
  {
    hide Filter, SomethingLeaves, Chain, RemovalsLast;
    var m := Cut(views, see, 0);
    if m == 0 {
      assert deltas[..0] == [] && Flatten([]) == [];
      FilterNothing(see);
    } else {
      NothingRemovedYet(deltas, views, see, m - 1);
      VersionWithdraws(deltas, views, see, m - 1);
      assert deltas[..m][..m - 1] == deltas[..m - 1];
      FilterConcat(Flatten(deltas[..m - 1]), deltas[m - 1], see);
      ChainTrails(deltas, views, m - 1);
      FilterKeepsTrail(deltas[m - 1], see);
      TrailsAfter(Filter(Flatten(deltas[..m - 1]), see), Filter(deltas[m - 1], see));
    }
  }

  lemma FilterNothing(see: ScopeSet)
    ensures Filter([], see) == []
  {
  }

  lemma ChainTrails(deltas: seq<seq<PlannedOp>>, views: seq<ShardView>, i: nat)
    requires Chain(deltas, views) && i < |deltas|
    ensures RemovalsLast(deltas[i])
  {
    hide Delta, RemovalsLast;
    assert IsDelta(deltas[i], views[i], views[i + 1]);
  }

  lemma TrailsAfter(a: seq<PlanOp>, b: seq<PlanOp>)
    requires NoRemoval(a) && RemovalsTrail(b)
    ensures RemovalsTrail(a + b)
    ensures NoRemoval(a + b) <==> NoRemoval(b)
  {
    hide IsRemoval;
    forall i | 0 <= i < |b| ensures (a + b)[|a| + i] == b[i] {
    }
  }

  // ---------------------------------------------------------------- what comes before and after

  /** Around the boundary of operations that trail up to some point, apart from removals, nothing moves. */
  lemma AroundTheBoundary(a: seq<PlanOp>, b: seq<PlanOp>, e: ElementId)
    requires RemovalsTrail(a) && (b == [] || !NoRemoval(a))
    ensures var k := Boundary(a + b);
      && Part(On((a + b)[..k], e), false) == Part(On(a, e), false)
      && Part(On((a + b)[k..], e), false) == Part(On(b, e), false)
  {
    hide On, Part, IsRemoval;
    var k := Boundary(a + b);
    BoundaryWithin(a, b);
    var head, gone := a[..k], a[k..];
    assert (a + b)[..k] == head && (a + b)[k..] == gone + b && a == head + gone;
    PartOfOneKind(gone, true, e);
    OnConcat(head, gone, e);
    PartConcat(On(head, e), On(gone, e), false);
    OnConcat(gone, b, e);
    PartConcat(On(gone, e), On(b, e), false);
  }

  lemma BoundaryWithin(a: seq<PlanOp>, b: seq<PlanOp>)
    requires RemovalsTrail(a) && (b == [] || !NoRemoval(a))
    ensures var k := Boundary(a + b); k <= |a| && forall i | k <= i < |a| :: IsRemoval(a[i])
  {
    var k := Boundary(a + b);
    if j :| 0 <= j < |a| && IsRemoval(a[j]) {
      assert IsRemoval((a + b)[j]);
      assert k < |a| && IsRemoval(a[k]);
    }
  }

  /** The additions and patches about an element before and after the splice, version by version. */
  lemma CutSplits(deltas: seq<seq<PlannedOp>>, views: seq<ShardView>, see: ScopeSet, e: ElementId)
    requires Chain(deltas, views) && |views| == |deltas| + 1
    ensures var m, ops := Cut(views, see, 0), Filter(Flatten(deltas), see);
      var b := Boundary(ops);
      && Part(On(ops[..b], e), false) == Part(WindowOps(deltas[..m], see, e), false)
      && Part(On(ops[b..], e), false) == Part(WindowOps(deltas[m..], see, e), false)
  {
    hide Filter, On, Part, Chain, Cut, RemovalsTrail, NoRemoval;
    var m := Cut(views, see, 0);
    var first, rest := Filter(Flatten(deltas[..m]), see), Filter(Flatten(deltas[m..]), see);
    assert deltas == deltas[..m] + deltas[m..];
    FlattenConcat(deltas[..m], deltas[m..]);
    FilterConcat(Flatten(deltas[..m]), Flatten(deltas[m..]), see);
    BeforeTheCut(deltas, views, see);
    AfterTheEnd(deltas, see, m);
    AroundTheBoundary(first, rest, e);
    FilterOn(Flatten(deltas[..m]), see, e);
    FilterOn(Flatten(deltas[m..]), see, e);
  }

  lemma AfterTheEnd(deltas: seq<seq<PlannedOp>>, see: ScopeSet, m: nat)
    requires m <= |deltas|
    ensures m == |deltas| ==> Filter(Flatten(deltas[m..]), see) == []
  {
  }

  lemma SplicedAlone(shared: seq<PlanOp>, private: OverlayOps, e: ElementId)
    requires On(shared, e) == []
    ensures On(Splice(shared, private), e) == On(private.removals, e) + On(private.additions, e)
  {
    hide On, Splice;
    SplicedParts(shared, private, e);
  }

  /** Where the window adds the element, the overlay's removal of it does not settle. */
  lemma SplicedRemoval(shared: seq<PlanOp>, private: OverlayOps, e: ElementId)
    requires HasAddition(On(shared, e)) && On(private.additions, e) == []
    requires forall i | 0 <= i < |On(private.removals, e)| :: IsRemoval(On(private.removals, e)[i])
    ensures Settle(On(Splice(shared, private), e)) == Part(On(shared, e), false)
  {
    hide On, Splice, Part, HasAddition;
    SplicedParts(shared, private, e);
    var b := Boundary(shared);
    var head, r, tail := On(shared[..b], e), On(private.removals, e), On(shared[b..], e);
    PartAll(r, true);
    PartConcat(head, r, false);
    PartConcat(head + r, tail, false);
    PartConcat(head, tail, false);
    AdditionIn(head, r);
    AdditionIn(head + r, tail);
    AdditionIn(head, tail);
    assert head + r + [] + tail == head + r + tail;
  }

  // ---------------------------------------------------------------- one element

  /**
   An element new or different in the overlay, through the whole window: what is met of it at the
   splice, the overlay's own operations, then the additions and patches of the versions after it.
   */
  function Overlaid(
    deltas: seq<seq<PlannedOp>>, views: seq<ShardView>, see: ScopeSet, was: Overlay, now: Overlay, e: ElementId,
    m: nat): Option<Item>
    requires m < |views| && m <= |deltas|
  {
    var met := if Look(was, e).Some? then LastSeenOr(views, see, e, m, Some(Look(was, e).value.item)) else None;
    Steps(Steps(met, On(PlanElements(was, now).additions, e)), Part(WindowOps(deltas[m..], see, e), false))
  }

  /**
   The push settles the element: one new or different in the overlay is left as the overlay has it,
   and any other is not a leftover, or is a covered one.
   */
  ghost predicate Settled(
    deltas: seq<seq<PlannedOp>>, views: seq<ShardView>, see: ScopeSet, was: Overlay, now: Overlay, e: ElementId)
    requires |views| == |deltas| + 1
  {
    if Look(now, e).Some? && Look(was, e) != Look(now, e)
    then Overlaid(deltas, views, see, was, now, e, Cut(views, see, 0)) == Some(Look(now, e).value.item)
    else Leftover(views, see, e) ==> Covered(views, see, now, e)
  }

  ghost predicate AllSettled(
    deltas: seq<seq<PlannedOp>>, views: seq<ShardView>, see: ScopeSet, was: Overlay, now: Overlay)
    requires |views| == |deltas| + 1
  {
    forall e :: Settled(deltas, views, see, was, now, e)
  }

  /** An element no longer in the overlay. */
  lemma PushedAway(
    deltas: seq<seq<PlannedOp>>, views: seq<ShardView>, see: ScopeSet, was: Overlay, now: Overlay, e: ElementId)
    requires Chain(deltas, views) && WellKeyed(was) && WellKeyed(now) && Look(was, e).Some? && Look(now, e).None?
    requires Disjoint(Restrict(views[0], see), was) && Disjoint(Restrict(views[|deltas|], see), now)
    ensures
      At(Run(Held(views[0], see, was), Transition(Flatten(deltas), see, was, now)), e)
      == At(Held(views[|deltas|], see, now), e)
      <==> (Leftover(views, see, e) ==> Covered(views, see, now, e))
  {
    hide Transition, Held, Run, At, WellKeyed, Disjoint, Restrict, WindowOps, Settle, Look, On, Steps, Part;
    hide HasAddition;
    hide Chain, PlanElements, Filter, Splice, Sees, SeenAt, LastSeen, Leftover;
    var n, shared, private := |deltas|, Filter(Flatten(deltas), see), PlanElements(was, now);
    var f := WindowOps(deltas, see, e);
    ChainLength(deltas, views);
    EndHeld(views[0], see, was, e);
    EndHeld(views[n], see, now, e);
    AtZero(views, see, e);
    PushedOn(deltas, views, see, was, now, e);
    PlanElementsIsDelta(was, now, e);
    Uncovered(deltas, views, see, e);
    var o := Some(Look(was, e).value.item);
    if HasAddition(f) {
      SplicedRemoval(shared, private, e);
      WindowFrom(deltas, views, see, e, n, o);
      LastSeenFirst(views, see, e, n, o);
      assert deltas[..n] == deltas;
    } else {
      SplicedAlone(shared, private, e);
      OverlayAlone(On(private.removals, e), On(private.additions, e), Look(was, e), Look(now, e));
    }
  }

  lemma AtZero(views: seq<ShardView>, see: ScopeSet, e: ElementId)
    requires views != []
    ensures SeenAt(views, see, e, 0) == Seen(see, Look(views[0], e))
    ensures SeenAt(views, see, e, |views| - 1) == Seen(see, Look(views[|views| - 1], e))
  {
  }

  /** The window's word about an element not seen at its start, with no overlay to cover it. */
  lemma Uncovered(deltas: seq<seq<PlannedOp>>, views: seq<ShardView>, see: ScopeSet, e: ElementId)
    requires Chain(deltas, views) && |views| == |deltas| + 1 && SeenAt(views, see, e, 0).None?
    ensures var f, n := WindowOps(deltas, see, e), |deltas|;
      && (HasAddition(f) ==> LastSeen(views, see, e, n).Some?)
      && (HasAddition(f) ==> (LastSeen(views, see, e, n) == SeenAt(views, see, e, n) <==> !Leftover(views, see, e)))
      && (!HasAddition(f) ==> f == [] && SeenAt(views, see, e, n).None? && !Leftover(views, see, e))
  {
    hide WindowOps, Chain, Look, Part, LastSeen, HasAddition, SeenAt, Arrives;
    var n := |deltas|;
    assert deltas[..n] == deltas;
    WindowAt(deltas, views, see, e, n);
    assert EverArrives(views, see, e) <==> ArrivesBefore(views, see, e, n);
    LastSeenAgrees(views, see, e, n);
    NoSteps(SeenAt(views, see, e, 0));
  }

  /** An element new in the overlay: its addition overrides what was said before it. */
  lemma AddedInside(
    f1: seq<PlanOp>, r: seq<PlanOp>, a: seq<PlanOp>, f2: seq<PlanOp>, start: Option<Item>, n: Option<Entry>)
    requires n.Some? && PrivateRemovals(r, None, n) && PrivateAdditions(a, None, n)
    ensures Steps(start, Settle(f1 + r + a + f2)) == Steps(Some(n.value.item), Part(f2, false))
    ensures Steps(None, a) == Some(n.value.item)
  {
    hide Steps, Part, HasAddition;
    assert a == [a[0]] && f1 + r + a + f2 == f1 + [a[0]] + f2;
    OneAddition(a[0]);
    AdditionIn(f1, [a[0]]);
    AdditionIn(f1 + [a[0]], f2);
    PartConcat(f1, [a[0]], false);
    PartConcat(f1 + [a[0]], f2, false);
    PartAll([a[0]], false);
    StepsConcat(start, Part(f1, false) + [a[0]], Part(f2, false));
    StepsConcat(start, Part(f1, false), [a[0]]);
    StepsOne(Steps(start, Part(f1, false)), a[0]);
    StepsOne(None, a[0]);
  }

  lemma OneAddition(op: PlanOp)
    requires IsAddition(op)
    ensures HasAddition([op]) && !IsRemoval(op) && forall s :: Step(s, op) == Step(None, op)
  {
    assert [op][0] == op;
  }

  /** An element different in the overlay: its patches fall between what was said before and after. */
  lemma PatchedInside(
    f1: seq<PlanOp>, r: seq<PlanOp>, a: seq<PlanOp>, f2: seq<PlanOp>, o: Option<Entry>, n: Option<Entry>)
    requires o.Some? && n.Some? && PrivateRemovals(r, o, n) && PrivateAdditions(a, o, n)
    requires HasAddition(f1 + f2) || f1 + f2 == []
    ensures var start := Some(o.value.item);
      Steps(start, Settle(f1 + r + a + f2)) == Steps(Steps(Steps(start, Part(f1, false)), a), Part(f2, false))
  {
    assert r == [] && f1 + r + a + f2 == f1 + a + f2;
    assert forall i | 0 <= i < |a| :: !IsRemoval(a[i]);
    hide Steps, Part, HasAddition, Settle, PrivateRemovals, PrivateAdditions;
    var start := Some(o.value.item);
    SettledAround(f1, a, f2);
    StepsConcat(start, Part(f1, false) + a, Part(f2, false));
    StepsConcat(start, Part(f1, false), a);
  }

  lemma SettledAround(f1: seq<PlanOp>, a: seq<PlanOp>, f2: seq<PlanOp>)
    requires (forall i | 0 <= i < |a| :: !IsRemoval(a[i])) && (HasAddition(f1 + f2) || f1 + f2 == [])
    ensures Settle(f1 + a + f2) == Part(f1, false) + a + Part(f2, false)
  {
    hide Part, HasAddition;
    PartAll(a, false);
    PartConcat(f1, a, false);
    PartConcat(f1 + a, f2, false);
    AdditionIn(f1, a);
    AdditionIn(f1 + a, f2);
    AdditionIn(f1, f2);
    if f1 + f2 == [] {
      assert f1 == [] && f2 == [] && f1 + a + f2 == a;
      NothingSaid();
    }
  }

  lemma NothingSaid()
    ensures Part([], false) == []
  {
  }

  /** What a push makes of an element new or different in the overlay. */
  lemma PushedChanged(
    deltas: seq<seq<PlannedOp>>, views: seq<ShardView>, see: ScopeSet, was: Overlay, now: Overlay, e: ElementId)
    requires Chain(deltas, views) && WellKeyed(was) && WellKeyed(now) && |views| == |deltas| + 1
    requires Look(now, e).Some? && Look(was, e) != Look(now, e)
    requires Disjoint(Restrict(views[0], see), was) && Disjoint(Restrict(views[|deltas|], see), now)
    ensures At(Held(views[|deltas|], see, now), e) == Some(Look(now, e).value.item)
    ensures At(Run(Held(views[0], see, was), Transition(Flatten(deltas), see, was, now)), e)
         == Overlaid(deltas, views, see, was, now, e, Cut(views, see, 0))
  {
    hide Transition, Held, Run, At, WellKeyed, Disjoint, Restrict, WindowOps, Settle, Look, On, Steps, Part, Cut, Chain;
    hide PlanElements, Filter, Splice, Sees, PrivateAdditions, PrivateRemovals, HasAddition, SeenAt, LastSeenOr;
    var shared, private := Filter(Flatten(deltas), see), PlanElements(was, now);
    var b, m := Boundary(shared), Cut(views, see, 0);
    var f1, r, a, f2 := On(shared[..b], e), On(private.removals, e), On(private.additions, e), On(shared[b..], e);
    EndHeld(views[0], see, was, e);
    EndHeld(views[|deltas|], see, now, e);
    PushedOn(deltas, views, see, was, now, e);
    SplicedParts(shared, private, e);
    PlanElementsIsDelta(was, now, e);
    CutSplits(deltas, views, see, e);
    if Look(was, e).None? {
      AddedInside(f1, r, a, f2, At(Held(views[0], see, was), e), Look(now, e));
    } else {
      AtZero(views, see, e);
      Uncovered(deltas, views, see, e);
      PatchedInside(f1, r, a, f2, Look(was, e), Look(now, e));
      WindowFrom(deltas, views, see, e, m, Some(Look(was, e).value.item));
    }
  }

  lemma PushedAt(
    deltas: seq<seq<PlannedOp>>, views: seq<ShardView>, see: ScopeSet, was: Overlay, now: Overlay, e: ElementId)
    requires Chain(deltas, views) && WellKeyed(was) && WellKeyed(now) && |views| == |deltas| + 1
    requires Disjoint(Restrict(views[0], see), was) && Disjoint(Restrict(views[|deltas|], see), now)
    ensures
      At(Run(Held(views[0], see, was), Transition(Flatten(deltas), see, was, now)), e)
      == At(Held(views[|deltas|], see, now), e)
      <==> Settled(deltas, views, see, was, now, e)
  {
    hide Transition, Held, Run, At, WellKeyed, Disjoint, Restrict, Leftover, Covered, Overlaid, Cut;
    if Look(was, e) == Look(now, e) {
      PushedUnchanged(deltas, views, see, was, now, e);
    } else if Look(now, e).None? {
      PushedAway(deltas, views, see, was, now, e);
    } else {
      PushedChanged(deltas, views, see, was, now, e);
    }
  }

  // ---------------------------------------------------------------- the whole push

  /**
   A push replays any window with any change of overlay, each overlay disjoint from the shared view
   at its own end. It is exact if and only if it settles every element.
   */
  lemma WindowExact(deltas: seq<seq<PlannedOp>>, views: seq<ShardView>, see: ScopeSet, was: Overlay, now: Overlay)
    requires Chain(deltas, views) && WellKeyed(was) && WellKeyed(now) && |views| == |deltas| + 1
    requires Disjoint(Restrict(views[0], see), was) && Disjoint(Restrict(views[|deltas|], see), now)
    ensures
      Run(Held(views[0], see, was), Transition(Flatten(deltas), see, was, now)) == Held(views[|deltas|], see, now)
      <==> AllSettled(deltas, views, see, was, now)
  {
    hide Transition, Held, Run, At, Settled, WellKeyed, Disjoint, Restrict;
    var result := Run(Held(views[0], see, was), Transition(Flatten(deltas), see, was, now));
    var target := Held(views[|deltas|], see, now);
    forall e ensures At(result, e) == At(target, e) <==> Settled(deltas, views, see, was, now, e) {
      PushedAt(deltas, views, see, was, now, e);
    }
    if AllSettled(deltas, views, see, was, now) {
      SameEverywhere(result, target);
    }
  }

  /** No element new or different in the overlay is seen among the shared ones of a version missed. */
  ghost predicate ChangesApart(views: seq<ShardView>, see: ScopeSet, was: Overlay, now: Overlay) {
    forall e, i | Look(now, e).Some? && Look(was, e) != Look(now, e) && 0 < i < |views| ::
      SeenAt(views, see, e, i).None?
  }

  lemma ChainFrom(deltas: seq<seq<PlannedOp>>, views: seq<ShardView>, m: nat)
    requires Chain(deltas, views) && m <= |deltas|
    ensures |views| == |deltas| + 1 && Chain(deltas[m..], views[m..])
  {
    hide IsDelta;
  }

  lemma ArrivesIsSeen(views: seq<ShardView>, see: ScopeSet, e: ElementId, i: nat)
    requires i + 1 < |views| && SeenAt(views, see, e, i + 1).None?
    ensures !Arrives(views, see, e, i)
  {
  }

  /** Of an element never seen, nothing is told. */
  lemma NeverTold(deltas: seq<seq<PlannedOp>>, views: seq<ShardView>, see: ScopeSet, e: ElementId)
    requires Chain(deltas, views) && |views| == |deltas| + 1
    requires forall i | 0 <= i < |views| :: SeenAt(views, see, e, i).None?
    ensures WindowOps(deltas, see, e) == []
  {
    hide WindowOps, Chain, SeenAt, Arrives, LastSeen, Steps, Part, HasAddition;
    var n := |deltas|;
    assert deltas[..n] == deltas;
    WindowAt(deltas, views, see, e, n);
    forall i: nat | i < n ensures !Arrives(views, see, e, i) {
      assert SeenAt(views, see, e, i + 1).None?;
      ArrivesIsSeen(views, see, e, i);
    }
  }

  lemma {:induction false} NeverSeen(views: seq<ShardView>, see: ScopeSet, e: ElementId, n: nat, s: Option<Item>)
    requires n < |views| && forall i | 0 <= i <= n :: SeenAt(views, see, e, i).None?
    ensures LastSeenOr(views, see, e, n, s) == s
  {
    hide SeenAt;
    if n > 0 {
      NeverSeen(views, see, e, n - 1, s);
    }
  }

  /** Nothing is told after the splice about an element seen at most in the first view. */
  lemma ApartTail(deltas: seq<seq<PlannedOp>>, views: seq<ShardView>, see: ScopeSet, e: ElementId)
    requires Chain(deltas, views) && |views| == |deltas| + 1
    requires forall i | 0 < i < |views| :: SeenAt(views, see, e, i).None?
    ensures WindowOps(deltas[Cut(views, see, 0)..], see, e) == []
  {
    hide WindowOps, Chain, Look, SomethingLeaves, Cut;
    var m := Cut(views, see, 0);
    if m == |deltas| {
      assert deltas[m..] == [];
      NothingInWindow(see, e);
    } else {
      ChainFrom(deltas, views, m);
      CutIsPositive(views, see);
      forall i | 0 <= i < |views[m..]| ensures SeenAt(views[m..], see, e, i).None? {
        assert SeenAt(views[m..], see, e, i) == SeenAt(views, see, e, m + i);
      }
      NeverTold(deltas[m..], views[m..], see, e);
    }
  }

  lemma NothingInWindow(see: ScopeSet, e: ElementId)
    ensures WindowOps([], see, e) == [] && Part([], false) == []
  {
  }

  lemma CutIsPositive(views: seq<ShardView>, see: ScopeSet)
    requires views != []
    ensures Cut(views, see, 0) == |views| - 1 || 0 < Cut(views, see, 0)
  {
  }

  lemma ApartAt(
    deltas: seq<seq<PlannedOp>>, views: seq<ShardView>, see: ScopeSet, was: Overlay, now: Overlay, e: ElementId)
    requires Chain(deltas, views) && WellKeyed(was) && WellKeyed(now) && |views| == |deltas| + 1
    requires Disjoint(Restrict(views[0], see), was) && ChangesApart(views, see, was, now)
    ensures Settled(deltas, views, see, was, now, e) <==> (Leftover(views, see, e) ==> Covered(views, see, now, e))
  {
    if Look(now, e).Some? && Look(was, e) != Look(now, e) {
      assert forall i | 0 < i < |views| :: SeenAt(views, see, e, i).None?;
      hide WellKeyed, Disjoint, Restrict, Chain, Covered, Look, WindowOps, Steps, Part, On, PlanElements, SeenAt, Cut;
      hide ChangesApart;
      ApartTail(deltas, views, see, e);
      NothingInWindow(see, e);
      PlanElementsIsDelta(was, now, e);
      forall i: nat | i + 1 < |views| ensures !Arrives(views, see, e, i) {
        ArrivesIsSeen(views, see, e, i);
      }
      ApartMet(views, see, was, e, Cut(views, see, 0));
      AdditionsAlone(On(PlanElements(was, now).additions, e), Look(was, e), Look(now, e));
    }
  }

  lemma ApartMet(views: seq<ShardView>, see: ScopeSet, was: Overlay, e: ElementId, m: nat)
    requires m < |views| && Disjoint(Restrict(views[0], see), was)
    requires forall i | 0 < i < |views| :: SeenAt(views, see, e, i).None?
    ensures Look(was, e).Some? ==>
      LastSeenOr(views, see, e, m, Some(Look(was, e).value.item)) == Some(Look(was, e).value.item)
  {
    hide Restrict, Disjoint, Look;
    EndHeld(views[0], see, was, e);
    if Look(was, e).Some? {
      NeverSeen(views, see, e, m, Some(Look(was, e).value.item));
    }
  }

  lemma AdditionsAlone(a: seq<PlanOp>, o: Option<Entry>, n: Option<Entry>)
    requires PrivateAdditions(a, o, n) && n.Some?
    ensures Steps(Steps(if o.Some? then Some(o.value.item) else None, a), []) == Some(n.value.item)
  {
    if o.None? {
      assert a == [a[0]];
      StepsOne(None, a[0]);
    }
  }

  /** Where the overlay's changes keep apart from the versions missed, all there is to settle is the leftovers. */
  lemma ApartIsSettled(deltas: seq<seq<PlannedOp>>, views: seq<ShardView>, see: ScopeSet, was: Overlay, now: Overlay)
    requires Chain(deltas, views) && WellKeyed(was) && WellKeyed(now) && |views| == |deltas| + 1
    requires Disjoint(Restrict(views[0], see), was) && ChangesApart(views, see, was, now)
    ensures AllSettled(deltas, views, see, was, now) <==> LeftoversCovered(views, see, now)
  {
    hide WellKeyed, Disjoint, Restrict, Chain, Leftover, Covered;
    forall e
      ensures Settled(deltas, views, see, was, now, e) <==> (Leftover(views, see, e) ==> Covered(views, see, now, e))
    {
      ApartAt(deltas, views, see, was, now, e);
    }
    hide Settled;
  }
}
