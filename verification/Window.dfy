/**
 Replaying several versions at once. `Collapse` looks at the whole replayed window, so an
 element that visibly arrives in one version and leaves in a later one keeps its arrival.
 The theorem says exactly what a window replay produces, and when it is the target view.
 */
module Windows {
  import opened Collections
  import opened Scopes
  import opened Views
  import opened Planner
  import opened Clients
  import opened Deltas
  import opened OverlayDeltas
  import opened Composition
  import opened FastPath

  function Flatten(deltas: seq<seq<PlannedOp>>): seq<PlannedOp> {
    if deltas == [] then [] else Flatten(deltas[..|deltas| - 1]) + deltas[|deltas| - 1]
  }

  /** Consecutive views, with a delta between each two. */
  ghost predicate Chain(deltas: seq<seq<PlannedOp>>, views: seq<ShardView>) {
    && |views| == |deltas| + 1
    && forall i | 0 <= i < |deltas| :: IsDelta(deltas[i], views[i], views[i + 1])
  }

  /** What an observer sees of an element at version `i` of the window. */
  function SeenAt(views: seq<ShardView>, see: ScopeSet, e: ElementId, i: nat): Option<Item>
    requires i < |views|
  {
    Seen(see, Look(views[i], e))
  }

  /** The element becomes visible at `i + 1`: it is new there, or it comes from another scope. */
  ghost predicate Arrives(views: seq<ShardView>, see: ScopeSet, e: ElementId, i: nat)
    requires i + 1 < |views|
  {
    var x, y := Look(views[i], e), Look(views[i + 1], e);
    Seen(see, y).Some? && (x.None? || x.value.scope != y.value.scope)
  }

  ghost predicate EverArrives(views: seq<ShardView>, see: ScopeSet, e: ElementId) {
    exists i: nat :: i + 1 < |views| && Arrives(views, see, e, i)
  }

  /** The element as the observer last saw it in the window. */
  function LastSeen(views: seq<ShardView>, see: ScopeSet, e: ElementId, n: nat): Option<Item>
    requires n < |views|
  {
    if n == 0 || SeenAt(views, see, e, n).Some? then SeenAt(views, see, e, n)
    else LastSeen(views, see, e, n - 1)
  }

  /** Visibly arrived inside the window, and no longer visible at its end. */
  ghost predicate Leftover(views: seq<ShardView>, see: ScopeSet, e: ElementId)
    requires views != []
  {
    EverArrives(views, see, e) && SeenAt(views, see, e, |views| - 1).None?
  }

  ghost predicate NothingLeftOver(views: seq<ShardView>, see: ScopeSet)
    requires views != []
  {
    forall e :: !Leftover(views, see, e)
  }

  // ---------------------------------------------------------------- one element through the window

  /** The operations about one element that a window replay keeps. */
  function WindowOps(deltas: seq<seq<PlannedOp>>, see: ScopeSet, e: ElementId): seq<PlanOp> {
    Filter(About(Flatten(deltas), e), see)
  }

  lemma WindowNext(deltas: seq<seq<PlannedOp>>, see: ScopeSet, e: ElementId)
    requires deltas != []
    ensures WindowOps(deltas, see, e)
         == WindowOps(deltas[..|deltas| - 1], see, e) + Filter(About(deltas[|deltas| - 1], e), see)
  {
    var n := |deltas| - 1;
    AboutConcat(Flatten(deltas[..n]), deltas[n], e);
    FilterConcat(About(Flatten(deltas[..n]), e), About(deltas[n], e), see);
  }

  /**
   One version's operations `f` on one element that goes from `x` to `y`, for an observer that
   last saw `s`: with removals dropped, and as they are.
   */
  ghost predicate VersionEffect(f: seq<PlanOp>, x: Option<Entry>, y: Option<Entry>, see: ScopeSet, s: Option<Item>) {
    && Steps(s, Part(f, false)) == (if Seen(see, y).Some? then Seen(see, y) else s)
    && (HasAddition(f) <==> Seen(see, y).Some? && (x.None? || x.value.scope != y.value.scope))
    && (!HasAddition(f) ==> Steps(Seen(see, x), f) == Seen(see, y))
    && (!HasAddition(f) && Seen(see, x).None? ==> f == [])
  }

  lemma VersionStep(d: seq<PlannedOp>, x: Option<Entry>, y: Option<Entry>, see: ScopeSet, s: Option<Item>)
    requires Delta(d, x, y)
    requires Seen(see, x).Some? ==> s == Seen(see, x)
    ensures VersionEffect(Filter(d, see), x, y, see, s)
  {
    FilterDelta(d, x, y, see);
    hide Filter, Sees, VersionEffect;
    if Seen(see, x).None? && Seen(see, y).None? {
      assert Filter(d, see) == [];
      EmptyVersion(x, y, see, s);
    } else if x.Some? && y.Some? && x.value.scope == y.value.scope {
      PatchedVersion(d, x, y, see, s);
    } else if Seen(see, y).Some? {
      ArrivingVersion(d[0].op, if Seen(see, x).Some? then [d[|d| - 1].op] else [], x, y, see, s);
    } else {
      LeavingVersion(d, x, y, see, s);
    }
  }

  lemma EmptyVersion(x: Option<Entry>, y: Option<Entry>, see: ScopeSet, s: Option<Item>)
    requires Seen(see, x).None? && Seen(see, y).None?
    ensures VersionEffect([], x, y, see, s)
  {
  }

  lemma PatchedVersion(d: seq<PlannedOp>, x: Option<Entry>, y: Option<Entry>, see: ScopeSet, s: Option<Item>)
    requires Delta(d, x, y) && Seen(see, x).Some? && Seen(see, y).Some? && x.value.scope == y.value.scope
    requires s == Seen(see, x)
    ensures VersionEffect(Bare(d), x, y, see, s)
  {
    hide Sees;
    var f := Bare(d);
    forall i | 0 <= i < |f| ensures !IsAddition(f[i]) && !IsRemoval(f[i]) {
      assert d[i] in d;
    }
    PartAll(f, false);
    hide Part, Steps;
  }

  lemma ArrivingVersion(
    add: PlanOp, gone: seq<PlanOp>, x: Option<Entry>, y: Option<Entry>, see: ScopeSet, s: Option<Item>)
    requires Seen(see, y).Some? && !(x.Some? && x.value.scope == y.value.scope)
    requires IsAddition(add) && Step(None, add) == Seen(see, y)
    requires forall i | 0 <= i < |gone| :: IsRemoval(gone[i])
    ensures VersionEffect([add] + gone, x, y, see, s)
  {
    hide Part, Steps, Sees, Settle;
    SharedArrives(add, gone, []);
    StepsOne(s, add);
    assert ([add] + gone)[0] == add;
  }

  lemma LeavingVersion(d: seq<PlannedOp>, x: Option<Entry>, y: Option<Entry>, see: ScopeSet, s: Option<Item>)
    requires Delta(d, x, y) && Seen(see, x).Some? && Seen(see, y).None?
    ensures VersionEffect([] + [d[|d| - 1].op], x, y, see, s)
  {
    hide Sees, Part, Steps;
    var gone := d[|d| - 1].op;
    assert [] + [gone] == [gone];
    RemovalAlone(gone, Seen(see, x), s);
  }

  lemma RemovalAlone(gone: PlanOp, x: Option<Item>, s: Option<Item>)
    requires IsRemoval(gone)
    ensures Steps(s, Part([gone], false)) == s
    ensures Steps(x, [gone]) == Step(x, gone)
    ensures !HasAddition([gone])
  {
    PartAll([gone], true);
    StepsOne(x, gone);
    assert Part([gone], false) == [];
  }

  ghost predicate ArrivesBefore(views: seq<ShardView>, see: ScopeSet, e: ElementId, n: nat)
    requires n < |views|
  {
    exists i: nat :: i < n && Arrives(views, see, e, i)
  }

  /** What the operations of the first `n` versions do to one element. */
  ghost predicate WindowEffect(f: seq<PlanOp>, views: seq<ShardView>, see: ScopeSet, e: ElementId, n: nat)
    requires n < |views|
  {
    && Steps(SeenAt(views, see, e, 0), Part(f, false)) == LastSeen(views, see, e, n)
    && (HasAddition(f) <==> ArrivesBefore(views, see, e, n))
    && (!HasAddition(f) ==> Steps(SeenAt(views, see, e, 0), f) == SeenAt(views, see, e, n))
    && (!HasAddition(f) && SeenAt(views, see, e, 0).None? ==> f == [])
    && (HasAddition(f) ==> LastSeen(views, see, e, n).Some?)
  }

  lemma {:induction false} WindowAt(
    deltas: seq<seq<PlannedOp>>, views: seq<ShardView>, see: ScopeSet, e: ElementId, n: nat)
    requires Chain(deltas, views) && n <= |deltas|
    ensures WindowEffect(WindowOps(deltas[..n], see, e), views, see, e, n)
  {
    hide WindowEffect, VersionEffect, WindowOps, Filter, Delta, IsDelta, Look, Chain, About, LastSeen;
    if n == 0 {
      assert deltas[..0] == [];
      ChainLength(deltas, views);
      WindowStart(views, see, e);
    } else {
      var m := n - 1;
      WindowAt(deltas, views, see, e, m);
      assert deltas[..n][..m] == deltas[..m];
      WindowNext(deltas[..n], see, e);
      ChainDelta(deltas, views, m, e);
      LastSeenAgrees(views, see, e, m);
      VersionStep(About(deltas[m], e), Look(views[m], e), Look(views[n], e), see, LastSeen(views, see, e, m));
      WindowStep(WindowOps(deltas[..m], see, e), Filter(About(deltas[m], e), see), views, see, e, n);
    }
  }

  lemma WindowStart(views: seq<ShardView>, see: ScopeSet, e: ElementId)
    requires views != []
    ensures WindowEffect(WindowOps([], see, e), views, see, e, 0)
  {
    hide Look, Sees;
    assert WindowOps([], see, e) == [];
    assert Part([], false) == [];
  }

  lemma ChainLength(deltas: seq<seq<PlannedOp>>, views: seq<ShardView>)
    requires Chain(deltas, views)
    ensures |views| == |deltas| + 1
  {
  }

  lemma ChainDelta(deltas: seq<seq<PlannedOp>>, views: seq<ShardView>, m: nat, e: ElementId)
    requires Chain(deltas, views) && m < |deltas|
    ensures |views| == |deltas| + 1
    ensures Delta(About(deltas[m], e), Look(views[m], e), Look(views[m + 1], e))
  {
    hide Delta, Look, About;
    assert IsDelta(deltas[m], views[m], views[m + 1]);
  }

  lemma WindowStep(before: seq<PlanOp>, f: seq<PlanOp>, views: seq<ShardView>, see: ScopeSet, e: ElementId, n: nat)
    requires 0 < n < |views| && WindowEffect(before, views, see, e, n - 1)
    requires VersionEffect(f, Look(views[n - 1], e), Look(views[n], e), see, LastSeen(views, see, e, n - 1))
    ensures WindowEffect(before + f, views, see, e, n)
  {
    assert Steps(SeenAt(views, see, e, 0), []) == SeenAt(views, see, e, 0);
    hide Look, Sees, Part, Steps, HasAddition;
    JoinWindow(before, f, SeenAt(views, see, e, 0));
    assert Arrives(views, see, e, n - 1) <==> HasAddition(f);
    ArrivesNext(views, see, e, n);
    hide ArrivesBefore;
  }

  lemma ArrivesNext(views: seq<ShardView>, see: ScopeSet, e: ElementId, n: nat)
    requires 0 < n < |views|
    ensures ArrivesBefore(views, see, e, n) <==> ArrivesBefore(views, see, e, n - 1) || Arrives(views, see, e, n - 1)
  {
    hide Arrives;
  }

  lemma LastSeenAgrees(views: seq<ShardView>, see: ScopeSet, e: ElementId, n: nat)
    requires n < |views|
    ensures SeenAt(views, see, e, n).Some? ==> LastSeen(views, see, e, n) == SeenAt(views, see, e, n)
  {
  }

  lemma JoinWindow(a: seq<PlanOp>, b: seq<PlanOp>, s: Option<Item>)
    ensures Steps(s, Part(a + b, false)) == Steps(Steps(s, Part(a, false)), Part(b, false))
    ensures Steps(s, a + b) == Steps(Steps(s, a), b)
    ensures HasAddition(a + b) <==> HasAddition(a) || HasAddition(b)
  {
    hide Part, Steps;
    PartConcat(a, b, false);
    StepsConcat(s, Part(a, false), Part(b, false));
    StepsConcat(s, a, b);
    AdditionIn(a, b);
  }

  lemma AdditionIn(a: seq<PlanOp>, b: seq<PlanOp>)
    ensures HasAddition(a + b) <==> HasAddition(a) || HasAddition(b)
  {
    if HasAddition(a) {
      var i :| 0 <= i < |a| && IsAddition(a[i]);
      assert IsAddition((a + b)[i]);
    }
    if HasAddition(b) {
      var i :| 0 <= i < |b| && IsAddition(b[i]);
      assert IsAddition((a + b)[|a| + i]);
    }
  }

  // ---------------------------------------------------------------- the theorem

  /** What replaying a window, filtered and collapsed, makes of the view held at its start. */
  function Replayed(deltas: seq<seq<PlannedOp>>, views: seq<ShardView>, see: ScopeSet): Client
    requires views != []
  {
    Run(Show(Restrict(views[0], see)), Collapse(Filter(Flatten(deltas), see)))
  }

  lemma ReplayedAt(deltas: seq<seq<PlannedOp>>, views: seq<ShardView>, see: ScopeSet, e: ElementId)
    requires Chain(deltas, views)
    ensures At(Replayed(deltas, views, see), e)
         == if EverArrives(views, see, e) then LastSeen(views, see, e, |deltas|) else SeenAt(views, see, e, |deltas|)
    ensures EverArrives(views, see, e) ==> LastSeen(views, see, e, |deltas|).Some?
  {
    var n := |deltas|;
    var ops := Filter(Flatten(deltas), see);
    ShownAt(views[0], see, EMPTY_VIEW, e);
    RunAt(Show(Restrict(views[0], see)), Collapse(ops), e);
    CollapseOn(ops, e);
    FilterOn(Flatten(deltas), see, e);
    WindowAt(deltas, views, see, e, n);
    assert deltas[..n] == deltas;
    assert EverArrives(views, see, e) <==> ArrivesBefore(views, see, e, n);
  }

  /**
   Replaying a window gives the target view plus precisely the leftovers, each as it was
   last seen; so it gives the target view exactly when nothing is left over.
   */
  lemma ReplayWindow(deltas: seq<seq<PlannedOp>>, views: seq<ShardView>, see: ScopeSet)
    requires Chain(deltas, views)
    ensures forall e ::
      At(Replayed(deltas, views, see), e)
      == if Leftover(views, see, e) then LastSeen(views, see, e, |deltas|) else SeenAt(views, see, e, |deltas|)
    ensures Replayed(deltas, views, see) == Show(Restrict(views[|deltas|], see))
      <==> NothingLeftOver(views, see)
  {
    var n := |deltas|;
    var result, target := Replayed(deltas, views, see), Show(Restrict(views[n], see));
    forall e
      ensures At(result, e) == if Leftover(views, see, e) then LastSeen(views, see, e, n) else SeenAt(views, see, e, n)
      ensures At(target, e) == SeenAt(views, see, e, n)
      ensures Leftover(views, see, e) ==> At(result, e) != At(target, e)
    {
      ReplayedAt(deltas, views, see, e);
      ShownAt(views[n], see, EMPTY_VIEW, e);
      LastSeenAgrees(views, see, e, n);
    }
    if NothingLeftOver(views, see) {
      SameEverywhere(result, target);
    }
  }

  // ---------------------------------------------------------------- a window under an overlay

  /** The element as last seen by version `n`, or `s` if it was not seen yet. */
  function LastSeenOr(views: seq<ShardView>, see: ScopeSet, e: ElementId, n: nat, s: Option<Item>): Option<Item>
    requires n < |views|
  {
    if SeenAt(views, see, e, n).Some? then SeenAt(views, see, e, n)
    else if n == 0 then s
    else LastSeenOr(views, see, e, n - 1, s)
  }

  lemma {:induction false} LastSeenFirst(views: seq<ShardView>, see: ScopeSet, e: ElementId, n: nat, s: Option<Item>)
    requires n < |views| && LastSeen(views, see, e, n).Some?
    ensures LastSeenOr(views, see, e, n, s) == LastSeen(views, see, e, n)
  {
    hide SeenAt;
    if n > 0 && SeenAt(views, see, e, n).None? {
      LastSeenFirst(views, see, e, n - 1, s);
    }
  }

  lemma LastSeenOrNext(views: seq<ShardView>, see: ScopeSet, e: ElementId, n: nat, s: Option<Item>)
    requires n < |views|
    ensures LastSeenOr(views, see, e, n, s)
         == if SeenAt(views, see, e, n).Some? then SeenAt(views, see, e, n)
            else if n == 0 then s else LastSeenOr(views, see, e, n - 1, s)
    ensures SeenAt(views, see, e, n) == Seen(see, Look(views[n], e))
  {
  }

  lemma NothingWindowed(see: ScopeSet, e: ElementId, s: Option<Item>)
    ensures WindowOps([], see, e) == [] && Part([], false) == [] && Steps(s, []) == s
  {
  }

  /** The additions and patches of a window, applied to whatever the client holds of an element nobody showed it. */
  lemma {:induction false} WindowFrom(
    deltas: seq<seq<PlannedOp>>, views: seq<ShardView>, see: ScopeSet, e: ElementId, n: nat, s: Option<Item>)
    requires Chain(deltas, views) && n <= |deltas| && SeenAt(views, see, e, 0).None?
    ensures Steps(s, Part(WindowOps(deltas[..n], see, e), false)) == LastSeenOr(views, see, e, n, s)
  {
    hide WindowOps, Filter, Delta, IsDelta, Look, Chain, About, Steps, Part, LastSeenOr, SeenAt;
    ChainLength(deltas, views);
    LastSeenOrNext(views, see, e, n, s);
    if n == 0 {
      assert deltas[..0] == [];
      NothingWindowed(see, e, s);
    } else {
      var m := n - 1;
      WindowFrom(deltas, views, see, e, m, s);
      LastSeenOrNext(views, see, e, m, s);
      assert deltas[..n][..m] == deltas[..m];
      WindowNext(deltas[..n], see, e);
      ChainDelta(deltas, views, m, e);
      var before, f := WindowOps(deltas[..m], see, e), Filter(About(deltas[m], e), see);
      VersionStep(About(deltas[m], e), Look(views[m], e), Look(views[n], e), see, LastSeenOr(views, see, e, m, s));
      PartConcat(before, f, false);
      StepsConcat(s, Part(before, false), Part(f, false));
    }
  }

  /** Every leftover is an element of the overlay, and the overlay holds it as it was last seen. */
  ghost predicate LeftoversCovered(views: seq<ShardView>, see: ScopeSet, overlay: Overlay)
    requires views != []
  {
    forall e | Leftover(views, see, e) :: Covered(views, see, overlay, e)
  }

  ghost predicate Covered(views: seq<ShardView>, see: ScopeSet, overlay: Overlay, e: ElementId)
    requires views != []
  {
    Look(overlay, e).Some? && LastSeen(views, see, e, |views| - 1) == Some(Look(overlay, e).value.item)
  }

  /**
   A retry replays any window with the overlay unchanged and disjoint from the shared view at both
   ends. It is exact if and only if every leftover is covered by the overlay.
   */
  lemma RetryExact(deltas: seq<seq<PlannedOp>>, views: seq<ShardView>, see: ScopeSet, overlay: Overlay)
    requires Chain(deltas, views) && WellKeyed(overlay)
    requires Disjoint(Restrict(views[0], see), overlay)
    requires Disjoint(Restrict(views[|deltas|], see), overlay)
    ensures
      Run(Held(views[0], see, overlay), Transition(Flatten(deltas), see, overlay, overlay))
        == Held(views[|deltas|], see, overlay)
      <==> LeftoversCovered(views, see, overlay)
  {
    hide Transition, Held, Run, At, Leftover, Covered, WellKeyed, Disjoint, Restrict;
    var result := Run(Held(views[0], see, overlay), Transition(Flatten(deltas), see, overlay, overlay));
    var target := Held(views[|deltas|], see, overlay);
    forall e ensures At(result, e) == At(target, e) <==> (Leftover(views, see, e) ==> Covered(views, see, overlay, e)) {
      PushedUnchanged(deltas, views, see, overlay, overlay, e);
    }
    if LeftoversCovered(views, see, overlay) {
      SameEverywhere(result, target);
    }
  }

  /** An element at one end of the window: the overlay's, or what is seen of the shared one. */
  function AtEnd(views: seq<ShardView>, see: ScopeSet, overlay: Overlay, e: ElementId, n: nat): Option<Item>
    requires n < |views|
  {
    if Look(overlay, e).Some? then Some(Look(overlay, e).value.item) else SeenAt(views, see, e, n)
  }

  lemma PushedUnchanged(
    deltas: seq<seq<PlannedOp>>, views: seq<ShardView>, see: ScopeSet, was: Overlay, now: Overlay, e: ElementId)
    requires Chain(deltas, views) && WellKeyed(was) && WellKeyed(now) && Look(was, e) == Look(now, e)
    requires Disjoint(Restrict(views[0], see), was) && Disjoint(Restrict(views[|deltas|], see), now)
    ensures
      At(Run(Held(views[0], see, was), Transition(Flatten(deltas), see, was, now)), e)
      == At(Held(views[|deltas|], see, now), e)
      <==> (Leftover(views, see, e) ==> Covered(views, see, now, e))
  {
    hide Transition, Held, Run, At, WellKeyed, Disjoint, Restrict, Leftover, Covered, WindowOps, Settle, Look, On;
    hide Steps;
    hide Chain, PlanElements, Filter, Splice, Sees;
    var shared, private := Filter(Flatten(deltas), see), PlanElements(was, now);
    ChainLength(deltas, views);
    EndHeld(views[0], see, was, e);
    EndHeld(views[|deltas|], see, now, e);
    PushedOn(deltas, views, see, was, now, e);
    UnchangedElement(was, now, e);
    SplicedAround(shared, private, e);
    RetriedElement(deltas, views, see, now, e);
  }

  /** What the client makes of an element, through the operations about it. */
  lemma PushedOn(
    deltas: seq<seq<PlannedOp>>, views: seq<ShardView>, see: ScopeSet, was: Overlay, now: Overlay, e: ElementId)
    requires views != []
    ensures At(Run(Held(views[0], see, was), Transition(Flatten(deltas), see, was, now)), e)
         == Steps(At(Held(views[0], see, was), e),
                  Settle(On(Splice(Filter(Flatten(deltas), see), PlanElements(was, now)), e)))
    ensures On(Filter(Flatten(deltas), see), e) == WindowOps(deltas, see, e)
  {
    hide Filter, On, Run, At, Collapse, Held, Settle, Steps, Splice, PlanElements;
    var ops := Splice(Filter(Flatten(deltas), see), PlanElements(was, now));
    RunAt(Held(views[0], see, was), Collapse(ops), e);
    CollapseOn(ops, e);
    FilterOn(Flatten(deltas), see, e);
  }

  lemma SplicedParts(shared: seq<PlanOp>, private: OverlayOps, e: ElementId)
    ensures var b := Boundary(shared);
      && On(Splice(shared, private), e)
           == On(shared[..b], e) + On(private.removals, e) + On(private.additions, e) + On(shared[b..], e)
      && On(shared, e) == On(shared[..b], e) + On(shared[b..], e)
  {
    hide On;
    var b := Boundary(shared);
    var head, tail := shared[..b], shared[b..];
    assert shared == head + tail;
    OnConcat(head, tail, e);
    OnConcat(head, private.removals, e);
    OnConcat(head + private.removals, private.additions, e);
    OnConcat(head + private.removals + private.additions, tail, e);
  }

  lemma SplicedAround(shared: seq<PlanOp>, private: OverlayOps, e: ElementId)
    requires On(private.removals, e) == [] && On(private.additions, e) == []
    ensures On(Splice(shared, private), e) == On(shared, e)
  {
    hide On, Splice;
    SplicedParts(shared, private, e);
  }

  lemma EndHeld(v: ShardView, see: ScopeSet, overlay: Overlay, e: ElementId)
    requires Disjoint(Restrict(v, see), overlay)
    ensures Look(overlay, e).Some? ==> Seen(see, Look(v, e)).None?
    ensures At(Held(v, see, overlay), e)
         == if Look(overlay, e).Some? then Some(Look(overlay, e).value.item) else Seen(see, Look(v, e))
  {
    DisjointAt(v, see, overlay, e);
    ShownAt(v, see, overlay, e);
  }

  lemma SpliceNothing(shared: seq<PlanOp>)
    ensures Splice(shared, OverlayOps([], [])) == shared
  {
  }

  lemma RetriedElement(
    deltas: seq<seq<PlannedOp>>, views: seq<ShardView>, see: ScopeSet, overlay: Overlay, e: ElementId)
    requires Chain(deltas, views)
    requires Look(overlay, e).Some? ==> SeenAt(views, see, e, 0).None? && SeenAt(views, see, e, |deltas|).None?
    ensures
      Steps(AtEnd(views, see, overlay, e, 0), Settle(WindowOps(deltas, see, e)))
        == AtEnd(views, see, overlay, e, |deltas|)
      <==> (Leftover(views, see, e) ==> Covered(views, see, overlay, e))
  {
    hide Look, Sees, Part, Steps, SeenAt, WindowOps, Arrives, Chain;
    var n := |deltas|;
    assert deltas[..n] == deltas;
    ChainLength(deltas, views);
    var f := WindowOps(deltas, see, e);
    WindowAt(deltas, views, see, e, n);
    assert EverArrives(views, see, e) <==> ArrivesBefore(views, see, e, n);
    LastSeenAgrees(views, see, e, n);
    if Look(overlay, e).Some? {
      var o := Some(Look(overlay, e).value.item);
      WindowFrom(deltas, views, see, e, n, o);
      if HasAddition(f) {
        LastSeenFirst(views, see, e, n, o);
      } else {
        NoSteps(o);
      }
    }
  }

  lemma NoSteps(s: Option<Item>)
    ensures Steps(s, []) == s
  {
  }
}
