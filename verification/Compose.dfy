/**
 One connection's transition out of the shared delta: filter by what it sees, splice its
 overlay's operations in at the removal boundary, drop the removals of elements that are
 also added.

 `Filter`, `Splice` and `Collapse` specify the three steps; the methods are the source's loops.
 */
module Composition {
  import opened Collections
  import opened Scopes
  import opened Views
  import opened Planner
  import opened Clients
  import opened Deltas

  function Filter(ops: seq<PlannedOp>, see: ScopeSet): seq<PlanOp>
    decreases |ops|
  {
    if ops == [] then [] else
      var last := ops[|ops| - 1];
      Filter(ops[..|ops| - 1], see) + (if Sees(see, last.scope) then [last.op] else [])
  }

  method FilterOps(ops: seq<PlannedOp>, see: ScopeSet) returns (kept: seq<PlanOp>)
    ensures kept == Filter(ops, see)
  {
    kept := [];
    for i := 0 to |ops|
      invariant kept == Filter(ops[..i], see)
    {
      assert ops[..i + 1][..i] == ops[..i];
      if Sees(see, ops[i].scope) {
        kept := kept + [ops[i].op];
      }
    }
    assert ops[..|ops|] == ops;
  }

  /** Where the first removal sits, or the end. */
  function Boundary(ops: seq<PlanOp>): (b: nat)
    ensures b <= |ops|
    ensures forall i | 0 <= i < b :: !IsRemoval(ops[i])
    ensures b < |ops| ==> IsRemoval(ops[b])
  {
    if ops == [] || IsRemoval(ops[0]) then 0 else 1 + Boundary(ops[1..])
  }

  function Splice(shared: seq<PlanOp>, private: OverlayOps): seq<PlanOp> {
    var b := Boundary(shared);
    shared[..b] + private.removals + private.additions + shared[b..]
  }

  method SpliceOverlay(shared: seq<PlanOp>, private: OverlayOps) returns (composed: seq<PlanOp>)
    ensures composed == Splice(shared, private)
  {
    var boundary := 0;
    while boundary < |shared| && !IsRemoval(shared[boundary])
      invariant boundary <= |shared|
      invariant boundary + Boundary(shared[boundary..]) == Boundary(shared)
    {
      assert shared[boundary..][1..] == shared[boundary + 1..];
      boundary := boundary + 1;
    }
    var tail := shared[boundary..];
    composed := shared[..boundary];
    composed := composed + private.removals;
    composed := composed + private.additions;
    composed := composed + tail;
  }

  function AddedIn(ops: seq<PlanOp>): set<ElementId> {
    set i | 0 <= i < |ops| && IsAddition(ops[i]) :: Target(ops[i])
  }

  /** Drop the removals of the elements in `added`. */
  function Retain(ops: seq<PlanOp>, added: set<ElementId>): seq<PlanOp>
    decreases |ops|
  {
    if ops == [] then [] else
      var last := ops[|ops| - 1];
      Retain(ops[..|ops| - 1], added) + (if IsRemoval(last) && Target(last) in added then [] else [last])
  }

  function Collapse(ops: seq<PlanOp>): seq<PlanOp> {
    Retain(ops, AddedIn(ops))
  }

  method CollapseOps(ops: seq<PlanOp>) returns (kept: seq<PlanOp>)
    ensures kept == Collapse(ops)
  {
    var added: set<ElementId> := {};
    for i := 0 to |ops|
      invariant added == AddedIn(ops[..i])
    {
      if IsAddition(ops[i]) {
        added := added + {Target(ops[i])};
      }
      AddedNext(ops, i);
    }
    assert ops[..|ops|] == ops;
    kept := [];
    for i := 0 to |ops|
      invariant kept == Retain(ops[..i], added)
    {
      assert ops[..i + 1][..i] == ops[..i];
      if !(IsRemoval(ops[i]) && Target(ops[i]) in added) {
        kept := kept + [ops[i]];
      }
    }
  }

  lemma AddedNext(ops: seq<PlanOp>, i: nat)
    requires i < |ops|
    ensures AddedIn(ops[..i + 1]) == AddedIn(ops[..i]) + (if IsAddition(ops[i]) then {Target(ops[i])} else {})
  {
    var next := AddedIn(ops[..i + 1]);
    forall e | e in AddedIn(ops[..i]) ensures e in next {
      var k :| 0 <= k < i && IsAddition(ops[..i][k]) && Target(ops[..i][k]) == e;
      assert IsAddition(ops[..i + 1][k]);
    }
    forall e | e in next ensures e in AddedIn(ops[..i]) || (IsAddition(ops[i]) && e == Target(ops[i])) {
      var k :| 0 <= k <= i && IsAddition(ops[..i + 1][k]) && Target(ops[..i + 1][k]) == e;
      if k < i {
        assert IsAddition(ops[..i][k]);
      }
    }
    if IsAddition(ops[i]) {
      assert IsAddition(ops[..i + 1][i]);
    }
  }

  // ---------------------------------------------------------------- one element at a time

  predicate HasAddition(ops: seq<PlanOp>) {
    exists i :: 0 <= i < |ops| && IsAddition(ops[i])
  }

  /** The removals of a sequence, or everything else. */
  function Part(ops: seq<PlanOp>, removals: bool): seq<PlanOp>
    decreases |ops|
  {
    if ops == [] then [] else
      var last := ops[|ops| - 1];
      Part(ops[..|ops| - 1], removals) + (if IsRemoval(last) == removals then [last] else [])
  }

  /** `Collapse` on the operations of a single element. */
  function Settle(ops: seq<PlanOp>): seq<PlanOp> {
    if HasAddition(ops) then Part(ops, false) else ops
  }

  lemma PartSnoc(ops: seq<PlanOp>, op: PlanOp, removals: bool)
    ensures Part(ops + [op], removals)
         == if IsRemoval(op) == removals then Part(ops, removals) + [op] else Part(ops, removals)
  {
    assert (ops + [op])[..|ops|] == ops;
  }

  lemma RetainSnoc(ops: seq<PlanOp>, op: PlanOp, added: set<ElementId>)
    ensures Retain(ops + [op], added)
         == if IsRemoval(op) && Target(op) in added then Retain(ops, added) else Retain(ops, added) + [op]
  {
    assert (ops + [op])[..|ops|] == ops;
  }

  lemma NothingRetained(added: set<ElementId>, e: ElementId)
    ensures Retain([], added) == [] && On([], e) == [] && Part([], false) == []
  {
  }

  lemma {:induction false} RetainOn(ops: seq<PlanOp>, added: set<ElementId>, e: ElementId)
    ensures On(Retain(ops, added), e) == if e in added then Part(On(ops, e), false) else On(ops, e)
    decreases |ops|
  {
    hide On, Retain, Part;
    if ops == [] {
      NothingRetained(added, e);
    } else {
      var n := |ops| - 1;
      var prefix, last := ops[..n], ops[n];
      assert ops == prefix + [last];
      RetainOn(prefix, added, e);
      RetainSnoc(prefix, last, added);
      OnSnoc(prefix, last, e);
      OnSnoc(Retain(prefix, added), last, e);
      PartSnoc(On(prefix, e), last, false);
    }
  }

  lemma {:induction false} AddedOn(ops: seq<PlanOp>, e: ElementId)
    ensures e in AddedIn(ops) <==> HasAddition(On(ops, e))
    decreases |ops|
  {
    hide On, AddedIn, HasAddition;
    if ops == [] {
      NothingAdded(e);
    } else {
      var n := |ops| - 1;
      var prefix, last := ops[..n], ops[n];
      assert ops == prefix + [last] && ops[..n + 1] == ops;
      AddedOn(prefix, e);
      AddedNext(ops, n);
      OnSnoc(prefix, last, e);
      AdditionSnoc(On(prefix, e), last);
    }
  }

  lemma NothingAdded(e: ElementId)
    ensures AddedIn([]) == {} && On([], e) == [] && !HasAddition([])
  {
  }

  lemma AdditionSnoc(ops: seq<PlanOp>, op: PlanOp)
    ensures HasAddition(ops + [op]) <==> HasAddition(ops) || IsAddition(op)
  {
    assert (ops + [op])[|ops|] == op;
    assert forall i | 0 <= i < |ops| :: (ops + [op])[i] == ops[i];
  }

  lemma CollapseOn(ops: seq<PlanOp>, e: ElementId)
    ensures On(Collapse(ops), e) == Settle(On(ops, e))
  {
    RetainOn(ops, AddedIn(ops), e);
    AddedOn(ops, e);
  }

  lemma {:induction false} FilterOn(ops: seq<PlannedOp>, see: ScopeSet, e: ElementId)
    ensures On(Filter(ops, see), e) == Filter(About(ops, e), see)
    decreases |ops|
  {
    hide On, Filter, About, Sees;
    if ops == [] {
      NothingFiltered(see, e);
    } else {
      var n := |ops| - 1;
      var prefix, last := ops[..n], ops[n];
      assert ops == prefix + [last];
      FilterOn(prefix, see, e);
      AboutSnoc(prefix, last, e);
      FilterSnoc(prefix, last, see);
      FilterSnoc(About(prefix, e), last, see);
      OnSnoc(Filter(prefix, see), last.op, e);
    }
  }

  lemma NothingFiltered(see: ScopeSet, e: ElementId)
    ensures Filter([], see) == [] && About([], e) == [] && On([], e) == []
  {
  }

  lemma FilterSnoc(ops: seq<PlannedOp>, p: PlannedOp, see: ScopeSet)
    ensures Filter(ops + [p], see) == if Sees(see, p.scope) then Filter(ops, see) + [p.op] else Filter(ops, see)
  {
    hide Sees;
    assert (ops + [p])[..|ops|] == ops;
  }

  lemma {:induction false} FilterConcat(a: seq<PlannedOp>, b: seq<PlannedOp>, see: ScopeSet)
    ensures Filter(a + b, see) == Filter(a, see) + Filter(b, see)
  {
    if b == [] {
      assert a + b == a;
    } else {
      assert (a + b)[..|a + b| - 1] == a + b[..|b| - 1];
      FilterConcat(a, b[..|b| - 1], see);
    }
  }

  lemma {:induction false} PartConcat(a: seq<PlanOp>, b: seq<PlanOp>, removals: bool)
    ensures Part(a + b, removals) == Part(a, removals) + Part(b, removals)
  {
    if b == [] {
      assert a + b == a;
    } else {
      assert (a + b)[..|a + b| - 1] == a + b[..|b| - 1];
      PartConcat(a, b[..|b| - 1], removals);
    }
  }

  /** A sequence made of one kind only is its own part. */
  lemma {:induction false} PartOfOneKind(ops: seq<PlanOp>, kind: bool, e: ElementId)
    requires forall i | 0 <= i < |ops| :: IsRemoval(ops[i]) == kind
    ensures Part(On(ops, e), kind) == On(ops, e) && Part(On(ops, e), !kind) == []
    decreases |ops|
  {
    hide On, Part;
    if ops == [] {
      NothingParted(kind, e);
    } else {
      var n := |ops| - 1;
      var prefix, last := ops[..n], ops[n];
      assert ops == prefix + [last];
      PartOfOneKind(prefix, kind, e);
      OnSnoc(prefix, last, e);
      PartSnoc(On(prefix, e), last, kind);
      PartSnoc(On(prefix, e), last, !kind);
    }
  }

  lemma NothingParted(kind: bool, e: ElementId)
    ensures On([], e) == [] && Part([], kind) == [] && Part([], !kind) == []
  {
  }

  ghost predicate RemovalsTrail(ops: seq<PlanOp>) {
    forall i, j | 0 <= i < j < |ops| && IsRemoval(ops[i]) :: IsRemoval(ops[j])
  }

  /** Filtering keeps the removals last: dropping elements never reorders the rest. */
  lemma {:induction false} FilterKeepsTrail(ops: seq<PlannedOp>, see: ScopeSet)
    requires RemovalsLast(ops)
    ensures RemovalsTrail(Filter(ops, see))
    ensures (exists i :: 0 <= i < |Filter(ops, see)| && IsRemoval(Filter(ops, see)[i])) ==>
      exists i :: 0 <= i < |ops| && IsRemoval(ops[i].op)
    decreases |ops|
  {
    if ops != [] {
      var n := |ops| - 1;
      assert forall i | 0 <= i < n :: ops[..n][i] == ops[i];
      FilterKeepsTrail(ops[..n], see);
    }
  }

  /** Splicing into a plan whose removals trail: additions, overlay, then the removals. */
  lemma SpliceOn(shared: seq<PlanOp>, private: OverlayOps, e: ElementId)
    requires RemovalsTrail(shared)
    ensures On(Splice(shared, private), e)
         == Part(On(shared, e), false) + On(private.removals, e) + On(private.additions, e) + Part(On(shared, e), true)
  {
    hide On, Part;
    var b := Boundary(shared);
    var head, tail := shared[..b], shared[b..];
    assert forall i | 0 <= i < |tail| :: IsRemoval(tail[i]);
    PartOfOneKind(head, false, e);
    PartOfOneKind(tail, true, e);
    assert shared == head + tail;
    OnConcat(head, tail, e);
    PartConcat(On(head, e), On(tail, e), false);
    PartConcat(On(head, e), On(tail, e), true);
    OnConcat(head, private.removals, e);
    OnConcat(head + private.removals, private.additions, e);
    OnConcat(head + private.removals + private.additions, tail, e);
  }

  // ---------------------------------------------------------------- sibling branches

  lemma {:induction false} NothingSeen(ops: seq<PlannedOp>, see: ScopeSet)
    requires forall p | p in ops :: !Sees(see, p.scope)
    ensures Filter(ops, see) == []
    decreases |ops|
  {
    hide Sees;
    if ops != [] {
      NothingSeen(ops[..|ops| - 1], see);
    }
  }

  /** The element, wherever it is, is in `branch`. */
  predicate Keeps(v: ShardView, e: ElementId, branch: Scope) {
    Look(v, e).Some? ==> InBranch(Look(v, e).value.scope, branch)
  }

  /**
   A connection that observes only places of one branch neither holds an element of a sibling
   branch nor is sent anything about it, whatever happens to the element there.
   */
  lemma SiblingsNeverHear(
    before: ShardView, after: ShardView, see: ScopeSet, parent: Scope, mine: nat, theirs: nat, e: ElementId)
    requires WellKeyed(before) && WellKeyed(after)
    requires |parent| < MAX_DEPTH && mine != theirs
    requires forall observed | observed in see :: InBranch(observed, Child(parent, mine).value)
    requires Keeps(before, e, Child(parent, theirs).value) && Keeps(after, e, Child(parent, theirs).value)
    ensures Look(Restrict(before, see), e).None? && Look(Restrict(after, see), e).None?
    ensures On(Filter(Plan(before, after), see), e) == []
  {
    hide Plan, About, On, Filter, Sees, InBranch;
    var x, y, d := Look(before, e), Look(after, e), About(Plan(before, after), e);
    if x.Some? {
      SiblingsApart(see, parent, mine, theirs, x.value.scope);
    }
    if y.Some? {
      SiblingsApart(see, parent, mine, theirs, y.value.scope);
    }
    PlanIsDelta(before, after);
    assert Delta(d, x, y);
    assert forall p | p in d :: !Sees(see, p.scope);
    NothingSeen(d, see);
    FilterOn(Plan(before, after), see, e);
  }
}
