/**
 The fast path equals the definition: what a connection is sent is exactly what turns the
 view it holds into its restricted shared view with its overlay on top.
 */
module FastPath {
  import opened Collections
  import opened Scopes
  import opened Views
  import opened Planner
  import opened Clients
  import opened Deltas
  import opened OverlayDeltas
  import opened Composition

  /** The transition composed for one connection from a replayed delta and its overlay change. */
  function Transition(replayed: seq<PlannedOp>, see: ScopeSet, was: Overlay, now: Overlay): seq<PlanOp> {
    Collapse(Splice(Filter(replayed, see), PlanElements(was, now)))
  }

  /** What a connection observing `see` with overlay `o` is defined to hold. */
  function Held(v: ShardView, see: ScopeSet, o: Overlay): Client {
    Show(Compose(Restrict(v, see), o))
  }

  /** The operations of a delta about one element that an observer receives. */
  lemma FilterDelta(d: seq<PlannedOp>, x: Option<Entry>, y: Option<Entry>, see: ScopeSet)
    requires Delta(d, x, y)
    ensures x.Some? && y.Some? && x.value.scope == y.value.scope ==>
      Filter(d, see) == if Sees(see, y.value.scope) then Bare(d) else []
    ensures !(x.Some? && y.Some? && x.value.scope == y.value.scope) ==>
      Filter(d, see) == (if Seen(see, y).Some? then [d[0].op] else [])
                        + (if Seen(see, x).Some? then [d[|d| - 1].op] else [])
  {
    if x.Some? && y.Some? && x.value.scope == y.value.scope {
      FilterUniform(d, y.value.scope, see);
    } else if |d| == 2 {
      assert d == [d[0]] + [d[1]];
      FilterConcat([d[0]], [d[1]], see);
      FilterOne(d[0], see);
      FilterOne(d[1], see);
    } else if |d| == 1 {
      assert d == [d[0]];
      FilterOne(d[0], see);
    }
  }

  lemma FilterOne(p: PlannedOp, see: ScopeSet)
    ensures Filter([p], see) == if Sees(see, p.scope) then [p.op] else []
  {
    assert [p][..0] == [];
  }

  lemma {:induction false} FilterUniform(d: seq<PlannedOp>, scope: Scope, see: ScopeSet)
    requires forall p | p in d :: p.scope == scope
    ensures Filter(d, see) == if Sees(see, scope) then Bare(d) else []
    decreases |d|
  {
    if d != [] {
      FilterUniform(d[..|d| - 1], scope, see);
      assert Bare(d) == Bare(d[..|d| - 1]) + [d[|d| - 1].op];
    }
  }

  lemma {:induction false} PartAll(ops: seq<PlanOp>, kind: bool)
    requires forall i | 0 <= i < |ops| :: IsRemoval(ops[i]) == kind
    ensures Part(ops, kind) == ops && Part(ops, !kind) == []
    decreases |ops|
  {
    if ops != [] {
      PartAll(ops[..|ops| - 1], kind);
    }
  }

  /** Among removals, a single addition is all that settles. */
  lemma SettleSingle(pre: seq<PlanOp>, a: PlanOp, post: seq<PlanOp>)
    requires IsAddition(a)
    requires forall i | 0 <= i < |pre| :: IsRemoval(pre[i])
    requires forall i | 0 <= i < |post| :: IsRemoval(post[i])
    ensures Settle(pre + [a] + post) == [a]
  {
    var ops := pre + [a] + post;
    assert ops[|pre|] == a;
    PartAll(pre, true);
    PartAll([a], false);
    PartAll(post, true);
    PartConcat(pre, [a], false);
    PartConcat(pre + [a], post, false);
  }

  lemma StepsOne(x: Option<Item>, op: PlanOp)
    ensures Steps(x, [op]) == Step(x, op)
  {
    assert [op][..0] == [];
  }

  /** Nothing shared is visible: the overlay's own operations do the work. */
  lemma OverlayAlone(r: seq<PlanOp>, a: seq<PlanOp>, o: Option<Entry>, n: Option<Entry>)
    requires PrivateRemovals(r, o, n) && PrivateAdditions(a, o, n)
    ensures Steps(if o.Some? then Some(o.value.item) else None, Settle(r + a))
         == if n.Some? then Some(n.value.item) else None
  {
    if o.Some? && n.None? {
      assert r + a == [r[0]];
      StepsOne(Some(o.value.item), r[0]);
    } else if o.None? && n.Some? {
      SettleSingle([], a[0], []);
      assert r + a == [] + [a[0]] + [];
      StepsOne(None, a[0]);
    } else {
      assert r + a == a;
    }
  }

  /** One element seen by one observer: its shared delta, and its overlay's change. */
  ghost predicate ElementCase(
    d: seq<PlannedOp>, x: Option<Entry>, y: Option<Entry>, see: ScopeSet,
    r: seq<PlanOp>, a: seq<PlanOp>, o: Option<Entry>, n: Option<Entry>)
  {
    && Delta(d, x, y) && PrivateRemovals(r, o, n) && PrivateAdditions(a, o, n)
    && (o.Some? ==> Seen(see, x).None?)
    && (n.Some? ==> Seen(see, y).None?)
  }

  function Spliced(f: seq<PlanOp>, r: seq<PlanOp>, a: seq<PlanOp>): seq<PlanOp> {
    Part(f, false) + r + a + Part(f, true)
  }

  function Start(x: Option<Entry>, see: ScopeSet, o: Option<Entry>): Option<Item> {
    if o.Some? then Some(o.value.item) else Seen(see, x)
  }

  lemma UnseenCase(
    d: seq<PlannedOp>, x: Option<Entry>, y: Option<Entry>, see: ScopeSet,
    r: seq<PlanOp>, a: seq<PlanOp>, o: Option<Entry>, n: Option<Entry>)
    requires ElementCase(d, x, y, see, r, a, o, n)
    requires Filter(d, see) == []
    ensures Steps(Start(x, see, o), Settle(Spliced(Filter(d, see), r, a))) == Start(y, see, n)
  {
    NothingChanged(d, x, y, see);
    assert Spliced([], r, a) == r + a;
    OverlayAlone(r, a, o, n);
  }

  lemma PatchedCase(
    d: seq<PlannedOp>, x: Option<Entry>, y: Option<Entry>, see: ScopeSet,
    r: seq<PlanOp>, a: seq<PlanOp>, o: Option<Entry>, n: Option<Entry>)
    requires ElementCase(d, x, y, see, r, a, o, n)
    requires Seen(see, x).Some? && Seen(see, y).Some? && x.value.scope == y.value.scope
    ensures Steps(Start(x, see, o), Settle(Spliced(Filter(d, see), r, a))) == Start(y, see, n)
  {
    hide Filter, Sees;
    FilterDelta(d, x, y, see);
    var f := Bare(d);
    PartAll(f, false);
    assert Spliced(f, r, a) == f;
  }

  lemma ArrivesCase(
    d: seq<PlannedOp>, x: Option<Entry>, y: Option<Entry>, see: ScopeSet,
    r: seq<PlanOp>, a: seq<PlanOp>, o: Option<Entry>, n: Option<Entry>)
    requires ElementCase(d, x, y, see, r, a, o, n)
    requires Seen(see, y).Some? && !(x.Some? && x.value.scope == y.value.scope)
    ensures Steps(Start(x, see, o), Settle(Spliced(Filter(d, see), r, a))) == Start(y, see, n)
  {
    hide Filter, Sees, Steps, Settle, Part;
    FilterDelta(d, x, y, see);
    var add := d[0].op;
    var gone: seq<PlanOp> := if Seen(see, x).Some? then [d[1].op] else [];
    SharedArrives(add, gone, r);
    assert Spliced([add] + gone, r, a) == [add] + r + gone;
    StepsOne(Start(x, see, o), add);
  }

  lemma LeavesCase(
    d: seq<PlannedOp>, x: Option<Entry>, y: Option<Entry>, see: ScopeSet,
    r: seq<PlanOp>, a: seq<PlanOp>, o: Option<Entry>, n: Option<Entry>)
    requires ElementCase(d, x, y, see, r, a, o, n)
    requires Seen(see, x).Some? && Seen(see, y).None?
    ensures Steps(Start(x, see, o), Settle(Spliced(Filter(d, see), r, a))) == Start(y, see, n)
  {
    hide Filter, Sees, Steps, Settle, Part;
    FilterDelta(d, x, y, see);
    var gone := d[|d| - 1].op;
    assert Filter(d, see) == [gone];
    PartAll([gone], true);
    assert Spliced([gone], r, a) == a + [gone];
    SharedLeaves(gone, a, o, n, Start(x, see, o));
  }

  /** Whatever happens to an element, its settled operations land where they should. */
  lemma ElementTransition(
    d: seq<PlannedOp>, x: Option<Entry>, y: Option<Entry>, see: ScopeSet,
    r: seq<PlanOp>, a: seq<PlanOp>, o: Option<Entry>, n: Option<Entry>)
    requires ElementCase(d, x, y, see, r, a, o, n)
    ensures Steps(Start(x, see, o), Settle(Spliced(Filter(d, see), r, a))) == Start(y, see, n)
  {
    hide Filter, Sees, Steps, Settle, Part, PrivateRemovals, PrivateAdditions, Patches;
    FilterDelta(d, x, y, see);
    if Seen(see, x).None? && Seen(see, y).None? {
      UnseenCase(d, x, y, see, r, a, o, n);
    } else if Seen(see, y).None? {
      LeavesCase(d, x, y, see, r, a, o, n);
    } else if x.Some? && x.value.scope == y.value.scope {
      PatchedCase(d, x, y, see, r, a, o, n);
    } else {
      ArrivesCase(d, x, y, see, r, a, o, n);
    }
  }

  /** An observer that receives nothing about an element sees no change in it. */
  lemma NothingChanged(d: seq<PlannedOp>, x: Option<Entry>, y: Option<Entry>, see: ScopeSet)
    requires Delta(d, x, y) && Filter(d, see) == []
    ensures Seen(see, x) == Seen(see, y)
  {
    hide Filter, Sees;
    FilterDelta(d, x, y, see);
  }

  lemma SharedArrives(add: PlanOp, gone: seq<PlanOp>, r: seq<PlanOp>)
    requires IsAddition(add)
    requires forall i | 0 <= i < |gone| :: IsRemoval(gone[i])
    requires forall i | 0 <= i < |r| :: IsRemoval(r[i])
    ensures Part([add] + gone, false) == [add] && Part([add] + gone, true) == gone
    ensures Settle([add] + r + gone) == [add]
  {
    hide Part, Settle;
    PartAll([add], false);
    PartAll(gone, true);
    PartConcat([add], gone, false);
    PartConcat([add], gone, true);
    SettleSingle([], add, r + gone);
    assert [add] + r + gone == [] + [add] + (r + gone);
  }

  lemma SharedLeaves(gone: PlanOp, a: seq<PlanOp>, o: Option<Entry>, n: Option<Entry>, start: Option<Item>)
    requires IsRemoval(gone) && o.None? && PrivateAdditions(a, o, n)
    ensures Steps(start, Settle(a + [gone])) == if n.Some? then Some(n.value.item) else None
  {
    if n.Some? {
      SettleSingle([], a[0], [gone]);
      assert a + [gone] == [] + [a[0]] + [gone];
      StepsOne(start, a[0]);
    } else {
      assert a + [gone] == [gone];
      StepsOne(start, gone);
    }
  }

  /**
   The fast path equals the definition: for a one-version delta, any observation and any
   overlay change, the composed transition turns what the connection held into what it must hold.
   */
  lemma FastPathExact(
    replayed: seq<PlannedOp>, before: ShardView, after: ShardView, see: ScopeSet, was: Overlay, now: Overlay)
    requires IsDelta(replayed, before, after)
    requires WellKeyed(was) && WellKeyed(now)
    requires Disjoint(Restrict(before, see), was) && Disjoint(Restrict(after, see), now)
    ensures Run(Held(before, see, was), Transition(replayed, see, was, now)) == Held(after, see, now)
  {
    var result := Run(Held(before, see, was), Transition(replayed, see, was, now));
    forall e ensures At(result, e) == At(Held(after, see, now), e) {
      FastPathAt(replayed, before, after, see, was, now, e);
    }
    SameEverywhere(result, Held(after, see, now));
  }

  lemma FastPathAt(
    replayed: seq<PlannedOp>, before: ShardView, after: ShardView, see: ScopeSet, was: Overlay, now: Overlay,
    e: ElementId)
    requires IsDelta(replayed, before, after)
    requires WellKeyed(was) && WellKeyed(now)
    requires Disjoint(Restrict(before, see), was) && Disjoint(Restrict(after, see), now)
    ensures At(Run(Held(before, see, was), Transition(replayed, see, was, now)), e) == At(Held(after, see, now), e)
  {
    DisjointAt(before, see, was, e);
    DisjointAt(after, see, now, e);
    ShownAt(before, see, was, e);
    ShownAt(after, see, now, e);
    var shared, private := Filter(replayed, see), PlanElements(was, now);
    hide Filter, PlanElements, Disjoint, Restrict, Compose, Show, WellKeyed, Delta, On, Look, Steps, Run, At, Splice;
    hide Collapse;
    RunAt(Held(before, see, was), Collapse(Splice(shared, private)), e);
    CollapseOn(Splice(shared, private), e);
    FilterKeepsTrail(replayed, see);
    SpliceOn(shared, private, e);
    FilterOn(replayed, see, e);
    PlanElementsIsDelta(was, now, e);
    ElementTransition(About(replayed, e), Look(before, e), Look(after, e), see,
                      On(private.removals, e), On(private.additions, e), Look(was, e), Look(now, e));
  }

  lemma DisjointAt(v: ShardView, see: ScopeSet, o: Overlay, e: ElementId)
    requires Disjoint(Restrict(v, see), o)
    ensures Look(o, e).Some? ==> Seen(see, Look(v, e)).None?
  {
    match e
    case ChannelElement(id) => assert id in o.channels ==> id !in Restrict(v, see).channels;
    case UserElement(s) => assert s in o.users ==> s !in Restrict(v, see).users;
  }
}
