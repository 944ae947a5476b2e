/**
 Pushes that change the overlay as well. The batch is the shared additions, the private removals,
 the private additions and the shared removals, in that order, and each part is as safe beside the
 other half of the client as it is without it.
 */
module OverlayPushes {
  import opened Collections
  import opened Scopes
  import opened Views
  import opened Planner
  import opened Clients
  import opened Deltas
  import opened OverlayDeltas
  import opened Composition
  import opened FastPath
  import opened Ordering
  import opened PrefixSafety
  import opened Emission
  import opened Pushes
  import opened PushSafety
  import opened OverlayLeaving
  import opened OverlayArriving
  import Trees = OverlayTrees

  // ---------------------------------------------------------------- the four parts

  lemma AddedMembers(ops: seq<PlanOp>, e: ElementId)
    ensures e in AddedIn(ops) <==> exists op :: op in ops && IsAddition(op) && Target(op) == e
  {
    if op :| op in ops && IsAddition(op) && Target(op) == e {
      var i :| 0 <= i < |ops| && ops[i] == op;
    }
  }

  lemma AddedConcat(a: seq<PlanOp>, b: seq<PlanOp>)
    ensures AddedIn(a + b) == AddedIn(a) + AddedIn(b)
  {
    forall e ensures e in AddedIn(a + b) <==> e in AddedIn(a) || e in AddedIn(b) {
      AddedMembers(a + b, e);
      AddedMembers(a, e);
      AddedMembers(b, e);
    }
  }

  ghost predicate OnlyRemovals(ops: seq<PlanOp>) {
    forall op | op in ops :: IsRemoval(op)
  }

  ghost predicate NoRemovals(ops: seq<PlanOp>) {
    forall op | op in ops :: !IsRemoval(op)
  }

  lemma RemovalsAddNothing(ops: seq<PlanOp>)
    requires OnlyRemovals(ops)
    ensures AddedIn(ops) == {}
  {
    forall e ensures e !in AddedIn(ops) {
      AddedMembers(ops, e);
    }
  }

  lemma {:induction false} RetainAll(ops: seq<PlanOp>, added: set<ElementId>)
    requires forall op | op in ops :: !IsRemoval(op) || Target(op) !in added
    ensures Retain(ops, added) == ops
    decreases |ops|
  {
    if ops != [] {
      var n := |ops| - 1;
      assert ops == ops[..n] + [ops[n]];
      assert forall op | op in ops[..n] :: op in ops;
      RetainAll(ops[..n], added);
      assert ops[n] in ops;
    }
  }

  lemma {:induction false} RetainAgrees(ops: seq<PlanOp>, added: set<ElementId>, added': set<ElementId>)
    requires forall op | op in ops :: Target(op) in added <==> Target(op) in added'
    ensures Retain(ops, added) == Retain(ops, added')
    decreases |ops|
  {
    if ops != [] {
      var n := |ops| - 1;
      assert forall op | op in ops[..n] :: op in ops;
      RetainAgrees(ops[..n], added, added');
      assert ops[n] in ops;
    }
  }

  /** No element changes sides: collapsing drops nothing private, and of the shared removals what it always does. */
  lemma CollapseInParts(f: seq<PlanOp>, r: seq<PlanOp>, a: seq<PlanOp>, w: seq<PlanOp>)
    requires NoRemovals(f) && OnlyRemovals(r) && NoRemovals(a) && OnlyRemovals(w)
    requires forall op | op in r :: Target(op) !in AddedIn(f) && Target(op) !in AddedIn(a)
    requires forall op | op in w :: Target(op) !in AddedIn(a)
    ensures Collapse(f + r + a + w) == f + r + a + Retain(w, AddedIn(f))
    ensures Collapse(f + w) == f + Retain(w, AddedIn(f))
  {
    hide AddedIn, Retain;
    var added := AddedIn(f) + AddedIn(a);
    RemovalsAddNothing(r);
    RemovalsAddNothing(w);
    AddedConcat(f, r);
    AddedConcat(f + r, a);
    AddedConcat(f + r + a, w);
    AddedConcat(f, w);
    assert AddedIn(f + r + a + w) == added && AddedIn(f + w) == AddedIn(f);
    RetainConcat(f + r + a, w, added);
    RetainConcat(f + r, a, added);
    RetainConcat(f, r, added);
    RetainConcat(f, w, AddedIn(f));
    RetainAll(f, added);
    RetainAll(f, AddedIn(f));
    RetainAll(r, added);
    RetainAll(a, added);
    RetainAgrees(w, added, AddedIn(f));
  }

  /** What is said of the shared view before anything is taken away, and what is taken away. */
  function Front(before: ShardView, after: ShardView, see: ScopeSet): seq<PlanOp> {
    var shared := Filter(Plan(before, after), see);
    shared[..Boundary(shared)]
  }

  function Back(before: ShardView, after: ShardView, see: ScopeSet): seq<PlanOp> {
    var shared := Filter(Plan(before, after), see);
    shared[Boundary(shared)..]
  }

  function BackKept(before: ShardView, after: ShardView, see: ScopeSet): seq<PlanOp> {
    Retain(Back(before, after, see), AddedIn(Front(before, after, see)))
  }

  /** Both overlays are apart from both views as seen: no element changes sides. */
  ghost predicate Sides(before: ShardView, after: ShardView, see: ScopeSet, was: Overlay, now: Overlay) {
    && Disjoint(Restrict(before, see), was) && Disjoint(Restrict(after, see), was)
    && Disjoint(Restrict(before, see), now) && Disjoint(Restrict(after, see), now)
  }

  /** Whatever a shared operation is about is seen at one end, and so is not private. */
  lemma SharedTarget(before: ShardView, after: ShardView, see: ScopeSet, overlay: Overlay, op: PlanOp)
    requires WellKeyed(before) && WellKeyed(after)
    requires Disjoint(Restrict(before, see), overlay) && Disjoint(Restrict(after, see), overlay)
    requires op in Filter(Plan(before, after), see)
    ensures Look(overlay, Target(op)).None?
  {
    hide Plan, Filter, On, Sees, Look, WellKeyed, Restrict, Disjoint, About, Delta;
    var e := Target(op);
    OnMember(Filter(Plan(before, after), see), op, e);
    FilterOn(Plan(before, after), see, e);
    PlanIsDelta(before, after);
    DisjointAt(before, see, overlay, e);
    DisjointAt(after, see, overlay, e);
    if Look(overlay, e).Some? {
      UnseenSilent(About(Plan(before, after), e), Look(before, e), Look(after, e), see);
    }
  }

  lemma SharedSplit(before: ShardView, after: ShardView, see: ScopeSet)
    requires WellKeyed(before) && WellKeyed(after)
    ensures var shared := Filter(Plan(before, after), see);
      && shared == Front(before, after, see) + Back(before, after, see)
      && NoRemovals(Front(before, after, see)) && OnlyRemovals(Back(before, after, see))
  {
    hide Plan, Filter, WellKeyed;
    PlanIsDelta(before, after);
    FilterKeepsTrail(Plan(before, after), see);
  }

  /** A private operation is about an element of the overlay it comes from or goes to. */
  lemma PrivateTarget(was: Overlay, now: Overlay, op: PlanOp)
    requires WellKeyed(was) && WellKeyed(now)
    ensures op in PlanElements(was, now).additions ==> Look(now, Target(op)).Some? && !IsRemoval(op)
    ensures op in PlanElements(was, now).removals ==>
      IsRemoval(op) && Look(was, Target(op)).Some? && Look(now, Target(op)).None?
  {
    hide PlanElements, On, Look, WellKeyed, Step;
    var e := Target(op);
    PlanElementsIsDelta(was, now, e);
    if op in PlanElements(was, now).additions {
      OnMember(PlanElements(was, now).additions, op, e);
    }
    if op in PlanElements(was, now).removals {
      OnMember(PlanElements(was, now).removals, op, e);
    }
  }

  /** Where no element changes sides, the batch is the four parts, the shared ones as they would be alone. */
  lemma BatchInParts(before: ShardView, after: ShardView, see: ScopeSet, was: Overlay, now: Overlay)
    requires WellKeyed(before) && WellKeyed(after) && WellKeyed(was) && WellKeyed(now)
    requires Sides(before, after, see, was, now)
    ensures Transition(Plan(before, after), see, was, now)
         == Front(before, after, see) + PlanElements(was, now).removals + PlanElements(was, now).additions
            + BackKept(before, after, see)
    ensures Received(before, after, see) == Front(before, after, see) + BackKept(before, after, see)
    ensures NoRemovals(Front(before, after, see)) && OnlyRemovals(BackKept(before, after, see))
  {
    hide Plan, Filter, PlanElements, WellKeyed, Disjoint, Restrict, AddedIn, Retain, Look, Target, Collapse;
    var f, r, a, w := Front(before, after, see), PlanElements(was, now).removals, PlanElements(was, now).additions,
      Back(before, after, see);
    SharedSplit(before, after, see);
    forall op | op in r ensures IsRemoval(op) && Target(op) !in AddedIn(f) && Target(op) !in AddedIn(a) {
      PrivateTarget(was, now, op);
      RemovedNotAdded(before, after, see, was, now, op);
    }
    forall op | op in a ensures !IsRemoval(op) {
      PrivateTarget(was, now, op);
    }
    forall op | op in w ensures Target(op) !in AddedIn(a) {
      SharedTarget(before, after, see, now, op);
      NotAddedPrivately(was, now, Target(op));
    }
    CollapseInParts(f, r, a, w);
    RetainMembers(w, AddedIn(f));
  }

  lemma NotAddedPrivately(was: Overlay, now: Overlay, e: ElementId)
    requires WellKeyed(was) && WellKeyed(now) && Look(now, e).None?
    ensures e !in AddedIn(PlanElements(was, now).additions)
  {
    hide PlanElements, Look, AddedIn, WellKeyed;
    var a := PlanElements(was, now).additions;
    AddedMembers(a, e);
    if op :| op in a && IsAddition(op) && Target(op) == e {
      PrivateTarget(was, now, op);
    }
  }

  lemma RemovedNotAdded(
    before: ShardView, after: ShardView, see: ScopeSet, was: Overlay, now: Overlay, op: PlanOp)
    requires WellKeyed(before) && WellKeyed(after) && WellKeyed(was) && WellKeyed(now)
    requires Sides(before, after, see, was, now)
    requires Look(was, Target(op)).Some? && Look(now, Target(op)).None?
    ensures Target(op) !in AddedIn(Front(before, after, see))
    ensures Target(op) !in AddedIn(PlanElements(was, now).additions)
  {
    hide Plan, Filter, PlanElements, WellKeyed, Disjoint, Restrict, AddedIn, Look;
    var e, f := Target(op), Front(before, after, see);
    NotAddedPrivately(was, now, e);
    AddedMembers(f, e);
    if add :| add in f && IsAddition(add) && Target(add) == e {
      assert add in Filter(Plan(before, after), see);
      SharedTarget(before, after, see, was, add);
    }
  }

  // ---------------------------------------------------------------- the shared additions

  /** What stands between two renders for one observer whose overlay changes with them. */
  ghost predicate Across(before: ShardView, after: ShardView, see: ScopeSet, was: Overlay, now: Overlay) {
    && Travels(before, after, see) && WellKeyed(was) && WellKeyed(now)
    && Sides(before, after, see, was, now)
    && Trees.TreeShaped(was) && NoOwnParent(now)
    && ClosedView(Compose(Restrict(after, see), now))
  }

  lemma FrontIsClear(before: ShardView, after: ShardView, see: ScopeSet, overlay: Overlay, op: PlanOp)
    requires Travels(before, after, see)
    requires Disjoint(Restrict(before, see), overlay) && Disjoint(Restrict(after, see), overlay)
    requires op in Received(before, after, see) && !IsRemoval(op)
    ensures Clear(op, Show(overlay))
  {
    hide Received, Restrict, Tree, ClosedView, Clear, Refers, Look, Target, WellKeyed, Show;
    ReceivedTarget(before, after, see, overlay, op);
    ReceivedRefers(before, after, see, op);
    ClearWhen(op, overlay, Restrict(after, see).channels.Keys);
  }

  lemma KeepsOffStep(c: Client, op: PlanOp, o: Client)
    requires KeepsOff(c, o.channels.Keys) && Clear(op, o)
    ensures KeepsOff(Apply(c, op), o.channels.Keys)
  {
    hide Vacant;
    var after := Apply(c, op);
    forall s | s in after.users ensures after.users[s].channel !in o.channels {
      assert UserElement(s) != Target(op) ==> s in c.users && after.users[s] == c.users[s];
    }
    forall k | k in after.channels ensures after.channels[k].parent !in o.channels {
      assert ChannelElement(k) != Target(op) ==> k in c.channels && after.channels[k] == c.channels[k];
    }
  }

  lemma {:induction false} KeepsOffRun(c: Client, ops: seq<PlanOp>, o: Client)
    requires KeepsOff(c, o.channels.Keys) && forall op | op in ops :: Clear(op, o)
    ensures KeepsOff(Run(c, ops), o.channels.Keys)
    decreases |ops|
  {
    if ops != [] {
      hide KeepsOff, Clear, Apply;
      var n := |ops| - 1;
      assert ops[n] in ops && forall op | op in ops[..n] :: op in ops;
      KeepsOffRun(c, ops[..n], o);
      KeepsOffStep(Run(c, ops[..n]), ops[n], o);
    }
  }

  /** The shared additions leave the overlay where it was, and nothing shared hangs from it. */
  lemma FrontBeside(before: ShardView, after: ShardView, see: ScopeSet, overlay: Overlay)
    requires Travels(before, after, see) && WellKeyed(overlay)
    requires Disjoint(Restrict(before, see), overlay) && Disjoint(Restrict(after, see), overlay)
    requires Received(before, after, see) == Front(before, after, see) + BackKept(before, after, see)
    requires NoRemovals(Front(before, after, see))
    ensures var s0, o, f := Show(Restrict(before, see)), Show(overlay), Front(before, after, see);
      && Apart(s0, o) && Apart(Run(s0, f), o)
      && KeepsOff(Run(s0, f), overlay.channels.Keys)
      && Run(Beside(s0, o), f) == Beside(Run(s0, f), o)
      && (SafeRun(Beside(s0, o), f) <==> SafeRun(s0, f))
  {
    hide Received, Front, BackKept, Restrict, Disjoint, Clear, Apart, Beside, SafeRun, Run, KeepsOff, WellKeyed, Tree;
    hide ClosedView;
    var s0, o, f := Show(Restrict(before, see)), Show(overlay), Front(before, after, see);
    assert o.channels.Keys == overlay.channels.Keys;
    forall op | op in f ensures Clear(op, o) {
      FrontIsClear(before, after, see, overlay, op);
    }
    hide Show;
    HeldIsBeside(before, see, overlay);
    ClosedKeepsOff(Restrict(before, see), overlay);
    KeepsOffRun(s0, f, o);
    ClearRun(s0, o, f, |f|);
    assert f[..|f|] == f;
    ClearSafe(s0, o, f);
  }

  // ---------------------------------------------------------------- the private halves

  /** What the removals half leaves of the overlay. */
  lemma LeftOfOverlay(was: Overlay, now: Overlay, e: ElementId)
    requires WellKeyed(was) && WellKeyed(now)
    ensures At(Run(Show(was), PlanElements(was, now).removals), e)
         == if Look(now, e).Some? then At(Show(was), e) else None
  {
    hide PlanElements, Run, On, WellKeyed, Show, Step, Look;
    var r := PlanElements(was, now).removals;
    RunAt(Show(was), r, e);
    PlanElementsIsDelta(was, now, e);
    ShownAt(was, {}, was, e);
    if On(r, e) == [] {
      NothingRun(Show(was), e);
    } else {
      assert On(r, e) == [On(r, e)[0]];
      StepsOne(At(Show(was), e), On(r, e)[0]);
      RemovalGives(At(Show(was), e), On(r, e)[0]);
    }
  }

  lemma RemovalGives(x: Option<Item>, op: PlanOp)
    requires IsRemoval(op)
    ensures Clients.Step(x, op) == None
  {
  }

  /** The removals half beside a client that keeps off the overlay. */
  lemma RemovalsBeside(c: Client, was: Overlay, now: Overlay)
    requires Apart(c, Show(was)) && KeepsOff(c, was.channels.Keys)
    ensures var r, o := PlanElements(was, now).removals, Show(was);
      Run(Beside(c, o), r) == Beside(c, Run(o, r)) && Apart(c, Run(o, r))
  {
    hide PlanElements, Beside;
    var r, o := PlanElements(was, now).removals, Show(was);
    forall op | op in r ensures Clear(op, c) {
      RemovalMembers(was, now, op);
    }
    hide Show, Apart, Clear, Run;
    BesideCommutes(c, o);
    ClearRun(o, c, r, |r|);
    assert r[..|r|] == r;
    BesideCommutes(Run(o, r), c);
  }

  /** The additions half turns what is left into the new overlay, whatever is beside it. */
  lemma AdditionsBeside(c: Client, was: Overlay, now: Overlay)
    requires WellKeyed(was) && WellKeyed(now)
    requires Apart(c, Show(now))
    ensures Run(Beside(c, Run(Show(was), PlanElements(was, now).removals)), PlanElements(was, now).additions)
         == Beside(c, Show(now))
  {
    hide PlanElements, Beside, Run, Show, Apart, WellKeyed, At, Look;
    var a, o := PlanElements(was, now).additions, Run(Show(was), PlanElements(was, now).removals);
    forall e ensures At(Run(Beside(c, o), a), e) == At(Beside(c, Show(now)), e) {
      AdditionAt(c, was, now, e);
    }
    SameEverywhere(Run(Beside(c, o), a), Beside(c, Show(now)));
  }

  lemma AdditionAt(c: Client, was: Overlay, now: Overlay, e: ElementId)
    requires WellKeyed(was) && WellKeyed(now)
    requires Apart(c, Show(now))
    ensures At(Run(Beside(c, Run(Show(was), PlanElements(was, now).removals)), PlanElements(was, now).additions), e)
         == At(Beside(c, Show(now)), e)
  {
    hide PlanElements, Beside, Run, Show, Apart, WellKeyed, At, Look, On, Steps;
    var a, o := PlanElements(was, now).additions, Run(Show(was), PlanElements(was, now).removals);
    LeftOfOverlay(was, now, e);
    BesideAt(c, o, e);
    BesideAt(c, Show(now), e);
    ShownAt(was, {}, was, e);
    ShownAt(now, {}, now, e);
    RunAt(Beside(c, o), a, e);
    PlanElementsIsDelta(was, now, e);
    NothingRun(c, e);
    if Look(now, e).Some? && Look(was, e).None? {
      assert On(a, e) == [On(a, e)[0]];
      StepsOne(None, On(a, e)[0]);
    }
  }

  // ---------------------------------------------------------------- the whole batch

  lemma {:induction false} RemovalsShrink(c: Client, ops: seq<PlanOp>)
    requires OnlyRemovals(ops)
    ensures Run(c, ops).channels.Keys <= c.channels.Keys
    decreases |ops|
  {
    if ops != [] {
      var n := |ops| - 1;
      assert ops[n] in ops && forall op | op in ops[..n] :: op in ops;
      RemovalsShrink(c, ops[..n]);
    }
  }

  /** Everything visible afterwards is there before anything is taken away. */
  lemma TargetThere(before: ShardView, after: ShardView, see: ScopeSet)
    requires WellKeyed(before) && WellKeyed(after)
    requires Received(before, after, see) == Front(before, after, see) + BackKept(before, after, see)
    requires OnlyRemovals(BackKept(before, after, see))
    ensures Restrict(after, see).channels.Keys
         <= Run(Show(Restrict(before, see)), Front(before, after, see)).channels.Keys
  {
    assert Show(Restrict(after, see)).channels.Keys == Restrict(after, see).channels.Keys;
    hide Received, Front, BackKept, Restrict, Show, WellKeyed, Run, OnlyRemovals;
    var s0, f, w := Show(Restrict(before, see)), Front(before, after, see), BackKept(before, after, see);
    ReceivedExact(before, after, see);
    RunConcat(s0, f, w);
    RemovalsShrink(Run(s0, f), w);
  }

  /** What is left of the overlay among channels: those it keeps. */
  lemma LeftChannels(was: Overlay, now: Overlay)
    requires WellKeyed(was) && WellKeyed(now)
    ensures forall id :: id in Run(Show(was), PlanElements(was, now).removals).channels <==>
      id in was.channels && id in now.channels
  {
    hide PlanElements, Run, WellKeyed;
    forall id ensures id in Run(Show(was), PlanElements(was, now).removals).channels <==>
      id in was.channels && id in now.channels
    {
      LeftOfOverlay(was, now, ChannelElement(id));
    }
  }

  /** Once the private removals are done, the client holds all the new overlay refers to but what it creates. */
  lemma ReadyToArrive(c: Client, left: Client, v: ShardView, was: Overlay, now: Overlay)
    requires v.channels.Keys <= c.channels.Keys && Apart(c, Show(now))
    requires forall id :: id in left.channels <==> id in was.channels && id in now.channels
    requires ClosedView(Compose(v, now))
    ensures Beside(c, left).channels.Keys !! Newborn(was, now)
    ensures RefersInto(now, Beside(c, left).channels.Keys + Newborn(was, now))
  {
    hide ClosedView, Compose;
    var k := Beside(c, left).channels.Keys + Newborn(was, now);
    assert forall id | id in v.channels || id in now.channels :: id in k;
    forall id | id in now.channels ensures now.channels[id].parent in k {
      PrivateParent(v, now, id);
    }
    forall s | s in now.users ensures now.users[s].channel in k {
      PrivateSeat(v, now, s);
    }
  }

  lemma BackIsClear(before: ShardView, after: ShardView, see: ScopeSet, was: Overlay, now: Overlay)
    requires Across(before, after, see, was, now)
    requires Received(before, after, see) == Front(before, after, see) + BackKept(before, after, see)
    ensures forall op | op in BackKept(before, after, see) :: Clear(op, Show(now))
  {
    hide Received, Front, BackKept, Restrict, Compose, Disjoint, ClosedView, WellKeyed, Trees.TreeShaped, NoOwnParent;
    hide Travels, Clear;
    forall op | op in BackKept(before, after, see) ensures Clear(op, Show(now)) {
      ReceivedIsClear(before, after, see, now, op);
    }
  }

  /** The last part: taking away what is no longer seen is as safe beside the new overlay as alone. */
  lemma BackBeside(before: ShardView, after: ShardView, see: ScopeSet, was: Overlay, now: Overlay, c: Client)
    requires Across(before, after, see, was, now) && Apart(c, Show(now))
    requires Received(before, after, see) == Front(before, after, see) + BackKept(before, after, see)
    ensures SafeRun(Beside(c, Show(now)), BackKept(before, after, see)) <==> SafeRun(c, BackKept(before, after, see))
  {
    hide Across, Received, Front, BackKept, Clear, Apart, Beside, SafeRun, Show;
    BackIsClear(before, after, see, was, now);
    ClearSafe(c, Show(now), BackKept(before, after, see));
  }

  /**
   A push of one version together with any change of the overlay, no element changing sides: every
   prefix of the batch is safe if and only if what is revealed is revealed in time, no private
   element that stays hangs from a private channel that goes, and new private channels hang from
   older ones.
   */
  lemma ChangingPushSafe(before: ShardView, after: ShardView, see: ScopeSet, was: Overlay, now: Overlay)
    requires Across(before, after, see, was, now)
    ensures SafeRun(Held(before, see, was), Transition(Plan(before, after), see, was, now))
       <==> RevealedInTime(before, after, see) && NoneLeftHanging(was, now) && BornInOrder(was, now)
  {
    hide Travels, RevealedInTime, SafeRun, Plan, Restrict, Show, WellKeyed, Transition, Clear, Received, Front;
    hide BackKept, Held, Beside, Apart, Disjoint, NoneLeftHanging, BornInOrder, Run, PlanElements;
    hide NoRemovals, OnlyRemovals, KeepsOff, ClosedView, Compose, NoOwnParent, Trees.TreeShaped, RefersInto, Newborn;
    AcrossKeyed(before, after, see);
    var f, r, a, w := Front(before, after, see), PlanElements(was, now).removals, PlanElements(was, now).additions,
      BackKept(before, after, see);
    var s0 := Show(Restrict(before, see));
    var s1, left := Run(s0, f), Run(Show(was), r);
    BatchInParts(before, after, see, was, now);
    HeldIsBeside(before, see, was);
    FrontBeside(before, after, see, was);
    FrontBeside(before, after, see, now);
    PartsSafe(Beside(s0, Show(was)), f, r, a, w);
    SafeParts(s0, f, w);
    ReceivedSafe(before, after, see);
    LeavingSafeBeside(s1, was, now);
    RemovalsBeside(s1, was, now);
    TargetThere(before, after, see);
    LeftChannels(was, now);
    ReadyToArrive(s1, left, Restrict(after, see), was, now);
    ArrivingSafe(Beside(s1, left), was, now);
    AdditionsBeside(s1, was, now);
    BackBeside(before, after, see, was, now, s1);
  }

  lemma AcrossKeyed(before: ShardView, after: ShardView, see: ScopeSet)
    requires Travels(before, after, see)
    ensures WellKeyed(before) && WellKeyed(after)
  {
  }

  lemma PartsSafe(c: Client, f: seq<PlanOp>, r: seq<PlanOp>, a: seq<PlanOp>, w: seq<PlanOp>)
    ensures var c1 := Run(c, f); var c2 := Run(c1, r); var c3 := Run(c2, a);
      SafeRun(c, f + r + a + w) <==> SafeRun(c, f) && SafeRun(c1, r) && SafeRun(c2, a) && SafeRun(c3, w)
  {
    hide SafeRun, Run;
    SafeParts(c, f + r + a, w);
    SafeParts(c, f + r, a);
    SafeParts(c, f, r);
    RunConcat(c, f, r);
    RunConcat(c, f + r, a);
  }
}
