/**
 The planner's contract, element by element: `IsDelta` says what a journalled delta must
 tell about each element, and `PlanIsDelta` that the planner's output tells exactly that.
 */
module Deltas {
  import opened Collections
  import opened Scopes
  import opened Views
  import opened Planner
  import opened Clients

  /** The planned operations about one element, in order. */
  function About(ops: seq<PlannedOp>, e: ElementId): seq<PlannedOp>
    decreases |ops|
  {
    if ops == [] then [] else
      var last := ops[|ops| - 1];
      About(ops[..|ops| - 1], e) + (if Target(last.op) == e then [last] else [])
  }

  function Bare(ops: seq<PlannedOp>): seq<PlanOp> {
    seq(|ops|, i requires 0 <= i < |ops| => ops[i].op)
  }

  lemma AboutSnoc(ops: seq<PlannedOp>, p: PlannedOp, e: ElementId)
    ensures About(ops + [p], e) == if Target(p.op) == e then About(ops, e) + [p] else About(ops, e)
  {
    assert (ops + [p])[..|ops|] == ops;
  }

  lemma {:induction false} AboutConcat(a: seq<PlannedOp>, b: seq<PlannedOp>, e: ElementId)
    ensures About(a + b, e) == About(a, e) + About(b, e)
  {
    if b == [] {
      assert a + b == a;
    } else {
      assert (a + b)[..|a + b| - 1] == a + b[..|b| - 1];
      AboutConcat(a, b[..|b| - 1], e);
    }
  }

  /** `p` writes the whole entry `y`. */
  predicate Writes(p: PlannedOp, y: Entry) {
    IsAddition(p.op) && Step(None, p.op) == Some(y.item) && p.scope == y.scope
  }

  predicate Withdraws(p: PlannedOp, x: Entry) {
    IsRemoval(p.op) && p.scope == x.scope
  }

  /** Neither additions nor removals, all at `y`'s scope, turning `x` into `y` when applied in order. */
  ghost predicate Patches(d: seq<PlannedOp>, x: Entry, y: Entry) {
    && (forall p | p in d :: p.scope == y.scope && !IsAddition(p.op) && !IsRemoval(p.op))
    && Steps(Some(x.item), Bare(d)) == Some(y.item)
  }

  /** What a delta says about an element that goes from `x` to `y`. */
  ghost predicate Delta(d: seq<PlannedOp>, x: Option<Entry>, y: Option<Entry>) {
    if x.None? && y.None? then d == []
    else if x.None? then |d| == 1 && Writes(d[0], y.value)
    else if y.None? then |d| == 1 && Withdraws(d[0], x.value)
    else if x.value.scope == y.value.scope then Patches(d, x.value, y.value)
    else |d| == 2 && Writes(d[0], y.value) && Withdraws(d[1], x.value)
  }

  /** A delta between two views: right about every element, and removals last. */
  ghost predicate IsDelta(ops: seq<PlannedOp>, before: ShardView, after: ShardView) {
    && (forall e :: Delta(About(ops, e), Look(before, e), Look(after, e)))
    && RemovalsLast(ops)
  }

  predicate RemovalsLast(ops: seq<PlannedOp>) {
    forall i, j | 0 <= i < j < |ops| && IsRemoval(ops[i].op) :: IsRemoval(ops[j].op)
  }

  /** Views that no plan can tell apart admit the same deltas. */
  lemma DeltaBetweenAlike(ops: seq<PlannedOp>, a: ShardView, a': ShardView, b: ShardView, b': ShardView)
    requires IsDelta(ops, a, b) && Alike(a, a') && Alike(b, b')
    ensures IsDelta(ops, a', b')
  {
    forall e ensures Delta(About(ops, e), Look(a', e), Look(b', e)) {
      assert Delta(About(ops, e), Look(a, e), Look(b, e));
    }
  }

  // ---------------------------------------------------------------- the keyed phases

  function KeyOf(e: ElementId): nat {
    match e
    case ChannelElement(id) => id
    case UserElement(s) => s
  }

  lemma ContributionAbout(p: Phase, before: ShardView, after: ShardView, key: nat, e: ElementId)
    requires WellKeyed(after)
    ensures About(Contribution(p, before, after, key), e)
         == if Element(p, key) == e then Contribution(p, before, after, key) else []
  {
    var c := Contribution(p, before, after, key);
    if c != [] {
      assert |c| == 1 && c[..0] == [] && Target(c[0].op) == Element(p, key);
    }
  }

  lemma NothingGathered(p: Phase, before: ShardView, after: ShardView, e: ElementId)
    ensures About(Gather(p, before, after, []), e) == []
  {
  }

  lemma {:induction false} GatherAbout(
    p: Phase, before: ShardView, after: ShardView, keys: seq<nat>, e: ElementId)
    requires WellKeyed(after) && Ascending(keys)
    ensures About(Gather(p, before, after, keys), e)
         == if Element(p, KeyOf(e)) == e && KeyOf(e) in keys then Contribution(p, before, after, KeyOf(e)) else []
  {
    hide Contribution, Ascending, WellKeyed, About, Gather;
    if keys == [] {
      NothingGathered(p, before, after, e);
    } else {
      var n := |keys| - 1;
      LastKey(keys, KeyOf(e));
      GatherAbout(p, before, after, keys[..n], e);
      GatherNext(p, before, after, keys, n);
      assert keys[..n + 1] == keys;
      AboutConcat(Gather(p, before, after, keys[..n]), Contribution(p, before, after, keys[n]), e);
      ContributionAbout(p, before, after, keys[n], e);
    }
  }

  // ---------------------------------------------------------------- creations and withdrawals

  function OfId(channels: seq<Channel>, id: ChannelId): seq<Channel> {
    if channels == [] then [] else
      var last := channels[|channels| - 1];
      OfId(channels[..|channels| - 1], id) + (if last.id == id then [last] else [])
  }

  lemma OfIdSnoc(channels: seq<Channel>, c: Channel, id: ChannelId)
    ensures OfId(channels + [c], id) == if c.id == id then OfId(channels, id) + [c] else OfId(channels, id)
  {
    assert (channels + [c])[..|channels|] == channels;
  }

  lemma {:induction false} OfIdConcat(a: seq<Channel>, b: seq<Channel>, id: ChannelId)
    ensures OfId(a + b, id) == OfId(a, id) + OfId(b, id)
  {
    if b == [] {
      assert a + b == a;
    } else {
      assert (a + b)[..|a + b| - 1] == a + b[..|b| - 1];
      OfIdConcat(a, b[..|b| - 1], id);
    }
  }

  lemma {:induction false} PassKeeps(remaining: seq<Channel>, present: set<ChannelId>, id: ChannelId)
    requires |OfId(remaining, id)| <= 1
    ensures var r := Pass(remaining, present); OfId(r.0, id) + OfId(r.1, id) == OfId(remaining, id)
  {
    if remaining != [] {
      var n := |remaining| - 1;
      var r := Pass(remaining[..n], present);
      PassKeeps(remaining[..n], present, id);
      OfIdConcat(r.0, [remaining[n]], id);
      OfIdConcat(r.1, [remaining[n]], id);
      assert [remaining[n]][..0] == [];
    }
  }

  /** Ordering creations neither loses nor repeats one. */
  lemma {:induction false} OrderedKeeps(remaining: seq<Channel>, present: set<ChannelId>, id: ChannelId)
    requires |OfId(remaining, id)| <= 1
    ensures OfId(Ordered(remaining, present), id) == OfId(remaining, id)
    decreases |remaining|
  {
    if remaining != [] {
      var pass := Pass(remaining, present);
      if pass.0 != [] {
        PassKeeps(remaining, present, id);
        OrderedKeeps(pass.1, present + Ids(pass.0), id);
        OfIdConcat(pass.0, Ordered(pass.1, present + Ids(pass.0)), id);
      }
    }
  }

  lemma ArrivingNext(before: ShardView, after: ShardView, keys: seq<nat>)
    requires keys != []
    ensures var front, last := keys[..|keys| - 1], keys[|keys| - 1];
      Arriving(before, after, keys)
      == if last in after.channels && !SameChannel(before, after, last)
         then Arriving(before, after, front) + [after.channels[last]] else Arriving(before, after, front)
  {
    hide SameChannel;
  }

  lemma NothingArriving(before: ShardView, after: ShardView, id: ChannelId)
    ensures OfId(Arriving(before, after, []), id) == []
  {
  }

  lemma {:induction false} ArrivingOfId(before: ShardView, after: ShardView, keys: seq<nat>, id: ChannelId)
    requires WellKeyed(after) && Ascending(keys)
    ensures OfId(Arriving(before, after, keys), id)
         == if id in keys && id in after.channels && !SameChannel(before, after, id) then [after.channels[id]] else []
  {
    hide Ascending, WellKeyed, SameChannel, OfId, Arriving;
    if keys == [] {
      NothingArriving(before, after, id);
    } else {
      var n := |keys| - 1;
      LastKey(keys, id);
      ArrivingOfId(before, after, keys[..n], id);
      ArrivingNext(before, after, keys);
      if keys[n] in after.channels && !SameChannel(before, after, keys[n]) {
        OwnKey(after, keys[n]);
        OfIdSnoc(Arriving(before, after, keys[..n]), after.channels[keys[n]], id);
      }
    }
  }

  lemma OwnKey(v: ShardView, id: ChannelId)
    requires WellKeyed(v) && id in v.channels
    ensures v.channels[id].id == id
  {
  }

  lemma CreationsSnoc(channels: seq<Channel>, c: Channel)
    ensures Creations(channels + [c]) == Creations(channels) + [PlannedOp(CreateChannel(c), c.scope)]
  {
    assert (channels + [c])[..|channels|] == channels;
  }

  lemma NothingCreated(e: ElementId, id: ChannelId)
    ensures Creations([]) == [] && About([], e) == [] && OfId([], id) == []
  {
  }

  lemma {:induction false} CreationsAbout(channels: seq<Channel>, e: ElementId)
    ensures About(Creations(channels), e)
         == match e case ChannelElement(id) => Creations(OfId(channels, id)) case UserElement(_) => []
  {
    hide About, Creations, OfId;
    if channels == [] {
      NothingCreated(e, KeyOf(e));
    } else {
      var n := |channels| - 1;
      var front, last := channels[..n], channels[n];
      assert channels == front + [last];
      CreationsAbout(front, e);
      CreationsSnoc(front, last);
      AboutSnoc(Creations(front), PlannedOp(CreateChannel(last), last.scope), e);
      OfIdSnoc(front, last, KeyOf(e));
      CreationsSnoc(OfId(front, KeyOf(e)), last);
    }
  }

  lemma {:induction false} WithdrawalsAbout(before: ShardView, ids: seq<ChannelId>, e: ElementId)
    requires forall id | id in ids :: id in before.channels
    requires Distinct(ids)
    ensures About(Withdrawals(before, ids), e)
         == if e.ChannelElement? && e.id in ids
            then [PlannedOp(RemoveChannel(e.id), before.channels[e.id].scope)] else []
  {
    hide Distinct, About;
    if ids == [] {
      AboutNone(e);
    } else {
      var n := |ids| - 1;
      var last := PlannedOp(RemoveChannel(ids[n]), before.channels[ids[n]].scope);
      LastDistinct(ids, KeyOf(e));
      WithdrawalsAbout(before, ids[..n], e);
      AboutConcat(Withdrawals(before, ids[..n]), [last], e);
      AboutOne(last, e);
    }
  }

  lemma AboutNone(e: ElementId)
    ensures About([], e) == []
  {
  }

  lemma AboutOne(p: PlannedOp, e: ElementId)
    ensures About([p], e) == if Target(p.op) == e then [p] else []
  {
    assert [p][..0] == [];
  }

  // ---------------------------------------------------------------- the plan as a whole

  lemma AdditionsAboutChannel(before: ShardView, after: ShardView, id: ChannelId)
    requires WellKeyed(before) && WellKeyed(after)
    ensures About(PlanAdditions(before, after), ChannelElement(id))
      == (if id in after.channels && !SameChannel(before, after, id) then Creations([after.channels[id]]) else [])
         + Contribution(UpdateChannels, before, after, id)
  {
    assert Creations([]) == [];
    assert id !in after.channels ==> Contribution(UpdateChannels, before, after, id) == [];
    hide Sorted, Gather, Arriving, Ordered, Creations, Contribution, About, OfId, WellKeyed;
    var e := ChannelElement(id);
    var channels, users := Sorted(after.channels.Keys), Sorted(after.users.Keys);
    var arriving := Arriving(before, after, channels);
    ArrivingOfId(before, after, channels, id);
    OrderedKeeps(arriving, before.channels.Keys, id);
    CreationsAbout(Ordered(arriving, before.channels.Keys), e);
    GatherAbout(UpdateChannels, before, after, channels, e);
    GatherAbout(AddUsers, before, after, users, e);
    GatherAbout(MoveUsers, before, after, users, e);
    GatherAbout(UpdateUsers, before, after, users, e);
    FiveAbout(Creations(Ordered(arriving, before.channels.Keys)), Gather(UpdateChannels, before, after, channels),
              Gather(AddUsers, before, after, users), Gather(MoveUsers, before, after, users),
              Gather(UpdateUsers, before, after, users), e);
  }

  lemma AdditionsAboutUser(before: ShardView, after: ShardView, s: SessionId)
    requires WellKeyed(before) && WellKeyed(after)
    ensures About(PlanAdditions(before, after), UserElement(s))
      == Contribution(AddUsers, before, after, s) + Contribution(MoveUsers, before, after, s)
         + Contribution(UpdateUsers, before, after, s)
  {
    assert s !in after.users ==>
        Contribution(AddUsers, before, after, s) == Contribution(MoveUsers, before, after, s)
        == Contribution(UpdateUsers, before, after, s) == [];
    hide Sorted, Gather, Arriving, Ordered, Creations, Contribution, About, OfId, WellKeyed;
    var e := UserElement(s);
    var channels, users := Sorted(after.channels.Keys), Sorted(after.users.Keys);
    var ordered := Ordered(Arriving(before, after, channels), before.channels.Keys);
    CreationsAbout(ordered, e);
    GatherAbout(UpdateChannels, before, after, channels, e);
    GatherAbout(AddUsers, before, after, users, e);
    GatherAbout(MoveUsers, before, after, users, e);
    GatherAbout(UpdateUsers, before, after, users, e);
    FiveAbout(Creations(ordered), Gather(UpdateChannels, before, after, channels),
              Gather(AddUsers, before, after, users), Gather(MoveUsers, before, after, users),
              Gather(UpdateUsers, before, after, users), e);
  }

  lemma UserRemovalsAbout(before: ShardView, after: ShardView, e: ElementId)
    requires WellKeyed(after)
    ensures About(PlanUserRemovals(before, after), e)
      == if e.ChannelElement? then []
         else Contribution(RehomeUsers, before, after, e.session) + Contribution(DropUsers, before, after, e.session)
  {
    var s := KeyOf(e);
    assert s !in after.users ==> Contribution(RehomeUsers, before, after, s) == [];
    assert s !in before.users ==> Contribution(DropUsers, before, after, s) == [];
    hide Sorted, Gather, Contribution, About, WellKeyed;
    var users, gone := Sorted(after.users.Keys), Sorted(before.users.Keys);
    GatherAbout(RehomeUsers, before, after, users, e);
    GatherAbout(DropUsers, before, after, gone, e);
    AboutConcat(Gather(RehomeUsers, before, after, users), Gather(DropUsers, before, after, gone), e);
  }

  lemma FiveAbout(
    c: seq<PlannedOp>, u: seq<PlannedOp>, a: seq<PlannedOp>, m: seq<PlannedOp>, p: seq<PlannedOp>, e: ElementId)
    ensures About(a, e) == [] && About(m, e) == [] && About(p, e) == [] ==>
      About(c + u + a + m + p, e) == About(c, e) + About(u, e)
    ensures About(c, e) == [] && About(u, e) == [] ==>
      About(c + u + a + m + p, e) == About(a, e) + About(m, e) + About(p, e)
  {
    hide About;
    AboutConcat(c, u, e);
    AboutConcat(c + u, a, e);
    AboutConcat(c + u + a, m, e);
    AboutConcat(c + u + a + m, p, e);
  }

  lemma RemovalsAbout(before: ShardView, after: ShardView, e: ElementId)
    ensures About(PlanChannelRemovals(before, after), e)
         == if e.ChannelElement? && Departs(before, after, e.id)
            then [PlannedOp(RemoveChannel(e.id), before.channels[e.id].scope)] else []
  {
    var depths := DepthTable(before.channels, Departing(before, after));
    var ids := DeepestFirst(depths);
    forall i, j | 0 <= i < j < |ids| ensures ids[i] != ids[j] {
      DeepestFirstOrdered(depths, i, j);
    }
    WithdrawalsAbout(before, ids, e);
  }

  lemma PlanAbout(before: ShardView, after: ShardView, e: ElementId)
    ensures About(Plan(before, after), e)
         == About(PlanAdditions(before, after), e) + About(PlanUserRemovals(before, after), e)
            + About(PlanChannelRemovals(before, after), e)
  {
    AboutConcat(PlanAdditions(before, after), PlanUserRemovals(before, after), e);
    AboutConcat(PlanAdditions(before, after) + PlanUserRemovals(before, after), PlanChannelRemovals(before, after), e);
  }

  lemma ChannelDelta(before: ShardView, after: ShardView, id: ChannelId)
    requires WellKeyed(before) && WellKeyed(after)
    ensures var e := ChannelElement(id); Delta(About(Plan(before, after), e), Look(before, e), Look(after, e))
  {
    hide Plan, PlanAdditions, PlanUserRemovals, PlanChannelRemovals, About, WellKeyed;
    var e := ChannelElement(id);
    PlanAbout(before, after, e);
    AdditionsAboutChannel(before, after, id);
    UserRemovalsAbout(before, after, e);
    RemovalsAbout(before, after, e);
    if SameChannel(before, after, id) {
      var d := Contribution(UpdateChannels, before, after, id);
      assert About(Plan(before, after), e) == d;
      ChannelPatched(before, after, id);
    } else if id in after.channels {
      assert [after.channels[id]][..0] == [];
    }
  }

  lemma ChannelPatched(before: ShardView, after: ShardView, id: ChannelId)
    requires SameChannel(before, after, id)
    ensures var e := ChannelElement(id);
      Patches(Contribution(UpdateChannels, before, after, id), Look(before, e).value, Look(after, e).value)
  {
    var was, now := before.channels[id], after.channels[id];
    var d := Contribution(UpdateChannels, before, after, id);
    assert (was.links - (was.links - now.links)) + (now.links - was.links) == now.links;
    if d == [] {
      assert was.links == now.links;
    } else {
      assert Bare(d)[..0] == [];
    }
  }

  lemma UserDelta(before: ShardView, after: ShardView, s: SessionId)
    requires WellKeyed(before) && WellKeyed(after)
    ensures var e := UserElement(s); Delta(About(Plan(before, after), e), Look(before, e), Look(after, e))
  {
    hide Plan, PlanAdditions, PlanUserRemovals, PlanChannelRemovals, About, WellKeyed;
    var e := UserElement(s);
    PlanAbout(before, after, e);
    AdditionsAboutUser(before, after, s);
    UserRemovalsAbout(before, after, e);
    RemovalsAbout(before, after, e);
    if SameUser(before, after, s) {
      assert About(Plan(before, after), e)
          == Contribution(MoveUsers, before, after, s) + Contribution(UpdateUsers, before, after, s);
      UserPatched(before, after, s);
    }
  }

  lemma UserPatched(before: ShardView, after: ShardView, s: SessionId)
    requires SameUser(before, after, s)
    ensures var e := UserElement(s);
      Patches(Contribution(MoveUsers, before, after, s) + Contribution(UpdateUsers, before, after, s),
              Look(before, e).value, Look(after, e).value)
  {
    var was, now := before.users[s], after.users[s];
    var m, p := Contribution(MoveUsers, before, after, s), Contribution(UpdateUsers, before, after, s);
    assert Bare(m + p) == Bare(m) + Bare(p);
    StepsConcat(Some(UserItem(ShowUser(was))), Bare(m), Bare(p));
    UserMoved(was, now, s, Bare(m));
    UserUpdated(was, now, Bare(p));
    hide Steps;
  }

  lemma UserMoved(was: User, now: User, s: SessionId, m: seq<PlanOp>)
    requires m == if was.channel == now.channel then [] else [MoveUser(s, now.channel)]
    ensures Steps(Some(UserItem(ShowUser(was))), m) == Some(UserItem(ShowUser(was.(channel := now.channel))))
  {
    if m != [] { assert m[..0] == []; }
  }

  lemma UserUpdated(was: User, now: User, p: seq<PlanOp>)
    requires p == if UserNoop(DiffUser(was, now)) then [] else [UpdateUser(DiffUser(was, now))]
    ensures Steps(Some(UserItem(ShowUser(was.(channel := now.channel)))), p) == Some(UserItem(ShowUser(now)))
  {
    if p != [] { assert p[..0] == []; }
  }

  lemma {:induction false} GatherKinds(p: Phase, before: ShardView, after: ShardView, keys: seq<nat>)
    ensures forall q | q in Gather(p, before, after, keys) :: IsRemoval(q.op) <==> p.RehomeUsers? || p.DropUsers?
  {
    if keys != [] {
      GatherKinds(p, before, after, keys[..|keys| - 1]);
    }
  }

  lemma {:induction false} CreationKinds(channels: seq<Channel>)
    ensures forall q | q in Creations(channels) :: q.op.CreateChannel?
  {
    if channels != [] {
      CreationKinds(channels[..|channels| - 1]);
    }
  }

  lemma {:induction false} WithdrawalKinds(before: ShardView, ids: seq<ChannelId>)
    requires forall id | id in ids :: id in before.channels
    ensures forall q | q in Withdrawals(before, ids) :: q.op.RemoveChannel?
  {
    if ids != [] {
      WithdrawalKinds(before, ids[..|ids| - 1]);
    }
  }

  lemma PlanKinds(before: ShardView, after: ShardView)
    ensures forall q | q in PlanAdditions(before, after) :: !IsRemoval(q.op)
    ensures forall q | q in PlanUserRemovals(before, after) :: q.op.RemoveUser?
    ensures forall q | q in PlanChannelRemovals(before, after) :: q.op.RemoveChannel?
  {
    hide Sorted, Gather, Ordered, Arriving, Creations, Withdrawals, DeepestFirst;
    var channels, users := Sorted(after.channels.Keys), Sorted(after.users.Keys);
    CreationKinds(Ordered(Arriving(before, after, channels), before.channels.Keys));
    GatherKinds(UpdateChannels, before, after, channels);
    GatherKinds(AddUsers, before, after, users);
    GatherKinds(MoveUsers, before, after, users);
    GatherKinds(UpdateUsers, before, after, users);
    UserRemovalKinds(before, after, users, Sorted(before.users.Keys));
    WithdrawalKinds(before, DeepestFirst(DepthTable(before.channels, Departing(before, after))));
  }

  lemma {:induction false} UserRemovalKinds(before: ShardView, after: ShardView, a: seq<nat>, b: seq<nat>)
    ensures forall q | q in Gather(RehomeUsers, before, after, a) + Gather(DropUsers, before, after, b) ::
      q.op.RemoveUser?
  {
    if a != [] {
      UserRemovalKinds(before, after, a[..|a| - 1], b);
    } else if b != [] {
      UserRemovalKinds(before, after, a, b[..|b| - 1]);
    }
  }

  /** The planner's contract: its output is right about every element, removals last. */
  lemma PlanIsDelta(before: ShardView, after: ShardView)
    requires WellKeyed(before) && WellKeyed(after)
    ensures IsDelta(Plan(before, after), before, after)
  {
    hide PlanAdditions, PlanUserRemovals, PlanChannelRemovals, About, Look, Delta;
    forall e ensures Delta(About(Plan(before, after), e), Look(before, e), Look(after, e)) {
      match e
      case ChannelElement(id) => ChannelDelta(before, after, id);
      case UserElement(s) => UserDelta(before, after, s);
    }
    PlanKinds(before, after);
    var a, b := PlanAdditions(before, after), PlanUserRemovals(before, after) + PlanChannelRemovals(before, after);
    assert Plan(before, after) == a + b;
    assert forall q | q in b :: IsRemoval(q.op);
    assert forall i | 0 <= i < |a| :: a[i] in a;
    assert forall i | 0 <= i < |b| :: b[i] in b;
  }

  /** An empty plan means exactly that no observer could tell the two views apart. */
  lemma EmptyPlanMeansAlike(before: ShardView, after: ShardView)
    requires WellKeyed(before) && WellKeyed(after)
    ensures Plan(before, after) == [] <==> Alike(before, after)
  {
    hide Plan, Look, WellKeyed;
    if Plan(before, after) == [] {
      PlanIsDelta(before, after);
      forall e ensures Look(before, e) == Look(after, e) {
        assert Delta(About([], e), Look(before, e), Look(after, e));
      }
    } else if Alike(before, after) {
      var p := Plan(before, after)[0];
      AlikeContributesNothing(before, after, Target(p.op));
      AboutHolds(Plan(before, after), 0);
    }
  }

  lemma {:induction false} AboutHolds(ops: seq<PlannedOp>, i: nat)
    requires i < |ops|
    ensures ops[i] in About(ops, Target(ops[i].op))
    decreases |ops|
  {
    if i < |ops| - 1 {
      AboutHolds(ops[..|ops| - 1], i);
    }
  }

  lemma AlikeContributesNothing(before: ShardView, after: ShardView, e: ElementId)
    requires WellKeyed(before) && WellKeyed(after) && Alike(before, after)
    ensures About(Plan(before, after), e) == []
  {
    hide Plan, PlanAdditions, PlanUserRemovals, PlanChannelRemovals, About;
    PlanAbout(before, after, e);
    UserRemovalsAbout(before, after, e);
    RemovalsAbout(before, after, e);
    assert Look(before, e) == Look(after, e);
    match e
    case ChannelElement(id) => AdditionsAboutChannel(before, after, id);
    case UserElement(s) => AdditionsAboutUser(before, after, s);
  }
}
