/** The overlay planner's contract, element by element. */
module OverlayDeltas {
  import opened Collections
  import opened Scopes
  import opened Views
  import opened Planner
  import opened Clients
  import opened Deltas

  function PrivateElement(p: OverlayPhase, key: nat): ElementId {
    if p.PatchChannels? then ChannelElement(key) else UserElement(key)
  }

  lemma PrivateContributionOn(p: OverlayPhase, before: Overlay, after: Overlay, key: nat, e: ElementId)
    requires WellKeyed(after)
    ensures On(PrivateContribution(p, before, after, key), e)
         == if PrivateElement(p, key) == e then PrivateContribution(p, before, after, key) else []
  {
    var c := PrivateContribution(p, before, after, key);
    assert |c| <= 2 && forall i | 0 <= i < |c| :: Target(c[i]) == PrivateElement(p, key);
    AllOrNothing(c, PrivateElement(p, key), e);
  }

  lemma {:induction false} AllOrNothing(ops: seq<PlanOp>, target: ElementId, e: ElementId)
    requires forall i | 0 <= i < |ops| :: Target(ops[i]) == target
    ensures On(ops, e) == if target == e then ops else []
  {
    if ops != [] {
      AllOrNothing(ops[..|ops| - 1], target, e);
      assert ops == ops[..|ops| - 1] + [ops[|ops| - 1]];
    }
  }

  lemma {:induction false} GatherPrivateOn(
    p: OverlayPhase, before: Overlay, after: Overlay, keys: seq<nat>, e: ElementId)
    requires WellKeyed(after) && Ascending(keys)
    ensures On(GatherPrivate(p, before, after, keys), e)
         == if PrivateElement(p, KeyOf(e)) == e && KeyOf(e) in keys
            then PrivateContribution(p, before, after, KeyOf(e)) else []
  {
    hide PrivateContribution, On, Ascending, WellKeyed;
    if keys == [] {
      AllOrNothing([], e, e);
    } else {
      var n := |keys| - 1;
      LastKey(keys, KeyOf(e));
      GatherPrivateOn(p, before, after, keys[..n], e);
      OnConcat(GatherPrivate(p, before, after, keys[..n]), PrivateContribution(p, before, after, keys[n]), e);
      PrivateContributionOn(p, before, after, keys[n], e);
    }
  }

  lemma NewPrivateNext(before: Overlay, after: Overlay, keys: seq<nat>)
    requires keys != []
    ensures var front, last := keys[..|keys| - 1], keys[|keys| - 1];
      NewPrivate(before, after, keys)
      == if last in after.channels && last !in before.channels
         then NewPrivate(before, after, front) + [after.channels[last]] else NewPrivate(before, after, front)
  {
  }

  lemma NothingNewPrivate(before: Overlay, after: Overlay, id: ChannelId)
    ensures OfId(NewPrivate(before, after, []), id) == []
  {
  }

  lemma {:induction false} NewPrivateOfId(before: Overlay, after: Overlay, keys: seq<nat>, id: ChannelId)
    requires WellKeyed(after) && Ascending(keys)
    ensures OfId(NewPrivate(before, after, keys), id)
         == if id in keys && id in after.channels && id !in before.channels then [after.channels[id]] else []
  {
    hide Ascending, WellKeyed, OfId, NewPrivate;
    if keys == [] {
      NothingNewPrivate(before, after, id);
    } else {
      var n := |keys| - 1;
      LastKey(keys, id);
      NewPrivateOfId(before, after, keys[..n], id);
      NewPrivateNext(before, after, keys);
      if keys[n] in after.channels && keys[n] !in before.channels {
        OwnKey(after, keys[n]);
        OfIdSnoc(NewPrivate(before, after, keys[..n]), after.channels[keys[n]], id);
      }
    }
  }

  lemma PrivateCreationsSnoc(channels: seq<Channel>, c: Channel)
    ensures PrivateCreations(channels + [c]) == PrivateCreations(channels) + [CreateChannel(c)]
  {
  }

  lemma NothingPrivate(e: ElementId, id: ChannelId)
    ensures PrivateCreations([]) == [] && On([], e) == [] && OfId([], id) == []
  {
  }

  lemma {:induction false} PrivateCreationsOn(channels: seq<Channel>, e: ElementId)
    ensures On(PrivateCreations(channels), e)
         == match e case ChannelElement(id) => PrivateCreations(OfId(channels, id)) case UserElement(_) => []
    decreases |channels|
  {
    hide On, OfId, PrivateCreations;
    if channels == [] {
      NothingPrivate(e, KeyOf(e));
    } else {
      var n := |channels| - 1;
      var front, last := channels[..n], channels[n];
      assert channels == front + [last];
      PrivateCreationsOn(front, e);
      PrivateCreationsSnoc(front, last);
      OnSnoc(PrivateCreations(front), CreateChannel(last), e);
      OfIdSnoc(front, last, KeyOf(e));
      PrivateCreationsSnoc(OfId(front, KeyOf(e)), last);
    }
  }

  lemma NothingWithdrawnOn(e: ElementId)
    ensures On(PrivateWithdrawals([]), e) == []
  {
  }

  lemma {:induction false} PrivateWithdrawalsOn(ids: seq<ChannelId>, e: ElementId)
    requires Distinct(ids)
    ensures On(PrivateWithdrawals(ids), e) == if e.ChannelElement? && e.id in ids then [RemoveChannel(e.id)] else []
    decreases |ids|
  {
    hide Distinct, On;
    if ids == [] {
      NothingWithdrawnOn(e);
    } else {
      var n := |ids| - 1;
      LastDistinct(ids, KeyOf(e));
      PrivateWithdrawalsOn(ids[..n], e);
      assert PrivateWithdrawals(ids) == PrivateWithdrawals(ids[..n]) + [RemoveChannel(ids[n])];
      OnSnoc(PrivateWithdrawals(ids[..n]), RemoveChannel(ids[n]), e);
    }
  }

  /** What the overlay plan's additions say about an element that goes from `x` to `y`. */
  ghost predicate PrivateAdditions(a: seq<PlanOp>, x: Option<Entry>, y: Option<Entry>) {
    if y.None? then a == []
    else if x.None? then |a| == 1 && IsAddition(a[0]) && Step(None, a[0]) == Some(y.value.item)
    else
      && (forall i | 0 <= i < |a| :: !IsAddition(a[i]) && !IsRemoval(a[i]))
      && Steps(Some(x.value.item), a) == Some(y.value.item)
  }

  ghost predicate PrivateRemovals(r: seq<PlanOp>, x: Option<Entry>, y: Option<Entry>) {
    if x.Some? && y.None? then |r| == 1 && IsRemoval(r[0]) else r == []
  }

  lemma NewPrivateOn(before: Overlay, after: Overlay, keys: seq<nat>, e: ElementId)
    requires WellKeyed(after) && Ascending(keys)
    ensures On(PrivateCreations(Ordered(NewPrivate(before, after, keys), {})), e)
         == if e.ChannelElement? && e.id in keys && e.id in after.channels && e.id !in before.channels
            then [CreateChannel(after.channels[e.id])] else []
  {
    hide NewPrivate, Ordered, OfId, On;
    var arriving := NewPrivate(before, after, keys);
    NewPrivateOfId(before, after, keys, KeyOf(e));
    OrderedKeeps(arriving, {}, KeyOf(e));
    PrivateCreationsOn(Ordered(arriving, {}), e);
  }

  lemma AdditionsOn(before: Overlay, after: Overlay, e: ElementId)
    requires WellKeyed(before) && WellKeyed(after)
    ensures On(PlanElements(before, after).additions, e)
         == match e
            case ChannelElement(id) =>
              (if id in after.channels && id !in before.channels then [CreateChannel(after.channels[id])] else [])
              + PrivateContribution(PatchChannels, before, after, id)
            case UserElement(s) => PrivateContribution(Trailing, before, after, s)
  {
    AbsentContributesNothing(before, after, KeyOf(e));
    hide Sorted, GatherPrivate, PrivateContribution, NewPrivate, Ordered, On, WellKeyed, DeepestFirst;
    hide PrivateCreations, PrivateWithdrawals, PrivateDepthTable;
    var channels, users := Sorted(after.channels.Keys), Sorted(after.users.Keys);
    NewPrivateOn(before, after, channels, e);
    GatherPrivateOn(PatchChannels, before, after, channels, e);
    GatherPrivateOn(Trailing, before, after, users, e);
    var c := PrivateCreations(Ordered(NewPrivate(before, after, channels), {}));
    var u, t := GatherPrivate(PatchChannels, before, after, channels), GatherPrivate(Trailing, before, after, users);
    OnConcat(c, u, e);
    OnConcat(c + u, t, e);
  }

  lemma AbsentContributesNothing(before: Overlay, after: Overlay, key: nat)
    ensures key !in after.channels ==> PrivateContribution(PatchChannels, before, after, key) == []
    ensures key !in after.users ==> PrivateContribution(Trailing, before, after, key) == []
  {
  }

  lemma RemovalsOn(before: Overlay, after: Overlay, e: ElementId)
    requires WellKeyed(before) && WellKeyed(after)
    ensures On(PlanElements(before, after).removals, e)
         == match e
            case ChannelElement(id) =>
              if id in before.channels && id !in after.channels then [RemoveChannel(id)] else []
            case UserElement(s) => if s in before.users && s !in after.users then [RemoveUser(s)] else []
  {
    hide Sorted, GatherPrivate, Ordered, On, WellKeyed, DeepestFirst;
    var users := Sorted(before.users.Keys);
    var depths := PrivateDepthTable(before.channels, before.channels.Keys - after.channels.Keys);
    var ids := DeepestFirst(depths);
    forall i, j | 0 <= i < j < |ids| ensures ids[i] != ids[j] {
      DeepestFirstOrdered(depths, i, j);
    }
    PrivateWithdrawalsOn(ids, e);
    GatherPrivateOn(DropPrivateUsers, before, after, users, e);
    OnConcat(GatherPrivate(DropPrivateUsers, before, after, users), PrivateWithdrawals(ids), e);
  }

  /** The overlay planner's contract: right about every private element. */
  lemma PlanElementsIsDelta(before: Overlay, after: Overlay, e: ElementId)
    requires WellKeyed(before) && WellKeyed(after)
    ensures PrivateAdditions(On(PlanElements(before, after).additions, e), Look(before, e), Look(after, e))
    ensures PrivateRemovals(On(PlanElements(before, after).removals, e), Look(before, e), Look(after, e))
  {
    hide PlanElements, On, WellKeyed;
    AdditionsOn(before, after, e);
    RemovalsOn(before, after, e);
    match e
    case ChannelElement(id) =>
      if id in before.channels && id in after.channels {
        PrivateChannelPatched(before, after, id);
      }
    case UserElement(s) =>
      if s in before.users && s in after.users {
        PrivateUserPatched(before, after, s);
      }
  }

  lemma PrivateChannelPatched(before: Overlay, after: Overlay, id: ChannelId)
    requires id in before.channels && id in after.channels
    ensures var e := ChannelElement(id);
      PrivateAdditions(PrivateContribution(PatchChannels, before, after, id), Look(before, e), Look(after, e))
  {
    var was, now := before.channels[id], after.channels[id];
    var d := PrivateContribution(PatchChannels, before, after, id);
    assert (was.links - (was.links - now.links)) + (now.links - was.links) == now.links;
    if d == [] {
      assert was.links == now.links;
    } else {
      assert d[..0] == [];
    }
  }

  lemma PrivateUserPatched(before: Overlay, after: Overlay, s: SessionId)
    requires s in before.users && s in after.users
    ensures var e := UserElement(s);
      PrivateAdditions(PrivateContribution(Trailing, before, after, s), Look(before, e), Look(after, e))
  {
    var was, now := before.users[s], after.users[s];
    var patch := DiffUser(was, now);
    var m: seq<PlanOp> := if was.channel == now.channel then [] else [MoveUser(s, now.channel)];
    var p: seq<PlanOp> := if UserNoop(patch) then [] else [UpdateUser(patch)];
    StepsConcat(Some(UserItem(ShowUser(was))), m, p);
    if m != [] { assert m[..0] == []; }
    if p != [] { assert p[..0] == []; }
  }

  lemma {:induction false} NothingOn(ops: seq<PlanOp>)
    requires forall e :: On(ops, e) == []
    ensures ops == []
  {
    if ops != [] {
      assert ops[|ops| - 1] in On(ops, Target(ops[|ops| - 1]));
    }
  }

  /** An element the two overlays agree about is not mentioned. */
  lemma UnchangedElement(before: Overlay, after: Overlay, e: ElementId)
    requires WellKeyed(before) && WellKeyed(after) && Look(before, e) == Look(after, e)
    ensures On(PlanElements(before, after).additions, e) == [] && On(PlanElements(before, after).removals, e) == []
  {
    hide PlanElements, On, WellKeyed;
    AdditionsOn(before, after, e);
    RemovalsOn(before, after, e);
  }

  /** Replaying the overlay onto itself says nothing. */
  lemma UnchangedOverlay(overlay: Overlay)
    requires WellKeyed(overlay)
    ensures PlanElements(overlay, overlay) == OverlayOps([], [])
  {
    var ops := PlanElements(overlay, overlay);
    hide PlanElements, On, WellKeyed;
    forall e ensures On(ops.additions, e) == [] && On(ops.removals, e) == [] {
      AdditionsOn(overlay, overlay, e);
      RemovalsOn(overlay, overlay, e);
    }
    NothingOn(ops.additions);
    NothingOn(ops.removals);
  }
}
