/**
 The additions half of an overlay's plan: private channels are created in the order of their
 identifiers, because the ordering pass starts from an empty view and gives up at once. The half
 is safe exactly when every new private channel's identifier is larger than its new parent's.
 */
module OverlayArriving {
  import opened Collections
  import opened Scopes
  import opened Views
  import opened Planner
  import opened Clients
  import opened Deltas
  import opened OverlayDeltas
  import opened Composition
  import opened FastPath
  import opened Ordering
  import opened PrefixSafety
  import opened Emission

  function Newborn(was: Overlay, now: Overlay): set<ChannelId> {
    now.channels.Keys - was.channels.Keys
  }

  /** No private channel is its own parent. */
  ghost predicate NoOwnParent(v: ShardView) {
    forall id | id in v.channels :: v.channels[id].parent != id
  }

  // ---------------------------------------------------------------- the order of creation

  lemma {:induction false} NewbornRising(was: Overlay, now: Overlay, keys: seq<nat>)
    requires WellKeyed(now) && Ascending(keys)
    ensures var cs := NewPrivate(was, now, keys);
      && Rising(cs)
      && (forall c | c in cs :: c.id in keys && c.id in Newborn(was, now) && now.channels[c.id] == c)
      && forall id | id in keys && id in Newborn(was, now) :: now.channels[id] in cs
    decreases |keys|
  {
    if keys != [] {
      var n := |keys| - 1;
      NewbornRising(was, now, keys[..n]);
      assert keys == keys[..n] + [keys[n]];
    }
  }

  /** From an empty view a pass places nothing. */
  lemma {:induction false} NothingToStand(cs: seq<Channel>)
    requires forall c | c in cs :: c.parent != c.id
    ensures Pass(cs, {}).0 == []
    decreases |cs|
  {
    if cs != [] {
      var n := |cs| - 1;
      NothingToStand(cs[..n]);
      assert cs[n] in cs;
      assert Ids([]) == {};
    }
  }

  function Births(was: Overlay, now: Overlay): seq<Channel> {
    NewPrivate(was, now, Sorted(now.channels.Keys))
  }

  lemma BirthsAre(was: Overlay, now: Overlay)
    requires WellKeyed(now) && NoOwnParent(now)
    ensures var cs := Births(was, now);
      && Rising(cs) && Ids(cs) == Newborn(was, now)
      && (forall c | c in cs :: c.id in now.channels && now.channels[c.id] == c)
      && Ordered(cs, {}) == cs
  {
    hide NewPrivate, Pass, Rising, Sorted;
    NewbornRising(was, now, Sorted(now.channels.Keys));
    var cs := Births(was, now);
    NothingToStand(cs);
    forall id | id in Newborn(was, now) ensures id in Ids(cs) {
      assert id in Sorted(now.channels.Keys);
      assert now.channels[id] in cs;
    }
  }

  /**
   The order of the additions half: channels are created before anything else is said, and among
   them the smaller identifier first.
   */
  lemma AdditionOrder(was: Overlay, now: Overlay, i: nat, j: nat)
    requires WellKeyed(now) && NoOwnParent(now)
    requires i < |PlanElements(was, now).additions| && j < |PlanElements(was, now).additions|
    ensures var ops := PlanElements(was, now).additions;
      && (ops[i].CreateChannel? && !ops[j].CreateChannel? ==> i < j)
      && (ops[i].CreateChannel? && ops[j].CreateChannel? ==> ops[i].channel.id < ops[j].channel.id ==> i < j)
  {
    hide PlanElements, GatherPrivate, Births, Ordered, Sorted;
    var cs := Births(was, now);
    BirthsAre(was, now);
    AdditionsAre(was, now);
    var first, rest := PrivateCreations(cs), Settled(was, now);
    SettledMembers(was, now);
    var ops := PlanElements(was, now).additions;
    assert forall k | 0 <= k < |cs| :: ops[k] == CreateChannel(cs[k]);
    assert forall k | |cs| <= k < |ops| :: ops[k] == rest[k - |cs|] && ops[k] in rest;
  }

  /** What follows the creations: channel patches, then the users. */
  function Settled(was: Overlay, now: Overlay): seq<PlanOp> {
    GatherPrivate(PatchChannels, was, now, Sorted(now.channels.Keys))
    + GatherPrivate(Trailing, was, now, Sorted(now.users.Keys))
  }

  lemma AdditionsAre(was: Overlay, now: Overlay)
    requires WellKeyed(now) && NoOwnParent(now)
    ensures PlanElements(was, now).additions == PrivateCreations(Births(was, now)) + Settled(was, now)
  {
    BirthsAre(was, now);
    hide GatherPrivate, Ordered, Sorted, NewPrivate, DeepestFirst, NoOwnParent, WellKeyed;
  }

  /** Everything the overlay's own elements refer to. */
  ghost predicate RefersInto(v: ShardView, k: set<ChannelId>) {
    && (forall id {:trigger v.channels[id]} | id in v.channels :: v.channels[id].parent in k)
    && (forall s {:trigger v.users[s]} | s in v.users :: v.users[s].channel in k)
  }

  lemma {:induction false} GatheredRefers(
    p: OverlayPhase, was: Overlay, now: Overlay, keys: seq<nat>, k: set<ChannelId>)
    requires RefersInto(now, k)
    ensures forall op | op in GatherPrivate(p, was, now, keys) :: Harmless(op, k)
    decreases |keys|
  {
    if keys != [] {
      var n := |keys| - 1;
      GatheredRefers(p, was, now, keys[..n], k);
      ContributionRefers(p, was, now, keys[n], k);
    }
  }

  lemma ContributionRefers(p: OverlayPhase, was: Overlay, now: Overlay, key: nat, k: set<ChannelId>)
    requires RefersInto(now, k)
    ensures forall op | op in PrivateContribution(p, was, now, key) :: Harmless(op, k)
  {
  }

  lemma SettledHarmless(was: Overlay, now: Overlay, k: set<ChannelId>)
    requires RefersInto(now, k)
    ensures forall op | op in Settled(was, now) :: Harmless(op, k)
  {
    hide GatherPrivate, Harmless, RefersInto, Sorted;
    GatheredRefers(PatchChannels, was, now, Sorted(now.channels.Keys), k);
    GatheredRefers(Trailing, was, now, Sorted(now.users.Keys), k);
  }

  function Referred(v: ShardView): set<ChannelId> {
    (set id | id in v.channels :: v.channels[id].parent) + (set s | s in v.users :: v.users[s].channel)
  }

  lemma SettledMembers(was: Overlay, now: Overlay)
    ensures forall op | op in Settled(was, now) :: !op.CreateChannel?
  {
    hide Settled;
    SettledHarmless(was, now, Referred(now));
  }

  // ---------------------------------------------------------------- safe at every prefix

  predicate HasParent(held: set<ChannelId>, cs: seq<Channel>, i: nat)
    requires i < |cs|
  {
    cs[i].parent == cs[i].id || cs[i].parent in held + Ids(cs[..i])
  }

  lemma {:induction false} BirthsSafe(c: Client, cs: seq<Channel>)
    ensures SafeRun(c, PrivateCreations(cs)) <==> forall i | 0 <= i < |cs| :: HasParent(c.channels.Keys, cs, i)
    ensures Run(c, PrivateCreations(cs)).channels.Keys == c.channels.Keys + Ids(cs)
    decreases |cs|
  {
    hide SafeRun, Run;
    if cs == [] {
      NothingBorn(c);
    } else {
      var front, last := cs[..|cs| - 1], cs[|cs| - 1];
      assert cs == front + [last];
      BirthsSafe(c, front);
      PrivateCreationsSnoc(front, last);
      CreateOne(c, PrivateCreations(front), last);
      IdsNext(front, last);
      forall i | 0 <= i < |front| ensures HasParent(c.channels.Keys, cs, i) <==> HasParent(c.channels.Keys, front, i) {
        assert cs[i] == front[i] && cs[..i] == front[..i];
      }
      assert HasParent(c.channels.Keys, cs, |front|) <==>
        last.parent == last.id || last.parent in c.channels.Keys + Ids(front);
      hide HasParent;
    }
  }

  lemma NothingBorn(c: Client)
    ensures PrivateCreations([]) == [] && SafeRun(c, []) && Run(c, []) == c && Ids([]) == {}
  {
  }

  /** A new private channel hangs from an older one: smaller is older. */
  ghost predicate BornInOrder(was: Overlay, now: Overlay) {
    forall id | id in Newborn(was, now) :: now.channels[id].parent in Newborn(was, now) ==> now.channels[id].parent < id
  }

  lemma HasParentWhen(c: Client, was: Overlay, now: Overlay, i: nat)
    requires WellKeyed(now) && NoOwnParent(now) && i < |Births(was, now)|
    requires c.channels.Keys !! Newborn(was, now)
    requires RefersInto(now, c.channels.Keys + Newborn(was, now))
    ensures var cs := Births(was, now);
      HasParent(c.channels.Keys, cs, i) <==> (cs[i].parent in Newborn(was, now) ==> cs[i].parent < cs[i].id)
  {
    hide Births, Ordered, Rising;
    var cs := Births(was, now);
    BirthsAre(was, now);
    BeforeInRising(cs, i, cs[i].parent);
    assert cs[i] in cs;
  }

  lemma BirthsInOrder(c: Client, was: Overlay, now: Overlay)
    requires WellKeyed(now) && NoOwnParent(now)
    requires c.channels.Keys !! Newborn(was, now)
    requires RefersInto(now, c.channels.Keys + Newborn(was, now))
    ensures SafeRun(c, PrivateCreations(Births(was, now))) <==> BornInOrder(was, now)
  {
    hide SafeRun, Births, PrivateCreations, Ordered, Rising, HasParent, RefersInto, WellKeyed, NoOwnParent;
    var cs := Births(was, now);
    BirthsAre(was, now);
    BirthsSafe(c, cs);
    forall i | 0 <= i < |cs|
      ensures cs[i].id in Newborn(was, now) && now.channels[cs[i].id] == cs[i]
      ensures HasParent(c.channels.Keys, cs, i) <==> (cs[i].parent in Newborn(was, now) ==> cs[i].parent < cs[i].id)
    {
      assert cs[i] in cs && cs[i].id in Ids(cs);
      HasParentWhen(c, was, now, i);
    }
    forall id | id in Newborn(was, now)
      ensures exists i | 0 <= i < |cs| :: cs[i] == now.channels[id] && cs[i].id == id
    {
      assert id in Ids(cs);
      var b :| b in cs && b.id == id;
      var i :| 0 <= i < |cs| && cs[i] == b;
    }
  }

  /**
   For a client that holds everything the overlay refers to except what is about to be created:
   every prefix of the additions half is safe if and only if new channels hang from smaller ones.
   */
  lemma ArrivingSafe(c: Client, was: Overlay, now: Overlay)
    requires WellKeyed(now) && NoOwnParent(now)
    requires c.channels.Keys !! Newborn(was, now)
    requires RefersInto(now, c.channels.Keys + Newborn(was, now))
    ensures SafeRun(c, PlanElements(was, now).additions) <==> BornInOrder(was, now)
  {
    hide PlanElements, SafeRun, Run, Births, Settled, PrivateCreations, Harmless, Ordered, Rising, Newborn, HasParent;
    hide RefersInto, WellKeyed, NoOwnParent, BornInOrder;
    var cs, k := Births(was, now), c.channels.Keys + Newborn(was, now);
    BirthsAre(was, now);
    AdditionsAre(was, now);
    BirthsSafe(c, cs);
    BirthsInOrder(c, was, now);
    SettledHarmless(was, now, k);
    HarmlessRun(Run(c, PrivateCreations(cs)), Settled(was, now), k);
    SafeParts(c, PrivateCreations(cs), Settled(was, now));
  }
}
