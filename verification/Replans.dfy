/**
 A replan from a view the client need not hold. The plan is made between `from` and `to`; the
 theorem says, element by element, exactly when it still leaves the client with `to`.
 */
module Replans {
  import opened Collections
  import opened Scopes
  import opened Views
  import opened Planner
  import opened Clients
  import opened Deltas
  import opened Composition
  import opened FastPath
  import opened PrefixSafety

  /** Wherever `x` and `y` agree, `c` agrees with them: what a patch from `x` to `y` leaves alone is already right. */
  predicate AgreesWhereUnpatched(c: Item, x: Item, y: Item) {
    match (c, x, y)
    case (ChannelItem(c), ChannelItem(x), ChannelItem(y)) =>
      && (x.parent == y.parent ==> c.parent == y.parent)
      && (x.name == y.name ==> c.name == y.name)
      && (x.position == y.position ==> c.position == y.position)
      && (x.canEnter == y.canEnter ==> c.canEnter == y.canEnter)
      && x.links * y.links <= c.links <= x.links + y.links
    case (UserItem(c), UserItem(x), UserItem(y)) =>
      && (x.channel == y.channel ==> c.channel == y.channel)
      && (x.name == y.name ==> c.name == y.name)
      && (x.flags == y.flags ==> c.flags == y.flags)
    case _ => false
  }

  /**
   The client's `c`, planned from `x` to `y`: an element in neither view must be one the client
   lacks, one patched in place must be held and right where the patch is silent, and any other is
   written or withdrawn whole.
   */
  predicate Mends(c: Option<Item>, x: Option<Entry>, y: Option<Entry>) {
    if x.None? && y.None? then c.None?
    else if x.Some? && y.Some? && x.value.scope == y.value.scope then
      c.Some? && AgreesWhereUnpatched(c.value, x.value.item, y.value.item)
    else true
  }

  // ---------------------------------------------------------------- patches on any client

  lemma LinksMended(c: set<ChannelId>, x: set<ChannelId>, y: set<ChannelId>)
    ensures (c - (x - y)) + (y - x) == y <==> x * y <= c <= x + y
  {
    var r := (c - (x - y)) + (y - x);
    if r == y {
      forall k | k in x * y ensures k in c {
        assert k in r;
      }
      forall k | k in c ensures k in x + y {
        assert k in r || k in x - y;
      }
    }
  }

  lemma ChannelPatchOn(c: ClientChannel, was: Channel, now: Channel)
    ensures PatchChannel(c, DiffChannel(was, now)) == ShowChannel(now) <==>
            AgreesWhereUnpatched(ChannelItem(c), ChannelItem(ShowChannel(was)), ChannelItem(ShowChannel(now)))
  {
    LinksMended(c.links, was.links, now.links);
  }

  lemma SilentPatch(c: ClientChannel, was: Channel, now: Channel)
    requires ChannelNoop(DiffChannel(was, now))
    ensures ShowChannel(was) == ShowChannel(now)
    ensures c == ShowChannel(now) <==>
            AgreesWhereUnpatched(ChannelItem(c), ChannelItem(ShowChannel(was)), ChannelItem(ShowChannel(now)))
  {
    assert was.links == now.links by {
      assert was.links - now.links == {} && now.links - was.links == {};
      assert forall k :: k in was.links <==> k in now.links by {
        forall k ensures k in was.links <==> k in now.links {
          assert k !in was.links - now.links && k !in now.links - was.links;
        }
      }
    }
  }

  lemma ChannelPatched(before: ShardView, after: ShardView, id: ChannelId, c: Option<Item>)
    requires SameChannel(before, after, id) && (c.Some? ==> c.value.ChannelItem?)
    ensures Steps(c, Bare(Contribution(UpdateChannels, before, after, id)))
            == Some(ChannelItem(ShowChannel(after.channels[id]))) <==>
            c.Some? && AgreesWhereUnpatched(c.value, ChannelItem(ShowChannel(before.channels[id])),
                                            ChannelItem(ShowChannel(after.channels[id])))
  {
    hide AgreesWhereUnpatched;
    var was, now := before.channels[id], after.channels[id];
    var patch := DiffChannel(was, now);
    var d := Contribution(UpdateChannels, before, after, id);
    if ChannelNoop(patch) {
      assert d == [] && Bare(d) == [];
      if c.Some? {
        SilentPatch(c.value.channel, was, now);
      }
    } else {
      assert |d| == 1 && Bare(d) == [UpdateChannel(patch)];
      StepsOne(c, UpdateChannel(patch));
      hide Steps;
      if c.Some? {
        ChannelPatchOn(c.value.channel, was, now);
      }
    }
  }

  lemma UserPatched(before: ShardView, after: ShardView, s: SessionId, c: Option<Item>)
    requires SameUser(before, after, s) && (c.Some? ==> c.value.UserItem?)
    ensures Steps(c, Bare(Contribution(MoveUsers, before, after, s) + Contribution(UpdateUsers, before, after, s)))
            == Some(UserItem(ShowUser(after.users[s]))) <==>
            c.Some?
              && AgreesWhereUnpatched(c.value, UserItem(ShowUser(before.users[s])), UserItem(ShowUser(after.users[s])))
  {
    var was, now := before.users[s], after.users[s];
    var m, p := Contribution(MoveUsers, before, after, s), Contribution(UpdateUsers, before, after, s);
    assert Bare(m + p) == Bare(m) + Bare(p);
    StepsConcat(c, Bare(m), Bare(p));
    MovedOn(c, was, now, s, Bare(m));
    UpdatedOn(Steps(c, Bare(m)), was, now, Bare(p));
    hide Steps;
  }

  lemma MovedOn(c: Option<Item>, was: User, now: User, s: SessionId, m: seq<PlanOp>)
    requires c.Some? ==> c.value.UserItem?
    requires m == if was.channel == now.channel then [] else [MoveUser(s, now.channel)]
    ensures Steps(c, m) == if c.None? || was.channel == now.channel then c
                           else Some(UserItem(c.value.user.(channel := now.channel)))
  {
    if m != [] {
      StepsOne(c, m[0]);
    }
  }

  lemma UpdatedOn(c: Option<Item>, was: User, now: User, p: seq<PlanOp>)
    requires c.Some? ==> c.value.UserItem?
    requires p == if UserNoop(DiffUser(was, now)) then [] else [UpdateUser(DiffUser(was, now))]
    ensures Steps(c, p) == if c.None? then c else Some(UserItem(PatchUser(c.value.user, DiffUser(was, now))))
  {
    if p != [] {
      StepsOne(c, p[0]);
    }
  }

  // ---------------------------------------------------------------- the plan's own operations about an element

  lemma AboutKeptChannel(before: ShardView, after: ShardView, id: ChannelId)
    requires WellKeyed(before) && WellKeyed(after) && SameChannel(before, after, id)
    ensures About(Plan(before, after), ChannelElement(id)) == Contribution(UpdateChannels, before, after, id)
  {
    hide Plan, PlanAdditions, PlanUserRemovals, PlanChannelRemovals, About, WellKeyed, Contribution;
    var e := ChannelElement(id);
    PlanAbout(before, after, e);
    AdditionsAboutChannel(before, after, id);
    UserRemovalsAbout(before, after, e);
    RemovalsAbout(before, after, e);
  }

  lemma AboutKeptUser(before: ShardView, after: ShardView, s: SessionId)
    requires WellKeyed(before) && WellKeyed(after) && SameUser(before, after, s)
    ensures About(Plan(before, after), UserElement(s))
         == Contribution(MoveUsers, before, after, s) + Contribution(UpdateUsers, before, after, s)
  {
    hide Plan, PlanAdditions, PlanUserRemovals, PlanChannelRemovals, About, WellKeyed;
    var e := UserElement(s);
    PlanAbout(before, after, e);
    AdditionsAboutUser(before, after, s);
    UserRemovalsAbout(before, after, e);
    RemovalsAbout(before, after, e);
  }

  predicate OfKind(c: Option<Item>, e: ElementId) {
    c.Some? ==> c.value.ChannelItem? == e.ChannelElement?
  }

  lemma PatchedInPlace(from: ShardView, to: ShardView, e: ElementId, c: Option<Item>)
    requires WellKeyed(from) && WellKeyed(to) && OfKind(c, e)
    requires Look(from, e).Some? && Look(to, e).Some? && Look(from, e).value.scope == Look(to, e).value.scope
    ensures Steps(c, Bare(About(Plan(from, to), e))) == Some(Look(to, e).value.item) <==>
            Mends(c, Look(from, e), Look(to, e))
  {
    hide Plan, About, WellKeyed, Steps, AgreesWhereUnpatched, Contribution;
    match e {
      case ChannelElement(id) =>
        AboutKeptChannel(from, to, id);
        ChannelPatched(from, to, id, c);
      case UserElement(s) =>
        AboutKeptUser(from, to, s);
        UserPatched(from, to, s, c);
    }
  }

  // ---------------------------------------------------------------- the whole replan

  lemma OnBare(ops: seq<PlannedOp>, e: ElementId)
    ensures On(Bare(ops), e) == Bare(About(ops, e))
  {
    hide Filter, On, About, Bare;
    FilterAll(ops);
    FilterOn(ops, {ROOT_SCOPE}, e);
    FilterAll(About(ops, e));
  }

  /** What the replan makes of one element of any client. */
  lemma ReplannedAt(from: ShardView, to: ShardView, client: Client, e: ElementId)
    ensures At(Run(client, Collapse(Bare(Plan(from, to)))), e)
         == Steps(At(client, e), Settle(Bare(About(Plan(from, to), e))))
  {
    hide Plan, Run, Collapse, Bare, About, At, Steps, Settle, On;
    RunAt(client, Collapse(Bare(Plan(from, to))), e);
    CollapseOn(Bare(Plan(from, to)), e);
    OnBare(Plan(from, to), e);
  }

  lemma NoAdditionSettles(d: seq<PlannedOp>)
    requires forall p | p in d :: !IsAddition(p.op)
    ensures Settle(Bare(d)) == Bare(d)
  {
    forall i | 0 <= i < |d| ensures !IsAddition(Bare(d)[i]) {
      assert d[i] in d;
    }
  }

  lemma SettledDelta(d: seq<PlannedOp>, x: Option<Entry>, y: Option<Entry>, c: Option<Item>)
    requires Delta(d, x, y)
    ensures x.None? && y.None? ==> Steps(c, Settle(Bare(d))) == c
    ensures x.Some? && y.Some? && x.value.scope == y.value.scope ==> Settle(Bare(d)) == Bare(d)
    ensures !(x.None? && y.None?) && !(x.Some? && y.Some? && x.value.scope == y.value.scope) ==>
            Steps(c, Settle(Bare(d))) == if y.Some? then Some(y.value.item) else None
  {
    if x.None? && y.None? {
      assert Bare(d) == [];
    } else if x.None? {
      assert Bare(d) == [] + [d[0].op] + [];
      SettleSingle([], d[0].op, []);
      StepsOne(c, d[0].op);
    } else if y.None? {
      assert Bare(d) == [d[0].op];
      NoAdditionSettles(d);
      StepsOne(c, d[0].op);
    } else if x.value.scope == y.value.scope {
      NoAdditionSettles(d);
    } else {
      assert Bare(d) == [] + [d[0].op] + [d[1].op];
      SettleSingle([], d[0].op, [d[1].op]);
      StepsOne(c, d[0].op);
    }
  }

  lemma KindOfAt(client: Client, e: ElementId)
    ensures OfKind(At(client, e), e)
  {
  }

  lemma ReplannedElement(from: ShardView, to: ShardView, client: Client, e: ElementId)
    requires WellKeyed(from) && WellKeyed(to)
    ensures At(Run(client, Collapse(Bare(Plan(from, to)))), e) == At(Show(to), e) <==>
            Mends(At(client, e), Look(from, e), Look(to, e))
  {
    ShownAt(to, {}, EMPTY_VIEW, e);
    KindOfAt(client, e);
    hide Plan, Run, Collapse, Bare, About, At, Steps, Settle, Look, WellKeyed, Show, AgreesWhereUnpatched, OfKind;
    PlanIsDelta(from, to);
    assert Delta(About(Plan(from, to), e), Look(from, e), Look(to, e));
    ReplannedAt(from, to, client, e);
    SettledDelta(About(Plan(from, to), e), Look(from, e), Look(to, e), At(client, e));
    if Look(from, e).Some? && Look(to, e).Some? && Look(from, e).value.scope == Look(to, e).value.scope {
      PatchedInPlace(from, to, e, At(client, e));
    }
  }

  /** An element of neither view is none of the plan's business. */
  lemma UnplannedStays(from: ShardView, to: ShardView, client: Client, e: ElementId)
    requires WellKeyed(from) && WellKeyed(to) && Look(from, e).None? && Look(to, e).None?
    ensures At(Run(client, Collapse(Bare(Plan(from, to)))), e) == At(client, e)
  {
    hide Plan, Run, Collapse, Bare, About, At, Steps, Settle, Look, WellKeyed;
    PlanIsDelta(from, to);
    assert Delta(About(Plan(from, to), e), Look(from, e), Look(to, e));
    ReplannedAt(from, to, client, e);
    SettledDelta(About(Plan(from, to), e), Look(from, e), Look(to, e), At(client, e));
  }

  ghost predicate AllMend(client: Client, from: ShardView, to: ShardView) {
    forall e :: Mends(At(client, e), Look(from, e), Look(to, e))
  }

  /** A replan from `from` to `to` leaves any client with `to` if and only if every element mends. */
  lemma ReplanExactWhen(from: ShardView, to: ShardView, client: Client)
    requires WellKeyed(from) && WellKeyed(to)
    ensures Run(client, Collapse(Bare(Plan(from, to)))) == Show(to) <==> AllMend(client, from, to)
  {
    hide Plan, Run, Collapse, Bare, At, Look, WellKeyed, Show, Mends;
    var result := Run(client, Collapse(Bare(Plan(from, to))));
    forall e ensures At(result, e) == At(Show(to), e) <==> Mends(At(client, e), Look(from, e), Look(to, e)) {
      ReplannedElement(from, to, client, e);
    }
    if AllMend(client, from, to) {
      SameEverywhere(result, Show(to));
    }
  }
}
