/**
 Accepted renders in which a private batch goes through an unsafe state. In one, a private channel
 is created before the private channel it hangs from, because another connection's overlay named
 it first and identifiers decide the order. In the other, a private channel is removed while a
 private user who is about to move still sits in it.
 */
module PrivateOrderExample {
  import opened Collections
  import opened Scopes
  import opened Views
  import I = Identifiers
  import opened Planner
  import opened Clients
  import opened FastPath
  import opened Ordering
  import opened PrefixSafety
  import B = Builds
  import R = BuildRuns
  import Routing
  import Visibility
  import Trees = OverlayTrees
  import opened OverlayLeaving
  import opened OverlayArriving
  import opened OverlayPushes

  const HALL := ShardView(map[0 := B.NewChannel(ROOT, ROOT, ROOT, [], "")], map[])
  const EVERYTHING: ScopeSet := {ROOT_SCOPE}
  const WATCHING: Observations := map[5 := EVERYTHING, 6 := EVERYTHING]

  // ---------------------------------------------------------------- the parent is younger

  /** Key 1 is placed for connection 6 first; for connection 5 it then hangs from key 2. */
  const YOUNG_PARENT := [
    R.RootStep(""), R.PrivateChannelStep(6, B.ROOT_HANDLE, 1, ""), R.PrivateChannelStep(5, B.ROOT_HANDLE, 2, ""),
    R.PrivateChannelStep(5, B.Handle(2, []), 1, "")]

  const NESTED := ShardView(map[2 := B.NewChannel(2, 2, ROOT, [], ""), 1 := B.NewChannel(1, 1, 2, [], "")], map[])

  lemma YoungStates()
    ensures var s := YOUNG_PARENT;
      var p := R.After(R.After(R.After(R.After(R.Begin(I.NEW_IDS, 0), s[0]), s[1]), s[2]), s[3]);
      && !p.strayed && p.draft.error.None? && p.draft.rooted && p.draft.audio == Routing.NO_AUDIO
      && p.draft.view == HALL
      && p.draft.overlays == map[6 := ShardView(map[1 := B.NewChannel(1, 1, ROOT, [], "")], map[]), 5 := NESTED]
  {
    var s := YOUNG_PARENT;
    var p := R.After(R.After(R.Begin(I.NEW_IDS, 0), s[0]), s[1]);
    assert p.draft.ids == I.Ids(map[(0, 1) := 1], map[], Some(2), Some(1));
    assert p.draft.overlays == map[6 := ShardView(map[1 := B.NewChannel(1, 1, ROOT, [], "")], map[])];
    var q := R.After(p, s[2]);
    assert q.draft.ids == I.Ids(map[(0, 1) := 1, (0, 2) := 2], map[], Some(3), Some(1));
    assert q.draft.overlays[5] == ShardView(map[2 := B.NewChannel(2, 2, ROOT, [], "")], map[]);
    var r := R.After(q, s[3]);
    assert I.AllocChannel(q.draft.ids, 0, 1) == (q.draft.ids, Ok(1));
    assert r.draft.overlays[5] == NESTED;
    assert r.draft.overlays == map[6 := p.draft.overlays[6], 5 := NESTED];
  }

  lemma PlainAccepted(d: B.Draft)
    requires d.error.None? && d.rooted && d.audio == Routing.NO_AUDIO && d.view == HALL
    requires forall c | c in d.overlays :: c in WATCHING && 0 !in d.overlays[c].channels
    requires forall c | c in d.overlays :: B.RefersToSeen(HALL, d.overlays[c], EVERYTHING)
    ensures B.Accepted(d, WATCHING)
  {
    hide B.RefersToSeen, B.SightOf;
    assert Visibility.Accepts(Routing.NO_AUDIO, B.SightOf(d.view, d.overlays, WATCHING));
    hide Visibility.Accepts;
    forall c | c in d.overlays ensures Observed(WATCHING, c) == EVERYTHING && Disjoint(d.view, d.overlays[c]) {
    }
  }

  lemma HallSeen()
    ensures forall overlay: Overlay :: B.InReach(HALL, overlay, EVERYTHING, 0)
    ensures Restrict(HALL, EVERYTHING) == HALL
  {
    RootSeesAll([]);
  }

  lemma HallIsTree()
    ensures WellKeyed(HALL) && Tree(HALL) && ClosedView(HALL)
  {
    assert Ranked(HALL, map[0 := 0]);
  }

  /** The hall and nothing else, on both sides of a push. */
  lemma HallStands(was: Overlay, now: Overlay)
    requires WellKeyed(was) && WellKeyed(now) && 0 !in was.channels && NoOwnParent(now) && 0 !in now.channels
    requires Trees.TreeShaped(was) && ClosedView(Compose(HALL, now))
    ensures Across(HALL, HALL, EVERYTHING, was, now)
  {
    hide ClosedView, Tree, WellKeyed, NoOwnParent, Trees.TreeShaped, Compose, Restrict;
    HallSeen();
    HallIsTree();
  }

  lemma NestedIs()
    ensures WellKeyed(NESTED) && NoOwnParent(NESTED) && Trees.TreeShaped(NESTED)
    ensures B.RefersToSeen(HALL, NESTED, EVERYTHING)
    ensures !BornInOrder(EMPTY_VIEW, NESTED)
  {
    HallSeen();
    var rank: map<ChannelId, nat> := map[2 := 0, 1 := 1];
    assert Trees.HangsWithin(NESTED, rank, 1) && Trees.HangsWithin(NESTED, rank, 2);
    assert Trees.RankedWithin(NESTED, rank);
    assert 1 in Newborn(EMPTY_VIEW, NESTED) && 2 in Newborn(EMPTY_VIEW, NESTED);
  }

  lemma NestedClosed()
    ensures ClosedView(Compose(HALL, NESTED))
  {
    var v := Compose(HALL, NESTED);
    assert v.channels == map[
      0 := B.NewChannel(ROOT, ROOT, ROOT, [], ""), 2 := B.NewChannel(2, 2, ROOT, [], ""),
      1 := B.NewChannel(1, 1, 2, [], "")];
  }

  lemma NothingStands()
    ensures WellKeyed(EMPTY_VIEW) && Trees.TreeShaped(EMPTY_VIEW)
  {
    assert Trees.RankedWithin(EMPTY_VIEW, map[]);
  }

  /** The render is accepted, and taking connection 5 to it creates a channel below one it does not hold. */
  lemma ParentBornTooLate()
    ensures var p := R.Run(R.Begin(I.NEW_IDS, 0), YOUNG_PARENT);
      && R.AllAllowed(R.Begin(I.NEW_IDS, 0), YOUNG_PARENT) && !p.strayed && B.Accepted(p.draft, WATCHING)
      && p.draft.view == HALL && OverlayIn(p.draft.overlays, 5) == NESTED
    ensures Trees.TreeShaped(NESTED)
    ensures !SafeRun(Held(HALL, EVERYTHING, EMPTY_VIEW),
                     Transition(Plan(HALL, HALL), EVERYTHING, EMPTY_VIEW, NESTED))
  {
    hide R.After, B.Accepted, Trees.TreeShaped, B.RefersToSeen, SafeRun, Held, Transition, Plan, BornInOrder, Across;
    hide NoOwnParent, WellKeyed, ClosedView, Compose;
    var start := R.Begin(I.NEW_IDS, 0);
    var a, b, c, d := YOUNG_PARENT[0], YOUNG_PARENT[1], YOUNG_PARENT[2], YOUNG_PARENT[3];
    YoungStates();
    R.RunNext(start, [], a);
    R.RunNext(start, [a], b);
    R.RunNext(start, [a, b], c);
    R.RunNext(start, [a, b, c], d);
    hide R.Run, R.AllAllowed;
    assert [] + [a] == [a] && [a] + [b] == [a, b] && [a, b] + [c] == [a, b, c] && [a, b, c] + [d] == YOUNG_PARENT;
    NestedIs();
    AloneRefers();
    PlainAccepted(R.After(R.After(R.After(R.After(start, a), b), c), d).draft);
    NothingStands();
    NestedClosed();
    HallStands(EMPTY_VIEW, NESTED);
    ChangingPushSafe(HALL, HALL, EVERYTHING, EMPTY_VIEW, NESTED);
  }

  lemma AloneRefers()
    ensures B.RefersToSeen(HALL, ShardView(map[1 := B.NewChannel(1, 1, ROOT, [], "")], map[]), EVERYTHING)
  {
    HallSeen();
  }

  // ---------------------------------------------------------------- the guest is moved too late

  const GUEST := Synthetic(9)

  /** A private channel with a private guest in it, then the guest alone in the hall. */
  const SEATED := [
    R.RootStep(""), R.PrivateChannelStep(5, B.ROOT_HANDLE, 1, ""), R.PrivateUserStep(5, B.Handle(1, []), GUEST, "")]
  const STANDING := [R.RootStep(""), R.PrivateUserStep(5, B.ROOT_HANDLE, GUEST, "")]

  const AT_TABLE := ShardView(map[1 := B.NewChannel(1, 1, ROOT, [], "")], map[1 := B.NewUser(GUEST, 1, 1, [], "")])
  const IN_HALL := ShardView(map[], map[1 := B.NewUser(GUEST, 1, ROOT, [], "")])
  const SEATED_IDS := I.Ids(map[(0, 1) := 1], map[GUEST := 1], Some(2), Some(2))

  lemma SeatedStates()
    ensures var p := R.After(R.After(R.After(R.Begin(I.NEW_IDS, 0), SEATED[0]), SEATED[1]), SEATED[2]);
      && !p.strayed && p.draft.error.None? && p.draft.rooted && p.draft.audio == Routing.NO_AUDIO
      && p.draft.view == HALL && p.draft.overlays == map[5 := AT_TABLE] && p.draft.ids == SEATED_IDS
  {
    var p := R.After(R.After(R.Begin(I.NEW_IDS, 0), SEATED[0]), SEATED[1]);
    assert p.draft.ids == I.Ids(map[(0, 1) := 1], map[], Some(2), Some(1));
    assert p.draft.overlays == map[5 := ShardView(map[1 := B.NewChannel(1, 1, ROOT, [], "")], map[])];
    var q := R.After(p, SEATED[2]);
    assert q.draft.overlays[5] == AT_TABLE;
    assert q.draft.overlays == map[5 := AT_TABLE];
  }

  lemma StandingStates()
    ensures var p := R.After(R.After(R.Begin(SEATED_IDS, 0), STANDING[0]), STANDING[1]);
      && !p.strayed && p.draft.error.None? && p.draft.rooted && p.draft.audio == Routing.NO_AUDIO
      && p.draft.view == HALL && p.draft.overlays == map[5 := IN_HALL]
  {
    var p := R.After(R.Begin(SEATED_IDS, 0), STANDING[0]);
    assert I.AllocSession(p.draft.ids, GUEST) == (p.draft.ids, Ok(1));
    var q := R.After(p, STANDING[1]);
    assert q.draft.overlays[5] == IN_HALL;
    assert q.draft.overlays == map[5 := IN_HALL];
  }

  lemma GuestOverlays()
    ensures WellKeyed(AT_TABLE) && Trees.TreeShaped(AT_TABLE) && B.RefersToSeen(HALL, AT_TABLE, EVERYTHING)
    ensures WellKeyed(IN_HALL) && NoOwnParent(IN_HALL) && B.RefersToSeen(HALL, IN_HALL, EVERYTHING)
    ensures !NoneLeftHanging(AT_TABLE, IN_HALL)
  {
    HallSeen();
    assert Trees.HangsWithin(AT_TABLE, map[1 := 0], 1);
    assert Trees.RankedWithin(AT_TABLE, map[1 := 0]);
    assert 1 in AT_TABLE.users && 1 in IN_HALL.users && Goes(AT_TABLE, IN_HALL, AT_TABLE.users[1].channel);
  }

  lemma InHallClosed()
    ensures ClosedView(Compose(HALL, IN_HALL))
  {
    var v := Compose(HALL, IN_HALL);
    assert v.channels == HALL.channels && v.users == IN_HALL.users;
  }

  /** Two renders of one shard, both accepted; between them the table is taken away with the guest still seated. */
  lemma GuestMovedTooLate()
    ensures var p := R.Run(R.Begin(I.NEW_IDS, 0), SEATED);
      && R.AllAllowed(R.Begin(I.NEW_IDS, 0), SEATED) && !p.strayed && B.Accepted(p.draft, WATCHING)
      && p.draft.ids == SEATED_IDS && p.draft.view == HALL && OverlayIn(p.draft.overlays, 5) == AT_TABLE
    ensures var q := R.Run(R.Begin(SEATED_IDS, 0), STANDING);
      && R.AllAllowed(R.Begin(SEATED_IDS, 0), STANDING) && !q.strayed && B.Accepted(q.draft, WATCHING)
      && q.draft.view == HALL && OverlayIn(q.draft.overlays, 5) == IN_HALL
    ensures !SafeRun(Held(HALL, EVERYTHING, AT_TABLE),
                     Transition(Plan(HALL, HALL), EVERYTHING, AT_TABLE, IN_HALL))
  {
    hide R.After, B.Accepted, Trees.TreeShaped, B.RefersToSeen, SafeRun, Held, Transition, Plan, NoneLeftHanging;
    hide NoOwnParent, WellKeyed, ClosedView, Compose, Across;
    var start, later := R.Begin(I.NEW_IDS, 0), R.Begin(SEATED_IDS, 0);
    var a, b, c, d, e := SEATED[0], SEATED[1], SEATED[2], STANDING[0], STANDING[1];
    SeatedStates();
    StandingStates();
    R.RunNext(start, [], a);
    R.RunNext(start, [a], b);
    R.RunNext(start, [a, b], c);
    R.RunNext(later, [], d);
    R.RunNext(later, [d], e);
    hide R.Run, R.AllAllowed;
    assert [] + [a] == [a] && [a] + [b] == [a, b] && [a, b] + [c] == SEATED;
    assert [] + [d] == [d] && [d] + [e] == STANDING;
    GuestOverlays();
    PlainAccepted(R.After(R.After(R.After(start, a), b), c).draft);
    PlainAccepted(R.After(R.After(later, d), e).draft);
    InHallClosed();
    HallStands(AT_TABLE, IN_HALL);
    ChangingPushSafe(HALL, HALL, EVERYTHING, AT_TABLE, IN_HALL);
  }
}
