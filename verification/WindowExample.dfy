/**
 Three versions of a view: a channel appears in the second and is gone in the third. A client that
 replays both versions at once is left with the channel; and one that had it before, and has it as
 a private channel by the end, is left with the shared one.
 */
module WindowExample {
  import opened Collections
  import opened Scopes
  import opened Views
  import opened Planner
  import opened Clients
  import opened Deltas
  import opened Composition
  import opened FastPath
  import opened OverlayDeltas
  import opened Windows
  import opened Pushes

  const HALL := Channel(ROOT, ROOT, ROOT, [], "", 0, true, true, {})
  const ROOM := Channel(1, 1, ROOT, [], "", 0, true, true, {})
  const QUIET := ShardView(map[0 := HALL], map[])
  const BUSY := ShardView(map[0 := HALL, 1 := ROOM], map[])

  const VIEWS := [QUIET, BUSY, QUIET]
  const EVERYTHING: ScopeSet := {ROOT_SCOPE}

  function Versions(): seq<seq<PlannedOp>> {
    [Plan(QUIET, BUSY), Plan(BUSY, QUIET)]
  }

  lemma IsChain()
    ensures Chain(Versions(), VIEWS)
  {
    hide Plan;
    PlanIsDelta(QUIET, BUSY);
    PlanIsDelta(BUSY, QUIET);
  }

  lemma RoomIsLeftOver()
    ensures Leftover(VIEWS, EVERYTHING, ChannelElement(1))
  {
    RootSeesAll([]);
    hide Sees;
    assert Arrives(VIEWS, EVERYTHING, ChannelElement(1), 0);
  }

  lemma LastSeenRoom()
    ensures LastSeen(VIEWS, EVERYTHING, ChannelElement(1), 2) == Some(ChannelItem(ShowChannel(ROOM)))
  {
    RootSeesAll([]);
    hide Sees;
    assert SeenAt(VIEWS, EVERYTHING, ChannelElement(1), 2).None?;
    assert SeenAt(VIEWS, EVERYTHING, ChannelElement(1), 1) == Some(ChannelItem(ShowChannel(ROOM)));
  }

  /** The replay leaves the room behind, and so is not the target view. */
  lemma WindowLeavesRoom()
    ensures Chain(Versions(), VIEWS)
    ensures At(Replayed(Versions(), VIEWS, EVERYTHING), ChannelElement(1)) == Some(ChannelItem(ShowChannel(ROOM)))
    ensures At(Show(Restrict(VIEWS[2], EVERYTHING)), ChannelElement(1)).None?
    ensures Replayed(Versions(), VIEWS, EVERYTHING) != Show(Restrict(VIEWS[2], EVERYTHING))
  {
    ShownAt(VIEWS[2], EVERYTHING, EMPTY_VIEW, ChannelElement(1));
    hide Plan, Replayed, Restrict, Show, At, Leftover, LastSeen, Sees;
    IsChain();
    RoomIsLeftOver();
    LastSeenRoom();
    ReplayWindow(Versions(), VIEWS, EVERYTHING);
  }

  // ---------------------------------------------------------------- a room that ends up private

  const COMES_AND_GOES := [BUSY] + VIEWS
  const PRIVATE_ROOM := ShardView(map[1 := ROOM.(name := "b")], map[])

  function AllVersions(): seq<seq<PlannedOp>> {
    [Plan(BUSY, QUIET)] + Versions()
  }

  lemma IsLongerChain()
    ensures Chain(AllVersions(), COMES_AND_GOES)
    ensures AllVersions()[1..] == Versions() && COMES_AND_GOES[1..] == VIEWS
  {
    hide Plan;
    PlanIsDelta(QUIET, BUSY);
    PlanIsDelta(BUSY, QUIET);
  }

  lemma CutAtOnce()
    ensures Cut(COMES_AND_GOES, EVERYTHING, 0) == 1
  {
    RootSeesAll([]);
    hide Sees;
    assert Leaves(COMES_AND_GOES, EVERYTHING, ChannelElement(1), 0);
  }

  lemma RoomUnseenAtFirst()
    ensures SeenAt(VIEWS, EVERYTHING, ChannelElement(1), 0).None? && |Versions()| == 2 && Versions()[..2] == Versions()
  {
    hide Plan;
  }

  /** What the shared versions after the splice make of the private room. */
  lemma RoomOverwritten(s: Option<Item>)
    ensures Steps(s, Part(WindowOps(Versions(), EVERYTHING, ChannelElement(1)), false))
         == Some(ChannelItem(ShowChannel(ROOM)))
  {
    hide Versions, WindowOps, Steps, Part, LastSeen, LastSeenOr, Sees, SeenAt, Chain, ShowChannel;
    IsChain();
    RoomUnseenAtFirst();
    WindowFrom(Versions(), VIEWS, EVERYTHING, ChannelElement(1), 2, s);
    LastSeenRoom();
    LastSeenFirst(VIEWS, EVERYTHING, ChannelElement(1), 2, s);
  }

  lemma PrivateRoomIsAnother()
    ensures Look(EMPTY_VIEW, ChannelElement(1)).None? && Look(PRIVATE_ROOM, ChannelElement(1)).Some?
    ensures Look(PRIVATE_ROOM, ChannelElement(1)).value.item != ChannelItem(ShowChannel(ROOM))
  {
    assert ROOM.(name := "b").name == "b" && ROOM.name == "";
  }

  lemma NotSettled()
    ensures !Settled(AllVersions(), COMES_AND_GOES, EVERYTHING, EMPTY_VIEW, PRIVATE_ROOM, ChannelElement(1))
  {
    hide Plan, WindowOps, Steps, Part, On, PlanElements, Cut, Look, Sees, LastSeenOr;
    PrivateRoomIsAnother();
    IsLongerChain();
    CutAtOnce();
    RoomOverwritten(Steps(None, On(PlanElements(EMPTY_VIEW, PRIVATE_ROOM).additions, ChannelElement(1))));
  }

  /** The push leaves the room as it was last shared, though the client is meant to hold the private one. */
  lemma SharedOverPrivate()
    ensures Chain(AllVersions(), COMES_AND_GOES)
    ensures Run(Held(BUSY, EVERYTHING, EMPTY_VIEW),
                Transition(Flatten(AllVersions()), EVERYTHING, EMPTY_VIEW, PRIVATE_ROOM))
         != Held(QUIET, EVERYTHING, PRIVATE_ROOM)
  {
    hide Transition, Held, Run, Flatten, Restrict, Disjoint, WellKeyed, Settled, Chain;
    ShownDisjoint();
    IsLongerChain();
    NotSettled();
    WindowExact(AllVersions(), COMES_AND_GOES, EVERYTHING, EMPTY_VIEW, PRIVATE_ROOM);
  }

  lemma ShownDisjoint()
    ensures WellKeyed(EMPTY_VIEW) && WellKeyed(PRIVATE_ROOM)
    ensures Disjoint(Restrict(BUSY, EVERYTHING), EMPTY_VIEW) && Disjoint(Restrict(QUIET, EVERYTHING), PRIVATE_ROOM)
  {
  }
}
