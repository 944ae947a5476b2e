/**
 A run in which a replan forgets a channel. A connection attaches and is shown a room; the room is
 removed while its queue is full; then its observation changes. The shard plans from the newest
 view, which has no room, and the client keeps it.
 */
module ForgottenExample {
  import opened Collections
  import opened Scopes
  import opened Views
  import opened Planner
  import opened Clients
  import opened Deltas
  import opened Composition
  import opened FastPath
  import opened Emission
  import opened Windows
  import opened Journals
  import opened Replans
  import opened Shards
  import opened ShardRuns
  import opened WindowExample

  const ELSEWHERE: ScopeSet := {[9]}
  const GUEST: ConnectionId := 1
  const ROOM_ELEMENT := ChannelElement(1)

  const ATTACH := Attach(GUEST, 5, EMPTY_VIEW)
  const SHOW_ROOM := Reconcile(Render(BUSY, map[]), map[GUEST := EVERYTHING], map[GUEST := Accepted])
  const REMOVE_ROOM := Reconcile(Render(QUIET, map[]), map[GUEST := EVERYTHING], map[GUEST := Congestion])
  const LOOK_AWAY := Reconcile(Render(QUIET, map[]), map[GUEST := ELSEWHERE], map[GUEST := Accepted])

  function First(): World {
    ShardRuns.Step(NEW_WORLD, ATTACH)
  }

  function Second(): World {
    ShardRuns.Step(First(), SHOW_ROOM)
  }

  function Third(): World {
    ShardRuns.Step(Second(), REMOVE_ROOM)
  }

  function Last(): World {
    ShardRuns.Step(Third(), LOOK_AWAY)
  }

  const ARRIVED := Attached(5, 0, {}, EMPTY_VIEW, Some(EMPTY_VIEW))
  const SHOWN := Attached(5, 1, EVERYTHING, EMPTY_VIEW, None)

  lemma NotAlike()
    ensures Plan(EMPTY_VIEW, BUSY) != [] && Plan(BUSY, QUIET) != []
    ensures WellKeyed(EMPTY_VIEW) && WellKeyed(BUSY) && WellKeyed(QUIET)
  {
    assert Look(EMPTY_VIEW, ROOM_ELEMENT) != Look(BUSY, ROOM_ELEMENT)
      && Look(BUSY, ROOM_ELEMENT) != Look(QUIET, ROOM_ELEMENT);
    hide Plan, Look;
    EmptyPlanMeansAlike(EMPTY_VIEW, BUSY);
    EmptyPlanMeansAlike(BUSY, QUIET);
  }

  lemma FirstIs()
    ensures First()
      == World(Shard(EMPTY_VIEW, [], map[GUEST := ARRIVED]), [EMPTY_VIEW], map[GUEST := EMPTY_VIEW], map[GUEST := []])
  {
  }

  lemma SecondIs()
    ensures Second().shard == Shard(BUSY, [Plan(EMPTY_VIEW, BUSY)], map[GUEST := SHOWN])
    ensures Second().history == [EMPTY_VIEW, BUSY]
    ensures Second().base == map[GUEST := EMPTY_VIEW] && Second().sent.Keys == {GUEST}
  {
    hide Plan, ReplanOps, SelfFirst, First;
    FirstIs();
    NotAlike();
    assert Observed(map[GUEST := EVERYTHING], GUEST) == EVERYTHING;
    assert Moved(ARRIVED, EVERYTHING);
    assert TurnOf(First().shard, Render(BUSY, map[]), map[GUEST := EVERYTHING], map[GUEST := Accepted], GUEST).attached
      == SHOWN;
  }

  /** The push that would withdraw the room is not empty, so a full queue refuses it. */
  lemma RemovalIsRefused()
    ensures Transition(Plan(BUSY, QUIET), EVERYTHING, EMPTY_VIEW, EMPTY_VIEW) != []
  {
    RootSeesAll([]);
    assert Disjoint(Restrict(BUSY, EVERYTHING), EMPTY_VIEW) && Disjoint(Restrict(QUIET, EVERYTHING), EMPTY_VIEW);
    ShownAt(BUSY, EVERYTHING, EMPTY_VIEW, ROOM_ELEMENT);
    ShownAt(QUIET, EVERYTHING, EMPTY_VIEW, ROOM_ELEMENT);
    assert At(Held(BUSY, EVERYTHING, EMPTY_VIEW), ROOM_ELEMENT).Some?
      && At(Held(QUIET, EVERYTHING, EMPTY_VIEW), ROOM_ELEMENT).None?;
    hide Plan, Transition, At, Held, Disjoint, Restrict, Sees;
    NotAlike();
    PlanIsDelta(BUSY, QUIET);
    FastPathExact(Plan(BUSY, QUIET), BUSY, QUIET, EVERYTHING, EMPTY_VIEW, EMPTY_VIEW);
    NothingToRun(Held(BUSY, EVERYTHING, EMPTY_VIEW));
  }

  lemma RefusedPush(log: Log)
    requires log == [Plan(EMPTY_VIEW, BUSY), Plan(BUSY, QUIET)]
    ensures Push(SHOWN, log, 2, EMPTY_VIEW, Congestion) == Turn(SHOWN, [], Stalled)
  {
    hide Plan, Transition;
    RemovalIsRefused();
    ReplayWithinDepth(log, 1);
    assert log[1..] == [Plan(BUSY, QUIET)] && log[1..][..0] == [];
    assert Flatten(log[1..]) == Plan(BUSY, QUIET);
  }

  lemma ThirdIs()
    ensures Third().shard.view == QUIET && Third().shard.connections == map[GUEST := SHOWN]
    ensures |Third().shard.log| == 2
    ensures Third().history == [EMPTY_VIEW, BUSY, QUIET]
    ensures Third().base == map[GUEST := EMPTY_VIEW] && Third().sent.Keys == {GUEST}
  {
    hide Plan, Push, Second;
    SecondIs();
    NotAlike();
    var log := [Plan(EMPTY_VIEW, BUSY)] + [Plan(BUSY, QUIET)];
    RefusedPush(log);
    assert Observed(map[GUEST := EVERYTHING], GUEST) == EVERYTHING && !Moved(SHOWN, EVERYTHING);
    var observations, verdicts := map[GUEST := EVERYTHING], map[GUEST := Congestion];
    assert TurnOf(Second().shard, Render(QUIET, map[]), observations, verdicts, GUEST).attached == SHOWN;
  }

  // ---------------------------------------------------------------- the first three steps are guarded

  lemma AttachIsGuarded()
    ensures Guarded(NEW_WORLD, ATTACH)
  {
  }

  lemma ShowRoomIsGuarded()
    requires ShardRuns.Invariant(First())
    ensures Guarded(First(), SHOW_ROOM)
  {
    hide First, Guarded, TurnGuard, WellKeyed, ShardRuns.Invariant, UpToDate, Wellformed, Plan, Look;
    FirstIs();
    NotAlike();
    RenderIsWellformed(BUSY);
    HeldIsUpToDate(First().shard);
    UpToDateTurnIsGuarded(First(), Render(BUSY, map[]), map[GUEST := EVERYTHING], map[GUEST := Accepted], GUEST);
    OneGuestGuarded(First(), Render(BUSY, map[]), map[GUEST := EVERYTHING], map[GUEST := Accepted]);
  }

  lemma OneGuestGuarded(
    w: World, r: Render, observations: map<ConnectionId, ScopeSet>, verdicts: map<ConnectionId, Verdict>)
    requires w.shard.connections.Keys == {GUEST} && Wellformed(r) && TurnGuard(w, r, observations, verdicts, GUEST)
    ensures Guarded(w, Reconcile(r, observations, verdicts))
  {
    hide TurnGuard, Wellformed;
  }

  lemma HeldIsUpToDate(shard: Shard)
    ensures UpToDate(ARRIVED, shard)
  {
  }

  lemma RenderIsWellformed(v: ShardView)
    requires WellKeyed(v)
    ensures Wellformed(Render(v, map[]))
  {
  }

  lemma InvariantGives(w: World, c: ConnectionId)
    requires ShardRuns.Invariant(w) && c in w.shard.connections
    ensures Known(w) && Recorded(w.shard, w.history) && Sound(w.shard.connections[c], w.history)
    ensures w.shard.connections[c].cursor < |w.history|
    ensures Run(Show(w.base[c]), w.sent[c]) == Holds(w.shard.connections[c], w.history)
  {
    assert Faithful(w, c);
  }

  lemma RemoveRoomIsGuarded()
    ensures Guarded(Second(), REMOVE_ROOM)
  {
    hide Plan, Push, Second, WellKeyed, PushGuard, ReplanGuard;
    SecondIs();
    NotAlike();
    RenderIsWellformed(QUIET);
    RefusedPush([Plan(EMPTY_VIEW, BUSY)] + [Plan(BUSY, QUIET)]);
    assert Observed(map[GUEST := EVERYTHING], GUEST) == EVERYTHING && !Moved(SHOWN, EVERYTHING);
    var observations, verdicts := map[GUEST := EVERYTHING], map[GUEST := Congestion];
    assert TurnOf(Second().shard, Render(QUIET, map[]), observations, verdicts, GUEST).outcome == Stalled;
  }

  lemma ThirdInvariant()
    ensures ShardRuns.Invariant(Third())
    ensures ShardRuns.IsRun([NEW_WORLD, First(), Second(), Third()], [ATTACH, SHOW_ROOM, REMOVE_ROOM])
  {
    hide ShardRuns.Invariant, Guarded, ShardRuns.Step;
    NewWorldInvariant();
    AttachIsGuarded();
    StepKeeps(NEW_WORLD, ATTACH);
    ShowRoomIsGuarded();
    StepKeeps(First(), SHOW_ROOM);
    RemoveRoomIsGuarded();
    StepKeeps(Second(), REMOVE_ROOM);
  }

  // ---------------------------------------------------------------- the fourth forgets the room

  lemma LookAwayTurn()
    ensures var t :=
      TurnOf(Third().shard, Render(QUIET, map[]), map[GUEST := ELSEWHERE], map[GUEST := Accepted], GUEST);
      && t.attached == Attached(5, 2, ELSEWHERE, EMPTY_VIEW, None) && t.outcome == Advanced
      && t.sent == SelfFirst(ReplanOps(SHOWN, QUIET, QUIET, ELSEWHERE, EMPTY_VIEW), 5)
    ensures !Idle(Third().shard, Render(QUIET, map[]), map[GUEST := ELSEWHERE])
    ensures HistoryAfter(Third(), Render(QUIET, map[])) == [EMPTY_VIEW, BUSY, QUIET]
  {
    hide Plan, ReplanOps, Third;
    ThirdIs();
    NotAlike();
    AlikeItself(QUIET);
    EmptyPlanMeansAlike(QUIET, QUIET);
    assert Observed(map[GUEST := ELSEWHERE], GUEST) == ELSEWHERE;
    assert ELSEWHERE != EVERYTHING by { assert [9] in ELSEWHERE && [9] !in EVERYTHING; }
    assert Moved(SHOWN, ELSEWHERE);
    assert SelfFirst([], 5) == [];
    hide SelfFirst;
  }

  lemma ThirdHoldsRoom()
    ensures Third().shard.connections == map[GUEST := SHOWN] && GUEST in Third().base && GUEST in Third().sent
    ensures At(Run(Show(Third().base[GUEST]), Third().sent[GUEST]), ROOM_ELEMENT)
      == Some(ChannelItem(ShowChannel(ROOM)))
  {
    RootSeesAll([]);
    ShownAt(BUSY, EVERYTHING, EMPTY_VIEW, ROOM_ELEMENT);
    assert At(Held(BUSY, EVERYTHING, EMPTY_VIEW), ROOM_ELEMENT) == Some(ChannelItem(ShowChannel(ROOM)));
    hide Third, ShardRuns.Invariant, At, Held, Sees, Run, Show;
    ThirdIs();
    ThirdInvariant();
    InvariantGives(Third(), GUEST);
  }

  lemma NoRoomInQuiet(see: ScopeSet)
    ensures Look(Compose(Restrict(QUIET, see), EMPTY_VIEW), ROOM_ELEMENT).None?
    ensures WellKeyed(Compose(Restrict(QUIET, see), EMPTY_VIEW))
    ensures At(Held(QUIET, see, EMPTY_VIEW), ROOM_ELEMENT).None?
  {
  }

  /**
   Three guarded steps, a fourth that commits, and the client holds a room its record has forgotten.
   */
  lemma RoomForgotten()
    ensures ShardRuns.IsRun([NEW_WORLD, First(), Second(), Third()], [ATTACH, SHOW_ROOM, REMOVE_ROOM])
    ensures Last().shard.connections == map[GUEST := Attached(5, 2, ELSEWHERE, EMPTY_VIEW, None)]
    ensures Last().history == [EMPTY_VIEW, BUSY, QUIET] && GUEST in Last().base && GUEST in Last().sent
    ensures At(Run(Show(Last().base[GUEST]), Last().sent[GUEST]), ROOM_ELEMENT) == Some(ChannelItem(ShowChannel(ROOM)))
    ensures At(Holds(Last().shard.connections[GUEST], Last().history), ROOM_ELEMENT).None?
  {
    hide Third, ShardRuns.Invariant, At, Held, Sees, Run, Show, TurnOf, Idle, HistoryAfter, Plan, Look, SelfFirst;
    hide WellKeyed;
    hide Restrict, Compose, ShardRuns.IsRun, First, Second;
    ThirdInvariant();
    ThirdHoldsRoom();
    LookAwayTurn();
    NoRoomInQuiet(EVERYTHING);
    NoRoomInQuiet(ELSEWHERE);
    var client := Run(Show(Third().base[GUEST]), Third().sent[GUEST]);
    var ops := ReplanOps(SHOWN, QUIET, QUIET, ELSEWHERE, EMPTY_VIEW);
    RunConcat(Show(Third().base[GUEST]), Third().sent[GUEST], SelfFirst(ops, 5));
    SelfFirstMeansTheSame(client, ops, 5);
    UnplannedStays(Composed(SHOWN, QUIET), Compose(Restrict(QUIET, ELSEWHERE), EMPTY_VIEW), client, ROOM_ELEMENT);
  }

  /**
   Were the guest to migrate after the third step instead, its client would be handed on without
   the room it holds.
   */
  lemma RoomNotHandedOver()
    ensures ShardRuns.IsRun([NEW_WORLD, First(), Second(), Third()], [ATTACH, SHOW_ROOM, REMOVE_ROOM])
    ensures Third().shard.connections == map[GUEST := SHOWN] && GUEST in Third().base && GUEST in Third().sent
    ensures At(Run(Show(Third().base[GUEST]), Third().sent[GUEST]), ROOM_ELEMENT)
      == Some(ChannelItem(ShowChannel(ROOM)))
    ensures At(Show(Composed(Third().shard.connections[GUEST], Third().shard.view)), ROOM_ELEMENT).None?
  {
    hide Third, ShardRuns.Invariant, At, Sees, Run, Show, Plan, Look, WellKeyed, Restrict, Compose, First, Second;
    hide ShardRuns.IsRun;
    ThirdIs();
    ThirdInvariant();
    ThirdHoldsRoom();
    NoRoomInQuiet(EVERYTHING);
  }
}
