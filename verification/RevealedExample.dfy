/**
 Two renders of one shard, one after the other, in which a surviving channel moves into an
 observer's sight below a new one, with another new one below it. The observer is told of the
 lowest channel before its parent: the planner counts every channel of the old view as present,
 and the surviving channel has to wait for a parent with a greater identifier.
 */
module RevealedExample {
  import opened Collections
  import opened Scopes
  import opened Views
  import I = Identifiers
  import opened Clients
  import opened Ordering
  import opened PrefixSafety
  import B = Builds
  import R = BuildRuns
  import Routing
  import RenderContract

  /** A hall and, hidden at scope 8, one channel. */
  const FIRST := [R.RootStep(""), R.ChannelStep(B.ROOT_HANDLE, 1, "", B.Into(8))]

  /** That channel at scope 7 now, below a new one, with a third below it. */
  const SECOND := [
    R.RootStep(""), R.ChannelStep(B.ROOT_HANDLE, 2, "", B.Into(7)),
    R.ChannelStep(B.Handle(2, [7]), 1, "", B.Same), R.ChannelStep(B.Handle(1, [7]), 3, "", B.Same)]

  function FirstRender(): R.Progress {
    R.Run(R.Begin(I.NEW_IDS, 0), FIRST)
  }

  /** The allocator as the first render left it, the keys it used retained. */
  function Between(): I.Ids {
    I.RetainChannels(FirstRender().draft.ids, 0, {1})
  }

  function SecondRender(): R.Progress {
    R.Run(R.Begin(Between(), 0), SECOND)
  }

  const HALL := B.NewChannel(ROOT, ROOT, ROOT, [], "")
  const EARLIER := ShardView(map[0 := HALL, 1 := B.NewChannel(1, 1, ROOT, [8], "")], map[])
  const LATER := ShardView(
    map[0 := HALL, 2 := B.NewChannel(2, 2, ROOT, [7], ""), 1 := B.NewChannel(1, 1, 2, [7], ""),
        3 := B.NewChannel(3, 3, 1, [7], "")], map[])

  /** A render with channels only is accepted once nothing was refused. */
  lemma ChannelsOnly(d: B.Draft)
    requires d.error.None? && d.rooted && d.overlays == map[] && d.audio == Routing.NO_AUDIO && d.view.users == map[]
    ensures B.Accepted(d, map[])
  {
  }

  lemma Placed(p: R.Progress, step: R.Step, id: ChannelId, scope: Scope)
    requires step.ChannelStep? && step.parent in p.shared && step.key !in p.draft.keysSeen
    requires B.Narrowed(step.parent.scope, step.narrow) == Some(scope)
    requires I.AllocChannel(p.draft.ids, p.draft.shard, step.key).1 == Ok(id)
    ensures R.Allowed(p, step)
    ensures R.After(p, step) ==
            p.(shared := p.shared + {B.Handle(id, scope)},
               draft := p.draft.(ids := I.AllocChannel(p.draft.ids, p.draft.shard, step.key).0,
                                 keysSeen := p.draft.keysSeen + {step.key},
                                 view := B.WithChannel(p.draft.view,
                                   B.NewChannel(step.key, id, step.parent.id, scope, step.name))))
  {
  }

  lemma RootPlaced(ids: I.Ids)
    ensures var p := R.After(R.Begin(ids, 0), R.RootStep(""));
            && p.shared == {B.ROOT_HANDLE} && !p.strayed
            && p.draft == B.NewDraft(ids, 0).(rooted := true, view := ShardView(map[0 := HALL], map[]))
  {
  }

  lemma FirstIs()
    ensures var p := FirstRender();
            && R.AllAllowed(R.Begin(I.NEW_IDS, 0), FIRST) && B.Accepted(p.draft, map[]) && !p.strayed
            && p.draft.view == EARLIER
            && p.draft.ids == I.Ids(map[(0, 1) := 1], map[], Some(2), Some(1))
  {
    hide R.After, B.Accepted, R.Allowed, R.Run, R.AllAllowed;
    var start := R.Begin(I.NEW_IDS, 0);
    R.RunNext(start, [], FIRST[0]);
    R.RunNext(start, [FIRST[0]], FIRST[1]);
    assert [] + [FIRST[0]] == [FIRST[0]] && [FIRST[0]] + [FIRST[1]] == FIRST;
    RootPlaced(I.NEW_IDS);
    var hall := R.After(start, FIRST[0]);
    assert [] + [8] == [8];
    Placed(hall, FIRST[1], 1, [8]);
    ChannelsOnly(R.After(hall, FIRST[1]).draft);
  }

  lemma BetweenIs()
    ensures Between() == I.Ids(map[(0, 1) := 1], map[], Some(2), Some(1))
  {
    FirstIs();
  }

  lemma SecondIs()
    ensures var p := SecondRender();
            && R.AllAllowed(R.Begin(Between(), 0), SECOND) && B.Accepted(p.draft, map[]) && !p.strayed
            && p.draft.view == LATER
  {
    hide R.After, B.Accepted, R.Allowed, R.Run, R.AllAllowed, Between;
    BetweenIs();
    var start := R.Begin(Between(), 0);
    var a, b, c, d := SECOND[0], SECOND[1], SECOND[2], SECOND[3];
    R.RunNext(start, [], a);
    R.RunNext(start, [a], b);
    R.RunNext(start, [a, b], c);
    R.RunNext(start, [a, b, c], d);
    assert [] + [a] == [a] && [a] + [b] == [a, b] && [a, b] + [c] == [a, b, c] && [a, b, c] + [d] == SECOND;
    RootPlaced(Between());
    var hall := R.After(start, a);
    assert [] + [7] == [7];
    Placed(hall, b, 2, [7]);
    var two := R.After(hall, b);
    Placed(two, c, 1, [7]);
    var three := R.After(two, c);
    Placed(three, d, 3, [7]);
    ChannelsOnly(R.After(three, d).draft);
  }

  lemma OutOfSight()
    ensures Unseen(EARLIER, {[7]}, 1) && Sees({[7]}, [7])
  {
    var hidden: Scope, seen: Scope := [8], [7];
    assert hidden[0] != seen[0];
    assert !Comparable(hidden, seen) && Comparable(seen, seen);
  }

  lemma TooLate()
    ensures !RevealedInTime(EARLIER, LATER, {[7]})
  {
    OutOfSight();
    hide Unseen, Sees;
    assert !Prompt(EARLIER, LATER, 1);
    assert ArrivesUnderUnseen(EARLIER, LATER, {[7]}, 3);
  }

  /**
   Both renders are accepted, the second on the allocator the first left, and the observer's
   transition is not safe.
   */
  lemma RevealedParentTooLate()
    ensures R.AllAllowed(R.Begin(I.NEW_IDS, 0), FIRST) && B.Accepted(FirstRender().draft, map[])
    ensures R.AllAllowed(R.Begin(Between(), 0), SECOND) && B.Accepted(SecondRender().draft, map[])
    ensures !FirstRender().strayed && !SecondRender().strayed
    ensures var before, after := FirstRender().draft.view, SecondRender().draft.view;
            !SafeRun(Show(Restrict(before, {[7]})), Received(before, after, {[7]}))
  {
    hide SafeRun, Received, Restrict, Show, B.Accepted, R.AllAllowed, FirstRender, SecondRender;
    FirstIs();
    SecondIs();
    NotSafe();
  }

  lemma BothSound()
    ensures WellKeyed(EARLIER) && R.SoundView(EARLIER) && WellKeyed(LATER) && R.SoundView(LATER)
  {
    hide B.Accepted, R.AllAllowed, R.SoundView, WellKeyed, R.Run, I.Consistent;
    ConsistentIds();
    FirstIs();
    SecondIs();
    RenderContract.AcceptedIsSound(I.NEW_IDS, 0, FIRST, map[]);
    RenderContract.AcceptedIsSound(Between(), 0, SECOND, map[]);
  }

  lemma NotSafe()
    ensures !SafeRun(Show(Restrict(EARLIER, {[7]})), Received(EARLIER, LATER, {[7]}))
  {
    hide SafeRun, Received, Restrict, Show, RevealedInTime, R.SoundView, WellKeyed, ClosedView, Tree;
    BothSound();
    R.SoundIsClosedTree(EARLIER);
    R.SoundIsClosedTree(LATER);
    R.RestrictedIsClosed(EARLIER, {[7]});
    R.RestrictedIsClosed(LATER, {[7]});
    TooLate();
    ReceivedSafe(EARLIER, LATER, {[7]});
  }

  lemma ConsistentIds()
    ensures I.Consistent(I.NEW_IDS) && I.Consistent(Between())
  {
    BetweenIs();
  }
}
