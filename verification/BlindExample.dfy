/**
 An accepted render with a route nobody can hear. Two connections are rendered at one scope; the
 second listens to a domain whose only member is the first, and observes another scope. The count
 takes the listener off the members at its own scope, and is left with none to see.
 */
module BlindExample {
  import opened Collections
  import opened Scopes
  import opened Views
  import I = Identifiers
  import opened Routing
  import opened Visibility
  import B = Builds
  import R = BuildRuns
  import RenderAudio
  import E = RevealedExample

  const SPEAKER: ConnectionId := 1
  const LISTENER: ConnectionId := 2
  const STAGE := B.Handle(1, [7])
  const AUDIO := AudioRelation(map[0 := {SPEAKER}], {(LISTENER, 0)}, {})

  /** The listener observes scope 8, where nobody is. */
  const LOOKS: Observations := map[SPEAKER := {[7]}, LISTENER := {[8]}]

  const STEPS := [
    R.RootStep(""), R.ChannelStep(B.ROOT_HANDLE, 1, "", B.Into(7)),
    R.UserStep(STAGE, Connection(SPEAKER), "", B.Same), R.UserStep(STAGE, Connection(LISTENER), "", B.Same),
    R.AudioStep(AUDIO)]

  const SHARED := ShardView(
    map[0 := E.HALL, 1 := B.NewChannel(1, 1, ROOT, [7], "")],
    map[1 := B.NewUser(Connection(SPEAKER), 1, 1, [7], ""), 2 := B.NewUser(Connection(LISTENER), 2, 1, [7], "")])

  lemma Seated(p: R.Progress, step: R.Step, session: SessionId, scope: Scope)
    requires step.UserStep? && step.channel in p.shared && step.who !in p.draft.occupantsSeen
    requires B.Narrowed(step.channel.scope, step.narrow) == Some(scope)
    requires I.AllocSession(p.draft.ids, step.who).1 == Ok(session)
    ensures R.Allowed(p, step)
    ensures R.After(p, step) ==
            p.(draft := p.draft.(ids := I.AllocSession(p.draft.ids, step.who).0,
                                 occupantsSeen := p.draft.occupantsSeen + {step.who},
                                 view := B.WithUser(p.draft.view,
                                   B.NewUser(step.who, session, step.channel.id, scope, step.name))))
  {
  }

  lemma StageSet()
    ensures var p := R.After(R.After(R.Begin(I.NEW_IDS, 0), STEPS[0]), STEPS[1]);
      && R.Allowed(R.Begin(I.NEW_IDS, 0), STEPS[0]) && R.Allowed(R.After(R.Begin(I.NEW_IDS, 0), STEPS[0]), STEPS[1])
      && STAGE in p.shared && !p.strayed && p.draft.error.None? && p.draft.rooted && p.draft.overlays == map[]
      && p.draft.occupantsSeen == {} && p.draft.ids == I.Ids(map[(0, 1) := 1], map[], Some(2), Some(1))
      && p.draft.view == ShardView(SHARED.channels, map[])
  {
    hide R.After;
    E.RootPlaced(I.NEW_IDS);
    var hall := R.After(R.Begin(I.NEW_IDS, 0), STEPS[0]);
    assert [] + [7] == [7];
    E.Placed(hall, STEPS[1], 1, [7]);
  }

  lemma AudienceSeated()
    ensures var stage := R.After(R.After(R.Begin(I.NEW_IDS, 0), STEPS[0]), STEPS[1]);
      var p := R.After(R.After(stage, STEPS[2]), STEPS[3]);
      && R.Allowed(stage, STEPS[2]) && R.Allowed(R.After(stage, STEPS[2]), STEPS[3])
      && !p.strayed && p.draft.error.None? && p.draft.rooted && p.draft.overlays == map[] && p.draft.view == SHARED
  {
    hide R.After;
    StageSet();
    var stage := R.After(R.After(R.Begin(I.NEW_IDS, 0), STEPS[0]), STEPS[1]);
    Seated(stage, STEPS[2], 1, [7]);
    var one := R.After(stage, STEPS[2]);
    assert one.draft.ids == I.Ids(map[(0, 1) := 1], map[Connection(SPEAKER) := 1], Some(2), Some(2));
    Seated(one, STEPS[3], 2, [7]);
    var two := R.After(one, STEPS[3]);
    assert two.draft.view.users == SHARED.users;
  }

  function Rendered(): R.Progress {
    R.Run(R.Begin(I.NEW_IDS, 0), STEPS)
  }

  lemma RenderedIs()
    ensures var p := Rendered();
      && R.AllAllowed(R.Begin(I.NEW_IDS, 0), STEPS)
      && !p.strayed && p.draft.error.None? && p.draft.rooted && p.draft.overlays == map[] && p.draft.view == SHARED
      && p.draft.audio == AUDIO
  {
    hide R.Run, R.AllAllowed, R.After, R.Allowed;
    var start := R.Begin(I.NEW_IDS, 0);
    var a, b, c, d, e := STEPS[0], STEPS[1], STEPS[2], STEPS[3], STEPS[4];
    StageSet();
    AudienceSeated();
    AudioSet(R.After(R.After(R.After(R.After(start, a), b), c), d));
    NothingRun(start);
    R.RunNext(start, [], a);
    R.RunNext(start, [a], b);
    R.RunNext(start, [a, b], c);
    R.RunNext(start, [a, b, c], d);
    R.RunNext(start, [a, b, c, d], e);
    assert [] + [a] == [a] && [a] + [b] == [a, b] && [a, b] + [c] == [a, b, c] && [a, b, c] + [d] == [a, b, c, d];
    assert [a, b, c, d] + [e] == STEPS;
  }

  lemma NothingRun(p: R.Progress)
    ensures R.Run(p, []) == p && R.AllAllowed(p, [])
  {
  }

  lemma AudioSet(p: R.Progress)
    ensures R.Allowed(p, STEPS[4]) && R.After(p, STEPS[4]) == p.(draft := p.draft.(audio := AUDIO))
  {
  }

  lemma OnStage(c: ConnectionId)
    requires c == SPEAKER || c == LISTENER
    ensures var shared := B.SightOf(SHARED, map[], LOOKS).shared; c in shared && shared[c] == [7]
  {
    hide B.ScopesOver, Sorted;
    var keys := Sorted(SHARED.users.Keys);
    RenderAudio.ScopesOverMeans(SHARED, keys, c);
    assert c in keys && SHARED.users[c].occupant == Connection(c);
  }

  lemma OutOfSight()
    ensures !Sees({[8]}, [7])
  {
    var far: Scope, near: Scope := [8], [7];
    assert far[0] != near[0];
    assert !Comparable(far, near);
  }

  lemma Overlooks(sight: Sight)
    requires SPEAKER in sight.shared && LISTENER in sight.shared && sight.privately == map[]
    requires sight.shared[SPEAKER] == sight.shared[LISTENER] == [7]
    ensures Accepts(AUDIO, sight) && Edge(AUDIO, SPEAKER, LISTENER)
  {
    hide Sees;
    assert At(sight, {SPEAKER}, [7]) == {SPEAKER};
    assert Within(AUDIO, 0, SPEAKER, LISTENER);
    assert Overlooked(sight, {SPEAKER}, LISTENER, SPEAKER);
  }

  lemma IsAccepted(d: B.Draft)
    requires d.error.None? && d.rooted && d.overlays == map[] && d.view == SHARED && d.audio == AUDIO
    ensures B.Accepted(d, LOOKS) && Edge(d.audio, SPEAKER, LISTENER)
  {
    OnStage(SPEAKER);
    OnStage(LISTENER);
    hide Accepts, Edge, B.ScopesOver;
    Overlooks(B.SightOf(SHARED, map[], LOOKS));
  }

  lemma NotHeld(d: B.Draft)
    requires d.overlays == map[] && d.view == SHARED
    ensures 1 !in R.Target(d, LOOKS, LISTENER).users
  {
    hide Sees;
    OutOfSight();
    assert SHARED.users[1].scope == [7] && Observed(LOOKS, LISTENER) == {[8]};
  }

  /** The render is accepted and has the route; what the listener is meant to hold does not have the speaker. */
  lemma BlindSpotExists()
    ensures R.AllAllowed(R.Begin(I.NEW_IDS, 0), STEPS) && B.Accepted(Rendered().draft, LOOKS) && !Rendered().strayed
    ensures Edge(Rendered().draft.audio, SPEAKER, LISTENER)
    ensures Rendered().draft.view == SHARED && 1 !in R.Target(Rendered().draft, LOOKS, LISTENER).users
  {
    hide Rendered, Edge, B.Accepted, R.Target, R.AllAllowed;
    RenderedIs();
    IsAccepted(Rendered().draft);
    NotHeld(Rendered().draft);
  }
}
