/**
 What the rest of the runtime relies on from an accepted render, proved of every sequence of
 builder calls that is accepted: the shard's runs need it well formed and disjoint from its
 overlays, the identifier runs need every id drawn from the allocator, and the transition from
 one accepted render to the next needs both to be sound.
 */
module RenderContract {
  import opened Collections
  import opened Scopes
  import opened Views
  import I = Identifiers
  import opened Planner
  import opened Clients
  import opened Deltas
  import opened Ordering
  import opened FastPath
  import opened PrefixSafety
  import opened PushSafety
  import opened Visibility
  import B = Builds
  import R = BuildRuns
  import S = Shards
  import ShardRuns
  import IdRuns
  import opened RenderedSafety

  /** The render a shard reconciles with. */
  function Taken(d: B.Draft): S.Render {
    S.Render(d.view, d.overlays)
  }

  ghost predicate Draws(d: B.Draft) {
    && IdRuns.LiveView(d.ids, d.shard, d.view)
    && forall c | c in d.overlays :: IdRuns.LiveView(d.ids, d.shard, d.overlays[c])
  }

  lemma NamedIsWellformed(d: B.Draft)
    requires R.Named(d) && B.Apart(d.view, d.overlays)
    ensures ShardRuns.Wellformed(Taken(d))
  {
    hide I.Consistent;
    forall c | c in d.overlays ensures WellKeyed(d.overlays[c]) && Disjoint(d.view, d.overlays[c]) {
      assert R.OverlayNamed(d.ids, d.shard, d.overlays[c]);
    }
  }

  lemma NamedDraws(d: B.Draft)
    requires R.Named(d)
    ensures Draws(d)
  {
    hide I.Consistent;
    forall id | id in d.view.channels && id != ROOT ensures IdRuns.Live(d.ids, d.shard, id) {
      assert R.ChannelNamed(d.ids, d.shard, d.view.channels[id], id);
      assert (d.shard, d.view.channels[id].key) in d.ids.channels;
    }
    forall c | c in d.overlays ensures IdRuns.LiveView(d.ids, d.shard, d.overlays[c]) {
      assert R.OverlayNamed(d.ids, d.shard, d.overlays[c]);
      forall id | id in d.overlays[c].channels ensures IdRuns.Live(d.ids, d.shard, id) {
        assert R.ChannelNamed(d.ids, d.shard, d.overlays[c].channels[id], id);
        assert (d.shard, d.overlays[c].channels[id].key) in d.ids.channels;
      }
    }
  }

  /** Every accepted render is one the shard's and the allocator's runs allow. */
  lemma AcceptedIsReconcilable(ids: I.Ids, shard: ShardId, steps: seq<R.Step>, observations: Observations)
    requires I.Consistent(ids) && R.AllAllowed(R.Begin(ids, shard), steps)
    requires B.Accepted(R.Run(R.Begin(ids, shard), steps).draft, observations)
    ensures var d := R.Run(R.Begin(ids, shard), steps).draft;
            ShardRuns.Wellformed(Taken(d)) && Draws(d)
  {
    R.RunCoherent(ids, shard, steps);
    var d := R.Run(R.Begin(ids, shard), steps).draft;
    hide R.Run, R.AllAllowed, R.Named, R.Structured, Draws, ShardRuns.Wellformed, I.Consistent;
    NamedIsWellformed(d);
    NamedDraws(d);
  }

  lemma AcceptedIsSound(ids: I.Ids, shard: ShardId, steps: seq<R.Step>, observations: Observations)
    requires I.Consistent(ids) && R.AllAllowed(R.Begin(ids, shard), steps)
    requires B.Accepted(R.Run(R.Begin(ids, shard), steps).draft, observations)
    requires !R.Run(R.Begin(ids, shard), steps).strayed
    ensures var v := R.Run(R.Begin(ids, shard), steps).draft.view; WellKeyed(v) && R.SoundView(v)
  {
    R.RunCoherent(ids, shard, steps);
    hide R.Run, R.AllAllowed, R.SoundView, I.Consistent, R.Stranded;
    R.NamedIsWellKeyed(R.Run(R.Begin(ids, shard), steps).draft);
  }

  /**
   From one accepted render to the next, neither with a leaked handle and no surviving channel
   changing scope: what any observer receives is safe at every prefix and leaves it exactly its
   part of the new view.
   */
  lemma AcceptedTransitionSafe(
    ids: I.Ids, ids': I.Ids, shard: ShardId, steps: seq<R.Step>, steps': seq<R.Step>,
    observations: Observations, observations': Observations, see: ScopeSet)
    requires I.Consistent(ids) && R.AllAllowed(R.Begin(ids, shard), steps)
    requires I.Consistent(ids') && R.AllAllowed(R.Begin(ids', shard), steps')
    requires var p := R.Run(R.Begin(ids, shard), steps); !p.strayed && B.Accepted(p.draft, observations)
    requires var p := R.Run(R.Begin(ids', shard), steps'); !p.strayed && B.Accepted(p.draft, observations')
    requires ScopesStay(R.Run(R.Begin(ids, shard), steps).draft.view, R.Run(R.Begin(ids', shard), steps').draft.view)
    ensures var before, after :=
      R.Run(R.Begin(ids, shard), steps).draft.view, R.Run(R.Begin(ids', shard), steps').draft.view;
            && SafeRun(Show(Restrict(before, see)), Received(before, after, see))
            && Run(Show(Restrict(before, see)), Received(before, after, see)) == Show(Restrict(after, see))
  {
    hide R.Run, R.AllAllowed, R.SoundView, I.Consistent, B.Accepted, ScopesStay, SafeRun, Received, Run, Show, Restrict;
    hide WellKeyed;
    AcceptedIsSound(ids, shard, steps, observations);
    AcceptedIsSound(ids', shard, steps', observations');
    RenderedTransitionSafe(R.Run(R.Begin(ids, shard), steps).draft.view, R.Run(R.Begin(ids', shard), steps').draft.view,
      see);
  }

  /** What an accepted render gives a connection: an overlay apart from the shared view, and a closed target. */
  lemma AcceptedOverlay(
    ids: I.Ids, shard: ShardId, steps: seq<R.Step>, observations: Observations, c: ConnectionId)
    requires I.Consistent(ids) && R.AllAllowed(R.Begin(ids, shard), steps)
    requires var p := R.Run(R.Begin(ids, shard), steps); !p.strayed && B.Accepted(p.draft, observations)
    ensures var d := R.Run(R.Begin(ids, shard), steps).draft;
      var overlay, see := OverlayIn(d.overlays, c), Observed(observations, c);
      && WellKeyed(overlay) && Disjoint(Restrict(d.view, see), overlay)
      && ClosedView(Compose(Restrict(d.view, see), overlay))
  {
    hide R.Run, R.AllAllowed, I.Consistent, B.Accepted, WellKeyed, Disjoint, Restrict, Compose, ClosedView, Draws;
    hide ShardRuns.Wellformed, Tree;
    var d := R.Run(R.Begin(ids, shard), steps).draft;
    AcceptedIsReconcilable(ids, shard, steps, observations);
    ShardRuns.OverlayWellformed(Taken(d), c);
    ShardRuns.RestrictedDisjoint(d.view, Observed(observations, c), OverlayIn(d.overlays, c));
    R.Closure(ids, shard, steps, observations);
    assert ClosedView(R.Target(d, observations, c));
  }

  /**
   From one accepted render to the next, a connection whose observation and private elements stay
   the same: its push is exact, and safe at every prefix if and only if every channel it reveals
   is revealed in time, as it is when no surviving channel changes scope.
   */
  lemma AcceptedPushSafe(
    ids: I.Ids, ids': I.Ids, shard: ShardId, steps: seq<R.Step>, steps': seq<R.Step>,
    observations: Observations, observations': Observations, c: ConnectionId)
    requires I.Consistent(ids) && R.AllAllowed(R.Begin(ids, shard), steps)
    requires I.Consistent(ids') && R.AllAllowed(R.Begin(ids', shard), steps')
    requires var p := R.Run(R.Begin(ids, shard), steps); !p.strayed && B.Accepted(p.draft, observations)
    requires var p := R.Run(R.Begin(ids', shard), steps'); !p.strayed && B.Accepted(p.draft, observations')
    requires Observed(observations, c) == Observed(observations', c)
    requires OverlayIn(R.Run(R.Begin(ids, shard), steps).draft.overlays, c)
          == OverlayIn(R.Run(R.Begin(ids', shard), steps').draft.overlays, c)
    ensures var d, d' := R.Run(R.Begin(ids, shard), steps).draft, R.Run(R.Begin(ids', shard), steps').draft;
      var overlay, see := OverlayIn(d.overlays, c), Observed(observations, c);
      var batch := Transition(Plan(d.view, d'.view), see, overlay, overlay);
      && Run(Show(R.Target(d, observations, c)), batch) == Show(R.Target(d', observations', c))
      && (SafeRun(Show(R.Target(d, observations, c)), batch) <==> RevealedInTime(d.view, d'.view, see))
      && (ScopesStay(d.view, d'.view) ==> RevealedInTime(d.view, d'.view, see))
  {
    hide R.Run, R.AllAllowed, I.Consistent, B.Accepted, WellKeyed, Disjoint, Restrict, Compose, ClosedView, R.SoundView;
    hide Plan, Transition, Run, Show, SafeRun, RevealedInTime, Travels, ScopesStay, NoneRevealed;
    var d, d' := R.Run(R.Begin(ids, shard), steps).draft, R.Run(R.Begin(ids', shard), steps').draft;
    var overlay, see := OverlayIn(d.overlays, c), Observed(observations, c);
    AcceptedIsSound(ids, shard, steps, observations);
    AcceptedIsSound(ids', shard, steps', observations');
    AcceptedOverlay(ids, shard, steps, observations, c);
    AcceptedOverlay(ids', shard, steps', observations', c);
    SoundViewsTravel(d.view, d'.view, see);
    PlanIsDelta(d.view, d'.view);
    FastPathExact(Plan(d.view, d'.view), d.view, d'.view, see, overlay, overlay);
    PushSafe(d.view, d'.view, see, overlay);
    if ScopesStay(d.view, d'.view) {
      NoneRevealedSuffices(d.view, d'.view, see);
    }
  }
}
