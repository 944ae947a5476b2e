/**
 When what a connection is meant to hold is a tree. The shared view of an accepted render is one,
 but a private channel may be placed again, below itself, and nothing refuses that: what is held
 is a tree exactly when the private channels hang from each other without going round.
 */
module OverlayTrees {
  import opened Collections
  import opened Scopes
  import opened Views
  import opened Clients
  import opened Composition
  import opened Ordering
  import Identifiers
  import Routing
  import Visibility
  import opened Builds
  import B = BuildRuns
  import opened ReplanSafety

  ghost predicate HangsWithin(overlay: Overlay, rank: map<ChannelId, nat>, id: ChannelId)
    requires id in overlay.channels
  {
    var parent := overlay.channels[id].parent;
    && id in rank
    && if id == ROOT then parent == ROOT
       else parent in overlay.channels ==> parent in rank && rank[parent] < rank[id]
  }

  ghost predicate RankedWithin(overlay: Overlay, rank: map<ChannelId, nat>) {
    forall id {:trigger HangsWithin(overlay, rank, id)} | id in overlay.channels :: HangsWithin(overlay, rank, id)
  }

  /** Following parents inside the overlay never goes round. */
  ghost predicate TreeShaped(overlay: Overlay) {
    exists rank :: RankedWithin(overlay, rank)
  }

  lemma {:induction false} Ceiling(rank: map<ChannelId, nat>) returns (top: nat)
    ensures forall id | id in rank :: rank[id] < top
    decreases |rank|
  {
    if rank == map[] {
      top := 0;
    } else {
      var k :| k in rank;
      var rest := rank - {k};
      assert rest.Keys == rank.Keys - {k};
      var below := Ceiling(rest);
      top := if rank[k] < below then below else rank[k] + 1;
      assert forall id | id in rank :: id == k || (id in rest && rest[id] == rank[id]);
    }
  }

  /** The private channels ranked above all the shared ones. */
  function Stacked(v: ShardView, below: map<ChannelId, nat>, above: map<ChannelId, nat>, top: nat): map<ChannelId, nat>
    requires forall id | id in v.channels :: id in below
  {
    map id | id in v.channels.Keys + above.Keys :: if id in above then above[id] + top else below[id]
  }

  /** The channel's parent is there and closer to the root. */
  ghost predicate Hangs(v: ShardView, rank: map<ChannelId, nat>, id: ChannelId)
    requires id in v.channels
  {
    var parent := v.channels[id].parent;
    && id in rank
    && if id == ROOT then parent == ROOT else parent in v.channels && parent in rank && rank[parent] < rank[id]
  }

  lemma RankedWhenAllHang(v: ShardView, rank: map<ChannelId, nat>)
    requires forall id {:trigger Hangs(v, rank, id)} | id in v.channels :: Hangs(v, rank, id)
    ensures Ranked(v, rank)
  {
    forall id | id in v.channels
      ensures id in rank &&
        if id == ROOT then v.channels[id].parent == ROOT
        else v.channels[id].parent in v.channels && v.channels[id].parent in rank
             && rank[v.channels[id].parent] < rank[id]
    {
      assert Hangs(v, rank, id);
    }
  }

  lemma AllHang(v: ShardView, rank: map<ChannelId, nat>, id: ChannelId)
    requires Ranked(v, rank) && id in v.channels
    ensures Hangs(v, rank, id)
  {
  }

  lemma AllRanked(v: ShardView, rank: map<ChannelId, nat>)
    requires Ranked(v, rank)
    ensures forall id | id in v.channels :: id in rank
  {
  }

  lemma ClosedAt(v: ShardView, id: ChannelId)
    requires ClosedView(v) && id in v.channels
    ensures v.channels[id].parent in v.channels
  {
  }

  lemma PrivateHangs(
    v: ShardView, overlay: Overlay, below: map<ChannelId, nat>, above: map<ChannelId, nat>, top: nat, id: ChannelId)
    requires id in overlay.channels && HangsWithin(overlay, above, id) && above.Keys == overlay.channels.Keys
    requires forall k | k in v.channels :: k in below && below[k] < top
    requires Compose(v, overlay).channels[id].parent in Compose(v, overlay).channels
    ensures Hangs(Compose(v, overlay), Stacked(v, below, above, top), id)
  {
    assert Compose(v, overlay).channels[id] == overlay.channels[id];
  }

  lemma SharedHangs(
    v: ShardView, overlay: Overlay, below: map<ChannelId, nat>, above: map<ChannelId, nat>, top: nat, id: ChannelId)
    requires id in v.channels && Hangs(v, below, id) && above.Keys == overlay.channels.Keys && Disjoint(v, overlay)
    requires forall k | k in v.channels :: k in below
    ensures Hangs(Compose(v, overlay), Stacked(v, below, above, top), id)
  {
    assert id !in overlay.channels && Compose(v, overlay).channels[id] == v.channels[id];
    var parent := v.channels[id].parent;
    assert id != ROOT ==> parent in v.channels && parent !in overlay.channels;
  }

  lemma StackedIsRanked(
    v: ShardView, overlay: Overlay, below: map<ChannelId, nat>, above: map<ChannelId, nat>, top: nat)
    requires Ranked(v, below) && RankedWithin(overlay, above) && above.Keys == overlay.channels.Keys
    requires Disjoint(v, overlay) && ClosedView(Compose(v, overlay)) && forall k | k in below :: below[k] < top
    ensures forall k | k in v.channels :: k in below
    ensures Ranked(Compose(v, overlay), Stacked(v, below, above, top))
  {
    hide Ranked, ClosedView, Disjoint, Hangs, HangsWithin, Stacked;
    AllRanked(v, below);
    forall id | id in Compose(v, overlay).channels
      ensures Hangs(Compose(v, overlay), Stacked(v, below, above, top), id)
    {
      ClosedAt(Compose(v, overlay), id);
      if id in overlay.channels {
        PrivateHangs(v, overlay, below, above, top, id);
      } else {
        AllHang(v, below, id);
        SharedHangs(v, overlay, below, above, top, id);
      }
    }
    RankedWhenAllHang(Compose(v, overlay), Stacked(v, below, above, top));
  }

  lemma JustItsOwn(overlay: Overlay, rank: map<ChannelId, nat>) returns (own: map<ChannelId, nat>)
    requires RankedWithin(overlay, rank)
    ensures RankedWithin(overlay, own) && own.Keys == overlay.channels.Keys
  {
    own := map id | id in overlay.channels :: RankIn(rank, id);
    forall id | id in overlay.channels ensures HangsWithin(overlay, own, id) {
      assert HangsWithin(overlay, rank, id);
    }
  }

  function RankIn(rank: map<ChannelId, nat>, id: ChannelId): nat {
    if id in rank then rank[id] else 0
  }

  lemma WithinComposed(v: ShardView, overlay: Overlay, rank: map<ChannelId, nat>)
    requires Ranked(Compose(v, overlay), rank)
    ensures RankedWithin(overlay, rank)
  {
    hide Ranked;
    forall id | id in overlay.channels ensures HangsWithin(overlay, rank, id) {
      AllHang(Compose(v, overlay), rank, id);
      assert Compose(v, overlay).channels[id] == overlay.channels[id];
    }
  }

  /** A tree with an overlay on top, closed as a whole, is a tree if and only if the overlay is tree-shaped. */
  lemma ComposedIsTree(v: ShardView, overlay: Overlay)
    requires Tree(v) && Disjoint(v, overlay) && ClosedView(Compose(v, overlay))
    ensures Tree(Compose(v, overlay)) <==> TreeShaped(overlay)
  {
    hide Compose, Disjoint, ClosedView, Ranked, RankedWithin;
    if Tree(Compose(v, overlay)) {
      var rank :| Ranked(Compose(v, overlay), rank);
      WithinComposed(v, overlay, rank);
    }
    if TreeShaped(overlay) {
      var below :| Ranked(v, below);
      var loose :| RankedWithin(overlay, loose);
      var above := JustItsOwn(overlay, loose);
      var top := Ceiling(below);
      StackedIsRanked(v, overlay, below, above, top);
    }
  }

  /** What is visible of a tree is a tree when it is closed. */
  lemma RestrictedIsTree(v: ShardView, see: ScopeSet)
    requires Tree(v) && ClosedView(Restrict(v, see))
    ensures Tree(Restrict(v, see))
  {
    hide Sees, Ranked, ClosedView;
    var rank :| Ranked(v, rank);
    var r := Restrict(v, see);
    forall id | id in r.channels ensures Hangs(r, rank, id) {
      AllHang(v, rank, id);
      ClosedAt(r, id);
      assert r.channels[id] == v.channels[id];
    }
    RankedWhenAllHang(r, rank);
  }

  // ---------------------------------------------------------------- accepted renders

  lemma OverlayApart(d: Draft, c: ConnectionId, see: ScopeSet)
    requires Apart(d.view, d.overlays)
    ensures Disjoint(Restrict(d.view, see), OverlayIn(d.overlays, c))
  {
    hide Sees;
  }

  /**
   For every accepted render whose shared elements all hang from shared handles: what a connection
   is meant to hold is a closed tree if and only if its private channels do not go round.
   */
  lemma TargetIsTree(
    ids: Identifiers.Ids, shard: ShardId, steps: seq<B.Step>, observations: Observations, c: ConnectionId)
    requires Identifiers.Consistent(ids) && B.AllAllowed(B.Begin(ids, shard), steps)
    requires var p := B.Run(B.Begin(ids, shard), steps); Accepted(p.draft, observations) && !p.strayed
    ensures var d := B.Run(B.Begin(ids, shard), steps).draft;
      Treed(Show(B.Target(d, observations, c))) <==> TreeShaped(OverlayIn(d.overlays, c))
  {
    hide B.Run, B.AllAllowed, Identifiers.Consistent, Tree, ClosedView, TreeShaped, Treed, Show, Restrict, Compose;
    hide Disjoint;
    B.Closure(ids, shard, steps, observations);
    var d := B.Run(B.Begin(ids, shard), steps).draft;
    var see, overlay := Observed(observations, c), OverlayIn(d.overlays, c);
    assert ClosedView(B.Target(d, observations, c)) && ClosedView(Restrict(d.view, see));
    RestrictedIsTree(d.view, see);
    OverlayApart(d, c, see);
    ComposedIsTree(Restrict(d.view, see), overlay);
    ShownTree(B.Target(d, observations, c));
  }

  const ROUND := [
    B.RootStep(""), B.PrivateChannelStep(5, ROOT_HANDLE, 1, ""), B.PrivateChannelStep(5, Handle(1, []), 1, "")]

  lemma RoundStates()
    ensures var p := B.After(B.After(B.After(B.Begin(Identifiers.NEW_IDS, 0), ROUND[0]), ROUND[1]), ROUND[2]);
      && !p.strayed && p.draft.error.None? && p.draft.rooted && p.draft.audio == Routing.NO_AUDIO
      && p.draft.view == ShardView(map[0 := NewChannel(ROOT, ROOT, ROOT, [], "")], map[])
      && p.draft.overlays == map[5 := ShardView(map[1 := NewChannel(1, 1, 1, [], "")], map[])]
  {
    var p := B.After(B.After(B.Begin(Identifiers.NEW_IDS, 0), ROUND[0]), ROUND[1]);
    assert p.draft.ids == Identifiers.Ids(map[(0, 1) := 1], map[], Some(2), Some(1));
    assert p.draft.overlays == map[5 := ShardView(map[1 := NewChannel(1, 1, 0, [], "")], map[])];
    var q := B.After(p, ROUND[2]);
    assert Identifiers.AllocChannel(p.draft.ids, 0, 1) == (p.draft.ids, Ok(1));
    assert q.draft.overlays[5].channels == map[1 := NewChannel(1, 1, 1, [], "")];
    assert q.draft.overlays[5] == ShardView(map[1 := NewChannel(1, 1, 1, [], "")], map[]);
    assert q.draft.overlays == map[5 := q.draft.overlays[5]];
  }

  lemma RoundAccepted(d: Draft)
    requires d.error.None? && d.rooted && d.audio == Routing.NO_AUDIO
    requires d.view == ShardView(map[0 := NewChannel(ROOT, ROOT, ROOT, [], "")], map[])
    requires d.overlays == map[5 := ShardView(map[1 := NewChannel(1, 1, 1, [], "")], map[])]
    ensures Accepted(d, map[5 := {ROOT_SCOPE}])
    ensures !TreeShaped(OverlayIn(d.overlays, 5))
  {
    assert Visibility.Accepts(Routing.NO_AUDIO, SightOf(d.view, d.overlays, map[5 := {ROOT_SCOPE}]));
    forall rank ensures !RankedWithin(d.overlays[5], rank) {
      assert !HangsWithin(d.overlays[5], rank, 1);
    }
  }

  /** A private channel placed again below itself: accepted, and what the connection is meant to hold goes round. */
  lemma RoundOverlay()
    ensures var p := B.Run(B.Begin(Identifiers.NEW_IDS, 0), ROUND);
      && B.AllAllowed(B.Begin(Identifiers.NEW_IDS, 0), ROUND) && !p.strayed
      && Accepted(p.draft, map[5 := {ROOT_SCOPE}])
      && !TreeShaped(OverlayIn(p.draft.overlays, 5))
  {
    hide B.After, Accepted, TreeShaped, OverlayIn;
    var p := B.Begin(Identifiers.NEW_IDS, 0);
    RoundStates();
    B.RunNext(p, [], ROUND[0]);
    B.RunNext(p, [ROUND[0]], ROUND[1]);
    B.RunNext(p, [ROUND[0], ROUND[1]], ROUND[2]);
    hide B.Run, B.AllAllowed;
    assert [] + [ROUND[0]] == [ROUND[0]] && [ROUND[0]] + [ROUND[1]] == [ROUND[0], ROUND[1]];
    assert [ROUND[0], ROUND[1]] + [ROUND[2]] == ROUND;
    RoundAccepted(B.After(B.After(B.After(p, ROUND[0]), ROUND[1]), ROUND[2]).draft);
  }
}
