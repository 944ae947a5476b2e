/**
 What the builder gives the transition engine: two accepted renders are views the prefix-safety
 theorem applies to, as long as no surviving channel changes scope.
 */
module RenderedSafety {
  import opened Collections
  import opened Scopes
  import opened Views
  import opened Planner
  import opened Clients
  import opened Deltas
  import opened Composition
  import opened Ordering
  import opened PrefixSafety
  import opened Builds
  import opened BuildRuns

  /** Channels present in both views keep their scope. */
  ghost predicate ScopesStay(before: ShardView, after: ShardView) {
    forall id | id in before.channels && id in after.channels :: before.channels[id].scope == after.channels[id].scope
  }

  lemma SoundViewsTravel(before: ShardView, after: ShardView, see: ScopeSet)
    requires WellKeyed(before) && WellKeyed(after) && SoundView(before) && SoundView(after)
    ensures Travels(before, after, see)
    ensures ScopesStay(before, after) ==> NoneRevealed(before, after, see)
  {
    hide SoundView, WellKeyed, Sees, Restrict, ClosedView, Tree;
    SoundIsClosedTree(before);
    SoundIsClosedTree(after);
    RestrictedIsClosed(before, see);
    RestrictedIsClosed(after, see);
  }

  /**
   From one sound render to the next, what any observer receives is safe at every prefix and
   leaves it the new view.
   */
  lemma RenderedTransitionSafe(before: ShardView, after: ShardView, see: ScopeSet)
    requires WellKeyed(before) && WellKeyed(after)
    requires SoundView(before) && SoundView(after) && ScopesStay(before, after)
    ensures SafeRun(Show(Restrict(before, see)), Received(before, after, see))
    ensures Clients.Run(Show(Restrict(before, see)), Received(before, after, see)) == Show(Restrict(after, see))
  {
    hide SoundView, WellKeyed, Sees, Restrict, Travels, SafeRun, Clients.Run, Received, ScopesStay;
    SoundViewsTravel(before, after, see);
    NoneRevealedSuffices(before, after, see);
    ReceivedSafe(before, after, see);
    ReceivedExact(before, after, see);
  }
}
