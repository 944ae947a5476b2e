# Mumble Server Runtime: a Dafny model of its hard core

This project models the parts of the runtime in which a fast or incremental form must agree with
a simple one, or in which a protocol must keep a promise over every run, and proves that they do
or states exactly when.

* **The view-transition engine of a shard.** `Scopes`, `Views`, `Planner` (Plan.dfy), `Clients`,
  `Deltas`, `Composition` (Compose.dfy), `OverlayDeltas`, `FastPath`, `Windows` (Window.dfy),
  `Pushes`, `Replans`, `Ordering`, `PrefixSafety`, `Emission` (Emit.dfy), `Journals`, `Queues`,
  `Shards`, `ShardRuns`, `ShardProgress`, `PushSafety`, `ReplanSafety`, `OverlayLeaving`,
  `OverlayArriving`, `OverlayPushes`, `OverlayBatches`, and the concrete histories `WindowExample`,
  `ForgottenExample` and `PrivateOrderExample`.
  A client is modelled by what it holds (`Clients`): creations and additions write a whole element,
  updates and moves patch it, removals delete it. Views are compared on planned fields only,
  because `can_text` is never diffed. The main results are `FastPathExact`, `WindowExact`,
  `ReceivedSafe`, `SlowPath`, `ReplanExactWhen`, `RunsAreFaithful`, `ReconcileArrives`,
  `ChangingBatchesOfRuns` and `ReplansOfRunsSafe`.
* **Renders.** `Builds`, `BuildRuns` and `BuildLaws` (the builder and its closure theorem), `Routing` (the audio
  relation and its compiled table), `Visibility` (the counting check against the pairwise one),
  `RenderAudio` (what the check promises about compiled routes), `RenderedSafety`, `RenderContract`
  and `OverlayTrees` (what the engine relies on from an accepted render, proved of the builder), and
  `RevealedExample` and `BlindExample` (concrete renders).
* **Identity and migration.** `Identifiers`, `IdRuns`, `Migration` (a system of whole shards, mailboxes
  and migration tasks), `Handovers` (when what is handed over is what the client holds),
  `Strandings`, `LateMoves` and `Arrivals` (who is left behind, and who arrives).
* **The voice channel.** `Bytes`, `Blocks`, `Ocb2`, `OcbLaws`, `Nonces`, `CryptStates`, `ReplayRuns`,
  `Genuineness` (Genuine.dfy).
* **Smaller machines.** `VoiceBudgets` (Limits.dfy), `LimitRuns` and `Admissions`, `Framing`,
  `Ownership`.

Code that updates state in place is modelled by classes and loops proved against specification
functions, and the theorems are stated about those functions. Runs are sequences of steps from a
new state, in any order and of any length.

What comes from outside is a parameter: the block cipher is any function with an inverse, the clock
is handed in, the outcome of a queue's admission is a verdict per connection and turn, decoding a
frame is any partial function, generated tokens are part of a claim.

## Where a promise needs a condition

* `ReplayWindow`: collapsing looks at the whole window, so an element added in one version and
  withdrawn in a later one is left over. The theorem says exactly which elements are, and
  `WindowLeavesRoom` is a window that leaves one. Under an overlay that stays the same, `RetryExact`
  gives the exact condition: every leftover is in the overlay as it was last seen.
* `WindowExact`: the overlay's operations go in before the first removal of the whole window, so what
  later versions say about an element follows what the overlay says. The theorem is exact for every
  change of overlay; `SharedOverPrivate` is a window after which the client holds the wrong room.
* `RunsAreFaithful`: each push meets the exact condition of `WindowExact`, each retry's overlay is
  disjoint from the shared view, and each replan meets the exact condition of `ReplanExactWhen`. A
  record at the newest version always does. The shard plans a replan from
  its newest view even for a client that lags: `RoomForgotten` is a run in which the client keeps a
  channel for it.
* `Handovers.RunsStayExact`: a migration hands over what the source composes from its newest view,
  which a client whose last batch was refused need not hold (`RoomNotHandedOver`). Where the shards
  keep to the guards of `RunsAreFaithful`, that is the only way anybody comes to be wrong about a
  client.
* `ReceivedSafe`: `order_creations` counts every old channel as present, seen or not, so a new
  channel can be created before the channel it hangs from is revealed. The exact condition is on the
  two views, and `RevealedParentTooLate` is a pair of renders that fails it.
* `ChangingPushSafe`: private channels are created in the order of their identifiers, and private
  removals come before private moves, so a batch that changes an overlay can create a channel below
  one that is still to come (`ParentBornTooLate`) or remove one with somebody in it
  (`GuestMovedTooLate`). The exact condition is on the two renders.
* `StrandedExactly`, `NobodyLeftBehind`: destroying a shard is documented to close its connections. A
  migration that points its connection at the shard after that, and hands it over before the shard's
  task is gone, leaves it open with nobody to update it (`LateMoveStrands`). Nothing else does, apart
  from a registration no mailbox takes, which is reported to its caller.
* `ReplansOfRunsSafe`: stated for clients that hold what the replan was planned from. Its targets
  must be trees, and an accepted overlay need not be one (`TargetIsTree`, `RoundOverlay`).
* `Closure`: the builder's documentation says an incoherent view is inexpressible. A private handle
  used as a shared parent expresses one (`LeakedHandle`); the theorem says that nothing else does,
  for handles that come from the same render.
* `CountingIsPairwise`: the check's documentation says counting keeps the exclusion exact. It does,
  except for an outside listener and the only member at the listener's own scope
  (`BlindSpotExists`).
* `SplitRefill`: a comment says the remainder of a refill stays on the clock. The code drops it
  (`RemainderDropped`).
* `EveryCounterAccounted`: a late packet does not take the last lost counter off, so two packets that
  arrive swapped leave one lost (`SwappedPairStaysLost`).
* `FreshHistoryRefuses`, `RefusedByHistory`: the replay history is one byte per low byte, zero at
  first, so it also refuses some packets it never saw; the lemmas say which.
* `TokenReturns`: the collision check looks at live tokens only, so a token comes back exactly when
  a claim acquires it again; `RepeatedTokenRevives` is such a run, and `FencedForEver` is what holds
  when generated tokens do not repeat.

## Model

| member | source | states |
|---|---|---|
| Scopes.Child | runtime/crates/shard/src/scope.rs:72-85 | a child scope is one segment longer, lies in its parent's branch, and is refused, not saturated, past depth four |
| Scopes.Observe | runtime/crates/shard/src/scope.rs:147-163 | an observation has exactly the scopes given, and is refused exactly when more than four are distinct |
| Scopes.SeesAncestors | runtime/crates/shard/src/scope.rs:95-171 | whoever sees a scope sees every scope above it |
| Scopes.SeesExactly | runtime/crates/shard/src/scope.rs:93-171 | an element is seen exactly when some place lies below both it and an observed scope |
| Scopes.SiblingsApart | runtime/crates/shard/src/scope.rs:101-108 | whoever observes only places of one branch sees nothing of a sibling branch, at any depth |
| Scopes.RootSeesAll | runtime/crates/shard/src/scope.rs:95-171 | observing the root scope is observing everything |
| Planner.PlaceReady | runtime/crates/shard/src/plan.rs:420-444 | one pass of `order_creations`: what it places, what still waits, and what counts as present afterwards |
| Planner.OrderCreations | runtime/crates/shard/src/plan.rs:420-444 | the loop of passes computes the recursive order `Ordered`, giving up when a pass places nothing |
| Ordering.OrderedParentsFirst | runtime/crates/shard/src/plan.rs:420-444 | every channel comes after its parent, whenever each one hangs from itself, from something present or from another one ranked below it |
| Ordering.OrderedMembers | runtime/crates/shard/src/plan.rs:420-444 | ordering neither adds nor loses a channel |
| Deltas.OrderedKeeps | runtime/crates/shard/src/plan.rs:420-444 | ordering keeps each identifier's channel exactly once |
| Planner.DepthIn | runtime/crates/shard/src/plan.rs:458-472 | the walk to the root with its visited set computes the depth, cycles and missing parents included |
| Planner.OverlayDepth | runtime/crates/shard/src/plan.rs:474-489 | the walk inside an overlay computes the private depth |
| OverlayLeaving.PrivateChildIsDeeper | runtime/crates/shard/src/plan.rs:474-489 | where private channels do not go round, one is exactly one deeper than what it hangs from |
| Ordering.VisitedIrrelevant | runtime/crates/shard/src/plan.rs:458-472 | in a tree the visited set never stops the walk |
| Ordering.ChildIsDeeper | runtime/crates/shard/src/plan.rs:458-472 | in a tree a channel is exactly one deeper than its parent |
| Planner.DeepestFirstOrdered | runtime/crates/shard/src/plan.rs:448-456 | removals come deepest first, ties broken by identifier, no channel twice |
| Planner.OrderRemovals | runtime/crates/shard/src/plan.rs:448-456 | the sort of removed channels is that order |
| Planner.PlanChannels | runtime/crates/shard/src/plan.rs:194-214 | the channel loop: arrivals, patches and rescoped channels are those of the specification |
| Planner.PlanGoneChannels | runtime/crates/shard/src/plan.rs:215-219 | the loop over old channels finds exactly those missing from the new view |
| Planner.PlanUsers | runtime/crates/shard/src/plan.rs:221-256 | the user loop: additions, moves, patches and re-homings, in key order |
| Planner.PlanGoneUsers | runtime/crates/shard/src/plan.rs:257-264 | the loop over old users finds exactly those withdrawn |
| Planner.EmitCreations | runtime/crates/shard/src/plan.rs:266-273 | each ordered arrival becomes a creation at its own scope |
| Planner.EmitWithdrawals | runtime/crates/shard/src/plan.rs:279-284 | each ordered departure becomes a removal at its old scope |
| Planner.PlanWithdrawals | runtime/crates/shard/src/plan.rs:208-284 | channels gone or rescoped are withdrawn, deepest first |
| Planner.PlanTransition | runtime/crates/shard/src/plan.rs:185-286 | the imperative plan equals the seven-phase plan `Plan(before, after)` |
| Planner.PlanPrivateChannels | runtime/crates/shard/src/plan.rs:320-330 | the overlay's channel loop: new private channels and patches |
| Planner.PlanTrailing | runtime/crates/shard/src/plan.rs:337-353 | the overlay's user loop: moves and patches after the additions |
| Planner.OrderPrivateRemovals | runtime/crates/shard/src/plan.rs:367-379 | the sort of private removals is deepest first; `RemovalOrder` says what that means for a client |
| Planner.PlanPrivateGoneUsers | runtime/crates/shard/src/plan.rs:354-358 | private users gone are withdrawn |
| Planner.PlanPrivateRemovals | runtime/crates/shard/src/plan.rs:331-379 | the removals half of an overlay plan |
| Planner.PlanOverlay | runtime/crates/shard/src/plan.rs:313-385 | the imperative overlay plan equals `PlanElements(before, after)` |
| OverlayLeaving.RemovalOrder | runtime/crates/shard/src/plan.rs:354-379 | in the removals half of an overlay plan every user leaves before any channel, and every private channel before the one it hangs from |
| OverlayLeaving.RemovalMembers | runtime/crates/shard/src/plan.rs:354-379 | that half holds exactly the private elements that are no more |
| OverlayLeaving.LeavingSafe | runtime/crates/shard/src/plan.rs:354-379 | on its own, that half is safe at every prefix if and only if no private element that stays hangs from a private channel that goes |
| OverlayLeaving.LeavingSafeHeld | runtime/crates/shard/src/plan.rs:354-379 | the same for a client that holds a view's visible part and the overlay |
| OverlayArriving.AdditionOrder | runtime/crates/shard/src/plan.rs:320-385 | in the additions half channels are created before anything else, the smaller identifier first |
| OverlayArriving.BirthsAre | runtime/crates/shard/src/plan.rs:360-365 | ordering from an empty view places nothing, so new private channels stay in identifier order |
| OverlayArriving.ArrivingSafe | runtime/crates/shard/src/plan.rs:320-385 | that half is safe at every prefix, for a client that holds the rest of what the overlay refers to, if and only if each new private channel's identifier is larger than its new parent's |
| Clients.ApplyAt | runtime/crates/shard/src/plan.rs:111-159 | an operation changes what the client holds of its own target and of nothing else |
| Clients.RunAt | runtime/crates/shard/src/plan.rs:111-159 | the effect of a list of operations on one element is that of the operations about it |
| Deltas.PlanIsDelta | runtime/crates/shard/src/plan.rs:185-286 | for any two views, the plan's operations about each element are exactly what takes it from its old to its new state, additions before patches before removals |
| Deltas.EmptyPlanMeansAlike | runtime/crates/shard/src/plan.rs:185-286 | a plan is empty exactly when the two views agree on every planned field |
| Deltas.DeltaBetweenAlike | runtime/crates/shard/src/plan.rs:387-412 | a plan serves any two views that agree with its own on planned fields (`can_text` is not one) |
| OverlayDeltas.PlanElementsIsDelta | runtime/crates/shard/src/plan.rs:313-385 | the same of an overlay plan, split into its additions and its removals |
| OverlayDeltas.UnchangedOverlay | runtime/crates/shard/src/plan.rs:313-385 | an unchanged overlay plans nothing |
| Composition.FilterOps | runtime/crates/shard/src/compose.rs:38-43 | the filtering loop computes `Filter` |
| Composition.FilterOn | runtime/crates/shard/src/compose.rs:38-43 | filtering commutes with looking at one element |
| Composition.FilterKeepsTrail | runtime/crates/shard/src/compose.rs:38-43 | filtering keeps removals at the end |
| Composition.SpliceOverlay | runtime/crates/shard/src/compose.rs:62-77 | cutting at the first removal and inserting the overlay's halves computes `Splice` |
| Composition.SpliceOn | runtime/crates/shard/src/compose.rs:62-77 | per element: shared additions, private removals, private additions, shared removals |
| Composition.CollapseOps | runtime/crates/shard/src/compose.rs:97-100 | the retain pass computes `Collapse` |
| Composition.CollapseOn | runtime/crates/shard/src/compose.rs:97-100 | per element: removals are dropped exactly when an addition is present |
| FastPath.ElementTransition | runtime/crates/shard/src/compose.rs:38-100 | for one element, through every combination of shared and private presence before and after, the collapsed splice takes it to its target |
| FastPath.FastPathExact | runtime/crates/shard/src/compose.rs:38-100 | fast path equals definition: the collapsed splice of the filtered plan takes restrict(before)+old overlay to restrict(after)+new overlay, for any observation and overlay change, each overlay disjoint from its own restricted view |
| Composition.SiblingsNeverHear | runtime/crates/shard/src/compose.rs:38-43 | a connection that observes one branch neither holds an element of a sibling branch nor is sent anything about it |
| OverlayPushes.BatchInParts | runtime/crates/shard/src/compose.rs:62-100 | where no element changes sides, a batch is the shared additions, the private removals, the private additions and the shared removals, collapsed as they would be alone |
| OverlayPushes.ChangingPushSafe | runtime/crates/shard/src/compose.rs:38-100 | a push of one version with any change of the overlay is safe at every prefix if and only if what is revealed is revealed in time, nothing private is left hanging and new private channels hang from older ones |
| OverlayBatches.ChangingBatchSafe | runtime/crates/shard/src/shard.rs:1552-1591 | the same of a committed push to a client whose record is up to date |
| OverlayBatches.ChangingBatchesOfRuns | runtime/crates/shard/src/shard.rs:1552-1591 | the same at every step of every guarded run |
| PrivateOrderExample.ParentBornTooLate | runtime/crates/shard/src/plan.rs:320-365 | an accepted render that makes a client create a private channel below one it does not hold yet |
| PrivateOrderExample.GuestMovedTooLate | runtime/crates/shard/src/compose.rs:62-77 | two accepted renders between which a private channel is removed with a private user still in it |
| Journals.Journal.constructor | runtime/crates/shard/src/journal.rs:55-62 | a new journal is the empty log |
| Journals.Journal.Push | runtime/crates/shard/src/journal.rs:79-91 | pushing onto the bounded ring appends to the unbounded log it refines |
| Journals.Journal.Replay | runtime/crates/shard/src/journal.rs:96-119 | replaying the ring is replaying the log, refused past the tail |
| Journals.ReplayInPieces | runtime/crates/shard/src/journal.rs:96-119 | a replay is the concatenation of replays of its parts |
| Journals.ReplayWithinDepth | runtime/crates/shard/src/journal.rs:79-119 | a replay to the head succeeds exactly within 256 versions |
| Windows.VersionStep | runtime/crates/shard/src/compose.rs:97-100 | what one version does to one element, with and without removals |
| Windows.ReplayWindow | runtime/crates/shard/src/compose.rs:97-100 | replaying any window, filtered and collapsed, gives the target view plus precisely the elements that arrived in the window and are gone at its end; it is exact if and only if there are none |
| Pushes.VersionWithdraws | runtime/crates/shard/src/compose.rs:62-77 | a version has a removal among what an observer receives exactly when something leaves its sight |
| Pushes.CutSplits | runtime/crates/shard/src/compose.rs:62-77 | what a whole window says about an element before and after the splice, version by version: the overlay goes in after the first version from which anything leaves |
| Pushes.WindowExact | runtime/crates/shard/src/shard.rs:1552-1591 | a push over any window and any overlay change, each overlay disjoint from the shared view at its own end, is exact if and only if every element settles: one new or different in the overlay is left as the overlay has it by the additions and patches after the splice, any other is no leftover or is in the overlay as last seen |
| Pushes.ApartIsSettled | runtime/crates/shard/src/shard.rs:1552-1591 | where nothing new in the overlay was seen shared in a version missed, every element settles if and only if the leftovers are covered |
| WindowExample.SharedOverPrivate | runtime/crates/shard/src/compose.rs:62-77 | four versions after which a client is left with the shared room instead of its private one |
| Windows.RetryExact | runtime/crates/shard/src/shard.rs:1304-1320 | a retry over any window, its overlay disjoint at both ends, is exact if and only if every leftover is in the overlay as it was last seen |
| WindowExample.WindowLeavesRoom | runtime/crates/shard/src/compose.rs:97-100 | three versions in which a room comes and goes, and a replay that leaves it |
| Ordering.SafeRunKeepsClosed | runtime/crates/shard/src/plan.rs:266-285 | a safe run leaves the client closed at every prefix |
| PrefixSafety.CreationsSafe | runtime/crates/shard/src/plan.rs:266-273 | the creations an observer receives are safe if and only if nothing hangs from a revealed channel still to come |
| PrefixSafety.RemovedMembers | runtime/crates/shard/src/plan.rs:279-284 | a channel is withdrawn from an observer exactly when it was visible and no longer is |
| PrefixSafety.BeforeRemovals | runtime/crates/shard/src/plan.rs:266-284 | before the last phase the client already holds every channel of its target as the target shows it |
| PrefixSafety.ReceivedExact | runtime/crates/shard/src/compose.rs:38-100 | the filtered, collapsed plan takes restrict(before) to restrict(after) |
| PrefixSafety.FirstPass | runtime/crates/shard/src/plan.rs:420-444 | which arrivals the first pass places, read off the two views: those whose chain of parents runs through smaller arriving identifiers to itself or to an old channel |
| PrefixSafety.RevealedFirstOnViews | runtime/crates/shard/src/plan.rs:420-444 | an arrival under an unseen old channel follows it in the creation order if and only if that channel has the smaller identifier and is placed in the first pass |
| PrefixSafety.ReceivedSafe | runtime/crates/shard/src/plan.rs:266-285 | between closed trees, every prefix an observer receives is safe if and only if each such revealed parent is in time, a condition on the two views and the observation alone |
| PrefixSafety.NoneRevealedSuffices | runtime/crates/shard/src/plan.rs:420-444 | when no surviving channel becomes visible, none is late |
| PrefixSafety.SlowPath | runtime/crates/shard/src/shard.rs:1603-1643 | between closed trees the collapsed plan is exact, safe at every prefix, and leaves the client closed at every prefix |
| RenderedSafety.RenderedTransitionSafe | runtime/crates/shard/src/plan.rs:266-285 | between two accepted renders in which no surviving channel changes scope, every observer's transition is exact and safe at every prefix |
| RevealedExample.RevealedParentTooLate | runtime/crates/shard/src/plan.rs:420-444 | two accepted builder call sequences, the second on the allocator the first left, and an observer that is told of a channel before its newly revealed parent |
| Emission.PickFrom | runtime/crates/shard/src/emit.rs:321-324 | selecting the self additions, or the others, of one run |
| Emission.RunEnd | runtime/crates/shard/src/emit.rs:310-316 | the scan finds the end of a run of user additions |
| Emission.SelfFirstWithinUserAdditions | runtime/crates/shard/src/emit.rs:298-328 | the loop over runs computes `SelfFirst` |
| Emission.SelfFirstPermutes | runtime/crates/shard/src/emit.rs:298-328 | the reordering is a permutation |
| Emission.SelfFirstMeansTheSame | runtime/crates/shard/src/emit.rs:298-328 | it leaves every client in the same state |
| Emission.SelfFirstSafe | runtime/crates/shard/src/emit.rs:298-328 | the reordered sequence is safe at every prefix exactly when the sequence is |
| Emission.SelfLeads | runtime/crates/shard/src/emit.rs:298-332 | within a run no other user precedes the client itself |
| Queues.OutboundQueue.constructor | runtime/crates/shard/src/queue.rs:82-100 | an empty open queue of at least one slot |
| Queues.OutboundQueue.TrySendAll | runtime/crates/shard/src/queue.rs:110-145 | a batch is admitted whole or not at all, exactly when open with room; which refusal, and when the connection must close |
| Queues.OutboundQueue.PushVoice | runtime/crates/shard/src/queue.rs:153-166 | voice is admitted exactly while the queue is open and short, and never deepens it past the voice bound |
| Queues.OutboundQueue.Take | runtime/crates/shard/src/queue.rs:89-100 | taking delivers the oldest and changes nothing about what was admitted |
| Shards.DeliverTo | runtime/crates/shard/src/shard.rs:1564-1591 | the commit point: the record advances exactly when the queue accepts |
| Shards.ShardObject.constructor | runtime/crates/shard/src/shard.rs:550-572 | a new shard at version zero |
| Shards.ShardObject.Attach | runtime/crates/shard/src/shard.rs:672-704 | attaching records the view the client holds |
| Shards.ShardObject.Detach | runtime/crates/shard/src/shard.rs:719-774 | detaching hands over the composed view, or tears it down |
| Shards.ShardObject.PushTo | runtime/crates/shard/src/shard.rs:1552-1591 | the fast path of one connection |
| Shards.ShardObject.ReplanTo | runtime/crates/shard/src/shard.rs:1603-1643 | the slow path of one connection |
| Shards.ShardObject.Retry | runtime/crates/shard/src/shard.rs:1304-1320 | a drained retry of one connection, with the overlay it already has |
| Shards.ShardObject.TakeTurn | runtime/crates/shard/src/shard.rs:1494-1521 | one connection's turn: a push, or a replan when its observation moved |
| Shards.ShardObject.TakeTurns | runtime/crates/shard/src/shard.rs:1490-1526 | every connection takes its turn against the same previous view |
| Shards.ShardObject.Publish | runtime/crates/shard/src/shard.rs:1402-1537 | journal the delta, then turn every connection |
| Shards.ShardObject.Reconcile | runtime/crates/shard/src/shard.rs:1323-1537 | a refused render changes nothing, an idle one sends nothing, any other publishes; `ReconcileArrives` says what either achieves |
| ShardRuns.DeliverFaithful | runtime/crates/shard/src/shard.rs:1564-1591 | only accepted batches move the record, and then the client holds the target |
| ShardRuns.PushExact | runtime/crates/shard/src/shard.rs:1552-1591 | a push takes the committed view to the new one if and only if it settles every element |
| ShardRuns.OneVersionSettles | runtime/crates/shard/src/shard.rs:1552-1591 | at most one version behind, it always does, whatever the overlay change |
| Replans.ReplanExactWhen | runtime/crates/shard/src/shard.rs:1603-1643 | the collapsed plan between two views, applied to any client at all, gives the second view if and only if every element mends: absent from both views it is absent from the client, present in both at one scope the client agrees with the first wherever the second does |
| Replans.UnplannedStays | runtime/crates/shard/src/shard.rs:1603-1643 | an element of the client that neither view has is left as it is |
| ShardRuns.ReplanExact | runtime/crates/shard/src/shard.rs:1603-1643 | a replan takes any composed view to any other |
| ShardRuns.ReplanExactly | runtime/crates/shard/src/shard.rs:1603-1643 | a replan leaves the client what was wanted if and only if every element the record says it holds mends |
| ShardRuns.UpToDateReplans | runtime/crates/shard/src/shard.rs:1603-1643 | a record at the newest version, or still holding its attach view, always replans exactly |
| ShardRuns.TurnFaithful | runtime/crates/shard/src/shard.rs:1494-1521 | one turn keeps the folded batches equal to the committed composed view |
| ShardRuns.RunsAreFaithful | runtime/crates/shard/src/shard.rs:1323-1643 | over every guarded run of attach, reconcile, retry, refusal and detach: folding every accepted batch over the view held at attach gives exactly the committed record's composed view |
| ShardRuns.CommittedPushFaithful | runtime/crates/shard/src/shard.rs:1494-1521 | one committed push in a faithful world leaves the client the record's view if and only if it settles every element |
| ShardRuns.CommittedReplanFaithful | runtime/crates/shard/src/shard.rs:1494-1521 | one committed replan in a faithful world leaves the client the record's view if and only if every element mends |
| ShardRuns.CommittedRetryFaithful | runtime/crates/shard/src/shard.rs:1304-1320 | one committed retry leaves the client the record's view if and only if the overlay covers every leftover |
| ShardRuns.UpToDateTurnIsGuarded | runtime/crates/shard/src/shard.rs:1494-1521 | a turn of an up-to-date connection meets the guard, whatever the render and the observation |
| ShardRuns.HandoverExact | runtime/crates/shard/src/shard.rs:719-749 | what a migration hands over shows what the client holds if and only if the connection still holds its attach view or the newest view shows it what its cursor's version does |
| ShardRuns.UpToDateHandsOver | runtime/crates/shard/src/shard.rs:484-489 | an up-to-date record hands over what the client holds |
| ForgottenExample.RoomForgotten | runtime/crates/shard/src/shard.rs:484-489 | a reachable run: a room shown, its removal refused, the observation changed; the replan commits and the client keeps the room |
| ForgottenExample.RoomNotHandedOver | runtime/crates/shard/src/shard.rs:719-749 | in the same run a migration would hand the client on without the room it holds |
| PushSafety.ClearSafe | runtime/crates/shard/src/plan.rs:266-285 | operations that are not about private elements, refer to none and remove nothing they hang from are safe beside them exactly when they are without them |
| PushSafety.ReceivedIsClear | runtime/crates/shard/src/plan.rs:266-285 | what an observer receives is such, while its overlay stays the same and refers only to what it sees |
| PushSafety.PushSafe | runtime/crates/shard/src/plan.rs:266-285 | a push to a client with an unchanged overlay is safe at every prefix if and only if every channel it reveals is in time |
| PushSafety.PushBatchSafe | runtime/crates/shard/src/shard.rs:1552-1591 | so is the batch a queue accepts for an up-to-date record, self first |
| PushSafety.PushesOfRunsSafe | runtime/crates/shard/src/shard.rs:1323-1591 | and so is every such push of every guarded run |
| ReplanSafety.ShownTree | runtime/crates/shard/src/plan.rs:266-285 | a view is a closed tree exactly when what it shows a client is |
| ReplanSafety.RunsStayTreed | runtime/crates/shard/src/shard.rs:1323-1643 | over every guarded run whose targets and attach views are closed trees, every client holds a closed tree at every point |
| ReplanSafety.ReplanBatchSafe | runtime/crates/shard/src/shard.rs:1603-1643 | a committed replan sent to a client that holds what it was planned from is safe and closed at every prefix, self first, and exact |
| ReplanSafety.ReplansOfRunsSafe | runtime/crates/shard/src/shard.rs:1603-1643 | so is every such replan of every such run, up-to-date records included |
| ShardProgress.ReconcileArrives | runtime/crates/shard/src/shard.rs:1323-1537 | after every reconcile, idle or not, a connection that was up to date and whose queue accepts is at the newest version with the observation asked for and the overlay given, and its client holds exactly the render restricted to it with that overlay on top |
| ShardProgress.IdleHasArrived | runtime/crates/shard/src/shard.rs:1365-1389 | where the shard decides that nothing changed, every up-to-date client already holds what the render wants |
| ShardProgress.AcceptedTurnAdvances | runtime/crates/shard/src/shard.rs:1552-1643 | an accepted batch commits the record, unless the journal no longer reaches back to its cursor |
| ShardProgress.RefusedSendsNothing | runtime/crates/shard/src/shard.rs:1564-1643 | a refused batch is not sent, and the record stays or says no more than the client holds |
| ShardProgress.OutcomeExactly | runtime/crates/shard/src/shard.rs:1539-1643 | a connection is closed for falling out of the journal or for a fatal queue, kept waiting for congestion only, and advanced otherwise |
| ShardProgress.RetryCatchesUp | runtime/crates/shard/src/shard.rs:1304-1320 | an accepted retry within reach of the journal brings the record to the newest version, nothing else changed |
| ShardProgress.TeardownLeavesNothing | runtime/crates/shard/src/shard.rs:719-774 | the teardown of a departing, up-to-date connection leaves its client with nothing |
| Identifiers.IdAllocator.constructor | runtime/crates/shard/src/ids.rs:159-170 | nothing allocated, both spaces starting at one |
| Identifiers.IdAllocator.Channel | runtime/crates/shard/src/ids.rs:181-193 | an identity keeps its channel id; a new one takes the next number until the space is exhausted |
| Identifiers.IdAllocator.Session | runtime/crates/shard/src/ids.rs:197-207 | the same of occupants and sessions |
| Identifiers.RetainedOrReplaced | runtime/crates/shard/src/ids.rs:231-235 | after retention an identity asks and gets its old id back exactly when it was retained or is another shard's; otherwise the id is dead and it gets another; sessions are untouched |
| Identifiers.RetiredIsReplaced | runtime/crates/shard/src/ids.rs:237-241 | the same of retirement, by id |
| Identifiers.AfterConsistent | runtime/crates/shard/src/ids.rs:181-240 | every call keeps ids injective, nonzero and below the next number |
| Identifiers.HeldOrDead | runtime/crates/shard/src/ids.rs:181-240 | an id once held is still held by the same identity, or dead for ever |
| Identifiers.NeverReused | runtime/crates/shard/src/ids.rs:181-240 | over every run, two calls return the same channel id only for one identity that held it all the while |
| Identifiers.SessionsStable | runtime/crates/shard/src/ids.rs:197-207 | over every run, two calls return the same session exactly for the same occupant |
| IdRuns.RunsKeepInvariant | runtime/crates/shard/src/shard.rs:1408-1425 | every run of a shard together with its allocator keeps withdrawn ids gone |
| IdRuns.RemovedIdsNeverReturn | runtime/crates/shard/src/shard.rs:1645-1652 | while a client stays on one shard, no accepted operation creates a non-root channel id whose removal it already accepted |
| Migration.Traced | runtime/crates/gateway/src/runtime.rs:417-489 | whatever has a connection after a step had it before, at one traced origin, and only a shard's own work changes the view there |
| Migration.Separate | runtime/crates/gateway/src/runtime.rs:417-489 | no step splits one place into two |
| Migration.NextSinglePlace | runtime/crates/gateway/src/runtime.rs:289-326 | every step keeps the single-place invariant |
| Migration.RunsKeepSinglePlace | runtime/crates/gateway/src/runtime.rs:390-502 | under every interleaving of migrations, mailboxes, destruction and whatever the shards do in between, attaching shards, queued attaches and travelling views number at most one per connection |
| Migration.TravelsAsComposed | runtime/crates/shard/src/shard.rs:719-749 | what travels with a migration is exactly what the source composed at the step at which it handled that migration's detach |
| Migration.HandOverDeliversComposed | runtime/crates/gateway/src/runtime.rs:417-489 | the destination is asked to attach with exactly that view, and until it does nobody else has the connection |
| Handovers.HealthyNext | runtime/crates/gateway/src/runtime.rs:390-502 | every step keeps every shard's run faithful to its own records, handed-over views included |
| Handovers.NextExact | runtime/crates/shard/src/shard.rs:719-749 | at every step: where whoever has the connection was right about its client, they are right afterwards if and only if the step hands over nothing the client does not hold |
| Handovers.RunsStayExact | runtime/crates/gateway/src/runtime.rs:390-502 | over every run whose shards keep to their guards: shards, mailboxes and migrations are right about a client at every point if and only if each hand-over found it holding its attach view or seeing the same in the newest view |
| Handovers.HandOverDeliversClientView | runtime/crates/gateway/src/runtime.rs:417-489 | the view queued at the destination shows what the client holds at that moment if and only if the source's newest view did when it handled the detach |
| Builds.Narrowed | runtime/crates/shard/src/build.rs:467-483 | narrowing keeps the scope or adds the one segment asked for, and refuses past depth four |
| Builds.ShardBuilder.constructor | runtime/crates/shard/src/build.rs:221-240 | an empty render |
| Builds.ShardBuilder.Refuse | runtime/crates/shard/src/build.rs:485-487 | the first refusal wins |
| Builds.ShardBuilder.Root | runtime/crates/shard/src/build.rs:248-276 | places the root once |
| Builds.ShardBuilder.Channel | runtime/crates/shard/src/build.rs:279-317 | places a channel under a handle, with every refusal in order |
| Builds.ShardBuilder.User | runtime/crates/shard/src/build.rs:320-356 | places a user, recording refusals and going on as the source does |
| Builds.ShardBuilder.Set | runtime/crates/shard/src/build.rs:358-379 | the channel setters touch one channel and none of its placement |
| Builds.ShardBuilder.ChannelLink | runtime/crates/shard/src/build.rs:386-397 | links are symmetric and refused across incomparable scopes |
| Builds.ShardBuilder.SetFlags | runtime/crates/shard/src/build.rs:399-403 | sets one placed user's flags: its placement and identity, every other user and every channel are as before |
| Builds.ShardBuilder.PrivateUser | runtime/crates/shard/src/build.rs:505-529 | places a user in one connection's overlay |
| Builds.ShardBuilder.PrivateChannel | runtime/crates/shard/src/build.rs:532-559 | places a channel in one connection's overlay |
| Builds.ShardBuilder.PrivateFlags | runtime/crates/shard/src/build.rs:561-565 | sets one private user's flags: the rest of that overlay and every other overlay are as before |
| Builds.CheckSharedXorPrivate | runtime/crates/shard/src/build.rs:595-622 | passes exactly when every overlay is disjoint from the shared view |
| Builds.CheckOverlayUsers | runtime/crates/shard/src/build.rs:636-653 | passes exactly when every channel an overlay puts a user in is its own or seen; otherwise names one that is not |
| Builds.CheckOverlayChannels | runtime/crates/shard/src/build.rs:655-671 | the same of the parents of its channels |
| Builds.CheckOverlay | runtime/crates/shard/src/build.rs:636-671 | passes exactly when everything an overlay refers to is its own or seen; otherwise names such a channel |
| Builds.CheckOverlayReferences | runtime/crates/shard/src/build.rs:625-673 | the same of every overlay under its connection's observation |
| Builds.CollectScopes | runtime/crates/shard/src/build.rs:700-704 | the map from connections to shared scopes, last session winning |
| Builds.ShardBuilder.Finish | runtime/crates/shard/src/build.rs:443-464 | a render is accepted exactly when nothing was refused, a root was placed and the three checks pass |
| BuildRuns.ChannelPlaced | runtime/crates/shard/src/build.rs:279-317 | an accepted channel call takes a fresh identifier, narrows, and keeps every identity |
| BuildRuns.UserPlaced | runtime/crates/shard/src/build.rs:320-356 | the same of a user call |
| BuildRuns.RestrictedIsClosed | runtime/crates/shard/src/view.rs:85-102 | every observation of a sound view is closed |
| BuildRuns.ComposedIsClosed | runtime/crates/shard/src/view.rs:108-117 | a sound view's restriction composed with an overlay that refers only to what it sees is closed |
| BuildRuns.RunCoherent | runtime/crates/shard/src/build.rs:248-565 | every sequence of calls, with other shards allocating in between, keeps the builder's invariant |
| BuildRuns.Closure | runtime/crates/shard/src/build.rs:443-483 | for every accepted sequence of calls: the shared view is a closed tree if and only if no shared element was placed under a private handle; then every restriction of it is closed, and so is what each connection is meant to hold, overlay included |
| BuildRuns.LeakedHandle | runtime/crates/shard/src/build.rs:532-559 | an accepted render that leaks a private handle into the shared view, and is not closed |
| OverlayTrees.ComposedIsTree | runtime/crates/shard/src/view.rs:108-117 | a tree with an overlay on top, closed as a whole, is a tree if and only if the overlay's own parents never go round |
| OverlayTrees.TargetIsTree | runtime/crates/shard/src/build.rs:443-464 | for every accepted render without a leaked handle, what a connection is meant to hold is a closed tree if and only if its private channels do not go round |
| OverlayTrees.RoundOverlay | runtime/crates/shard/src/build.rs:532-559 | an accepted render whose private channel hangs from itself |
| RenderContract.AcceptedIsReconcilable | runtime/crates/shard/src/build.rs:443-464 | every accepted render is well formed, apart from its overlays, and draws every id from the allocator: what the shard's and the allocator's runs ask of a render |
| RenderContract.AcceptedTransitionSafe | runtime/crates/shard/src/plan.rs:266-285 | from one accepted sequence of builder calls to the next, no leaked handle and no surviving channel changing scope: every observer's transition is safe at every prefix and exact |
| RenderContract.AcceptedPushSafe | runtime/crates/shard/src/shard.rs:1552-1591 | the same for a connection whose observation and private elements stay the same: its push is exact, and safe at every prefix if and only if every channel it reveals is in time |
| Routing.DeclaringOnlyAdds | runtime/crates/shard/src/routing.rs:92-108 | nothing declared, nobody is heard; each declaration adds exactly the pairs it names and takes none away |
| Routing.Resolve | runtime/crates/shard/src/routing.rs:149-171 | the loops materialise exactly the relation's edges |
| Routing.SessionsOf | runtime/crates/shard/src/routing.rs:266-271 | resolves members to the sessions they are rendered under |
| Routing.ListeningOn | runtime/crates/shard/src/routing.rs:273-278 | who listens to each domain, deafened listeners left out |
| Routing.AddDomain | runtime/crates/shard/src/routing.rs:293-300 | appends one domain's routes and no others |
| Routing.AddDomains | runtime/crates/shard/src/routing.rs:280-301 | the domains' routes, all of them |
| Routing.AddEdges | runtime/crates/shard/src/routing.rs:303-312 | the edges spelled out, silenced ends left out |
| Routing.RouteSplit | runtime/crates/shard/src/routing.rs:259-327 | with one session per connection the routes are those of the domains and those spelled out |
| Routing.Compile | runtime/crates/shard/src/routing.rs:259-327 | between rendered connections the table holds a route exactly when the relation has the edge, the sender is not muted and the receiver not deafened; no muted session is a key, no deafened one in a list, nobody else in either; lists are strictly sorted and never empty |
| Visibility.GroupByScope | runtime/crates/shard/src/build.rs:755-764 | senders counted per scope, and those the shared view does not carry |
| Visibility.Representative | runtime/crates/shard/src/build.rs:807-818 | names a sender at the scope other than the receiver when there is one |
| Visibility.CheckScopes | runtime/crates/shard/src/build.rs:773-787 | one receiver against the counted scopes |
| Visibility.CheckGroup | runtime/crates/shard/src/build.rs:748-803 | accepts exactly when each receiver sees each other sender, one overlooked pair aside; otherwise names a pair it cannot see |
| Visibility.CheckDomains | runtime/crates/shard/src/build.rs:719-727 | every declared domain against itself |
| Visibility.CheckListeners | runtime/crates/shard/src/build.rs:729-737 | every listener against its domain |
| Visibility.CheckReceiversSeeSenders | runtime/crates/shard/src/build.rs:694-745 | accepts exactly what `Accepts` says; a refusal names an edge whose receiver cannot see the sender |
| Visibility.CountingIsPairwise | runtime/crates/shard/src/build.rs:694-843 | given shared-xor-private: every edge of the relation is seen if and only if the counting check accepts and no outside listener fails to see the only member at its own scope |
| Visibility.ObservingOwnScopeSuffices | runtime/crates/shard/src/build.rs:776-780 | when outside listeners observe their own scope, the counting check is the pairwise check |
| BlindExample.BlindSpotExists | runtime/crates/shard/src/build.rs:776-780 | an accepted sequence of builder calls with an audio edge whose receiver is not meant to hold the sender |
| RenderAudio.SharedSessions | runtime/crates/shard/src/shard.rs:1441-1450 | the session map of the shared view |
| RenderAudio.CollectSessions | runtime/crates/shard/src/shard.rs:1437-1471 | the session map and the silence of a render: shared presence first, then a connection's own overlay; one session per connection, and everybody silenced by the flags of the presence collected |
| RenderAudio.SilencedAsFlagged | runtime/crates/shard/src/routing.rs:49-56 | a connection is muted or deafened exactly as the flags of its presence say |
| RenderAudio.CompileRender | runtime/crates/shard/src/shard.rs:1437-1478 | the table compiled from a render routes one participant to another exactly when the relation has the edge, the one's presence does not mute it and the other's does not deafen it |
| RenderAudio.HasPresence | runtime/crates/shard/src/shard.rs:1449-1470 | everybody who takes part in audio has a presence |
| RenderAudio.SeenIsHeld | runtime/crates/shard/src/build.rs:821-843 | a sender the check calls visible is in the receiver's target view under its session |
| RenderAudio.ApartIsXor | runtime/crates/shard/src/build.rs:595-622 | disjoint overlays keep shared and private sight apart |
| RenderAudio.RoutesLandOnHeldSenders | runtime/crates/shard/src/build.rs:694-843 | for every accepted render without that blind spot, every route of the compiled table lands on a receiver whose target view contains the sender's session |
| Blocks.Times2 | runtime/crates/crypto/src/ocb2.rs:41-47 | the in-place shift loop computes `Double` |
| Blocks.Times3 | runtime/crates/crypto/src/ocb2.rs:51-57 | the in-place loop computes `Triple` |
| Blocks.DoubleIsFieldDoubling | runtime/crates/crypto/src/ocb2.rs:38-47 | doubling is multiplication by x in GF(2^128) with reduction polynomial 0x87, on the block as one big-endian number |
| Blocks.FlipXor | runtime/crates/crypto/src/ocb2.rs:129-139 | flipping a bit before or after an XOR is the same |
| Ocb2.AllZeroButLast | runtime/crates/crypto/src/ocb2.rs:115-119 | the OR loop tells whether the first fifteen bytes are zero |
| Ocb2.Examine | runtime/crates/crypto/src/ocb2.rs:111-126 | which block is altered, and which is reported instead |
| Ocb2.OcbEncrypt | runtime/crates/crypto/src/ocb2.rs:95-158 | the single-pass loop computes the mode on the altered plaintext: ciphertext, tag, and the authentic flag exactly |
| Ocb2.OcbDecrypt | runtime/crates/crypto/src/ocb2.rs:169-208 | the single-pass loop opens the ciphertext, recomputes the tag of what it opened, and flags the tail check exactly |
| Ocb2.MitigatedIsNotCritical | runtime/crates/crypto/src/ocb2.rs:111-139 | the alteration changes a text exactly when it was critical, and leaves none critical |
| Ocb2.OpenSeal | runtime/crates/crypto/src/ocb2.rs:95-208 | opening undoes sealing, for every length and offset |
| Ocb2.SealOpen | runtime/crates/crypto/src/ocb2.rs:95-208 | sealing undoes opening, so each is a bijection on texts of one length |
| Ocb2.RoundTrip | runtime/crates/crypto/src/ocb2.rs:95-208 | what was encrypted decrypts to the altered plaintext with the same tag, and to the plaintext itself if and only if it was not critical |
| Ocb2.SealIsInjective | runtime/crates/crypto/src/ocb2.rs:95-158 | under one nonce, two texts seal alike only if they alter alike |
| Nonces.IncrementFrom | runtime/crates/crypto/src/ocb2.rs:382-389 | the carry loop adds one to the counter above a byte |
| Nonces.DecrementFrom | runtime/crates/crypto/src/ocb2.rs:393-401 | the borrow loop takes one away |
| Nonces.IncrementedValue | runtime/crates/crypto/src/ocb2.rs:382-389 | adding one, modulo the counter's size |
| Nonces.DecrementedValue | runtime/crates/crypto/src/ocb2.rs:393-401 | taking one, modulo the counter's size |
| Nonces.DigitsOfValue | runtime/crates/crypto/src/ocb2.rs:378-380 | bytes are the digits of the number they stand for |
| Nonces.ValueIsBijective | runtime/crates/crypto/src/ocb2.rs:378-380 | at each length, bytes and the numbers below 256 to that power stand for each other one to one |
| CryptStates.Distance | runtime/crates/crypto/src/ocb2.rs:307-350 | a recovered distance is in -29..-1 or 1..128 and has the packet's low byte |
| CryptStates.DistanceByBytes | runtime/crates/crypto/src/ocb2.rs:307-350 | the source's byte comparisons compute that distance; 128 ahead only when the low byte does not wrap |
| CryptStates.CryptState.constructor | runtime/crates/crypto/src/ocb2.rs:240-250 | a new state: zero history and counters |
| CryptStates.CryptState.Encrypt | runtime/crates/crypto/src/ocb2.rs:278-291 | a packet under the next counter, never refused |
| CryptStates.CryptState.Locate | runtime/crates/crypto/src/ocb2.rs:302-350 | moves the counter by exactly that distance, or leaves it |
| CryptStates.CryptState.Decrypt | runtime/crates/crypto/src/ocb2.rs:296-373 | the whole state and result are those of `Receive`, which `DeliveredExactly` characterises |
| CryptStates.Receive | runtime/crates/crypto/src/ocb2.rs:296-373 | a refused packet leaves counter, history and statistics unchanged |
| ReplayRuns.RefusedByHistory | runtime/crates/crypto/src/ocb2.rs:352-355 | exactly which counters the history refuses: those 65536 apart from the last accepted with that low byte, or matching the initial entry |
| ReplayRuns.NoReplay | runtime/crates/crypto/src/ocb2.rs:296-373 | over every run, whatever the packets and the cipher, no counter is accepted twice; `good` counts the accepted |
| ReplayRuns.NoNonceTwice | runtime/crates/crypto/src/ocb2.rs:296-373 | nor any 16-byte IV, in every run that passes fewer than 2^128 positions |
| ReplayRuns.EveryCounterAccounted | runtime/crates/crypto/src/ocb2.rs:406-412 | from zero statistics and until 2^31 positions are passed: `good` counts the accepted, and `good + lost` exceeds the positions passed by one for each late packet accepted with at most one counter lost, so they are equal if and only if there is none |
| ReplayRuns.SwappedPairStaysLost | runtime/crates/crypto/src/ocb2.rs:406-412 | a peer's first two packets swapped: both accepted, nothing missing, one counter still lost |
| ReplayRuns.DistanceExact | runtime/crates/crypto/src/ocb2.rs:307-350 | a low byte leads back to the counter it came from if and only if that counter is in reach |
| ReplayRuns.Delivery | runtime/crates/crypto/src/ocb2.rs:278-373 | a peer's packet in reach is delivered as the peer's altered plaintext if and only if the history does not refuse it and the tail check passes; the new state either way |
| ReplayRuns.PeerRun | runtime/crates/crypto/src/ocb2.rs:278-373 | under any loss, repetition and reordering in reach, everything delivered is what the peer sent for that counter, each counter at most once |
| ReplayRuns.InOrderRun | runtime/crates/crypto/src/ocb2.rs:278-373 | packets in order are all delivered |
| ReplayRuns.FreshHistoryRefuses | runtime/crates/crypto/src/ocb2.rs:352-355 | a new state refuses an out-of-order packet it never saw if and only if the counter's second byte is zero |
| VoiceBudgets.VoiceBudget.constructor | runtime/crates/gateway/src/limits.rs:81-90 | a full bucket and an empty ring |
| VoiceBudgets.VoiceBudget.Refill | runtime/crates/gateway/src/limits.rs:176-195 | whole tokens for elapsed milliseconds, capped |
| VoiceBudgets.VoiceBudget.Roll | runtime/crates/gateway/src/limits.rs:148-174 | clears the slots moved past and re-anchors on whole buckets |
| VoiceBudgets.VoiceBudget.Allow | runtime/crates/gateway/src/limits.rs:101-115 | admits and bills, or refuses and bills nothing; `RefusedExactly` says when |
| VoiceBudgets.VoiceBudget.Bandwidth | runtime/crates/gateway/src/limits.rs:130-136 | the saturating sum of the rolled ring |
| LimitRuns.RollNumber | runtime/crates/gateway/src/limits.rs:148-174 | rolling moves the ring to the bucket the time falls in, counted from creation |
| LimitRuns.RollKeepsRing | runtime/crates/gateway/src/limits.rs:148-174 | rolling keeps each slot equal to the log's bytes of the bucket it stands for |
| LimitRuns.ReadingIsExact | runtime/crates/gateway/src/limits.rs:130-136 | the folded ring is the window's bytes, saturated |
| LimitRuns.EveryReadingIsExact | runtime/crates/gateway/src/limits.rs:101-174 | over every run on a clock that does not go back: each reading is the bytes an unbounded log bills to the current and nine preceding buckets, saturated at the word size |
| LimitRuns.AdmittedSinceCreation | runtime/crates/gateway/src/limits.rs:101-115 | packets admitted since creation never exceed 400 plus elapsed milliseconds over 5 |
| LimitRuns.AdmittedInAnyStretch | runtime/crates/gateway/src/limits.rs:101-115 | any stretch of any run exceeds its own such bound by at most one |
| LimitRuns.SplitRefill | runtime/crates/gateway/src/limits.rs:176-195 | at any two times, refilling twice gives what refilling once would if and only if the first earns nothing, or the remainders together stay short of a token, or the account is full without them |
| LimitRuns.RemainderDropped | runtime/crates/gateway/src/limits.rs:176-195 | nine milliseconds and then six earn two tokens, fifteen earn three |
| Framing.WriteFrame | runtime/crates/protocol/src/framing.rs:116-135 | appends the encoding, or refuses exactly the oversized payloads |
| Framing.ParseEncode | runtime/crates/protocol/src/framing.rs:72-135 | a legal frame parses back whatever follows it |
| Framing.EncodeParse | runtime/crates/protocol/src/framing.rs:72-108 | whatever parses is the encoding of what it parses to |
| Framing.MoreBytes | runtime/crates/protocol/src/framing.rs:72-108 | more bytes never change a verdict |
| Framing.FrameReader.constructor | runtime/crates/gateway/src/connection.rs:847-852 | an empty buffer over the pieces to come |
| Framing.FrameReader.Next | runtime/crates/gateway/src/connection.rs:856-889 | the next message, error or end is that of the byte stream, however it was cut up |
| Framing.FrameReader.ReadAll | runtime/crates/gateway/src/connection.rs:856-889 | so is everything read |
| Framing.FramesRoundTrip | runtime/crates/protocol/src/framing.rs:72-135 | any sequence of legal frames reads back as itself and ends cleanly |
| Framing.CleanStreamIsEncoding | runtime/crates/protocol/src/framing.rs:72-135 | a stream that ends cleanly is the encoding of the frames it read to |
| Ownership.OwnershipRegistry.constructor | control/coordination/rust/src/ownership.rs:55-61 | an empty registry under two limits |
| Ownership.OwnershipRegistry.Claim | control/coordination/rust/src/ownership.rs:63-127 | resume, take over or acquire, with every refusal in order |
| Ownership.OwnershipRegistry.AcceptRevision | control/coordination/rust/src/ownership.rs:129-153 | accepts only under the token in force, never a stale revision |
| Ownership.OwnershipRegistry.Release | control/coordination/rust/src/ownership.rs:155-174 | releases only under the token in force |
| Ownership.RunsStayFenced | control/coordination/rust/src/ownership.rs:63-174 | in every state of every run live tokens are pairwise distinct and both limits hold |
| Ownership.AcquiresExactly | control/coordination/rust/src/ownership.rs:63-127 | the guards under which a claim acquires, spelled out: exactly then it answers with that token and leaves it in force |
| Ownership.TokenReturns | control/coordination/rust/src/ownership.rs:63-174 | a token not in force comes back in some later state if and only if some claim in between acquires it |
| Ownership.GoneForGood | control/coordination/rust/src/ownership.rs:63-174 | a token gone and not acquired again stays gone |
| Ownership.NeverReacquired | control/coordination/rust/src/ownership.rs:63-127 | where no two acquisitions share a token, one that was in force is never acquired again |
| Ownership.FencedForEver | control/coordination/rust/src/ownership.rs:63-174 | so a superseded or released token never comes back and never authorises anything again |
| Ownership.StaleTokenRefused | control/coordination/rust/src/ownership.rs:129-174 | a token gone and not acquired again authorises no revision and no release |
| Ownership.RevisionsNeverGoBack | control/coordination/rust/src/ownership.rs:129-153 | under one token, not acquired again in between, an entity's revision never decreases |
| Ownership.RepeatedTokenRevives | control/coordination/rust/src/ownership.rs:109-115 | a repeated token hands a lost entity back to a stale holder: the collision check looks at live tokens only |
| BuildLaws.EnoughIdentifiers | runtime/crates/shard/src/ids.rs:181-208 | the first 2^32 - 2 calls of the allocator all get an identifier |
| BuildLaws.RefusedExactly | runtime/crates/shard/src/build.rs:248-559 | exactly which calls of the builder are refused, kind by kind |
| BuildLaws.PrivateChannelLands | runtime/crates/shard/src/build.rs:532-559 | a private channel hangs where its handle says, in one connection's overlay only |
| BuildLaws.PrivateUserLands | runtime/crates/shard/src/build.rs:505-530 | a private user likewise |
| BuildLaws.AspectIsOneField | runtime/crates/shard/src/build.rs:358-379 | a setter changes its own field of a channel and no other |
| BuildLaws.LinkedBothWays | runtime/crates/shard/src/build.rs:381-397 | a link is made from both ends and links nothing else |
| BuildLaws.ReferencesExactly | runtime/crates/shard/src/build.rs:625-692 | an overlay passes the check of its references exactly when what its connection is meant to hold is closed |
| RenderAudio.HeldIsSeen | runtime/crates/shard/src/build.rs:820-843 | a sender whose session is in what the receiver is meant to hold counts as seen |
| Strandings.StrandedExactly | runtime/crates/gateway/src/runtime.rs:417-505 | over every interleaving, a connection that is open is attached, waiting to be attached or travelling, unless a registration was not taken or a shard it was at ended; and then it never is again |
| Strandings.EndsClosed | runtime/crates/gateway/src/runtime.rs:417-489 | a migration ends with its connection closed, unless there was nobody to move, nowhere to move to, or it was handed over; then it is left as it was |
| Strandings.StepDrops | runtime/crates/gateway/src/runtime.rs:417-505 | exactly which action leaves an open connection without a place |
| LateMoves.AbortDropsLateMovers | runtime/crates/gateway/src/runtime.rs:480-505 | the end of a shard leaves behind only a connection whose migration pointed it at the shard after the shard was destroyed |
| LateMoves.NobodyLeftBehind | runtime/crates/gateway/src/runtime.rs:208-214 | a connection that was taken in and not moved late is, as long as it is open, in a place, and at a shard only if it is the living one the gateway points at |
| Arrivals.MoveArrives | runtime/crates/gateway/src/runtime.rs:417-489 | from every state in which it can start, an uninterrupted migration ends with the connection attached at the destination, holding what the source composed |
| Arrivals.LateMoveStrands | runtime/crates/gateway/src/runtime.rs:480-505 | from every such state there is an interleaving with the destruction of the destination that leaves the connection open and nowhere |
| Genuineness.DeliveredIsGenuine | runtime/crates/crypto/src/ocb2.rs:296-376 | a text is delivered only from the packet that carries it, byte for byte, under the counter at the recovered distance |
| Genuineness.DeliveredExactly | runtime/crates/crypto/src/ocb2.rs:296-376 | a text is delivered if and only if the packet carries it, its counter is the next one or not in the history, and the tail check passes |
| Genuineness.TagIsChecked | runtime/crates/crypto/src/ocb2.rs:359 | two packets that differ in their tag bytes only are not both accepted |
| OcbLaws.LengthBlockIsBitLength | runtime/crates/crypto/src/ocb2.rs:76-84 | the length block, read as a big-endian number, is eight times the length |
| OcbLaws.LengthsDiffer | runtime/crates/crypto/src/ocb2.rs:76-84 | different lengths have different length blocks |
| OcbLaws.OffsetIsFieldMultiple | runtime/crates/crypto/src/ocb2.rs:39-58 | the offset of block i is the first offset times x to the i in the field |
| OcbLaws.OffsetsApart | runtime/crates/crypto/src/ocb2.rs:39-58 | unless the first offset is zero, a block's offset is neither zero nor the next one, and neither is the tag's |
| OcbLaws.SealedBlock | runtime/crates/crypto/src/ocb2.rs:108-143 | every full block is whitened before and after the cipher with its own offset |
| OcbLaws.SealedEnd | runtime/crates/crypto/src/ocb2.rs:145-153 | the final bytes are masked with the cipher of their bit length under the next offset |
| OcbLaws.TagTellsOneBlock | runtime/crates/crypto/src/ocb2.rs:104-158 | changing any one block, final or not, changes the tag |
| OcbLaws.MitigatedExactly | runtime/crates/crypto/src/ocb2.rs:111-139 | at most one byte is altered, exactly when fifteen bytes of the second-to-last block are zero, and afterwards they are not |
| OcbLaws.ShortIsUntouched | runtime/crates/crypto/src/ocb2.rs:108-139 | a text of one block or less is never altered |
| OcbLaws.TrustedExactly | runtime/crates/crypto/src/ocb2.rs:169-210 | the tail check, byte by byte |
| Admissions.TokensFollowRun | runtime/crates/gateway/src/limits.rs:176-196 | the tokens are the least, over every moment of the run, of a burst plus what was earned since minus what was admitted since |
| Admissions.RefusedExactly | runtime/crates/gateway/src/limits.rs:101-106 | on every run a packet is refused if and only if the admissions since some moment have used up a burst and all that refills earned since |
| Admissions.BurstIsAdmitted | runtime/crates/gateway/src/limits.rs:101-106 | the first 400 packets are admitted, however fast they come |
| Admissions.PausedIsAdmitted | runtime/crates/gateway/src/limits.rs:101-106 | a packet 5 ms after the last one asked for is admitted, whatever came before |
| Admissions.IdleSinceLastSign | runtime/crates/gateway/src/limits.rs:118-145 | a connection is idle since its last touch or admitted packet, whatever was refused or measured since |
| Admissions.BilledWithOverhead | runtime/crates/gateway/src/limits.rs:101-116 | an admitted packet is billed its bytes and 32 more, saturated; a refused one nothing |
| Framing.ParsedExactly | runtime/crates/protocol/src/framing.rs:72-104 | exactly when a buffer is partial, too large or complete, by the length its header declares |
| Framing.EncodedLayout | runtime/crates/protocol/src/framing.rs:116-136 | two bytes of type and four of length, the most significant first, then the payload |
| Ownership.AuthorisedExactly | control/coordination/rust/src/ownership.rs:129-174 | exactly what a revision or a release must present, and what it then does |
| Ownership.ResumedExactly | control/coordination/rust/src/ownership.rs:63-127 | exactly when a claim resumes: the token stays and the revision never goes back |

## Left out

- AES itself, key generation and unforgeability: the cipher is an arbitrary bijection; whether an honest packet passes the tail check depends on it and is a condition of `Delivery`.
- TLS, sockets, timers, UDP, handshakes, metrics and logging: plumbing around the modelled state.
- Protobuf encoding and message dispatch: decoding is an abstract function of a frame.
- `set_encrypt_iv` and `set_decrypt_iv`: the runs start from any counter, and no run forces one.
- Context actions, text relay, permission and statistics replies, self-mute resolution: single-branch facts.
- Recompiling the routing table: a turn in which only the audio relation changed keeps the old table; `RoutesLandOnHeldSenders` is about the table compiled from a render.
- Link visibility: comparable scopes do not make a linked channel visible, so closure is about parents and users' channels.
- Prefix safety of a push in which an element turns from shared to private or back: `ChangingPushSafe` is about overlays apart from both views.
- Prefix safety of a push that replays several versions: `ChangingBatchesOfRuns` is about one.
- Reuse of a channel id across a round trip between shards: not guaranteed by the code.
- Stale links on a client after a creation with no links, and a parent briefly its own descendant while several channels are re-parented: the client model writes whole elements and keeps no tree.
- Saturation of depths and versions at the word size: depths and versions are unbounded numbers here.
- The session registry, reliable-command log, host bindings, Spaces state, snapshot channel and text budget: routine index invariants.
- Shards.DeliverTo: context-action messages ride in the same batch and are not modelled; the commit point is the same.
- Shards.ShardObject.Attach: the refusal of a connection when sessions are exhausted is a step of `Migration` only.
- Shards.ShardObject.Detach: withdrawing context actions, and marking the queue fatal when it refuses the teardown, are not modelled.
- Shards.ShardObject.Reconcile: changed context actions and recompiling the routing table are not modelled.
- ReplanSafety.ReplanBatchSafe: for a client that does not hold what the replan was planned from, even one the replan mends, no order is promised.
- Handovers.RunsStayExact: what a leaving client is sent as it is torn down is not followed, since nobody has its connection any more.
- LimitRuns.EveryReadingIsExact: the ring must not be left alone for 2^32 buckets (thirteen years), after which the source re-anchors it.
- ReplayRuns.EveryCounterAccounted: stated until 2^31 positions are passed, after which the source reads its lost counter as negative.
- Visibility.CheckReceiversSeeSenders: the order in which a refusal is found among several is that of an arbitrary iteration over edges and listeners, where the source uses key order.
- Routing.Resolve: sets of pairs are visited in arbitrary order, where the source uses key order; the result does not depend on it.
