/**
 The planner: the ordered list of view mutations between two rendered views, each
 carrying the scope that decides who receives it.

 `Plan` and `PlanElements` are the specifications; `PlanTransition`, `PlanOverlay`,
 `OrderCreations` and the two depth walks are the source's loops, proved to compute them.
 */
module Planner {
  import opened Collections
  import opened Scopes
  import opened Views

  datatype ChannelPatch = ChannelPatch(
    id: ChannelId, parent: Option<ChannelId>, name: Option<string>, position: Option<int>,
    canEnter: Option<bool>, linksAdded: set<ChannelId>, linksRemoved: set<ChannelId>)

  datatype UserPatch = UserPatch(session: SessionId, name: Option<string>, flags: Option<UserFlags>)

  datatype PlanOp =
    | CreateChannel(channel: Channel)
    | UpdateChannel(channelPatch: ChannelPatch)
    | AddUser(user: User)
    | MoveUser(session: SessionId, to: ChannelId)
    | UpdateUser(userPatch: UserPatch)
    | RemoveUser(goneUser: SessionId)
    | RemoveChannel(goneChannel: ChannelId)

  datatype ElementId = ChannelElement(id: ChannelId) | UserElement(session: SessionId)

  /** An operation and the scope that decides who receives it; for a removal, the previous scope. */
  datatype PlannedOp = PlannedOp(op: PlanOp, scope: Scope)

  function Target(op: PlanOp): ElementId {
    match op
    case CreateChannel(channel) => ChannelElement(channel.id)
    case UpdateChannel(patch) => ChannelElement(patch.id)
    case AddUser(user) => UserElement(user.session)
    case MoveUser(session, _) => UserElement(session)
    case UpdateUser(patch) => UserElement(patch.session)
    case RemoveUser(session) => UserElement(session)
    case RemoveChannel(id) => ChannelElement(id)
  }

  predicate IsAddition(op: PlanOp) {
    op.CreateChannel? || op.AddUser?
  }

  predicate IsRemoval(op: PlanOp) {
    op.RemoveUser? || op.RemoveChannel?
  }

  function DiffChannel(was: Channel, next: Channel): ChannelPatch {
    ChannelPatch(
      next.id,
      if was.parent != next.parent then Some(next.parent) else None,
      if was.name != next.name then Some(next.name) else None,
      if was.position != next.position then Some(next.position) else None,
      if was.canEnter != next.canEnter then Some(next.canEnter) else None,
      next.links - was.links,
      was.links - next.links)
  }

  predicate ChannelNoop(p: ChannelPatch) {
    p.parent.None? && p.name.None? && p.position.None? && p.canEnter.None?
    && p.linksAdded == {} && p.linksRemoved == {}
  }

  function DiffUser(was: User, next: User): UserPatch {
    UserPatch(
      next.session,
      if was.name != next.name then Some(next.name) else None,
      if was.flags != next.flags then Some(next.flags) else None)
  }

  predicate UserNoop(p: UserPatch) {
    p.name.None? && p.flags.None?
  }

  // ---------------------------------------------------------------- creations, parents first

  function Ids(channels: seq<Channel>): set<ChannelId> {
    set c | c in channels :: c.id
  }

  predicate Placeable(channel: Channel, present: set<ChannelId>) {
    channel.parent == channel.id || channel.parent in present
  }

  /** One pass over the waiting channels: those placed, and those still waiting. */
  function Pass(remaining: seq<Channel>, present: set<ChannelId>): (r: (seq<Channel>, seq<Channel>))
    ensures |r.0| + |r.1| == |remaining|
  {
    if remaining == [] then ([], []) else
      var n := |remaining| - 1;
      var before := Pass(remaining[..n], present);
      if Placeable(remaining[n], present + Ids(before.0))
      then (before.0 + [remaining[n]], before.1)
      else (before.0, before.1 + [remaining[n]])
  }

  /** Passes until nothing waits; a pass that places nothing gives up on ordering the rest. */
  function Ordered(remaining: seq<Channel>, present: set<ChannelId>): seq<Channel>
    decreases |remaining|
  {
    if remaining == [] then [] else
      var pass := Pass(remaining, present);
      if pass.0 == [] then remaining
      else pass.0 + Ordered(pass.1, present + Ids(pass.0))
  }

  /** The body of the outer loop: one pass over the channels still waiting. */
  method PlaceReady(remaining: seq<Channel>, before: set<ChannelId>)
    returns (placed: seq<Channel>, waiting: seq<Channel>, present: set<ChannelId>)
    ensures (placed, waiting) == Pass(remaining, before)
    ensures present == before + Ids(placed)
  {
    placed, waiting, present := [], [], before;
    for i := 0 to |remaining|
      invariant Pass(remaining[..i], before) == (placed, waiting)
      invariant present == before + Ids(placed)
    {
      var channel := remaining[i];
      assert remaining[..i + 1][..i] == remaining[..i];
      if Placeable(channel, present) {
        assert Ids(placed + [channel]) == Ids(placed) + {channel.id};
        present := present + {channel.id};
        placed := placed + [channel];
      } else {
        waiting := waiting + [channel];
      }
    }
    assert remaining[..|remaining|] == remaining;
  }

  method OrderCreations(created: seq<Channel>, before: set<ChannelId>) returns (ordered: seq<Channel>)
    ensures ordered == Ordered(created, before)
  {
    var present := before;
    var remaining := created;
    ordered := [];
    while remaining != []
      invariant ordered + Ordered(remaining, present) == Ordered(created, before)
      decreases |remaining|
    {
      var placed, waiting, reached := PlaceReady(remaining, present);
      if placed == [] {
        ordered := ordered + remaining;
        break;
      }
      ordered, remaining, present := ordered + placed, waiting, reached;
    }
  }

  // ---------------------------------------------------------------- removals, deepest first

  /** How far below the root a channel sits, walking parents and never revisiting one. */
  function DepthFrom(channels: map<ChannelId, Channel>, id: ChannelId, visited: set<ChannelId>): nat
    decreases channels.Keys - visited
  {
    if id == ROOT || id in visited || id !in channels then 0
    else 1 + DepthFrom(channels, channels[id].parent, visited + {id})
  }

  method DepthIn(view: ShardView, channel: ChannelId) returns (depth: nat)
    ensures depth == DepthFrom(view.channels, channel, {})
  {
    depth := 0;
    var current := channel;
    var visited: set<ChannelId> := {};
    while current != ROOT && current !in visited
      invariant depth + DepthFrom(view.channels, current, visited) == DepthFrom(view.channels, channel, {})
      decreases view.channels.Keys - visited
    {
      if current !in view.channels {
        break;
      }
      visited := visited + {current};
      current := view.channels[current].parent;
      depth := depth + 1;
    }
  }

  /** The same walk inside an overlay, which ends where the private chain ends. */
  function PrivateDepthFrom(channels: map<ChannelId, Channel>, id: ChannelId, visited: set<ChannelId>): nat
    decreases channels.Keys - visited
  {
    if id in visited || id !in channels || channels[id].parent == id then 0
    else 1 + PrivateDepthFrom(channels, channels[id].parent, visited + {id})
  }

  method OverlayDepth(channels: map<ChannelId, Channel>, channel: ChannelId) returns (depth: nat)
    ensures depth == PrivateDepthFrom(channels, channel, {})
  {
    depth := 0;
    var current := channel;
    var visited: set<ChannelId> := {};
    while current !in visited
      invariant depth + PrivateDepthFrom(channels, current, visited) == PrivateDepthFrom(channels, channel, {})
      decreases channels.Keys - visited, current in visited
    {
      if current !in channels || channels[current].parent == current {
        break;
      }
      visited := visited + {current};
      current := channels[current].parent;
      depth := depth + 1;
    }
  }

  /** The order of the removal phase: deeper first, ties by identifier. */
  predicate Precedes(depth: map<ChannelId, nat>, a: ChannelId, b: ChannelId)
    requires a in depth && b in depth
  {
    depth[a] > depth[b] || (depth[a] == depth[b] && a <= b)
  }

  predicate ComesFirst(depth: map<ChannelId, nat>, among: set<ChannelId>, k: ChannelId)
    requires among <= depth.Keys
  {
    k in among && forall j | j in among :: Precedes(depth, k, j)
  }

  lemma {:induction false} DeepestExists(depth: map<ChannelId, nat>, among: set<ChannelId>)
    requires among != {} && among <= depth.Keys
    ensures exists k :: ComesFirst(depth, among, k)
  {
    var y :| y in among;
    if among == {y} {
      assert ComesFirst(depth, among, y);
    } else {
      var rest := among - {y};
      DeepestExists(depth, rest);
      var m :| ComesFirst(depth, rest, m);
      assert forall j | j in among :: j == y || j in rest;
      assert ComesFirst(depth, among, if Precedes(depth, y, m) then y else m);
    }
  }

  function Deepest(depth: map<ChannelId, nat>): (k: ChannelId)
    requires depth.Keys != {}
    ensures ComesFirst(depth, depth.Keys, k)
  {
    DeepestExists(depth, depth.Keys);
    var k :| ComesFirst(depth, depth.Keys, k);
    k
  }

  /** The keys sorted by `Precedes`, which totally orders them. */
  function DeepestFirst(depth: map<ChannelId, nat>): (r: seq<ChannelId>)
    ensures forall k :: k in r <==> k in depth
    decreases |depth|
  {
    if depth.Keys == {} then [] else
      var k := Deepest(depth);
      assert depth.Keys == (depth - {k}).Keys + {k};
      assert |(depth - {k}).Keys| < |depth.Keys|;
      [k] + DeepestFirst(depth - {k})
  }

  lemma DeepestFirstNext(depth: map<ChannelId, nat>)
    requires depth.Keys != {}
    ensures DeepestFirst(depth) == [Deepest(depth)] + DeepestFirst(depth - {Deepest(depth)})
  {
    hide Deepest;
  }

  lemma {:induction false} DeepestFirstOrdered(depth: map<ChannelId, nat>, i: nat, j: nat)
    requires i < j < |DeepestFirst(depth)|
    ensures var r := DeepestFirst(depth); Precedes(depth, r[i], r[j]) && r[i] != r[j]
    decreases i
  {
    hide DeepestFirst, Deepest;
    assert DeepestFirst(depth)[i] in depth;
    var k := Deepest(depth);
    DeepestFirstNext(depth);
    var rest := DeepestFirst(depth - {k});
    assert rest[j - 1] in depth - {k};
    if i > 0 {
      DeepestFirstOrdered(depth - {k}, i - 1, j - 1);
    }
  }

  // ---------------------------------------------------------------- the shared plan

  datatype Phase = UpdateChannels | AddUsers | MoveUsers | UpdateUsers | RehomeUsers | DropUsers

  predicate IsChannelPhase(p: Phase) {
    p.UpdateChannels?
  }

  function Element(p: Phase, key: nat): ElementId {
    if IsChannelPhase(p) then ChannelElement(key) else UserElement(key)
  }

  predicate SameChannel(before: ShardView, after: ShardView, id: ChannelId) {
    id in before.channels && id in after.channels && before.channels[id].scope == after.channels[id].scope
  }

  predicate SameUser(before: ShardView, after: ShardView, s: SessionId) {
    s in before.users && s in after.users && before.users[s].scope == after.users[s].scope
  }

  /** What one key contributes to one phase. */
  function Contribution(p: Phase, before: ShardView, after: ShardView, key: nat): seq<PlannedOp> {
    match p
    case UpdateChannels =>
      if !SameChannel(before, after, key) then [] else
        var patch := DiffChannel(before.channels[key], after.channels[key]);
        if ChannelNoop(patch) then [] else [PlannedOp(UpdateChannel(patch), after.channels[key].scope)]
    case AddUsers =>
      if key !in after.users || SameUser(before, after, key) then []
      else [PlannedOp(AddUser(after.users[key]), after.users[key].scope)]
    case MoveUsers =>
      if !SameUser(before, after, key) || before.users[key].channel == after.users[key].channel then []
      else [PlannedOp(MoveUser(key, after.users[key].channel), after.users[key].scope)]
    case UpdateUsers =>
      if !SameUser(before, after, key) then [] else
        var patch := DiffUser(before.users[key], after.users[key]);
        if UserNoop(patch) then [] else [PlannedOp(UpdateUser(patch), after.users[key].scope)]
    case RehomeUsers =>
      if key !in after.users || key !in before.users || SameUser(before, after, key) then []
      else [PlannedOp(RemoveUser(key), before.users[key].scope)]
    case DropUsers =>
      if key !in before.users || key in after.users then []
      else [PlannedOp(RemoveUser(key), before.users[key].scope)]
  }

  function Gather(p: Phase, before: ShardView, after: ShardView, keys: seq<nat>): seq<PlannedOp> {
    if keys == [] then [] else
      Gather(p, before, after, keys[..|keys| - 1]) + Contribution(p, before, after, keys[|keys| - 1])
  }

  /** Channels that are new, or that changed scope and so arrive afresh. */
  function Arriving(before: ShardView, after: ShardView, keys: seq<nat>): seq<Channel> {
    if keys == [] then [] else
      var last := keys[|keys| - 1];
      Arriving(before, after, keys[..|keys| - 1])
      + (if last in after.channels && !SameChannel(before, after, last) then [after.channels[last]] else [])
  }

  predicate Departs(before: ShardView, after: ShardView, id: ChannelId) {
    id in before.channels && !SameChannel(before, after, id)
  }

  function Departing(before: ShardView, after: ShardView): set<ChannelId> {
    set id | id in before.channels && Departs(before, after, id)
  }

  function DepthTable(channels: map<ChannelId, Channel>, ids: set<ChannelId>): map<ChannelId, nat> {
    map id | id in ids :: DepthFrom(channels, id, {})
  }

  function Creations(channels: seq<Channel>): seq<PlannedOp> {
    if channels == [] then [] else
      var last := channels[|channels| - 1];
      Creations(channels[..|channels| - 1]) + [PlannedOp(CreateChannel(last), last.scope)]
  }

  function Withdrawals(before: ShardView, ids: seq<ChannelId>): seq<PlannedOp>
    requires forall id | id in ids :: id in before.channels
  {
    if ids == [] then [] else
      var last := ids[|ids| - 1];
      Withdrawals(before, ids[..|ids| - 1]) + [PlannedOp(RemoveChannel(last), before.channels[last].scope)]
  }

  /** Phases P1 to P5: everything that is not a removal. */
  function PlanAdditions(before: ShardView, after: ShardView): seq<PlannedOp> {
    var channels := Sorted(after.channels.Keys);
    var users := Sorted(after.users.Keys);
    Creations(Ordered(Arriving(before, after, channels), before.channels.Keys))
    + Gather(UpdateChannels, before, after, channels)
    + Gather(AddUsers, before, after, users)
    + Gather(MoveUsers, before, after, users)
    + Gather(UpdateUsers, before, after, users)
  }

  /** Phase P6. */
  function PlanUserRemovals(before: ShardView, after: ShardView): seq<PlannedOp> {
    Gather(RehomeUsers, before, after, Sorted(after.users.Keys))
    + Gather(DropUsers, before, after, Sorted(before.users.Keys))
  }

  /** Phase P7. */
  function PlanChannelRemovals(before: ShardView, after: ShardView): seq<PlannedOp> {
    Withdrawals(before, DeepestFirst(DepthTable(before.channels, Departing(before, after))))
  }

  function Plan(before: ShardView, after: ShardView): seq<PlannedOp> {
    PlanAdditions(before, after) + PlanUserRemovals(before, after) + PlanChannelRemovals(before, after)
  }

  lemma GatherNone(before: ShardView, after: ShardView)
    ensures forall p :: Gather(p, before, after, []) == []
  {
  }

  lemma GatherNext(p: Phase, before: ShardView, after: ShardView, keys: seq<nat>, i: nat)
    requires i < |keys|
    ensures Gather(p, before, after, keys[..i + 1])
         == Gather(p, before, after, keys[..i]) + Contribution(p, before, after, keys[i])
  {
    assert keys[..i + 1][..i] == keys[..i];
  }

  /** The library sort of the removal phase, over depths computed by the walk. */
  method OrderRemovals(removed: seq<ChannelId>, before: ShardView) returns (ordered: seq<ChannelId>)
    ensures ordered == DeepestFirst(DepthTable(before.channels, Elements(removed)))
  {
    var depths: map<ChannelId, nat> := map[];
    for i := 0 to |removed|
      invariant depths.Keys == set id | id in removed[..i]
      invariant forall id | id in depths :: depths[id] == DepthFrom(before.channels, id, {})
    {
      var depth := DepthIn(before, removed[i]);
      assert removed[..i + 1] == removed[..i] + [removed[i]];
      depths := depths[removed[i] := depth];
    }
    assert removed[..|removed|] == removed;
    assert depths == DepthTable(before.channels, Elements(removed));
    ordered := DeepestFirst(depths);
  }

  /** The loop over the new view's channels. */
  method PlanChannels(before: ShardView, after: ShardView, keys: seq<ChannelId>)
    returns (creates: seq<Channel>, updates: seq<PlannedOp>, rescoped: seq<ChannelId>)
    requires forall id | id in keys :: id in after.channels
    ensures creates == Arriving(before, after, keys)
    ensures updates == Gather(UpdateChannels, before, after, keys)
    ensures forall id :: id in rescoped <==> id in keys && Departs(before, after, id)
  {
    creates, updates, rescoped := [], [], [];
    for i := 0 to |keys|
      invariant creates == Arriving(before, after, keys[..i])
      invariant updates == Gather(UpdateChannels, before, after, keys[..i])
      invariant forall id :: id in rescoped <==> id in keys[..i] && Departs(before, after, id)
    {
      var id := keys[i];
      GatherNext(UpdateChannels, before, after, keys, i);
      assert keys[..i + 1][..i] == keys[..i];
      assert keys[..i + 1] == keys[..i] + [id];
      var now := after.channels[id];
      if id in before.channels && before.channels[id].scope == now.scope {
        var patch := DiffChannel(before.channels[id], now);
        if !ChannelNoop(patch) {
          updates := updates + [PlannedOp(UpdateChannel(patch), now.scope)];
        }
      } else {
        creates := creates + [now];
        if id in before.channels {
          rescoped := rescoped + [id];
        }
      }
    }
    assert keys[..|keys|] == keys;
  }

  /** The loop over the old view's channels. */
  method PlanGoneChannels(before: ShardView, after: ShardView, keys: seq<ChannelId>) returns (gone: seq<ChannelId>)
    ensures forall id :: id in gone <==> id in keys && id !in after.channels
  {
    gone := [];
    for i := 0 to |keys|
      invariant forall id :: id in gone <==> id in keys[..i] && id !in after.channels
    {
      assert keys[..i + 1] == keys[..i] + [keys[i]];
      if keys[i] !in after.channels {
        gone := gone + [keys[i]];
      }
    }
    assert keys[..|keys|] == keys;
  }

  /** The loop over the new view's users. */
  method PlanUsers(before: ShardView, after: ShardView, keys: seq<SessionId>)
    returns (adds: seq<PlannedOp>, moves: seq<PlannedOp>, updates: seq<PlannedOp>, rehomed: seq<PlannedOp>)
    requires forall s | s in keys :: s in after.users
    ensures adds == Gather(AddUsers, before, after, keys)
    ensures moves == Gather(MoveUsers, before, after, keys)
    ensures updates == Gather(UpdateUsers, before, after, keys)
    ensures rehomed == Gather(RehomeUsers, before, after, keys)
  {
    hide Gather;
    adds, moves, updates, rehomed := [], [], [], [];
    GatherNone(before, after);
    assert keys[..0] == [];
    for i := 0 to |keys|
      invariant adds == Gather(AddUsers, before, after, keys[..i])
      invariant moves == Gather(MoveUsers, before, after, keys[..i])
      invariant updates == Gather(UpdateUsers, before, after, keys[..i])
      invariant rehomed == Gather(RehomeUsers, before, after, keys[..i])
    {
      var s := keys[i];
      GatherNext(AddUsers, before, after, keys, i);
      GatherNext(MoveUsers, before, after, keys, i);
      GatherNext(UpdateUsers, before, after, keys, i);
      GatherNext(RehomeUsers, before, after, keys, i);
      var now := after.users[s];
      if s in before.users && before.users[s].scope == now.scope {
        if before.users[s].channel != now.channel {
          moves := moves + [PlannedOp(MoveUser(s, now.channel), now.scope)];
        }
        var patch := DiffUser(before.users[s], now);
        if !UserNoop(patch) {
          updates := updates + [PlannedOp(UpdateUser(patch), now.scope)];
        }
      } else {
        adds := adds + [PlannedOp(AddUser(now), now.scope)];
        if s in before.users {
          rehomed := rehomed + [PlannedOp(RemoveUser(s), before.users[s].scope)];
        }
      }
    }
    assert keys[..|keys|] == keys;
  }

  /** The loop over the old view's users. */
  method PlanGoneUsers(before: ShardView, after: ShardView, keys: seq<SessionId>) returns (gone: seq<PlannedOp>)
    requires forall s | s in keys :: s in before.users
    ensures gone == Gather(DropUsers, before, after, keys)
  {
    gone := [];
    for i := 0 to |keys|
      invariant gone == Gather(DropUsers, before, after, keys[..i])
    {
      GatherNext(DropUsers, before, after, keys, i);
      if keys[i] !in after.users {
        gone := gone + [PlannedOp(RemoveUser(keys[i]), before.users[keys[i]].scope)];
      }
    }
    assert keys[..|keys|] == keys;
  }

  method EmitCreations(ordered: seq<Channel>) returns (ops: seq<PlannedOp>)
    ensures ops == Creations(ordered)
  {
    ops := [];
    for i := 0 to |ordered|
      invariant ops == Creations(ordered[..i])
    {
      assert ordered[..i + 1][..i] == ordered[..i];
      ops := ops + [PlannedOp(CreateChannel(ordered[i]), ordered[i].scope)];
    }
    assert ordered[..|ordered|] == ordered;
  }

  method EmitWithdrawals(before: ShardView, ordered: seq<ChannelId>) returns (ops: seq<PlannedOp>)
    requires forall id | id in ordered :: id in before.channels
    ensures ops == Withdrawals(before, ordered)
  {
    ops := [];
    for i := 0 to |ordered|
      invariant ops == Withdrawals(before, ordered[..i])
    {
      assert ordered[..i + 1][..i] == ordered[..i];
      ops := ops + [PlannedOp(RemoveChannel(ordered[i]), before.channels[ordered[i]].scope)];
    }
    assert ordered[..|ordered|] == ordered;
  }

  /** The planner itself: collect the phases, order creations and removals, append in order. */
  method PlanTransition(before: ShardView, after: ShardView) returns (ops: seq<PlannedOp>)
    ensures ops == Plan(before, after)
  {
    var channels, users := Sorted(after.channels.Keys), Sorted(after.users.Keys);
    var creates, updates, rescoped := PlanChannels(before, after, channels);
    var adds, moves, userUpdates, rehomed := PlanUsers(before, after, users);
    var dropped := PlanGoneUsers(before, after, Sorted(before.users.Keys));
    var ordered := OrderCreations(creates, before.channels.Keys);
    var creations := EmitCreations(ordered);
    var withdrawals := PlanWithdrawals(before, after, rescoped);
    ops := (creations + updates + adds + moves + userUpdates) + (rehomed + dropped) + withdrawals;
  }

  method PlanWithdrawals(before: ShardView, after: ShardView, rescoped: seq<ChannelId>) returns (ops: seq<PlannedOp>)
    requires forall id :: id in rescoped <==> id in after.channels && Departs(before, after, id)
    ensures ops == PlanChannelRemovals(before, after)
  {
    var gone := PlanGoneChannels(before, after, Sorted(before.channels.Keys));
    var removed := OrderRemovals(rescoped + gone, before);
    assert Elements(rescoped + gone) == Departing(before, after);
    ops := EmitWithdrawals(before, removed);
  }

  // ---------------------------------------------------------------- the overlay plan

  /** Overlay operations, split where `Splice` inserts them. */
  datatype OverlayOps = OverlayOps(additions: seq<PlanOp>, removals: seq<PlanOp>)

  function NewPrivate(before: Overlay, after: Overlay, keys: seq<nat>): seq<Channel> {
    if keys == [] then [] else
      var last := keys[|keys| - 1];
      NewPrivate(before, after, keys[..|keys| - 1])
      + (if last in after.channels && last !in before.channels then [after.channels[last]] else [])
  }

  datatype OverlayPhase = PatchChannels | Trailing | DropPrivateUsers

  function PrivateContribution(p: OverlayPhase, before: Overlay, after: Overlay, key: nat): seq<PlanOp> {
    match p
    case PatchChannels =>
      if key !in before.channels || key !in after.channels then [] else
        var patch := DiffChannel(before.channels[key], after.channels[key]);
        if ChannelNoop(patch) then [] else [UpdateChannel(patch)]
    case Trailing =>
      if key !in after.users then []
      else if key !in before.users then [AddUser(after.users[key])]
      else
        var was, now := before.users[key], after.users[key];
        var patch := DiffUser(was, now);
        (if was.channel == now.channel then [] else [MoveUser(key, now.channel)])
        + (if UserNoop(patch) then [] else [UpdateUser(patch)])
    case DropPrivateUsers =>
      if key !in before.users || key in after.users then [] else [RemoveUser(key)]
  }

  function GatherPrivate(p: OverlayPhase, before: Overlay, after: Overlay, keys: seq<nat>): seq<PlanOp> {
    if keys == [] then [] else
      GatherPrivate(p, before, after, keys[..|keys| - 1]) + PrivateContribution(p, before, after, keys[|keys| - 1])
  }

  function PrivateCreations(channels: seq<Channel>): seq<PlanOp> {
    seq(|channels|, i requires 0 <= i < |channels| => CreateChannel(channels[i]))
  }

  function PrivateWithdrawals(ids: seq<ChannelId>): seq<PlanOp> {
    seq(|ids|, i requires 0 <= i < |ids| => RemoveChannel(ids[i]))
  }

  function PrivateDepthTable(channels: map<ChannelId, Channel>, ids: set<ChannelId>): map<ChannelId, nat> {
    map id | id in ids :: PrivateDepthFrom(channels, id, {})
  }

  function PlanElements(before: Overlay, after: Overlay): OverlayOps {
    var channels := Sorted(after.channels.Keys);
    OverlayOps(
      PrivateCreations(Ordered(NewPrivate(before, after, channels), {}))
      + GatherPrivate(PatchChannels, before, after, channels)
      + GatherPrivate(Trailing, before, after, Sorted(after.users.Keys)),
      GatherPrivate(DropPrivateUsers, before, after, Sorted(before.users.Keys))
      + PrivateWithdrawals(
          DeepestFirst(PrivateDepthTable(before.channels, before.channels.Keys - after.channels.Keys))))
  }

  method PlanOverlay(before: Overlay, after: Overlay) returns (ops: OverlayOps)
    ensures ops == PlanElements(before, after)
  {
    hide Sorted, GatherPrivate, NewPrivate, Ordered, DeepestFirst, PrivateDepthTable;
    var creates, updates := PlanPrivateChannels(before, after, Sorted(after.channels.Keys));
    var trailing := PlanTrailing(before, after, Sorted(after.users.Keys));
    var removals := PlanPrivateRemovals(before, after);
    var ordered := OrderCreations(creates, {});
    ops := OverlayOps(PrivateCreations(ordered) + updates + trailing, removals);
  }

  lemma GatherPrivateNext(p: OverlayPhase, before: Overlay, after: Overlay, keys: seq<nat>, i: nat)
    requires i < |keys|
    ensures GatherPrivate(p, before, after, keys[..i + 1])
         == GatherPrivate(p, before, after, keys[..i]) + PrivateContribution(p, before, after, keys[i])
  {
    assert keys[..i + 1][..i] == keys[..i];
  }

  method PlanPrivateChannels(before: Overlay, after: Overlay, keys: seq<ChannelId>)
    returns (creates: seq<Channel>, updates: seq<PlanOp>)
    requires forall id | id in keys :: id in after.channels
    ensures creates == NewPrivate(before, after, keys)
    ensures updates == GatherPrivate(PatchChannels, before, after, keys)
  {
    creates, updates := [], [];
    for i := 0 to |keys|
      invariant creates == NewPrivate(before, after, keys[..i])
      invariant updates == GatherPrivate(PatchChannels, before, after, keys[..i])
    {
      var id := keys[i];
      GatherPrivateNext(PatchChannels, before, after, keys, i);
      assert keys[..i + 1][..i] == keys[..i];
      if id in before.channels {
        var patch := DiffChannel(before.channels[id], after.channels[id]);
        if !ChannelNoop(patch) {
          updates := updates + [UpdateChannel(patch)];
        }
      } else {
        creates := creates + [after.channels[id]];
      }
    }
    assert keys[..|keys|] == keys;
  }

  method PlanTrailing(before: Overlay, after: Overlay, users: seq<SessionId>) returns (trailing: seq<PlanOp>)
    requires forall s | s in users :: s in after.users
    ensures trailing == GatherPrivate(Trailing, before, after, users)
  {
    trailing := [];
    for i := 0 to |users|
      invariant trailing == GatherPrivate(Trailing, before, after, users[..i])
    {
      var s := users[i];
      GatherPrivateNext(Trailing, before, after, users, i);
      ghost var settled := trailing;
      if s in before.users {
        if before.users[s].channel != after.users[s].channel {
          trailing := trailing + [MoveUser(s, after.users[s].channel)];
        }
        var patch := DiffUser(before.users[s], after.users[s]);
        if !UserNoop(patch) {
          trailing := trailing + [UpdateUser(patch)];
        }
      } else {
        trailing := trailing + [AddUser(after.users[s])];
      }
      assert trailing == settled + PrivateContribution(Trailing, before, after, s);
    }
    assert users[..|users|] == users;
  }

  /** Users first so no occupied private channel is withdrawn, then channels deepest first. */
  method PlanPrivateRemovals(before: Overlay, after: Overlay) returns (removals: seq<PlanOp>)
    ensures removals == PlanElements(before, after).removals
  {
    removals := PlanPrivateGoneUsers(before, after, Sorted(before.users.Keys));
    var ordered := OrderPrivateRemovals(before.channels, Sorted(before.channels.Keys - after.channels.Keys));
    removals := removals + PrivateWithdrawals(ordered);
    assert Elements(Sorted(before.channels.Keys - after.channels.Keys)) == before.channels.Keys - after.channels.Keys;
  }

  method OrderPrivateRemovals(channels: map<ChannelId, Channel>, removed: seq<ChannelId>)
    returns (ordered: seq<ChannelId>)
    ensures ordered == DeepestFirst(PrivateDepthTable(channels, Elements(removed)))
  {
    var depths: map<ChannelId, nat> := map[];
    for i := 0 to |removed|
      invariant depths.Keys == set id | id in removed[..i]
      invariant forall id | id in depths :: depths[id] == PrivateDepthFrom(channels, id, {})
    {
      assert removed[..i + 1] == removed[..i] + [removed[i]];
      var depth := OverlayDepth(channels, removed[i]);
      depths := depths[removed[i] := depth];
    }
    assert removed[..|removed|] == removed;
    assert depths == PrivateDepthTable(channels, Elements(removed));
    ordered := DeepestFirst(depths);
  }

  method PlanPrivateGoneUsers(before: Overlay, after: Overlay, users: seq<SessionId>) returns (gone: seq<PlanOp>)
    requires forall s | s in users :: s in before.users
    ensures gone == GatherPrivate(DropPrivateUsers, before, after, users)
  {
    gone := [];
    for i := 0 to |users|
      invariant gone == GatherPrivate(DropPrivateUsers, before, after, users[..i])
    {
      assert users[..i + 1][..i] == users[..i];
      if users[i] !in after.users {
        gone := gone + [RemoveUser(users[i])];
      }
    }
    assert users[..|users|] == users;
  }
}
