/**
 A shard's rendered view, the private overlay of one connection, and the two
 operations that define what a connection is meant to hold: `Restrict` and `Compose`.
 */
module Views {
  import opened Collections
  import opened Scopes

  type ChannelId = nat
  type SessionId = nat
  type ChannelKey = nat
  type ConnectionId = nat
  type ShardId = nat

  const ROOT: ChannelId := 0

  datatype Occupant = Connection(connection: ConnectionId) | Synthetic(synthetic: nat)

  datatype UserFlags = UserFlags(
    mute: bool, deaf: bool, suppress: bool, selfMute: bool, selfDeaf: bool,
    prioritySpeaker: bool, recording: bool)

  datatype Channel = Channel(
    key: ChannelKey, id: ChannelId, parent: ChannelId, scope: Scope, name: string,
    position: int, canEnter: bool, canText: bool, links: set<ChannelId>)

  datatype User = User(
    occupant: Occupant, session: SessionId, channel: ChannelId, scope: Scope,
    name: string, flags: UserFlags)

  datatype ShardView = ShardView(channels: map<ChannelId, Channel>, users: map<SessionId, User>)

  /** An overlay has the shape of a view and none of its whole-view guarantees. */
  type Overlay = ShardView

  const EMPTY_VIEW := ShardView(map[], map[])

  /** Every element is filed under its own identifier. */
  ghost predicate WellKeyed(v: ShardView) {
    && (forall id | id in v.channels :: v.channels[id].id == id)
    && (forall s | s in v.users :: v.users[s].session == s)
  }

  /** The part of the view visible to `see`. */
  function Restrict(v: ShardView, see: ScopeSet): (r: ShardView)
    ensures WellKeyed(v) ==> WellKeyed(r)
  {
    ShardView(
      map id | id in v.channels && Sees(see, v.channels[id].scope) :: v.channels[id],
      map s | s in v.users && Sees(see, v.users[s].scope) :: v.users[s])
  }

  /** The view with the overlay layered on top. */
  function Compose(v: ShardView, overlay: Overlay): (r: ShardView)
    ensures WellKeyed(v) && WellKeyed(overlay) ==> WellKeyed(r)
  {
    ShardView(v.channels + overlay.channels, v.users + overlay.users)
  }

  /** No element is both shared and private. */
  ghost predicate Disjoint(v: ShardView, overlay: Overlay) {
    v.channels.Keys !! overlay.channels.Keys && v.users.Keys !! overlay.users.Keys
  }

  /** What each connection observes of the shared view. */
  type Observations = map<ConnectionId, ScopeSet>

  function Observed(observations: Observations, c: ConnectionId): ScopeSet {
    if c in observations then observations[c] else {}
  }

  /** A connection's overlay, empty when it has none. */
  function OverlayIn(overlays: map<ConnectionId, Overlay>, c: ConnectionId): Overlay {
    if c in overlays then overlays[c] else EMPTY_VIEW
  }
}
