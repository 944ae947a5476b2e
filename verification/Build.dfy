/**
 The constructor a render is given. Every call places an element under a handle an earlier
 call returned and can only narrow the handle's scope; the first refusal is kept and the whole
 render is discarded for it; three checks close the render.
 */
module Builds {
  import opened Collections
  import opened Scopes
  import opened Views
  import opened Identifiers
  import opened Routing
  import opened Visibility

  datatype Handle = Handle(id: ChannelId, scope: Scope)

  const ROOT_HANDLE := Handle(ROOT, ROOT_SCOPE)

  datatype Narrow = Same | Into(segment: nat)

  datatype BuildError =
    | MissingRoot
    | DuplicateRoot
    | DuplicateChannelKey(key: ChannelKey)
    | DuplicateOccupant(who: Occupant)
    | ScopeTooDeep(name: string)
    | NoIdentifier(exhausted: Exhausted)
    | LinkAcrossScopes(a: ChannelId, b: ChannelId)
    | SharedAndPrivateUser(session: SessionId, connection: ConnectionId)
    | SharedAndPrivateChannel(channel: ChannelId, connection: ConnectionId)
    | OverlayChannelMissing(connection: ConnectionId, channel: ChannelId)
    | OverlayChannelInvisible(connection: ConnectionId, channel: ChannelId)
    | ReceiverCannotSeeSender(sender: ConnectionId, receiver: ConnectionId)

  /** A render in progress. */
  datatype Draft = Draft(
    ids: Ids, shard: ShardId, view: ShardView, overlays: map<ConnectionId, Overlay>, audio: AudioRelation,
    keysSeen: set<ChannelKey>, occupantsSeen: set<Occupant>, rooted: bool, error: Option<BuildError>)

  datatype Rendered = Rendered(view: ShardView, overlays: map<ConnectionId, Overlay>, audio: AudioRelation)

  function NewDraft(ids: Ids, shard: ShardId): Draft {
    Draft(ids, shard, EMPTY_VIEW, map[], NO_AUDIO, {}, {}, false, None)
  }

  /** The first refusal wins. */
  function Fail(d: Draft, error: BuildError): Draft {
    if d.error.None? then d.(error := Some(error)) else d
  }

  function Narrowed(parent: Scope, narrow: Narrow): (r: Option<Scope>)
    ensures r.Some? ==> IsPrefixOf(parent, r.value)
    ensures narrow.Same? ==> r == Some(parent)
    ensures narrow.Into? ==> r == if |parent| < 4 then Some(parent + [narrow.segment]) else None
  {
    match narrow
    case Same => Some(parent)
    case Into(segment) => Child(parent, segment)
  }

  const PLAIN_FLAGS := UserFlags(false, false, false, false, false, false, false)

  function NewChannel(key: ChannelKey, id: ChannelId, parent: ChannelId, scope: Scope, name: string): Channel {
    Channel.Channel(key, id, parent, scope, name, 0, true, true, {})
  }

  function NewUser(who: Occupant, session: SessionId, channel: ChannelId, scope: Scope, name: string): User {
    User(who, session, channel, scope, name, PLAIN_FLAGS)
  }

  function WithChannel(v: ShardView, c: Channel): ShardView {
    v.(channels := v.channels[c.id := c])
  }

  function WithUser(v: ShardView, u: User): ShardView {
    v.(users := v.users[u.session := u])
  }

  // ---------------------------------------------------------------- the calls

  function PlaceRoot(d: Draft, name: string): (Draft, Handle) {
    if d.rooted then (Fail(d, DuplicateRoot), ROOT_HANDLE)
    else
      (d.(rooted := true, view := WithChannel(d.view, NewChannel(ROOT, ROOT, ROOT, ROOT_SCOPE, name))), ROOT_HANDLE)
  }

  function PlaceChannel(d: Draft, parent: Handle, key: ChannelKey, name: string, narrow: Narrow): (Draft, Handle) {
    var scope := Narrowed(parent.scope, narrow);
    if scope.None? then (Fail(d, ScopeTooDeep(name)), parent)
    else if key in d.keysSeen then (Fail(d, DuplicateChannelKey(key)), parent)
    else
      var (ids, id) := AllocChannel(d.ids, d.shard, key);
      var seen := d.(ids := ids, keysSeen := d.keysSeen + {key});
      if id.Err? then (Fail(seen, NoIdentifier(id.error)), parent)
      else
        (seen.(view := WithChannel(d.view, NewChannel(key, id.value, parent.id, scope.value, name))),
         Handle(id.value, scope.value))
  }

  function PlaceUser(d: Draft, channel: Handle, who: Occupant, name: string, narrow: Narrow): (Draft, SessionId) {
    var scope := Narrowed(channel.scope, narrow);
    var scoped := if scope.None? then Fail(d, ScopeTooDeep(name)) else d;
    var (ids, session) := AllocSession(d.ids, who);
    var known := if session.Err? then Fail(scoped.(ids := ids), NoIdentifier(session.error)) else scoped.(ids := ids);
    var number := if session.Err? then 0 else session.value;
    if who in d.occupantsSeen then (Fail(known, DuplicateOccupant(who)), number)
    else
      (known.(occupantsSeen := d.occupantsSeen + {who},
              view := WithUser(d.view,
                NewUser(who, number, channel.id, if scope.None? then channel.scope else scope.value, name))),
       number)
  }

  /** What the setters and links change: never an element's parent, channel, scope or identity. */
  datatype Aspect = Position(position: int) | CanEnter(yes: bool) | CanText(yes: bool) | LinkTo(other: ChannelId)

  function Touched(c: Channel, t: Aspect): Channel {
    match t
    case Position(position) => c.(position := position)
    case CanEnter(yes) => c.(canEnter := yes)
    case CanText(yes) => c.(canText := yes)
    case LinkTo(other) => c.(links := c.links + {other})
  }

  function Touch(v: ShardView, id: ChannelId, t: Aspect): ShardView {
    if id in v.channels then v.(channels := v.channels[id := Touched(v.channels[id], t)]) else v
  }

  function LinkChannels(d: Draft, a: Handle, b: Handle): Draft {
    if !Comparable(a.scope, b.scope) then Fail(d, LinkAcrossScopes(a.id, b.id))
    else d.(view := Touch(Touch(d.view, a.id, LinkTo(b.id)), b.id, LinkTo(a.id)))
  }

  function Flagged(v: ShardView, session: SessionId, flags: UserFlags): ShardView {
    if session in v.users then v.(users := v.users[session := v.users[session].(flags := flags)]) else v
  }

  /** Between the two views only one user's flags can differ, and they are the ones asked for. */
  ghost predicate OnlyFlags(before: ShardView, after: ShardView, session: SessionId, flags: UserFlags) {
    && after.channels == before.channels
    && after.users.Keys == before.users.Keys
    && (forall s | s in before.users && s != session :: after.users[s] == before.users[s])
    && (session in before.users ==> after.users[session].flags == flags)
    && (session in before.users ==>
          after.users[session].(flags := before.users[session].flags) == before.users[session])
  }

  function PlacePrivateUser(
    d: Draft, connection: ConnectionId, channel: Handle, who: Occupant, name: string): (Draft, SessionId)
  {
    var (ids, session) := AllocSession(d.ids, who);
    var known := if session.Err? then Fail(d.(ids := ids), NoIdentifier(session.error)) else d.(ids := ids);
    var number := if session.Err? then 0 else session.value;
    var overlay := WithUser(OverlayIn(d.overlays, connection), NewUser(who, number, channel.id, channel.scope, name));
    (known.(overlays := d.overlays[connection := overlay]), number)
  }

  function PlacePrivateChannel(
    d: Draft, connection: ConnectionId, parent: Handle, key: ChannelKey, name: string): (Draft, Handle)
  {
    var (ids, id) := AllocChannel(d.ids, d.shard, key);
    var entered := d.(ids := ids, overlays := d.overlays[connection := OverlayIn(d.overlays, connection)]);
    if id.Err? then (Fail(entered, NoIdentifier(id.error)), parent)
    else
      var overlay :=
        WithChannel(OverlayIn(d.overlays, connection), NewChannel(key, id.value, parent.id, parent.scope, name));
      (entered.(overlays := d.overlays[connection := overlay]), Handle(id.value, parent.scope))
  }

  function FlagPrivate(d: Draft, connection: ConnectionId, session: SessionId, flags: UserFlags): Draft {
    d.(overlays := d.overlays[connection := Flagged(OverlayIn(d.overlays, connection), session, flags)])
  }

  // ---------------------------------------------------------------- the closing checks

  /** No element is in the shared view and in an overlay. */
  ghost predicate Apart(view: ShardView, overlays: map<ConnectionId, Overlay>) {
    forall c | c in overlays :: Disjoint(view, overlays[c])
  }

  /** The channel is this connection's own, or one it sees in the shared view. */
  predicate InReach(view: ShardView, overlay: Overlay, see: ScopeSet, channel: ChannelId) {
    channel in overlay.channels || (channel in view.channels && Sees(see, view.channels[channel].scope))
  }

  ghost predicate RefersToSeen(view: ShardView, overlay: Overlay, see: ScopeSet) {
    && (forall s | s in overlay.users :: InReach(view, overlay, see, overlay.users[s].channel))
    && (forall id | id in overlay.channels :: InReach(view, overlay, see, overlay.channels[id].parent))
  }

  ghost predicate OverlaysReferToSeen(view: ShardView, overlays: map<ConnectionId, Overlay>, observations: Observations)
  {
    forall c | c in overlays :: RefersToSeen(view, overlays[c], Observed(observations, c))
  }

  /** Who is rendered in the shared view, at which scope; the last session wins. */
  function ScopesOver(view: ShardView, sessions: seq<SessionId>): SharedScopes
    requires forall s | s in sessions :: s in view.users
  {
    if sessions == [] then map[] else
      var rest := ScopesOver(view, sessions[..|sessions| - 1]);
      var user := view.users[sessions[|sessions| - 1]];
      if user.occupant.Connection? then rest[user.occupant.connection := user.scope] else rest
  }

  /** The connections an overlay renders. */
  function Rendering(overlay: Overlay): set<ConnectionId> {
    set s | s in overlay.users && overlay.users[s].occupant.Connection? :: overlay.users[s].occupant.connection
  }

  function SightOf(view: ShardView, overlays: map<ConnectionId, Overlay>, observations: Observations): Sight {
    Sight(ScopesOver(view, Sorted(view.users.Keys)), map c | c in overlays :: Rendering(overlays[c]), observations)
  }

  ghost predicate Accepted(d: Draft, observations: Observations) {
    && d.error.None?
    && d.rooted
    && Apart(d.view, d.overlays)
    && OverlaysReferToSeen(d.view, d.overlays, observations)
    && Accepts(d.audio, SightOf(d.view, d.overlays, observations))
  }

  lemma NothingCommon(a: set<nat>, b: set<nat>)
    requires a * b == {}
    ensures b !! a
  {
    assert forall x :: x in a && x in b ==> x in a * b;
  }

  method CheckSharedXorPrivate(view: ShardView, overlays: map<ConnectionId, Overlay>) returns (r: Option<BuildError>)
    ensures r.None? <==> Apart(view, overlays)
  {
    var keys := Sorted(overlays.Keys);
    for i := 0 to |keys|
      invariant forall k | 0 <= k < i && keys[k] in overlays :: Disjoint(view, overlays[keys[k]])
    {
      var connection := keys[i];
      assert connection in overlays.Keys;
      var overlay := overlays[connection];
      var users := overlay.users.Keys * view.users.Keys;
      if users != {} {
        return Some(SharedAndPrivateUser(Least(users), connection));
      }
      var channels := overlay.channels.Keys * view.channels.Keys;
      if channels != {} {
        return Some(SharedAndPrivateChannel(Least(channels), connection));
      }
      NothingCommon(overlay.users.Keys, view.users.Keys);
      NothingCommon(overlay.channels.Keys, view.channels.Keys);
      assert Disjoint(view, overlay);
    }
    r := None;
    forall c | c in overlays ensures Disjoint(view, overlays[c]) {
      assert c in keys;
    }
  }

  /** The refusal for a channel out of reach: nowhere, or hidden. */
  function OutOfReach(view: ShardView, connection: ConnectionId, channel: ChannelId): BuildError {
    if channel in view.channels then OverlayChannelInvisible(connection, channel)
      else OverlayChannelMissing(connection, channel)
  }

  /** The users an overlay places. */
  method CheckOverlayUsers(view: ShardView, overlay: Overlay, see: ScopeSet, connection: ConnectionId)
    returns (r: Option<BuildError>)
    ensures r.None? <==> forall s | s in overlay.users :: InReach(view, overlay, see, overlay.users[s].channel)
    ensures r.Some? ==> exists channel ::
      !InReach(view, overlay, see, channel) && r.value == OutOfReach(view, connection, channel)
  {
    hide InReach, OutOfReach;
    var users := Sorted(overlay.users.Keys);
    for i := 0 to |users|
      invariant forall k | 0 <= k < i && users[k] in overlay.users ::
        InReach(view, overlay, see, overlay.users[users[k]].channel)
    {
      assert users[i] in overlay.users.Keys;
      var channel := overlay.users[users[i]].channel;
      if !InReach(view, overlay, see, channel) {
        return Some(OutOfReach(view, connection, channel));
      }
    }
    r := None;
    forall s | s in overlay.users ensures InReach(view, overlay, see, overlay.users[s].channel) {
      assert s in users;
    }
  }

  /** The channels an overlay places. */
  method CheckOverlayChannels(view: ShardView, overlay: Overlay, see: ScopeSet, connection: ConnectionId)
    returns (r: Option<BuildError>)
    ensures r.None? <==> forall id | id in overlay.channels :: InReach(view, overlay, see, overlay.channels[id].parent)
    ensures r.Some? ==> exists channel ::
      !InReach(view, overlay, see, channel) && r.value == OutOfReach(view, connection, channel)
  {
    hide InReach, OutOfReach;
    var channels := Sorted(overlay.channels.Keys);
    for i := 0 to |channels|
      invariant forall k | 0 <= k < i && channels[k] in overlay.channels ::
        InReach(view, overlay, see, overlay.channels[channels[k]].parent)
    {
      assert channels[i] in overlay.channels.Keys;
      var parent := overlay.channels[channels[i]].parent;
      if !InReach(view, overlay, see, parent) {
        return Some(OutOfReach(view, connection, parent));
      }
    }
    r := None;
    forall id | id in overlay.channels ensures InReach(view, overlay, see, overlay.channels[id].parent) {
      assert id in channels;
    }
  }

  method CheckOverlay(view: ShardView, overlay: Overlay, see: ScopeSet, connection: ConnectionId)
    returns (r: Option<BuildError>)
    ensures r.None? <==> RefersToSeen(view, overlay, see)
    ensures r.Some? ==> exists channel ::
      !InReach(view, overlay, see, channel) && r.value == OutOfReach(view, connection, channel)
  {
    hide InReach, OutOfReach;
    r := CheckOverlayUsers(view, overlay, see, connection);
    if r.None? {
      r := CheckOverlayChannels(view, overlay, see, connection);
    }
  }

  method CheckOverlayReferences(view: ShardView, overlays: map<ConnectionId, Overlay>, observations: Observations)
    returns (r: Option<BuildError>)
    ensures r.None? <==> OverlaysReferToSeen(view, overlays, observations)
  {
    hide RefersToSeen;
    var keys := Sorted(overlays.Keys);
    for i := 0 to |keys|
      invariant forall k | 0 <= k < i && keys[k] in overlays ::
        RefersToSeen(view, overlays[keys[k]], Observed(observations, keys[k]))
    {
      assert keys[i] in overlays.Keys;
      r := CheckOverlay(view, overlays[keys[i]], Observed(observations, keys[i]), keys[i]);
      if r.Some? {
        return;
      }
    }
    r := None;
    forall c | c in overlays ensures RefersToSeen(view, overlays[c], Observed(observations, c)) {
      assert c in keys;
    }
  }

  /** The scopes of the shared view's connections, collected session by session. */
  method CollectScopes(view: ShardView) returns (shared: SharedScopes)
    ensures shared == ScopesOver(view, Sorted(view.users.Keys))
  {
    shared := map[];
    var keys := Sorted(view.users.Keys);
    for i := 0 to |keys|
      invariant forall s | s in keys[..i] :: s in view.users
      invariant shared == ScopesOver(view, keys[..i])
    {
      assert keys[i] in view.users.Keys;
      assert keys[..i + 1][..i] == keys[..i];
      var user := view.users[keys[i]];
      if user.occupant.Connection? {
        shared := shared[user.occupant.connection := user.scope];
      }
    }
    assert keys[..|keys|] == keys;
  }

  // ---------------------------------------------------------------- the object

  class ShardBuilder {
    const ids: IdAllocator
    const shard: ShardId
    var view: ShardView
    var overlays: map<ConnectionId, Overlay>
    var audio: AudioRelation
    var keysSeen: set<ChannelKey>
    var occupantsSeen: set<Occupant>
    var rooted: bool
    var error: Option<BuildError>

    ghost function State(): Draft
      reads this, ids
    {
      Draft(ids.State(), shard, view, overlays, audio, keysSeen, occupantsSeen, rooted, error)
    }

    constructor (ids: IdAllocator, shard: ShardId)
      ensures this.ids == ids
      ensures State() == NewDraft(ids.State(), shard)
    {
      this.ids, this.shard := ids, shard;
      view, overlays, audio, keysSeen, occupantsSeen, rooted, error := EMPTY_VIEW, map[], NO_AUDIO, {}, {}, false, None;
    }

    method Refuse(refusal: BuildError)
      modifies this
      ensures State() == Fail(old(State()), refusal)
    {
      if error.None? {
        error := Some(refusal);
      }
    }

    method Root(name: string) returns (h: Handle)
      modifies this
      ensures (State(), h) == PlaceRoot(old(State()), name)
    {
      if rooted {
        Refuse(DuplicateRoot);
        return ROOT_HANDLE;
      }
      rooted := true;
      view := WithChannel(view, NewChannel(ROOT, ROOT, ROOT, ROOT_SCOPE, name));
      h := ROOT_HANDLE;
    }

    method Channel(parent: Handle, key: ChannelKey, name: string, narrow: Narrow) returns (h: Handle)
      modifies this, ids
      ensures (State(), h) == PlaceChannel(old(State()), parent, key, name, narrow)
    {
      var scope := Narrowed(parent.scope, narrow);
      if scope.None? {
        Refuse(ScopeTooDeep(name));
        return parent;
      }
      if key in keysSeen {
        Refuse(DuplicateChannelKey(key));
        return parent;
      }
      keysSeen := keysSeen + {key};
      var id := ids.Channel(shard, key);
      if id.Err? {
        Refuse(NoIdentifier(id.error));
        return parent;
      }
      view := WithChannel(view, NewChannel(key, id.value, parent.id, scope.value, name));
      h := Handle(id.value, scope.value);
    }

    method User(channel: Handle, who: Occupant, name: string, narrow: Narrow) returns (session: SessionId)
      modifies this, ids
      ensures (State(), session) == PlaceUser(old(State()), channel, who, name, narrow)
    {
      var scope := Narrowed(channel.scope, narrow);
      if scope.None? {
        Refuse(ScopeTooDeep(name));
      }
      var number := ids.Session(who);
      session := 0;
      if number.Err? {
        Refuse(NoIdentifier(number.error));
      } else {
        session := number.value;
      }
      if who in occupantsSeen {
        Refuse(DuplicateOccupant(who));
        return;
      }
      occupantsSeen := occupantsSeen + {who};
      view :=
        WithUser(view, NewUser(who, session, channel.id, if scope.None? then channel.scope else scope.value, name));
    }

    method Set(channel: Handle, aspect: Aspect)
      modifies this`view
      ensures view == Touch(old(view), channel.id, aspect)
    {
      if channel.id in view.channels {
        view := view.(channels := view.channels[channel.id := Touched(view.channels[channel.id], aspect)]);
      }
    }

    method ChannelLink(a: Handle, b: Handle)
      modifies this
      ensures State() == LinkChannels(old(State()), a, b)
    {
      if !Comparable(a.scope, b.scope) {
        Refuse(LinkAcrossScopes(a.id, b.id));
        return;
      }
      Set(a, LinkTo(b.id));
      Set(b, LinkTo(a.id));
    }

    /** Sets a placed user's flags: its placement and identity, every other user and every channel stay. */
    method SetFlags(session: SessionId, flags: UserFlags)
      modifies this`view
      ensures view == Flagged(old(view), session, flags)
      ensures OnlyFlags(old(view), view, session, flags)
    {
      if session in view.users {
        view := view.(users := view.users[session := view.users[session].(flags := flags)]);
      }
    }

    method PrivateUser(connection: ConnectionId, channel: Handle, who: Occupant, name: string)
      returns (session: SessionId)
      modifies this, ids
      ensures (State(), session) == PlacePrivateUser(old(State()), connection, channel, who, name)
    {
      var overlay := OverlayIn(overlays, connection);
      var number := ids.Session(who);
      session := 0;
      if number.Err? {
        Refuse(NoIdentifier(number.error));
      } else {
        session := number.value;
      }
      overlays := overlays[connection := WithUser(overlay, NewUser(who, session, channel.id, channel.scope, name))];
    }

    method PrivateChannel(connection: ConnectionId, parent: Handle, key: ChannelKey, name: string) returns (h: Handle)
      modifies this, ids
      ensures (State(), h) == PlacePrivateChannel(old(State()), connection, parent, key, name)
    {
      var overlay := OverlayIn(overlays, connection);
      overlays := overlays[connection := overlay];
      var id := ids.Channel(shard, key);
      if id.Err? {
        Refuse(NoIdentifier(id.error));
        return parent;
      }
      overlay := WithChannel(overlay, NewChannel(key, id.value, parent.id, parent.scope, name));
      overlays := overlays[connection := overlay];
      assert overlays == old(overlays)[connection := overlay];
      h := Handle(id.value, parent.scope);
    }

    /** The same in one connection's overlay: every other overlay stays. */
    method PrivateFlags(connection: ConnectionId, session: SessionId, flags: UserFlags)
      modifies this`overlays
      ensures State() == FlagPrivate(old(State()), connection, session, flags)
      ensures OnlyFlags(OverlayIn(old(overlays), connection), OverlayIn(overlays, connection), session, flags)
      ensures forall c | c != connection :: OverlayIn(overlays, c) == OverlayIn(old(overlays), c)
    {
      var overlay := OverlayIn(overlays, connection);
      if session in overlay.users {
        overlay := overlay.(users := overlay.users[session := overlay.users[session].(flags := flags)]);
      }
      overlays := overlays[connection := overlay];
    }

    /** Closes the render: it is accepted exactly when nothing was refused and the three checks pass. */
    method Finish(observations: Observations) returns (r: Result<Rendered, BuildError>)
      ensures r.Ok? <==> Accepted(State(), observations)
      ensures r.Ok? ==> r.value == Rendered(view, overlays, audio)
      ensures error.Some? ==> r == Err(error.value)
    {
      if error.Some? {
        return Err(error.value);
      }
      if !rooted {
        return Err(MissingRoot);
      }
      var refusal := CheckSharedXorPrivate(view, overlays);
      if refusal.Some? {
        return Err(refusal.value);
      }
      refusal := CheckOverlayReferences(view, overlays, observations);
      if refusal.Some? {
        return Err(refusal.value);
      }
      var shared := CollectScopes(view);
      var sight := Sight(shared, map c | c in overlays :: Rendering(overlays[c]), observations);
      var blind := CheckReceiversSeeSenders(audio, sight);
      if blind.Some? {
        return Err(ReceiverCannotSeeSender(blind.value.sender, blind.value.receiver));
      }
      r := Ok(Rendered(view, overlays, audio));
    }
  }
}
