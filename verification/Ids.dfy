/** The identifier allocator: stable identities onto wire identifiers that are never reused. */
module Identifiers {
  import opened Collections
  import opened Views

  const SPACE := 0x1_0000_0000

  datatype Exhausted = Channels | Sessions

  type Identity = (ShardId, ChannelKey)

  datatype Ids = Ids(
    channels: map<Identity, ChannelId>,
    sessions: map<Occupant, SessionId>,
    nextChannel: Option<nat>,
    nextSession: Option<nat>)

  /** Zero is the runtime's root, so channel ids start at one. */
  const NEW_IDS := Ids(map[], map[], Some(1), Some(1))

  /** `checked_add(1)` on a 32-bit number. */
  function Successor(raw: nat): Option<nat> {
    if raw + 1 < SPACE then Some(raw + 1) else None
  }

  function AllocChannel(ids: Ids, shard: ShardId, key: ChannelKey): (Ids, Result<ChannelId, Exhausted>) {
    if (shard, key) in ids.channels then (ids, Ok(ids.channels[(shard, key)]))
    else if ids.nextChannel.None? then (ids, Err(Channels))
    else
      var raw := ids.nextChannel.value;
      (ids.(nextChannel := Successor(raw), channels := ids.channels[(shard, key) := raw]), Ok(raw))
  }

  function AllocSession(ids: Ids, who: Occupant): (Ids, Result<SessionId, Exhausted>) {
    if who in ids.sessions then (ids, Ok(ids.sessions[who]))
    else if ids.nextSession.None? then (ids, Err(Sessions))
    else
      var raw := ids.nextSession.value;
      (ids.(nextSession := Successor(raw), sessions := ids.sessions[who := raw]), Ok(raw))
  }

  function RetainChannels(ids: Ids, shard: ShardId, retained: set<ChannelKey>): Ids {
    ids.(channels := map i | i in ids.channels && (i.0 != shard || i.1 in retained) :: ids.channels[i])
  }

  function RetireChannels(ids: Ids, shard: ShardId, retired: set<ChannelId>): Ids {
    ids.(channels := map i | i in ids.channels && (i.0 != shard || ids.channels[i] !in retired) :: ids.channels[i])
  }

  class IdAllocator {
    var channels: map<Identity, ChannelId>
    var sessions: map<Occupant, SessionId>
    var nextChannel: Option<nat>
    var nextSession: Option<nat>

    ghost function State(): Ids
      reads this
    {
      Ids(channels, sessions, nextChannel, nextSession)
    }

    constructor ()
      ensures State() == NEW_IDS
    {
      channels, sessions, nextChannel, nextSession := map[], map[], Some(1), Some(1);
    }

    method Channel(shard: ShardId, key: ChannelKey) returns (r: Result<ChannelId, Exhausted>)
      modifies this
      ensures (State(), r) == AllocChannel(old(State()), shard, key)
    {
      if (shard, key) in channels {
        return Ok(channels[(shard, key)]);
      }
      if nextChannel.None? {
        return Err(Channels);
      }
      var raw := nextChannel.value;
      nextChannel := Successor(raw);
      channels := channels[(shard, key) := raw];
      r := Ok(raw);
    }

    method Session(who: Occupant) returns (r: Result<SessionId, Exhausted>)
      modifies this
      ensures (State(), r) == AllocSession(old(State()), who)
    {
      if who in sessions {
        return Ok(sessions[who]);
      }
      if nextSession.None? {
        return Err(Sessions);
      }
      var raw := nextSession.value;
      nextSession := Successor(raw);
      sessions := sessions[who := raw];
      r := Ok(raw);
    }

    method Retain(shard: ShardId, retained: set<ChannelKey>)
      modifies this
      ensures State() == RetainChannels(old(State()), shard, retained)
    {
      channels := map i | i in channels && (i.0 != shard || i.1 in retained) :: channels[i];
    }

    method Retire(shard: ShardId, retired: set<ChannelId>)
      modifies this
      ensures State() == RetireChannels(old(State()), shard, retired)
    {
      channels := map i | i in channels && (i.0 != shard || channels[i] !in retired) :: channels[i];
    }
  }

  // ---------------------------------------------------------------- runs of the allocator

  datatype Call =
    | Channel(shard: ShardId, key: ChannelKey)
    | Session(who: Occupant)
    | Retain(shard: ShardId, keys: set<ChannelKey>)
    | Retire(shard: ShardId, retired: set<ChannelId>)

  function After(ids: Ids, call: Call): Ids {
    match call
    case Channel(shard, key) => AllocChannel(ids, shard, key).0
    case Session(who) => AllocSession(ids, who).0
    case Retain(shard, keys) => RetainChannels(ids, shard, keys)
    case Retire(shard, retired) => RetireChannels(ids, shard, retired)
  }

  /** Every number below this has been handed out, and none at or above it. */
  function Bound(next: Option<nat>): nat {
    if next.None? then SPACE else next.value
  }

  ghost predicate Injective<K>(m: map<K, nat>) {
    forall i, j | i in m && j in m && m[i] == m[j] :: i == j
  }

  ghost predicate Consistent(ids: Ids) {
    && Injective(ids.channels) && Injective(ids.sessions)
    && (forall i | i in ids.channels :: 0 < ids.channels[i] < Bound(ids.nextChannel))
    && (forall o | o in ids.sessions :: 0 < ids.sessions[o] < Bound(ids.nextSession))
    && (ids.nextChannel.Some? ==> 0 < ids.nextChannel.value < SPACE)
    && (ids.nextSession.Some? ==> 0 < ids.nextSession.value < SPACE)
  }

  lemma AfterConsistent(ids: Ids, call: Call)
    requires Consistent(ids)
    ensures Consistent(After(ids, call))
    ensures Bound(ids.nextChannel) <= Bound(After(ids, call).nextChannel)
  {
  }

  /** Handed out once, held by no identity any more. */
  ghost predicate Dead(ids: Ids, id: ChannelId) {
    id < Bound(ids.nextChannel) && forall i | i in ids.channels :: ids.channels[i] != id
  }

  lemma DeadStaysDead(ids: Ids, call: Call, id: ChannelId)
    requires Consistent(ids) && Dead(ids, id)
    ensures Dead(After(ids, call), id)
    ensures call.Channel? ==> AllocChannel(ids, call.shard, call.key).1 != Ok(id)
  {
  }

  /**
   Retention, to whoever asks next: a key kept, or another shard's, is still answered with its id;
   a key dropped is answered with any other id or none, and its id is dead. Sessions are untouched.
   */
  lemma RetainedOrReplaced(ids: Ids, shard: ShardId, retained: set<ChannelKey>, i: Identity)
    requires Consistent(ids) && i in ids.channels
    ensures var after := RetainChannels(ids, shard, retained);
            && (forall who :: AllocSession(after, who).1 == AllocSession(ids, who).1)
            && if i.0 != shard || i.1 in retained then AllocChannel(after, i.0, i.1).1 == Ok(ids.channels[i])
               else Dead(after, ids.channels[i]) && AllocChannel(after, i.0, i.1).1 != Ok(ids.channels[i])
  {
  }

  /** Retirement likewise, by id instead of by key. */
  lemma RetiredIsReplaced(ids: Ids, shard: ShardId, retired: set<ChannelId>, i: Identity)
    requires Consistent(ids) && i in ids.channels
    ensures var after := RetireChannels(ids, shard, retired);
            && (forall who :: AllocSession(after, who).1 == AllocSession(ids, who).1)
            && if i.0 != shard || ids.channels[i] !in retired
                 then AllocChannel(after, i.0, i.1).1 == Ok(ids.channels[i])
               else Dead(after, ids.channels[i]) && AllocChannel(after, i.0, i.1).1 != Ok(ids.channels[i])
  {
  }

  ghost predicate IsRun(states: seq<Ids>, calls: seq<Call>) {
    && |states| == |calls| + 1
    && states[0] == NEW_IDS
    && forall i | 0 <= i < |calls| :: states[i + 1] == After(states[i], calls[i])
  }

  lemma {:induction false} RunConsistent(states: seq<Ids>, calls: seq<Call>, n: nat)
    requires IsRun(states, calls) && n < |states|
    ensures Consistent(states[n])
  {
    if n > 0 {
      RunConsistent(states, calls, n - 1);
      AfterConsistent(states[n - 1], calls[n - 1]);
    }
  }

  /** Once an identity holds an id, either it still does or the id is dead. */
  lemma {:induction false} HeldOrDead(
    states: seq<Ids>, calls: seq<Call>, identity: Identity, id: ChannelId, i: nat, n: nat)
    requires IsRun(states, calls) && i <= n < |states|
    requires identity in states[i].channels && states[i].channels[identity] == id
    ensures (identity in states[n].channels && states[n].channels[identity] == id) || Dead(states[n], id)
    ensures forall k | i <= k <= n && !Dead(states[n], id) :: !Dead(states[k], id)
  {
    hide After, Consistent, Dead;
    RunConsistent(states, calls, n);
    if n > i {
      RunConsistent(states, calls, n - 1);
      HeldOrDead(states, calls, identity, id, i, n - 1);
      if Dead(states[n - 1], id) {
        DeadStaysDead(states[n - 1], calls[n - 1], id);
      } else {
        LeavingIsDying(states[n - 1], calls[n - 1], identity, id);
      }
    }
  }

  lemma LeavingIsDying(ids: Ids, call: Call, identity: Identity, id: ChannelId)
    requires Consistent(ids) && identity in ids.channels && ids.channels[identity] == id
    ensures var after := After(ids, call);
      (identity in after.channels && after.channels[identity] == id) || Dead(after, id)
  {
  }

  /**
   Over every run of the allocator: two calls that return the same channel id were made for
   the same identity, and the id was never retired in between.
   */
  lemma NeverReused(states: seq<Ids>, calls: seq<Call>, i: nat, j: nat, id: ChannelId)
    requires IsRun(states, calls) && i < j < |calls| && calls[i].Channel? && calls[j].Channel?
    requires AllocChannel(states[i], calls[i].shard, calls[i].key).1 == Ok(id)
    requires AllocChannel(states[j], calls[j].shard, calls[j].key).1 == Ok(id)
    ensures calls[i] == calls[j] && id != ROOT
    ensures forall k | i < k <= j ::
      (calls[i].shard, calls[i].key) in states[k].channels && states[k].channels[(calls[i].shard, calls[i].key)] == id
  {
    var identity := (calls[i].shard, calls[i].key);
    assert states[i + 1] == After(states[i], calls[i]);
    RunConsistent(states, calls, i);
    RunConsistent(states, calls, i + 1);
    RunConsistent(states, calls, j);
    HeldOrDead(states, calls, identity, id, i + 1, j);
    if Dead(states[j], id) {
      DeadStaysDead(states[j], calls[j], id);
    }
    forall k | i < k <= j ensures identity in states[k].channels && states[k].channels[identity] == id {
      HeldOrDead(states, calls, identity, id, i + 1, k);
    }
  }

  /** Sessions are stable and injective: two calls return the same session exactly for the same occupant. */
  lemma SessionsStable(states: seq<Ids>, calls: seq<Call>, i: nat, j: nat)
    requires IsRun(states, calls) && i < j < |calls| && calls[i].Session? && calls[j].Session?
    requires AllocSession(states[i], calls[i].who).1.Ok? && AllocSession(states[j], calls[j].who).1.Ok?
    ensures AllocSession(states[i], calls[i].who).1 == AllocSession(states[j], calls[j].who).1 <==>
      calls[i].who == calls[j].who
  {
    var who, id := calls[i].who, AllocSession(states[i], calls[i].who).1.value;
    assert states[i + 1] == After(states[i], calls[i]);
    RunConsistent(states, calls, j);
    SessionsKept(states, calls, who, id, i + 1, j);
    RunConsistent(states, calls, j + 1);
    assert states[j + 1] == After(states[j], calls[j]);
    SessionsKept(states, calls, who, id, i + 1, j + 1);
  }

  lemma {:induction false} SessionsKept(
    states: seq<Ids>, calls: seq<Call>, who: Occupant, id: SessionId, i: nat, n: nat)
    requires IsRun(states, calls) && i <= n < |states|
    requires who in states[i].sessions && states[i].sessions[who] == id
    ensures who in states[n].sessions && states[n].sessions[who] == id
  {
    if n > i {
      SessionsKept(states, calls, who, id, i, n - 1);
    }
  }
}
