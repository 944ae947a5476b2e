/**
 Every sequence of builder calls, with other shards allocating identifiers in between: an
 accepted render is a tree, and what any connection is meant to hold of it is closed, exactly
 when no shared element was placed under a private handle.
 */
module BuildRuns {
  import opened Collections
  import opened Scopes
  import opened Views
  import opened Identifiers
  import opened Routing
  import opened Visibility
  import opened Ordering
  import opened Builds

  datatype Step =
    | RootStep(name: string)
    | ChannelStep(parent: Handle, key: ChannelKey, name: string, narrow: Narrow)
    | UserStep(channel: Handle, who: Occupant, name: string, narrow: Narrow)
    | SetStep(target: Handle, aspect: Aspect)
    | LinkStep(a: Handle, b: Handle)
    | FlagsStep(session: SessionId, flags: UserFlags)
    | PrivateUserStep(connection: ConnectionId, place: Handle, occupant: Occupant, title: string)
    | PrivateChannelStep(connection: ConnectionId, above: Handle, privateKey: ChannelKey, title: string)
    | PrivateFlagsStep(connection: ConnectionId, session: SessionId, flags: UserFlags)
    | AudioStep(audio: AudioRelation)
    | ElsewhereStep(call: Call)

  /**
   The render, the handles its shared and private calls returned, and whether a shared element
   went under a handle that is not shared.
   */
  datatype Progress = Progress(draft: Draft, shared: set<Handle>, private: set<Handle>, strayed: bool)

  function Begin(ids: Ids, shard: ShardId): Progress {
    Progress(NewDraft(ids, shard), {}, {}, false)
  }

  function After(p: Progress, step: Step): Progress {
    var d := p.draft;
    match step
    case RootStep(name) => p.(draft := PlaceRoot(d, name).0, shared := p.shared + {ROOT_HANDLE})
    case ChannelStep(parent, key, name, narrow) =>
      var (after, h) := PlaceChannel(d, parent, key, name, narrow);
      if parent in p.shared then p.(draft := after, shared := p.shared + {h})
      else p.(draft := after, shared := p.shared + {h}, strayed := true)
    case UserStep(channel, who, name, narrow) =>
      p.(draft := PlaceUser(d, channel, who, name, narrow).0, strayed := p.strayed || channel !in p.shared)
    case SetStep(target, aspect) => p.(draft := d.(view := Touch(d.view, target.id, aspect)))
    case LinkStep(a, b) => p.(draft := LinkChannels(d, a, b))
    case FlagsStep(session, flags) => p.(draft := d.(view := Flagged(d.view, session, flags)))
    case PrivateUserStep(connection, place, who, name) =>
      p.(draft := PlacePrivateUser(d, connection, place, who, name).0)
    case PrivateChannelStep(connection, above, key, name) =>
      var (after, h) := PlacePrivateChannel(d, connection, above, key, name);
      p.(draft := after, private := p.private + {h})
    case PrivateFlagsStep(connection, session, flags) => p.(draft := FlagPrivate(d, connection, session, flags))
    case AudioStep(audio) => p.(draft := d.(audio := audio))
    case ElsewhereStep(call) => p.(draft := d.(ids := Identifiers.After(d.ids, call)))
  }

  /** Handles come from this render, and no other shard drops this one's identifiers. */
  ghost predicate Allowed(p: Progress, step: Step) {
    match step
    case ChannelStep(parent, _, _, _) => parent in p.shared || parent in p.private
    case UserStep(channel, _, _, _) => channel in p.shared || channel in p.private
    case ElsewhereStep(call) => match call {
      case Retain(shard, _) => shard != p.draft.shard
      case Retire(shard, _) => shard != p.draft.shard
      case _ => true
    }
    case _ => true
  }

  function Run(p: Progress, steps: seq<Step>): Progress {
    if steps == [] then p else After(Run(p, steps[..|steps| - 1]), steps[|steps| - 1])
  }

  ghost predicate AllAllowed(p: Progress, steps: seq<Step>) {
    steps != [] ==>
      AllAllowed(p, steps[..|steps| - 1]) && Allowed(Run(p, steps[..|steps| - 1]), steps[|steps| - 1])
  }

  // ---------------------------------------------------------------- identities

  ghost predicate ChannelNamed(ids: Ids, shard: ShardId, c: Channel, id: ChannelId) {
    && c.id == id
    && (shard, c.key) in ids.channels && ids.channels[(shard, c.key)] == id
  }

  ghost predicate UserNamed(ids: Ids, u: User, s: SessionId) {
    u.session == s && u.occupant in ids.sessions && ids.sessions[u.occupant] == s
  }

  /** Every element is filed under the identifier its identity was given. */
  ghost predicate ViewNamed(d: Draft) {
    && (forall id | id in d.view.channels && id != ROOT ::
          ChannelNamed(d.ids, d.shard, d.view.channels[id], id) && d.view.channels[id].key in d.keysSeen)
    && (ROOT in d.view.channels ==> d.view.channels[ROOT].id == ROOT)
    && (d.rooted <==> ROOT in d.view.channels)
    && (forall s | s in d.view.users ::
         UserNamed(d.ids, d.view.users[s], s) && d.view.users[s].occupant in d.occupantsSeen)
  }

  ghost predicate OverlayNamed(ids: Ids, shard: ShardId, overlay: Overlay) {
    && (forall id | id in overlay.channels :: ChannelNamed(ids, shard, overlay.channels[id], id))
    && (forall s | s in overlay.users :: UserNamed(ids, overlay.users[s], s))
  }

  ghost predicate OverlaysNamed(d: Draft) {
    forall c | c in d.overlays :: OverlayNamed(d.ids, d.shard, d.overlays[c])
  }

  ghost predicate Named(d: Draft) {
    Consistent(d.ids) && ViewNamed(d) && OverlaysNamed(d)
  }

  /** Identities keep their identifiers. */
  ghost predicate Grows(shard: ShardId, before: Ids, after: Ids) {
    && (forall i | i in before.channels && i.0 == shard ::
         i in after.channels && after.channels[i] == before.channels[i])
    && (forall o | o in before.sessions :: o in after.sessions && after.sessions[o] == before.sessions[o])
  }

  lemma NamesKept(before: Draft, after: Draft)
    requires Named(before) && Consistent(after.ids) && after.shard == before.shard
    requires Grows(before.shard, before.ids, after.ids)
    requires after.view == before.view && after.overlays == before.overlays && after.rooted == before.rooted
    requires before.keysSeen <= after.keysSeen && before.occupantsSeen <= after.occupantsSeen
    ensures Named(after)
  {
    hide Consistent;
    forall c | c in after.overlays ensures OverlayNamed(after.ids, after.shard, after.overlays[c]) {
      assert OverlayNamed(before.ids, before.shard, before.overlays[c]);
    }
  }

  lemma AllocGrows(ids: Ids, shard: ShardId, key: ChannelKey)
    requires Consistent(ids)
    ensures var r := AllocChannel(ids, shard, key);
            Consistent(r.0) && Grows(shard, ids, r.0) &&
            (r.1.Ok? ==> (shard, key) in r.0.channels && r.0.channels[(shard, key)] == r.1.value && r.1.value != ROOT)
  {
    AfterConsistent(ids, Call.Channel(shard, key));
  }

  lemma SessionGrows(ids: Ids, shard: ShardId, who: Occupant)
    requires Consistent(ids)
    ensures var r := AllocSession(ids, who);
            Consistent(r.0) && Grows(shard, ids, r.0) &&
            (r.1.Ok? ==> who in r.0.sessions && r.0.sessions[who] == r.1.value)
  {
    AfterConsistent(ids, Call.Session(who));
  }

  lemma ElsewhereGrows(ids: Ids, shard: ShardId, call: Call)
    requires Consistent(ids)
    requires call.Retain? || call.Retire? ==> call.shard != shard
    ensures Consistent(Identifiers.After(ids, call)) && Grows(shard, ids, Identifiers.After(ids, call))
  {
    AfterConsistent(ids, call);
  }

  lemma ErrorStays(p: Progress, step: Step)
    ensures p.draft.error.Some? ==> After(p, step).draft.error == p.draft.error
  {
  }

  // ---------------------------------------------------------------- placing keeps identities

  /** A key not yet used in this render has an identifier not yet used in it. */
  lemma FreshChannel(d: Draft, key: ChannelKey, id: ChannelId)
    requires Named(d) && key !in d.keysSeen
    requires (d.shard, key) in d.ids.channels && d.ids.channels[(d.shard, key)] == id && id != ROOT
    ensures id !in d.view.channels
  {
  }

  lemma FreshUser(d: Draft, who: Occupant, s: SessionId)
    requires Named(d) && who !in d.occupantsSeen
    requires who in d.ids.sessions && d.ids.sessions[who] == s
    ensures s !in d.view.users
  {
  }

  /** What a fine channel call did. */
  lemma ChannelPlaced(d: Draft, parent: Handle, key: ChannelKey, name: string, narrow: Narrow)
    requires Named(d) && d.error.None? && PlaceChannel(d, parent, key, name, narrow).0.error.None?
    ensures var (after, h) := PlaceChannel(d, parent, key, name, narrow);
            && Named(after)
            && h.id != ROOT && h.id !in d.view.channels && IsPrefixOf(parent.scope, h.scope)
            && after.view == WithChannel(d.view, NewChannel(key, h.id, parent.id, h.scope, name))
            && after.overlays == d.overlays
  {
    hide Consistent;
    AllocGrows(d.ids, d.shard, key);
    var (after, h) := PlaceChannel(d, parent, key, name, narrow);
    var seen := d.(ids := after.ids);
    NamesKept(d, seen);
    FreshChannel(seen, key, h.id);
    forall c | c in after.overlays ensures OverlayNamed(after.ids, after.shard, after.overlays[c]) {
      assert OverlayNamed(seen.ids, seen.shard, seen.overlays[c]);
    }
  }

  lemma UserPlaced(d: Draft, channel: Handle, who: Occupant, name: string, narrow: Narrow)
    requires Named(d) && d.error.None? && PlaceUser(d, channel, who, name, narrow).0.error.None?
    ensures var (after, s) := PlaceUser(d, channel, who, name, narrow);
            && Named(after)
            && s !in d.view.users
            && after.overlays == d.overlays && after.view.channels == d.view.channels
            && Narrowed(channel.scope, narrow).Some?
            && after.view == WithUser(d.view, NewUser(who, s, channel.id, Narrowed(channel.scope, narrow).value, name))
  {
    hide Consistent;
    SessionGrows(d.ids, d.shard, who);
    var (after, s) := PlaceUser(d, channel, who, name, narrow);
    var seen := d.(ids := after.ids);
    NamesKept(d, seen);
    FreshUser(seen, who, s);
    forall c | c in after.overlays ensures OverlayNamed(after.ids, after.shard, after.overlays[c]) {
      assert OverlayNamed(seen.ids, seen.shard, seen.overlays[c]);
    }
  }

  lemma PrivateUserPlaced(d: Draft, connection: ConnectionId, channel: Handle, who: Occupant, name: string)
    requires Named(d) && d.error.None? && PlacePrivateUser(d, connection, channel, who, name).0.error.None?
    ensures Named(PlacePrivateUser(d, connection, channel, who, name).0)
  {
    hide Consistent;
    SessionGrows(d.ids, d.shard, who);
    var (after, s) := PlacePrivateUser(d, connection, channel, who, name);
    var seen := d.(ids := after.ids);
    NamesKept(d, seen);
    assert connection in d.overlays ==> OverlayNamed(seen.ids, seen.shard, seen.overlays[connection]);
    forall c | c in after.overlays ensures OverlayNamed(after.ids, after.shard, after.overlays[c]) {
      assert c != connection ==> OverlayNamed(seen.ids, seen.shard, seen.overlays[c]);
    }
  }

  lemma PrivateChannelPlaced(d: Draft, connection: ConnectionId, parent: Handle, key: ChannelKey, name: string)
    requires Named(d) && d.error.None? && PlacePrivateChannel(d, connection, parent, key, name).0.error.None?
    ensures var (after, h) := PlacePrivateChannel(d, connection, parent, key, name);
            Named(after) && connection in after.overlays && h.id in after.overlays[connection].channels
  {
    hide Consistent;
    AllocGrows(d.ids, d.shard, key);
    var (after, h) := PlacePrivateChannel(d, connection, parent, key, name);
    var seen := d.(ids := after.ids);
    NamesKept(d, seen);
    assert connection in d.overlays ==> OverlayNamed(seen.ids, seen.shard, seen.overlays[connection]);
    forall c | c in after.overlays ensures OverlayNamed(after.ids, after.shard, after.overlays[c]) {
      assert c != connection ==> OverlayNamed(seen.ids, seen.shard, seen.overlays[c]);
    }
  }

  // ---------------------------------------------------------------- structure

  /** The channel's parent is placed, closer to the root, and its scope extends the parent's. */
  ghost predicate Fits(v: ShardView, rank: map<ChannelId, nat>, id: ChannelId)
    requires id in v.channels
  {
    var parent := v.channels[id].parent;
    && id in rank && parent in v.channels && parent in rank
    && (if id == ROOT then parent == ROOT else rank[parent] < rank[id])
    && IsPrefixOf(v.channels[parent].scope, v.channels[id].scope)
  }

  /** The user's channel is placed, and the user's scope extends the channel's. */
  ghost predicate Housed(v: ShardView, s: SessionId)
    requires s in v.users
  {
    v.users[s].channel in v.channels && IsPrefixOf(v.channels[v.users[s].channel].scope, v.users[s].scope)
  }

  ghost predicate SoundBy(v: ShardView, rank: map<ChannelId, nat>) {
    && (forall id {:trigger Fits(v, rank, id)} | id in v.channels :: Fits(v, rank, id))
    && (forall s {:trigger Housed(v, s)} | s in v.users :: Housed(v, s))
  }

  /** A closed tree whose scopes never widen on the way down. */
  ghost predicate SoundView(v: ShardView) {
    exists rank :: SoundBy(v, rank)
  }

  lemma SoundIsClosedTree(v: ShardView)
    requires SoundView(v)
    ensures Tree(v) && ClosedView(v)
  {
    var rank :| SoundBy(v, rank);
    forall id | id in v.channels
      ensures id in rank && v.channels[id].parent in v.channels && v.channels[id].parent in rank
      ensures if id == ROOT then v.channels[id].parent == ROOT else rank[v.channels[id].parent] < rank[id]
    {
      assert Fits(v, rank, id);
    }
    assert Ranked(v, rank);
    forall s | s in v.users ensures v.users[s].channel in v.channels {
      assert Housed(v, s);
    }
  }

  lemma EmptyIsSound()
    ensures SoundView(EMPTY_VIEW)
  {
    assert SoundBy(EMPTY_VIEW, map[]);
  }

  /** A new channel under a placed one, or the root, keeps the tree. */
  lemma LeafKeepsSound(v: ShardView, c: Channel)
    requires SoundView(v) && c.id !in v.channels
    requires if c.id == ROOT then c.parent == ROOT
             else c.parent in v.channels && IsPrefixOf(v.channels[c.parent].scope, c.scope)
    ensures SoundView(WithChannel(v, c))
  {
    var after := WithChannel(v, c);
    var rank :| SoundBy(v, rank);
    assert c.id != ROOT ==> Fits(v, rank, c.parent);
    var ranked := rank[c.id := if c.id == ROOT then 0 else rank[c.parent] + 1];
    forall id | id in after.channels ensures Fits(after, ranked, id) {
      if id != c.id {
        assert Fits(v, rank, id);
      }
    }
    forall s | s in after.users ensures Housed(after, s) {
      assert Housed(v, s);
    }
    assert SoundBy(after, ranked);
  }

  lemma UserKeepsSound(v: ShardView, u: User)
    requires SoundView(v) && u.session !in v.users
    requires u.channel in v.channels && IsPrefixOf(v.channels[u.channel].scope, u.scope)
    ensures SoundView(WithUser(v, u))
  {
    var after := WithUser(v, u);
    var rank :| SoundBy(v, rank);
    forall id | id in after.channels ensures Fits(after, rank, id) {
      assert Fits(v, rank, id);
    }
    forall s | s in after.users ensures Housed(after, s) {
      assert s != u.session ==> Housed(v, s);
    }
    assert SoundBy(after, rank);
  }

  /** The same elements under the same parents, in the same channels, at the same scopes. */
  ghost predicate SameShape(a: ShardView, b: ShardView) {
    && a.channels.Keys == b.channels.Keys && a.users.Keys == b.users.Keys
    && (forall id | id in a.channels :: SamePlace(a.channels[id], b.channels[id]))
    && (forall s | s in a.users :: SameSeat(a.users[s], b.users[s]))
  }

  predicate SamePlace(a: Channel, b: Channel) {
    a.id == b.id && a.key == b.key && a.parent == b.parent && a.scope == b.scope
  }

  predicate SameSeat(a: User, b: User) {
    a.session == b.session && a.occupant == b.occupant && a.channel == b.channel && a.scope == b.scope
  }

  lemma SameShapeIsSound(a: ShardView, b: ShardView)
    requires SoundView(a) && SameShape(a, b)
    ensures SoundView(b)
  {
    var rank :| SoundBy(a, rank);
    forall id | id in b.channels ensures Fits(b, rank, id) {
      assert Fits(a, rank, id);
      var parent := a.channels[id].parent;
      assert SamePlace(a.channels[id], b.channels[id]) && SamePlace(a.channels[parent], b.channels[parent]);
    }
    forall s | s in b.users ensures Housed(b, s) {
      assert Housed(a, s);
      var channel := a.users[s].channel;
      assert SameSeat(a.users[s], b.users[s]) && SamePlace(a.channels[channel], b.channels[channel]);
    }
    assert SoundBy(b, rank);
  }

  lemma SameShapeIsNamed(before: Draft, after: Draft)
    requires Named(before) && SameShape(before.view, after.view)
    requires after == before.(view := after.view)
    ensures Named(after)
  {
    hide Consistent, OverlayNamed;
    forall id | id in after.view.channels && id != ROOT
      ensures ChannelNamed(after.ids, after.shard, after.view.channels[id], id)
        && after.view.channels[id].key in after.keysSeen
    {
      assert ChannelNamed(before.ids, before.shard, before.view.channels[id], id);
    }
    if ROOT in after.view.channels {
      assert SamePlace(before.view.channels[ROOT], after.view.channels[ROOT]);
    }
    forall s | s in after.view.users
      ensures UserNamed(after.ids, after.view.users[s], s) && after.view.users[s].occupant in after.occupantsSeen
    {
      assert UserNamed(before.ids, before.view.users[s], s);
    }
  }

  lemma TouchKeepsShape(v: ShardView, id: ChannelId, aspect: Aspect)
    ensures SameShape(v, Touch(v, id, aspect))
  {
    assert Touch(v, id, aspect).channels.Keys == v.channels.Keys;
  }

  lemma ShapeComposes(a: ShardView, b: ShardView, c: ShardView)
    requires SameShape(a, b) && SameShape(b, c)
    ensures SameShape(a, c)
  {
    forall id | id in a.channels ensures SamePlace(a.channels[id], c.channels[id]) {
      assert SamePlace(b.channels[id], c.channels[id]);
    }
    forall s | s in a.users ensures SameSeat(a.users[s], c.users[s]) {
      assert SameSeat(b.users[s], c.users[s]);
    }
  }

  lemma FlagsKeepShape(v: ShardView, session: SessionId, flags: UserFlags)
    ensures SameShape(v, Flagged(v, session, flags))
  {
    assert Flagged(v, session, flags).users.Keys == v.users.Keys;
  }

  // ---------------------------------------------------------------- the invariant of every run

  ghost predicate SharedPlaced(p: Progress) {
    forall h | h in p.shared :: h.id in p.draft.view.channels && p.draft.view.channels[h.id].scope == h.scope
  }

  ghost predicate IsPrivate(d: Draft, id: ChannelId) {
    exists c | c in d.overlays :: id in d.overlays[c].channels
  }

  ghost predicate PrivatePlaced(p: Progress) {
    forall h | h in p.private :: IsPrivate(p.draft, h.id)
  }

  /** Some shared element hangs from a private channel. */
  ghost predicate Stranded(d: Draft) {
    || (exists id | id in d.view.channels :: IsPrivate(d, d.view.channels[id].parent))
    || (exists s | s in d.view.users :: IsPrivate(d, d.view.users[s].channel))
  }

  ghost predicate Structured(p: Progress) {
    SharedPlaced(p) && PrivatePlaced(p) && if p.strayed then Stranded(p.draft) else SoundView(p.draft.view)
  }

  ghost predicate Coherent(p: Progress) {
    p.draft.error.None? ==> Named(p.draft) && Structured(p)
  }

  /** Elements of the shared view stay where they are, and private channels stay private. */
  ghost predicate Extends(before: Draft, after: Draft) {
    && (forall id | id in before.view.channels ::
         id in after.view.channels && SamePlace(before.view.channels[id], after.view.channels[id]))
    && (forall s | s in before.view.users ::
         s in after.view.users && SameSeat(before.view.users[s], after.view.users[s]))
    && (forall id | IsPrivate(before, id) :: IsPrivate(after, id))
  }

  lemma ExtendsKeeps(before: Progress, after: Progress)
    requires Extends(before.draft, after.draft)
    ensures SharedPlaced(before) && after.shared == before.shared ==> SharedPlaced(after)
    ensures PrivatePlaced(before) && after.private == before.private ==> PrivatePlaced(after)
    ensures Stranded(before.draft) ==> Stranded(after.draft)
  {
    hide IsPrivate;
    if SharedPlaced(before) && after.shared == before.shared {
      forall h | h in after.shared
        ensures h.id in after.draft.view.channels && after.draft.view.channels[h.id].scope == h.scope
      {
        assert SamePlace(before.draft.view.channels[h.id], after.draft.view.channels[h.id]);
      }
    }
    if Stranded(before.draft) {
      if id :| id in before.draft.view.channels && IsPrivate(before.draft, before.draft.view.channels[id].parent) {
        assert SamePlace(before.draft.view.channels[id], after.draft.view.channels[id]);
      } else {
        var s :| s in before.draft.view.users && IsPrivate(before.draft, before.draft.view.users[s].channel);
        assert SameSeat(before.draft.view.users[s], after.draft.view.users[s]);
      }
    }
  }

  lemma ShapeStep(p: Progress, view: ShardView)
    requires Named(p.draft) && Structured(p) && SameShape(p.draft.view, view)
    ensures var after := p.(draft := p.draft.(view := view)); Named(after.draft) && Structured(after)
  {
    hide Named, SoundView, Stranded, SharedPlaced, PrivatePlaced;
    var after := p.(draft := p.draft.(view := view));
    SameShapeIsNamed(p.draft, after.draft);
    ShapeExtends(p.draft, after.draft);
    ExtendsKeeps(p, after);
    if !p.strayed {
      SameShapeIsSound(p.draft.view, view);
    }
  }

  lemma ShapeExtends(before: Draft, after: Draft)
    requires SameShape(before.view, after.view) && after.overlays == before.overlays
    ensures Extends(before, after)
  {
  }

  /** Everything but the shared view's contents may change, as long as private channels stay. */
  lemma AsideStep(p: Progress, after: Progress)
    requires Structured(p) && after.draft.view == p.draft.view
    requires after.shared == p.shared && after.strayed == p.strayed
    requires forall id | IsPrivate(p.draft, id) :: IsPrivate(after.draft, id)
    requires forall h | h in after.private :: h in p.private || IsPrivate(after.draft, h.id)
    ensures Structured(after)
  {
    hide SoundView, IsPrivate, Stranded;
    assert Extends(p.draft, after.draft);
    ExtendsKeeps(p, after);
  }

  lemma RootKept(p: Progress, name: string)
    requires Named(p.draft) && Structured(p) && p.draft.error.None?
    requires After(p, RootStep(name)).draft.error.None?
    ensures Named(After(p, RootStep(name)).draft) && Structured(After(p, RootStep(name)))
  {
    hide Consistent, OverlayNamed, SoundView, IsPrivate, Stranded;
    var after := After(p, RootStep(name));
    var same := after.(shared := p.shared);
    SameOverlaysSamePrivate(p.draft, after.draft);
    assert Extends(p.draft, after.draft);
    ExtendsKeeps(p, same);
    if !p.strayed {
      LeafKeepsSound(p.draft.view, NewChannel(ROOT, ROOT, ROOT, ROOT_SCOPE, name));
    }
  }

  lemma ChannelKept(p: Progress, step: Step)
    requires Named(p.draft) && Structured(p) && p.draft.error.None?
    requires step.ChannelStep? && Allowed(p, step) && After(p, step).draft.error.None?
    ensures Named(After(p, step).draft) && Structured(After(p, step))
  {
    hide Named, SoundView, IsPrivate, PlaceChannel;
    var after := After(p, step);
    ChannelPlaced(p.draft, step.parent, step.key, step.name, step.narrow);
    var h := PlaceChannel(p.draft, step.parent, step.key, step.name, step.narrow).1;
    var c := NewChannel(step.key, h.id, step.parent.id, h.scope, step.name);
    SameOverlaysSamePrivate(p.draft, after.draft);
    assert Extends(p.draft, after.draft);
    ExtendsKeeps(p, after.(shared := p.shared));
    if !after.strayed {
      LeafKeepsSound(p.draft.view, c);
    } else if step.parent !in p.shared {
      assert IsPrivate(p.draft, step.parent.id);
      assert after.draft.view.channels[h.id].parent == step.parent.id;
    }
  }

  lemma SameOverlaysSamePrivate(before: Draft, after: Draft)
    requires before.overlays == after.overlays
    ensures forall id :: IsPrivate(before, id) <==> IsPrivate(after, id)
  {
  }

  lemma UserKept(p: Progress, step: Step)
    requires Named(p.draft) && Structured(p) && p.draft.error.None?
    requires step.UserStep? && Allowed(p, step) && After(p, step).draft.error.None?
    ensures Named(After(p, step).draft) && Structured(After(p, step))
  {
    hide Named, SoundView, IsPrivate, PlaceUser;
    var after := After(p, step);
    UserPlaced(p.draft, step.channel, step.who, step.name, step.narrow);
    var s := PlaceUser(p.draft, step.channel, step.who, step.name, step.narrow).1;
    var u := NewUser(step.who, s, step.channel.id, Narrowed(step.channel.scope, step.narrow).value, step.name);
    SameOverlaysSamePrivate(p.draft, after.draft);
    assert Extends(p.draft, after.draft);
    ExtendsKeeps(p, after);
    if !after.strayed {
      UserKeepsSound(p.draft.view, u);
    } else if step.channel !in p.shared {
      assert IsPrivate(p.draft, step.channel.id);
      assert after.draft.view.users[s].channel == step.channel.id;
    }
  }

  lemma PrivateKept(p: Progress, step: Step)
    requires Named(p.draft) && Structured(p) && p.draft.error.None?
    requires step.PrivateUserStep? || step.PrivateChannelStep? || step.PrivateFlagsStep?
    requires After(p, step).draft.error.None?
    ensures Named(After(p, step).draft) && Structured(After(p, step))
  {
    hide Consistent, SoundView, Stranded, SharedPlaced;
    var after := After(p, step);
    match step {
      case PrivateUserStep(connection, place, who, name) =>
        PrivateUserPlaced(p.draft, connection, place, who, name);
      case PrivateChannelStep(connection, above, key, name) =>
        PrivateChannelPlaced(p.draft, connection, above, key, name);
      case PrivateFlagsStep(connection, session, flags) =>
        PrivateFlagsNamed(p.draft, connection, session, flags);
    }
    hide Named, Structured;
    PrivateGrows(p.draft, step, p);
    AsideStep(p, after);
  }

  lemma PrivateFlagsNamed(d: Draft, connection: ConnectionId, session: SessionId, flags: UserFlags)
    requires Named(d)
    ensures Named(FlagPrivate(d, connection, session, flags))
  {
    hide Consistent;
    var after := FlagPrivate(d, connection, session, flags);
    assert connection in d.overlays ==> OverlayNamed(d.ids, d.shard, d.overlays[connection]);
    forall c | c in after.overlays ensures OverlayNamed(after.ids, after.shard, after.overlays[c]) {
      assert c != connection ==> OverlayNamed(d.ids, d.shard, d.overlays[c]);
    }
  }

  lemma PrivateGrows(d: Draft, step: Step, p: Progress)
    requires d == p.draft
    requires step.PrivateUserStep? || step.PrivateChannelStep? || step.PrivateFlagsStep?
    ensures forall id | IsPrivate(d, id) :: IsPrivate(After(p, step).draft, id)
  {
    var after := After(p, step).draft;
    forall id | IsPrivate(d, id) ensures IsPrivate(after, id) {
      var c :| c in d.overlays && id in d.overlays[c].channels;
      assert c in after.overlays && id in after.overlays[c].channels;
    }
  }

  lemma ElsewhereKept(p: Progress, call: Call)
    requires Named(p.draft) && Structured(p) && Allowed(p, ElsewhereStep(call))
    ensures Named(After(p, ElsewhereStep(call)).draft) && Structured(After(p, ElsewhereStep(call)))
  {
    var after := After(p, ElsewhereStep(call));
    hide Structured, Consistent;
    ElsewhereGrows(p.draft.ids, p.draft.shard, call);
    NamesKept(p.draft, after.draft);
    SameOverlaysSamePrivate(p.draft, after.draft);
    AsideStep(p, after);
  }

  lemma AudioKept(p: Progress, audio: AudioRelation)
    requires Named(p.draft) && Structured(p)
    ensures Named(After(p, AudioStep(audio)).draft) && Structured(After(p, AudioStep(audio)))
  {
    var after := After(p, AudioStep(audio));
    hide Structured, Consistent;
    NamesKept(p.draft, after.draft);
    SameOverlaysSamePrivate(p.draft, after.draft);
    AsideStep(p, after);
  }

  lemma Kept(p: Progress, step: Step)
    requires Coherent(p) && Allowed(p, step)
    ensures Coherent(After(p, step))
  {
    hide Named, Structured, PlaceChannel, PlaceUser, PlacePrivateUser, PlacePrivateChannel, SameShape;
    ErrorStays(p, step);
    var d := p.draft;
    if After(p, step).draft.error.None? {
      match step {
        case RootStep(name) => RootKept(p, name);
        case ChannelStep(_, _, _, _) => ChannelKept(p, step);
        case UserStep(_, _, _, _) => UserKept(p, step);
        case SetStep(target, aspect) =>
          TouchKeepsShape(d.view, target.id, aspect);
          ShapeStep(p, Touch(d.view, target.id, aspect));
        case LinkStep(a, b) =>
          var once := Touch(d.view, a.id, LinkTo(b.id));
          TouchKeepsShape(d.view, a.id, LinkTo(b.id));
          TouchKeepsShape(once, b.id, LinkTo(a.id));
          ShapeComposes(d.view, once, Touch(once, b.id, LinkTo(a.id)));
          ShapeStep(p, Touch(once, b.id, LinkTo(a.id)));
        case FlagsStep(session, flags) =>
          FlagsKeepShape(d.view, session, flags);
          ShapeStep(p, Flagged(d.view, session, flags));
        case PrivateUserStep(_, _, _, _) => PrivateKept(p, step);
        case PrivateChannelStep(_, _, _, _) => PrivateKept(p, step);
        case PrivateFlagsStep(_, _, _) => PrivateKept(p, step);
        case AudioStep(audio) => AudioKept(p, audio);
        case ElsewhereStep(call) => ElsewhereKept(p, call);
      }
    }
  }

  lemma BeginCoherent(ids: Ids, shard: ShardId)
    requires Consistent(ids)
    ensures Coherent(Begin(ids, shard))
  {
    hide Consistent;
    EmptyIsSound();
  }

  lemma {:induction false} RunCoherent(ids: Ids, shard: ShardId, steps: seq<Step>)
    requires Consistent(ids) && AllAllowed(Begin(ids, shard), steps)
    ensures Coherent(Run(Begin(ids, shard), steps))
  {
    hide Coherent, After, Consistent, Allowed;
    if steps == [] {
      BeginCoherent(ids, shard);
    } else {
      RunCoherent(ids, shard, steps[..|steps| - 1]);
      Kept(Run(Begin(ids, shard), steps[..|steps| - 1]), steps[|steps| - 1]);
    }
  }

  // ---------------------------------------------------------------- closure

  /** What is visible of a sound view is closed, for every observation. */
  lemma RestrictedIsClosed(v: ShardView, see: ScopeSet)
    requires SoundView(v)
    ensures ClosedView(Restrict(v, see))
  {
    hide Sees;
    var rank :| SoundBy(v, rank);
    var r := Restrict(v, see);
    forall id | id in r.channels ensures r.channels[id].parent in r.channels {
      assert Fits(v, rank, id);
      SeesAncestors(see, v.channels[v.channels[id].parent].scope, v.channels[id].scope);
    }
    forall s | s in r.users ensures r.users[s].channel in r.channels {
      assert Housed(v, s);
      SeesAncestors(see, v.channels[v.users[s].channel].scope, v.users[s].scope);
    }
  }

  /** What a connection is meant to hold. */
  function Target(d: Draft, observations: Observations, c: ConnectionId): ShardView {
    Compose(Restrict(d.view, Observed(observations, c)), OverlayIn(d.overlays, c))
  }

  lemma ComposedParent(v: ShardView, r: ShardView, overlay: Overlay, see: ScopeSet, id: ChannelId)
    requires r == Restrict(v, see) && ClosedView(r) && RefersToSeen(v, overlay, see)
    requires id in Compose(r, overlay).channels
    ensures Compose(r, overlay).channels[id].parent in Compose(r, overlay).channels
  {
    hide Sees;
    if id in overlay.channels {
      assert InReach(v, overlay, see, overlay.channels[id].parent);
    } else {
      assert Compose(r, overlay).channels[id] == r.channels[id];
    }
  }

  lemma ComposedSeat(v: ShardView, r: ShardView, overlay: Overlay, see: ScopeSet, s: SessionId)
    requires r == Restrict(v, see) && ClosedView(r) && RefersToSeen(v, overlay, see)
    requires s in Compose(r, overlay).users
    ensures Compose(r, overlay).users[s].channel in Compose(r, overlay).channels
  {
    hide Sees;
    if s in overlay.users {
      assert InReach(v, overlay, see, overlay.users[s].channel);
    } else {
      assert Compose(r, overlay).users[s] == r.users[s];
    }
  }

  lemma ComposedIsClosed(v: ShardView, overlay: Overlay, see: ScopeSet)
    requires SoundView(v) && RefersToSeen(v, overlay, see)
    ensures ClosedView(Compose(Restrict(v, see), overlay))
  {
    RestrictedIsClosed(v, see);
    var r := Restrict(v, see);
    var t := Compose(r, overlay);
    hide SoundView, Restrict, Compose, RefersToSeen;
    forall id | id in t.channels ensures t.channels[id].parent in t.channels {
      ComposedParent(v, r, overlay, see, id);
    }
    forall s | s in t.users ensures t.users[s].channel in t.channels {
      ComposedSeat(v, r, overlay, see, s);
    }
  }

  lemma StrandedIsOpen(d: Draft)
    requires Stranded(d) && Apart(d.view, d.overlays)
    ensures !ClosedView(d.view)
  {
    forall id | IsPrivate(d, id) ensures id !in d.view.channels {
      var c :| c in d.overlays && id in d.overlays[c].channels;
      assert Disjoint(d.view, d.overlays[c]);
    }
    hide IsPrivate, Apart;
    if id :| id in d.view.channels && IsPrivate(d, d.view.channels[id].parent) {
      assert d.view.channels[id].parent !in d.view.channels;
    } else {
      var s :| s in d.view.users && IsPrivate(d, d.view.users[s].channel);
      assert d.view.users[s].channel !in d.view.channels;
    }
  }

  /**
   For every accepted render: the shared view is a closed tree exactly when no shared element
   was placed under a private handle, and then every observation of it is closed and so is
   what each connection is meant to hold, overlay included.
   */
  lemma Closure(ids: Ids, shard: ShardId, steps: seq<Step>, observations: Observations)
    requires Consistent(ids) && AllAllowed(Begin(ids, shard), steps)
    requires Accepted(Run(Begin(ids, shard), steps).draft, observations)
    ensures var p := Run(Begin(ids, shard), steps);
            && WellKeyed(p.draft.view)
            && (ClosedView(p.draft.view) <==> !p.strayed)
            && (!p.strayed ==> Tree(p.draft.view))
            && (!p.strayed ==> forall see: ScopeSet :: ClosedView(Restrict(p.draft.view, see)))
            && (!p.strayed ==> forall c: ConnectionId :: ClosedView(Target(p.draft, observations, c)))
  {
    RunCoherent(ids, shard, steps);
    var p := Run(Begin(ids, shard), steps);
    hide Run, AllAllowed, SoundView, Stranded, RefersToSeen, Restrict, Compose, ClosedView, Tree, Apart, Accepts;
    hide SightOf, Consistent, SharedPlaced, PrivatePlaced, OverlaysNamed;
    NamedIsWellKeyed(p.draft);
    hide ViewNamed, WellKeyed;
    if p.strayed {
      StrandedIsOpen(p.draft);
    } else {
      SoundIsClosedTree(p.draft.view);
      forall see: ScopeSet ensures ClosedView(Restrict(p.draft.view, see)) {
        RestrictedIsClosed(p.draft.view, see);
      }
      forall c: ConnectionId ensures ClosedView(Target(p.draft, observations, c)) {
        TargetIsClosed(p.draft, observations, c);
      }
    }
  }

  lemma TargetIsClosed(d: Draft, observations: Observations, c: ConnectionId)
    requires SoundView(d.view) && OverlaysReferToSeen(d.view, d.overlays, observations)
    ensures ClosedView(Target(d, observations, c))
  {
    hide SoundView, ClosedView, Restrict, Compose;
    ComposedIsClosed(d.view, OverlayIn(d.overlays, c), Observed(observations, c));
  }

  lemma NamedIsWellKeyed(d: Draft)
    requires ViewNamed(d)
    ensures WellKeyed(d.view)
  {
  }

  /** One connection's private channel, used as the parent of a shared one: accepted, and open. */
  lemma LeakedHandle()
    ensures var steps :=
      [RootStep(""), PrivateChannelStep(5, ROOT_HANDLE, 1, ""), ChannelStep(Handle(1, []), 2, "", Same)];
            var p := Run(Begin(NEW_IDS, 0), steps);
            && AllAllowed(Begin(NEW_IDS, 0), steps)
            && Accepted(p.draft, map[5 := {ROOT_SCOPE}])
            && p.strayed && !ClosedView(p.draft.view)
  {
    var first, second, third :=
      RootStep(""), PrivateChannelStep(5, ROOT_HANDLE, 1, ""), ChannelStep(Handle(1, []), 2, "", Same);
    var p0 := Begin(NEW_IDS, 0);
    var p1, p2, p3 := After(p0, first), After(After(p0, first), second), After(After(After(p0, first), second), third);
    LeakedStates();
    hide After, Accepted, ClosedView;
    var steps := [first, second, third];
    RunNext(p0, [], first);
    RunNext(p0, [first], second);
    RunNext(p0, [first, second], third);
    hide Run, AllAllowed, Allowed;
    assert [] + [first] == [first] && [first] + [second] == [first, second] && [first, second] + [third] == steps;
    AllowedHere(p2, third);
  }

  lemma AllowedHere(p: Progress, step: Step)
    requires step.ChannelStep? && (step.parent in p.shared || step.parent in p.private)
    ensures Allowed(p, step)
  {
  }

  lemma RunNext(p: Progress, steps: seq<Step>, step: Step)
    ensures Run(p, steps + [step]) == After(Run(p, steps), step)
    ensures AllAllowed(p, steps + [step]) <==> AllAllowed(p, steps) && Allowed(Run(p, steps), step)
    ensures Run(p, []) == p && AllAllowed(p, [])
    ensures step.RootStep? || step.PrivateChannelStep? ==> Allowed(Run(p, steps), step)
  {
    hide After;
    assert (steps + [step])[..|steps|] == steps;
  }

  lemma LeakedStates()
    ensures var p := After(After(Begin(NEW_IDS, 0), RootStep("")), PrivateChannelStep(5, ROOT_HANDLE, 1, ""));
            var q := After(p, ChannelStep(Handle(1, []), 2, "", Same));
            && Handle(1, []) in p.private && Handle(1, []) !in p.shared
            && q.strayed && Accepted(q.draft, map[5 := {ROOT_SCOPE}]) && !ClosedView(q.draft.view)
  {
    var p := After(After(Begin(NEW_IDS, 0), RootStep("")), PrivateChannelStep(5, ROOT_HANDLE, 1, ""));
    assert p.draft.ids == Ids(map[(0, 1) := 1], map[], Some(2), Some(1));
    var q := After(p, ChannelStep(Handle(1, []), 2, "", Same));
    assert q.draft.view.channels[2].parent == 1 && 1 !in q.draft.view.channels;
    LeakedAccepted(q.draft);
  }

  lemma LeakedAccepted(d: Draft)
    requires d.error.None? && d.rooted && d.audio == NO_AUDIO && d.view.users == map[]
    requires d.view.channels.Keys == {0, 2} && d.view.channels[0].scope == ROOT_SCOPE
    requires d.overlays.Keys == {5} && d.overlays[5].users == map[]
    requires d.overlays[5].channels.Keys == {1} && d.overlays[5].channels[1].parent == 0
    ensures Accepted(d, map[5 := {ROOT_SCOPE}])
  {
    RootSeesAll(ROOT_SCOPE);
    assert Observed(map[5 := {ROOT_SCOPE}], 5) == {ROOT_SCOPE};
    assert Accepts(NO_AUDIO, SightOf(d.view, d.overlays, map[5 := {ROOT_SCOPE}]));
  }
}
