/**
 From an accepted render to the voice plane: the session map a turn compiles routes with, and
 the promise the render's check makes about every compiled route.
 */
module RenderAudio {
  import opened Collections
  import opened Scopes
  import opened Views
  import opened Identifiers
  import opened Routing
  import opened Visibility
  import opened Builds
  import opened BuildRuns

  /** The connection has a user in the shared view. */
  ghost predicate InView(view: ShardView, c: ConnectionId) {
    exists s | s in view.users :: view.users[s].occupant == Connection(c)
  }

  /** The connection's own overlay renders it to itself. */
  ghost predicate InOwnOverlay(overlays: map<ConnectionId, Overlay>, c: ConnectionId) {
    c in overlays && exists s | s in overlays[c].users :: overlays[c].users[s].occupant == Connection(c)
  }

  /** Each rendered connection under the one session its identity was given. */
  ghost predicate SessionsOfRender(d: Draft, sessionOf: Sessions) {
    && (forall c: ConnectionId :: c in sessionOf <==> InView(d.view, c) || InOwnOverlay(d.overlays, c))
    && Given(d, sessionOf)
  }

  lemma SessionsOneToOne(d: Draft, sessionOf: Sessions)
    requires Named(d) && SessionsOfRender(d, sessionOf)
    ensures OneToOne(sessionOf)
  {
    forall a, b | a in sessionOf && b in sessionOf && sessionOf[a] == sessionOf[b] ensures a == b {
      assert Connection(a) == Connection(b);
    }
  }

  /** The map so far gives its connections the session of their identity. */
  ghost predicate Given(d: Draft, sessionOf: Sessions) {
    forall c | c in sessionOf :: Connection(c) in d.ids.sessions && sessionOf[c] == d.ids.sessions[Connection(c)]
  }

  ghost predicate Among(view: ShardView, sessions: seq<SessionId>, c: ConnectionId) {
    exists s | s in sessions :: s in view.users && view.users[s].occupant == Connection(c)
  }

  lemma AmongNext(view: ShardView, sessions: seq<SessionId>, s: SessionId, c: ConnectionId)
    requires s in view.users
    ensures Among(view, sessions + [s], c) <==> Among(view, sessions, c) || view.users[s].occupant == Connection(c)
  {
    assert s in sessions + [s];
    if Among(view, sessions, c) {
      var t :| t in sessions && t in view.users && view.users[t].occupant == Connection(c);
      assert t in sessions + [s];
    }
  }

  predicate Mutes(flags: UserFlags) {
    flags.selfMute || flags.mute || flags.suppress
  }

  predicate Deafens(flags: UserFlags) {
    flags.selfDeaf || flags.deaf
  }

  /** What one rendered user's flags add to the silence. */
  function Record(silence: Silence, session: SessionId, flags: UserFlags): Silence {
    Silence(if Mutes(flags) then silence.muted + {session} else silence.muted,
            if Deafens(flags) then silence.deafened + {session} else silence.deafened)
  }

  /** The silence says of these users exactly what their flags say. */
  ghost predicate Silences(view: ShardView, sessions: seq<SessionId>, silence: Silence) {
    && (forall s :: s in silence.muted <==> s in sessions && s in view.users && Mutes(view.users[s].flags))
    && (forall s :: s in silence.deafened <==> s in sessions && s in view.users && Deafens(view.users[s].flags))
  }

  lemma SilencesNext(view: ShardView, sessions: seq<SessionId>, s: SessionId, silence: Silence)
    requires s in view.users && Silences(view, sessions, silence)
    ensures Silences(view, sessions + [s], Record(silence, s, view.users[s].flags))
  {
  }

  /** What the first loop has collected after these sessions. */
  ghost predicate SharedSoFar(d: Draft, sessions: seq<SessionId>, sessionOf: Sessions, silence: Silence) {
    && (forall c: ConnectionId :: c in sessionOf <==> Among(d.view, sessions, c))
    && Given(d, sessionOf) && Silences(d.view, sessions, silence)
  }

  lemma SharedNext(d: Draft, sessions: seq<SessionId>, s: SessionId, sessionOf: Sessions, silence: Silence)
    requires Named(d) && SharedSoFar(d, sessions, sessionOf, silence) && s in d.view.users
    ensures d.view.users[s].session == s
    ensures var user := d.view.users[s];
      var more := if user.occupant.Connection? then sessionOf[user.occupant.connection := s] else sessionOf;
      SharedSoFar(d, sessions + [s], more, Record(silence, s, user.flags))
  {
    hide Consistent, OverlaysNamed, Among, Silences, Record;
    var user := d.view.users[s];
    assert UserNamed(d.ids, user, s);
    SilencesNext(d.view, sessions, s, silence);
    forall c: ConnectionId
      ensures Among(d.view, sessions + [s], c) <==> Among(d.view, sessions, c) || user.occupant == Connection(c)
    {
      AmongNext(d.view, sessions, s, c);
    }
  }

  /** The shared half of the map and of the silence: session by session. */
  method SharedSessions(d: Draft) returns (sessionOf: Sessions, silence: Silence)
    requires Named(d)
    ensures forall c: ConnectionId :: c in sessionOf <==> InView(d.view, c)
    ensures Given(d, sessionOf)
    ensures Silences(d.view, Sorted(d.view.users.Keys), silence)
  {
    hide Named, Among, InView, Given, Sorted;
    sessionOf, silence := map[], Silence({}, {});
    var keys := Sorted(d.view.users.Keys);
    NoneAmong(d.view);
    assert SharedSoFar(d, [], sessionOf, silence) by { NobodyGiven(d); }
    hide Silences, Record;
    for i := 0 to |keys|
      invariant SharedSoFar(d, keys[..i], sessionOf, silence)
    {
      hide SharedSoFar;
      assert keys[i] in d.view.users.Keys && keys[..i + 1] == keys[..i] + [keys[i]];
      var user := d.view.users[keys[i]];
      SharedNext(d, keys[..i], keys[i], sessionOf, silence);
      silence := Record(silence, user.session, user.flags);
      if user.occupant.Connection? {
        sessionOf := sessionOf[user.occupant.connection := user.session];
      }
    }
    assert keys[..|keys|] == keys;
    forall c: ConnectionId ensures Among(d.view, keys, c) <==> InView(d.view, c) {
      AllAmong(d.view, c);
    }
  }

  lemma NobodyGiven(d: Draft)
    ensures Given(d, map[])
  {
  }

  lemma NoneAmong(view: ShardView)
    ensures forall c: ConnectionId :: !Among(view, [], c)
  {
  }

  lemma AllAmong(view: ShardView, c: ConnectionId)
    ensures Among(view, Sorted(view.users.Keys), c) <==> InView(view, c)
  {
    if InView(view, c) {
      var s :| s in view.users && view.users[s].occupant == Connection(c);
      assert s in Sorted(view.users.Keys);
    }
  }

  /** The session under which an overlay renders its own connection, if it does. */
  function OwnSession(overlay: Overlay, c: ConnectionId): (r: Option<SessionId>)
    ensures r.Some? ==> r.value in overlay.users && overlay.users[r.value].occupant == Connection(c)
    ensures r.None? ==> forall s | s in overlay.users :: overlay.users[s].occupant != Connection(c)
  {
    var own := set s | s in overlay.users && overlay.users[s].occupant == Connection(c);
    if own == {} then
      assert forall s | s in overlay.users && overlay.users[s].occupant == Connection(c) :: s in own;
      None
    else Some(Least(own))
  }

  lemma OwnSessionMeans(d: Draft, c: ConnectionId)
    requires Named(d) && c in d.overlays
    ensures OwnSession(d.overlays[c], c).Some? <==> InOwnOverlay(d.overlays, c)
    ensures OwnSession(d.overlays[c], c).Some? ==>
      Connection(c) in d.ids.sessions && OwnSession(d.overlays[c], c).value == d.ids.sessions[Connection(c)]
  {
    hide Consistent, ViewNamed;
    assert OverlayNamed(d.ids, d.shard, d.overlays[c]);
    var own := OwnSession(d.overlays[c], c);
    if own.Some? {
      assert UserNamed(d.ids, d.overlays[c].users[own.value], own.value);
    }
  }

  /** A connection in `own` is rendered to itself under the session there. */
  ghost predicate OwnListed(d: Draft, own: Sessions) {
    forall c | c in own ::
      c in d.overlays && own[c] in d.overlays[c].users && d.overlays[c].users[own[c]].occupant == Connection(c)
  }

  ghost predicate MutedBy(d: Draft, own: Sessions, s: SessionId)
    requires OwnListed(d, own)
  {
    || (s in d.view.users && Mutes(d.view.users[s].flags))
    || exists c | c in own :: own[c] == s && Mutes(d.overlays[c].users[s].flags)
  }

  ghost predicate DeafenedBy(d: Draft, own: Sessions, s: SessionId)
    requires OwnListed(d, own)
  {
    || (s in d.view.users && Deafens(d.view.users[s].flags))
    || exists c | c in own :: own[c] == s && Deafens(d.overlays[c].users[s].flags)
  }

  /** The silence of the shared users and of those who only have a presence of their own. */
  ghost predicate AllSilences(d: Draft, own: Sessions, silence: Silence) {
    && OwnListed(d, own)
    && (forall s :: s in silence.muted <==> MutedBy(d, own, s))
    && (forall s :: s in silence.deafened <==> DeafenedBy(d, own, s))
  }

  lemma SharedSilences(d: Draft, silence: Silence)
    requires Silences(d.view, Sorted(d.view.users.Keys), silence)
    ensures AllSilences(d, map[], silence)
  {
    assert forall s :: s in Sorted(d.view.users.Keys) <==> s in d.view.users;
  }

  lemma OwnSilenced(d: Draft, own: Sessions, c: ConnectionId, s: SessionId, silence: Silence)
    requires AllSilences(d, own, silence) && c !in own && OwnListed(d, own[c := s])
    ensures AllSilences(d, own[c := s], Record(silence, s, d.overlays[c].users[s].flags))
  {
    hide Mutes, Deafens, MutedBy, DeafenedBy;
    var more, user := own[c := s], d.overlays[c].users[s];
    forall t
      ensures MutedBy(d, more, t) <==> MutedBy(d, own, t) || (t == s && Mutes(user.flags))
      ensures DeafenedBy(d, more, t) <==> DeafenedBy(d, own, t) || (t == s && Deafens(user.flags))
    {
      OwnMuted(d, own, c, s, t);
      OwnDeafened(d, own, c, s, t);
    }
  }

  lemma OwnMuted(d: Draft, own: Sessions, c: ConnectionId, s: SessionId, t: SessionId)
    requires OwnListed(d, own) && c !in own && OwnListed(d, own[c := s])
    ensures MutedBy(d, own[c := s], t) <==> MutedBy(d, own, t) || (t == s && Mutes(d.overlays[c].users[s].flags))
  {
    hide Mutes;
    var more := own[c := s];
    assert c in more && more[c] == s;
    if k :| k in own && own[k] == t && Mutes(d.overlays[k].users[t].flags) {
      assert k in more && more[k] == t;
    }
  }

  lemma OwnDeafened(d: Draft, own: Sessions, c: ConnectionId, s: SessionId, t: SessionId)
    requires OwnListed(d, own) && c !in own && OwnListed(d, own[c := s])
    ensures DeafenedBy(d, own[c := s], t) <==>
      DeafenedBy(d, own, t) || (t == s && Deafens(d.overlays[c].users[s].flags))
  {
    hide Deafens;
    var more := own[c := s];
    assert c in more && more[c] == s;
    if k :| k in own && own[k] == t && Deafens(d.overlays[k].users[t].flags) {
      assert k in more && more[k] == t;
    }
  }

  /** The connections of the map that have no shared presence. */
  ghost predicate IsOwnPart(d: Draft, sessionOf: Sessions, own: Sessions) {
    && (forall c | c in own :: c in sessionOf && sessionOf[c] == own[c])
    && (forall c | c in sessionOf && c !in own :: InView(d.view, c))
  }

  /** What the second loop has collected after the overlays in `done`. */
  ghost predicate Collected(
    d: Draft, done: seq<ConnectionId>, sessionOf: Sessions, own: Sessions, silence: Silence)
  {
    && (forall c: ConnectionId ::
          c in sessionOf <==> InView(d.view, c) || (InOwnOverlay(d.overlays, c) && c in done))
    && Given(d, sessionOf) && IsOwnPart(d, sessionOf, own) && AllSilences(d, own, silence)
  }

  lemma CollectedStart(d: Draft, sessionOf: Sessions, silence: Silence)
    requires forall c: ConnectionId :: c in sessionOf <==> InView(d.view, c)
    requires Given(d, sessionOf) && Silences(d.view, Sorted(d.view.users.Keys), silence)
    ensures Collected(d, [], sessionOf, map[], silence)
  {
    hide Silences, AllSilences, InView, InOwnOverlay;
    SharedSilences(d, silence);
  }

  lemma CollectedSkip(
    d: Draft, done: seq<ConnectionId>, c: ConnectionId, sessionOf: Sessions, own: Sessions, silence: Silence)
    requires Collected(d, done, sessionOf, own, silence)
    requires c in sessionOf || !InOwnOverlay(d.overlays, c)
    ensures Collected(d, done + [c], sessionOf, own, silence)
  {
    hide AllSilences, InView, InOwnOverlay, Given;
  }

  lemma CollectedOwn(
    d: Draft, done: seq<ConnectionId>, c: ConnectionId, s: SessionId, sessionOf: Sessions, own: Sessions,
    silence: Silence)
    requires Named(d) && Collected(d, done, sessionOf, own, silence) && c !in sessionOf && c in d.overlays
    requires OwnSession(d.overlays[c], c) == Some(s)
    ensures s in d.overlays[c].users
    ensures Collected(d, done + [c], sessionOf[c := s], own[c := s], Record(silence, s, d.overlays[c].users[s].flags))
  {
    hide Named, OwnSession, AllSilences, InView, InOwnOverlay, Record;
    OwnSessionMeans(d, c);
    ListedSoFar(d, own, silence);
    OwnSilenced(d, own, c, s, silence);
  }

  /** The whole map and the silence: a connection without a shared presence takes part under its own overlay's. */
  method CollectSessions(d: Draft) returns (sessionOf: Sessions, silence: Silence)
    requires Named(d)
    ensures SessionsOfRender(d, sessionOf)
    ensures OneToOne(sessionOf)
    ensures exists own :: IsOwnPart(d, sessionOf, own) && AllSilences(d, own, silence)
  {
    hide Named, OwnSession, Silences, Record, Collected, InView, InOwnOverlay, AllSilences, IsOwnPart, SessionsOfRender;
    hide OneToOne, Given, Sorted;
    sessionOf, silence := SharedSessions(d);
    CollectedStart(d, sessionOf, silence);
    ghost var own: Sessions := map[];
    var keys := Sorted(d.overlays.Keys);
    for i := 0 to |keys|
      invariant Collected(d, keys[..i], sessionOf, own, silence)
    {
      var c := keys[i];
      assert c in d.overlays.Keys && keys[..i + 1] == keys[..i] + [c];
      OwnSessionMeans(d, c);
      var mine := OwnSession(d.overlays[c], c);
      if c !in sessionOf && mine.Some? {
        CollectedOwn(d, keys[..i], c, mine.value, sessionOf, own, silence);
        sessionOf := sessionOf[c := mine.value];
        silence := Record(silence, mine.value, d.overlays[c].users[mine.value].flags);
        own := own[c := mine.value];
      } else {
        CollectedSkip(d, keys[..i], c, sessionOf, own, silence);
      }
    }
    AllCollected(d, sessionOf, own, silence);
  }

  lemma AllCollected(d: Draft, sessionOf: Sessions, own: Sessions, silence: Silence)
    requires Named(d)
    requires var keys := Sorted(d.overlays.Keys); Collected(d, keys[..|keys|], sessionOf, own, silence)
    ensures SessionsOfRender(d, sessionOf) && OneToOne(sessionOf)
    ensures IsOwnPart(d, sessionOf, own) && AllSilences(d, own, silence)
  {
    hide Named, InView, InOwnOverlay, AllSilences, OneToOne, Sorted;
    forall c: ConnectionId | InOwnOverlay(d.overlays, c)
      ensures c in Sorted(d.overlays.Keys)[..|Sorted(d.overlays.Keys)|]
    {
      OwnIsListed(d.overlays, c);
    }
    SessionsOneToOne(d, sessionOf);
  }

  lemma ListedSoFar(d: Draft, own: Sessions, silence: Silence)
    requires AllSilences(d, own, silence)
    ensures OwnListed(d, own)
  {
    hide MutedBy, DeafenedBy;
  }

  // ---------------------------------------------------------------- who is silenced

  /** The connection takes part in audio. */
  ghost predicate TakesPart(d: Draft, c: ConnectionId) {
    InView(d.view, c) || InOwnOverlay(d.overlays, c)
  }

  /** Its presence: the shared one, or the one of its own overlay. */
  ghost predicate Presence(d: Draft, c: ConnectionId, user: User) {
    && Connection(c) in d.ids.sessions
    && var s := d.ids.sessions[Connection(c)];
       if s in d.view.users then user == d.view.users[s]
       else c in d.overlays && s in d.overlays[c].users && user == d.overlays[c].users[s]
  }

  lemma SharedPresence(d: Draft, c: ConnectionId)
    requires Named(d) && InView(d.view, c)
    ensures Connection(c) in d.ids.sessions && d.ids.sessions[Connection(c)] in d.view.users
  {
    hide Consistent, OverlaysNamed;
    var k :| k in d.view.users && d.view.users[k].occupant == Connection(c);
    assert UserNamed(d.ids, d.view.users[k], k);
  }

  /** A session of somebody's own overlay is nobody else's. */
  lemma OwnIsApart(d: Draft, own: Sessions, k: ConnectionId)
    requires Named(d) && Apart(d.view, d.overlays) && OwnListed(d, own) && k in own
    ensures own[k] !in d.view.users
    ensures Connection(k) in d.ids.sessions && d.ids.sessions[Connection(k)] == own[k]
    ensures forall c: ConnectionId | Connection(c) in d.ids.sessions && d.ids.sessions[Connection(c)] == own[k] ::
      c == k
  {
    assert Disjoint(d.view, d.overlays[k]);
    assert OverlayNamed(d.ids, d.shard, d.overlays[k]) && UserNamed(d.ids, d.overlays[k].users[own[k]], own[k]);
  }

  /** A connection is muted or deafened in the silence exactly as the flags of its presence say. */
  lemma SilencedAsFlagged(
    d: Draft, sessionOf: Sessions, own: Sessions, silence: Silence, c: ConnectionId, user: User)
    requires Named(d) && Apart(d.view, d.overlays) && SessionsOfRender(d, sessionOf)
    requires IsOwnPart(d, sessionOf, own) && AllSilences(d, own, silence) && c in sessionOf && Presence(d, c, user)
    ensures sessionOf[c] in silence.muted <==> Mutes(user.flags)
    ensures sessionOf[c] in silence.deafened <==> Deafens(user.flags)
  {
    hide Named, Apart, Mutes, Deafens, InView, InOwnOverlay;
    var s := sessionOf[c];
    forall k | k in own && own[k] == s ensures k == c && s !in d.view.users {
      OwnIsApart(d, own, k);
    }
    if c !in own {
      SharedPresence(d, c);
    }
  }

  /** Everybody who takes part has a presence. */
  lemma HasPresence(d: Draft, c: ConnectionId) returns (user: User)
    requires Named(d) && TakesPart(d, c)
    ensures Presence(d, c, user)
  {
    if InView(d.view, c) {
      SharedPresence(d, c);
      user := d.view.users[d.ids.sessions[Connection(c)]];
    } else {
      hide Consistent, ViewNamed;
      var s :| s in d.overlays[c].users && d.overlays[c].users[s].occupant == Connection(c);
      assert OverlayNamed(d.ids, d.shard, d.overlays[c]) && UserNamed(d.ids, d.overlays[c].users[s], s);
      user := if s in d.view.users then d.view.users[s] else d.overlays[c].users[s];
    }
  }

  /**
   From a render to the voice plane: the table routes one participant to another exactly when the
   relation has the edge, the one's presence does not mute it and the other's does not deafen it.
   */
  method CompileRender(d: Draft) returns (table: Table)
    requires Named(d) && Apart(d.view, d.overlays)
    ensures forall from, to, speaker, hearer
      | TakesPart(d, from) && TakesPart(d, to) && Presence(d, from, speaker) && Presence(d, to, hearer) ::
      Has(table, d.ids.sessions[Connection(from)], d.ids.sessions[Connection(to)]) <==>
        Edge(d.audio, from, to) && !Mutes(speaker.flags) && !Deafens(hearer.flags)
  {
    hide Named, Apart, Edge, Mutes, Deafens, InView, InOwnOverlay, AllSilences, IsOwnPart, Presence, Has;
    var sessionOf, silence := CollectSessions(d);
    table := Compile(d.audio, sessionOf, silence);
    ghost var own :| IsOwnPart(d, sessionOf, own) && AllSilences(d, own, silence);
    forall from, to, speaker, hearer
      | TakesPart(d, from) && TakesPart(d, to) && Presence(d, from, speaker) && Presence(d, to, hearer)
      ensures Connection(from) in d.ids.sessions && Connection(to) in d.ids.sessions
      ensures Has(table, d.ids.sessions[Connection(from)], d.ids.sessions[Connection(to)]) <==>
        Edge(d.audio, from, to) && !Mutes(speaker.flags) && !Deafens(hearer.flags)
    {
      SilencedAsFlagged(d, sessionOf, own, silence, from, speaker);
      SilencedAsFlagged(d, sessionOf, own, silence, to, hearer);
    }
  }

  lemma OwnIsListed(overlays: map<ConnectionId, Overlay>, c: ConnectionId)
    requires InOwnOverlay(overlays, c)
    ensures c in Sorted(overlays.Keys)[..|Sorted(overlays.Keys)|]
  {
    var keys := Sorted(overlays.Keys);
    assert c in keys && keys[..|keys|] == keys;
  }

  // ---------------------------------------------------------------- what the check saw

  lemma {:induction false} ScopesOverMeans(view: ShardView, sessions: seq<SessionId>, c: ConnectionId)
    requires forall s | s in sessions :: s in view.users
    ensures c in ScopesOver(view, sessions) ==>
            exists s | s in sessions ::
              view.users[s].occupant == Connection(c) && view.users[s].scope == ScopesOver(view, sessions)[c]
    ensures (exists s | s in sessions :: view.users[s].occupant == Connection(c)) ==> c in ScopesOver(view, sessions)
  {
    if sessions != [] {
      var n := |sessions| - 1;
      ScopesOverMeans(view, sessions[..n], c);
      assert sessions == sessions[..n] + [sessions[n]];
      assert sessions[n] in sessions;
    }
  }

  /** A sender seen by the receiver is in what the receiver is meant to hold, under its session. */
  lemma SeenIsHeld(d: Draft, observations: Observations, from: ConnectionId, to: ConnectionId)
    requires Named(d) && CanSee(SightOf(d.view, d.overlays, observations), to, from)
    ensures Connection(from) in d.ids.sessions
    ensures d.ids.sessions[Connection(from)] in Target(d, observations, to).users
  {
    hide Consistent, Sees;
    var sight := SightOf(d.view, d.overlays, observations);
    if SeesPrivately(sight, to, from) {
      assert from in Rendering(d.overlays[to]);
      var s :| s in d.overlays[to].users && d.overlays[to].users[s].occupant == Connection(from);
      assert OverlayNamed(d.ids, d.shard, d.overlays[to]) && UserNamed(d.ids, d.overlays[to].users[s], s);
    } else {
      var keys := Sorted(d.view.users.Keys);
      ScopesOverMeans(d.view, keys, from);
      var s :| s in keys && d.view.users[s].occupant == Connection(from) && d.view.users[s].scope == sight.shared[from];
      assert s in d.view.users.Keys;
      assert UserNamed(d.ids, d.view.users[s], s);
    }
  }

  /** And what the receiver is meant to hold it was counted as seeing. */
  lemma HeldIsSeen(d: Draft, observations: Observations, from: ConnectionId, to: ConnectionId)
    requires Named(d) && Connection(from) in d.ids.sessions
    requires d.ids.sessions[Connection(from)] in Target(d, observations, to).users
    ensures CanSee(SightOf(d.view, d.overlays, observations), to, from)
  {
    hide Sees, ScopesOver;
    var sight, s := SightOf(d.view, d.overlays, observations), d.ids.sessions[Connection(from)];
    if to in d.overlays && s in d.overlays[to].users {
      assert OverlayNamed(d.ids, d.shard, d.overlays[to]) && UserNamed(d.ids, d.overlays[to].users[s], s);
      assert from in Rendering(d.overlays[to]);
    } else {
      var keys := Sorted(d.view.users.Keys);
      assert s in d.view.users.Keys && s in keys && UserNamed(d.ids, d.view.users[s], s);
      ScopesOverMeans(d.view, keys, from);
      var k :| k in keys && d.view.users[k].occupant == Connection(from) && d.view.users[k].scope == sight.shared[from];
      assert k in d.view.users.Keys && UserNamed(d.ids, d.view.users[k], k);
    }
  }

  lemma SharedUnderSession(d: Draft, observations: Observations, c: ConnectionId)
    requires Named(d) && c in SightOf(d.view, d.overlays, observations).shared
    ensures Connection(c) in d.ids.sessions && d.ids.sessions[Connection(c)] in d.view.users
  {
    hide Consistent;
    var keys := Sorted(d.view.users.Keys);
    ScopesOverMeans(d.view, keys, c);
    var s :| s in keys && d.view.users[s].occupant == Connection(c);
    assert s in d.view.users.Keys && UserNamed(d.ids, d.view.users[s], s);
  }

  lemma PrivateUnderSession(d: Draft, r: ConnectionId, c: ConnectionId)
    requires Named(d) && r in d.overlays && c in Rendering(d.overlays[r])
    ensures Connection(c) in d.ids.sessions && d.ids.sessions[Connection(c)] in d.overlays[r].users
  {
    hide Consistent, ViewNamed;
    var u :| u in d.overlays[r].users && d.overlays[r].users[u].occupant == Connection(c);
    assert OverlayNamed(d.ids, d.shard, d.overlays[r]) && UserNamed(d.ids, d.overlays[r].users[u], u);
  }

  /** Sessions belong to occupants, so keeping overlays apart keeps the two kinds of sight apart. */
  lemma ApartIsXor(d: Draft, observations: Observations)
    requires Named(d) && Apart(d.view, d.overlays)
    ensures SharedXorPrivate(SightOf(d.view, d.overlays, observations))
  {
    hide Named, Rendering, ScopesOver;
    var sight := SightOf(d.view, d.overlays, observations);
    forall r, s | r in sight.privately && s in sight.privately[r] ensures s !in sight.shared {
      PrivateUnderSession(d, r, s);
      assert Disjoint(d.view, d.overlays[r]);
      if s in sight.shared {
        SharedUnderSession(d, observations, s);
      }
    }
  }

  /**
   For every render: if the check accepts it and no listener has a blind spot, every route of
   the table compiled from it lands on a receiver whose target view holds the sender's session.
   */
  lemma RoutesLandOnHeldSenders(
    ids: Ids, shard: ShardId, steps: seq<Step>, observations: Observations,
    sessionOf: Sessions, silence: Silence, s: SessionId, r: SessionId)
    requires Consistent(ids) && AllAllowed(Begin(ids, shard), steps)
    requires Accepted(Run(Begin(ids, shard), steps).draft, observations)
    requires var d := Run(Begin(ids, shard), steps).draft;
             && NoBlindSpot(d.audio, SightOf(d.view, d.overlays, observations))
             && SessionsOfRender(d, sessionOf)
             && Route(d.audio, sessionOf, silence, s, r)
    ensures var d := Run(Begin(ids, shard), steps).draft;
            forall c | c in sessionOf && sessionOf[c] == r :: s in Target(d, observations, c).users
  {
    RunCoherent(ids, shard, steps);
    var d := Run(Begin(ids, shard), steps).draft;
    hide Run, AllAllowed, Structured, Consistent, ViewNamed, OverlaysNamed, Target, Accepts, SightOf, RefersToSeen;
    hide NoBlindSpot, Edge;
    ApartIsXor(d, observations);
    CountingIsPairwise(d.audio, SightOf(d.view, d.overlays, observations));
    SessionsOneToOne(d, sessionOf);
    var from: ConnectionId, to: ConnectionId :|
      Edge(d.audio, from, to) && from in sessionOf && sessionOf[from] == s && to in sessionOf && sessionOf[to] == r;
    SeenIsHeld(d, observations, from, to);
    forall c | c in sessionOf && sessionOf[c] == r ensures s in Target(d, observations, c).users {
      assert c == to;
    }
  }
}
