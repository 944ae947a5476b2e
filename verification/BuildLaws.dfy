/**
 What each call of the builder does and when it refuses, said on the draft the caller sees: exactly
 which calls are refused, what a private call places, what a setter changes, and what the check of
 an overlay's references means for the view it makes.
 */
module BuildLaws {
  import opened Collections
  import opened Scopes
  import opened Views
  import opened Identifiers
  import opened Builds
  import opened BuildRuns
  import Ordering

  // ---------------------------------------------------------------- identifiers

  lemma {:induction false} NumbersLeft(states: seq<Ids>, calls: seq<Call>, n: nat)
    requires Identifiers.IsRun(states, calls) && n < |states| && n < SPACE - 1
    ensures states[n].nextChannel.Some? && states[n].nextChannel.value <= n + 1
    ensures states[n].nextSession.Some? && states[n].nextSession.value <= n + 1
  {
    if n > 0 {
      NumbersLeft(states, calls, n - 1);
      assert states[n - 1 + 1] == Identifiers.After(states[n - 1], calls[n - 1]);
    }
  }

  /** The first four billion calls all get their identifier: an old one, or the next number. */
  lemma EnoughIdentifiers(states: seq<Ids>, calls: seq<Call>, n: nat)
    requires Identifiers.IsRun(states, calls) && n < |calls| && n < SPACE - 1
    ensures calls[n].Channel? ==>
      var r := AllocChannel(states[n], calls[n].shard, calls[n].key);
      && r.1.Ok?
      && (calls[n].shard, calls[n].key) in r.0.channels && r.0.channels[(calls[n].shard, calls[n].key)] == r.1.value
    ensures calls[n].Session? ==>
      var r := AllocSession(states[n], calls[n].who);
      r.1.Ok? && calls[n].who in r.0.sessions && r.0.sessions[calls[n].who] == r.1.value
  {
    NumbersLeft(states, calls, n);
  }

  // ---------------------------------------------------------------- when a call is refused

  predicate FitsScope(parent: Scope, narrow: Narrow) {
    narrow.Same? || |parent| < 4
  }

  predicate HasChannelNumber(d: Draft, key: ChannelKey) {
    (d.shard, key) in d.ids.channels || d.ids.nextChannel.Some?
  }

  predicate HasSessionNumber(d: Draft, who: Occupant) {
    who in d.ids.sessions || d.ids.nextSession.Some?
  }

  /** Each kind of call goes through exactly when nothing was refused before and its own conditions hold. */
  lemma RefusedExactly(p: Progress, step: Step)
    ensures BuildRuns.After(p, step).draft.error.None? <==>
      && p.draft.error.None?
      && match step
         case RootStep(_) => !p.draft.rooted
         case ChannelStep(parent, key, _, narrow) =>
           FitsScope(parent.scope, narrow) && key !in p.draft.keysSeen && HasChannelNumber(p.draft, key)
         case UserStep(channel, who, _, narrow) =>
           FitsScope(channel.scope, narrow) && who !in p.draft.occupantsSeen && HasSessionNumber(p.draft, who)
         case LinkStep(a, b) => InBranch(a.scope, b.scope) || InBranch(b.scope, a.scope)
         case PrivateUserStep(_, _, who, _) => HasSessionNumber(p.draft, who)
         case PrivateChannelStep(_, _, key, _) => HasChannelNumber(p.draft, key)
         case _ => true
  {
    hide WithChannel, WithUser, NewChannel, NewUser, Touch, Flagged, Identifiers.After, OverlayIn;
  }

  // ---------------------------------------------------------------- what a private call places

  /** Between the drafts only this connection's overlay changed. */
  ghost predicate OnlyOverlay(before: Draft, after: Draft, c: ConnectionId) {
    && after.view == before.view && after.audio == before.audio && after.rooted == before.rooted
    && after.keysSeen == before.keysSeen && after.occupantsSeen == before.occupantsSeen
    && after.overlays.Keys == before.overlays.Keys + {c}
    && forall k | k in before.overlays && k != c :: after.overlays[k] == before.overlays[k]
  }

  /** A private channel hangs where its handle says, at that handle's scope, in one connection's overlay only. */
  lemma PrivateChannelLands(d: Draft, c: ConnectionId, parent: Handle, key: ChannelKey, name: string)
    requires Consistent(d.ids) && d.error.None? && HasChannelNumber(d, key)
    ensures var (after, h) := PlacePrivateChannel(d, c, parent, key, name);
      && OnlyOverlay(d, after, c)
      && h.scope == parent.scope && h.id != ROOT
      && (d.shard, key) in after.ids.channels && after.ids.channels[(d.shard, key)] == h.id
      && var was, now := OverlayIn(d.overlays, c), OverlayIn(after.overlays, c);
         && now.users == was.users && now.channels - {h.id} == was.channels - {h.id} && h.id in now.channels
         && now.channels[h.id] == Channel.Channel(key, h.id, parent.id, parent.scope, name, 0, true, true, {})
  {
  }

  /** A private user likewise. */
  lemma PrivateUserLands(d: Draft, c: ConnectionId, place: Handle, who: Occupant, name: string)
    requires Consistent(d.ids) && d.error.None? && HasSessionNumber(d, who)
    ensures var (after, s) := PlacePrivateUser(d, c, place, who, name);
      && OnlyOverlay(d, after, c)
      && who in after.ids.sessions && after.ids.sessions[who] == s
      && var was, now := OverlayIn(d.overlays, c), OverlayIn(after.overlays, c);
         && now.channels == was.channels && now.users - {s} == was.users - {s} && s in now.users
         && now.users[s] == User(who, s, place.id, place.scope, name, PLAIN_FLAGS)
  {
  }

  // ---------------------------------------------------------------- what a setter changes

  /** An aspect is its own field and no other. */
  lemma AspectIsOneField(c: Channel, aspect: Aspect)
    ensures var after := Touched(c, aspect);
      && (after.key, after.id, after.parent, after.scope, after.name) == (c.key, c.id, c.parent, c.scope, c.name)
      && after.position == (if aspect.Position? then aspect.position else c.position)
      && after.canEnter == (if aspect.CanEnter? then aspect.yes else c.canEnter)
      && after.canText == (if aspect.CanText? then aspect.yes else c.canText)
      && forall id :: id in after.links <==> id in c.links || aspect == LinkTo(id)
  {
  }

  /** A link is made from both ends, and nothing else is linked. */
  lemma LinkedBothWays(d: Draft, a: Handle, b: Handle)
    requires d.error.None? && a.id in d.view.channels && b.id in d.view.channels
    requires InBranch(a.scope, b.scope) || InBranch(b.scope, a.scope)
    ensures var after := LinkChannels(d, a, b).view;
      && after.users == d.view.users && after.channels.Keys == d.view.channels.Keys
      && forall x, y | x in d.view.channels ::
           y in after.channels[x].links <==>
             y in d.view.channels[x].links || (x == a.id && y == b.id) || (x == b.id && y == a.id)
  {
  }

  // ---------------------------------------------------------------- what the overlay check means

  /** An overlay passes the check exactly when what its connection is meant to hold is closed. */
  lemma ReferencesExactly(v: ShardView, overlay: Overlay, see: ScopeSet)
    requires SoundView(v)
    ensures RefersToSeen(v, overlay, see) <==> Ordering.ClosedView(Compose(Restrict(v, see), overlay))
  {
    hide Sees, SoundView, Ordering.ClosedView, Compose, Restrict;
    if RefersToSeen(v, overlay, see) {
      ComposedIsClosed(v, overlay, see);
    }
    if Ordering.ClosedView(Compose(Restrict(v, see), overlay)) {
      forall s | s in overlay.users ensures InReach(v, overlay, see, overlay.users[s].channel) {
        SeatInReach(v, overlay, see, s);
      }
      forall id | id in overlay.channels ensures InReach(v, overlay, see, overlay.channels[id].parent) {
        ParentInReach(v, overlay, see, id);
      }
    }
  }

  lemma SeatInReach(v: ShardView, overlay: Overlay, see: ScopeSet, s: SessionId)
    requires Ordering.ClosedView(Compose(Restrict(v, see), overlay)) && s in overlay.users
    ensures InReach(v, overlay, see, overlay.users[s].channel)
  {
    hide Sees;
    assert Compose(Restrict(v, see), overlay).users[s] == overlay.users[s];
  }

  lemma ParentInReach(v: ShardView, overlay: Overlay, see: ScopeSet, id: ChannelId)
    requires Ordering.ClosedView(Compose(Restrict(v, see), overlay)) && id in overlay.channels
    ensures InReach(v, overlay, see, overlay.channels[id].parent)
  {
    hide Sees;
    assert Compose(Restrict(v, see), overlay).channels[id] == overlay.channels[id];
  }
}
