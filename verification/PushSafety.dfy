/**
 Pushes to a client that also holds private elements. As long as the overlay stays the same, what a
 push says is about other elements and refers to other channels, and it removes nothing the
 overlay hangs from: it is safe at every prefix exactly when it would be without the overlay.
 */
module PushSafety {
  import opened Collections
  import opened Scopes
  import opened Views
  import opened Planner
  import opened Clients
  import opened Deltas
  import opened OverlayDeltas
  import opened Composition
  import opened FastPath
  import opened Ordering
  import opened PrefixSafety
  import opened Emission
  import opened Windows
  import opened Pushes
  import opened Journals
  import opened Shards
  import opened ShardRuns

  // ---------------------------------------------------------------- operations beside an overlay

  /** A client and, beside it, what it holds privately. */
  function Beside(c: Client, o: Client): Client {
    Client(c.channels + o.channels, c.users + o.users)
  }

  ghost predicate Apart(c: Client, o: Client) {
    c.channels.Keys !! o.channels.Keys && c.users.Keys !! o.users.Keys
  }

  /**
   Not about a private element, not referring to a private channel, not removing what a private
   element hangs from.
   */
  ghost predicate Clear(op: PlanOp, o: Client) {
    match op
    case CreateChannel(channel) => channel.id !in o.channels && channel.parent !in o.channels
    case UpdateChannel(p) => p.id !in o.channels && (p.parent.Some? ==> p.parent.value !in o.channels)
    case AddUser(user) => user.session !in o.users && user.channel !in o.channels
    case MoveUser(s, to) => s !in o.users && to !in o.channels
    case UpdateUser(p) => p.session !in o.users
    case RemoveUser(s) => s !in o.users
    case RemoveChannel(id) => id !in o.channels && Vacant(o, id)
  }

  lemma BesideAt(c: Client, o: Client, e: ElementId)
    ensures At(Beside(c, o), e) == if At(o, e).Some? then At(o, e) else At(c, e)
    ensures Apart(c, o) ==> At(c, e).None? || At(o, e).None?
  {
  }

  lemma ApartWhen(c: Client, o: Client)
    requires forall e :: At(c, e).None? || At(o, e).None?
    ensures Apart(c, o)
  {
    forall id | id in c.channels ensures id !in o.channels {
      assert At(c, ChannelElement(id)).None? || At(o, ChannelElement(id)).None?;
    }
    forall s | s in c.users ensures s !in o.users {
      assert At(c, UserElement(s)).None? || At(o, UserElement(s)).None?;
    }
  }

  lemma ClearTarget(op: PlanOp, o: Client)
    requires Clear(op, o)
    ensures At(o, Target(op)).None?
  {
    hide Vacant;
  }

  lemma ClearApply(c: Client, o: Client, op: PlanOp)
    requires Clear(op, o) && Apart(c, o)
    ensures Apply(Beside(c, o), op) == Beside(Apply(c, op), o) && Apart(Apply(c, op), o)
  {
    hide Clear, Apart, Beside, Apply, At, Clients.Step;
    var both, after := Beside(c, o), Apply(c, op);
    ClearTarget(op, o);
    forall e ensures At(Apply(both, op), e) == At(Beside(after, o), e) && (At(after, e).None? || At(o, e).None?) {
      BesideAt(c, o, e);
      BesideAt(after, o, e);
      ApplyAt(both, op, e);
      ApplyAt(c, op, e);
    }
    SameEverywhere(Apply(both, op), Beside(after, o));
    ApartWhen(after, o);
  }

  lemma VacantBeside(c: Client, o: Client, id: ChannelId)
    requires Apart(c, o) && Vacant(o, id)
    ensures Vacant(Beside(c, o), id) <==> Vacant(c, id)
  {
    var both := Beside(c, o);
    assert forall s | s in c.users :: both.users[s] == c.users[s];
    assert forall s | s in o.users :: both.users[s] == o.users[s];
    assert forall k | k in c.channels :: both.channels[k] == c.channels[k];
    assert forall k | k in o.channels :: both.channels[k] == o.channels[k];
  }

  lemma ClearStep(c: Client, o: Client, op: PlanOp)
    requires Clear(op, o) && Apart(c, o)
    ensures SafeStep(Beside(c, o), op) <==> SafeStep(c, op)
  {
    if op.RemoveChannel? {
      VacantBeside(c, o, op.goneChannel);
    }
    hide Vacant;
  }

  lemma {:induction false} ClearRun(c: Client, o: Client, ops: seq<PlanOp>, n: nat)
    requires Apart(c, o) && n <= |ops| && forall op | op in ops :: Clear(op, o)
    ensures Run(Beside(c, o), ops[..n]) == Beside(Run(c, ops[..n]), o) && Apart(Run(c, ops[..n]), o)
  {
    if n == 0 {
      assert ops[..0] == [];
    } else {
      hide Clear, Apply, Beside, Apart;
      ClearRun(c, o, ops, n - 1);
      assert ops[..n][..n - 1] == ops[..n - 1] && ops[n - 1] in ops;
      ClearApply(Run(c, ops[..n - 1]), o, ops[n - 1]);
    }
  }

  /** Clear of the overlay, operations are safe beside it exactly when they are without it. */
  lemma ClearSafe(c: Client, o: Client, ops: seq<PlanOp>)
    requires Apart(c, o) && forall op | op in ops :: Clear(op, o)
    ensures SafeRun(Beside(c, o), ops) <==> SafeRun(c, ops)
  {
    hide Clear, Apart, Beside, SafeStep, Run;
    forall i | 0 <= i < |ops|
      ensures SafeStep(Run(Beside(c, o), ops[..i]), ops[i]) <==> SafeStep(Run(c, ops[..i]), ops[i])
    {
      ClearRun(c, o, ops, i);
      assert ops[i] in ops;
      ClearStep(Run(c, ops[..i]), o, ops[i]);
    }
  }

  // ---------------------------------------------------------------- what an observer receives is clear

  /** The overlay is apart from both views as seen, and everything it refers to is its own or seen in the new one. */
  ghost predicate Stands(before: ShardView, after: ShardView, see: ScopeSet, overlay: Overlay) {
    && Disjoint(Restrict(before, see), overlay) && Disjoint(Restrict(after, see), overlay)
    && ClosedView(Compose(Restrict(after, see), overlay))
  }

  lemma HeldIsBeside(v: ShardView, see: ScopeSet, overlay: Overlay)
    requires Disjoint(Restrict(v, see), overlay)
    ensures Held(v, see, overlay) == Beside(Show(Restrict(v, see)), Show(overlay))
    ensures Apart(Show(Restrict(v, see)), Show(overlay))
  {
    hide Sees, Show, Restrict, Compose, Disjoint, Beside, Apart, At, Look, Held;
    var r, o := Show(Restrict(v, see)), Show(overlay);
    forall e ensures At(Held(v, see, overlay), e) == At(Beside(r, o), e) && (At(r, e).None? || At(o, e).None?) {
      EndHeld(v, see, overlay, e);
      ShownAt(v, see, overlay, e);
      ShownAt(overlay, see, overlay, e);
      BesideAt(r, o, e);
    }
    SameEverywhere(Held(v, see, overlay), Beside(r, o));
    ApartWhen(r, o);
  }

  /** Whatever is received is about an element seen at one end, and so not about a private one. */
  lemma ReceivedTarget(before: ShardView, after: ShardView, see: ScopeSet, overlay: Overlay, op: PlanOp)
    requires WellKeyed(before) && WellKeyed(after)
    requires Disjoint(Restrict(before, see), overlay) && Disjoint(Restrict(after, see), overlay)
    requires op in Received(before, after, see)
    ensures Look(overlay, Target(op)).None?
  {
    hide Plan, Filter, On, Collapse, Sees, Look, WellKeyed, Restrict, Disjoint, ClosedView, About, Delta;
    var e := Target(op);
    var ops := Filter(Plan(before, after), see);
    OnMember(Received(before, after, see), op, e);
    CollapseOn(ops, e);
    FilterOn(Plan(before, after), see, e);
    PlanIsDelta(before, after);
    DisjointAt(before, see, overlay, e);
    DisjointAt(after, see, overlay, e);
    if Look(overlay, e).Some? {
      UnseenSilent(About(Plan(before, after), e), Look(before, e), Look(after, e), see);
      SettledNothing();
    }
  }

  lemma UnseenSilent(d: seq<PlannedOp>, x: Option<Entry>, y: Option<Entry>, see: ScopeSet)
    requires Delta(d, x, y) && Seen(see, x).None? && Seen(see, y).None?
    ensures Filter(d, see) == []
  {
    FilterDelta(d, x, y, see);
    hide Filter, Sees;
  }

  lemma SettledNothing()
    ensures Settle([]) == []
  {
  }

  /** What a received operation refers to, it sees in the new view. */
  ghost predicate Refers(op: PlanOp, k: set<ChannelId>) {
    match op
    case CreateChannel(channel) => channel.parent in k
    case UpdateChannel(p) => p.parent.Some? ==> p.parent.value in k
    case AddUser(user) => user.channel in k
    case MoveUser(_, to) => to in k
    case UpdateUser(_) => true
    case RemoveUser(_) => true
    case RemoveChannel(_) => true
  }

  lemma CreatedRefers(before: ShardView, after: ShardView, see: ScopeSet, op: PlanOp)
    requires Travels(before, after, see) && op in Filter(FirstPhase(before, after), see)
    ensures Refers(op, Restrict(after, see).channels.Keys)
  {
    var r := Restrict(after, see);
    assert forall id | id in r.channels :: r.channels[id].parent in r.channels;
    hide Filter, Creations, Ordered, Arriving, Sorted, Tree, Sees, WellKeyed;
    var cs := Created(before, after);
    CreatedMembers(before, after);
    CreationMembers(cs);
    FilterMembers(Creations(cs), see);
    var p :| p in Creations(cs) && p.op == op && Sees(see, p.scope);
    var id := p.op.channel.id;
    assert id in r.channels && r.channels[id] == p.op.channel;
  }

  lemma ReceivedRefers(before: ShardView, after: ShardView, see: ScopeSet, op: PlanOp)
    requires Travels(before, after, see) && op in Received(before, after, see)
    ensures Refers(op, Restrict(after, see).channels.Keys)
    ensures op.RemoveChannel? ==> op.goneChannel in Removed(before, after, see)
  {
    assert ClosedView(Restrict(after, see));
    hide Filter, FirstPhase, ReceivedMiddle, Received, Removed, Restrict, Travels, ClosedView, Refers;
    ReceivedPhases(before, after, see);
    var k := Restrict(after, see).channels.Keys;
    if op in Filter(FirstPhase(before, after), see) {
      CreatedRefers(before, after, see, op);
      CreatedOnly(before, after, see, op);
    } else if op in ReceivedMiddle(before, after, see) {
      MiddleOpsHarmless(before, after, see);
      HarmlessRefers(op, k);
    } else {
      assert op in PrivateWithdrawals(Removed(before, after, see));
      WithdrawalRefers(op, Removed(before, after, see), k);
    }
  }

  lemma HarmlessRefers(op: PlanOp, k: set<ChannelId>)
    requires Harmless(op, k)
    ensures Refers(op, k) && !op.RemoveChannel?
  {
  }

  lemma WithdrawalRefers(op: PlanOp, ids: seq<ChannelId>, k: set<ChannelId>)
    requires op in PrivateWithdrawals(ids)
    ensures Refers(op, k) && op.RemoveChannel? && op.goneChannel in ids
  {
  }

  lemma CreatedOnly(before: ShardView, after: ShardView, see: ScopeSet, op: PlanOp)
    requires op in Filter(FirstPhase(before, after), see)
    ensures op.CreateChannel?
  {
    hide Filter, Creations, Ordered, Arriving, Sorted, Sees;
    CreationMembers(Created(before, after));
    FilterMembers(Creations(Created(before, after)), see);
    var p :| p in Creations(Created(before, after)) && p.op == op;
  }

  lemma PrivateParent(v: ShardView, overlay: Overlay, k: ChannelId)
    requires ClosedView(Compose(v, overlay)) && k in overlay.channels
    ensures overlay.channels[k].parent in v.channels || overlay.channels[k].parent in overlay.channels
  {
    assert Compose(v, overlay).channels[k] == overlay.channels[k];
  }

  lemma PrivateSeat(v: ShardView, overlay: Overlay, s: SessionId)
    requires ClosedView(Compose(v, overlay)) && s in overlay.users
    ensures overlay.users[s].channel in v.channels || overlay.users[s].channel in overlay.channels
  {
    assert Compose(v, overlay).users[s] == overlay.users[s];
  }

  /** Nothing private hangs from a channel the observer no longer sees. */
  lemma RemovedIsVacant(before: ShardView, after: ShardView, see: ScopeSet, overlay: Overlay, id: ChannelId)
    requires WellKeyed(before) && WellKeyed(after) && Stands(before, after, see, overlay)
    requires id in Removed(before, after, see)
    ensures id !in overlay.channels && Vacant(Show(overlay), id)
  {
    hide Removed, Restrict, WellKeyed, ClosedView, Compose;
    RemovedMembers(before, after, see, id);
    assert id !in overlay.channels;
    var o := Show(overlay);
    forall s | s in o.users ensures o.users[s].channel != id {
      PrivateSeat(Restrict(after, see), overlay, s);
    }
    forall k | k in o.channels && k != id ensures o.channels[k].parent != id {
      PrivateParent(Restrict(after, see), overlay, k);
    }
  }

  lemma ReceivedIsClear(before: ShardView, after: ShardView, see: ScopeSet, overlay: Overlay, op: PlanOp)
    requires Travels(before, after, see) && Stands(before, after, see, overlay) && op in Received(before, after, see)
    ensures Clear(op, Show(overlay))
  {
    hide Received, Removed, Restrict, Tree, ClosedView, WellKeyed, Clear, Refers, Look, Target, Compose;
    ReceivedTarget(before, after, see, overlay, op);
    ReceivedRefers(before, after, see, op);
    if op.RemoveChannel? {
      RemovedIsVacant(before, after, see, overlay, op.goneChannel);
    }
    ClearWhen(op, overlay, Restrict(after, see).channels.Keys);
  }

  lemma ClearWhen(op: PlanOp, overlay: Overlay, k: set<ChannelId>)
    requires Look(overlay, Target(op)).None? && Refers(op, k) && k !! overlay.channels.Keys
    requires op.RemoveChannel? ==> Vacant(Show(overlay), op.goneChannel)
    ensures Clear(op, Show(overlay))
  {
    hide Vacant;
  }

  // ---------------------------------------------------------------- one push

  lemma SameOverlay(replayed: seq<PlannedOp>, see: ScopeSet, overlay: Overlay)
    requires WellKeyed(overlay)
    ensures Transition(replayed, see, overlay, overlay) == Collapse(Filter(replayed, see))
  {
    hide Filter, Collapse, WellKeyed;
    UnchangedOverlay(overlay);
    SpliceNothing(Filter(replayed, see));
  }

  /**
   A push of one version to a client with an unchanged overlay: safe at every prefix exactly when
   every channel revealed to this observer is revealed in time.
   */
  lemma PushSafe(before: ShardView, after: ShardView, see: ScopeSet, overlay: Overlay)
    requires Travels(before, after, see) && WellKeyed(overlay) && Stands(before, after, see, overlay)
    ensures SafeRun(Held(before, see, overlay), Transition(Plan(before, after), see, overlay, overlay))
       <==> RevealedInTime(before, after, see)
  {
    assert Disjoint(Restrict(before, see), overlay);
    hide Travels, Stands, RevealedInTime, SafeRun, Plan, Filter, Collapse, Restrict, Show, WellKeyed, Transition, Clear;
    hide Held, Beside, Apart, Disjoint;
    var ops := Received(before, after, see);
    SameOverlay(Plan(before, after), see, overlay);
    HeldIsBeside(before, see, overlay);
    hide Received;
    forall op | op in ops ensures Clear(op, Show(overlay)) {
      ReceivedIsClear(before, after, see, overlay, op);
    }
    ClearSafe(Show(Restrict(before, see)), Show(overlay), ops);
    ReceivedSafe(before, after, see);
  }

  // ---------------------------------------------------------------- pushes of a shard

  /** What a committed push of an up-to-date record has the queue accept. */
  lemma PushSends(
    w: World, r: Render, observations: map<ConnectionId, ScopeSet>, verdicts: map<ConnectionId, Verdict>,
    c: ConnectionId)
    requires c in w.shard.connections && !Moved(w.shard.connections[c], Observed(observations, c))
    requires w.shard.connections[c].cursor == |w.shard.log|
    requires TurnOf(w.shard, r, observations, verdicts, c).outcome == Advanced
    ensures var a := w.shard.connections[c];
      TurnOf(w.shard, r, observations, verdicts, c).sent
      == SelfFirst(Transition(Plan(w.shard.view, r.view), a.see, a.overlay, OverlayOf(r, c)), a.session)
  {
    hide Plan, Transition, OverlayOf;
    var a, log := w.shard.connections[c], LogAfter(w.shard, r);
    assert SelfFirst([], a.session) == [];
    ReplayWithinDepth(log, a.cursor);
    OneVersionFlattened(w.shard, r);
    hide SelfFirst;
  }

  lemma OneVersionFlattened(shard: Shard, r: Render)
    ensures |LogAfter(shard, r)| >= |shard.log|
    ensures Flatten(LogAfter(shard, r)[|shard.log|..]) == Plan(shard.view, r.view)
  {
    hide Plan;
    var p := Plan(shard.view, r.view);
    if p == [] {
      assert LogAfter(shard, r)[|shard.log|..] == [];
    } else {
      assert LogAfter(shard, r)[|shard.log|..] == [p] && [p][..0] == [];
    }
  }

  /** Two renders one observer is taken between, its overlay standing in both. */
  ghost predicate PushesOver(w: World, r: Render, c: ConnectionId)
    requires c in w.shard.connections
  {
    var a := w.shard.connections[c];
    && a.held.None? && a.cursor == |w.shard.log| && OverlayOf(r, c) == a.overlay
    && Travels(w.shard.view, r.view, a.see)
    && ClosedView(Wanted(r.view, a.see, a.overlay))
  }

  /** What an up-to-date record stands on: its client, and an overlay apart from the newest view. */
  lemma NewestHeld(w: World, c: ConnectionId)
    requires Invariant(w) && c in w.shard.connections
    requires w.shard.connections[c].held.None? && w.shard.connections[c].cursor == |w.shard.log|
    ensures var a := w.shard.connections[c];
      && Run(Show(w.base[c]), w.sent[c]) == Held(w.shard.view, a.see, a.overlay)
      && Disjoint(Restrict(w.shard.view, a.see), a.overlay) && WellKeyed(a.overlay)
  {
    hide Recorded, Run, Show, Restrict, Disjoint, WellKeyed, Held, Alike;
    var a := w.shard.connections[c];
    assert Faithful(w, c);
    LastAlike(w.shard, w.history);
    AlikeHeld(w.history[a.cursor], w.shard.view, a.see, a.overlay);
  }

  /**
   A committed push of one version, the overlay unchanged, to a client whose record is up to date:
   every prefix of the batch is safe if and only if what it reveals is revealed in time.
   */
  lemma PushBatchSafe(
    w: World, r: Render, observations: map<ConnectionId, ScopeSet>, verdicts: map<ConnectionId, Verdict>,
    c: ConnectionId)
    requires Invariant(w) && Wellformed(r) && c in w.shard.connections && PushesOver(w, r, c)
    requires !Moved(w.shard.connections[c], Observed(observations, c))
    requires TurnOf(w.shard, r, observations, verdicts, c).outcome == Advanced
    ensures SafeRun(Run(Show(w.base[c]), w.sent[c]), TurnOf(w.shard, r, observations, verdicts, c).sent)
       <==> RevealedInTime(w.shard.view, r.view, w.shard.connections[c].see)
  {
    hide SafeRun, Run, Show, Plan, Transition, SelfFirst, TurnOf, RevealedInTime, Travels, WellKeyed, Restrict, Compose;
    hide Held, Disjoint, ClosedView, Wellformed, Recorded, Sound;
    var a := w.shard.connections[c];
    NewestHeld(w, c);
    OverlayWellformed(r, c);
    RestrictedDisjoint(r.view, a.see, a.overlay);
    PushSends(w, r, observations, verdicts, c);
    SelfFirstSafe(Held(w.shard.view, a.see, a.overlay),
                  Transition(Plan(w.shard.view, r.view), a.see, a.overlay, a.overlay), a.session);
    PushSafe(w.shard.view, r.view, a.see, a.overlay);
  }

  /** The same at every step of every guarded run. */
  lemma PushesOfRunsSafe(worlds: seq<World>, events: seq<Event>, n: nat, c: ConnectionId)
    requires IsRun(worlds, events) && n < |events| && events[n].Reconcile? && c in worlds[n].shard.connections
    requires var w, e := worlds[n], events[n];
      && PushesOver(w, e.render, c) && !Moved(w.shard.connections[c], Observed(e.observations, c))
      && TurnOf(w.shard, e.render, e.observations, e.verdicts, c).outcome == Advanced
    ensures var w, e := worlds[n], events[n];
      && c in w.base && c in w.sent
      && (SafeRun(Run(Show(w.base[c]), w.sent[c]), TurnOf(w.shard, e.render, e.observations, e.verdicts, c).sent)
          <==> RevealedInTime(w.shard.view, e.render.view, w.shard.connections[c].see))
  {
    hide SafeRun, Run, Show, TurnOf, RevealedInTime, TurnGuard, ShardRuns.Step, Wellformed, PushesOver, Recorded;
    hide Faithful;
    var w, e := worlds[n], events[n];
    RunsAreFaithful(worlds, events, n);
    assert Guarded(w, e);
    PushBatchSafe(w, e.render, e.observations, e.verdicts, c);
  }
}
