/**
 Whole runs of one shard. A world is a shard together with what the model remembers about it:
 the view of every version, and for each connection the view it held when it attached and
 everything its queue has accepted since.

 The theorem: at every point of every guarded run, folding the accepted operations over the
 view held at attach gives exactly the view the committed record composes.
 */
module ShardRuns {
  import opened Collections
  import opened Scopes
  import opened Views
  import opened Planner
  import opened Clients
  import opened Deltas
  import opened OverlayDeltas
  import opened Composition
  import opened FastPath
  import opened Windows
  import opened Pushes
  import opened PrefixSafety
  import opened Replans
  import opened Emission
  import opened Journals
  import opened Shards

  datatype World = World(
    shard: Shard,
    history: seq<ShardView>,
    base: map<ConnectionId, ShardView>,
    sent: map<ConnectionId, seq<PlanOp>>)

  const NEW_WORLD := World(NEW_SHARD, [EMPTY_VIEW], map[], map[])

  datatype Event =
    | Attach(connection: ConnectionId, session: SessionId, view: ShardView)
    | Detach(connection: ConnectionId)
    | Retry(connection: ConnectionId, verdict: Verdict)
    | Refuse
    | Reconcile(render: Render, observations: map<ConnectionId, ScopeSet>, verdicts: map<ConnectionId, Verdict>)

  function HistoryAfter(w: World, r: Render): seq<ShardView> {
    if Plan(w.shard.view, r.view) == [] then w.history else w.history + [r.view]
  }

  function SentTo(w: World, c: ConnectionId): seq<PlanOp> {
    if c in w.sent then w.sent[c] else []
  }

  function Step(w: World, e: Event): World {
    match e
    case Attach(c, session, held) =>
      World(AttachTo(w.shard, c, session, held), w.history, w.base[c := held], w.sent[c := []])
    case Detach(c) =>
      w.(shard := w.shard.(connections := w.shard.connections - {c}))
    case Refuse => w
    case Retry(c, verdict) =>
      if c !in w.shard.connections then w
      else w.(shard := Retried(w.shard, c, verdict),
              sent := w.sent[c := SentTo(w, c) + RetryTurn(w.shard, c, verdict).sent])
    case Reconcile(r, observations, verdicts) =>
      if Idle(w.shard, r, observations) then w
      else World(
        Reconciled(w.shard, r, observations, verdicts),
        HistoryAfter(w, r),
        w.base,
        map c | c in w.sent ::
          if c in w.shard.connections then w.sent[c] + TurnOf(w.shard, r, observations, verdicts, c).sent
            else w.sent[c])
  }

  /** Every attached connection has its history recorded. */
  ghost predicate Known(w: World) {
    w.shard.connections.Keys <= w.base.Keys && w.shard.connections.Keys <= w.sent.Keys
  }

  // ---------------------------------------------------------------- the invariant

  /** The recorded views, the journalled deltas between them, and the current view agree. */
  ghost predicate Recorded(shard: Shard, history: seq<ShardView>) {
    && |history| == |shard.log| + 1
    && (forall v | v in history :: WellKeyed(v))
    && WellKeyed(shard.view)
    && Alike(history[|shard.log|], shard.view)
    && forall i | 0 <= i < |shard.log| :: IsDelta(shard.log[i], history[i], history[i + 1])
  }

  /** What the committed record says the client holds. */
  function Holds(a: Attached, history: seq<ShardView>): Client
    requires a.cursor < |history|
  {
    if a.held.Some? then Show(a.held.value) else Held(history[a.cursor], a.see, a.overlay)
  }

  /** A committed record that is well formed against the recorded views. */
  ghost predicate Sound(a: Attached, history: seq<ShardView>) {
    && a.cursor < |history|
    && WellKeyed(a.overlay)
    && (a.held.Some? ==> WellKeyed(a.held.value))
    && (a.held.None? ==> Disjoint(Restrict(history[a.cursor], a.see), a.overlay))
  }

  ghost predicate Faithful(w: World, c: ConnectionId)
    requires Known(w) && c in w.shard.connections
  {
    var a := w.shard.connections[c];
    Sound(a, w.history) && Run(Show(w.base[c]), w.sent[c]) == Holds(a, w.history)
  }

  ghost predicate Invariant(w: World) {
    && Known(w)
    && Recorded(w.shard, w.history)
    && forall c | c in w.shard.connections :: Faithful(w, c)
  }

  // ---------------------------------------------------------------- the guards

  /** A push the shard may take: replayed from the cursor with the overlay change, it settles every element. */
  ghost predicate PushGuard(a: Attached, log: Log, history: seq<ShardView>, overlay: Overlay) {
    && a.cursor < |history| && |history| == |log| + 1
    && AllSettled(log[a.cursor..], history[a.cursor..], a.see, a.overlay, overlay)
  }

  /** What the shard plans a connection towards. */
  function Wanted(after: ShardView, see: ScopeSet, overlay: Overlay): ShardView {
    Compose(Restrict(after, see), overlay)
  }

  /** A replan the shard may take: planned from what it believes the client holds, every element of the client mends. */
  ghost predicate ReplanGuard(
    a: Attached, shard: Shard, history: seq<ShardView>, after: ShardView, see: ScopeSet, overlay: Overlay)
  {
    a.cursor < |history| && AllMend(Holds(a, history), Composed(a, shard.view), Wanted(after, see, overlay))
  }

  /** It knows what the client holds: the view it was attached with, or the newest version. */
  predicate UpToDate(a: Attached, shard: Shard) {
    a.held.Some? || a.cursor == |shard.log|
  }

  /** What the builder guarantees of an accepted render. */
  ghost predicate Wellformed(r: Render) {
    && WellKeyed(r.view)
    && forall c | c in r.overlays :: WellKeyed(r.overlays[c]) && Disjoint(r.view, r.overlays[c])
  }

  /** The guards bind only the turns that commit something; a refusal is always allowed. */
  ghost predicate Guarded(w: World, e: Event) {
    match e
    case Attach(_, _, held) => WellKeyed(held)
    case Detach(_) => true
    case Refuse => true
    case Retry(c, verdict) =>
      c in w.shard.connections && RetryTurn(w.shard, c, verdict).outcome == Advanced ==>
        var a := w.shard.connections[c];
        && PushGuard(a, w.shard.log, w.history, a.overlay)
        && Disjoint(Restrict(w.history[|w.history| - 1], a.see), a.overlay)
    case Reconcile(r, observations, verdicts) =>
      && Wellformed(r)
      && forall c | c in w.shard.connections :: TurnGuard(w, r, observations, verdicts, c)
  }

  ghost predicate TurnGuard(
    w: World, r: Render, observations: map<ConnectionId, ScopeSet>, verdicts: map<ConnectionId, Verdict>,
    c: ConnectionId)
    requires c in w.shard.connections
  {
    TurnOf(w.shard, r, observations, verdicts, c).outcome == Advanced ==>
      var a := w.shard.connections[c];
      if Moved(a, Observed(observations, c))
      then ReplanGuard(a, w.shard, w.history, r.view, Observed(observations, c), OverlayOf(r, c))
      else PushGuard(a, LogAfter(w.shard, r), HistoryAfter(w, r), OverlayOf(r, c))
  }

  // ---------------------------------------------------------------- deliveries

  /** A delivered transition that turns what was held into what is wanted keeps the record faithful. */
  lemma DeliverFaithful(
    a: Attached, client: Client, ops: seq<PlanOp>, head: nat, see: ScopeSet, overlay: Overlay, verdict: Verdict,
    target: Client)
    requires Run(client, ops) == target
    ensures var t := Deliver(a, ops, head, see, overlay, verdict);
      && (t.outcome == Advanced ==> t.attached == Commit(a, head, see, overlay) && Run(client, t.sent) == target)
      && (t.outcome != Advanced ==> t.attached == a && t.sent == [])
  {
    hide Run, SelfFirst;
    SelfFirstMeansTheSame(client, ops, a.session);
    if ops == [] {
      assert Run(client, []) == target;
    }
  }

  lemma StalledSendsNothing(a: Attached, log: Log, head: nat, overlay: Overlay, verdict: Verdict)
    ensures var t := Push(a, log, head, overlay, verdict); t.outcome != Advanced ==> t.attached == a && t.sent == []
  {
    hide Transition, SelfFirst;
  }

  lemma ReplanStalled(
    a: Attached, before: ShardView, after: ShardView, head: nat, see: ScopeSet, overlay: Overlay, verdict: Verdict)
    ensures var t := Replan(a, before, after, head, see, overlay, verdict);
      t.outcome != Advanced ==> t.attached == a && t.sent == []
  {
    hide ReplanOps, SelfFirst;
  }

  /** The identity is a delta from a view to itself. */
  lemma NoDelta(v: ShardView)
    ensures IsDelta([], v, v)
  {
    forall e ensures Delta(About([], e), Look(v, e), Look(v, e)) {
      assert Bare([]) == [];
    }
  }

  lemma AlikeHeld(v: ShardView, v': ShardView, see: ScopeSet, o: Overlay)
    requires Alike(v, v')
    ensures Held(v, see, o) == Held(v', see, o)
    ensures Disjoint(Restrict(v, see), o) ==> Disjoint(Restrict(v', see), o)
  {
    forall e ensures At(Held(v, see, o), e) == At(Held(v', see, o), e) {
      ShownAt(v, see, o, e);
      ShownAt(v', see, o, e);
      assert Look(v, e) == Look(v', e);
    }
    SameEverywhere(Held(v, see, o), Held(v', see, o));
    AlikeRestricts(v, v', see);
  }

  lemma AlikeRestricts(v: ShardView, v': ShardView, see: ScopeSet)
    requires Alike(v, v')
    ensures Restrict(v, see).channels.Keys == Restrict(v', see).channels.Keys
    ensures Restrict(v, see).users.Keys == Restrict(v', see).users.Keys
  {
    hide Sees;
    forall id ensures id in Restrict(v, see).channels <==> id in Restrict(v', see).channels {
      assert Look(v, ChannelElement(id)) == Look(v', ChannelElement(id));
    }
    forall s ensures s in Restrict(v, see).users <==> s in Restrict(v', see).users {
      assert Look(v, UserElement(s)) == Look(v', UserElement(s));
    }
  }

  // ---------------------------------------------------------------- the fast path

  /** The slice of the log a cursor has not seen, between the views on either side of it. */
  lemma Unseen(shard: Shard, history: seq<ShardView>, cursor: nat)
    requires Recorded(shard, history) && cursor < |history|
    ensures Chain(shard.log[cursor..], history[cursor..])
  {
    var deltas, views := shard.log[cursor..], history[cursor..];
    forall i | 0 <= i < |deltas| ensures IsDelta(deltas[i], views[i], views[i + 1]) {
      assert IsDelta(shard.log[cursor + i], history[cursor + i], history[cursor + i + 1]);
    }
  }

  /** The transition of a guarded push is exact. */
  /** A push leaves the client the new composed view if and only if it settles every element. */
  lemma PushExact(a: Attached, shard: Shard, history: seq<ShardView>, overlay: Overlay)
    requires Recorded(shard, history) && Sound(a, history) && a.held.None?
    requires WellKeyed(overlay) && Disjoint(Restrict(history[|shard.log|], a.see), overlay)
    ensures
      Run(Held(history[a.cursor], a.see, a.overlay),
          Transition(Flatten(shard.log[a.cursor..]), a.see, a.overlay, overlay))
        == Held(history[|shard.log|], a.see, overlay)
      <==> PushGuard(a, shard.log, history, overlay)
  {
    hide Run, Transition, Held, Disjoint, Restrict, WellKeyed, IsDelta, Alike, AllSettled;
    Unseen(shard, history, a.cursor);
    WindowExact(shard.log[a.cursor..], history[a.cursor..], a.see, a.overlay, overlay);
  }

  /** At most one version behind, a push is always exact, whatever the overlay change. */
  lemma OneVersionSettles(a: Attached, shard: Shard, history: seq<ShardView>, overlay: Overlay)
    requires Recorded(shard, history) && Sound(a, history) && a.held.None? && |shard.log| <= a.cursor + 1
    requires WellKeyed(overlay) && Disjoint(Restrict(history[|shard.log|], a.see), overlay)
    ensures PushGuard(a, shard.log, history, overlay)
  {
    hide Run, Transition, Held, Disjoint, Restrict, WellKeyed, IsDelta, Alike, PushGuard;
    var head := |shard.log|;
    var deltas := shard.log[a.cursor..];
    Unseen(shard, history, a.cursor);
    if head == a.cursor {
      assert deltas == [];
      NoDelta(history[head]);
      FastPathExact([], history[head], history[head], a.see, a.overlay, overlay);
    } else {
      assert deltas == [shard.log[a.cursor]] && deltas[..0] == [];
      assert Flatten(deltas) == shard.log[a.cursor];
      FastPathExact(shard.log[a.cursor], history[a.cursor], history[head], a.see, a.overlay, overlay);
    }
    PushExact(a, shard, history, overlay);
  }

  lemma PushFaithful(a: Attached, shard: Shard, history: seq<ShardView>, overlay: Overlay, verdict: Verdict)
    requires Recorded(shard, history) && Sound(a, history) && a.held.None?
    requires WellKeyed(overlay) && Disjoint(Restrict(history[|shard.log|], a.see), overlay)
    requires Push(a, shard.log, |shard.log|, overlay, verdict).outcome == Advanced ==>
      PushGuard(a, shard.log, history, overlay)
    ensures var t := Push(a, shard.log, |shard.log|, overlay, verdict);
      && Sound(t.attached, history)
      && Run(Holds(a, history), t.sent) == Holds(t.attached, history)
  {
    hide Transition, Held, Disjoint, Restrict, WellKeyed, Recorded, PushGuard, Deliver;
    var head := |shard.log|;
    var t := Push(a, shard.log, head, overlay, verdict);
    StalledSendsNothing(a, shard.log, head, overlay, verdict);
    if t.outcome == Advanced {
      RecordedLength(shard, history);
      ReplayWithinDepth(shard.log, a.cursor);
      PushExact(a, shard, history, overlay);
      DeliverFaithful(a, Held(history[a.cursor], a.see, a.overlay),
                      Transition(Flatten(shard.log[a.cursor..]), a.see, a.overlay, overlay),
                      head, a.see, overlay, verdict, Held(history[head], a.see, overlay));
    }
  }

  lemma RecordedLength(shard: Shard, history: seq<ShardView>)
    requires Recorded(shard, history)
    ensures |history| == |shard.log| + 1
  {
  }

  // ---------------------------------------------------------------- the slow path

  lemma ReplanExact(from: ShardView, to: ShardView)
    requires WellKeyed(from) && WellKeyed(to)
    ensures Run(Show(from), Collapse(Bare(Plan(from, to)))) == Show(to)
  {
    hide Run, Collapse, Plan, Show, Restrict, WellKeyed, Bare, Filter;
    FilterAll(Plan(from, to));
    RestrictAll(from);
    RestrictAll(to);
    ReceivedExact(from, to, {ROOT_SCOPE});
  }

  /** A replan leaves the client with what is wanted if and only if the guard holds. */
  lemma ReplanExactly(
    a: Attached, shard: Shard, history: seq<ShardView>, after: ShardView, see: ScopeSet, overlay: Overlay)
    requires Recorded(shard, history) && Sound(a, history) && WellKeyed(after) && WellKeyed(overlay)
    ensures Run(Holds(a, history), ReplanOps(a, shard.view, after, see, overlay)) == Show(Wanted(after, see, overlay))
       <==> ReplanGuard(a, shard, history, after, see, overlay)
  {
    hide Collapse, Plan, Show, Restrict, WellKeyed, Bare, Alike, IsDelta, Disjoint, Compose, Run, AllMend;
    ComposedKeyed(a, shard, history);
    assert WellKeyed(Restrict(after, see));
    ReplanExactWhen(Composed(a, shard.view), Wanted(after, see, overlay), Holds(a, history));
  }

  lemma ComposedShows(a: Attached, shard: Shard, history: seq<ShardView>)
    requires Recorded(shard, history) && Sound(a, history) && UpToDate(a, shard)
    ensures Show(Composed(a, shard.view)) == Holds(a, history)
  {
    hide Show, Restrict, WellKeyed, Alike, IsDelta, Disjoint, Compose;
    if a.held.None? {
      AlikeHeld(history[|shard.log|], shard.view, a.see, a.overlay);
    }
  }

  /** A record that is up to date meets the guard, whatever is wanted. */
  lemma UpToDateReplans(
    a: Attached, shard: Shard, history: seq<ShardView>, after: ShardView, see: ScopeSet, overlay: Overlay)
    requires Recorded(shard, history) && Sound(a, history) && WellKeyed(after) && WellKeyed(overlay)
    requires UpToDate(a, shard)
    ensures ReplanGuard(a, shard, history, after, see, overlay)
  {
    hide Collapse, Plan, Show, Restrict, WellKeyed, Bare, Recorded, Sound, Compose, Run, ReplanGuard, UpToDate, Holds;
    ComposedShows(a, shard, history);
    ComposedKeyed(a, shard, history);
    assert WellKeyed(Restrict(after, see));
    ReplanExact(Composed(a, shard.view), Wanted(after, see, overlay));
    ReplanExactly(a, shard, history, after, see, overlay);
  }

  lemma ReplanFaithful(
    a: Attached, shard: Shard, history: seq<ShardView>, r: Render, history': seq<ShardView>, see: ScopeSet,
    overlay: Overlay, verdict: Verdict)
    requires Recorded(shard, history) && Sound(a, history)
    requires history <= history' && WellKeyed(r.view) && Alike(history'[|history'| - 1], r.view)
    requires WellKeyed(overlay) && Disjoint(r.view, overlay)
    requires Replan(a, shard.view, r.view, |history'| - 1, see, overlay, verdict).outcome == Advanced ==>
               ReplanGuard(a, shard, history, r.view, see, overlay)
    ensures var t := Replan(a, shard.view, r.view, |history'| - 1, see, overlay, verdict);
      && Sound(t.attached, history')
      && Run(Holds(a, history'), t.sent) == Holds(t.attached, history')
  {
    hide Collapse, Plan, Show, Restrict, WellKeyed, Bare, Alike, IsDelta, Deliver, Disjoint, Compose, ReplanGuard;
    hide ReplanOps;
    var head := |history'| - 1;
    var t := Replan(a, shard.view, r.view, head, see, overlay, verdict);
    ReplanStalled(a, shard.view, r.view, head, see, overlay, verdict);
    if t.outcome == Advanced {
      ReplanExactly(a, shard, history, r.view, see, overlay);
      assert Holds(a, history') == Holds(a, history);
      AlikeSymmetric(history'[head], r.view);
      RestrictedDisjoint(r.view, see, overlay);
      AlikeHeld(r.view, history'[head], see, overlay);
      DeliverFaithful(a, Holds(a, history), ReplanOps(a, shard.view, r.view, see, overlay), head, see, overlay, verdict,
                      Held(r.view, see, overlay));
    }
  }

  lemma ComposedKeyed(a: Attached, shard: Shard, history: seq<ShardView>)
    requires Recorded(shard, history) && Sound(a, history)
    ensures WellKeyed(Composed(a, shard.view))
  {
    hide WellKeyed, Disjoint, IsDelta, Alike;
    assert WellKeyed(Restrict(shard.view, a.see));
  }

  lemma ComposeKeyed(v: ShardView, see: ScopeSet, o: Overlay)
    requires WellKeyed(v) && WellKeyed(o)
    ensures WellKeyed(Compose(Restrict(v, see), o))
  {
    hide WellKeyed;
    assert WellKeyed(Restrict(v, see));
  }

  lemma AlikeSymmetric(a: ShardView, b: ShardView)
    requires Alike(a, b)
    ensures Alike(b, a)
  {
  }

  lemma RestrictedDisjoint(v: ShardView, see: ScopeSet, overlay: Overlay)
    requires Disjoint(v, overlay)
    ensures Disjoint(Restrict(v, see), overlay)
  {
    hide Sees;
  }

  // ---------------------------------------------------------------- every step keeps the invariant

  lemma AlikeTransitive(a: ShardView, b: ShardView, c: ShardView)
    requires Alike(a, b) && Alike(b, c)
    ensures Alike(a, c)
  {
    forall e ensures Look(a, e) == Look(c, e) {
      assert Look(a, e) == Look(b, e);
    }
  }

  /** Publishing a render records its view and a delta to it. */
  lemma RecordedAfter(w: World, r: Render, connections: map<ConnectionId, Attached>)
    requires Recorded(w.shard, w.history) && WellKeyed(r.view)
    ensures Recorded(Shard(r.view, LogAfter(w.shard, r), connections), HistoryAfter(w, r))
    ensures w.history <= HistoryAfter(w, r)
  {
    hide Plan, WellKeyed, IsDelta, Alike;
    var n := |w.shard.log|;
    EmptyPlanMeansAlike(w.shard.view, r.view);
    if Plan(w.shard.view, r.view) == [] {
      AlikeTransitive(w.history[n], w.shard.view, r.view);
    } else {
      PlanIsDelta(w.shard.view, r.view);
      AlikeSymmetric(w.history[n], w.shard.view);
      AlikeItself(r.view);
      DeltaBetweenAlike(Plan(w.shard.view, r.view), w.shard.view, w.history[n], r.view, r.view);
    }
  }

  lemma AlikeItself(v: ShardView)
    ensures Alike(v, v)
  {
  }

  /** A longer record changes nothing for a connection that has not moved. */
  lemma SoundLonger(a: Attached, history: seq<ShardView>, history': seq<ShardView>)
    requires Sound(a, history) && history <= history'
    ensures Sound(a, history') && Holds(a, history') == Holds(a, history)
  {
  }

  lemma OverlayWellformed(r: Render, c: ConnectionId)
    requires Wellformed(r)
    ensures WellKeyed(OverlayOf(r, c)) && Disjoint(r.view, OverlayOf(r, c))
  {
  }

  /** One connection's turn keeps its record faithful. */
  lemma TurnFaithful(
    w: World, r: Render, observations: map<ConnectionId, ScopeSet>, verdicts: map<ConnectionId, Verdict>,
    c: ConnectionId)
    requires Invariant(w) && Guarded(w, Reconcile(r, observations, verdicts)) && c in w.shard.connections
    ensures var t := TurnOf(w.shard, r, observations, verdicts, c);
      && Sound(t.attached, HistoryAfter(w, r))
      && Run(Show(w.base[c]), w.sent[c] + t.sent) == Holds(t.attached, HistoryAfter(w, r))
  {
    hide Plan, WellKeyed, Recorded, Alike, Push, Replan, Show, Run, PushGuard, Disjoint, Restrict;
    var a, history := w.shard.connections[c], HistoryAfter(w, r);
    var t := TurnOf(w.shard, r, observations, verdicts, c);
    assert Faithful(w, c);
    assert TurnGuard(w, r, observations, verdicts, c);
    RecordedAfter(w, r, w.shard.connections);
    var shard := Shard(r.view, LogAfter(w.shard, r), w.shard.connections);
    RecordedLength(shard, history);
    SoundLonger(a, w.history, history);
    OverlayWellformed(r, c);
    RunConcat(Show(w.base[c]), w.sent[c], t.sent);
    LastAlike(shard, history);
    if Moved(a, Observed(observations, c)) {
      ReplanFaithful(a, w.shard, w.history, r, history, Observed(observations, c), OverlayOf(r, c),
        VerdictOf(verdicts, c));
    } else {
      RestrictedDisjoint(r.view, a.see, OverlayOf(r, c));
      AlikeSymmetric(history[|shard.log|], r.view);
      AlikeHeld(r.view, history[|shard.log|], a.see, OverlayOf(r, c));
      PushFaithful(a, shard, history, OverlayOf(r, c), VerdictOf(verdicts, c));
    }
  }

  lemma LastAlike(shard: Shard, history: seq<ShardView>)
    requires Recorded(shard, history)
    ensures |history| == |shard.log| + 1 && Alike(history[|shard.log|], shard.view) && WellKeyed(shard.view)
  {
  }

  lemma ReconcileKeeps(
    w: World, r: Render, observations: map<ConnectionId, ScopeSet>, verdicts: map<ConnectionId, Verdict>)
    requires Invariant(w) && Guarded(w, Reconcile(r, observations, verdicts))
    ensures Invariant(Step(w, Reconcile(r, observations, verdicts)))
  {
    hide Plan, WellKeyed, Recorded, TurnOf, Show, Run, Sound, Holds, LogAfter, HistoryAfter, Guarded;
    var w' := Step(w, Reconcile(r, observations, verdicts));
    if !Idle(w.shard, r, observations) {
      hide Idle;
      GuardedWellformed(w, r, observations, verdicts);
      RecordedAfter(w, r, w'.shard.connections);
      forall c | c in w'.shard.connections ensures Faithful(w', c) {
        TurnFaithful(w, r, observations, verdicts, c);
      }
    }
  }

  lemma GuardedWellformed(
    w: World, r: Render, observations: map<ConnectionId, ScopeSet>, verdicts: map<ConnectionId, Verdict>)
    requires Invariant(w) && Guarded(w, Reconcile(r, observations, verdicts))
    ensures Wellformed(r)
  {
  }

  lemma RetryKeeps(w: World, c: ConnectionId, verdict: Verdict)
    requires Invariant(w) && Guarded(w, Retry(c, verdict))
    ensures Invariant(Step(w, Retry(c, verdict)))
  {
    hide WellKeyed, Recorded, Show, Run, Push, Disjoint, Restrict, Held;
    var w' := Step(w, Retry(c, verdict));
    if c in w.shard.connections {
      var a, t := w.shard.connections[c], RetryTurn(w.shard, c, verdict);
      RecordedLength(w.shard, w.history);
      RecordedWith(w.shard, w'.shard, w.history);
      assert Faithful(w, c);
      RunConcat(Show(w.base[c]), w.sent[c], t.sent);
      if a.held.None? {
        if t.outcome != Advanced {
          StalledSendsNothing(a, w.shard.log, |w.shard.log|, a.overlay, verdict);
          assert w.sent[c] + [] == w.sent[c];
        } else {
          PushFaithful(a, w.shard, w.history, a.overlay, verdict);
        }
      } else {
        assert w.sent[c] + [] == w.sent[c];
      }
      hide Faithful;
      forall d | d in w'.shard.connections ensures Faithful(w', d) {
        if d != c {
          FaithfulFrame(w, w', d);
        } else {
          FaithfulFrom(w', d);
        }
      }
    }
  }

  lemma FaithfulFrom(w: World, c: ConnectionId)
    requires Known(w) && c in w.shard.connections && Sound(w.shard.connections[c], w.history)
    requires Run(Show(w.base[c]), w.sent[c]) == Holds(w.shard.connections[c], w.history)
    ensures Faithful(w, c)
  {
  }

  lemma FaithfulFrame(w: World, w': World, c: ConnectionId)
    requires Known(w) && Known(w') && c in w.shard.connections && c in w'.shard.connections && Faithful(w, c)
    requires w'.shard.connections[c] == w.shard.connections[c] && w'.history == w.history
    requires w'.base[c] == w.base[c] && w'.sent[c] == w.sent[c]
    ensures Faithful(w', c)
  {
  }

  lemma RecordedWith(shard: Shard, shard': Shard, history: seq<ShardView>)
    requires Recorded(shard, history) && shard'.view == shard.view && shard'.log == shard.log
    ensures Recorded(shard', history)
  {
  }

  lemma AttachKeeps(w: World, c: ConnectionId, session: SessionId, held: ShardView)
    requires Invariant(w) && WellKeyed(held)
    ensures Invariant(Step(w, Attach(c, session, held)))
  {
    hide Recorded, Show, Disjoint, Restrict, Held, IsDelta;
    var w' := Step(w, Attach(c, session, held));
    RecordedWith(w.shard, w'.shard, w.history);
    RecordedLength(w.shard, w.history);
    assert Run(Show(held), []) == Show(held);
    hide Run, WellKeyed;
    forall d | d in w'.shard.connections ensures Faithful(w', d) {
      if d != c {
        FaithfulFrame(w, w', d);
      }
    }
  }

  lemma DetachKeeps(w: World, c: ConnectionId)
    requires Invariant(w)
    ensures Invariant(Step(w, Detach(c)))
  {
    hide Recorded, Show, Disjoint, Restrict, Held, IsDelta, Run, WellKeyed;
    var w' := Step(w, Detach(c));
    RecordedWith(w.shard, w'.shard, w.history);
    forall d | d in w'.shard.connections ensures Faithful(w', d) {
      FaithfulFrame(w, w', d);
    }
  }

  lemma StepKeeps(w: World, e: Event)
    requires Invariant(w) && Guarded(w, e)
    ensures Invariant(Step(w, e))
  {
    hide Invariant;
    match e {
      case Attach(c, session, held) => AttachKeeps(w, c, session, held);
      case Detach(c) => DetachKeeps(w, c);
      case Refuse =>
      case Retry(c, verdict) => RetryKeeps(w, c, verdict);
      case Reconcile(r, observations, verdicts) => ReconcileKeeps(w, r, observations, verdicts);
    }
  }

  // ---------------------------------------------------------------- whole runs

  /** `worlds` is a run: it starts empty and every step is a guarded event. */
  ghost predicate IsRun(worlds: seq<World>, events: seq<Event>) {
    && |worlds| == |events| + 1
    && worlds[0] == NEW_WORLD
    && forall i | 0 <= i < |events| :: Guarded(worlds[i], events[i]) && worlds[i + 1] == Step(worlds[i], events[i])
  }

  lemma NewWorldInvariant()
    ensures Invariant(NEW_WORLD)
  {
    AlikeItself(EMPTY_VIEW);
  }

  /**
   Over every guarded run, at every point and for every attached connection, folding all
   queue-accepted operations over the view held at attach gives the committed record's view.
   */
  lemma {:induction false} RunsAreFaithful(worlds: seq<World>, events: seq<Event>, n: nat)
    requires IsRun(worlds, events) && n < |worlds|
    ensures Invariant(worlds[n])
    ensures forall c | c in worlds[n].shard.connections ::
      var a := worlds[n].shard.connections[c];
      a.cursor < |worlds[n].history|
      && Run(Show(worlds[n].base[c]), worlds[n].sent[c]) == Holds(a, worlds[n].history)
  {
    if n == 0 {
      NewWorldInvariant();
    } else {
      RunsAreFaithful(worlds, events, n - 1);
      StepKeeps(worlds[n - 1], events[n - 1]);
    }
    forall c | c in worlds[n].shard.connections
      ensures worlds[n].shard.connections[c].cursor < |worlds[n].history|
        && Run(Show(worlds[n].base[c]), worlds[n].sent[c]) == Holds(worlds[n].shard.connections[c], worlds[n].history)
    {
      assert Faithful(worlds[n], c);
    }
  }

  /** Outside the overlay, this observer cannot tell the two views apart. */
  ghost predicate ShowsTheSame(v: ShardView, v': ShardView, see: ScopeSet, overlay: Overlay) {
    forall e | Look(overlay, e).None? :: Seen(see, Look(v, e)) == Seen(see, Look(v', e))
  }

  lemma SameShown(v: ShardView, v': ShardView, see: ScopeSet, overlay: Overlay)
    ensures Held(v, see, overlay) == Held(v', see, overlay) <==> ShowsTheSame(v, v', see, overlay)
  {
    forall e ensures At(Held(v, see, overlay), e) == At(Held(v', see, overlay), e) <==>
        (Look(overlay, e).None? ==> Seen(see, Look(v, e)) == Seen(see, Look(v', e)))
    {
      ShownAt(v, see, overlay, e);
      ShownAt(v', see, overlay, e);
    }
    hide At, Held, Seen, Look;
    if ShowsTheSame(v, v', see, overlay) {
      SameEverywhere(Held(v, see, overlay), Held(v', see, overlay));
    }
  }

  /**
   A migration hands over what the client holds if and only if the record still holds the view it
   was attached with, or the newest view shows this client what its cursor's version does.
   */
  lemma HandoverExact(w: World, c: ConnectionId)
    requires Invariant(w) && c in w.shard.connections
    ensures var a := w.shard.connections[c];
      && a.cursor < |w.history|
      && (Show(Composed(a, w.shard.view)) == Run(Show(w.base[c]), w.sent[c]) <==>
            a.held.Some? || ShowsTheSame(w.history[a.cursor], w.shard.view, a.see, a.overlay))
  {
    hide Show, Run, Restrict, Compose, WellKeyed, IsDelta, Alike, ShowsTheSame;
    assert Faithful(w, c);
    var a := w.shard.connections[c];
    if a.held.None? {
      SameShown(w.history[a.cursor], w.shard.view, a.see, a.overlay);
    }
  }

  /** What an up-to-date record hands over is what the client holds. */
  lemma UpToDateHandsOver(w: World, c: ConnectionId)
    requires Invariant(w) && c in w.shard.connections && UpToDate(w.shard.connections[c], w.shard)
    ensures Show(Composed(w.shard.connections[c], w.shard.view)) == Run(Show(w.base[c]), w.sent[c])
  {
    hide Show, Run, Composed, Recorded, Sound, UpToDate, Holds;
    assert Faithful(w, c);
    ComposedShows(w.shard.connections[c], w.shard, w.history);
  }

  /** A turn of a connection that is up to date is guarded, whatever the render and the observation. */
  lemma UpToDateTurnIsGuarded(
    w: World, r: Render, observations: map<ConnectionId, ScopeSet>, verdicts: map<ConnectionId, Verdict>,
    c: ConnectionId)
    requires Invariant(w) && Wellformed(r) && c in w.shard.connections && UpToDate(w.shard.connections[c], w.shard)
    ensures TurnGuard(w, r, observations, verdicts, c)
  {
    hide WellKeyed, ReplanGuard, PushGuard, TurnOf, Plan, LogAfter, HistoryAfter, Sound, Recorded, Disjoint;
    var a, overlay := w.shard.connections[c], OverlayOf(r, c);
    assert Faithful(w, c);
    OverlayWellformed(r, c);
    UpToDateReplans(a, w.shard, w.history, r.view, Observed(observations, c), overlay);
    if a.held.None? {
      PushGround(w, r, c);
      LogGrowsByOne(w.shard, r);
      OneVersionSettles(a, Shard(r.view, LogAfter(w.shard, r), w.shard.connections), HistoryAfter(w, r), overlay);
    }
  }

  lemma LogGrowsByOne(shard: Shard, r: Render)
    ensures |LogAfter(shard, r)| <= |shard.log| + 1
  {
    hide Plan;
  }

  /** What a push to the render's version stands on. */
  lemma PushGround(w: World, r: Render, c: ConnectionId)
    requires Invariant(w) && Wellformed(r) && c in w.shard.connections
    ensures var a, history := w.shard.connections[c], HistoryAfter(w, r);
      var shard := Shard(r.view, LogAfter(w.shard, r), w.shard.connections);
      && Recorded(shard, history) && Sound(a, history) && WellKeyed(OverlayOf(r, c))
      && a.cursor < |w.history| && Holds(a, history) == Holds(a, w.history)
      && |history| == |shard.log| + 1
      && Disjoint(Restrict(history[|shard.log|], a.see), OverlayOf(r, c))
      && Held(history[|shard.log|], a.see, OverlayOf(r, c)) == Held(r.view, a.see, OverlayOf(r, c))
  {
    hide Plan, WellKeyed, Recorded, Alike, Disjoint, Restrict, LogAfter, HistoryAfter, Held;
    var a, history := w.shard.connections[c], HistoryAfter(w, r);
    var shard := Shard(r.view, LogAfter(w.shard, r), w.shard.connections);
    assert Faithful(w, c);
    RecordedAfter(w, r, w.shard.connections);
    RecordedLength(shard, history);
    SoundLonger(a, w.history, history);
    OverlayWellformed(r, c);
    LastAlike(shard, history);
    RestrictedDisjoint(r.view, a.see, OverlayOf(r, c));
    AlikeSymmetric(history[|shard.log|], r.view);
    AlikeHeld(r.view, history[|shard.log|], a.see, OverlayOf(r, c));
  }

  /**
   One committed push, in a world whose records are faithful: the client is left with the record's
   view if and only if the push settles every element.
   */
  lemma CommittedPushFaithful(
    w: World, r: Render, observations: map<ConnectionId, ScopeSet>, verdicts: map<ConnectionId, Verdict>,
    c: ConnectionId)
    requires Invariant(w) && Wellformed(r) && c in w.shard.connections
    requires !Moved(w.shard.connections[c], Observed(observations, c))
    requires TurnOf(w.shard, r, observations, verdicts, c).outcome == Advanced
    ensures var a, t := w.shard.connections[c], TurnOf(w.shard, r, observations, verdicts, c);
      Run(Show(w.base[c]), w.sent[c] + t.sent) == Held(r.view, a.see, OverlayOf(r, c))
      <==> PushGuard(a, LogAfter(w.shard, r), HistoryAfter(w, r), OverlayOf(r, c))
  {
    hide Plan, WellKeyed, Recorded, Show, Run, Restrict, Compose, SelfFirst, Disjoint, Transition, Held, LogAfter;
    hide HistoryAfter, PushGuard, Sound;
    var a, overlay := w.shard.connections[c], OverlayOf(r, c);
    var t := TurnOf(w.shard, r, observations, verdicts, c);
    var shard, history := Shard(r.view, LogAfter(w.shard, r), w.shard.connections), HistoryAfter(w, r);
    assert Faithful(w, c);
    PushGround(w, r, c);
    SoundCursor(a, history);
    var held := Held(history[a.cursor], a.see, a.overlay);
    var ops := Transition(Flatten(shard.log[a.cursor..]), a.see, a.overlay, overlay);
    ReplayWithinDepth(shard.log, a.cursor);
    PushExact(a, shard, history, overlay);
    RunConcat(Show(w.base[c]), w.sent[c], t.sent);
    SelfFirstMeansTheSame(held, ops, a.session);
    NothingToRun(held);
  }

  lemma SoundCursor(a: Attached, history: seq<ShardView>)
    requires Sound(a, history)
    ensures a.cursor < |history|
  {
  }

  /**
   One committed replan, in a world whose records are faithful: the client is left with the record's
   view if and only if every element mends.
   */
  lemma CommittedReplanFaithful(
    w: World, r: Render, observations: map<ConnectionId, ScopeSet>, verdicts: map<ConnectionId, Verdict>,
    c: ConnectionId)
    requires Invariant(w) && Wellformed(r) && c in w.shard.connections
    requires Moved(w.shard.connections[c], Observed(observations, c))
    requires TurnOf(w.shard, r, observations, verdicts, c).outcome == Advanced
    ensures var t := TurnOf(w.shard, r, observations, verdicts, c);
      var see := Observed(observations, c);
      Run(Show(w.base[c]), w.sent[c] + t.sent) == Show(Wanted(r.view, see, OverlayOf(r, c)))
      <==> ReplanGuard(w.shard.connections[c], w.shard, w.history, r.view, see, OverlayOf(r, c))
  {
    hide Plan, WellKeyed, Recorded, Show, Run, Restrict, Compose, ReplanOps, ReplanGuard, SelfFirst, Holds, Disjoint;
    var a, t, see := w.shard.connections[c], TurnOf(w.shard, r, observations, verdicts, c), Observed(observations, c);
    assert Faithful(w, c);
    OverlayWellformed(r, c);
    var ops := ReplanOps(a, w.shard.view, r.view, see, OverlayOf(r, c));
    ReplanExactly(a, w.shard, w.history, r.view, see, OverlayOf(r, c));
    RunConcat(Show(w.base[c]), w.sent[c], t.sent);
    SelfFirstMeansTheSame(Holds(a, w.history), ops, a.session);
  }

  /** One committed retry likewise: if and only if the overlay covers every leftover of the window it replays. */
  lemma CommittedRetryFaithful(w: World, c: ConnectionId, verdict: Verdict)
    requires Invariant(w) && c in w.shard.connections && w.shard.connections[c].held.None?
    requires RetryTurn(w.shard, c, verdict).outcome == Advanced
    requires var a := w.shard.connections[c]; Disjoint(Restrict(w.history[|w.history| - 1], a.see), a.overlay)
    ensures var a, t := w.shard.connections[c], RetryTurn(w.shard, c, verdict);
      && a.cursor < |w.history|
      && (Run(Show(w.base[c]), w.sent[c] + t.sent) == Held(w.history[|w.history| - 1], a.see, a.overlay) <==>
            LeftoversCovered(w.history[a.cursor..], a.see, a.overlay))
  {
    hide Plan, WellKeyed, Recorded, Show, Run, Restrict, Compose, SelfFirst, Disjoint, Transition, LeftoversCovered;
    hide Held;
    var a, t := w.shard.connections[c], RetryTurn(w.shard, c, verdict);
    assert Faithful(w, c);
    RecordedLength(w.shard, w.history);
    ReplayWithinDepth(w.shard.log, a.cursor);
    Unseen(w.shard, w.history, a.cursor);
    var deltas, views := w.shard.log[a.cursor..], w.history[a.cursor..];
    var ops := Transition(Flatten(deltas), a.see, a.overlay, a.overlay);
    RetryExact(deltas, views, a.see, a.overlay);
    RunConcat(Show(w.base[c]), w.sent[c], t.sent);
    SelfFirstMeansTheSame(Held(w.history[a.cursor], a.see, a.overlay), ops, a.session);
    NothingToRun(Held(w.history[a.cursor], a.see, a.overlay));
  }

  lemma NothingToRun(client: Client)
    ensures Run(client, []) == client
  {
  }
}
