/**
 The shard: attach, detach, retry and reconcile over its view, journal and attached
 connections. The functions give each step on values; the class is the source's object,
 whose methods are proved to take exactly those steps.

 What a connection's queue answers to a batch is an input (`Verdict`), so every statement
 holds whatever the queues do.
 */
module Shards {
  import opened Collections
  import opened Scopes
  import opened Views
  import opened Planner
  import opened Clients
  import opened Deltas
  import opened Composition
  import opened FastPath
  import opened Emission
  import opened Journals

  /** One connection and its committed state. */
  datatype Attached = Attached(
    session: SessionId, cursor: nat, see: ScopeSet, overlay: Overlay, held: Option<ShardView>)

  datatype Verdict = Accepted | Congestion | Fatal

  datatype Outcome = Advanced | Stalled | Close

  /** What a push or replan made of one connection, and what its queue accepted. */
  datatype Turn = Turn(attached: Attached, sent: seq<PlanOp>, outcome: Outcome)

  datatype Render = Render(view: ShardView, overlays: map<ConnectionId, Overlay>)

  function Commit(a: Attached, cursor: nat, see: ScopeSet, overlay: Overlay): Attached {
    a.(cursor := cursor, see := see, overlay := overlay, held := None)
  }

  /** The view the shard believes the client holds, given the shared view to restrict. */
  function Composed(a: Attached, shared: ShardView): ShardView {
    if a.held.Some? then a.held.value else Compose(Restrict(shared, a.see), a.overlay)
  }

  /** Offer a transition to the queue and commit only what it accepts. */
  function Deliver(a: Attached, ops: seq<PlanOp>, head: nat, see: ScopeSet, overlay: Overlay, verdict: Verdict): Turn {
    if ops == [] then Turn(Commit(a, head, see, overlay), [], Advanced)
    else match verdict
      case Accepted => Turn(Commit(a, head, see, overlay), SelfFirst(ops, a.session), Advanced)
      case Congestion => Turn(a, [], Stalled)
      case Fatal => Turn(a, [], Close)
  }

  /** The fast path: replay the journal from the cursor, with the overlay change spliced in. */
  function Push(a: Attached, log: Log, head: nat, overlay: Overlay, verdict: Verdict): Turn {
    match ReplayLog(log, a.cursor, head)
    case Err(_) => Turn(a, [], Close)
    case Ok(replayed) => Deliver(a, Transition(replayed, a.see, a.overlay, overlay), head, a.see, overlay, verdict)
  }

  /** The slow path: plan between the view held and the view wanted. */
  function ReplanOps(a: Attached, before: ShardView, after: ShardView, see: ScopeSet, overlay: Overlay): seq<PlanOp> {
    Collapse(Bare(Plan(Composed(a, before), Compose(Restrict(after, see), overlay))))
  }

  function Replan(
    a: Attached, before: ShardView, after: ShardView, head: nat, see: ScopeSet, overlay: Overlay,
    verdict: Verdict): Turn
  {
    Deliver(a, ReplanOps(a, before, after, see, overlay), head, see, overlay, verdict)
  }

  datatype Shard = Shard(view: ShardView, log: Log, connections: map<ConnectionId, Attached>)

  const NEW_SHARD := Shard(EMPTY_VIEW, [], map[])

  function OverlayOf(r: Render, c: ConnectionId): Overlay {
    OverlayIn(r.overlays, c)
  }

  function VerdictOf(verdicts: map<ConnectionId, Verdict>, c: ConnectionId): Verdict {
    if c in verdicts then verdicts[c] else Fatal
  }

  predicate Moved(a: Attached, observed: ScopeSet) {
    a.held.Some? || a.see != observed
  }

  /** Nothing changed for anyone: no delta, no observation, no overlay. */
  predicate Idle(s: Shard, r: Render, observations: map<ConnectionId, ScopeSet>) {
    && Plan(s.view, r.view) == []
    && forall c | c in s.connections ::
         !Moved(s.connections[c], Observed(observations, c)) && s.connections[c].overlay == OverlayOf(r, c)
  }

  function LogAfter(s: Shard, r: Render): Log {
    if Plan(s.view, r.view) == [] then s.log else s.log + [Plan(s.view, r.view)]
  }

  /** What a reconcile does for one connection. */
  function TurnOf(
    s: Shard, r: Render, observations: map<ConnectionId, ScopeSet>, verdicts: map<ConnectionId, Verdict>,
    c: ConnectionId): Turn
    requires c in s.connections
  {
    var a := s.connections[c];
    var log := LogAfter(s, r);
    if Moved(a, Observed(observations, c))
    then Replan(a, s.view, r.view, |log|, Observed(observations, c), OverlayOf(r, c), VerdictOf(verdicts, c))
    else Push(a, log, |log|, OverlayOf(r, c), VerdictOf(verdicts, c))
  }

  /** Render accepted: plan, journal, and take every connection through its turn. */
  function Reconciled(
    s: Shard, r: Render, observations: map<ConnectionId, ScopeSet>, verdicts: map<ConnectionId, Verdict>): Shard
  {
    if Idle(s, r, observations) then s
    else Shard(r.view, LogAfter(s, r),
               map c | c in s.connections :: TurnOf(s, r, observations, verdicts, c).attached)
  }

  function AttachTo(s: Shard, c: ConnectionId, session: SessionId, held: ShardView): Shard {
    s.(connections := s.connections[c := Attached(session, |s.log|, {}, EMPTY_VIEW, Some(held))])
  }

  /** A connection whose queue drained is retried, unless it still holds a view not of this shard's making. */
  function RetryTurn(s: Shard, c: ConnectionId, verdict: Verdict): Turn
    requires c in s.connections
  {
    var a := s.connections[c];
    if a.held.Some? then Turn(a, [], Stalled) else Push(a, s.log, |s.log|, a.overlay, verdict)
  }

  function Retried(s: Shard, c: ConnectionId, verdict: Verdict): Shard {
    if c !in s.connections then s
    else s.(connections := s.connections[c := RetryTurn(s, c, verdict).attached])
  }

  // ---------------------------------------------------------------- the object

  method DeliverTo(a: Attached, ops: seq<PlanOp>, head: nat, see: ScopeSet, overlay: Overlay, verdict: Verdict)
    returns (turn: Turn)
    ensures turn == Deliver(a, ops, head, see, overlay, verdict)
  {
    if ops == [] {
      return Turn(Commit(a, head, see, overlay), [], Advanced);
    }
    var messages := SelfFirstWithinUserAdditions(ops, a.session);
    match verdict {
      case Accepted => turn := Turn(Commit(a, head, see, overlay), messages, Advanced);
      case Congestion => turn := Turn(a, [], Stalled);
      case Fatal => turn := Turn(a, [], Close);
    }
  }

  class ShardObject {
    var view: ShardView
    const journal: Journal
    var version: nat
    var connections: map<ConnectionId, Attached>

    ghost predicate Valid()
      reads this, journal
    {
      journal.Valid() && version == journal.head
    }

    ghost function State(): Shard
      reads this, journal
    {
      Shard(view, journal.log, connections)
    }

    constructor ()
      ensures Valid() && State() == NEW_SHARD && fresh(journal)
    {
      view, version, connections := EMPTY_VIEW, 0, map[];
      journal := new Journal();
    }

    method Attach(c: ConnectionId, session: SessionId, held: ShardView)
      requires Valid()
      modifies this
      ensures Valid() && State() == AttachTo(old(State()), c, session, held)
    {
      connections := connections[c := Attached(session, version, {}, EMPTY_VIEW, Some(held))];
    }

    /** A migrating connection's held view is returned for the destination; a leaving one is torn down. */
    method Detach(c: ConnectionId, handover: bool) returns (handed: Option<ShardView>, teardown: seq<PlanOp>)
      requires Valid()
      modifies this
      ensures Valid() && State() == old(State()).(connections := old(connections) - {c})
      ensures handed == if handover && c in old(connections) then Some(Composed(old(connections)[c], view)) else None
      ensures teardown == if !handover && c in old(connections)
        then SelfFirst(Collapse(Bare(Plan(Composed(old(connections)[c], view), EMPTY_VIEW))),
                       old(connections)[c].session)
        else []
    {
      if c !in connections {
        assert connections - {c} == connections;
        return None, [];
      }
      var a := connections[c];
      connections := connections - {c};
      var held := Composed(a, view);
      if handover {
        return Some(held), [];
      }
      var ops := PlanTransition(held, EMPTY_VIEW);
      var collapsed := CollapseOps(Bare(ops));
      handed := None;
      teardown := SelfFirstWithinUserAdditions(collapsed, a.session);
    }

    method PushTo(a: Attached, overlay: Overlay, verdict: Verdict) returns (turn: Turn)
      requires Valid()
      ensures turn == Push(a, journal.log, version, overlay, verdict)
    {
      hide Transition, Deliver;
      var replayed := journal.Replay(a.cursor, version);
      if replayed.Err? {
        return Turn(a, [], Close);
      }
      var shared := FilterOps(replayed.value, a.see);
      var private := PlanOverlay(a.overlay, overlay);
      var ops := SpliceOverlay(shared, private);
      ops := CollapseOps(ops);
      assert ops == Transition(replayed.value, a.see, a.overlay, overlay) by {
        TransitionIs(replayed.value, a.see, a.overlay, overlay);
      }
      turn := DeliverTo(a, ops, version, a.see, overlay, verdict);
    }

    method ReplanTo(a: Attached, before: ShardView, see: ScopeSet, overlay: Overlay, verdict: Verdict)
      returns (turn: Turn)
      requires Valid()
      ensures turn == Replan(a, before, view, version, see, overlay, verdict)
    {
      hide Deliver, Plan, Collapse;
      var planned := PlanTransition(Composed(a, before), Compose(Restrict(view, see), overlay));
      var ops := CollapseOps(Bare(planned));
      turn := DeliverTo(a, ops, version, see, overlay, verdict);
    }

    method Retry(c: ConnectionId, verdict: Verdict) returns (turn: Option<Turn>)
      requires Valid()
      modifies this
      ensures Valid() && State() == Retried(old(State()), c, verdict)
      ensures turn == if c in old(connections) then Some(RetryTurn(old(State()), c, verdict)) else None
    {
      hide Push;
      if c !in connections {
        return None;
      }
      var a := connections[c];
      if a.held.Some? {
        assert connections[c := a] == connections;
        return Some(Turn(a, [], Stalled));
      }
      var t := PushTo(a, a.overlay, verdict);
      connections := connections[c := t.attached];
      turn := Some(t);
    }

    /** Render, plan, journal, and push to every connection. `None` is a refused render. */
    method Reconcile(
      render: Option<Render>, observations: map<ConnectionId, ScopeSet>, verdicts: map<ConnectionId, Verdict>)
      returns (turns: map<ConnectionId, Turn>)
      requires Valid()
      modifies this, journal
      ensures Valid()
      ensures render.None? ==> State() == old(State()) && turns == map[]
      ensures render.Some? ==> State() == Reconciled(old(State()), render.value, observations, verdicts)
      ensures render.Some? && Idle(old(State()), render.value, observations) ==> turns == map[]
      ensures render.Some? && !Idle(old(State()), render.value, observations) ==>
        && turns.Keys == old(connections).Keys
        && forall c | c in turns :: turns[c] == TurnOf(old(State()), render.value, observations, verdicts, c)
    {
      hide TurnOf, Plan, Observed, OverlayOf, OverlayIn, Moved, LogAfter;
      if render.None? {
        return map[];
      }
      var r := render.value;
      var ops := PlanTransition(view, r.view);
      if ops == [] && forall c | c in connections ::
           !Moved(connections[c], Observed(observations, c)) && connections[c].overlay == OverlayOf(r, c)
      {
        return map[];
      }
      turns := Publish(r, ops, observations, verdicts);
    }

    /** Journal the delta, replace the view, take every connection through its turn. */
    method Publish(
      r: Render, ops: seq<PlannedOp>, observations: map<ConnectionId, ScopeSet>, verdicts: map<ConnectionId, Verdict>)
      returns (turns: map<ConnectionId, Turn>)
      requires Valid() && ops == Plan(view, r.view)
      modifies this, journal
      ensures Valid()
      ensures view == r.view && journal.log == LogAfter(old(State()), r)
      ensures turns.Keys == connections.Keys == old(connections).Keys
      ensures forall c | c in turns :: turns[c] == TurnOf(old(State()), r, observations, verdicts, c)
      ensures forall c | c in turns :: connections[c] == turns[c].attached
    {
      hide TurnOf, Plan, Sorted;
      ghost var before := State();
      if ops != [] {
        version := journal.Push(ops);
      }
      var previous := view;
      view := r.view;
      var ids := Sorted(connections.Keys);
      assert Elements(ids) == connections.Keys;
      turns := TakeTurns(before, previous, r, observations, verdicts, ids);
      connections := map c | c in turns :: turns[c].attached;
    }

    /** One connection's turn, the slow path or the fast one. */
    method TakeTurn(
      ghost before: Shard, previous: ShardView, r: Render, observations: map<ConnectionId, ScopeSet>,
      verdicts: map<ConnectionId, Verdict>, c: ConnectionId)
      returns (turn: Turn)
      requires Valid() && view == r.view && previous == before.view && connections == before.connections
      requires journal.log == LogAfter(before, r) && c in connections
      ensures turn == TurnOf(before, r, observations, verdicts, c)
    {
      hide Push, Replan, LogAfter;
      var a := connections[c];
      if Moved(a, Observed(observations, c)) {
        turn := ReplanTo(a, previous, Observed(observations, c), OverlayOf(r, c), VerdictOf(verdicts, c));
      } else {
        turn := PushTo(a, OverlayOf(r, c), VerdictOf(verdicts, c));
      }
    }

    method TakeTurns(
      ghost before: Shard, previous: ShardView, r: Render, observations: map<ConnectionId, ScopeSet>,
      verdicts: map<ConnectionId, Verdict>, ids: seq<ConnectionId>)
      returns (turns: map<ConnectionId, Turn>)
      requires Valid() && view == r.view && previous == before.view && connections == before.connections
      requires journal.log == LogAfter(before, r)
      requires forall c | c in ids :: c in connections
      ensures turns.Keys == Elements(ids)
      ensures forall c | c in turns :: c in connections && turns[c] == TurnOf(before, r, observations, verdicts, c)
    {
      hide TurnOf, LogAfter;
      turns := map[];
      for i := 0 to |ids|
        invariant turns.Keys == Elements(ids[..i])
        invariant forall c | c in turns :: c in connections && turns[c] == TurnOf(before, r, observations, verdicts, c)
      {
        var turn := TakeTurn(before, previous, r, observations, verdicts, ids[i]);
        assert ids[..i + 1] == ids[..i] + [ids[i]];
        turns := turns[ids[i] := turn];
      }
      assert ids[..|ids|] == ids;
    }
  }

  lemma TransitionIs(replayed: seq<PlannedOp>, see: ScopeSet, was: Overlay, now: Overlay)
    ensures Transition(replayed, see, was, now) == Collapse(Splice(Filter(replayed, see), PlanElements(was, now)))
  {
  }
}
