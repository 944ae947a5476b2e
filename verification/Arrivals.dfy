/**
 A migration that nothing interferes with, from every state it can start in: it arrives. And the
 interleaving that loses the connection, from every such state: its destination is destroyed while
 the source still holds it.
 */
module Arrivals {
  import opened Collections
  import opened Views
  import opened Migration
  import opened Strandings
  import Shards
  import ShardRuns
  import Clients

  ghost predicate CanDo(s: System, actions: seq<Action>)
    decreases |actions|
  {
    actions == [] || (Enabled(s, actions[0]) && CanDo(Next(s, actions[0]), actions[1..]))
  }

  ghost function Doing(s: System, actions: seq<Action>): System
    requires CanDo(s, actions)
    decreases |actions|
  {
    if actions == [] then s else Doing(Next(s, actions[0]), actions[1..])
  }

  lemma {:induction false} DoMore(s: System, actions: seq<Action>, more: seq<Action>)
    requires CanDo(s, actions) && CanDo(Doing(s, actions), more)
    ensures CanDo(s, actions + more) && Doing(s, actions + more) == Doing(Doing(s, actions), more)
    decreases |actions|
  {
    hide Next, Enabled;
    if actions == [] {
      assert actions + more == more;
    } else {
      assert (actions + more)[0] == actions[0] && (actions + more)[1..] == actions[1..] + more;
      DoMore(Next(s, actions[0]), actions[1..], more);
    }
  }

  lemma DoOne(s: System, a: Action)
    requires Enabled(s, a)
    ensures CanDo(s, [a]) && Doing(s, [a]) == Next(s, a)
  {
    hide Next, Enabled;
    assert [a][1..] == [];
  }

  lemma DoTwo(s: System, a: Action, b: Action)
    requires Enabled(s, a) && Enabled(Next(s, a), b)
    ensures CanDo(s, [a, b]) && Doing(s, [a, b]) == Next(Next(s, a), b)
  {
    hide Next, Enabled;
    DoOne(s, a);
    DoOne(Next(s, a), b);
    DoMore(s, [a], [b]);
    assert [a] + [b] == [a, b];
  }

  /** Open, attached at one shard and to be moved to another, both alive with nothing waiting. */
  predicate Movable(s: System, task: TaskId, c: ConnectionId, from: ShardId, to: ShardId) {
    && task !in s.tasks && Open(s, c) && s.peers[c].shard == from && from != to
    && from in s.directory && to in s.directory && from in s.shards && to in s.shards
    && s.shards[from].alive && s.shards[to].alive && s.shards[from].mailbox == [] && s.shards[to].mailbox == []
    && IsAttached(s.shards[from], c)
  }

  function Asking(task: TaskId, c: ConnectionId, to: ShardId): seq<Action> {
    [RequestMove(task, c, to), ReadPeer(task), ReadDirectory(task), AskSource(task, false)]
  }

  /** The source has been asked. */
  function AskedOf(s: System, task: TaskId, c: ConnectionId, from: ShardId, to: ShardId): System
    requires from in s.shards
  {
    s.(tasks := s.tasks[task := Asked(c, to)],
       shards := s.shards[from := s.shards[from].(mailbox := [Detach(c, Some(task))])])
  }

  lemma Asks(s: System, task: TaskId, c: ConnectionId, from: ShardId, to: ShardId)
    requires Movable(s, task, c, from, to)
    ensures CanDo(s, Asking(task, c, to)) && Doing(s, Asking(task, c, to)) == AskedOf(s, task, c, from, to)
  {
    hide Handled, Worked, Registered, CanDo, Doing;
    var a := Asking(task, c, to);
    var s1 := Next(s, a[0]);
    assert s1 == s.(tasks := s.tasks[task := Started(c, to)]);
    var s2 := Next(s1, a[1]);
    assert s2 == s.(tasks := s.tasks[task := Routed(c, to, from)]);
    var s3 := Next(s2, a[2]);
    assert s3 == s.(tasks := s.tasks[task := Ready(c, to, from)]);
    var s4 := Next(s3, a[3]);
    assert [] + [Detach(c, Some(task))] == [Detach(c, Some(task))];
    assert s4 == AskedOf(s, task, c, from, to);
    hide Next;
    DoTwo(s, a[0], a[1]);
    DoTwo(s2, a[2], a[3]);
    DoMore(s, [a[0], a[1]], [a[2], a[3]]);
    assert [a[0], a[1]] + [a[2], a[3]] == a;
  }

  /** The source has let go and the gateway points at the destination. */
  function MovedOn(s: System, task: TaskId, c: ConnectionId, from: ShardId, to: ShardId): System
    requires from in s.shards && IsAttached(s.shards[from], c) && c in s.peers
  {
    var t := s.shards[from];
    s.(tasks := s.tasks[task := Moving(c, to, Standing(t, c))],
       shards := s.shards[from := t.(mailbox := [], world := ShardRuns.Step(t.world, ShardRuns.Detach(c)))],
       peers := s.peers[c := s.peers[c].(shard := to)])
  }

  lemma LetsGo(s: System, task: TaskId, c: ConnectionId, from: ShardId, to: ShardId)
    requires task in s.tasks && s.tasks[task] == Asked(c, to) && c in s.peers
    requires from in s.shards && s.shards[from].alive && s.shards[from].mailbox == [Detach(c, Some(task))]
    requires IsAttached(s.shards[from], c)
    ensures var a := [Handle(from, None), MovePeer(task)];
      CanDo(s, a) && Doing(s, a) == MovedOn(s, task, c, from, to)
  {
    hide ShardRuns.Step, Shards.Composed, Worked, Registered, CanDo, Doing;
    var t := s.shards[from];
    assert [Detach(c, Some(task))][1..] == [];
    var s1 := Next(s, Handle(from, None));
    assert s1 == s.(tasks := s.tasks[task := Delivered(c, to, Standing(t, c))],
                    shards := s.shards[from := t.(mailbox := [],
                      world := ShardRuns.Step(t.world, ShardRuns.Detach(c)))]);
    assert Next(s1, MovePeer(task)) == MovedOn(s, task, c, from, to);
    hide Next;
    DoTwo(s, Handle(from, None), MovePeer(task));
  }

  lemma HandsIn(s: System, task: TaskId, c: ConnectionId, to: ShardId, view: ShardView)
    requires task in s.tasks && s.tasks[task] == Moving(c, to, view)
    requires to in s.shards && s.shards[to].alive && s.shards[to].mailbox == []
    ensures Enabled(s, HandOver(task, false))
    ensures Next(s, HandOver(task, false)) ==
      s.(tasks := s.tasks[task := Done], shards := s.shards[to := s.shards[to].(mailbox := [Attach(c, view)])])
  {
    hide Handled, Worked, Registered;
    assert [] + [Attach(c, view)] == [Attach(c, view)];
  }

  lemma TakesIn(s: System, c: ConnectionId, to: ShardId, view: ShardView, session: SessionId)
    requires to in s.shards && s.shards[to].alive && s.shards[to].mailbox == [Attach(c, view)]
    ensures Enabled(s, Handle(to, Some(session)))
    ensures var s', t := Next(s, Handle(to, Some(session))), s.shards[to];
      s' == s.(shards := s.shards[to := t.(mailbox := [],
        world := ShardRuns.Step(t.world, ShardRuns.Attach(c, session, view)))])
  {
    hide ShardRuns.Step, Shards.Composed, Worked, Registered;
    assert [Attach(c, view)][1..] == [];
    NextHandles(s, Handle(to, Some(session)));
  }

  function Uninterrupted(task: TaskId, c: ConnectionId, from: ShardId, to: ShardId, session: SessionId): seq<Action> {
    Asking(task, c, to) + [Handle(from, None), MovePeer(task)] + [HandOver(task, false), Handle(to, Some(session))]
  }

  lemma Detached(w: ShardRuns.World, c: ConnectionId)
    ensures c !in ShardRuns.Step(w, ShardRuns.Detach(c)).shard.connections
  {
  }

  lemma AttachedWith(w: ShardRuns.World, c: ConnectionId, session: SessionId, view: ShardView)
    ensures var w' := ShardRuns.Step(w, ShardRuns.Attach(c, session, view));
      c in w'.shard.connections && w'.shard.connections[c].held == Some(view)
      && w'.shard.connections[c].session == session
  {
  }

  /** Uninterrupted, the connection arrives holding what its source composed, and the source has let go of it. */
  lemma MoveArrives(s: System, task: TaskId, c: ConnectionId, from: ShardId, to: ShardId, session: SessionId)
    requires Movable(s, task, c, from, to)
    ensures CanDo(s, Uninterrupted(task, c, from, to, session))
    ensures var s' := Doing(s, Uninterrupted(task, c, from, to, session));
      && Open(s', c) && s'.peers[c].shard == to && task in s'.tasks && s'.tasks[task].Done?
      && from in s'.shards && !IsAttached(s'.shards[from], c)
      && to in s'.shards && IsAttached(s'.shards[to], c)
      && s'.shards[to].world.shard.connections[c].held == Some(Standing(s.shards[from], c))
      && s'.shards[to].world.shard.connections[c].session == session
  {
    hide ShardRuns.Step, Shards.Composed, Next, CanDo, Doing;
    var view := Standing(s.shards[from], c);
    var s1 := AskedOf(s, task, c, from, to);
    var s2 := MovedOn(s1, task, c, from, to);
    Asks(s, task, c, from, to);
    LetsGo(s1, task, c, from, to);
    DoMore(s, Asking(task, c, to), [Handle(from, None), MovePeer(task)]);
    HandsIn(s2, task, c, to, view);
    var s3 := Next(s2, HandOver(task, false));
    TakesIn(s3, c, to, view, session);
    DoTwo(s2, HandOver(task, false), Handle(to, Some(session)));
    DoMore(s, Asking(task, c, to) + [Handle(from, None), MovePeer(task)],
           [HandOver(task, false), Handle(to, Some(session))]);
    Detached(s.shards[from].world, c);
    AttachedWith(s.shards[to].world, c, session, view);
  }

  // ---------------------------------------------------------------- the race

  /** The destination is destroyed once the source has been asked, and its task ends once it has been handed over to. */
  function Raced(task: TaskId, c: ConnectionId, from: ShardId, to: ShardId): seq<Action> {
    Asking(task, c, to) + [Destroy(to)] + [Handle(from, None), MovePeer(task)] + [HandOver(task, false)] + [Abort(to)]
  }

  /** Destroying a shard closes those the gateway points at it, and this connection is not one of them yet. */
  lemma DestroyedMeanwhile(s: System, c: ConnectionId, to: ShardId)
    requires to in s.directory && Open(s, c) && s.peers[c].shard != to
    ensures Enabled(s, Destroy(to))
    ensures var s' := Next(s, Destroy(to));
      && s'.shards == s.shards && s'.tasks == s.tasks && to !in s'.directory
      && c in s'.peers && s'.peers[c] == s.peers[c]
  {
    hide Handled, Worked, Registered;
  }

  lemma EndsTask(s: System, to: ShardId)
    requires to in s.shards && to !in s.directory
    ensures Enabled(s, Abort(to)) && Next(s, Abort(to)).peers == s.peers
  {
    hide Handled, Worked, Registered;
  }

  lemma {:induction false} DoingKeepsSinglePlace(s: System, actions: seq<Action>)
    requires SinglePlace(s) && CanDo(s, actions)
    ensures SinglePlace(Doing(s, actions))
    decreases |actions|
  {
    hide Next, Enabled, SinglePlace;
    if actions != [] {
      NextSinglePlace(s, actions[0]);
      DoingKeepsSinglePlace(Next(s, actions[0]), actions[1..]);
    }
  }

  /** Up to the hand-over: the connection waits in the mailbox of a shard that has been destroyed, and is open. */
  lemma RacedHandOver(s: System, task: TaskId, c: ConnectionId, from: ShardId, to: ShardId)
    requires Movable(s, task, c, from, to)
    ensures var a :=
      Asking(task, c, to) + [Destroy(to)] + [Handle(from, None), MovePeer(task)] + [HandOver(task, false)];
      && CanDo(s, a)
      && var s' := Doing(s, a);
         && Open(s', c) && to in s'.shards && to !in s'.directory && Holds(s', c, Queued(to, 0))
  {
    hide ShardRuns.Step, Shards.Composed, Next, CanDo, Doing;
    var s1 := AskedOf(s, task, c, from, to);
    Asks(s, task, c, from, to);
    DestroyedMeanwhile(s1, c, to);
    DoOne(s1, Destroy(to));
    DoMore(s, Asking(task, c, to), [Destroy(to)]);
    var s2 := Next(s1, Destroy(to));
    LetsGo(s2, task, c, from, to);
    DoMore(s, Asking(task, c, to) + [Destroy(to)], [Handle(from, None), MovePeer(task)]);
    var s3 := MovedOn(s2, task, c, from, to);
    HandsIn(s3, task, c, to, Standing(s2.shards[from], c));
    DoOne(s3, HandOver(task, false));
    DoMore(s, Asking(task, c, to) + [Destroy(to)] + [Handle(from, None), MovePeer(task)], [HandOver(task, false)]);
  }

  /**
   From every state in which a connection could be moved, there is an interleaving that loses it:
   nothing closes it, and nobody attaches it again.
   */
  lemma LateMoveStrands(s: System, task: TaskId, c: ConnectionId, from: ShardId, to: ShardId)
    requires SinglePlace(s) && Movable(s, task, c, from, to)
    ensures CanDo(s, Raced(task, c, from, to))
    ensures var s' := Doing(s, Raced(task, c, from, to)); Open(s', c) && !Placed(s', c)
  {
    hide Next, CanDo, Doing, SinglePlace, Placed, Movable, Enabled;
    var a := Asking(task, c, to) + [Destroy(to)] + [Handle(from, None), MovePeer(task)] + [HandOver(task, false)];
    RacedHandOver(s, task, c, from, to);
    var s4 := Doing(s, a);
    DoingKeepsSinglePlace(s, a);
    EndsTask(s4, to);
    DoOne(s4, Abort(to));
    DoMore(s, a, [Abort(to)]);
    AbortStrands(s4, Abort(to), c);
  }
}
