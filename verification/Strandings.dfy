/**
 Nobody is left behind. A connection that has not been closed is attached somewhere, waiting to be
 attached, or travelling, under every interleaving of migrations, departures and destruction, with
 two exceptions that are stated exactly: a registration no mailbox takes, and a migration that
 arrives at a shard after it was destroyed and before its task is gone.
 */
module Strandings {
  import opened Collections
  import opened Views
  import Clients
  import opened Migration
  import Shards
  import ShardRuns
  import Handovers

  /** The gateway knows the connection and nothing has told it to close. */
  predicate Open(s: System, c: ConnectionId) {
    c in s.peers && !s.peers[c].closing
  }

  ghost predicate Placed(s: System, c: ConnectionId) {
    exists p :: Holds(s, c, p)
  }

  predicate Boxed(s: System, shard: ShardId, i: nat, command: Command) {
    shard in s.shards && i < |s.shards[shard].mailbox| && s.shards[shard].mailbox[i] == command
  }

  // ---------------------------------------------------------------- what an action does to peers and tasks

  /** Nothing is reopened, and only a registration opens. */
  lemma OpenNext(s: System, a: Action, c: ConnectionId)
    requires Enabled(s, a) && Open(Next(s, a), c)
    ensures Open(s, c) || (a.Register? && a.connection == c)
    ensures a.Leave? ==> a.connection != c
    ensures a.Abandon? && !s.tasks[a.task].Done? ==> s.tasks[a.task].connection != c
    ensures a.HandOver? && s.tasks[a.task].connection == c ==> Takes(s, s.tasks[a.task].to, a.full)
    ensures a.Handle? && a.session.None? ==> s.shards[a.shard].mailbox[0].Attach? ==>
      s.shards[a.shard].mailbox[0].connection != c
  {
    hide ShardRuns.Step, Shards.Composed, Given, Clients.Run;
  }

  lemma PeersKnown(s: System, a: Action, c: ConnectionId)
    requires Enabled(s, a) && c in Next(s, a).peers
    ensures c in s.peers || (a.Register? && a.connection == c)
    ensures a.Leave? ==> a.connection != c
  {
    hide ShardRuns.Step, Shards.Composed, Given, Clients.Run;
  }

  lemma RegisteredNext(s: System, a: Action)
    requires Enabled(s, a)
    ensures Next(s, a).registered == if a.Register? then s.registered + {a.connection} else s.registered
  {
    hide ShardRuns.Step, Shards.Composed, Given, Clients.Run;
  }

  predicate Travelling(m: Task) {
    m.Delivered? || m.Moving?
  }

  /** Past the look-up of the connection's shard, and not over. */
  predicate Underway(m: Task) {
    m.Routed? || m.Ready? || m.Asked? || Travelling(m)
  }

  predicate ActsOn(a: Action, t: TaskId) {
    && (a.RequestMove? || a.ReadPeer? || a.ReadDirectory? || a.AskSource? || a.Abandon? || a.MovePeer? || a.HandOver?)
    && a.task == t
  }

  lemma TaskUntouched(s: System, a: Action, t: TaskId)
    requires Enabled(s, a) && !a.Handle? && !ActsOn(a, t)
    ensures t in Next(s, a).tasks <==> t in s.tasks
    ensures t in s.tasks ==> Next(s, a).tasks[t] == s.tasks[t]
  {
    hide ShardRuns.Step, Shards.Composed, Given, Clients.Run, Handled;
  }

  lemma TaskHandled(s: System, a: Action, t: TaskId)
    requires Enabled(s, a) && a.Handle?
    ensures t in Next(s, a).tasks <==> t in s.tasks
    ensures t in s.tasks ==>
      || Next(s, a).tasks[t] == s.tasks[t]
      || (s.tasks[t].Asked? && HandsOver(s, a, s.tasks[t].connection, t)
          && Travelling(Next(s, a).tasks[t]) && Next(s, a).tasks[t].connection == s.tasks[t].connection)
  {
    hide ShardRuns.Step, Shards.Composed, Worked;
    NextHandles(s, a);
    hide Next;
  }

  lemma TaskActed(s: System, a: Action, t: TaskId)
    requires Enabled(s, a) && ActsOn(a, t) && t in s.tasks
    ensures t in Next(s, a).tasks
    ensures s.tasks[t].Done? || s.tasks[t].Asked? ==> a.Abandon? && Next(s, a).tasks[t].Done?
    ensures Travelling(s.tasks[t]) ==>
      || a.Abandon? || a.HandOver?
      || (Travelling(Next(s, a).tasks[t]) && Next(s, a).tasks[t].connection == s.tasks[t].connection)
  {
    hide ShardRuns.Step, Shards.Composed, Given, Clients.Run, Handled, Registered, Worked;
  }

  lemma TaskNext(s: System, a: Action, t: TaskId)
    requires Enabled(s, a) && t in s.tasks
    ensures t in Next(s, a).tasks
    ensures s.tasks[t].Done? ==> Next(s, a).tasks[t].Done?
    ensures s.tasks[t].Asked? ==>
      || Next(s, a).tasks[t] == s.tasks[t]
      || (a == Abandon(t) && Next(s, a).tasks[t].Done?)
      || HandsOver(s, a, s.tasks[t].connection, t)
    ensures Travelling(s.tasks[t]) ==>
      || a == Abandon(t)
      || (a.HandOver? && a.task == t)
      || (Travelling(Next(s, a).tasks[t]) && Next(s, a).tasks[t].connection == s.tasks[t].connection)
  {
    hide Next, HandsOver;
    if ActsOn(a, t) {
      TaskActed(s, a, t);
    } else if a.Handle? {
      TaskHandled(s, a, t);
    } else {
      TaskUntouched(s, a, t);
    }
  }

  /** A migration has nothing left to do, or has done it: nobody to move, nowhere to move to, or handed over. */
  predicate Spared(s: System, a: Action, m: Task) {
    || (a.ReadPeer? && m.Started? && (m.connection !in s.peers || s.peers[m.connection].shard == m.to))
    || (a.ReadDirectory? && m.Routed? && m.to !in s.directory)
    || (a.HandOver? && m.Moving? && Takes(s, m.to, a.full))
  }

  /** A migration that ends in any other way closes its connection; one that ends so leaves it as it was. */
  lemma EndsClosed(s: System, a: Action, t: TaskId)
    requires Enabled(s, a) && t in s.tasks && !s.tasks[t].Done? && t in Next(s, a).tasks && Next(s, a).tasks[t].Done?
    ensures ActsOn(a, t)
    ensures var c := s.tasks[t].connection;
      Open(Next(s, a), c) <==> Open(s, c) && Spared(s, a, s.tasks[t])
  {
    hide ShardRuns.Step, Shards.Composed, Given, Clients.Run, Worked, Registered;
    if a.Handle? {
      TaskHandled(s, a, t);
    } else if !ActsOn(a, t) {
      TaskUntouched(s, a, t);
    }
  }

  lemma UnderwayActed(s: System, a: Action, t: TaskId)
    requires Enabled(s, a) && ActsOn(a, t) && t in Next(s, a).tasks && Underway(Next(s, a).tasks[t])
    ensures
      || (t in s.tasks && Underway(s.tasks[t]) && s.tasks[t].connection == Next(s, a).tasks[t].connection)
      || Next(s, a).tasks[t].connection in s.peers
  {
    hide ShardRuns.Step, Shards.Composed, Given, Clients.Run, Handled, Registered, Worked;
  }

  lemma UnderwayNext(s: System, a: Action, t: TaskId)
    requires Enabled(s, a) && t in Next(s, a).tasks && Underway(Next(s, a).tasks[t])
    ensures
      || (t in s.tasks && Underway(s.tasks[t]) && s.tasks[t].connection == Next(s, a).tasks[t].connection)
      || Next(s, a).tasks[t].connection in s.peers
  {
    hide Next, HandsOver;
    if ActsOn(a, t) {
      UnderwayActed(s, a, t);
    } else if a.Handle? {
      TaskHandled(s, a, t);
    } else {
      TaskUntouched(s, a, t);
    }
  }

  // ---------------------------------------------------------------- what an action does to mailboxes

  /** The command an action puts into a mailbox, if it is taken. */
  function Outgoing(s: System, a: Action): Option<(ShardId, Command)>
    requires Enabled(s, a)
  {
    match a
    case Register(c, to, full) => if Takes(s, to, full) then Some((to, Attach(c, EMPTY_VIEW))) else None
    case AskSource(task, full) =>
      var m := s.tasks[task];
      if Takes(s, m.from, full) then Some((m.from, Detach(m.connection, Some(task)))) else None
    case HandOver(task, full) =>
      var m := s.tasks[task];
      if Takes(s, m.to, full) then Some((m.to, Attach(m.connection, m.view))) else None
    case Leave(c, full) =>
      if Takes(s, s.peers[c].shard, full) then Some((s.peers[c].shard, Detach(c, None))) else None
    case _ => None
  }

  predicate Sender(a: Action) {
    a.Register? || a.AskSource? || a.HandOver? || a.Leave?
  }

  lemma SenderShards(s: System, a: Action)
    requires Enabled(s, a) && Sender(a)
    ensures match Outgoing(s, a)
      case None => Next(s, a).shards == s.shards
      case Some(out) => out.0 in s.shards && Next(s, a).shards == Send(s, out.0, out.1).shards
  {
    hide Handled, Worked;
  }

  lemma HandledShards(s: System, shard: ShardId, session: Option<SessionId>)
    requires Enabled(s, Handle(shard, session))
    ensures var after := Handled(s, shard, session).shards;
      && after.Keys == s.shards.Keys
      && (forall id | id in s.shards && id != shard :: after[id] == s.shards[id])
      && after[shard].mailbox == s.shards[shard].mailbox[1..]
  {
    hide ShardRuns.Step, Shards.Composed;
  }

  lemma HandlerShards(s: System, a: Action)
    requires Enabled(s, a) && a.Handle?
    ensures var after := Next(s, a).shards;
      && after.Keys == s.shards.Keys
      && (forall id | id in s.shards && id != a.shard :: after[id] == s.shards[id])
      && after[a.shard].mailbox == s.shards[a.shard].mailbox[1..]
  {
    hide Handled, Next;
    NextHandles(s, a);
    HandledShards(s, a.shard, a.session);
  }

  lemma OtherShards(s: System, a: Action, id: ShardId)
    requires Enabled(s, a) && !Sender(a) && !a.Handle?
    ensures id in Next(s, a).shards && a != Abort(id) && a != CreateShard(id) ==>
      id in s.shards && Next(s, a).shards[id].mailbox == s.shards[id].mailbox
    ensures id in s.shards ==> id in Next(s, a).shards
    ensures a == Abort(id) || a == CreateShard(id) ==>
      id in Next(s, a).shards && Next(s, a).shards[id].mailbox == []
  {
    hide ShardRuns.Step, Shards.Composed, Handled, Registered, Given;
  }

  /** Where a command that is at `i` after an action was before it. */
  function OldIndex(a: Action, shard: ShardId, i: nat): nat {
    if a.Handle? && a.shard == shard then i + 1 else i
  }

  lemma BoxNext(s: System, a: Action, shard: ShardId, i: nat, command: Command)
    requires Enabled(s, a) && Boxed(Next(s, a), shard, i, command)
    ensures Boxed(s, shard, OldIndex(a, shard, i), command)
      || (Outgoing(s, a) == Some((shard, command)) && shard in s.shards && i == |s.shards[shard].mailbox|)
  {
    hide Next, Outgoing;
    if Sender(a) {
      SenderShards(s, a);
    } else if a.Handle? {
      HandlerShards(s, a);
    } else {
      OtherShards(s, a, shard);
    }
  }

  lemma BoxStays(s: System, a: Action, shard: ShardId, i: nat, command: Command)
    requires Enabled(s, a) && Boxed(s, shard, i, command)
    requires a != Abort(shard) && !(a.Handle? && a.shard == shard && i == 0)
    ensures Boxed(Next(s, a), shard, if a.Handle? && a.shard == shard then i - 1 else i, command)
  {
    hide Next, Outgoing;
    if Sender(a) {
      SenderShards(s, a);
    } else if a.Handle? {
      HandlerShards(s, a);
    } else {
      OtherShards(s, a, shard);
    }
  }

  // ---------------------------------------------------------------- every detach is somebody's

  /** The migration that asked is still waiting, or it was abandoned and its connection closed. */
  predicate AnsweredTo(s: System, c: ConnectionId, t: TaskId) {
    && t in s.tasks
    && ((s.tasks[t].Asked? && s.tasks[t].connection == c) || (s.tasks[t].Done? && !Open(s, c)))
  }

  /** A detach in a mailbox belongs to a connection that has left, or to a migration that asked for it. */
  predicate Owed(s: System, c: ConnectionId, reply: Option<TaskId>) {
    c in s.registered && if reply.None? then c !in s.peers else AnsweredTo(s, c, reply.value)
  }

  ghost predicate AllOwed(s: System) {
    forall shard, i, c, reply | Boxed(s, shard, i, Detach(c, reply)) :: Owed(s, c, reply)
  }

  /** No migration asks twice. */
  ghost predicate AskedOnce(s: System) {
    forall shard, i, c, shard', i', c', t
      | Boxed(s, shard, i, Detach(c, Some(t))) && Boxed(s, shard', i', Detach(c', Some(t))) ::
      shard == shard' && i == i'
  }

  ghost predicate AllRegistered(s: System) {
    && s.peers.Keys <= s.registered
    && forall t | t in s.tasks && Underway(s.tasks[t]) :: s.tasks[t].connection in s.registered
  }

  ghost predicate Honest(s: System) {
    AllOwed(s) && AskedOnce(s) && AllRegistered(s)
  }

  lemma RegisteredStays(s: System, a: Action)
    requires AllRegistered(s) && Enabled(s, a)
    ensures AllRegistered(Next(s, a))
  {
    hide Next, Enabled;
    RegisteredNext(s, a);
    forall c | c in Next(s, a).peers ensures c in Next(s, a).registered {
      PeersKnown(s, a, c);
    }
    forall t | t in Next(s, a).tasks && Underway(Next(s, a).tasks[t])
      ensures Next(s, a).tasks[t].connection in Next(s, a).registered
    {
      UnderwayNext(s, a, t);
    }
  }

  lemma NotRegisteredAgain(s: System, a: Action)
    requires Enabled(s, a) && a.Register?
    ensures a.connection !in s.registered
  {
  }

  /** A detach that was there before stays owed, unless it is the one being answered. */
  lemma OwedStays(s: System, a: Action, c: ConnectionId, reply: Option<TaskId>)
    requires AllRegistered(s) && Enabled(s, a) && Owed(s, c, reply)
    requires reply.Some? ==> !HandsOver(s, a, c, reply.value)
    ensures Owed(Next(s, a), c, reply)
  {
    hide Next, Enabled, HandsOver;
    RegisteredNext(s, a);
    if a.Register? {
      NotRegisteredAgain(s, a);
    }
    if c in Next(s, a).peers {
      PeersKnown(s, a, c);
    }
    if Open(Next(s, a), c) {
      OpenNext(s, a, c);
    }
    if reply.Some? {
      TaskNext(s, a, reply.value);
    }
  }

  /** A detach that has just been sent is owed. */
  lemma OwedFresh(s: System, a: Action, shard: ShardId, c: ConnectionId, reply: Option<TaskId>)
    requires AllRegistered(s) && Enabled(s, a) && Outgoing(s, a) == Some((shard, Detach(c, reply)))
    ensures Owed(Next(s, a), c, reply)
  {
    hide Handled, Worked;
  }

  lemma AnsweredIsOldest(s: System, a: Action, c: ConnectionId, t: TaskId)
    requires HandsOver(s, a, c, t)
    ensures a.Handle? && Boxed(s, a.shard, 0, Detach(c, Some(t)))
  {
  }

  lemma AllOwedNext(s: System, a: Action)
    requires Honest(s) && Enabled(s, a)
    ensures AllOwed(Next(s, a))
  {
    hide Next, Enabled, Owed, Outgoing;
    forall shard, i: nat, c, reply | Boxed(Next(s, a), shard, i, Detach(c, reply)) ensures Owed(Next(s, a), c, reply) {
      BoxNext(s, a, shard, i, Detach(c, reply));
      var j := OldIndex(a, shard, i);
      if Boxed(s, shard, j, Detach(c, reply)) {
        if reply.Some? && HandsOver(s, a, c, reply.value) {
          AnsweredIsOldest(s, a, c, reply.value);
        } else {
          OwedStays(s, a, c, reply);
        }
      } else {
        OwedFresh(s, a, shard, c, reply);
      }
    }
  }

  lemma ReadyIsUnasked(s: System, a: Action, shard: ShardId, c: ConnectionId, t: TaskId)
    requires Enabled(s, a) && Outgoing(s, a) == Some((shard, Detach(c, Some(t))))
    ensures t in s.tasks && s.tasks[t].Ready?
  {
  }

  lemma AskedOnceNext(s: System, a: Action)
    requires Honest(s) && Enabled(s, a)
    ensures AskedOnce(Next(s, a))
  {
    hide Next, Enabled, Outgoing;
    var s' := Next(s, a);
    forall shard: ShardId, i: nat, c, shard': ShardId, i': nat, c', t
      | Boxed(s', shard, i, Detach(c, Some(t))) && Boxed(s', shard', i', Detach(c', Some(t)))
      ensures shard == shard' && i == i'
    {
      BoxNext(s, a, shard, i, Detach(c, Some(t)));
      BoxNext(s, a, shard', i', Detach(c', Some(t)));
      if Outgoing(s, a) == Some((shard, Detach(c, Some(t)))) {
        ReadyIsUnasked(s, a, shard, c, t);
      }
      if Outgoing(s, a) == Some((shard', Detach(c', Some(t)))) {
        ReadyIsUnasked(s, a, shard', c', t);
      }
    }
  }

  lemma HonestNext(s: System, a: Action)
    requires Honest(s) && Enabled(s, a)
    ensures Honest(Next(s, a))
  {
    hide Next, Enabled, AllOwed, AskedOnce, AllRegistered;
    RegisteredStays(s, a);
    AllOwedNext(s, a);
    AskedOnceNext(s, a);
  }

  // ---------------------------------------------------------------- places last

  lemma HandledAttach(s: System, shard: ShardId, session: Option<SessionId>, c: ConnectionId)
    requires Enabled(s, Handle(shard, session)) && s.shards[shard].mailbox[0].Attach?
    ensures var command := s.shards[shard].mailbox[0];
      var after := Handled(s, shard, session).shards;
      && shard in after
      && (command.connection == c && session.Some? ==> IsAttached(after[shard], c))
      && (IsAttached(s.shards[shard], c) ==> IsAttached(after[shard], c))
  {
    hide Shards.Composed;
  }

  lemma HandledDetach(s: System, shard: ShardId, session: Option<SessionId>, c: ConnectionId)
    requires Enabled(s, Handle(shard, session)) && s.shards[shard].mailbox[0].Detach?
    ensures var after := Handled(s, shard, session).shards;
      && shard in after
      && (IsAttached(s.shards[shard], c) && s.shards[shard].mailbox[0].connection != c ==>
            IsAttached(after[shard], c))
  {
    hide Shards.Composed;
  }

  /** Handling a command touches only the connection it names. */
  lemma HandledConnections(s: System, shard: ShardId, session: Option<SessionId>, c: ConnectionId)
    requires Enabled(s, Handle(shard, session))
    ensures var command := s.shards[shard].mailbox[0];
      var after := Handled(s, shard, session).shards;
      && shard in after
      && (command.Attach? && command.connection == c && session.Some? ==> IsAttached(after[shard], c))
      && (IsAttached(s.shards[shard], c) && !(command.Detach? && command.connection == c) ==>
            IsAttached(after[shard], c))
  {
    hide Handled, IsAttached;
    if s.shards[shard].mailbox[0].Attach? {
      HandledAttach(s, shard, session, c);
    } else {
      HandledDetach(s, shard, session, c);
    }
  }

  lemma AttachedStays(s: System, a: Action, c: ConnectionId, shard: ShardId)
    requires Enabled(s, a) && shard in s.shards && IsAttached(s.shards[shard], c) && a != Abort(shard)
    requires !(a.Handle? && a.shard == shard)
    ensures shard in Next(s, a).shards && IsAttached(Next(s, a).shards[shard], c)
  {
    hide Next, Outgoing, Enabled, IsAttached;
    if Sender(a) {
      SenderShards(s, a);
      SendKeepsAttached(s, a, c, shard);
    } else if a.Handle? {
      HandlerShards(s, a);
    } else {
      OthersKeepAttached(s, a, c, shard);
    }
  }

  lemma SendKeepsAttached(s: System, a: Action, c: ConnectionId, shard: ShardId)
    requires Enabled(s, a) && Sender(a) && shard in s.shards && IsAttached(s.shards[shard], c)
    ensures shard in Next(s, a).shards && IsAttached(Next(s, a).shards[shard], c)
  {
    hide Next, Outgoing, Enabled;
    SenderShards(s, a);
  }

  lemma OthersKeepAttached(s: System, a: Action, c: ConnectionId, shard: ShardId)
    requires Enabled(s, a) && !Sender(a) && !a.Handle? && a != Abort(shard)
    requires shard in s.shards && IsAttached(s.shards[shard], c)
    ensures shard in Next(s, a).shards && IsAttached(Next(s, a).shards[shard], c)
  {
    if a.Work? {
      WorkKeepsAttached(s.shards[a.shard].world, a.event);
    }
    hide ShardRuns.Step, Shards.Composed, Handled, Registered, Given, Clients.Run;
  }

  /** A connection a shard takes a command about while it is attached there. */
  lemma AttachedHandled(s: System, a: Action, c: ConnectionId)
    requires Honest(s) && Enabled(s, a) && a.Handle? && IsAttached(s.shards[a.shard], c) && Open(Next(s, a), c)
    ensures Placed(Next(s, a), c)
  {
    hide Next, Handled;
    var command := s.shards[a.shard].mailbox[0];
    NextHandles(s, a);
    HandledConnections(s, a.shard, a.session, c);
    if command.Detach? && command.connection == c {
      assert Boxed(s, a.shard, 0, Detach(c, command.reply));
      OpenNext(s, a, c);
      assert Awaited(s, c, command.reply);
      Handovers.HandingOver(s, a, c, command.reply.value);
      assert Holds(Next(s, a), c, InFlight(command.reply.value));
    } else {
      assert Holds(Next(s, a), c, AtShard(a.shard));
    }
  }

  lemma QueuedHandled(s: System, a: Action, c: ConnectionId, held: ShardView)
    requires Enabled(s, a) && a.Handle? && s.shards[a.shard].mailbox[0] == Attach(c, held) && Open(Next(s, a), c)
    ensures Placed(Next(s, a), c)
  {
    hide Next, Handled;
    NextHandles(s, a);
    HandledConnections(s, a.shard, a.session, c);
    OpenNext(s, a, c);
    assert Holds(Next(s, a), c, AtShard(a.shard));
  }

  lemma BoxedIsPlaced(s: System, shard: ShardId, i: nat, c: ConnectionId, held: ShardView)
    requires Boxed(s, shard, i, Attach(c, held))
    ensures Placed(s, c)
  {
    assert Holds(s, c, Queued(shard, i));
  }

  lemma HandedOverIsPlaced(s: System, a: Action, c: ConnectionId)
    requires Enabled(s, a) && a.HandOver? && s.tasks[a.task].connection == c && Open(Next(s, a), c)
    ensures Placed(Next(s, a), c)
  {
    hide Next;
    OpenNext(s, a, c);
    SenderShards(s, a);
    var m := s.tasks[a.task];
    BoxedIsPlaced(Next(s, a), m.to, |s.shards[m.to].mailbox|, c, m.view);
  }

  /** The place, or where its connection is taken next. */
  lemma PlaceLasts(s: System, a: Action, c: ConnectionId, p: Place)
    requires Honest(s) && Enabled(s, a) && Holds(s, c, p) && Open(Next(s, a), c)
    requires !(a.Abort? && (p == AtShard(a.shard) || (p.Queued? && p.shard == a.shard)))
    ensures Placed(Next(s, a), c)
  {
    hide Next, Honest, Handled, Outgoing, Enabled;
    match p
    case AtShard(shard) =>
      if a.Handle? && a.shard == shard {
        AttachedHandled(s, a, c);
      } else {
        AttachedStays(s, a, c, shard);
        assert Holds(Next(s, a), c, AtShard(shard));
      }
    case Queued(shard, i) =>
      var held := s.shards[shard].mailbox[i].held;
      if a.Handle? && a.shard == shard && i == 0 {
        QueuedHandled(s, a, c, held);
      } else {
        BoxStays(s, a, shard, i, Attach(c, held));
        BoxedIsPlaced(Next(s, a), shard, if a.Handle? && a.shard == shard then i - 1 else i, c, held);
      }
    case InFlight(t) =>
      TaskNext(s, a, t);
      OpenNext(s, a, c);
      if a.HandOver? && a.task == t {
        HandedOverIsPlaced(s, a, c);
      } else {
        assert a != Abandon(t);
        assert Holds(Next(s, a), c, InFlight(t));
      }
  }

  // ---------------------------------------------------------------- who is left behind

  /** Attached at the shard or waiting in its mailbox to be. */
  ghost predicate HeldAt(s: System, c: ConnectionId, shard: ShardId) {
    Holds(s, c, AtShard(shard)) || exists i: nat :: Holds(s, c, Queued(shard, i))
  }

  /** A registration no mailbox takes, or the end of the shard an open connection is at. */
  ghost predicate Drops(s: System, a: Action, c: ConnectionId) {
    || (a.Register? && a.connection == c && !Takes(s, a.shard, a.full))
    || (a.Abort? && Open(s, c) && HeldAt(s, c, a.shard))
  }

  lemma RegistrationPlaces(s: System, a: Action)
    requires SinglePlace(s) && Enabled(s, a) && a.Register?
    ensures Placed(Next(s, a), a.connection) <==> Takes(s, a.shard, a.full)
  {
    hide Next, SinglePlace;
    SenderShards(s, a);
    var last := |s.shards[a.shard].mailbox|;
    if Takes(s, a.shard, a.full) {
      BoxedIsPlaced(Next(s, a), a.shard, last, a.connection, EMPTY_VIEW);
    } else if p :| Holds(Next(s, a), a.connection, p) {
      FreshlyRegistered(s, a, p);
    }
  }

  lemma AbortedHoldsNobody(s: System, shard: ShardId, c: ConnectionId)
    requires Enabled(s, Abort(shard))
    ensures !HeldAt(Next(s, Abort(shard)), c, shard)
  {
  }

  lemma AbortMovesNobody(s: System, a: Action, c: ConnectionId, p: Place)
    requires a.Abort?
    requires Enabled(s, a)
    ensures Origin(s, a, c, p) == p
  {
  }

  lemma AbortStrands(s: System, a: Action, c: ConnectionId)
    requires SinglePlace(s) && Enabled(s, a) && a.Abort? && HeldAt(s, c, a.shard)
    ensures !Placed(Next(s, a), c)
  {
    hide Next, Enabled, Holds, Origin, ViewAt;
    AbortedHoldsNobody(s, a.shard, c);
    if p :| Holds(Next(s, a), c, p) {
      Traced(s, a, c, p);
      AbortMovesNobody(s, a, c, p);
    }
  }

  /** Exactly which action leaves an open connection without a place. */
  lemma StepDrops(s: System, a: Action, c: ConnectionId)
    requires SinglePlace(s) && Honest(s) && Enabled(s, a) && Open(Next(s, a), c)
    requires Open(s, c) ==> Placed(s, c)
    ensures Placed(Next(s, a), c) <==> !Drops(s, a, c)
  {
    hide Next, Enabled, SinglePlace, Honest, Holds, Takes;
    OpenNext(s, a, c);
    if a.Register? && a.connection == c {
      RegistrationPlaces(s, a);
    } else if a.Abort? && HeldAt(s, c, a.shard) {
      AbortStrands(s, a, c);
    } else {
      var p :| Holds(s, c, p);
      PlaceLasts(s, a, c, p);
    }
  }

  /** Nobody without a place finds one again. */
  lemma StaysStranded(s: System, a: Action, c: ConnectionId)
    requires Enabled(s, a) && !Placed(s, c) && !(a.Register? && a.connection == c)
    ensures !Placed(Next(s, a), c)
  {
    hide Next, Enabled, Holds, Origin, ViewAt;
    if p :| Holds(Next(s, a), c, p) {
      Traced(s, a, c, p);
    }
  }

  lemma {:induction false} RunsStayHonest(systems: seq<System>, actions: seq<Action>, n: nat)
    requires IsRun(systems, actions) && n < |systems|
    ensures Honest(systems[n])
  {
    if n > 0 {
      hide Next, Honest, Enabled;
      RunsStayHonest(systems, actions, n - 1);
      HonestNext(systems[n - 1], actions[n - 1]);
    }
  }

  lemma {:induction false} RegisteredForGood(systems: seq<System>, actions: seq<Action>, k: nat, n: nat)
    requires IsRun(systems, actions) && k <= n < |systems|
    ensures systems[k].registered <= systems[n].registered
  {
    hide Next, Enabled;
    if k < n {
      RegisteredForGood(systems, actions, k, n - 1);
      RegisteredNext(systems[n - 1], actions[n - 1]);
    }
  }

  /** Nothing is dropped before it is registered. */
  lemma DroppedIsRegistered(systems: seq<System>, actions: seq<Action>, k: nat, n: nat, c: ConnectionId)
    requires IsRun(systems, actions) && k < n < |systems| && Drops(systems[k], actions[k], c)
    ensures c in systems[n].registered
  {
    hide Next, Enabled, HeldAt;
    RunsStayHonest(systems, actions, k);
    RegisteredNext(systems[k], actions[k]);
    RegisteredForGood(systems, actions, k + 1, n);
  }

  lemma JustRegistered(systems: seq<System>, actions: seq<Action>, n: nat, c: ConnectionId)
    requires IsRun(systems, actions) && n < |actions| && actions[n].Register? && actions[n].connection == c
    ensures forall k | 0 <= k < n :: !Drops(systems[k], actions[k], c)
  {
    hide Next, Drops;
    forall k | 0 <= k < n ensures !Drops(systems[k], actions[k], c) {
      if Drops(systems[k], actions[k], c) {
        DroppedIsRegistered(systems, actions, k, n, c);
        NotRegisteredAgain(systems[n], actions[n]);
      }
    }
  }

  /** One more step of a run. */
  lemma StrandedNext(s: System, a: Action, c: ConnectionId, dropped: bool)
    requires SinglePlace(s) && Honest(s) && Enabled(s, a) && Open(Next(s, a), c)
    requires Open(s, c) ==> (Placed(s, c) <==> !dropped)
    requires !Open(s, c) ==> !dropped
    ensures Placed(Next(s, a), c) <==> !dropped && !Drops(s, a, c)
  {
    hide Next, Enabled, Drops, Placed, SinglePlace, Honest, Open;
    if Open(s, c) && !Placed(s, c) {
      OpenIsRegistered(s, a, c);
      StaysStranded(s, a, c);
    } else {
      StepDrops(s, a, c);
    }
  }

  /**
   Over every run: a connection that is open has a place, unless it was dropped; and once it was
   dropped it never has one.
   */
  lemma {:induction false} StrandedExactly(systems: seq<System>, actions: seq<Action>, n: nat, c: ConnectionId)
    requires IsRun(systems, actions) && n < |systems| && Open(systems[n], c)
    ensures Placed(systems[n], c) <==> forall k | 0 <= k < n :: !Drops(systems[k], actions[k], c)
  {
    if n > 0 {
      hide Next, Enabled, Drops, Placed, SinglePlace, Honest, Open;
      var s, a := systems[n - 1], actions[n - 1];
      assert systems[n - 1 + 1] == Next(s, a);
      var dropped := exists k | 0 <= k < n - 1 :: Drops(systems[k], actions[k], c);
      RunsKeepSinglePlace(systems, actions, n - 1);
      RunsStayHonest(systems, actions, n - 1);
      if Open(s, c) {
        StrandedExactly(systems, actions, n - 1, c);
      } else {
        OpenNext(s, a, c);
        JustRegistered(systems, actions, n - 1, c);
      }
      StrandedNext(s, a, c, dropped);
    }
  }

  lemma OpenIsRegistered(s: System, a: Action, c: ConnectionId)
    requires Honest(s) && Enabled(s, a) && Open(s, c)
    ensures !(a.Register? && a.connection == c)
  {
  }
}
