/**
 When the end of a shard leaves somebody behind: only a connection whose migration pointed it at
 the shard after the shard had been destroyed. And what a migration does when nothing interferes.
 */
module LateMoves {
  import opened Collections
  import opened Views
  import Clients
  import opened Migration
  import opened Strandings
  import Shards
  import ShardRuns

  /** A migration points its connection at a shard that is no longer in the directory. */
  predicate LateMove(s: System, a: Action, c: ConnectionId) {
    && a.MovePeer? && a.task in s.tasks && s.tasks[a.task].Delivered?
    && s.tasks[a.task].connection == c && s.tasks[a.task].to !in s.directory
  }

  /** The gateway points the connection at a living shard. */
  predicate PointedAt(s: System, c: ConnectionId, shard: ShardId) {
    c in s.peers && s.peers[c].shard == shard && shard in s.directory
  }

  /** An open connection is where the gateway points it, or on its way there. */
  ghost predicate Aligned(s: System, c: ConnectionId) {
    Open(s, c) ==>
      && (forall shard | HeldAt(s, c, shard) :: PointedAt(s, c, shard))
      && (forall t | t in s.tasks && s.tasks[t].Moving? && s.tasks[t].connection == c ::
            PointedAt(s, c, s.tasks[t].to))
  }

  /** What the gateway points at stays, unless a migration moves it. */
  lemma PointedNext(s: System, a: Action, c: ConnectionId, shard: ShardId)
    requires Enabled(s, a) && PointedAt(s, c, shard) && Open(Next(s, a), c)
    requires !(a.Register? && a.connection == c)
    requires !(a.MovePeer? && s.tasks[a.task].connection == c)
    ensures PointedAt(Next(s, a), c, shard)
  {
    hide ShardRuns.Step, Shards.Composed, Given, Clients.Run;
  }

  lemma MovedPeer(s: System, a: Action, c: ConnectionId)
    requires Enabled(s, a) && a.MovePeer? && s.tasks[a.task].connection == c && Open(Next(s, a), c)
    requires s.tasks[a.task].to in s.directory
    ensures PointedAt(Next(s, a), c, s.tasks[a.task].to)
    ensures Next(s, a).tasks[a.task].Moving? && Next(s, a).tasks[a.task].to == s.tasks[a.task].to
  {
    hide Handled, Worked, Registered;
  }

  lemma RegisteredPeer(s: System, a: Action)
    requires Enabled(s, a) && a.Register?
    ensures PointedAt(Next(s, a), a.connection, a.shard)
  {
    hide Handled, Worked;
  }

  /** Where something held at a shard came from: the same shard, or a migration that was bringing it there. */
  lemma CameFrom(s: System, a: Action, c: ConnectionId, p: Place, shard: ShardId)
    requires Enabled(s, a) && Holds(Next(s, a), c, p) && !(a.Register? && a.connection == c)
    requires p == AtShard(shard) || (p.Queued? && p.shard == shard)
    ensures HeldAt(s, c, shard)
      || (a.HandOver? && s.tasks[a.task].Moving? && s.tasks[a.task].connection == c && s.tasks[a.task].to == shard)
  {
    Traced(s, a, c, p);
    hide Next, ViewAt, Standing;
  }

  lemma WasMoving(s: System, a: Action, t: TaskId)
    requires Enabled(s, a) && t in Next(s, a).tasks && Next(s, a).tasks[t].Moving?
    ensures t in s.tasks
    ensures (s.tasks[t].Moving? && s.tasks[t].to == Next(s, a).tasks[t].to)
      || (a == MovePeer(t) && s.tasks[t].Delivered? && s.tasks[t].to == Next(s, a).tasks[t].to)
    ensures s.tasks[t].connection == Next(s, a).tasks[t].connection
  {
    hide ShardRuns.Step, Shards.Composed, Given, Clients.Run;
  }

  /** A connection whose view travels is attached nowhere. */
  lemma TravellerIsNowhere(s: System, c: ConnectionId, t: TaskId, shard: ShardId)
    requires SinglePlace(s) && t in s.tasks && Travelling(s.tasks[t]) && s.tasks[t].connection == c
    ensures !HeldAt(s, c, shard)
    ensures forall t' | t' in s.tasks && Travelling(s.tasks[t']) && s.tasks[t'].connection == c :: t' == t
  {
    assert Holds(s, c, InFlight(t));
    forall t' | t' in s.tasks && Travelling(s.tasks[t']) && s.tasks[t'].connection == c ensures t' == t {
      assert Holds(s, c, InFlight(t'));
    }
  }

  lemma AlignedHeld(s: System, a: Action, c: ConnectionId, shard: ShardId)
    requires SinglePlace(s) && Enabled(s, a) && Open(s, c) && Aligned(s, c) && Open(Next(s, a), c)
    requires !(a.Register? && a.connection == c) && HeldAt(Next(s, a), c, shard)
    ensures PointedAt(Next(s, a), c, shard)
  {
    hide Next, Enabled, Holds, SinglePlace, PointedAt, Open;
    var p: Place :| Holds(Next(s, a), c, p) && (p == AtShard(shard) || (p.Queued? && p.shard == shard));
    CameFrom(s, a, c, p, shard);
    EnabledTask(s, a);
    if HeldAt(s, c, shard) {
      if a.MovePeer? && s.tasks[a.task].connection == c {
        TravellerIsNowhere(s, c, a.task, shard);
      }
    } else {
      assert PointedAt(s, c, s.tasks[a.task].to);
    }
    PointedNext(s, a, c, shard);
  }

  lemma EnabledTask(s: System, a: Action)
    requires Enabled(s, a)
    ensures a.HandOver? ==> a.task in s.tasks && s.tasks[a.task].Moving?
    ensures a.MovePeer? ==> a.task in s.tasks && s.tasks[a.task].Delivered?
  {
  }

  lemma AlignedMoving(s: System, a: Action, c: ConnectionId, t: TaskId)
    requires SinglePlace(s) && Enabled(s, a) && Open(s, c) && Aligned(s, c) && Open(Next(s, a), c)
    requires !(a.Register? && a.connection == c) && !LateMove(s, a, c)
    requires t in Next(s, a).tasks && Next(s, a).tasks[t].Moving? && Next(s, a).tasks[t].connection == c
    ensures PointedAt(Next(s, a), c, Next(s, a).tasks[t].to)
  {
    hide Next, Enabled, Holds, SinglePlace, PointedAt, Open, HeldAt;
    WasMoving(s, a, t);
    EnabledTask(s, a);
    if a == MovePeer(t) {
      MovedPeer(s, a, c);
    } else {
      if a.MovePeer? && s.tasks[a.task].connection == c {
        TravellerIsNowhere(s, c, t, 0);
      }
      PointedNext(s, a, c, s.tasks[t].to);
    }
  }

  /** Unless a migration moves it late, an open connection stays aligned. */
  lemma AlignedNext(s: System, a: Action, c: ConnectionId)
    requires SinglePlace(s) && Enabled(s, a) && Aligned(s, c) && !LateMove(s, a, c)
    ensures Aligned(Next(s, a), c)
  {
    hide Next, Enabled, Holds, SinglePlace, PointedAt, LateMove, Open, HeldAt;
    if Open(Next(s, a), c) {
      OpenNext(s, a, c);
      if a.Register? && a.connection == c {
        AlignedFresh(s, a);
      } else {
        forall shard | HeldAt(Next(s, a), c, shard) ensures PointedAt(Next(s, a), c, shard) {
          AlignedHeld(s, a, c, shard);
        }
        forall t | t in Next(s, a).tasks && Next(s, a).tasks[t].Moving? && Next(s, a).tasks[t].connection == c
          ensures PointedAt(Next(s, a), c, Next(s, a).tasks[t].to)
        {
          AlignedMoving(s, a, c, t);
        }
      }
    }
  }

  lemma AlignedFresh(s: System, a: Action)
    requires SinglePlace(s) && Enabled(s, a) && a.Register?
    ensures Aligned(Next(s, a), a.connection)
  {
    hide Next, Enabled, SinglePlace, PointedAt, ViewAt, Open;
    var c, s' := a.connection, Next(s, a);
    RegisteredPeer(s, a);
    forall shard | HeldAt(s', c, shard) ensures shard == a.shard {
      var p: Place :| Holds(s', c, p) && (p == AtShard(shard) || (p.Queued? && p.shard == shard));
      FreshlyRegistered(s, a, p);
    }
    forall t | t in s'.tasks && s'.tasks[t].Moving? ensures s'.tasks[t].connection != c {
      if Holds(s', c, InFlight(t)) {
        FreshlyRegistered(s, a, InFlight(t));
      }
    }
  }

  lemma {:induction false} RunsStayAligned(systems: seq<System>, actions: seq<Action>, n: nat, c: ConnectionId)
    requires IsRun(systems, actions) && n < |systems|
    requires forall k | 0 <= k < n :: !LateMove(systems[k], actions[k], c)
    ensures Aligned(systems[n], c)
  {
    if n > 0 {
      hide Next, Enabled, Aligned, LateMove, SinglePlace;
      RunsStayAligned(systems, actions, n - 1, c);
      RunsKeepSinglePlace(systems, actions, n - 1);
      AlignedNext(systems[n - 1], actions[n - 1], c);
    }
  }

  /** Only late movers are dropped by the end of a shard. */
  lemma AbortDropsLateMovers(systems: seq<System>, actions: seq<Action>, n: nat, c: ConnectionId)
    requires IsRun(systems, actions) && n < |actions| && actions[n].Abort? && Drops(systems[n], actions[n], c)
    ensures exists k | 0 <= k < n :: LateMove(systems[k], actions[k], c)
  {
    hide Next, HeldAt, LateMove;
    assert Enabled(systems[n], actions[n]);
    if forall k | 0 <= k < n :: !LateMove(systems[k], actions[k], c) {
      RunsStayAligned(systems, actions, n, c);
    }
  }

  /**
   Over every run: a connection that was taken in and that no migration moved late is, as long as
   it is open, in exactly one place, and if that is a shard, it is the living one the gateway points at.
   */
  lemma NobodyLeftBehind(systems: seq<System>, actions: seq<Action>, n: nat, c: ConnectionId)
    requires IsRun(systems, actions) && n < |systems| && Open(systems[n], c)
    requires forall k | 0 <= k < n :: !LateMove(systems[k], actions[k], c)
    requires forall k | 0 <= k < n && actions[k].Register? && actions[k].connection == c ::
      Takes(systems[k], actions[k].shard, actions[k].full)
    ensures Placed(systems[n], c)
    ensures forall shard | HeldAt(systems[n], c, shard) :: PointedAt(systems[n], c, shard)
  {
    hide Next, HeldAt, LateMove, Placed, Enabled, Takes;
    RunsStayAligned(systems, actions, n, c);
    forall k | 0 <= k < n ensures !Drops(systems[k], actions[k], c) {
      if Drops(systems[k], actions[k], c) && actions[k].Abort? {
        AbortDropsLateMovers(systems, actions, k, c);
      }
    }
    StrandedExactly(systems, actions, n, c);
  }
}
