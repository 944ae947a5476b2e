/**
 The ordering discipline: no prefix of a transition ever asks the client to create a channel
 under a missing parent, to put a user in a missing channel, or to remove a channel that is
 occupied or still has children.
 */
module Ordering {
  import opened Collections
  import opened Scopes
  import opened Views
  import opened Planner
  import opened Clients
  import opened Deltas
  import opened Composition
  import opened FastPath

  /** What the client tolerates, given what it holds when the operation reaches it. */
  ghost predicate SafeStep(c: Client, op: PlanOp) {
    match op
    case CreateChannel(channel) => channel.parent == channel.id || channel.parent in c.channels
    case UpdateChannel(p) => p.parent.Some? ==> p.parent.value in c.channels
    case AddUser(user) => user.channel in c.channels
    case MoveUser(_, to) => to in c.channels
    case UpdateUser(_) => true
    case RemoveUser(_) => true
    case RemoveChannel(id) => Vacant(c, id)
  }

  /** Nobody is in the channel and no other channel hangs below it. */
  ghost predicate Vacant(c: Client, id: ChannelId) {
    && (forall s | s in c.users :: c.users[s].channel != id)
    && (forall k | k in c.channels && k != id :: c.channels[k].parent != id)
  }

  /** Every prefix leaves the client in a state that tolerates the next operation. */
  ghost predicate SafeRun(c: Client, ops: seq<PlanOp>) {
    forall i | 0 <= i < |ops| :: SafeStep(Run(c, ops[..i]), ops[i])
  }

  /** Every parent and every user's channel is held. */
  ghost predicate ClosedClient(c: Client) {
    && (forall id {:trigger c.channels[id]} | id in c.channels :: c.channels[id].parent in c.channels)
    && (forall s {:trigger c.users[s]} | s in c.users :: c.users[s].channel in c.channels)
  }

  lemma SafeConcat(c: Client, a: seq<PlanOp>, b: seq<PlanOp>)
    requires SafeRun(c, a) && SafeRun(Run(c, a), b)
    ensures SafeRun(c, a + b)
  {
    hide SafeStep, Run;
    forall i | 0 <= i < |a + b| ensures SafeStep(Run(c, (a + b)[..i]), (a + b)[i]) {
      if i < |a| {
        assert (a + b)[..i] == a[..i];
      } else {
        assert (a + b)[..i] == a + b[..i - |a|];
        RunConcat(c, a, b[..i - |a|]);
      }
    }
  }

  lemma RemovalKeepsClosed(c: Client, d: Client, id: ChannelId)
    requires ClosedClient(c) && Vacant(c, id)
    requires d == Client(c.channels - {id}, c.users)
    ensures ClosedClient(d)
  {
    forall k | k in d.channels ensures d.channels[k].parent in d.channels {
      assert k != id && d.channels[k] == c.channels[k];
    }
  }

  /** Writing one channel keeps the client closed as long as its parent is held. */
  lemma OneChannelKeepsClosed(c: Client, d: Client, id: ChannelId)
    requires ClosedClient(c) && d.users == c.users
    requires d.channels - {id} == c.channels - {id} && id in d.channels
    requires d.channels[id].parent in d.channels
          || (id in c.channels && d.channels[id].parent == c.channels[id].parent)
    ensures ClosedClient(d)
  {
    assert c.channels.Keys <= d.channels.Keys by {
      forall k | k in c.channels ensures k in d.channels {
        if k != id { assert k in d.channels - {id}; }
      }
    }
    forall k | k in d.channels ensures d.channels[k].parent in d.channels {
      if k != id {
        assert (d.channels - {id})[k] == (c.channels - {id})[k];
      }
    }
  }

  /** Changing one user keeps the client closed as long as that user's channel is held. */
  lemma OneUserKeepsClosed(c: Client, d: Client, t: SessionId)
    requires ClosedClient(c) && d.channels == c.channels
    requires d.users - {t} == c.users - {t}
    requires t in d.users ==>
      d.users[t].channel in c.channels || (t in c.users && d.users[t].channel == c.users[t].channel)
    ensures ClosedClient(d)
  {
    forall s | s in d.users ensures d.users[s].channel in d.channels {
      if s != t {
        assert (d.users - {t})[s] == (c.users - {t})[s];
      }
    }
  }

  lemma SafeStepKeepsClosed(c: Client, op: PlanOp)
    requires ClosedClient(c) && SafeStep(c, op)
    ensures ClosedClient(Apply(c, op))
  {
    hide ClosedClient, Vacant;
    var d := Apply(c, op);
    match op {
      case CreateChannel(channel) => OneChannelKeepsClosed(c, d, channel.id);
      case UpdateChannel(p) => if p.id in c.channels { OneChannelKeepsClosed(c, d, p.id); }
      case AddUser(user) => OneUserKeepsClosed(c, d, user.session);
      case MoveUser(s, _) => OneUserKeepsClosed(c, d, s);
      case UpdateUser(p) => OneUserKeepsClosed(c, d, p.session);
      case RemoveUser(s) => OneUserKeepsClosed(c, d, s);
      case RemoveChannel(id) => RemovalKeepsClosed(c, d, id);
    }
  }

  /** A safe run keeps the client closed at every prefix. */
  lemma {:induction false} SafeRunKeepsClosed(c: Client, ops: seq<PlanOp>, n: nat)
    requires ClosedClient(c) && SafeRun(c, ops) && n <= |ops|
    ensures ClosedClient(Run(c, ops[..n]))
  {
    if n > 0 {
      SafeRunKeepsClosed(c, ops, n - 1);
      assert ops[..n][..n - 1] == ops[..n - 1];
      SafeStepKeepsClosed(Run(c, ops[..n - 1]), ops[n - 1]);
    }
  }

  // ---------------------------------------------------------------- trees

  ghost predicate ClosedView(v: ShardView) {
    && (forall id {:trigger v.channels[id]} | id in v.channels :: v.channels[id].parent in v.channels)
    && (forall s {:trigger v.users[s]} | s in v.users :: v.users[s].channel in v.channels)
  }

  /** `rank` strictly grows away from the root, which is its own parent. */
  ghost predicate Ranked(v: ShardView, rank: map<ChannelId, nat>) {
    forall id {:trigger v.channels[id]} | id in v.channels ::
      id in rank &&
      if id == ROOT then v.channels[id].parent == ROOT
      else
        && v.channels[id].parent in v.channels && v.channels[id].parent in rank
        && rank[v.channels[id].parent] < rank[id]
  }

  lemma RankedAt(v: ShardView, rank: map<ChannelId, nat>, id: ChannelId)
    requires Ranked(v, rank)
    ensures id in v.channels ==>
      id in rank &&
      if id == ROOT then v.channels[id].parent == ROOT
      else v.channels[id].parent in v.channels && v.channels[id].parent in rank
           && rank[v.channels[id].parent] < rank[id]
  {
  }

  ghost predicate Tree(v: ShardView) {
    exists rank :: Ranked(v, rank)
  }

  /** In a tree the walk never meets a channel twice, so the visited set does not matter. */
  lemma {:induction false} VisitedIrrelevant(
    v: ShardView, rank: map<ChannelId, nat>, id: ChannelId, visited: set<ChannelId>)
    requires Ranked(v, rank) && id in v.channels
    requires forall g | g in visited && g in rank :: rank[g] > rank[id]
    ensures DepthFrom(v.channels, id, visited) == DepthFrom(v.channels, id, {})
    decreases rank[id]
  {
    if id != ROOT {
      var parent := v.channels[id].parent;
      VisitedIrrelevant(v, rank, parent, visited + {id});
      VisitedIrrelevant(v, rank, parent, {} + {id});
    }
  }

  lemma ChildIsDeeper(v: ShardView, rank: map<ChannelId, nat>, id: ChannelId)
    requires Ranked(v, rank) && id in v.channels && id != ROOT
    ensures DepthFrom(v.channels, id, {}) == 1 + DepthFrom(v.channels, v.channels[id].parent, {})
  {
    VisitedIrrelevant(v, rank, v.channels[id].parent, {} + {id});
  }

  // ---------------------------------------------------------------- creations, parents first

  ghost predicate ParentsFirst(cs: seq<Channel>, present: set<ChannelId>) {
    forall i | 0 <= i < |cs| :: Placeable(cs[i], present + Ids(cs[..i]))
  }

  /** Every waiting channel hangs from itself, from something present, or from a lower-ranked waiting one. */
  ghost predicate Anchored(cs: seq<Channel>, present: set<ChannelId>, rank: map<ChannelId, nat>) {
    forall i | 0 <= i < |cs| :: AnchoredAt(cs, present, rank, cs[i])
  }

  ghost predicate AnchoredAt(cs: seq<Channel>, present: set<ChannelId>, rank: map<ChannelId, nat>, c: Channel) {
    c.id in rank &&
    (Placeable(c, present) || (c.parent in Ids(cs) && c.parent in rank && rank[c.parent] < rank[c.id]))
  }

  lemma {:induction false} PassMembers(remaining: seq<Channel>, present: set<ChannelId>)
    ensures var r := Pass(remaining, present);
      && Ids(remaining) == Ids(r.0) + Ids(r.1)
      && (forall c | c in r.0 || c in r.1 :: c in remaining)
  {
    if remaining != [] {
      var n := |remaining| - 1;
      PassMembers(remaining[..n], present);
      var r, last := Pass(remaining[..n], present), remaining[n];
      hide Placeable;
      assert remaining == remaining[..n] + [last];
      IdsNext(remaining[..n], last);
      IdsNext(r.0, last);
      IdsNext(r.1, last);
      hide Ids;
    }
  }

  lemma IdsNext(cs: seq<Channel>, last: Channel)
    ensures Ids(cs + [last]) == Ids(cs) + {last.id}
  {
  }

  /** A channel placed after those it may hang from keeps parents first. */
  lemma PlacedNext(placed: seq<Channel>, c: Channel, present: set<ChannelId>)
    requires ParentsFirst(placed, present) && Placeable(c, present + Ids(placed))
    ensures ParentsFirst(placed + [c], present)
  {
    hide Placeable, Ids;
    var longer := placed + [c];
    forall i | 0 <= i < |longer| ensures Placeable(longer[i], present + Ids(longer[..i])) {
      if i < |placed| {
        assert longer[..i] == placed[..i];
      } else {
        assert longer[..i] == placed;
      }
    }
  }

  lemma {:induction false} PassParentsFirst(remaining: seq<Channel>, present: set<ChannelId>)
    ensures ParentsFirst(Pass(remaining, present).0, present)
  {
    if remaining != [] {
      hide Placeable, Ids, ParentsFirst;
      var n := |remaining| - 1;
      PassParentsFirst(remaining[..n], present);
      var r := Pass(remaining[..n], present);
      if Placeable(remaining[n], present + Ids(r.0)) {
        PlacedNext(r.0, remaining[n], present);
      }
    }
  }

  /** A pass over anchored channels always places one: the lowest ranked has somewhere to go. */
  lemma PassProgresses(remaining: seq<Channel>, present: set<ChannelId>, rank: map<ChannelId, nat>)
    requires Anchored(remaining, present, rank) && remaining != []
    ensures Pass(remaining, present).0 != []
  {
    if Pass(remaining, present).0 == [] {
      NothingPlaced(remaining, present);
      LowerForever(remaining, present, rank, 0, rank[remaining[0].id]);
    }
  }

  lemma {:induction false} NothingPlaced(remaining: seq<Channel>, present: set<ChannelId>)
    requires Pass(remaining, present).0 == []
    ensures forall i | 0 <= i < |remaining| :: !Placeable(remaining[i], present)
  {
    if remaining != [] {
      var n := |remaining| - 1;
      NothingPlaced(remaining[..n], present);
      assert Ids([]) == {};
      assert present + Ids([]) == present;
      forall i | 0 <= i < |remaining| ensures !Placeable(remaining[i], present) {
        if i < n {
          assert remaining[..n][i] == remaining[i];
        }
      }
    }
  }

  lemma {:induction false} LowerForever(
    remaining: seq<Channel>, present: set<ChannelId>, rank: map<ChannelId, nat>, i: nat, bound: nat)
    requires Anchored(remaining, present, rank) && i < |remaining|
    requires forall j | 0 <= j < |remaining| :: !Placeable(remaining[j], present)
    requires rank[remaining[i].id] <= bound
    ensures false
    decreases bound
  {
    assert AnchoredAt(remaining, present, rank, remaining[i]);
    var c :| c in remaining && c.id == remaining[i].parent;
    var j :| 0 <= j < |remaining| && remaining[j] == c;
    LowerForever(remaining, present, rank, j, bound - 1);
  }

  lemma {:induction false} OrderedParentsFirst(
    remaining: seq<Channel>, present: set<ChannelId>, rank: map<ChannelId, nat>)
    requires Anchored(remaining, present, rank)
    ensures ParentsFirst(Ordered(remaining, present), present)
    decreases |remaining|
  {
    if remaining != [] {
      PassProgresses(remaining, present, rank);
      PassParentsFirst(remaining, present);
      PassMembers(remaining, present);
      var pass := Pass(remaining, present);
      var next := present + Ids(pass.0);
      forall i | 0 <= i < |pass.1| ensures AnchoredAt(pass.1, next, rank, pass.1[i]) {
        assert pass.1[i] in remaining;
        assert AnchoredAt(remaining, present, rank, pass.1[i]);
      }
      OrderedParentsFirst(pass.1, next, rank);
      ParentsFirstConcat(pass.0, Ordered(pass.1, next), present);
    }
  }

  /** Ordering creations invents none, and loses none. */
  lemma {:induction false} OrderedMembers(remaining: seq<Channel>, present: set<ChannelId>)
    ensures forall c | c in Ordered(remaining, present) :: c in remaining
    ensures Ids(Ordered(remaining, present)) == Ids(remaining)
    decreases |remaining|
  {
    if remaining != [] {
      var pass := Pass(remaining, present);
      PassMembers(remaining, present);
      if pass.0 != [] {
        var rest := Ordered(pass.1, present + Ids(pass.0));
        OrderedMembers(pass.1, present + Ids(pass.0));
        assert Ids(pass.0 + rest) == Ids(pass.0) + Ids(rest);
      }
    }
  }

  lemma ParentsFirstConcat(a: seq<Channel>, b: seq<Channel>, present: set<ChannelId>)
    requires ParentsFirst(a, present) && ParentsFirst(b, present + Ids(a))
    ensures ParentsFirst(a + b, present)
  {
    forall i | 0 <= i < |a + b| ensures Placeable((a + b)[i], present + Ids((a + b)[..i])) {
      if i < |a| {
        assert (a + b)[..i] == a[..i];
      } else {
        assert (a + b)[..i] == a + b[..i - |a|];
        assert Ids(a + b[..i - |a|]) == Ids(a) + Ids(b[..i - |a|]);
        assert Placeable(b[i - |a|], present + Ids(a) + Ids(b[..i - |a|]));
      }
    }
  }
}
