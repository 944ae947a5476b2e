/**
 The removals half of an overlay's plan: in what order private elements are withdrawn, and when a
 client may be told at every step.
 */
module OverlayLeaving {
  import opened Collections
  import opened Scopes
  import opened Views
  import opened Planner
  import opened Clients
  import opened Deltas
  import opened OverlayDeltas
  import opened Composition
  import opened FastPath
  import opened Ordering
  import opened PrefixSafety
  import opened Emission
  import opened PushSafety
  import Trees = OverlayTrees

  // ---------------------------------------------------------------- the private depth

  /** Where private channels do not go round, the walk never meets one twice. */
  lemma {:induction false} PrivateVisited(
    overlay: Overlay, rank: map<ChannelId, nat>, id: ChannelId, visited: set<ChannelId>)
    requires Trees.RankedWithin(overlay, rank) && id in overlay.channels && id in rank
    requires forall g | g in visited && g in rank :: rank[g] > rank[id]
    ensures PrivateDepthFrom(overlay.channels, id, visited) == PrivateDepthFrom(overlay.channels, id, {})
    decreases rank[id]
  {
    assert Trees.HangsWithin(overlay, rank, id);
    var parent := overlay.channels[id].parent;
    if parent != id && parent in overlay.channels {
      PrivateVisited(overlay, rank, parent, visited + {id});
      PrivateVisited(overlay, rank, parent, {} + {id});
    }
  }

  /** A private channel is one deeper than what it hangs from. */
  lemma PrivateChildIsDeeper(overlay: Overlay, rank: map<ChannelId, nat>, id: ChannelId)
    requires Trees.RankedWithin(overlay, rank) && id in overlay.channels && overlay.channels[id].parent != id
    ensures PrivateDepthFrom(overlay.channels, id, {})
         == 1 + PrivateDepthFrom(overlay.channels, overlay.channels[id].parent, {})
  {
    assert Trees.HangsWithin(overlay, rank, id);
    var parent := overlay.channels[id].parent;
    if parent in overlay.channels {
      PrivateVisited(overlay, rank, parent, {} + {id});
    }
  }

  // ---------------------------------------------------------------- what is withdrawn, and in what order

  function Leaving(was: Overlay, now: Overlay): seq<ChannelId> {
    DeepestFirst(PrivateDepthTable(was.channels, was.channels.Keys - now.channels.Keys))
  }

  function UsersLeaving(was: Overlay, now: Overlay, sessions: seq<SessionId>): seq<PlanOp> {
    GatherPrivate(DropPrivateUsers, was, now, sessions)
  }

  lemma RemovalsAre(was: Overlay, now: Overlay)
    ensures PlanElements(was, now).removals
         == UsersLeaving(was, now, Sorted(was.users.Keys)) + PrivateWithdrawals(Leaving(was, now))
  {
    hide GatherPrivate, DeepestFirst, NewPrivate, Ordered, Sorted;
  }

  lemma LeavingMembers(was: Overlay, now: Overlay)
    ensures forall id :: id in Leaving(was, now) <==> id in was.channels && id !in now.channels
  {
    hide DeepestFirst, PrivateDepthFrom;
  }

  lemma {:induction false} UsersLeavingMembers(was: Overlay, now: Overlay, sessions: seq<SessionId>)
    ensures forall op | op in UsersLeaving(was, now, sessions) :: op.RemoveUser?
    ensures forall s :: RemoveUser(s) in UsersLeaving(was, now, sessions) <==>
      s in sessions && s in was.users && s !in now.users
  {
    if sessions != [] {
      var n := |sessions| - 1;
      UsersLeavingMembers(was, now, sessions[..n]);
      assert sessions == sessions[..n] + [sessions[n]];
    }
  }

  predicate HangsFrom(v: ShardView, child: ChannelId, parent: ChannelId) {
    child in v.channels && v.channels[child].parent == parent
  }

  /** A channel leaves before what it hangs from. */
  lemma ChildrenLeaveFirst(was: Overlay, now: Overlay, i: nat, j: nat)
    requires Trees.TreeShaped(was) && i < |Leaving(was, now)| && j < |Leaving(was, now)| && i != j
    requires var ids := Leaving(was, now); HangsFrom(was, ids[i], ids[j])
    ensures i < j
  {
    hide DeepestFirst, PrivateDepthFrom, Trees.RankedWithin;
    var depth := PrivateDepthTable(was.channels, was.channels.Keys - now.channels.Keys);
    var ids := Leaving(was, now);
    var rank :| Trees.RankedWithin(was, rank);
    assert ids[i] in depth && ids[j] in depth;
    if j < i {
      DeepestFirstOrdered(depth, j, i);
      PrivateChildIsDeeper(was, rank, ids[i]);
    } else {
      DeepestFirstOrdered(depth, i, j);
    }
  }

  /**
   The order of the removals half: every user leaves before any channel, and every channel before
   the channel it hangs from.
   */
  lemma RemovalOrder(was: Overlay, now: Overlay, i: nat, j: nat)
    requires Trees.TreeShaped(was)
    requires i < |PlanElements(was, now).removals| && j < |PlanElements(was, now).removals| && i != j
    ensures var ops := PlanElements(was, now).removals;
      && (ops[i].RemoveUser? || ops[i].RemoveChannel?)
      && (ops[i].RemoveUser? && ops[j].RemoveChannel? ==> i < j)
      && (ops[i].RemoveChannel? && ops[j].RemoveChannel? ==>
            HangsFrom(was, ops[i].goneChannel, ops[j].goneChannel) ==> i < j)
  {
    hide PlanElements, UsersLeaving, Leaving, Trees.TreeShaped, Sorted;
    RemovalsAre(was, now);
    var users, ids := UsersLeaving(was, now, Sorted(was.users.Keys)), Leaving(was, now);
    UsersLeavingMembers(was, now, Sorted(was.users.Keys));
    var ops, n := PlanElements(was, now).removals, |users|;
    assert forall k | 0 <= k < n :: ops[k] in users;
    assert forall k | n <= k < |ops| :: ops[k] == RemoveChannel(ids[k - n]);
    if i >= n && j >= n && HangsFrom(was, ids[i - n], ids[j - n]) {
      ChildrenLeaveFirst(was, now, i - n, j - n);
    }
  }

  /** Exactly the private elements that are no more. */
  lemma RemovalMembers(was: Overlay, now: Overlay, op: PlanOp)
    ensures op in PlanElements(was, now).removals <==>
      match op
      case RemoveUser(s) => s in was.users && s !in now.users
      case RemoveChannel(id) => id in was.channels && id !in now.channels
      case _ => false
  {
    hide PlanElements, UsersLeaving, Leaving, Sorted;
    RemovalsAre(was, now);
    UsersLeavingMembers(was, now, Sorted(was.users.Keys));
    LeavingMembers(was, now);
    var ids := Leaving(was, now);
    if op.RemoveChannel? && op.goneChannel in ids {
      var k :| 0 <= k < |ids| && ids[k] == op.goneChannel;
      assert PrivateWithdrawals(ids)[k] == op;
    }
    if op.RemoveUser? {
      assert op.goneUser in was.users <==> op.goneUser in Sorted(was.users.Keys);
    }
  }

  // ---------------------------------------------------------------- safe at every prefix

  /** No private element that stays hangs, until it is moved, from a private channel that goes. */
  ghost predicate NoneLeftHanging(was: Overlay, now: Overlay) {
    && (forall s | s in was.users && s in now.users :: !Goes(was, now, was.users[s].channel))
    && (forall k | k in was.channels && k in now.channels :: !Goes(was, now, was.channels[k].parent))
  }

  predicate Goes(was: Overlay, now: Overlay, id: ChannelId) {
    id in was.channels && id !in now.channels
  }

  function Dropped(was: Overlay, now: Overlay, sessions: seq<SessionId>): set<SessionId> {
    set s | s in sessions && s in was.users && s !in now.users
  }

  lemma {:induction false} RunUsersLeaving(c: Client, was: Overlay, now: Overlay, sessions: seq<SessionId>)
    ensures Run(c, UsersLeaving(was, now, sessions))
         == Client(c.channels, c.users - Dropped(was, now, sessions))
    decreases |sessions|
  {
    if sessions == [] {
      assert c.users - Dropped(was, now, []) == c.users;
    } else {
      var n := |sessions| - 1;
      var front, last := sessions[..n], sessions[n];
      RunUsersLeaving(c, was, now, front);
      assert sessions == front + [last];
      OneMoreLeaving(was, now, front, last);
      hide UsersLeaving, Dropped, Run, Apply;
      if last in was.users && last !in now.users {
        RunSnoc(c, UsersLeaving(was, now, front), RemoveUser(last));
        DropOne(c, Dropped(was, now, front), last);
      }
    }
  }

  lemma OneMoreLeaving(was: Overlay, now: Overlay, sessions: seq<SessionId>, s: SessionId)
    ensures var goes := s in was.users && s !in now.users;
      && UsersLeaving(was, now, sessions + [s])
           == (if goes then UsersLeaving(was, now, sessions) + [RemoveUser(s)] else UsersLeaving(was, now, sessions))
      && Dropped(was, now, sessions + [s])
           == if goes then Dropped(was, now, sessions) + {s} else Dropped(was, now, sessions)
  {
    assert (sessions + [s])[..|sessions|] == sessions;
    if !(s in was.users && s !in now.users) {
      assert UsersLeaving(was, now, sessions) + [] == UsersLeaving(was, now, sessions);
    }
  }

  lemma DropOne(c: Client, gone: set<SessionId>, s: SessionId)
    ensures Apply(Client(c.channels, c.users - gone), RemoveUser(s)) == Client(c.channels, c.users - (gone + {s}))
  {
  }

  /** What is left once the users have gone. */
  ghost predicate UsersGone(c: Client, was: Overlay, now: Overlay) {
    && c.channels == Show(was).channels
    && (forall s :: s in c.users <==> s in was.users && s in now.users)
    && forall s | s in c.users :: c.users[s] == Show(was).users[s]
  }

  lemma NoneHangingLeavesFirst(c: Client, was: Overlay, now: Overlay)
    requires Trees.TreeShaped(was) && UsersGone(c, was, now) && NoneLeftHanging(was, now)
    ensures LeavesFirst(c, Leaving(was, now))
  {
    hide Leaving, Trees.TreeShaped;
    var ids := Leaving(was, now);
    LeavingMembers(was, now);
    forall k, i | k in c.channels && 0 <= i < |ids| && k != ids[i] && c.channels[k].parent == ids[i]
      ensures k in ids[..i]
    {
      assert ids[i] in ids && k in ids;
      var j :| 0 <= j < |ids| && ids[j] == k;
      ChildrenLeaveFirst(was, now, j, i);
    }
  }

  lemma LeavingSafeMeans(c: Client, was: Overlay, now: Overlay)
    requires UsersGone(c, was, now) && SafeRun(c, PrivateWithdrawals(Leaving(was, now)))
    ensures NoneLeftHanging(was, now)
  {
    hide Leaving, Run, SafeRun;
    var ids := Leaving(was, now);
    LeavingMembers(was, now);
    forall s | s in was.users && s in now.users ensures !Goes(was, now, was.users[s].channel) {
      var id := was.users[s].channel;
      if id in ids {
        VacantWhenGone(c, ids, id);
      }
    }
    forall k | k in was.channels && k in now.channels ensures !Goes(was, now, was.channels[k].parent) {
      var id := was.channels[k].parent;
      if id in ids {
        VacantWhenGone(c, ids, id);
      }
    }
  }

  /** Where removals are safe, nothing that outlives a removed channel hangs from it. */
  lemma VacantWhenGone(c: Client, ids: seq<ChannelId>, id: ChannelId)
    requires SafeRun(c, PrivateWithdrawals(ids)) && id in ids
    ensures forall s | s in c.users :: c.users[s].channel != id
    ensures forall k | k in c.channels && k !in ids :: c.channels[k].parent != id
  {
    hide Run;
    var i :| 0 <= i < |ids| && ids[i] == id;
    var ops := PrivateWithdrawals(ids);
    assert ops[..i] == PrivateWithdrawals(ids[..i]);
    RunRemovals(c, ids[..i]);
    var at := Run(c, ops[..i]);
    assert SafeStep(at, ops[i]) && Vacant(at, id);
    forall k | k in c.channels && k !in ids ensures c.channels[k].parent != id {
      assert k in at.channels && at.channels[k] == c.channels[k];
    }
  }

  /** On its own, the half is safe at every prefix exactly when nothing is left hanging. */
  lemma LeavingSafe(was: Overlay, now: Overlay)
    requires Trees.TreeShaped(was)
    ensures SafeRun(Show(was), PlanElements(was, now).removals) <==> NoneLeftHanging(was, now)
  {
    hide PlanElements, UsersLeaving, Leaving, Trees.TreeShaped, Sorted, SafeRun, Run, NoneLeftHanging, Show;
    var users, ids := UsersLeaving(was, now, Sorted(was.users.Keys)), Leaving(was, now);
    RemovalsAre(was, now);
    UsersLeavingMembers(was, now, Sorted(was.users.Keys));
    HarmlessRun(Show(was), users, {});
    var c := Run(Show(was), users);
    AfterUsers(was, now);
    SafeParts(Show(was), users, PrivateWithdrawals(ids));
    if NoneLeftHanging(was, now) {
      NoneHangingLeavesFirst(c, was, now);
      RemovalsSafe(c, ids);
    }
    if SafeRun(c, PrivateWithdrawals(ids)) {
      LeavingSafeMeans(c, was, now);
    }
  }

  lemma AfterUsers(was: Overlay, now: Overlay)
    ensures UsersGone(Run(Show(was), UsersLeaving(was, now, Sorted(was.users.Keys))), was, now)
  {
    hide UsersLeaving, Sorted, Run;
    RunUsersLeaving(Show(was), was, now, Sorted(was.users.Keys));
    assert forall s :: s in Sorted(was.users.Keys) <==> s in was.users;
  }

  // ---------------------------------------------------------------- beside what is shared

  /** Nothing in the client sits in or hangs from these channels. */
  ghost predicate KeepsOff(c: Client, ids: set<ChannelId>) {
    && (forall s {:trigger c.users[s]} | s in c.users :: c.users[s].channel !in ids)
    && (forall k {:trigger c.channels[k]} | k in c.channels :: c.channels[k].parent !in ids)
  }

  lemma BesideCommutes(a: Client, b: Client)
    requires Apart(a, b)
    ensures Beside(a, b) == Beside(b, a) && Apart(b, a)
  {
  }

  /** Beside a client that keeps off the private channels, withdrawing them is as safe as on its own. */
  lemma LeavingSafeBeside(c: Client, was: Overlay, now: Overlay)
    requires Trees.TreeShaped(was) && Apart(c, Show(was)) && KeepsOff(c, was.channels.Keys)
    ensures SafeRun(Beside(c, Show(was)), PlanElements(was, now).removals) <==> NoneLeftHanging(was, now)
  {
    hide PlanElements, Trees.TreeShaped, SafeRun, NoneLeftHanging, Beside;
    var ops := PlanElements(was, now).removals;
    forall op | op in ops ensures Clear(op, c) {
      RemovalMembers(was, now, op);
    }
    hide Show, Apart, Clear;
    BesideCommutes(c, Show(was));
    ClearSafe(Show(was), c, ops);
    LeavingSafe(was, now);
  }

  lemma ClosedKeepsOff(v: ShardView, was: Overlay)
    requires ClosedView(v) && Disjoint(v, was)
    ensures KeepsOff(Show(v), was.channels.Keys)
  {
    hide ClosedView;
    var c := Show(v);
    forall s | s in c.users ensures c.users[s].channel !in was.channels {
      SeatHeld(v, s);
    }
    forall k | k in c.channels ensures c.channels[k].parent !in was.channels {
      Trees.ClosedAt(v, k);
    }
  }

  lemma SeatHeld(v: ShardView, s: SessionId)
    requires ClosedView(v) && s in v.users
    ensures v.users[s].channel in v.channels
  {
  }

  /**
   For a client that holds a view's visible part and this overlay: every prefix of the removals half
   is safe if and only if no surviving private element hangs from a removed channel.
   */
  lemma LeavingSafeHeld(v: ShardView, see: ScopeSet, was: Overlay, now: Overlay)
    requires Trees.TreeShaped(was) && ClosedView(Restrict(v, see)) && Disjoint(Restrict(v, see), was)
    ensures SafeRun(Held(v, see, was), PlanElements(was, now).removals) <==> NoneLeftHanging(was, now)
  {
    hide Trees.TreeShaped, ClosedView, Restrict, Disjoint, Held, SafeRun, PlanElements, NoneLeftHanging;
    hide Beside, Show, Apart;
    HeldIsBeside(v, see, was);
    ClosedKeepsOff(Restrict(v, see), was);
    LeavingSafeBeside(Show(Restrict(v, see)), was, now);
  }
}
