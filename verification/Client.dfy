/**
 What a sequence of view mutations does to the client that receives it.

 A client holds, for each element, the fields the plan can express. An addition writes
 the whole element, an update or a move patches the one held, a removal deletes it.
 Every statement here is made one element at a time: `On` keeps the operations about one
 element, and `RunAt` says the rest of the sequence does not matter to it.
 */
module Clients {
  import opened Collections
  import opened Scopes
  import opened Views
  import opened Planner

  datatype ClientChannel = ClientChannel(
    parent: ChannelId, name: string, position: int, canEnter: bool, links: set<ChannelId>)

  datatype ClientUser = ClientUser(channel: ChannelId, name: string, flags: UserFlags)

  datatype Client = Client(channels: map<ChannelId, ClientChannel>, users: map<SessionId, ClientUser>)

  function ShowChannel(c: Channel): ClientChannel {
    ClientChannel(c.parent, c.name, c.position, c.canEnter, c.links)
  }

  function ShowUser(u: User): ClientUser {
    ClientUser(u.channel, u.name, u.flags)
  }

  /** The client that has been told exactly `v`. */
  function Show(v: ShardView): Client {
    Client(map id | id in v.channels :: ShowChannel(v.channels[id]),
           map s | s in v.users :: ShowUser(v.users[s]))
  }

  function PatchChannel(c: ClientChannel, p: ChannelPatch): ClientChannel {
    ClientChannel(
      if p.parent.Some? then p.parent.value else c.parent,
      if p.name.Some? then p.name.value else c.name,
      if p.position.Some? then p.position.value else c.position,
      if p.canEnter.Some? then p.canEnter.value else c.canEnter,
      (c.links - p.linksRemoved) + p.linksAdded)
  }

  function PatchUser(u: ClientUser, p: UserPatch): ClientUser {
    ClientUser(
      u.channel,
      if p.name.Some? then p.name.value else u.name,
      if p.flags.Some? then p.flags.value else u.flags)
  }

  function Apply(c: Client, op: PlanOp): Client {
    match op
    case CreateChannel(channel) => c.(channels := c.channels[channel.id := ShowChannel(channel)])
    case UpdateChannel(p) =>
      if p.id in c.channels then c.(channels := c.channels[p.id := PatchChannel(c.channels[p.id], p)]) else c
    case AddUser(user) => c.(users := c.users[user.session := ShowUser(user)])
    case MoveUser(s, to) =>
      if s in c.users then c.(users := c.users[s := c.users[s].(channel := to)]) else c
    case UpdateUser(p) =>
      if p.session in c.users then c.(users := c.users[p.session := PatchUser(c.users[p.session], p)]) else c
    case RemoveUser(s) => c.(users := c.users - {s})
    case RemoveChannel(id) => c.(channels := c.channels - {id})
  }

  function Run(c: Client, ops: seq<PlanOp>): Client
    decreases |ops|
  {
    if ops == [] then c else Apply(Run(c, ops[..|ops| - 1]), ops[|ops| - 1])
  }

  lemma {:induction false} RunConcat(c: Client, a: seq<PlanOp>, b: seq<PlanOp>)
    ensures Run(c, a + b) == Run(Run(c, a), b)
  {
    if b == [] {
      assert a + b == a;
    } else {
      assert (a + b)[..|a + b| - 1] == a + b[..|b| - 1];
      RunConcat(c, a, b[..|b| - 1]);
    }
  }

  // ---------------------------------------------------------------- one element at a time

  datatype Item = ChannelItem(channel: ClientChannel) | UserItem(user: ClientUser)

  function At(c: Client, e: ElementId): Option<Item> {
    match e
    case ChannelElement(id) => if id in c.channels then Some(ChannelItem(c.channels[id])) else None
    case UserElement(s) => if s in c.users then Some(UserItem(c.users[s])) else None
  }

  lemma SameEverywhere(a: Client, b: Client)
    requires forall e :: At(a, e) == At(b, e)
    ensures a == b
  {
    forall id ensures id in a.channels <==> id in b.channels
      ensures id in a.channels ==> a.channels[id] == b.channels[id]
    {
      assert At(a, ChannelElement(id)) == At(b, ChannelElement(id));
    }
    forall s ensures s in a.users <==> s in b.users
      ensures s in a.users ==> a.users[s] == b.users[s]
    {
      assert At(a, UserElement(s)) == At(b, UserElement(s));
    }
    assert a.channels == b.channels && a.users == b.users;
  }

  /** The effect of an operation on the element it targets. */
  function Step(x: Option<Item>, op: PlanOp): Option<Item> {
    match op
    case CreateChannel(channel) => Some(ChannelItem(ShowChannel(channel)))
    case UpdateChannel(p) =>
      if x.Some? && x.value.ChannelItem? then Some(ChannelItem(PatchChannel(x.value.channel, p))) else x
    case AddUser(user) => Some(UserItem(ShowUser(user)))
    case MoveUser(_, to) =>
      if x.Some? && x.value.UserItem? then Some(UserItem(x.value.user.(channel := to))) else x
    case UpdateUser(p) =>
      if x.Some? && x.value.UserItem? then Some(UserItem(PatchUser(x.value.user, p))) else x
    case RemoveUser(_) => None
    case RemoveChannel(_) => None
  }

  function Steps(x: Option<Item>, ops: seq<PlanOp>): Option<Item>
    decreases |ops|
  {
    if ops == [] then x else Step(Steps(x, ops[..|ops| - 1]), ops[|ops| - 1])
  }

  lemma {:induction false} StepsConcat(x: Option<Item>, a: seq<PlanOp>, b: seq<PlanOp>)
    ensures Steps(x, a + b) == Steps(Steps(x, a), b)
  {
    if b == [] {
      assert a + b == a;
    } else {
      assert (a + b)[..|a + b| - 1] == a + b[..|b| - 1];
      StepsConcat(x, a, b[..|b| - 1]);
    }
  }

  /** The operations of a sequence that concern one element, in order. */
  function On(ops: seq<PlanOp>, e: ElementId): seq<PlanOp>
    decreases |ops|
  {
    if ops == [] then [] else
      var last := ops[|ops| - 1];
      On(ops[..|ops| - 1], e) + (if Target(last) == e then [last] else [])
  }

  lemma OnSnoc(ops: seq<PlanOp>, op: PlanOp, e: ElementId)
    ensures On(ops + [op], e) == if Target(op) == e then On(ops, e) + [op] else On(ops, e)
  {
    assert (ops + [op])[..|ops|] == ops;
  }

  lemma {:induction false} OnConcat(a: seq<PlanOp>, b: seq<PlanOp>, e: ElementId)
    ensures On(a + b, e) == On(a, e) + On(b, e)
  {
    if b == [] {
      assert a + b == a;
    } else {
      assert (a + b)[..|a + b| - 1] == a + b[..|b| - 1];
      OnConcat(a, b[..|b| - 1], e);
    }
  }

  /** An operation changes its target as `Step` says and nothing else. */
  lemma ApplyAt(c: Client, op: PlanOp, e: ElementId)
    ensures At(Apply(c, op), e) == if Target(op) == e then Step(At(c, e), op) else At(c, e)
  {
  }

  lemma {:induction false} RunAt(c: Client, ops: seq<PlanOp>, e: ElementId)
    ensures At(Run(c, ops), e) == Steps(At(c, e), On(ops, e))
    decreases |ops|
  {
    hide Run, Steps, On, Apply, Step;
    if ops == [] {
      NothingRun(c, e);
    } else {
      var n := |ops| - 1;
      var front, last := ops[..n], ops[n];
      assert ops == front + [last];
      RunAt(c, front, e);
      RunSnoc(c, front, last);
      ApplyAt(Run(c, front), last, e);
      OnSnoc(front, last, e);
      StepsSnoc(At(c, e), On(front, e), last);
    }
  }

  lemma RunSnoc(c: Client, ops: seq<PlanOp>, op: PlanOp)
    ensures Run(c, ops + [op]) == Apply(Run(c, ops), op)
  {
    hide Apply;
    assert (ops + [op])[..|ops|] == ops;
  }

  lemma StepsSnoc(x: Option<Item>, ops: seq<PlanOp>, op: PlanOp)
    ensures Steps(x, ops + [op]) == Step(Steps(x, ops), op)
  {
    hide Step;
    assert (ops + [op])[..|ops|] == ops;
  }

  lemma NothingRun(c: Client, e: ElementId)
    ensures Run(c, []) == c && On([], e) == [] && forall x :: Steps(x, []) == x
  {
  }

  // ---------------------------------------------------------------- views, one element at a time

  /** What a view holds about an element: the fields the plan can express, and its scope. */
  datatype Entry = Entry(item: Item, scope: Scope)

  function Look(v: ShardView, e: ElementId): Option<Entry> {
    match e
    case ChannelElement(id) =>
      if id in v.channels then Some(Entry(ChannelItem(ShowChannel(v.channels[id])), v.channels[id].scope)) else None
    case UserElement(s) =>
      if s in v.users then Some(Entry(UserItem(ShowUser(v.users[s])), v.users[s].scope)) else None
  }

  /** Two views no plan can tell apart: `canText`, keys and occupants may differ. */
  ghost predicate Alike(a: ShardView, b: ShardView) {
    forall e :: Look(a, e) == Look(b, e)
  }

  function Seen(see: ScopeSet, x: Option<Entry>): Option<Item> {
    if x.Some? && Sees(see, x.value.scope) then Some(x.value.item) else None
  }

  lemma ShownAt(v: ShardView, see: ScopeSet, overlay: Overlay, e: ElementId)
    ensures At(Show(v), e) == if Look(v, e).Some? then Some(Look(v, e).value.item) else None
    ensures At(Show(Restrict(v, see)), e) == Seen(see, Look(v, e))
    ensures At(Show(Compose(Restrict(v, see), overlay)), e)
         == if Look(overlay, e).Some? then Some(Look(overlay, e).value.item) else Seen(see, Look(v, e))
  {
  }
}
