/** Prefix safety of the slow path, and of the filtered fast path for observers of surviving channels. */
module PrefixSafety {
  import opened Collections
  import opened Scopes
  import opened Views
  import opened Planner
  import opened Clients
  import opened Deltas
  import opened OverlayDeltas
  import opened Composition
  import opened FastPath
  import opened Ordering
  import opened Windows

  /** Two views that one observer is taken between, as trees it sees closed parts of. */
  ghost predicate Travels(before: ShardView, after: ShardView, see: ScopeSet) {
    && WellKeyed(before) && WellKeyed(after)
    && Tree(before) && Tree(after)
    && ClosedView(Restrict(before, see)) && ClosedView(Restrict(after, see))
  }

  /** A channel of the old view that this observer could not see in it. */
  predicate Unseen(before: ShardView, see: ScopeSet, id: ChannelId) {
    id in before.channels && !Sees(see, before.channels[id].scope)
  }

  /** Among `cs`, whatever hangs from a channel the observer could not see comes after that channel. */
  ghost predicate UnseenFirst(before: ShardView, see: ScopeSet, cs: seq<Channel>) {
    forall i | 0 <= i < |cs| && Sees(see, cs[i].scope) && cs[i].parent != cs[i].id
      && Unseen(before, see, cs[i].parent) ::
      cs[i].parent in Ids(cs[..i])
  }

  /** The channels one transition creates, in order. */
  function Created(before: ShardView, after: ShardView): seq<Channel> {
    Ordered(Arriving(before, after, Sorted(after.channels.Keys)), before.channels.Keys)
  }

  /** In the planned order, a revealed channel precedes the channels created below it. */
  ghost predicate RevealedFirst(before: ShardView, after: ShardView, see: ScopeSet) {
    UnseenFirst(before, see, Created(before, after))
  }

  /**
   The channel arrives, and up its chain of parents the identifiers fall until one is the root or
   hangs from the old view: what the first pass over the arrivals places.
   */
  predicate Prompt(before: ShardView, after: ShardView, id: ChannelId)
    decreases id
  {
    && id in after.channels && !SameChannel(before, after, id)
    && var parent := after.channels[id].parent;
       parent == id || parent in before.channels || (parent < id && Prompt(before, after, parent))
  }

  /**
   On the two views alone: whatever arrives in sight below a channel the observer could not see
   has a greater identifier than that channel, and that channel is prompt.
   */
  ghost predicate RevealedInTime(before: ShardView, after: ShardView, see: ScopeSet) {
    forall id | id in after.channels && ArrivesUnderUnseen(before, after, see, id) ::
      after.channels[id].parent < id && Prompt(before, after, after.channels[id].parent)
  }

  predicate ArrivesUnderUnseen(before: ShardView, after: ShardView, see: ScopeSet, id: ChannelId)
    requires id in after.channels
  {
    && !SameChannel(before, after, id) && Sees(see, after.channels[id].scope)
    && after.channels[id].parent != id && Unseen(before, see, after.channels[id].parent)
  }

  /** No channel present in both views becomes visible to this observer only now. */
  ghost predicate NoneRevealed(before: ShardView, after: ShardView, see: ScopeSet) {
    forall id | id in before.channels && id in after.channels && Sees(see, after.channels[id].scope) ::
      Sees(see, before.channels[id].scope)
  }

  // ---------------------------------------------------------------- phase P1

  /** The arriving channels are anchored: each hangs from the old view or from another arrival. */
  lemma ArrivingAnchored(before: ShardView, after: ShardView, rank: map<ChannelId, nat>)
    requires WellKeyed(after) && Ranked(after, rank)
    ensures Anchored(Arriving(before, after, Sorted(after.channels.Keys)), before.channels.Keys, rank)
  {
    hide Ranked, Arriving, Sorted;
    var keys := Sorted(after.channels.Keys);
    var cs := Arriving(before, after, keys);
    ArrivingMembers(before, after, keys);
    forall i | 0 <= i < |cs| ensures AnchoredAt(cs, before.channels.Keys, rank, cs[i]) {
      RankedAt(after, rank, cs[i].id);
      var c := cs[i];
      assert c in cs;
      var id := c.id;
      assert id in after.channels && after.channels[id] == c;
      if id != ROOT && c.parent !in before.channels {
        assert after.channels[c.parent] in cs;
      }
    }
  }

  lemma {:induction false} ArrivingMembers(before: ShardView, after: ShardView, keys: seq<nat>)
    requires WellKeyed(after)
    ensures forall c :: c in Arriving(before, after, keys) <==>
      c.id in keys && c.id in after.channels && after.channels[c.id] == c && !SameChannel(before, after, c.id)
  {
    if keys != [] {
      var n := |keys| - 1;
      ArrivingMembers(before, after, keys[..n]);
      assert keys == keys[..n] + [keys[n]];
    }
  }

  function VisibleIds(cs: seq<Channel>, see: ScopeSet): set<ChannelId> {
    set c | c in cs && Sees(see, c.scope) :: c.id
  }

  /** The creations an observer receives are safe exactly when revealed channels come first. */
  lemma {:induction false} CreationsSafe(
    before: ShardView, after: ShardView, see: ScopeSet, cs: seq<Channel>, c: Client)
    requires ClosedView(Restrict(after, see))
    requires ParentsFirst(cs, before.channels.Keys)
    requires forall ch | ch in cs :: ch.id in after.channels && after.channels[ch.id] == ch
    requires c.channels.Keys == Restrict(before, see).channels.Keys
    ensures SafeRun(c, Filter(Creations(cs), see)) <==> UnseenFirst(before, see, cs)
    ensures Run(c, Filter(Creations(cs), see)).channels.Keys == c.channels.Keys + VisibleIds(cs, see)
  {
    hide SafeRun, ParentsFirst, ClosedView, Restrict, Placeable, Run, Filter, Creations, Sees, VisibleIds, UnseenFirst;
    hide Unseen, Ids;
    CreationsNext(cs, see, c);
    UnseenFirstNext(before, see, cs);
    if cs != [] {
      var n := |cs| - 1;
      var prefix, last := cs[..n], cs[n];
      ParentsFirstPrefix(cs, before.channels.Keys);
      CreationsSafe(before, after, see, prefix, c);
      var ops := Filter(Creations(prefix), see);
      if Sees(see, last.scope) {
        ParentHeld(before, after, see, prefix, last, Run(c, ops).channels.Keys);
        CreateOne(c, ops, last);
      }
    }
  }

  lemma UnseenFirstNext(before: ShardView, see: ScopeSet, cs: seq<Channel>)
    ensures cs == [] ==> UnseenFirst(before, see, cs)
    ensures cs != [] ==>
      var prefix, last := cs[..|cs| - 1], cs[|cs| - 1];
      UnseenFirst(before, see, cs) <==>
        && UnseenFirst(before, see, prefix)
        && (Sees(see, last.scope) && last.parent != last.id && Unseen(before, see, last.parent) ==>
             last.parent in Ids(prefix))
  {
    hide Sees, Unseen, Ids;
    if cs != [] {
      var prefix := cs[..|cs| - 1];
      assert forall i | 0 <= i < |prefix| :: prefix[i] == cs[i] && prefix[..i] == cs[..i];
    }
  }

  lemma CreationsNext(cs: seq<Channel>, see: ScopeSet, c: Client)
    ensures cs == [] ==>
      Filter(Creations(cs), see) == [] && SafeRun(c, []) && Run(c, []) == c && VisibleIds(cs, see) == {}
    ensures cs != [] ==>
      var prefix, last := cs[..|cs| - 1], cs[|cs| - 1];
      && cs == prefix + [last]
      && (Sees(see, last.scope) ==>
           && Filter(Creations(cs), see) == Filter(Creations(prefix), see) + [CreateChannel(last)]
           && VisibleIds(cs, see) == VisibleIds(prefix, see) + {last.id})
      && (!Sees(see, last.scope) ==>
           && Filter(Creations(cs), see) == Filter(Creations(prefix), see)
           && VisibleIds(cs, see) == VisibleIds(prefix, see))
  {
    if cs != [] {
      hide Filter, Sees, VisibleIds, Run, SafeRun;
      var prefix, last := cs[..|cs| - 1], cs[|cs| - 1];
      assert cs == prefix + [last];
      VisibleNext(prefix, last, see);
      FilterConcat(Creations(prefix), [PlannedOp(CreateChannel(last), last.scope)], see);
      FilterOne(PlannedOp(CreateChannel(last), last.scope), see);
    }
  }

  lemma VisibleNext(prefix: seq<Channel>, last: Channel, see: ScopeSet)
    ensures VisibleIds(prefix + [last], see)
         == if Sees(see, last.scope) then VisibleIds(prefix, see) + {last.id} else VisibleIds(prefix, see)
  {
    hide Sees;
  }

  lemma CreateOne(c: Client, ops: seq<PlanOp>, channel: Channel)
    ensures SafeRun(c, ops + [CreateChannel(channel)]) <==>
      SafeRun(c, ops) && (channel.parent == channel.id || channel.parent in Run(c, ops).channels)
    ensures Run(c, ops + [CreateChannel(channel)]).channels.Keys == Run(c, ops).channels.Keys + {channel.id}
  {
    hide Run;
    var op := CreateChannel(channel);
    var more := ops + [op];
    assert more[..|ops|] == ops && more[|ops|] == op;
    RunConcat(c, ops, [op]);
    RunOne(Run(c, ops), op);
    if SafeRun(c, more) {
      SafePrefix(c, ops, [op]);
      assert SafeStep(Run(c, more[..|ops|]), more[|ops|]);
    }
    if SafeRun(c, ops) && SafeStep(Run(c, ops), op) {
      OneMore(c, ops, op);
    }
  }

  lemma RunOne(c: Client, op: PlanOp)
    ensures Run(c, [op]) == Apply(c, op)
  {
    assert [op][..0] == [];
  }

  lemma SafePrefix(c: Client, a: seq<PlanOp>, b: seq<PlanOp>)
    requires SafeRun(c, a + b)
    ensures SafeRun(c, a)
  {
    hide SafeStep, Run;
    forall i | 0 <= i < |a| ensures SafeStep(Run(c, a[..i]), a[i]) {
      assert (a + b)[..i] == a[..i] && (a + b)[i] == a[i];
    }
  }

  lemma ParentsFirstPrefix(cs: seq<Channel>, present: set<ChannelId>)
    requires ParentsFirst(cs, present) && cs != []
    ensures ParentsFirst(cs[..|cs| - 1], present)
    ensures Placeable(cs[|cs| - 1], present + Ids(cs[..|cs| - 1]))
  {
    var prefix := cs[..|cs| - 1];
    forall i | 0 <= i < |prefix| ensures Placeable(prefix[i], present + Ids(prefix[..i])) {
      assert prefix[..i] == cs[..i];
    }
  }

  /** The parent of a visible arrival is held by then, unless it is a revealed channel still to come. */
  lemma ParentHeld(
    before: ShardView, after: ShardView, see: ScopeSet, prefix: seq<Channel>, last: Channel, held: set<ChannelId>)
    requires ClosedView(Restrict(after, see))
    requires Placeable(last, before.channels.Keys + Ids(prefix))
    requires forall ch | ch in prefix :: ch.id in after.channels && after.channels[ch.id] == ch
    requires last.id in after.channels && after.channels[last.id] == last && Sees(see, last.scope)
    requires held == Restrict(before, see).channels.Keys + VisibleIds(prefix, see)
    ensures last.parent == last.id || last.parent in held <==>
      (last.parent != last.id && Unseen(before, see, last.parent) ==> last.parent in Ids(prefix))
  {
    hide Sees, ClosedView;
    ClosedAt(after, see, last.id);
    VisibleAmong(after, see, prefix, last.parent);
    hide VisibleIds, Ids;
  }

  /** A channel of the new view that the observer sees is among the visible ones exactly when it is among them all. */
  lemma VisibleAmong(after: ShardView, see: ScopeSet, cs: seq<Channel>, id: ChannelId)
    requires forall ch | ch in cs :: ch.id in after.channels && after.channels[ch.id] == ch
    requires id in Restrict(after, see).channels
    ensures id in VisibleIds(cs, see) <==> id in Ids(cs)
  {
    hide Sees;
    if id in Ids(cs) {
      var ch :| ch in cs && ch.id == id;
      assert ch.id in VisibleIds(cs, see);
    }
  }

  lemma OneMore(c: Client, ops: seq<PlanOp>, op: PlanOp)
    requires SafeRun(c, ops) && SafeStep(Run(c, ops), op)
    ensures SafeRun(c, ops + [op])
    ensures Run(c, ops + [op]) == Apply(Run(c, ops), op)
  {
    assert (ops + [op])[..|ops|] == ops;
    forall i | 0 <= i < |ops + [op]| ensures SafeStep(Run(c, (ops + [op])[..i]), (ops + [op])[i]) {
      if i < |ops| {
        assert (ops + [op])[..i] == ops[..i];
      }
    }
  }

  // ---------------------------------------------------------------- the order, read off the views

  /** Nothing of the view below a key is missing from the keys. */
  ghost predicate Initial(v: ShardView, keys: seq<nat>) {
    && Ascending(keys)
    && (forall k | k in keys :: k in v.channels)
    && (forall id, k | id in v.channels && k in keys && id <= k :: id in keys)
  }

  ghost predicate Rising(cs: seq<Channel>) {
    forall i, j | 0 <= i < j < |cs| :: cs[i].id < cs[j].id
  }

  lemma InitialPrefix(v: ShardView, front: seq<nat>, last: nat)
    requires Initial(v, front + [last])
    ensures Initial(v, front) && last in v.channels
    ensures forall id | id in v.channels && id < last :: id in front
    ensures forall k | k in front :: k < last
  {
    var keys := front + [last];
    assert last in keys;
    forall i | 0 <= i < |front| ensures front[i] < last && front[i] in keys {
      assert keys[i] == front[i] && keys[|front|] == last;
    }
    assert forall i, j | 0 <= i < j < |front| :: keys[i] == front[i] && keys[j] == front[j];
  }

  lemma SortedIsInitial(v: ShardView)
    ensures Initial(v, Sorted(v.channels.Keys))
  {
    var keys := Sorted(v.channels.Keys);
    assert forall id :: id in keys <==> id in v.channels.Keys;
  }

  /** The first pass places exactly the prompt channels, in the order of their identifiers. */
  ghost predicate PlacesPrompt(before: ShardView, after: ShardView, keys: seq<nat>, placed: seq<Channel>) {
    && Rising(placed)
    && (forall id :: id in Ids(placed) <==> id in keys && Prompt(before, after, id))
    && (forall c | c in placed :: c.id in keys && c.id in after.channels && after.channels[c.id] == c)
  }

  lemma {:induction false} FirstPass(before: ShardView, after: ShardView, keys: seq<nat>)
    requires WellKeyed(after) && Initial(after, keys)
    ensures PlacesPrompt(before, after, keys, Pass(Arriving(before, after, keys), before.channels.Keys).0)
  {
    hide SameChannel, Ids, Rising;
    if keys == [] {
      NoneIsRising();
    } else {
      var n := |keys| - 1;
      var front, last := keys[..n], keys[n];
      assert keys == front + [last];
      InitialPrefix(after, front, last);
      FirstPass(before, after, front);
      var arriving := Arriving(before, after, front);
      var placed := Pass(arriving, before.channels.Keys).0;
      if !SameChannel(before, after, last) {
        var c := after.channels[last];
        var more := arriving + [c];
        assert more[..|arriving|] == arriving && Arriving(before, after, keys) == more;
        PromptNext(before, after, front, last, placed);
        NextPlaced(before, after, front, last, placed);
      } else {
        assert Arriving(before, after, keys) == arriving + [] == arriving;
        SkipLast(before, after, front, last, placed);
      }
    }
  }

  lemma NoneIsRising()
    ensures Rising([]) && Ids([]) == {}
  {
  }

  lemma PromptNext(before: ShardView, after: ShardView, front: seq<nat>, last: nat, placed: seq<Channel>)
    requires WellKeyed(after) && last in after.channels && !SameChannel(before, after, last)
    requires forall id | id in after.channels && id < last :: id in front
    requires forall k | k in front :: k < last
    requires PlacesPrompt(before, after, front, placed)
    ensures Placeable(after.channels[last], before.channels.Keys + Ids(placed)) <==> Prompt(before, after, last)
  {
    hide SameChannel, Ids, Rising;
    var parent := after.channels[last].parent;
    assert parent in Ids(placed) <==> parent < last && Prompt(before, after, parent);
  }

  lemma NextPlaced(before: ShardView, after: ShardView, front: seq<nat>, last: nat, placed: seq<Channel>)
    requires WellKeyed(after) && last in after.channels
    requires forall k | k in front :: k < last
    requires PlacesPrompt(before, after, front, placed)
    ensures Prompt(before, after, last) ==> PlacesPrompt(before, after, front + [last], placed + [after.channels[last]])
    ensures !Prompt(before, after, last) ==> PlacesPrompt(before, after, front + [last], placed)
  {
    hide SameChannel, Prompt, Ids;
    IdsNext(placed, after.channels[last]);
  }

  lemma SkipLast(before: ShardView, after: ShardView, front: seq<nat>, last: nat, placed: seq<Channel>)
    requires SameChannel(before, after, last) && PlacesPrompt(before, after, front, placed)
    ensures PlacesPrompt(before, after, front + [last], placed)
  {
    hide SameChannel, Ids, Rising;
  }

  /** In a rising list, what precedes a channel is what has a smaller identifier. */
  lemma BeforeInRising(cs: seq<Channel>, i: nat, id: ChannelId)
    requires Rising(cs) && i < |cs|
    ensures id in Ids(cs[..i]) <==> id in Ids(cs) && id < cs[i].id
  {
    if id in Ids(cs) && id < cs[i].id {
      var c :| c in cs && c.id == id;
      var k :| 0 <= k < |cs| && cs[k] == c;
      assert cs[..i][k] == c;
    }
    if id in Ids(cs[..i]) {
      var c :| c in cs[..i] && c.id == id;
      var k :| 0 <= k < i && cs[..i][k] == c;
      assert cs[k] == c;
    }
  }

  /** What a pass leaves waiting does not hang from anything present. */
  lemma {:induction false} WaitingIsNotPlaceable(remaining: seq<Channel>, present: set<ChannelId>)
    ensures forall c | c in Pass(remaining, present).1 :: !Placeable(c, present)
  {
    hide Ids;
    if remaining != [] {
      WaitingIsNotPlaceable(remaining[..|remaining| - 1], present);
    }
  }

  /** What is created after the first pass does not hang from the old view. */
  lemma CreatedLater(before: ShardView, after: ShardView, placed: seq<Channel>, i: nat)
    requires placed == Pass(Arriving(before, after, Sorted(after.channels.Keys)), before.channels.Keys).0
    requires i < |Created(before, after)|
    ensures placed != [] ==> |placed| <= |Created(before, after)| && Created(before, after)[..|placed|] == placed
    ensures placed == [] || |placed| <= i ==> !Placeable(Created(before, after)[i], before.channels.Keys)
  {
    hide Pass, Arriving, Sorted, Placeable, Ids;
    var arriving := Arriving(before, after, Sorted(after.channels.Keys));
    var present := before.channels.Keys;
    var waiting := Pass(arriving, present).1;
    WaitingIsNotPlaceable(arriving, present);
    if placed == [] {
      NothingPlaced(arriving, present);
    } else {
      OrderedMembers(waiting, present + Ids(placed));
      var rest := Ordered(waiting, present + Ids(placed));
      assert Created(before, after) == placed + rest;
      if |placed| <= i {
        assert (placed + rest)[i] == rest[i - |placed|] && rest[i - |placed|] in rest;
      }
    }
  }

  lemma UnseenIsPlaceable(before: ShardView, see: ScopeSet, c: Channel)
    requires Unseen(before, see, c.parent)
    ensures Placeable(c, before.channels.Keys)
  {
  }

  /** The order of the created list is a condition on the two views. */
  lemma RevealedFirstOnViews(before: ShardView, after: ShardView, see: ScopeSet)
    requires WellKeyed(after)
    ensures RevealedFirst(before, after, see) <==> RevealedInTime(before, after, see)
  {
    hide Pass, Arriving, Sorted, Sees, Prompt, SameChannel, Created;
    var keys := Sorted(after.channels.Keys);
    var placed := Pass(Arriving(before, after, keys), before.channels.Keys).0;
    var cs := Created(before, after);
    SortedIsInitial(after);
    FirstPass(before, after, keys);
    SortedHolds(after);
    if RevealedInTime(before, after, see) {
      InTimeIsFirst(before, after, see, placed);
    }
    if RevealedFirst(before, after, see) {
      FirstIsInTime(before, after, see, placed);
    }
  }

  lemma SortedHolds(v: ShardView)
    ensures forall id :: id in Sorted(v.channels.Keys) <==> id in v.channels
  {
    assert forall id :: id in Sorted(v.channels.Keys) <==> id in v.channels.Keys;
  }

  lemma InTimeIsFirst(before: ShardView, after: ShardView, see: ScopeSet, placed: seq<Channel>)
    requires placed == Pass(Arriving(before, after, Sorted(after.channels.Keys)), before.channels.Keys).0
    requires PlacesPrompt(before, after, Sorted(after.channels.Keys), placed)
    requires RevealedInTime(before, after, see)
    ensures RevealedFirst(before, after, see)
  {
    hide Pass, Arriving, Sorted, Sees, SameChannel, Created, Ids, Rising, Placeable, Unseen;
    var cs := Created(before, after);
    SortedHolds(after);
    forall i | 0 <= i < |cs| && Sees(see, cs[i].scope) && cs[i].parent != cs[i].id && Unseen(before, see, cs[i].parent)
      ensures cs[i].parent in Ids(cs[..i])
    {
      UnseenIsPlaceable(before, see, cs[i]);
      CreatedLater(before, after, placed, i);
      assert cs[i] == placed[i] && cs[..i] == placed[..i] && placed[i] in placed;
      PlacedArrives(before, after, placed, i);
      assert ArrivesUnderUnseen(before, after, see, cs[i].id);
      BeforeInRising(placed, i, cs[i].parent);
      PromptIsPresent(before, after, cs[i].parent);
    }
  }

  lemma PlacedArrives(before: ShardView, after: ShardView, placed: seq<Channel>, i: nat)
    requires PlacesPrompt(before, after, Sorted(after.channels.Keys), placed) && i < |placed|
    ensures !SameChannel(before, after, placed[i].id)
  {
    hide SameChannel, Sorted, Rising;
    assert placed[i].id in Ids(placed);
  }

  lemma PromptIsPresent(before: ShardView, after: ShardView, id: ChannelId)
    requires Prompt(before, after, id)
    ensures id in after.channels
  {
  }

  lemma FirstIsInTime(before: ShardView, after: ShardView, see: ScopeSet, placed: seq<Channel>)
    requires WellKeyed(after)
    requires placed == Pass(Arriving(before, after, Sorted(after.channels.Keys)), before.channels.Keys).0
    requires PlacesPrompt(before, after, Sorted(after.channels.Keys), placed)
    requires RevealedFirst(before, after, see)
    ensures RevealedInTime(before, after, see)
  {
    hide Pass, Arriving, Sorted, Sees, SameChannel, Created, Ids, Rising, Placeable;
    var cs := Created(before, after);
    SortedHolds(after);
    forall id | id in after.channels && ArrivesUnderUnseen(before, after, see, id)
      ensures after.channels[id].parent < id && Prompt(before, after, after.channels[id].parent)
    {
      assert Prompt(before, after, id);
      var i := PlacedAt(before, after, placed, id);
      CreatedHolds(before, after, placed, i);
      assert cs[i] == placed[i] && cs[..i] == placed[..i];
      BeforeInRising(placed, i, cs[i].parent);
    }
  }

  lemma PlacedAt(before: ShardView, after: ShardView, placed: seq<Channel>, id: ChannelId) returns (i: nat)
    requires PlacesPrompt(before, after, Sorted(after.channels.Keys), placed)
    requires id in after.channels && Prompt(before, after, id)
    ensures i < |placed| && placed[i] == after.channels[id] && placed[i].id == id
  {
    hide Prompt, Rising, Sorted;
    SortedHolds(after);
    assert id in Ids(placed);
    var c :| c in placed && c.id == id;
    i :| 0 <= i < |placed| && placed[i] == c;
  }

  lemma CreatedHolds(before: ShardView, after: ShardView, placed: seq<Channel>, i: nat)
    requires placed == Pass(Arriving(before, after, Sorted(after.channels.Keys)), before.channels.Keys).0
    requires i < |placed|
    ensures i < |Created(before, after)| && Created(before, after)[i] == placed[i]
    ensures Created(before, after)[..i] == placed[..i]
  {
    hide Pass, Arriving, Sorted, Ids;
    var arriving := Arriving(before, after, Sorted(after.channels.Keys));
    var rest := Ordered(Pass(arriving, before.channels.Keys).1, before.channels.Keys + Ids(placed));
    PassOfNothing(before.channels.Keys);
    assert Created(before, after) == placed + rest;
    assert (placed + rest)[..i] == placed[..i];
  }

  lemma PassOfNothing(present: set<ChannelId>)
    ensures Pass([], present).0 == []
  {
  }

  // ---------------------------------------------------------------- phases P2 to P6

  /** Operations that only refer to channels of `k`, and neither create nor remove one. */
  ghost predicate Harmless(op: PlanOp, k: set<ChannelId>) {
    match op
    case CreateChannel(_) => false
    case UpdateChannel(p) => p.parent.Some? ==> p.parent.value in k
    case AddUser(user) => user.channel in k
    case MoveUser(_, to) => to in k
    case UpdateUser(_) => true
    case RemoveUser(_) => true
    case RemoveChannel(_) => false
  }

  lemma {:induction false} HarmlessRun(c: Client, ops: seq<PlanOp>, k: set<ChannelId>)
    requires k <= c.channels.Keys
    requires forall op | op in ops :: Harmless(op, k)
    ensures SafeRun(c, ops)
    ensures Run(c, ops).channels.Keys == c.channels.Keys
    decreases |ops|
  {
    if ops != [] {
      var n := |ops| - 1;
      HarmlessRun(c, ops[..n], k);
      assert ops == ops[..n] + [ops[n]];
      assert Harmless(ops[n], k);
      OneMore(c, ops[..n], ops[n]);
    }
  }

  lemma {:induction false} FilterMembers(ops: seq<PlannedOp>, see: ScopeSet)
    ensures forall op | op in Filter(ops, see) :: exists p :: p in ops && p.op == op && Sees(see, p.scope)
    decreases |ops|
  {
    if ops != [] {
      var n := |ops| - 1;
      FilterMembers(ops[..n], see);
      assert ops == ops[..n] + [ops[n]];
      forall op | op in Filter(ops, see) ensures exists p :: p in ops && p.op == op && Sees(see, p.scope) {
        if op in Filter(ops[..n], see) {
          var p :| p in ops[..n] && p.op == op && Sees(see, p.scope);
          assert p in ops;
        } else {
          assert ops[n] in ops;
        }
      }
    }
  }

  /** What one key contributes to phases P2 to P6, for an observer of it. */
  lemma ContributionHarmless(p: Phase, before: ShardView, after: ShardView, key: nat, see: ScopeSet)
    requires ClosedView(Restrict(after, see))
    ensures var c := Contribution(p, before, after, key);
      |c| <= 1 && (|c| == 1 && Sees(see, c[0].scope) ==> Harmless(c[0].op, Restrict(after, see).channels.Keys))
  {
    hide ClosedView, Restrict, Sees;
    ClosedAt(after, see, key);
  }

  lemma ClosedAt(v: ShardView, see: ScopeSet, key: nat)
    requires ClosedView(Restrict(v, see))
    ensures key in v.channels && Sees(see, v.channels[key].scope) ==>
      v.channels[key].parent in Restrict(v, see).channels
    ensures key in v.users && Sees(see, v.users[key].scope) ==>
      v.users[key].channel in Restrict(v, see).channels
  {
    var r := Restrict(v, see);
    assert key in r.channels ==> r.channels[key].parent in r.channels;
    assert key in r.users ==> r.users[key].channel in r.channels;
  }

  lemma {:induction false} GatherHarmless(p: Phase, before: ShardView, after: ShardView, keys: seq<nat>, see: ScopeSet)
    requires ClosedView(Restrict(after, see))
    ensures forall q | q in Gather(p, before, after, keys) && Sees(see, q.scope) ::
      Harmless(q.op, Restrict(after, see).channels.Keys)
  {
    hide Contribution, Harmless, ClosedView, Restrict, Sees;
    if keys != [] {
      var n := |keys| - 1;
      GatherHarmless(p, before, after, keys[..n], see);
      ContributionHarmless(p, before, after, keys[n], see);
    }
  }

  function MiddlePhases(before: ShardView, after: ShardView): seq<PlannedOp> {
    var channels, users := Sorted(after.channels.Keys), Sorted(after.users.Keys);
    Gather(UpdateChannels, before, after, channels) + Gather(AddUsers, before, after, users)
    + Gather(MoveUsers, before, after, users) + Gather(UpdateUsers, before, after, users)
    + Gather(RehomeUsers, before, after, users) + Gather(DropUsers, before, after, Sorted(before.users.Keys))
  }

  function FirstPhase(before: ShardView, after: ShardView): seq<PlannedOp> {
    Creations(Ordered(Arriving(before, after, Sorted(after.channels.Keys)), before.channels.Keys))
  }

  lemma PlanPhases(before: ShardView, after: ShardView)
    ensures Plan(before, after)
         == FirstPhase(before, after) + MiddlePhases(before, after) + PlanChannelRemovals(before, after)
  {
    hide Gather, Sorted, Creations, Ordered, Arriving, PlanChannelRemovals;
  }

  lemma MiddleHarmless(before: ShardView, after: ShardView, see: ScopeSet)
    requires ClosedView(Restrict(after, see))
    ensures forall q | q in MiddlePhases(before, after) && Sees(see, q.scope) ::
      Harmless(q.op, Restrict(after, see).channels.Keys)
  {
    hide Gather, Sorted, ClosedView, Restrict, Sees, Harmless;
    var channels, users := Sorted(after.channels.Keys), Sorted(after.users.Keys);
    GatherHarmless(UpdateChannels, before, after, channels, see);
    GatherHarmless(AddUsers, before, after, users, see);
    GatherHarmless(MoveUsers, before, after, users, see);
    GatherHarmless(UpdateUsers, before, after, users, see);
    GatherHarmless(RehomeUsers, before, after, users, see);
    GatherHarmless(DropUsers, before, after, Sorted(before.users.Keys), see);
  }

  // ---------------------------------------------------------------- collapsing phase by phase

  lemma {:induction false} RetainConcat(a: seq<PlanOp>, b: seq<PlanOp>, added: set<ElementId>)
    ensures Retain(a + b, added) == Retain(a, added) + Retain(b, added)
  {
    if b == [] {
      assert a + b == a;
    } else {
      assert (a + b)[..|a + b| - 1] == a + b[..|b| - 1];
      RetainConcat(a, b[..|b| - 1], added);
    }
  }

  lemma {:induction false} RetainMembers(ops: seq<PlanOp>, added: set<ElementId>)
    ensures forall op | op in Retain(ops, added) :: op in ops
    decreases |ops|
  {
    if ops != [] {
      RetainMembers(ops[..|ops| - 1], added);
      assert ops == ops[..|ops| - 1] + [ops[|ops| - 1]];
    }
  }

  lemma {:induction false} RetainCreations(cs: seq<Channel>, see: ScopeSet, added: set<ElementId>)
    ensures Retain(Filter(Creations(cs), see), added) == Filter(Creations(cs), see)
  {
    hide Filter, Creations, Sees, SafeRun, Run, VisibleIds;
    CreationsNext(cs, see, Client(map[], map[]));
    if cs == [] {
    } else {
      RetainCreations(cs[..|cs| - 1], see, added);
      RetainConcat(Filter(Creations(cs[..|cs| - 1]), see), [CreateChannel(cs[|cs| - 1])], added);
      assert [CreateChannel(cs[|cs| - 1])][..0] == [];
    }
  }

  /** The removals of phase P7 that an observer receives and `Collapse` keeps. */
  function Selected(before: ShardView, ids: seq<ChannelId>, see: ScopeSet, added: set<ElementId>): seq<ChannelId>
    requires forall id | id in ids :: id in before.channels
  {
    if ids == [] then [] else
      var last := ids[|ids| - 1];
      Selected(before, ids[..|ids| - 1], see, added)
      + (if Sees(see, before.channels[last].scope) && ChannelElement(last) !in added then [last] else [])
  }

  lemma {:induction false} SelectedMembers(before: ShardView, ids: seq<ChannelId>, see: ScopeSet, added: set<ElementId>)
    requires forall id | id in ids :: id in before.channels
    ensures forall id :: id in Selected(before, ids, see, added) <==>
      id in ids && Sees(see, before.channels[id].scope) && ChannelElement(id) !in added
  {
    hide Sees;
    if ids != [] {
      SelectedMembers(before, ids[..|ids| - 1], see, added);
      assert ids == ids[..|ids| - 1] + [ids[|ids| - 1]];
    }
  }

  lemma NothingWithdrawn(before: ShardView, see: ScopeSet, added: set<ElementId>)
    ensures Retain(Filter(Withdrawals(before, []), see), added) == []
    ensures Selected(before, [], see, added) == [] && PrivateWithdrawals([]) == []
  {
  }

  /** The last channel of those to withdraw, on both sides of the equation below. */
  lemma WithdrawnNext(before: ShardView, ids: seq<ChannelId>, see: ScopeSet, added: set<ElementId>)
    requires ids != [] && forall id | id in ids :: id in before.channels
    ensures var front, last := ids[..|ids| - 1], ids[|ids| - 1];
      && Withdrawals(before, ids)
           == Withdrawals(before, front) + [PlannedOp(RemoveChannel(last), before.channels[last].scope)]
      && Selected(before, ids, see, added)
           == Selected(before, front, see, added)
              + if Sees(see, before.channels[last].scope) && ChannelElement(last) !in added then [last] else []
  {
    hide Sees;
  }

  lemma {:induction false} RetainWithdrawals(
    before: ShardView, ids: seq<ChannelId>, see: ScopeSet, added: set<ElementId>)
    requires forall id | id in ids :: id in before.channels
    ensures Retain(Filter(Withdrawals(before, ids), see), added)
         == PrivateWithdrawals(Selected(before, ids, see, added))
  {
    hide Sees, Filter, Retain, PrivateWithdrawals, Withdrawals, Selected;
    if ids == [] {
      NothingWithdrawn(before, see, added);
    } else {
      var n := |ids| - 1;
      var last := PlannedOp(RemoveChannel(ids[n]), before.channels[ids[n]].scope);
      RetainWithdrawals(before, ids[..n], see, added);
      WithdrawnNext(before, ids, see, added);
      FilterConcat(Withdrawals(before, ids[..n]), [last], see);
      RetainConcat(Filter(Withdrawals(before, ids[..n]), see), Filter([last], see), added);
      RetainOne(last, see, added);
      WithdrawOneMore(Selected(before, ids[..n], see, added), ids[n]);
    }
  }

  lemma RetainOne(p: PlannedOp, see: ScopeSet, added: set<ElementId>)
    requires IsRemoval(p.op)
    ensures Retain(Filter([p], see), added) == if Sees(see, p.scope) && Target(p.op) !in added then [p.op] else []
  {
    FilterOne(p, see);
    assert [p.op][..0] == [];
  }

  lemma WithdrawOneMore(ids: seq<ChannelId>, id: ChannelId)
    ensures PrivateWithdrawals(ids + [id]) == PrivateWithdrawals(ids) + [RemoveChannel(id)]
    ensures PrivateWithdrawals(ids + []) == PrivateWithdrawals(ids) + []
  {
    assert ids + [] == ids;
  }

  lemma {:induction false} SelectedOrdered(
    before: ShardView, ids: seq<ChannelId>, see: ScopeSet, added: set<ElementId>, depth: map<ChannelId, nat>)
    requires forall id | id in ids :: id in before.channels && id in depth
    requires forall i, j | 0 <= i < j < |ids| :: depth[ids[i]] >= depth[ids[j]]
    ensures var r := Selected(before, ids, see, added);
      && (forall k | k in r :: k in ids)
      && (forall i, j | 0 <= i < j < |r| :: depth[r[i]] >= depth[r[j]])
  {
    hide Sees, Selected;
    SelectedMembers(before, ids, see, added);
    if ids == [] {
      NothingWithdrawn(before, see, added);
    } else {
      var n := |ids| - 1;
      SelectedMembers(before, ids[..n], see, added);
      SelectedOrdered(before, ids[..n], see, added, depth);
      WithdrawnNext(before, ids, see, added);
      NoneDeeper(ids, Selected(before, ids[..n], see, added), depth);
    }
  }

  /** The last of those ordered by depth is no deeper than any kept of the others. */
  lemma NoneDeeper(ids: seq<ChannelId>, kept: seq<ChannelId>, depth: map<ChannelId, nat>)
    requires ids != [] && forall id | id in ids :: id in depth
    requires forall i, j | 0 <= i < j < |ids| :: depth[ids[i]] >= depth[ids[j]]
    requires forall k | k in kept :: k in ids[..|ids| - 1]
    ensures forall i | 0 <= i < |kept| :: kept[i] in ids && depth[kept[i]] >= depth[ids[|ids| - 1]]
  {
    forall i | 0 <= i < |kept| ensures kept[i] in ids && depth[kept[i]] >= depth[ids[|ids| - 1]] {
      assert kept[i] in kept;
      var j :| 0 <= j < |ids| - 1 && ids[..|ids| - 1][j] == kept[i];
      assert ids[j] == kept[i];
    }
  }

  // ---------------------------------------------------------------- phase P7

  /** What the removal phase needs: nobody inside, and children leave first. */
  ghost predicate LeavesFirst(c: Client, rs: seq<ChannelId>) {
    && (forall s | s in c.users :: c.users[s].channel !in rs)
    && (forall k, i | k in c.channels && 0 <= i < |rs| && k != rs[i] && c.channels[k].parent == rs[i] :: k in rs[..i])
  }

  lemma {:induction false} RunRemovals(c: Client, rs: seq<ChannelId>)
    ensures Run(c, PrivateWithdrawals(rs)) == Client(c.channels - Elements(rs), c.users)
    decreases |rs|
  {
    if rs == [] {
      assert c.channels - {} == c.channels;
    } else {
      var n := |rs| - 1;
      RunRemovals(c, rs[..n]);
      assert PrivateWithdrawals(rs)[..n] == PrivateWithdrawals(rs[..n]);
      assert rs == rs[..n] + [rs[n]];
      assert Elements(rs) == Elements(rs[..n]) + {rs[n]};
      assert (c.channels - Elements(rs[..n])) - {rs[n]} == c.channels - Elements(rs);
    }
  }

  lemma RemovalsSafe(c: Client, rs: seq<ChannelId>)
    requires LeavesFirst(c, rs)
    ensures SafeRun(c, PrivateWithdrawals(rs))
  {
    hide Run;
    var ops := PrivateWithdrawals(rs);
    forall i | 0 <= i < |ops| ensures SafeStep(Run(c, ops[..i]), ops[i]) {
      assert ops[..i] == PrivateWithdrawals(rs[..i]);
      RunRemovals(c, rs[..i]);
      assert rs[i] in rs;
    }
  }

  // ---------------------------------------------------------------- the whole transition

  /** The filtered, collapsed plan of one observer with no overlay. */
  function Received(before: ShardView, after: ShardView, see: ScopeSet): seq<PlanOp> {
    Collapse(Filter(Plan(before, after), see))
  }

  /** Its meaning: exactly the new restricted view. */
  lemma ReceivedExact(before: ShardView, after: ShardView, see: ScopeSet)
    requires WellKeyed(before) && WellKeyed(after)
    ensures Run(Show(Restrict(before, see)), Received(before, after, see)) == Show(Restrict(after, see))
  {
    hide Plan, Filter, Splice, Collapse, Restrict, Show, Run, PlanElements, IsDelta, WellKeyed, Compose, Disjoint;
    PlanIsDelta(before, after);
    NoOverlay(Restrict(before, see));
    NoOverlay(Restrict(after, see));
    UnchangedOverlay(EMPTY_VIEW);
    SpliceNothing(Filter(Plan(before, after), see));
    FastPathExact(Plan(before, after), before, after, see, EMPTY_VIEW, EMPTY_VIEW);
  }

  lemma NoOverlay(v: ShardView)
    ensures Compose(v, EMPTY_VIEW) == v && Disjoint(v, EMPTY_VIEW) && WellKeyed(EMPTY_VIEW)
  {
  }

  function Removed(before: ShardView, after: ShardView, see: ScopeSet): seq<ChannelId> {
    Selected(before, DeepestFirst(DepthTable(before.channels, Departing(before, after))), see,
             AddedIn(Filter(Plan(before, after), see)))
  }

  /** Phases P2 to P6 as received. */
  function ReceivedMiddle(before: ShardView, after: ShardView, see: ScopeSet): seq<PlanOp> {
    Retain(Filter(MiddlePhases(before, after), see), AddedIn(Filter(Plan(before, after), see)))
  }

  lemma ReceivedPhases(before: ShardView, after: ShardView, see: ScopeSet)
    ensures Received(before, after, see)
         == Filter(FirstPhase(before, after), see) + ReceivedMiddle(before, after, see)
            + PrivateWithdrawals(Removed(before, after, see))
  {
    hide Filter, Retain, AddedIn, MiddlePhases, Selected, PrivateWithdrawals, Creations, Ordered, Arriving, Sorted;
    hide DeepestFirst, Plan, Withdrawals;
    var first, middle, last :=
      FirstPhase(before, after), MiddlePhases(before, after), PlanChannelRemovals(before, after);
    var added := AddedIn(Filter(Plan(before, after), see));
    PlanPhases(before, after);
    FilterConcat(first, middle, see);
    FilterConcat(first + middle, last, see);
    RetainConcat(Filter(first, see), Filter(middle, see), added);
    RetainConcat(Filter(first, see) + Filter(middle, see), Filter(last, see), added);
    RetainCreations(Ordered(Arriving(before, after, Sorted(after.channels.Keys)), before.channels.Keys), see, added);
    RetainWithdrawals(before, DeepestFirst(DepthTable(before.channels, Departing(before, after))), see, added);
  }

  /** A channel is withdrawn from an observer exactly when it was visible and no longer is. */
  lemma RemovedMembers(before: ShardView, after: ShardView, see: ScopeSet, id: ChannelId)
    requires WellKeyed(before) && WellKeyed(after)
    ensures id in Removed(before, after, see) <==>
      id in Restrict(before, see).channels && id !in Restrict(after, see).channels
  {
    var e := ChannelElement(id);
    var full := Filter(Plan(before, after), see);
    var ids := DeepestFirst(DepthTable(before.channels, Departing(before, after)));
    PlanIsDelta(before, after);
    assert Delta(About(Plan(before, after), e), Look(before, e), Look(after, e));
    hide Plan, Filter, AddedIn, DeepestFirst, Selected, About, Delta, IsDelta, Sees;
    SelectedMembers(before, ids, see, AddedIn(full));
    AddedOn(full, e);
    FilterOn(Plan(before, after), see, e);
    VersionStep(About(Plan(before, after), e), Look(before, e), Look(after, e), see, Seen(see, Look(before, e)));
  }

  /** A channel the observer keeps or loses, just before phase P7. */
  lemma BeforeRemovals(before: ShardView, after: ShardView, see: ScopeSet, c2: Client, k: ChannelId)
    requires Travels(before, after, see)
    requires var head := Filter(FirstPhase(before, after), see) + ReceivedMiddle(before, after, see);
      c2 == Run(Show(Restrict(before, see)), head)
    requires k in c2.channels
    ensures k in Restrict(after, see).channels ==>
      c2.channels[k] == ShowChannel(after.channels[k]) && k !in Removed(before, after, see)
    ensures k !in Restrict(after, see).channels ==>
      k in Restrict(before, see).channels && c2.channels[k] == ShowChannel(before.channels[k])
  {
    hide Filter, FirstPhase, ReceivedMiddle, Removed, Run, Show, Restrict, Tree, ClosedView, ShowChannel, WellKeyed;
    RemovedMembers(before, after, see, k);
    if k in Restrict(after, see).channels {
      StaysInSight(before, after, see, c2, k);
    } else {
      GoesOutOfSight(before, after, see, c2, k);
    }
  }

  lemma StaysInSight(before: ShardView, after: ShardView, see: ScopeSet, c2: Client, k: ChannelId)
    requires WellKeyed(before) && WellKeyed(after)
    requires var head := Filter(FirstPhase(before, after), see) + ReceivedMiddle(before, after, see);
      c2 == Run(Show(Restrict(before, see)), head)
    requires k in c2.channels && k in Restrict(after, see).channels && k !in Removed(before, after, see)
    ensures c2.channels[k] == ShowChannel(after.channels[k])
  {
    hide Filter, FirstPhase, ReceivedMiddle, Removed, Run, Sees, ShowChannel, WellKeyed, Received;
    var rs := Removed(before, after, see);
    var head := Filter(FirstPhase(before, after), see) + ReceivedMiddle(before, after, see);
    ReceivedExact(before, after, see);
    ReceivedPhases(before, after, see);
    RunConcat(Show(Restrict(before, see)), head, PrivateWithdrawals(rs));
    RunRemovals(c2, rs);
    assert k in c2.channels - Elements(rs);
  }

  lemma GoesOutOfSight(before: ShardView, after: ShardView, see: ScopeSet, c2: Client, k: ChannelId)
    requires Travels(before, after, see)
    requires var head := Filter(FirstPhase(before, after), see) + ReceivedMiddle(before, after, see);
      c2 == Run(Show(Restrict(before, see)), head)
    requires k in c2.channels && k !in Restrict(after, see).channels
    ensures k in Restrict(before, see).channels && c2.channels[k] == ShowChannel(before.channels[k])
  {
    var head := Filter(FirstPhase(before, after), see) + ReceivedMiddle(before, after, see);
    HeadTouches(before, after, see);
    hide Filter, FirstPhase, ReceivedMiddle, Run, Sees, ShowChannel, WellKeyed, Tree, ClosedView;
    var c0 := Show(Restrict(before, see));
    Untouched(c0, head, ChannelElement(k));
    assert At(c2, ChannelElement(k)) == At(c0, ChannelElement(k));
  }

  lemma {:induction false} Untouched(c: Client, ops: seq<PlanOp>, e: ElementId)
    requires forall op | op in ops :: Target(op) != e
    ensures At(Run(c, ops), e) == At(c, e)
    decreases |ops|
  {
    if ops != [] {
      var n := |ops| - 1;
      assert ops == ops[..n] + [ops[n]];
      Untouched(c, ops[..n], e);
      ApplyAt(Run(c, ops[..n]), ops[n], e);
    }
  }

  /** The channels of phase P1, as the new view has them. */
  lemma CreatedMembers(before: ShardView, after: ShardView)
    requires WellKeyed(after)
    ensures var cs := Ordered(Arriving(before, after, Sorted(after.channels.Keys)), before.channels.Keys);
      && (forall ch | ch in cs :: ch.id in after.channels && after.channels[ch.id] == ch)
      && (forall id | id in after.channels && !SameChannel(before, after, id) :: id in Ids(cs))
  {
    hide Arriving, Ordered, Sorted, SameChannel;
    var keys := Sorted(after.channels.Keys);
    var arriving := Arriving(before, after, keys);
    ArrivingMembers(before, after, keys);
    OrderedMembers(arriving, before.channels.Keys);
    forall id | id in after.channels && !SameChannel(before, after, id) ensures id in Ids(arriving) {
      assert after.channels[id] in arriving;
    }
  }

  lemma {:induction false} CreationMembers(cs: seq<Channel>)
    ensures forall q | q in Creations(cs) :: q.op.CreateChannel? && q.op.channel in cs && q.scope == q.op.channel.scope
  {
    if cs != [] {
      CreationMembers(cs[..|cs| - 1]);
      assert cs == cs[..|cs| - 1] + [cs[|cs| - 1]];
    }
  }

  lemma {:induction false} GatherTouches(p: Phase, before: ShardView, after: ShardView, keys: seq<nat>)
    requires WellKeyed(after)
    ensures forall q | q in Gather(p, before, after, keys) && Target(q.op).ChannelElement? ::
      Target(q.op).id in after.channels && after.channels[Target(q.op).id].scope == q.scope
  {
    if keys != [] {
      var n := |keys| - 1;
      GatherTouches(p, before, after, keys[..n]);
      ContributionTouches(p, before, after, keys[n]);
      hide Contribution, WellKeyed;
    }
  }

  lemma ContributionTouches(p: Phase, before: ShardView, after: ShardView, key: nat)
    requires WellKeyed(after)
    ensures forall q | q in Contribution(p, before, after, key) && Target(q.op).ChannelElement? ::
      Target(q.op).id in after.channels && after.channels[Target(q.op).id].scope == q.scope
  {
  }

  lemma MiddleTouches(before: ShardView, after: ShardView)
    requires WellKeyed(after)
    ensures forall q | q in MiddlePhases(before, after) && Target(q.op).ChannelElement? ::
      Target(q.op).id in after.channels && after.channels[Target(q.op).id].scope == q.scope
  {
    hide Gather, Sorted, WellKeyed;
    var channels, users := Sorted(after.channels.Keys), Sorted(after.users.Keys);
    GatherTouches(UpdateChannels, before, after, channels);
    GatherTouches(AddUsers, before, after, users);
    GatherTouches(MoveUsers, before, after, users);
    GatherTouches(UpdateUsers, before, after, users);
    GatherTouches(RehomeUsers, before, after, users);
    GatherTouches(DropUsers, before, after, Sorted(before.users.Keys));
  }

  /** Before phase P7 an observer only hears about channels it will see. */
  lemma HeadTouches(before: ShardView, after: ShardView, see: ScopeSet)
    requires WellKeyed(before) && WellKeyed(after)
    ensures forall op | op in Filter(FirstPhase(before, after), see) + ReceivedMiddle(before, after, see) ::
      Target(op).ChannelElement? ==> Target(op).id in Restrict(after, see).channels
  {
    hide Filter, MiddlePhases, Creations, Retain, AddedIn, Plan, WellKeyed, Ordered, Arriving, Sees;
    var first, middle := FirstPhase(before, after), MiddlePhases(before, after);
    var cs := Ordered(Arriving(before, after, Sorted(after.channels.Keys)), before.channels.Keys);
    CreatedMembers(before, after);
    CreationMembers(cs);
    MiddleTouches(before, after);
    FilterMembers(first, see);
    FilterMembers(middle, see);
    RetainMembers(Filter(middle, see), AddedIn(Filter(Plan(before, after), see)));
    forall op | op in Filter(first, see) + ReceivedMiddle(before, after, see) && Target(op).ChannelElement?
      ensures Target(op).id in Restrict(after, see).channels
    {
      if op in Filter(first, see) {
        var q :| q in first && q.op == op && Sees(see, q.scope);
      } else {
        var q :| q in middle && q.op == op && Sees(see, q.scope);
      }
    }
  }

  /** Everything but the last phase is safe, and leaves the observer holding every channel of its target. */
  lemma HeadSafe(before: ShardView, after: ShardView, see: ScopeSet)
    requires Travels(before, after, see) && RevealedFirst(before, after, see)
    ensures SafeRun(Show(Restrict(before, see)),
                    Filter(FirstPhase(before, after), see) + ReceivedMiddle(before, after, see))
  {
    hide Filter, MiddlePhases, Creations, Retain, AddedIn, Plan, WellKeyed, Ordered, Arriving, Sees, SafeRun, Run;
    hide ClosedView, Ranked, UnseenFirst, Harmless, Anchored, ParentsFirst, VisibleIds, Ids, SameChannel, Sorted;
    var c0 := Show(Restrict(before, see));
    var k := Restrict(after, see).channels.Keys;
    var rank :| Ranked(after, rank);
    var arriving := Arriving(before, after, Sorted(after.channels.Keys));
    var cs := Ordered(arriving, before.channels.Keys);
    ArrivingAnchored(before, after, rank);
    OrderedParentsFirst(arriving, before.channels.Keys, rank);
    CreatedMembers(before, after);
    CreationsSafe(before, after, see, cs, c0);
    var c1 := Run(c0, Filter(FirstPhase(before, after), see));
    TargetHeld(before, after, see, cs, c1.channels.Keys);
    var middle := ReceivedMiddle(before, after, see);
    MiddleOpsHarmless(before, after, see);
    HarmlessRun(c1, middle, k);
    SafeConcat(c0, Filter(FirstPhase(before, after), see), middle);
  }

  lemma TargetHeld(before: ShardView, after: ShardView, see: ScopeSet, cs: seq<Channel>, held: set<ChannelId>)
    requires forall ch | ch in cs :: ch.id in after.channels && after.channels[ch.id] == ch
    requires forall id | id in after.channels && !SameChannel(before, after, id) :: id in Ids(cs)
    requires held == Restrict(before, see).channels.Keys + VisibleIds(cs, see)
    ensures Restrict(after, see).channels.Keys <= held
  {
    hide Sees;
    forall id | id in Restrict(after, see).channels.Keys ensures id in held {
      if !SameChannel(before, after, id) {
        assert id in Ids(cs);
        assert after.channels[id] in cs;
      }
    }
  }

  lemma MiddleOpsHarmless(before: ShardView, after: ShardView, see: ScopeSet)
    requires ClosedView(Restrict(after, see))
    ensures forall op | op in ReceivedMiddle(before, after, see) :: Harmless(op, Restrict(after, see).channels.Keys)
  {
    hide Filter, MiddlePhases, Retain, AddedIn, Plan, Sees, ClosedView, Harmless, Restrict;
    var middle := MiddlePhases(before, after);
    MiddleHarmless(before, after, see);
    FilterMembers(middle, see);
    RetainMembers(Filter(middle, see), AddedIn(Filter(Plan(before, after), see)));
    forall op | op in ReceivedMiddle(before, after, see) ensures Harmless(op, Restrict(after, see).channels.Keys) {
      var q :| q in middle && q.op == op && Sees(see, q.scope);
    }
  }

  lemma RemovedOrdered(before: ShardView, after: ShardView, see: ScopeSet)
    ensures var rs := Removed(before, after, see);
      && (forall k | k in rs :: k in before.channels)
      && (forall i, j | 0 <= i < j < |rs| ::
            DepthFrom(before.channels, rs[i], {}) >= DepthFrom(before.channels, rs[j], {}))
  {
    hide DeepestFirst, Plan, Filter, AddedIn, Selected, DepthFrom, Departs;
    var depth := DepthTable(before.channels, Departing(before, after));
    var ids := DeepestFirst(depth);
    forall i, j | 0 <= i < j < |ids| ensures depth[ids[i]] >= depth[ids[j]] {
      DeepestFirstOrdered(depth, i, j);
    }
    SelectedOrdered(before, ids, see, AddedIn(Filter(Plan(before, after), see)), depth);
    var rs := Removed(before, after, see);
    forall i | 0 <= i < |rs| ensures depth[rs[i]] == DepthFrom(before.channels, rs[i], {}) {
      assert rs[i] in rs && rs[i] in ids;
    }
  }

  lemma TailSafe(before: ShardView, after: ShardView, see: ScopeSet, c2: Client)
    requires Travels(before, after, see)
    requires var head := Filter(FirstPhase(before, after), see) + ReceivedMiddle(before, after, see);
      c2 == Run(Show(Restrict(before, see)), head)
    ensures LeavesFirst(c2, Removed(before, after, see))
  {
    hide Filter, MiddlePhases, Creations, Retain, AddedIn, Plan, WellKeyed, Ordered, Arriving, Sees, SafeRun, Run;
    hide ClosedView, Ranked, Selected, Removed, PrivateWithdrawals, ReceivedMiddle, FirstPhase, DepthFrom;
    var rs := Removed(before, after, see);
    forall s | s in c2.users ensures c2.users[s].channel !in rs {
      UsersSettled(before, after, see, c2);
      ClosedAt(after, see, s);
      RemovedMembers(before, after, see, c2.users[s].channel);
    }
    forall k, i | k in c2.channels && 0 <= i < |rs| && k != rs[i] && c2.channels[k].parent == rs[i]
      ensures k in rs[..i]
    {
      ChildLeavesFirst(before, after, see, c2, k, i);
    }
  }

  lemma UsersSettled(before: ShardView, after: ShardView, see: ScopeSet, c2: Client)
    requires WellKeyed(before) && WellKeyed(after)
    requires var head := Filter(FirstPhase(before, after), see) + ReceivedMiddle(before, after, see);
      c2 == Run(Show(Restrict(before, see)), head)
    ensures c2.users == Show(Restrict(after, see)).users
  {
    hide Filter, MiddlePhases, Creations, Plan, WellKeyed, Run, Selected, PrivateWithdrawals, Removed, ReceivedMiddle;
    hide FirstPhase, Received, Show;
    var head := Filter(FirstPhase(before, after), see) + ReceivedMiddle(before, after, see);
    var rs := Removed(before, after, see);
    ReceivedExact(before, after, see);
    ReceivedPhases(before, after, see);
    RunConcat(Show(Restrict(before, see)), head, PrivateWithdrawals(rs));
    RunRemovals(c2, rs);
  }

  lemma ChildLeavesFirst(before: ShardView, after: ShardView, see: ScopeSet, c2: Client, k: ChannelId, i: nat)
    requires Travels(before, after, see)
    requires var head := Filter(FirstPhase(before, after), see) + ReceivedMiddle(before, after, see);
      c2 == Run(Show(Restrict(before, see)), head)
    requires var rs := Removed(before, after, see);
      k in c2.channels && i < |rs| && k != rs[i] && c2.channels[k].parent == rs[i]
    ensures k in Removed(before, after, see)[..i]
  {
    hide Filter, MiddlePhases, Creations, Plan, WellKeyed, Sees, Run, ClosedView, Selected, Removed, PrivateWithdrawals;
    hide ReceivedMiddle, FirstPhase, DepthFrom;
    var rs := Removed(before, after, see);
    BeforeRemovals(before, after, see, c2, k);
    RemovedMembers(before, after, see, k);
    RemovedMembers(before, after, see, rs[i]);
    assert rs[i] in rs;
    if k in Restrict(after, see).channels {
      ClosedAt(after, see, k);
    } else {
      var j :| 0 <= j < |rs| && rs[j] == k;
      var rank :| Ranked(before, rank);
      RemovedOrdered(before, after, see);
      ChildIsDeeper(before, rank, k);
    }
  }

  /**
   Between two trees it sees closed parts of, the transition an observer receives is safe at
   every prefix exactly when every channel that arrives in sight below one the observer could not
   see has the greater identifier of the two, and the upper one is prompt.
   */
  lemma ReceivedSafe(before: ShardView, after: ShardView, see: ScopeSet)
    requires Travels(before, after, see)
    ensures SafeRun(Show(Restrict(before, see)), Received(before, after, see)) <==> RevealedInTime(before, after, see)
  {
    assert WellKeyed(after);
    hide RevealedFirst, RevealedInTime, SafeRun, Travels, Received, Show, Restrict, WellKeyed;
    RevealedFirstOnViews(before, after, see);
    if RevealedFirst(before, after, see) {
      RevealedFirstIsSafe(before, after, see);
    }
    if SafeRun(Show(Restrict(before, see)), Received(before, after, see)) {
      SafeIsRevealedFirst(before, after, see);
    }
  }

  lemma RevealedFirstIsSafe(before: ShardView, after: ShardView, see: ScopeSet)
    requires Travels(before, after, see) && RevealedFirst(before, after, see)
    ensures SafeRun(Show(Restrict(before, see)), Received(before, after, see))
  {
    hide Filter, MiddlePhases, Creations, Plan, WellKeyed, Sees, SafeRun, Run, ClosedView, Tree, RevealedFirst;
    hide Selected, Removed, PrivateWithdrawals, ReceivedMiddle, FirstPhase, LeavesFirst;
    var c0 := Show(Restrict(before, see));
    var head := Filter(FirstPhase(before, after), see) + ReceivedMiddle(before, after, see);
    var rs := Removed(before, after, see);
    HeadSafe(before, after, see);
    TailSafe(before, after, see, Run(c0, head));
    RemovalsSafe(Run(c0, head), rs);
    ReceivedPhases(before, after, see);
    SafeConcat(c0, head, PrivateWithdrawals(rs));
  }

  lemma SafeIsRevealedFirst(before: ShardView, after: ShardView, see: ScopeSet)
    requires Travels(before, after, see)
    requires SafeRun(Show(Restrict(before, see)), Received(before, after, see))
    ensures RevealedFirst(before, after, see)
  {
    hide Filter, Creations, Plan, WellKeyed, Ordered, Arriving, Sees, SafeRun, Run, ClosedView, Ranked, UnseenFirst;
    hide Anchored, ParentsFirst, VisibleIds, Ids, SameChannel, Sorted, PrivateWithdrawals, ReceivedMiddle, Removed;
    hide Received;
    var c0 := Show(Restrict(before, see));
    var rank :| Ranked(after, rank);
    var arriving := Arriving(before, after, Sorted(after.channels.Keys));
    ArrivingAnchored(before, after, rank);
    OrderedParentsFirst(arriving, before.channels.Keys, rank);
    CreatedMembers(before, after);
    CreationsSafe(before, after, see, Created(before, after), c0);
    ReceivedPhases(before, after, see);
    var rest := ReceivedMiddle(before, after, see) + PrivateWithdrawals(Removed(before, after, see));
    assert Received(before, after, see) == Filter(FirstPhase(before, after), see) + rest;
    SafePrefix(c0, Filter(FirstPhase(before, after), see), rest);
  }

  /** When nothing is revealed there is nothing to order. */
  lemma NoneRevealedSuffices(before: ShardView, after: ShardView, see: ScopeSet)
    requires Travels(before, after, see) && NoneRevealed(before, after, see)
    ensures RevealedInTime(before, after, see)
  {
    hide Sees, SameChannel, WellKeyed, Tree, ClosedView;
    forall id | id in after.channels && Sees(see, after.channels[id].scope)
      ensures !Unseen(before, see, after.channels[id].parent)
    {
      ClosedAt(after, see, id);
    }
  }

  // ---------------------------------------------------------------- the slow path

  lemma {:induction false} FilterAll(ops: seq<PlannedOp>)
    ensures Filter(ops, {ROOT_SCOPE}) == Bare(ops)
    decreases |ops|
  {
    if ops != [] {
      FilterAll(ops[..|ops| - 1]);
      RootSeesAll(ops[|ops| - 1].scope);
    }
  }

  lemma RestrictAll(v: ShardView)
    ensures Restrict(v, {ROOT_SCOPE}) == v
  {
    forall s: Scope ensures Sees({ROOT_SCOPE}, s) {
      RootSeesAll(s);
    }
  }

  /**
   The slow path: between any two closed trees the collapsed plan is exact, safe at every
   prefix, and leaves the client closed at every prefix.
   */
  lemma SlowPath(from: ShardView, to: ShardView)
    requires WellKeyed(from) && WellKeyed(to) && Tree(from) && Tree(to) && ClosedView(from) && ClosedView(to)
    ensures var ops := Collapse(Bare(Plan(from, to)));
      && Run(Show(from), ops) == Show(to)
      && SafeRun(Show(from), ops)
      && forall n | 0 <= n <= |ops| :: ClosedClient(Run(Show(from), ops[..n]))
  {
    var ops := Collapse(Bare(Plan(from, to)));
    hide Filter, Plan, WellKeyed, SafeRun, Run, ClosedView, Tree, Collapse, Restrict, Bare;
    FilterAll(Plan(from, to));
    RestrictAll(from);
    RestrictAll(to);
    ReceivedExact(from, to, {ROOT_SCOPE});
    SlowPathTravels(from, to);
    NoneRevealedSuffices(from, to, {ROOT_SCOPE});
    ReceivedSafe(from, to, {ROOT_SCOPE});
    ShownClosed(from);
    forall n | 0 <= n <= |ops| ensures ClosedClient(Run(Show(from), ops[..n])) {
      SafeRunKeepsClosed(Show(from), ops, n);
    }
  }

  lemma SlowPathTravels(from: ShardView, to: ShardView)
    requires WellKeyed(from) && WellKeyed(to) && Tree(from) && Tree(to) && ClosedView(from) && ClosedView(to)
    ensures Travels(from, to, {ROOT_SCOPE}) && NoneRevealed(from, to, {ROOT_SCOPE})
  {
    hide WellKeyed, Tree, ClosedView, Sees, Restrict;
    RestrictAll(from);
    RestrictAll(to);
    forall s: Scope ensures Sees({ROOT_SCOPE}, s) {
      RootSeesAll(s);
    }
  }

  lemma ShownClosed(v: ShardView)
    requires ClosedView(v)
    ensures ClosedClient(Show(v))
  {
  }
}
