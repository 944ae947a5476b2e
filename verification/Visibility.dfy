/**
 The render's audio check: every route must land on a receiver that can see the sender. The
 check counts senders per scope instead of visiting pairs; it is related here to the pairwise
 statement it stands for.
 */
module Visibility {
  import opened Collections
  import opened Scopes
  import opened Views
  import opened Routing

  type SharedScopes = map<ConnectionId, Scope>
  type Privately = map<ConnectionId, set<ConnectionId>>

  /** What decides who sees whom. */
  datatype Sight = Sight(shared: SharedScopes, privately: Privately, observations: Observations)

  /** An audio pair whose receiver cannot see the sender. */
  datatype Blind = Blind(sender: ConnectionId, receiver: ConnectionId)

  predicate SeesPrivately(sight: Sight, receiver: ConnectionId, sender: ConnectionId) {
    receiver in sight.privately && sender in sight.privately[receiver]
  }

  /** The pairwise question: through the receiver's overlay, or through the shared view. */
  predicate CanSee(sight: Sight, receiver: ConnectionId, sender: ConnectionId) {
    SeesPrivately(sight, receiver, sender)
    || (sender in sight.shared && Sees(Observed(sight.observations, receiver), sight.shared[sender]))
  }

  /** Nobody rendered in the shared view is also in somebody's overlay. */
  ghost predicate SharedXorPrivate(sight: Sight) {
    forall r, s | r in sight.privately && s in sight.privately[r] :: s !in sight.shared
  }

  // ---------------------------------------------------------------- one group, counted

  /** The question the counting check asks of one pair: a shared sender only through the shared view. */
  predicate GroupSees(sight: Sight, receiver: ConnectionId, sender: ConnectionId) {
    if sender in sight.shared then Sees(Observed(sight.observations, receiver), sight.shared[sender])
    else SeesPrivately(sight, receiver, sender)
  }

  function At(sight: Sight, senders: set<ConnectionId>, scope: Scope): set<ConnectionId> {
    set s | s in senders && s in sight.shared && sight.shared[s] == scope
  }

  /** The pair the count overlooks: an outsider and the only sender at the outsider's own scope. */
  ghost predicate Overlooked(sight: Sight, senders: set<ConnectionId>, receiver: ConnectionId, sender: ConnectionId) {
    && receiver !in senders
    && receiver in sight.shared && sender in sight.shared
    && sight.shared[receiver] == sight.shared[sender]
    && At(sight, senders, sight.shared[sender]) == {sender}
  }

  ghost predicate Counted(sight: Sight, senders: set<ConnectionId>, receiver: ConnectionId) {
    forall s | s in senders && s != receiver :: GroupSees(sight, receiver, s) || Overlooked(sight, senders, receiver, s)
  }

  /** How many senders at `scope` oblige this receiver to see it. */
  function Obliging(sight: Sight, count: nat, receiver: ConnectionId, scope: Scope): nat {
    if receiver in sight.shared && sight.shared[receiver] == scope then (if count == 0 then 0 else count - 1) else count
  }

  lemma TwoOrMore(s: set<ConnectionId>, x: ConnectionId)
    requires x in s
    ensures |s| == 1 <==> s == {x}
    ensures |s| > 1 ==> exists y :: y in s && y != x
  {
    if |s| > 1 {
      var rest := s - {x};
      assert |rest| > 0;
      var y :| y in rest;
    }
    assert |s| == |s - {x}| + 1;
    if |s| == 1 {
      assert s - {x} == {};
    }
  }

  /** Somebody at the scope obliges the receiver exactly when another sender there is not overlooked. */
  lemma ObligingMeans(sight: Sight, senders: set<ConnectionId>, receiver: ConnectionId, scope: Scope)
    ensures Obliging(sight, |At(sight, senders, scope)|, receiver, scope) > 0 <==>
            exists s :: s in At(sight, senders, scope) && s != receiver && !Overlooked(sight, senders, receiver, s)
  {
    var at := At(sight, senders, scope);
    if at != {} {
      var x :| x in at;
      TwoOrMore(at, x);
      if receiver in at {
        TwoOrMore(at, receiver);
      }
      if receiver in sight.shared && sight.shared[receiver] == scope {
        if |at| > 1 && receiver !in at {
          assert !Overlooked(sight, senders, receiver, x);
        }
      } else {
        assert x != receiver && !Overlooked(sight, senders, receiver, x);
      }
    }
  }

  /** The senders at each scope, counted, with no entry for an empty scope. */
  ghost predicate Tally(sight: Sight, senders: set<ConnectionId>, perScope: map<Scope, nat>) {
    && (forall scope :: scope in perScope <==> At(sight, senders, scope) != {})
    && (forall scope | scope in perScope :: perScope[scope] == |At(sight, senders, scope)|)
  }

  lemma NextAt(sight: Sight, senders: set<ConnectionId>, sender: ConnectionId, scope: Scope)
    requires sender !in senders
    ensures At(sight, senders + {sender}, scope) ==
      if sender in sight.shared && sight.shared[sender] == scope then At(sight, senders, scope) + {sender}
        else At(sight, senders, scope)
  {
  }

  lemma TallyNext(sight: Sight, senders: set<ConnectionId>, sender: ConnectionId, perScope: map<Scope, nat>)
    requires Tally(sight, senders, perScope) && sender !in senders
    ensures sender !in sight.shared ==> Tally(sight, senders + {sender}, perScope)
    ensures sender in sight.shared ==>
      var scope := sight.shared[sender];
      Tally(sight, senders + {sender}, perScope[scope := (if scope in perScope then perScope[scope] else 0) + 1])
  {
    forall scope: Scope ensures At(sight, senders + {sender}, scope) ==
      if sender in sight.shared && sight.shared[sender] == scope then At(sight, senders, scope) + {sender}
        else At(sight, senders, scope)
    {
      NextAt(sight, senders, sender, scope);
    }
    if sender in sight.shared {
      assert sender !in At(sight, senders, sight.shared[sender]);
    }
  }

  /** Senders by the scope they occupy, and those the shared view does not carry. */
  method GroupByScope(sight: Sight, senders: set<ConnectionId>)
    returns (perScope: map<Scope, nat>, hidden: seq<ConnectionId>)
    ensures Tally(sight, senders, perScope)
    ensures forall s :: s in hidden <==> s in senders && s !in sight.shared
  {
    perScope, hidden := map[], [];
    var keys := Sorted(senders);
    ghost var done: set<ConnectionId> := {};
    assert Tally(sight, done, perScope);
    hide At, Tally;
    for i := 0 to |keys|
      invariant forall s :: s in done <==> s in keys[..i]
      invariant Tally(sight, done, perScope)
      invariant forall s :: s in hidden <==> s in done && s !in sight.shared
    {
      var sender := keys[i];
      assert sender !in done;
      TallyNext(sight, done, sender, perScope);
      if sender in sight.shared {
        var scope := sight.shared[sender];
        perScope := perScope[scope := (if scope in perScope then perScope[scope] else 0) + 1];
      } else {
        hidden := hidden + [sender];
      }
      done := done + {sender};
    }
    assert done == senders;
  }

  /** A sender at `scope` other than the receiver, for the error to name. */
  method Representative(sight: Sight, senders: set<ConnectionId>, scope: Scope, receiver: ConnectionId)
    returns (found: ConnectionId)
    ensures (exists s :: s in At(sight, senders, scope) && s != receiver) ==>
      found in At(sight, senders, scope) && found != receiver
    ensures (forall s | s in At(sight, senders, scope) :: s == receiver) ==> found == receiver
  {
    var keys := Sorted(senders);
    for i := 0 to |keys|
      invariant forall k | 0 <= k < i :: keys[k] == receiver || keys[k] !in At(sight, senders, scope)
    {
      assert keys[i] in senders;
      if keys[i] != receiver && keys[i] in sight.shared && sight.shared[keys[i]] == scope {
        return keys[i];
      }
    }
    found := receiver;
    forall s | s in At(sight, senders, scope) ensures s == receiver {
      assert s in keys;
    }
  }

  /** The scopes one receiver must see. */
  method CheckScopes(sight: Sight, senders: set<ConnectionId>, perScope: map<Scope, nat>, receiver: ConnectionId)
    returns (r: Option<Blind>)
    requires Tally(sight, senders, perScope)
    ensures r.None? <==> forall s | s in senders && s in sight.shared && s != receiver ::
      GroupSees(sight, receiver, s) || Overlooked(sight, senders, receiver, s)
    ensures r.Some? ==> r.value.receiver == receiver && r.value.sender in senders && r.value.sender != receiver
                        && !GroupSees(sight, receiver, r.value.sender)
  {
    var see := Observed(sight.observations, receiver);
    var todo := perScope.Keys;
    while todo != {}
      invariant todo <= perScope.Keys
      invariant forall scope | scope in perScope.Keys - todo ::
        Obliging(sight, perScope[scope], receiver, scope) > 0 ==> Sees(see, scope)
      decreases |todo|
    {
      var scope: Scope :| scope in todo;
      ObligingMeans(sight, senders, receiver, scope);
      if Obliging(sight, perScope[scope], receiver, scope) > 0 && !Sees(see, scope) {
        var sender := Representative(sight, senders, scope, receiver);
        return Some(Blind(sender, receiver));
      }
      todo := todo - {scope};
    }
    r := None;
    forall s | s in senders && s in sight.shared && s != receiver
      ensures GroupSees(sight, receiver, s) || Overlooked(sight, senders, receiver, s)
    {
      assert s in At(sight, senders, sight.shared[s]);
      ObligingMeans(sight, senders, receiver, sight.shared[s]);
      assert sight.shared[s] in perScope.Keys - todo;
    }
  }

  method CheckGroup(sight: Sight, receivers: seq<ConnectionId>, senders: set<ConnectionId>) returns (r: Option<Blind>)
    ensures r.None? <==> forall c | c in receivers :: Counted(sight, senders, c)
    ensures r.Some? ==> r.value.receiver in receivers && r.value.sender in senders && r.value.sender != r.value.receiver
                        && !GroupSees(sight, r.value.receiver, r.value.sender)
  {
    hide Overlooked, GroupSees, At, Tally;
    var perScope, hidden := GroupByScope(sight, senders);
    for i := 0 to |receivers|
      invariant forall c | c in receivers[..i] :: Counted(sight, senders, c)
    {
      var receiver := receivers[i];
      r := CheckScopes(sight, senders, perScope, receiver);
      if r.Some? {
        assert !Counted(sight, senders, receiver) by { NotCounted(sight, senders, receiver); }
        return;
      }
      for k := 0 to |hidden|
        invariant forall s | s in hidden[..k] && s != receiver :: SeesPrivately(sight, receiver, s)
      {
        if hidden[k] != receiver && !SeesPrivately(sight, receiver, hidden[k]) {
          HiddenIsMissed(sight, senders, receiver, hidden[k]);
          return Some(Blind(hidden[k], receiver));
        }
      }
      assert hidden[..|hidden|] == hidden;
      AllCounted(sight, senders, receiver, hidden);
    }
    r := None;
    assert receivers[..|receivers|] == receivers;
  }

  lemma NotCounted(sight: Sight, senders: set<ConnectionId>, receiver: ConnectionId)
    requires !forall s | s in senders && s in sight.shared && s != receiver ::
      GroupSees(sight, receiver, s) || Overlooked(sight, senders, receiver, s)
    ensures !Counted(sight, senders, receiver)
  {
  }

  lemma HiddenIsMissed(sight: Sight, senders: set<ConnectionId>, receiver: ConnectionId, s: ConnectionId)
    requires s in senders && s !in sight.shared && s != receiver && !SeesPrivately(sight, receiver, s)
    ensures !GroupSees(sight, receiver, s) && !Counted(sight, senders, receiver)
  {
  }

  lemma AllCounted(sight: Sight, senders: set<ConnectionId>, receiver: ConnectionId, hidden: seq<ConnectionId>)
    requires forall s | s in senders && s in sight.shared && s != receiver ::
      GroupSees(sight, receiver, s) || Overlooked(sight, senders, receiver, s)
    requires forall s :: s in hidden <==> s in senders && s !in sight.shared
    requires forall s | s in hidden && s != receiver :: SeesPrivately(sight, receiver, s)
    ensures Counted(sight, senders, receiver)
  {
    forall s | s in senders && s != receiver
      ensures GroupSees(sight, receiver, s) || Overlooked(sight, senders, receiver, s)
    {
      if s !in sight.shared {
        assert s in hidden;
      }
    }
  }

  // ---------------------------------------------------------------- the whole relation

  ghost predicate DomainsCounted(rel: AudioRelation, sight: Sight) {
    forall d, c | d in rel.domains && c in rel.domains[d] :: Counted(sight, rel.domains[d], c)
  }

  ghost predicate ListenersCounted(rel: AudioRelation, sight: Sight) {
    forall p | p in rel.listeners && p.1 in rel.domains :: Counted(sight, rel.domains[p.1], p.0)
  }

  ghost predicate EdgesSeen(rel: AudioRelation, sight: Sight) {
    forall e | e in rel.edges :: CanSee(sight, e.1, e.0)
  }

  ghost predicate Accepts(rel: AudioRelation, sight: Sight) {
    DomainsCounted(rel, sight) && ListenersCounted(rel, sight) && EdgesSeen(rel, sight)
  }

  lemma GroupSeesIsCanSee(sight: Sight, receiver: ConnectionId, sender: ConnectionId)
    requires SharedXorPrivate(sight)
    ensures GroupSees(sight, receiver, sender) <==> CanSee(sight, receiver, sender)
  {
  }

  /** The render's third closing check. */
  method CheckReceiversSeeSenders(rel: AudioRelation, sight: Sight) returns (r: Option<Blind>)
    ensures r.None? <==> Accepts(rel, sight)
    ensures r.Some? ==> Edge(rel, r.value.sender, r.value.receiver)
    ensures r.Some? && SharedXorPrivate(sight) ==> !CanSee(sight, r.value.receiver, r.value.sender)
  {
    hide Counted, GroupSees, CanSee, SharedXorPrivate;
    r := CheckDomains(rel, sight);
    if r.Some? {
      if SharedXorPrivate(sight) {
        GroupSeesIsCanSee(sight, r.value.receiver, r.value.sender);
      }
      return;
    }
    r := CheckListeners(rel, sight);
    if r.Some? {
      if SharedXorPrivate(sight) {
        GroupSeesIsCanSee(sight, r.value.receiver, r.value.sender);
      }
      return;
    }
    var todo := rel.edges;
    while todo != {}
      invariant todo <= rel.edges
      invariant forall e | e in rel.edges - todo :: CanSee(sight, e.1, e.0)
      decreases |todo|
    {
      var e :| e in todo;
      if !CanSee(sight, e.1, e.0) {
        return Some(Blind(e.0, e.1));
      }
      todo := todo - {e};
    }
    assert rel.edges - {} == rel.edges;
    r := None;
  }

  method CheckDomains(rel: AudioRelation, sight: Sight) returns (r: Option<Blind>)
    ensures r.None? <==> DomainsCounted(rel, sight)
    ensures r.Some? ==>
      Edge(rel, r.value.sender, r.value.receiver) && !GroupSees(sight, r.value.receiver, r.value.sender)
  {
    hide Counted, GroupSees;
    var keys := Sorted(rel.domains.Keys);
    for i := 0 to |keys|
      invariant forall k, c | 0 <= k < i && keys[k] in rel.domains && c in rel.domains[keys[k]] ::
        Counted(sight, rel.domains[keys[k]], c)
    {
      var d := keys[i];
      assert d in rel.domains.Keys;
      r := CheckGroup(sight, Sorted(rel.domains[d]), rel.domains[d]);
      if r.Some? {
        assert Within(rel, d, r.value.sender, r.value.receiver);
        return;
      }
    }
    r := None;
    forall d, c | d in rel.domains && c in rel.domains[d] ensures Counted(sight, rel.domains[d], c) {
      assert d in keys;
    }
  }

  method CheckListeners(rel: AudioRelation, sight: Sight) returns (r: Option<Blind>)
    ensures r.None? <==> ListenersCounted(rel, sight)
    ensures r.Some? ==>
      Edge(rel, r.value.sender, r.value.receiver) && !GroupSees(sight, r.value.receiver, r.value.sender)
  {
    hide Counted, GroupSees;
    var todo := rel.listeners;
    while todo != {}
      invariant todo <= rel.listeners
      invariant forall p | p in rel.listeners - todo && p.1 in rel.domains :: Counted(sight, rel.domains[p.1], p.0)
      decreases |todo|
    {
      var p :| p in todo;
      if p.1 in rel.domains {
        r := CheckGroup(sight, [p.0], rel.domains[p.1]);
        assert p.0 in [p.0];
        if r.Some? {
          assert Within(rel, p.1, r.value.sender, r.value.receiver);
          return;
        }
      }
      todo := todo - {p};
    }
    r := None;
    assert rel.listeners - {} == rel.listeners;
  }

  // ---------------------------------------------------------------- counting against pairs

  /** Every edge of the relation lands on a receiver that can see the sender. */
  ghost predicate AllSeen(rel: AudioRelation, sight: Sight) {
    forall s: ConnectionId, r: ConnectionId | Edge(rel, s, r) :: CanSee(sight, r, s)
  }

  /** No listener from outside its domain fails to see the only member at the listener's own scope. */
  ghost predicate NoBlindSpot(rel: AudioRelation, sight: Sight) {
    forall p, s | p in rel.listeners && p.1 in rel.domains && s in rel.domains[p.1]
      && Overlooked(sight, rel.domains[p.1], p.0, s) ::
      CanSee(sight, p.0, s)
  }

  /** The counting check, plus the one pair it overlooks, is the pairwise check. */
  lemma CountingIsPairwise(rel: AudioRelation, sight: Sight)
    requires SharedXorPrivate(sight)
    ensures AllSeen(rel, sight) <==> Accepts(rel, sight) && NoBlindSpot(rel, sight)
  {
    if AllSeen(rel, sight) {
      PairwiseAccepts(rel, sight);
    }
    if Accepts(rel, sight) && NoBlindSpot(rel, sight) {
      AcceptedSees(rel, sight);
    }
  }

  lemma PairwiseAccepts(rel: AudioRelation, sight: Sight)
    requires SharedXorPrivate(sight) && AllSeen(rel, sight)
    ensures Accepts(rel, sight) && NoBlindSpot(rel, sight)
  {
    hide CanSee, GroupSees, Overlooked, SharedXorPrivate;
    forall d: DomainId, r: ConnectionId, s: ConnectionId | Within(rel, d, s, r)
      ensures CanSee(sight, r, s) && GroupSees(sight, r, s)
    {
      assert Edge(rel, s, r);
      GroupSeesIsCanSee(sight, r, s);
    }
    forall d, c | d in rel.domains && c in rel.domains[d] ensures Counted(sight, rel.domains[d], c) {
      forall s | s in rel.domains[d] && s != c ensures GroupSees(sight, c, s) {
        assert Within(rel, d, s, c);
      }
    }
    forall p | p in rel.listeners && p.1 in rel.domains ensures Counted(sight, rel.domains[p.1], p.0) {
      forall s | s in rel.domains[p.1] && s != p.0 ensures GroupSees(sight, p.0, s) {
        assert Within(rel, p.1, s, p.0);
      }
    }
    forall e | e in rel.edges ensures CanSee(sight, e.1, e.0) {
      assert Edge(rel, e.0, e.1);
    }
    forall p, s | p in rel.listeners && p.1 in rel.domains && s in rel.domains[p.1]
      && Overlooked(sight, rel.domains[p.1], p.0, s)
      ensures CanSee(sight, p.0, s)
    {
      OverlookedIsOther(sight, rel.domains[p.1], p.0, s);
      assert Within(rel, p.1, s, p.0);
    }
  }

  lemma OverlookedIsOther(sight: Sight, senders: set<ConnectionId>, receiver: ConnectionId, sender: ConnectionId)
    requires Overlooked(sight, senders, receiver, sender)
    ensures sender in senders && sender != receiver && receiver !in senders
  {
    assert sender in At(sight, senders, sight.shared[sender]);
  }

  lemma AcceptedSees(rel: AudioRelation, sight: Sight)
    requires SharedXorPrivate(sight) && Accepts(rel, sight) && NoBlindSpot(rel, sight)
    ensures AllSeen(rel, sight)
  {
    hide CanSee, GroupSees, Overlooked, SharedXorPrivate;
    forall s: ConnectionId, r: ConnectionId | Edge(rel, s, r) ensures CanSee(sight, r, s) {
      if (s, r) in rel.edges {
        assert CanSee(sight, (s, r).1, (s, r).0);
      } else {
        var d: DomainId :| Within(rel, d, s, r);
        GroupSeesIsCanSee(sight, r, s);
        if r in rel.domains[d] {
          assert Counted(sight, rel.domains[d], r);
          if Overlooked(sight, rel.domains[d], r, s) {
            OverlookedIsOther(sight, rel.domains[d], r, s);
          }
        } else {
          var p := (r, d);
          assert p in rel.listeners && Counted(sight, rel.domains[p.1], p.0);
        }
      }
    }
  }

  /** Listeners that observe the scope they are rendered at leave no blind spot. */
  lemma ObservingOwnScopeSuffices(rel: AudioRelation, sight: Sight)
    requires SharedXorPrivate(sight)
    requires forall p | p in rel.listeners && p.1 in rel.domains && p.0 !in rel.domains[p.1] && p.0 in sight.shared ::
      Sees(Observed(sight.observations, p.0), sight.shared[p.0])
    ensures AllSeen(rel, sight) <==> Accepts(rel, sight)
  {
    assert NoBlindSpot(rel, sight);
    CountingIsPairwise(rel, sight);
  }
}
