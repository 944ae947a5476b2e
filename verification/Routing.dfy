/**
 The audio relation a render declares, and the table compiled from it for the voice plane.
 `Edge` is the relation's meaning; `Resolve` materialises it pair by pair, and `Compile`
 writes the receiver lists without ever forming it.
 */
module Routing {
  import opened Collections
  import opened Views

  type DomainId = nat

  datatype AudioRelation = AudioRelation(
    domains: map<DomainId, set<ConnectionId>>,
    listeners: set<(ConnectionId, DomainId)>,
    edges: set<(ConnectionId, ConnectionId)>)

  const NO_AUDIO := AudioRelation(map[], {}, {})

  // ---------------------------------------------------------------- meaning

  /** Two members of one domain, or somebody listening to it and a member. */
  predicate Within(rel: AudioRelation, domain: DomainId, sender: ConnectionId, receiver: ConnectionId) {
    && domain in rel.domains
    && sender in rel.domains[domain]
    && sender != receiver
    && (receiver in rel.domains[domain] || (receiver, domain) in rel.listeners)
  }

  ghost predicate Edge(rel: AudioRelation, sender: ConnectionId, receiver: ConnectionId) {
    (sender, receiver) in rel.edges || exists domain :: Within(rel, domain, sender, receiver)
  }

  // ---------------------------------------------------------------- declaring

  function Domain(rel: AudioRelation, domain: DomainId, members: seq<ConnectionId>): AudioRelation {
    var already := if domain in rel.domains then rel.domains[domain] else {};
    rel.(domains := rel.domains[domain := already + set m | m in members])
  }

  function Listen(rel: AudioRelation, listener: ConnectionId, domain: DomainId): AudioRelation {
    rel.(listeners := rel.listeners + {(listener, domain)})
  }

  function Link(rel: AudioRelation, sender: ConnectionId, receiver: ConnectionId): AudioRelation {
    rel.(edges := rel.edges + {(sender, receiver)})
  }

  function Members(rel: AudioRelation, domain: DomainId): set<ConnectionId> {
    if domain in rel.domains then rel.domains[domain] else {}
  }

  /** Before anything is declared nobody is heard; a declaration adds the pairs it names and takes none away. */
  lemma DeclaringOnlyAdds(
    rel: AudioRelation, domain: DomainId, members: seq<ConnectionId>, a: ConnectionId, b: ConnectionId,
    s: ConnectionId, r: ConnectionId)
    ensures !Edge(NO_AUDIO, s, r)
    ensures Edge(Link(rel, a, b), s, r) <==> Edge(rel, s, r) || (s, r) == (a, b)
    ensures Edge(Listen(rel, a, domain), s, r) <==>
      Edge(rel, s, r) || (r == a && s != a && s in Members(rel, domain))
    ensures Edge(Domain(rel, domain, members), s, r) <==>
      || Edge(rel, s, r)
      || (s != r && (s in members || s in Members(rel, domain))
          && (r in members || r in Members(rel, domain) || (r, domain) in rel.listeners))
  {
    var linked, joined, heard := Link(rel, a, b), Domain(rel, domain, members), Listen(rel, a, domain);
    forall d: DomainId ensures Within(linked, d, s, r) <==> Within(rel, d, s, r) {
    }
    forall d: DomainId ensures Within(rel, d, s, r) ==> Within(joined, d, s, r) && Within(heard, d, s, r) {
    }
    forall d: DomainId | d != domain
      ensures Within(joined, d, s, r) <==> Within(rel, d, s, r)
      ensures Within(heard, d, s, r) <==> Within(rel, d, s, r)
    {
    }
    assert Edge(joined, s, r) <==> Edge(rel, s, r) || Within(joined, domain, s, r);
    assert Edge(heard, s, r) <==> Edge(rel, s, r) || Within(heard, domain, s, r);
  }

  // ---------------------------------------------------------------- the definition, materialised

  predicate Mutual(rel: AudioRelation, d: DomainId, s: ConnectionId, r: ConnectionId) {
    d in rel.domains && s in rel.domains[d] && r in rel.domains[d] && s != r
  }

  predicate Heard(rel: AudioRelation, d: DomainId, s: ConnectionId, r: ConnectionId) {
    d in rel.domains && s in rel.domains[d] && s != r
  }

  lemma Split(rel: AudioRelation, s: ConnectionId, r: ConnectionId)
    ensures (exists d :: Within(rel, d, s, r)) <==>
      (exists d :: Mutual(rel, d, s, r)) || exists d | (r, d) in rel.listeners :: Heard(rel, d, s, r)
  {
    forall d: DomainId
      ensures Within(rel, d, s, r) <==> Mutual(rel, d, s, r) || ((r, d) in rel.listeners && Heard(rel, d, s, r))
    {
    }
  }

  method Resolve(rel: AudioRelation) returns (resolved: set<(ConnectionId, ConnectionId)>)
    ensures forall s: ConnectionId, r: ConnectionId :: (s, r) in resolved <==> Edge(rel, s, r)
  {
    resolved := rel.edges;
    var todo := rel.domains.Keys;
    while todo != {}
      invariant todo <= rel.domains.Keys
      invariant forall s: ConnectionId, r: ConnectionId ::
        (s, r) in resolved <==> (s, r) in rel.edges || exists d | d in rel.domains.Keys - todo :: Mutual(rel, d, s, r)
      decreases |todo|
    {
      var d :| d in todo;
      var members := rel.domains[d];
      ghost var done := rel.domains.Keys - todo;
      assert rel.domains.Keys - (todo - {d}) == done + {d};
      resolved := resolved + set s, r | s in members && r in members && s != r :: (s, r);
      todo := todo - {d};
    }
    var waiting := rel.listeners;
    while waiting != {}
      invariant waiting <= rel.listeners
      invariant forall s: ConnectionId, r: ConnectionId :: (s, r) in resolved <==>
        (s, r) in rel.edges || (exists d :: Mutual(rel, d, s, r)) || exists d | (r, d) in rel.listeners - waiting ::
          Heard(rel, d, s, r)
      decreases |waiting|
    {
      var p :| p in waiting;
      var (listener, d) := p;
      if d in rel.domains {
        resolved := resolved + set s | s in rel.domains[d] && s != listener :: (s, listener);
      }
      waiting := waiting - {p};
    }
    forall s: ConnectionId, r: ConnectionId
      ensures Edge(rel, s, r) <==>
        || (s, r) in rel.edges
        || (exists d :: Mutual(rel, d, s, r))
        || exists d | (r, d) in rel.listeners :: Heard(rel, d, s, r)
    {
      Split(rel, s, r);
    }
  }

  // ---------------------------------------------------------------- the compiled table

  datatype Silence = Silence(muted: set<SessionId>, deafened: set<SessionId>)

  predicate MaySpeak(silence: Silence, session: SessionId) {
    session !in silence.muted
  }

  predicate MayHear(silence: Silence, session: SessionId) {
    session !in silence.deafened
  }

  type Sessions = map<ConnectionId, SessionId>
  type Table = map<SessionId, seq<SessionId>>

  /**
   What the voice plane owes: the sender's connection reaches the receiver's, both are rendered,
   neither is silenced.
   */
  ghost predicate Route(rel: AudioRelation, sessionOf: Sessions, silence: Silence, s: SessionId, r: SessionId) {
    && MaySpeak(silence, s) && MayHear(silence, r)
    && exists from: ConnectionId, to: ConnectionId ::
         && Edge(rel, from, to)
         && from in sessionOf && sessionOf[from] == s
         && to in sessionOf && sessionOf[to] == r
  }

  predicate Has(table: Table, s: SessionId, r: SessionId) {
    s in table && r in table[s]
  }

  ghost predicate Present(members: set<ConnectionId>, sessionOf: Sessions, s: SessionId) {
    exists c | c in members && c in sessionOf :: sessionOf[c] == s
  }

  function Listeners(rel: AudioRelation, d: DomainId): set<ConnectionId> {
    set p | p in rel.listeners && p.1 == d :: p.0
  }

  /** A route that one domain gives rise to. */
  ghost predicate DomainRoute(
    rel: AudioRelation, sessionOf: Sessions, silence: Silence, d: DomainId, s: SessionId, r: SessionId)
  {
    && d in rel.domains
    && Present(rel.domains[d], sessionOf, s) && MaySpeak(silence, s)
    && s != r && MayHear(silence, r)
    && (Present(rel.domains[d], sessionOf, r) || Present(Listeners(rel, d), sessionOf, r))
  }

  ghost predicate Spelled(
    edges: set<(ConnectionId, ConnectionId)>, sessionOf: Sessions, silence: Silence, s: SessionId, r: SessionId)
  {
    && MaySpeak(silence, s) && MayHear(silence, r)
    && exists e | e in edges && e.0 in sessionOf && e.1 in sessionOf :: sessionOf[e.0] == s && sessionOf[e.1] == r
  }

  lemma DomainRouteIsRoute(
    rel: AudioRelation, sessionOf: Sessions, silence: Silence, d: DomainId, s: SessionId, r: SessionId)
    requires DomainRoute(rel, sessionOf, silence, d, s, r)
    ensures Route(rel, sessionOf, silence, s, r)
  {
    var from: ConnectionId :| from in rel.domains[d] && from in sessionOf && sessionOf[from] == s;
    var to: ConnectionId;
    if Present(rel.domains[d], sessionOf, r) {
      to :| to in rel.domains[d] && to in sessionOf && sessionOf[to] == r;
    } else {
      to :| to in Listeners(rel, d) && to in sessionOf && sessionOf[to] == r;
    }
    assert Within(rel, d, from, to);
  }

  /** With one session per connection, the routes are those of the domains and those spelled out. */
  lemma RouteSplit(rel: AudioRelation, sessionOf: Sessions, silence: Silence, s: SessionId, r: SessionId)
    requires OneToOne(sessionOf)
    ensures Route(rel, sessionOf, silence, s, r) <==>
            (exists d: DomainId :: DomainRoute(rel, sessionOf, silence, d, s, r))
              || Spelled(rel.edges, sessionOf, silence, s, r)
  {
    if d: DomainId :| DomainRoute(rel, sessionOf, silence, d, s, r) {
      DomainRouteIsRoute(rel, sessionOf, silence, d, s, r);
    }
    if Spelled(rel.edges, sessionOf, silence, s, r) {
      var e :| e in rel.edges && e.0 in sessionOf && e.1 in sessionOf && sessionOf[e.0] == s && sessionOf[e.1] == r;
      assert Edge(rel, e.0, e.1);
    }
    if Route(rel, sessionOf, silence, s, r) {
      RouteIsOneOf(rel, sessionOf, silence, s, r);
    }
  }

  lemma RouteIsOneOf(rel: AudioRelation, sessionOf: Sessions, silence: Silence, s: SessionId, r: SessionId)
    requires OneToOne(sessionOf) && Route(rel, sessionOf, silence, s, r)
    ensures (exists d: DomainId :: DomainRoute(rel, sessionOf, silence, d, s, r))
      || Spelled(rel.edges, sessionOf, silence, s, r)
  {
    var from: ConnectionId, to: ConnectionId :|
      Edge(rel, from, to) && from in sessionOf && sessionOf[from] == s && to in sessionOf && sessionOf[to] == r;
    if (from, to) !in rel.edges {
      var d: DomainId :| Within(rel, d, from, to);
      assert s != r;
      assert Present(rel.domains[d], sessionOf, s);
      if to !in rel.domains[d] {
        assert (to, d) in rel.listeners && to in Listeners(rel, d);
      }
      assert DomainRoute(rel, sessionOf, silence, d, s, r);
    } else {
      assert (from, to).0 in sessionOf;
    }
  }

  ghost predicate OneToOne(sessionOf: Sessions) {
    forall a, b | a in sessionOf && b in sessionOf && sessionOf[a] == sessionOf[b] :: a == b
  }

  /** The sessions of those members that are rendered. */
  method SessionsOf(members: set<ConnectionId>, sessionOf: Sessions) returns (sessions: seq<SessionId>)
    ensures forall s: SessionId :: s in sessions <==> Present(members, sessionOf, s)
  {
    sessions := [];
    var keys := Sorted(members);
    for i := 0 to |keys|
      invariant forall s: SessionId ::
        s in sessions <==> exists k | 0 <= k < i && keys[k] in sessionOf :: sessionOf[keys[k]] == s
    {
      if keys[i] in sessionOf {
        sessions := sessions + [sessionOf[keys[i]]];
      }
    }
    forall s: SessionId ensures s in sessions <==> Present(members, sessionOf, s) {
      if Present(members, sessionOf, s) {
        var c :| c in members && c in sessionOf && sessionOf[c] == s;
        assert c in keys;
      }
    }
  }

  method Audible(sessions: seq<SessionId>, silence: Silence) returns (audience: seq<SessionId>)
    ensures forall s :: s in audience <==> s in sessions && MayHear(silence, s)
  {
    audience := [];
    for i := 0 to |sessions|
      invariant forall s :: s in audience <==> s in sessions[..i] && MayHear(silence, s)
    {
      if MayHear(silence, sessions[i]) {
        audience := audience + [sessions[i]];
      }
    }
  }

  function Others(list: seq<SessionId>, x: SessionId): (r: seq<SessionId>)
    ensures forall y :: y in r <==> y in list && y != x
  {
    if list == [] then [] else
      var front := Others(list[..|list| - 1], x);
      if list[|list| - 1] == x then front else front + [list[|list| - 1]]
  }

  function Listed(table: Table, s: SessionId): seq<SessionId> {
    if s in table then table[s] else []
  }

  ghost predicate Tuned(pairs: set<(ConnectionId, DomainId)>, sessionOf: Sessions, d: DomainId, s: SessionId) {
    exists p | p in pairs && p.0 in sessionOf :: p.1 == d && sessionOf[p.0] == s
  }

  lemma TunedIsPresent(rel: AudioRelation, sessionOf: Sessions, d: DomainId, s: SessionId)
    ensures Tuned(rel.listeners, sessionOf, d, s) <==> Present(Listeners(rel, d), sessionOf, s)
  {
    if Present(Listeners(rel, d), sessionOf, s) {
      var c: ConnectionId :| c in Listeners(rel, d) && c in sessionOf && sessionOf[c] == s;
      assert (c, d) in rel.listeners && (c, d).0 in sessionOf;
    }
    if Tuned(rel.listeners, sessionOf, d, s) {
      var p :| p in rel.listeners && p.0 in sessionOf && p.1 == d && sessionOf[p.0] == s;
      assert p.0 in Listeners(rel, d);
    }
  }

  lemma TunedMore(
    pairs: set<(ConnectionId, DomainId)>, p: (ConnectionId, DomainId), sessionOf: Sessions, d: DomainId, s: SessionId)
    ensures Tuned(pairs + {p}, sessionOf, d, s) <==>
            Tuned(pairs, sessionOf, d, s) || (p.0 in sessionOf && p.1 == d && sessionOf[p.0] == s)
  {
    if p.0 in sessionOf && p.1 == d && sessionOf[p.0] == s {
      assert p in pairs + {p};
    }
  }

  /** Who listens to each domain, resolved once. */
  method ListeningOn(rel: AudioRelation, sessionOf: Sessions, silence: Silence)
    returns (listening: map<DomainId, seq<SessionId>>)
    ensures forall d: DomainId, s: SessionId ::
      s in Listed(listening, d) <==> Present(Listeners(rel, d), sessionOf, s) && MayHear(silence, s)
  {
    hide Tuned, Present;
    listening := map[];
    var todo := rel.listeners;
    NobodyTuned(sessionOf);
    assert rel.listeners - todo == {};
    while todo != {}
      invariant todo <= rel.listeners
      invariant forall d: DomainId, s: SessionId ::
        s in Listed(listening, d) <==> Tuned(rel.listeners - todo, sessionOf, d, s) && MayHear(silence, s)
      decreases |todo|
    {
      var p :| p in todo;
      ghost var done := rel.listeners - todo;
      assert rel.listeners - (todo - {p}) == done + {p};
      forall d: DomainId, s: SessionId
        ensures Tuned(done + {p}, sessionOf, d, s) <==>
                Tuned(done, sessionOf, d, s) || (p.0 in sessionOf && p.1 == d && sessionOf[p.0] == s)
      {
        TunedMore(done, p, sessionOf, d, s);
      }
      if p.0 in sessionOf && MayHear(silence, sessionOf[p.0]) {
        listening := listening[p.1 := Listed(listening, p.1) + [sessionOf[p.0]]];
      }
      todo := todo - {p};
    }
    assert rel.listeners - todo == rel.listeners;
    forall d: DomainId, s: SessionId
      ensures Tuned(rel.listeners, sessionOf, d, s) <==> Present(Listeners(rel, d), sessionOf, s)
    {
      TunedIsPresent(rel, sessionOf, d, s);
    }
  }

  lemma NobodyTuned(sessionOf: Sessions)
    ensures forall d: DomainId, s: SessionId :: !Tuned({}, sessionOf, d, s)
  {
  }

  /** One domain's routes, appended sender by sender. */
  method AddDomain(
    table: Table, sessions: seq<SessionId>, audience: seq<SessionId>, listening: seq<SessionId>, silence: Silence)
    returns (after: Table)
    ensures forall s: SessionId, r: SessionId :: Has(after, s, r) <==>
      Has(table, s, r) || (s in sessions && MaySpeak(silence, s) && s != r && (r in audience || r in listening))
  {
    after := table;
    for i := 0 to |sessions|
      invariant forall s: SessionId, r: SessionId :: Has(after, s, r) <==>
        Has(table, s, r) || (s in sessions[..i] && MaySpeak(silence, s) && s != r && (r in audience || r in listening))
    {
      var sender := sessions[i];
      if MaySpeak(silence, sender) {
        after := after[sender := Listed(after, sender) + Others(audience, sender) + Others(listening, sender)];
      }
      assert sessions[..i + 1] == sessions[..i] + [sender];
    }
  }

  method AddEdges(table: Table, edges: set<(ConnectionId, ConnectionId)>, sessionOf: Sessions, silence: Silence)
    returns (after: Table)
    ensures forall s: SessionId, r: SessionId ::
      Has(after, s, r) <==> Has(table, s, r) || Spelled(edges, sessionOf, silence, s, r)
  {
    after := table;
    var todo := edges;
    while todo != {}
      invariant todo <= edges
      invariant forall s: SessionId, r: SessionId ::
        Has(after, s, r) <==> Has(table, s, r) || Spelled(edges - todo, sessionOf, silence, s, r)
      decreases |todo|
    {
      var e :| e in todo;
      ghost var done := edges - todo;
      assert edges - (todo - {e}) == done + {e};
      forall s: SessionId, r: SessionId
        ensures Spelled(done + {e}, sessionOf, silence, s, r) <==>
          Spelled(done, sessionOf, silence, s, r) || Spelled({e}, sessionOf, silence, s, r)
      {
      }
      if e.0 in sessionOf && e.1 in sessionOf && MaySpeak(silence, sessionOf[e.0]) && MayHear(silence, sessionOf[e.1]) {
        var sender := sessionOf[e.0];
        after := after[sender := Listed(after, sender) + [sessionOf[e.1]]];
      }
      todo := todo - {e};
    }
    assert edges - {} == edges;
  }

  /** The routes of every domain. */
  /** One of the first `n` domains routes the pair. */
  ghost predicate RoutedBy(
    rel: AudioRelation, sessionOf: Sessions, silence: Silence, keys: seq<DomainId>, n: nat, s: SessionId, r: SessionId)
    requires n <= |keys|
  {
    exists k | 0 <= k < n :: DomainRoute(rel, sessionOf, silence, keys[k], s, r)
  }

  lemma RoutedByNext(
    rel: AudioRelation, sessionOf: Sessions, silence: Silence, keys: seq<DomainId>, n: nat, s: SessionId, r: SessionId)
    requires n < |keys|
    ensures RoutedBy(rel, sessionOf, silence, keys, n + 1, s, r) <==>
      RoutedBy(rel, sessionOf, silence, keys, n, s, r) || DomainRoute(rel, sessionOf, silence, keys[n], s, r)
  {
    hide DomainRoute;
  }

  lemma RoutedByAll(
    rel: AudioRelation, sessionOf: Sessions, silence: Silence, keys: seq<DomainId>, s: SessionId, r: SessionId)
    requires forall d :: d in keys <==> d in rel.domains
    ensures RoutedBy(rel, sessionOf, silence, keys, |keys|, s, r) <==>
      exists d: DomainId :: DomainRoute(rel, sessionOf, silence, d, s, r)
  {
    if d: DomainId :| DomainRoute(rel, sessionOf, silence, d, s, r) {
      assert d in keys;
    }
  }

  method AddDomains(rel: AudioRelation, sessionOf: Sessions, silence: Silence) returns (table: Table)
    ensures forall s: SessionId, r: SessionId ::
      Has(table, s, r) <==> exists d: DomainId :: DomainRoute(rel, sessionOf, silence, d, s, r)
  {
    var listening := ListeningOn(rel, sessionOf, silence);
    table := map[];
    var keys := Sorted(rel.domains.Keys);
    for i := 0 to |keys|
      invariant forall s: SessionId, r: SessionId ::
        Has(table, s, r) <==> RoutedBy(rel, sessionOf, silence, keys, i, s, r)
    {
      hide RoutedBy;
      var d := keys[i];
      assert d in rel.domains;
      var sessions := SessionsOf(rel.domains[d], sessionOf);
      var audience := Audible(sessions, silence);
      table := AddDomain(table, sessions, audience, Listed(listening, d), silence);
      forall s: SessionId, r: SessionId
        ensures Has(table, s, r) <==> RoutedBy(rel, sessionOf, silence, keys, i + 1, s, r)
      {
        RoutedByNext(rel, sessionOf, silence, keys, i, s, r);
      }
    }
    forall s: SessionId, r: SessionId
      ensures Has(table, s, r) <==> exists d: DomainId :: DomainRoute(rel, sessionOf, silence, d, s, r)
    {
      RoutedByAll(rel, sessionOf, silence, keys, s, r);
    }
  }

  /** The table: sorted, without repetition, and holding exactly the routes. */
  method Compile(rel: AudioRelation, sessionOf: Sessions, silence: Silence) returns (table: Table)
    requires OneToOne(sessionOf)
    ensures forall s: SessionId, r: SessionId :: Has(table, s, r) <==> Route(rel, sessionOf, silence, s, r)
    ensures forall s | s in table :: Ascending(table[s]) && table[s] != []
    ensures forall from: ConnectionId, to: ConnectionId | from in sessionOf && to in sessionOf ::
      Has(table, sessionOf[from], sessionOf[to]) <==>
        sessionOf[from] !in silence.muted && sessionOf[to] !in silence.deafened && Edge(rel, from, to)
    ensures forall s | s in table :: s !in silence.muted && s in sessionOf.Values
    ensures forall s, r | s in table && r in table[s] :: r !in silence.deafened && r in sessionOf.Values
  {
    hide Edge;
    var wide := AddDomains(rel, sessionOf, silence);
    wide := AddEdges(wide, rel.edges, sessionOf, silence);
    table := map s | s in wide && wide[s] != [] :: Sorted(Elements(wide[s]));
    forall s: SessionId, r: SessionId ensures Has(table, s, r) <==> Route(rel, sessionOf, silence, s, r) {
      RouteSplit(rel, sessionOf, silence, s, r);
      assert Has(table, s, r) <==> Has(wide, s, r);
    }
    forall s | s in table ensures table[s] != [] && s !in silence.muted && s in sessionOf.Values {
      assert wide[s][0] in table[s];
      assert Has(table, s, table[s][0]);
    }
    forall s, r | s in table && r in table[s] ensures r !in silence.deafened && r in sessionOf.Values {
      assert Has(table, s, r);
    }
  }
}
