/**
 The visibility tree. A scope is a path of at most `MAX_DEPTH` segments; an
 observation is a set of scopes (it is canonicalised on construction so that its
 equality is set equality).
 */
module Scopes {
  import opened Collections

  const MAX_DEPTH := 4
  const MAX_OBSERVED := 4

  type Scope = s: seq<nat> | |s| <= MAX_DEPTH witness []

  type ScopeSet = set<Scope>

  const ROOT_SCOPE: Scope := []

  /** `place` lies at or below `branch`. */
  predicate InBranch(place: Scope, branch: Scope) {
    |branch| <= |place| && place[..|branch|] == branch
  }

  /** One more segment, refused past the depth bound rather than saturated. */
  function Child(parent: Scope, segment: nat): (r: Option<Scope>)
    ensures r.Some? <==> |parent| < MAX_DEPTH
    ensures r.Some? ==> |r.value| == |parent| + 1 && InBranch(r.value, parent) && r.value[|parent|] == segment
  {
    if |parent| >= MAX_DEPTH then None else Some(parent + [segment])
  }

  predicate IsPrefixOf(a: Scope, b: Scope) {
    a <= b
  }

  predicate Comparable(a: Scope, b: Scope) {
    IsPrefixOf(a, b) || IsPrefixOf(b, a)
  }

  predicate Sees(see: ScopeSet, element: Scope) {
    exists observed | observed in see :: Comparable(element, observed)
  }

  /** Canonicalising an observation: duplicates are free, a fifth distinct scope is refused. */
  function Observe(scopes: seq<Scope>): (r: Result<ScopeSet, nat>)
    ensures r.Ok? ==> forall s :: s in r.value <==> s in scopes
    ensures r.Ok? <==> |set s | s in scopes| <= MAX_OBSERVED
  {
    var distinct := set s | s in scopes;
    if |distinct| > MAX_OBSERVED then Err(|distinct|) else Ok(distinct)
  }

  /** Whoever sees a scope sees every scope above it: the fact the whole visibility model rests on. */
  lemma SeesAncestors(see: ScopeSet, above: Scope, below: Scope)
    requires IsPrefixOf(above, below)
    requires Sees(see, below)
    ensures Sees(see, above)
  {
    var observed :| observed in see && Comparable(below, observed);
    if IsPrefixOf(below, observed) {
      assert above == observed[..|above|];
    } else if |above| <= |observed| {
      assert above == below[..|above|] == observed[..|above|];
    } else {
      assert observed == below[..|observed|] == above[..|observed|];
    }
    assert Comparable(above, observed);
  }

  /** Observing the root scope is observing everything. */
  lemma RootSeesAll(element: Scope)
    ensures Sees({ROOT_SCOPE}, element)
  {
    assert Comparable(element, ROOT_SCOPE);
  }

  /**
   What seeing means: an element is seen exactly when some place lies below both it and an
   observed scope.
   */
  lemma SeesExactly(see: ScopeSet, element: Scope)
    ensures Sees(see, element) <==>
      exists observed: Scope, place: Scope ::
        observed in see && InBranch(place, observed) && InBranch(place, element)
  {
    if Sees(see, element) {
      var observed :| observed in see && Comparable(element, observed);
      assert InBranch(observed, observed) && InBranch(element, element);
      assert InBranch(observed, element) || InBranch(element, observed);
    }
    forall observed: Scope, place: Scope | observed in see && InBranch(place, observed) && InBranch(place, element)
      ensures Sees(see, element)
    {
      ShareAPlace(observed, element, place);
    }
  }

  lemma ShareAPlace(a: Scope, b: Scope, place: Scope)
    requires InBranch(place, a) && InBranch(place, b)
    ensures Comparable(a, b) && Comparable(b, a)
  {
    if |a| <= |b| {
      assert a == place[..|b|][..|a|] == b[..|a|];
    } else {
      assert b == place[..|a|][..|b|] == a[..|b|];
    }
  }

  /** Nobody who stays within one branch sees anything of a sibling branch, at any depth. */
  lemma SiblingsApart(see: ScopeSet, parent: Scope, mine: nat, theirs: nat, element: Scope)
    requires |parent| < MAX_DEPTH && mine != theirs
    requires forall observed | observed in see :: InBranch(observed, Child(parent, mine).value)
    requires InBranch(element, Child(parent, theirs).value)
    ensures !Sees(see, element)
  {
    var fork := |parent|;
    assert element[fork] == Child(parent, theirs).value[fork] == theirs;
    forall observed | observed in see ensures !Comparable(element, observed) {
      assert observed[fork] == Child(parent, mine).value[fork] == mine;
    }
  }
}
