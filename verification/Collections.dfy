/** The wrappers and the ordered-collection vocabulary the other modules share. */
module Collections {

  datatype Option<+T> = None | Some(value: T)

  datatype Result<+T, +E> = Ok(value: T) | Err(error: E)

  predicate IsLeast(m: nat, s: set<nat>) {
    m in s && forall x | x in s :: m <= x
  }

  lemma {:induction false} LeastExists(s: set<nat>)
    requires s != {}
    ensures exists m :: IsLeast(m, s)
  {
    var y :| y in s;
    if s == {y} {
      assert IsLeast(y, s);
    } else {
      var rest := s - {y};
      LeastExists(rest);
      var m :| IsLeast(m, rest);
      assert forall x | x in s :: x == y || x in rest;
      assert IsLeast(if y < m then y else m, s);
    }
  }

  function Least(s: set<nat>): (m: nat)
    requires s != {}
    ensures IsLeast(m, s)
  {
    LeastExists(s);
    var m :| IsLeast(m, s);
    m
  }

  ghost predicate Ascending(s: seq<nat>) {
    forall i, j | 0 <= i < j < |s| :: s[i] < s[j]
  }

  /** The keys of an ordered map or set, in iteration order. */
  function Sorted(s: set<nat>): (r: seq<nat>)
    ensures Ascending(r)
    ensures forall x :: x in r <==> x in s
    decreases |s|
  {
    if s == {} then [] else
      var m := Least(s);
      var rest := Sorted(s - {m});
      [m] + rest
  }

  function Elements(s: seq<nat>): set<nat> {
    set x | x in s
  }

  /** Peeling the last key off an ascending sequence, with `x` in mind. */
  lemma LastKey(keys: seq<nat>, x: nat)
    requires Ascending(keys) && keys != []
    ensures Ascending(keys[..|keys| - 1])
    ensures x in keys <==> x in keys[..|keys| - 1] || x == keys[|keys| - 1]
    ensures keys[|keys| - 1] !in keys[..|keys| - 1]
  {
    assert keys == keys[..|keys| - 1] + [keys[|keys| - 1]];
  }

  ghost predicate Distinct<T>(s: seq<T>) {
    forall i, j | 0 <= i < j < |s| :: s[i] != s[j]
  }

  lemma LastDistinct(s: seq<nat>, x: nat)
    requires Distinct(s) && s != []
    ensures Distinct(s[..|s| - 1])
    ensures x in s <==> x in s[..|s| - 1] || x == s[|s| - 1]
    ensures s[|s| - 1] !in s[..|s| - 1]
  {
    assert s == s[..|s| - 1] + [s[|s| - 1]];
  }
}
