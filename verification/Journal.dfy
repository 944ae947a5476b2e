/** The shard's bounded delta journal, as a refinement of an unbounded log. */
module Journals {
  import opened Collections
  import opened Planner
  import opened Windows

  const DEPTH := 256

  datatype TooFarBehind = TooFarBehind(cursor: nat, tail: nat)

  type Log = seq<seq<PlannedOp>>

  /** The oldest version the bounded journal can still replay from. */
  function TailOf(log: Log): nat {
    if |log| <= DEPTH then 0 else |log| - DEPTH
  }

  /** Every operation of versions `from + 1 ..= to`, or a refusal when `from` has been evicted. */
  function ReplayLog(log: Log, from: nat, to: nat): Result<seq<PlannedOp>, TooFarBehind> {
    if from < TailOf(log) then Err(TooFarBehind(from, TailOf(log)))
    else
      var end := if to < |log| then to else |log|;
      if end <= from then Ok([]) else Ok(Flatten(log[from..end]))
  }

  class Journal {
    var tail: nat
    var head: nat
    var entries: seq<seq<PlannedOp>>
    /** Everything ever pushed. */
    ghost var log: Log

    ghost predicate Valid()
      reads this
    {
      head == |log| && tail == TailOf(log) && entries == log[tail..]
    }

    constructor ()
      ensures Valid() && log == []
    {
      tail, head, entries, log := 0, 0, [], [];
    }

    method Push(ops: seq<PlannedOp>) returns (version: nat)
      requires Valid()
      modifies this
      ensures Valid() && log == old(log) + [ops] && version == |log|
    {
      head := head + 1;
      entries := entries + [ops];
      log := log + [ops];
      while |entries| > DEPTH
        invariant tail <= |log| && entries == log[tail..]
        invariant tail == TailOf(old(log)) || tail == TailOf(log)
        invariant head == |log| && log == old(log) + [ops]
        invariant |entries| >= DEPTH || tail == 0
        decreases |entries|
      {
        entries := entries[1..];
        tail := tail + 1;
      }
      version := head;
    }

    method Replay(from: nat, to: nat) returns (r: Result<seq<PlannedOp>, TooFarBehind>)
      requires Valid()
      ensures r == ReplayLog(log, from, to)
    {
      if from < tail {
        return Err(TooFarBehind(from, tail));
      }
      var end := if to < head then to else head;
      if end <= from {
        return Ok([]);
      }
      hide Flatten;
      var ops: seq<PlannedOp> := [];
      var i := from - tail;
      FlattenNothing(entries, i);
      while i < end - tail
        invariant from - tail <= i <= end - tail
        invariant ops == Flatten(entries[from - tail..i])
      {
        FlattenSlice(entries, from - tail, i);
        ops := ops + entries[i];
        i := i + 1;
      }
      SliceOfRest(log, tail, from, end);
      r := Ok(ops);
    }
  }

  lemma SliceOfRest(log: Log, tail: nat, from: nat, end: nat)
    requires tail <= from <= end <= |log|
    ensures log[tail..][from - tail..end - tail] == log[from..end]
  {
  }

  lemma FlattenNothing(log: Log, a: nat)
    requires a <= |log|
    ensures Flatten(log[a..a]) == []
  {
  }

  lemma FlattenSlice(log: Log, a: nat, i: nat)
    requires a <= i < |log|
    ensures Flatten(log[a..i + 1]) == Flatten(log[a..i]) + log[i]
  {
    hide Flatten;
    assert log[a..i + 1] == log[a..i] + [log[i]];
    FlattenSnoc(log[a..i], log[i]);
  }

  lemma FlattenSnoc(log: Log, delta: seq<PlannedOp>)
    ensures Flatten(log + [delta]) == Flatten(log) + delta
  {
    assert (log + [delta])[..|log|] == log;
  }

  lemma {:induction false} FlattenConcat(a: Log, b: Log)
    ensures Flatten(a + b) == Flatten(a) + Flatten(b)
  {
    if b == [] {
      assert a + b == a;
    } else {
      var n := |b| - 1;
      assert (a + b)[..|a + b| - 1] == a + b[..n];
      FlattenConcat(a, b[..n]);
    }
  }

  /** Replaying in pieces equals replaying at once. */
  lemma ReplayInPieces(log: Log, a: nat, b: nat, c: nat)
    requires TailOf(log) <= a <= b <= c <= |log|
    ensures ReplayLog(log, a, c) == Ok(ReplayLog(log, a, b).value + ReplayLog(log, b, c).value)
  {
    assert log[a..c] == log[a..b] + log[b..c];
    FlattenConcat(log[a..b], log[b..c]);
    assert log[a..a] == [] && log[b..b] == [];
  }

  /** Eviction loses nothing a cursor within `DEPTH` of the head still needs. */
  lemma ReplayWithinDepth(log: Log, from: nat)
    requires from <= |log|
    ensures ReplayLog(log, from, |log|).Ok? <==> |log| - from <= DEPTH
    ensures ReplayLog(log, from, |log|).Ok? ==> ReplayLog(log, from, |log|).value == Flatten(log[from..])
  {
    assert log[from..|log|] == log[from..];
  }
}
