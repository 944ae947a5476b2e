/**
 The one constraint the plan cannot express: inside each run of consecutive user additions
 the connection is introduced to itself first. The reordering is a permutation that changes
 neither what the client ends up holding nor the safety of any prefix.
 */
module Emission {
  import opened Collections
  import opened Views
  import opened Planner
  import opened Clients
  import opened Composition
  import opened Ordering
  import opened PrefixSafety

  predicate IsSelf(op: PlanOp, self: SessionId) {
    op.AddUser? && op.user.session == self
  }

  /** The operations of a run that are, or are not, the connection's own addition, in order. */
  function Pick(run: seq<PlanOp>, self: SessionId, wanted: bool): seq<PlanOp>
    decreases |run|
  {
    if run == [] then [] else
      var last := run[|run| - 1];
      Pick(run[..|run| - 1], self, wanted) + (if IsSelf(last, self) == wanted then [last] else [])
  }

  /** How many user additions a sequence starts with. */
  function RunLength(ops: seq<PlanOp>): (n: nat)
    ensures n <= |ops|
    ensures forall i | 0 <= i < n :: ops[i].AddUser?
    ensures n < |ops| ==> !ops[n].AddUser?
  {
    if ops == [] || !ops[0].AddUser? then 0 else 1 + RunLength(ops[1..])
  }

  function SelfFirst(ops: seq<PlanOp>, self: SessionId): seq<PlanOp>
    decreases |ops|
  {
    if ops == [] then []
    else if !ops[0].AddUser? then [ops[0]] + SelfFirst(ops[1..], self)
    else
      var n := RunLength(ops);
      Pick(ops[..n], self, true) + Pick(ops[..n], self, false) + SelfFirst(ops[n..], self)
  }

  method PickFrom(run: seq<PlanOp>, self: SessionId, wanted: bool) returns (kept: seq<PlanOp>)
    ensures kept == Pick(run, self, wanted)
  {
    kept := [];
    for i := 0 to |run|
      invariant kept == Pick(run[..i], self, wanted)
    {
      assert run[..i + 1][..i] == run[..i];
      if IsSelf(run[i], self) == wanted {
        kept := kept + [run[i]];
      }
    }
    assert run[..|run|] == run;
  }

  /** The inner scan: where the run of additions starting at `start` ends. */
  method RunEnd(ops: seq<PlanOp>, start: nat) returns (index: nat)
    requires start <= |ops|
    ensures index == start + RunLength(ops[start..])
  {
    index := start;
    while index < |ops| && ops[index].AddUser?
      invariant start <= index <= |ops|
      invariant index - start + RunLength(ops[index..]) == RunLength(ops[start..])
    {
      assert ops[index..][1..] == ops[index + 1..];
      index := index + 1;
    }
  }

  /** What comes first of what is left: one operation, or one run of additions with its own first. */
  lemma SelfFirstNext(ops: seq<PlanOp>, index: nat, self: SessionId)
    requires index < |ops|
    ensures !ops[index].AddUser? ==> SelfFirst(ops[index..], self) == [ops[index]] + SelfFirst(ops[index + 1..], self)
    ensures ops[index].AddUser? ==>
      var end := index + RunLength(ops[index..]);
      && index < end <= |ops|
      && SelfFirst(ops[index..], self)
           == Pick(ops[index..end], self, true) + Pick(ops[index..end], self, false) + SelfFirst(ops[end..], self)
  {
    hide Pick;
    var rest := ops[index..];
    if !ops[index].AddUser? {
      assert rest[1..] == ops[index + 1..];
    } else {
      var n := RunLength(rest);
      assert rest[..n] == ops[index..index + n] && rest[n..] == ops[index + n..];
    }
  }

  lemma NothingOrdered(self: SessionId)
    ensures SelfFirst([], self) == []
  {
  }

  method SelfFirstWithinUserAdditions(ops: seq<PlanOp>, self: SessionId) returns (ordered: seq<PlanOp>)
    ensures ordered == SelfFirst(ops, self)
  {
    hide RunLength, Pick, SelfFirst;
    ordered := [];
    var index := 0;
    assert ops[0..] == ops;
    while index < |ops|
      invariant index <= |ops|
      invariant ordered + SelfFirst(ops[index..], self) == SelfFirst(ops, self)
    {
      SelfFirstNext(ops, index, self);
      if !ops[index].AddUser? {
        ordered := ordered + [ops[index]];
        index := index + 1;
      } else {
        var end := RunEnd(ops, index);
        var run := ops[index..end];
        var own := PickFrom(run, self, true);
        var others := PickFrom(run, self, false);
        ordered := ordered + (own + others);
        index := end;
      }
    }
    assert ops[index..] == [];
    NothingOrdered(self);
  }

  // ---------------------------------------------------------------- it is a permutation that means the same

  lemma {:induction false} PickSplits(run: seq<PlanOp>, self: SessionId)
    ensures multiset(Pick(run, self, true)) + multiset(Pick(run, self, false)) == multiset(run)
    decreases |run|
  {
    if run != [] {
      var n := |run| - 1;
      PickSplits(run[..n], self);
      assert run == run[..n] + [run[n]];
    }
  }

  lemma {:induction false} SelfFirstPermutes(ops: seq<PlanOp>, self: SessionId)
    ensures multiset(SelfFirst(ops, self)) == multiset(ops)
    decreases |ops|
  {
    hide Pick, RunLength;
    if ops == [] {
    } else if !ops[0].AddUser? {
      SelfFirstPermutes(ops[1..], self);
      Joined([ops[0]], ops[1..]);
      Joined([ops[0]], SelfFirst(ops[1..], self));
      assert ops == [ops[0]] + ops[1..];
    } else {
      var n := RunLength(ops);
      var own, others, rest := Pick(ops[..n], self, true), Pick(ops[..n], self, false), SelfFirst(ops[n..], self);
      PickSplits(ops[..n], self);
      SelfFirstPermutes(ops[n..], self);
      Joined(ops[..n], ops[n..]);
      Joined(own, others);
      Joined(own + others, rest);
      assert ops == ops[..n] + ops[n..];
    }
  }

  lemma Joined(a: seq<PlanOp>, b: seq<PlanOp>)
    ensures multiset(a + b) == multiset(a) + multiset(b)
  {
  }

  lemma PickSnoc(run: seq<PlanOp>, op: PlanOp, self: SessionId)
    ensures Pick(run + [op], self, IsSelf(op, self)) == Pick(run, self, IsSelf(op, self)) + [op]
    ensures Pick(run + [op], self, !IsSelf(op, self)) == Pick(run, self, !IsSelf(op, self))
  {
    assert (run + [op])[..|run|] == run;
  }

  lemma NothingPicked(self: SessionId, e: ElementId)
    ensures On([], e) == [] && forall mine :: Pick([], self, mine) == []
  {
  }

  /** Whatever a run says about an element is in one of the two selections, and the other is silent about it. */
  lemma {:induction false} PickSide(run: seq<PlanOp>, self: SessionId, e: ElementId)
    requires forall i | 0 <= i < |run| :: run[i].AddUser?
    ensures On(Pick(run, self, e == UserElement(self)), e) == On(run, e)
    ensures On(Pick(run, self, e != UserElement(self)), e) == []
    decreases |run|
  {
    hide On, Pick;
    if run == [] {
      NothingPicked(self, e);
    } else {
      var n := |run| - 1;
      var last, prefix := run[n], run[..n];
      PickSide(prefix, self, e);
      assert run == prefix + [last];
      PickSnoc(prefix, last, self);
      OnSnoc(prefix, last, e);
      OnSnoc(Pick(prefix, self, IsSelf(last, self)), last, e);
    }
  }

  lemma PickOn(run: seq<PlanOp>, self: SessionId, e: ElementId)
    requires forall i | 0 <= i < |run| :: run[i].AddUser?
    ensures On(Pick(run, self, true), e) + On(Pick(run, self, false), e) == On(run, e)
    ensures On(Pick(run, self, e != UserElement(self)), e) == []
  {
    hide On, Pick;
    PickSide(run, self, e);
  }

  /** The reordering keeps, for every element, exactly the operations about it in the same order. */
  lemma {:induction false} SelfFirstOn(ops: seq<PlanOp>, self: SessionId, e: ElementId)
    ensures On(SelfFirst(ops, self), e) == On(ops, e)
    decreases |ops|
  {
    hide On, Pick, RunLength;
    if ops == [] {
    } else if !ops[0].AddUser? {
      SelfFirstOn(ops[1..], self, e);
      assert ops == [ops[0]] + ops[1..];
      OnConcat([ops[0]], ops[1..], e);
      OnConcat([ops[0]], SelfFirst(ops[1..], self), e);
    } else {
      var n := RunLength(ops);
      var own, others := Pick(ops[..n], self, true), Pick(ops[..n], self, false);
      PickOn(ops[..n], self, e);
      SelfFirstOn(ops[n..], self, e);
      assert ops == ops[..n] + ops[n..];
      OnConcat(ops[..n], ops[n..], e);
      OnConcat(own, others, e);
      OnConcat(own + others, SelfFirst(ops[n..], self), e);
    }
  }

  /** Sequences that agree about every element have the same effect. */
  lemma SameOnSameEffect(c: Client, a: seq<PlanOp>, b: seq<PlanOp>)
    requires forall e :: On(a, e) == On(b, e)
    ensures Run(c, a) == Run(c, b)
  {
    forall e ensures At(Run(c, a), e) == At(Run(c, b), e) {
      RunAt(c, a, e);
      RunAt(c, b, e);
    }
    SameEverywhere(Run(c, a), Run(c, b));
  }

  /** The client ends up holding the same view. */
  lemma SelfFirstMeansTheSame(c: Client, ops: seq<PlanOp>, self: SessionId)
    ensures Run(c, SelfFirst(ops, self)) == Run(c, ops)
  {
    hide Run, SelfFirst, On;
    forall e ensures On(SelfFirst(ops, self), e) == On(ops, e) {
      SelfFirstOn(ops, self, e);
    }
    SameOnSameEffect(c, SelfFirst(ops, self), ops);
  }

  // ---------------------------------------------------------------- it keeps every prefix safe

  lemma SafeSplit(c: Client, a: seq<PlanOp>, b: seq<PlanOp>)
    requires SafeRun(c, a + b)
    ensures SafeRun(c, a) && SafeRun(Run(c, a), b)
  {
    hide SafeStep, Run;
    var ab := a + b;
    forall i | 0 <= i < |a| ensures SafeStep(Run(c, a[..i]), a[i]) {
      assert ab[..i] == a[..i] && ab[i] == a[i];
      assert SafeStep(Run(c, ab[..i]), ab[i]);
    }
    forall i | 0 <= i < |b| ensures SafeStep(Run(Run(c, a), b[..i]), b[i]) {
      assert ab[..|a| + i] == a + b[..i] && ab[|a| + i] == b[i];
      RunConcat(c, a, b[..i]);
      assert SafeStep(Run(c, ab[..|a| + i]), ab[|a| + i]);
    }
  }

  lemma {:induction false} RunKeepsChannels(c: Client, run: seq<PlanOp>)
    requires forall i | 0 <= i < |run| :: run[i].AddUser?
    ensures Run(c, run).channels == c.channels
    decreases |run|
  {
    if run != [] {
      RunKeepsChannels(c, run[..|run| - 1]);
    }
  }

  /** Safety of a run of additions is a fact about each of them alone. */
  lemma RunIsHarmless(c: Client, run: seq<PlanOp>)
    requires forall i | 0 <= i < |run| :: run[i].AddUser?
    requires SafeRun(c, run)
    ensures forall op | op in run :: Harmless(op, c.channels.Keys)
  {
    hide Run;
    forall op | op in run ensures Harmless(op, c.channels.Keys) {
      var i :| 0 <= i < |run| && run[i] == op;
      RunKeepsChannels(c, run[..i]);
    }
  }

  lemma {:induction false} PickMembers(run: seq<PlanOp>, self: SessionId, wanted: bool)
    ensures forall op | op in Pick(run, self, wanted) :: op in run && IsSelf(op, self) == wanted
    decreases |run|
  {
    if run != [] {
      PickMembers(run[..|run| - 1], self, wanted);
      assert run == run[..|run| - 1] + [run[|run| - 1]];
    }
  }

  lemma SafeParts(c: Client, a: seq<PlanOp>, b: seq<PlanOp>)
    ensures SafeRun(c, a + b) <==> SafeRun(c, a) && SafeRun(Run(c, a), b)
  {
    hide SafeRun, Run;
    if SafeRun(c, a + b) {
      SafeSplit(c, a, b);
    }
    if SafeRun(c, a) && SafeRun(Run(c, a), b) {
      SafeConcat(c, a, b);
    }
  }

  /** Reordered, a sequence is safe at every prefix exactly when it was. */
  lemma {:induction false} SelfFirstSafe(c: Client, ops: seq<PlanOp>, self: SessionId)
    ensures SafeRun(c, SelfFirst(ops, self)) <==> SafeRun(c, ops)
    decreases |ops|
  {
    hide SafeRun, Run, Pick, Harmless;
    if ops == [] {
    } else if !ops[0].AddUser? {
      assert ops == [ops[0]] + ops[1..];
      SafeParts(c, [ops[0]], ops[1..]);
      SelfFirstSafe(Run(c, [ops[0]]), ops[1..], self);
      SafeParts(c, [ops[0]], SelfFirst(ops[1..], self));
    } else {
      var n := RunLength(ops);
      assert ops == ops[..n] + ops[n..];
      SafeParts(c, ops[..n], ops[n..]);
      SelfFirstSafe(Run(c, ops[..n]), ops[n..], self);
      RunReordered(c, ops[..n], self);
      SafeParts(c, Pick(ops[..n], self, true) + Pick(ops[..n], self, false), SelfFirst(ops[n..], self));
    }
  }

  lemma RunReordered(c: Client, run: seq<PlanOp>, self: SessionId)
    requires forall i | 0 <= i < |run| :: run[i].AddUser?
    ensures var picked := Pick(run, self, true) + Pick(run, self, false);
      (SafeRun(c, picked) <==> SafeRun(c, run)) && Run(c, picked) == Run(c, run)
  {
    hide SafeRun, Run, Pick, Harmless, On;
    var picked := Pick(run, self, true) + Pick(run, self, false);
    PickMembers(run, self, true);
    PickMembers(run, self, false);
    PickSplits(run, self);
    Joined(Pick(run, self, true), Pick(run, self, false));
    SameMembers(picked, run);
    forall i | 0 <= i < |picked| ensures picked[i].AddUser? {
      assert picked[i] in picked && picked[i] in run;
    }
    if SafeRun(c, run) {
      RunIsHarmless(c, run);
      HarmlessRun(c, picked, c.channels.Keys);
    }
    if SafeRun(c, picked) {
      RunIsHarmless(c, picked);
      HarmlessRun(c, run, c.channels.Keys);
    }
    forall e ensures On(picked, e) == On(run, e) {
      PickOn(run, self, e);
      OnConcat(Pick(run, self, true), Pick(run, self, false), e);
    }
    SameOnSameEffect(c, picked, run);
  }

  lemma SameMembers(a: seq<PlanOp>, b: seq<PlanOp>)
    requires multiset(a) == multiset(b)
    ensures forall op :: op in a <==> op in b
  {
    forall op ensures op in a <==> op in b {
      assert op in multiset(a) <==> op in multiset(b);
    }
  }

  // ---------------------------------------------------------------- and it does what it is for

  /** The connection's own addition never directly follows somebody else's. */
  lemma {:induction false} SelfLeads(ops: seq<PlanOp>, self: SessionId, i: nat)
    requires i + 1 < |SelfFirst(ops, self)|
    ensures var r := SelfFirst(ops, self); IsSelf(r[i + 1], self) && r[i].AddUser? ==> IsSelf(r[i], self)
    decreases |ops|
  {
    if !ops[0].AddUser? {
      if i > 0 {
        SelfLeads(ops[1..], self, i - 1);
      }
    } else {
      var n := RunLength(ops);
      var own, others, rest := Pick(ops[..n], self, true), Pick(ops[..n], self, false), SelfFirst(ops[n..], self);
      PickMembers(ops[..n], self, true);
      PickMembers(ops[..n], self, false);
      var r := SelfFirst(ops, self);
      assert r == own + others + rest;
      if i + 1 < |own| {
        assert own[i] in own;
      } else if i + 1 < |own| + |others| {
        assert others[i + 1 - |own|] in others;
      } else if i + 1 > |own| + |others| {
        SelfLeads(ops[n..], self, i - |own| - |others|);
      }
    }
  }
}
