/**
 When the voice account refuses a packet, exactly: the admissions since some moment have used up a
 full burst and everything the refills have earned since.

 The refill times are a function of the calls alone, so both sides of the statement can be read off
 the run without looking at the account.
 */
module Admissions {
  import opened VoiceBudgets
  import opened LimitRuns

  /** The time of the last refill: an `Allow` at least one pace after the one before it. */
  function Mark(origin: nat, calls: seq<Call>): nat {
    if calls == [] then origin else
      var mark, last := Mark(origin, calls[..|calls| - 1]), calls[|calls| - 1];
      if last.Allow? && last.now >= mark + PACE then last.now else mark
  }

  /** The whole paces between consecutive refills, added up. */
  function Earnings(origin: nat, calls: seq<Call>): nat {
    if calls == [] then 0 else
      var front := calls[..|calls| - 1];
      Earnings(origin, front) + Since(Mark(origin, calls), Mark(origin, front)) / PACE
  }

  function Admitted(origin: nat, calls: seq<Call>): nat {
    |Run(Begin(origin), calls).log|
  }

  /**
   A full burst, with what refills earned after call j and without what was admitted from call j on.
   Moment 0 is the creation of the account; moment j is the j-th call, its refill done.
   */
  function LeftSince(origin: nat, calls: seq<Call>, j: nat): int
    requires j <= |calls|
  {
    BURST + Earnings(origin, calls) - Earnings(origin, calls[..j])
    - (Admitted(origin, calls) - Admitted(origin, calls[..if j == 0 then 0 else j - 1]))
  }

  /** The tokens are the least of what is left since any moment. */
  ghost predicate TokensAreLeast(origin: nat, calls: seq<Call>) {
    var tokens := Run(Begin(origin), calls).budget.tokens;
    && (forall j | 0 <= j <= |calls| :: tokens <= LeftSince(origin, calls, j))
    && exists j | 0 <= j <= |calls| :: tokens == LeftSince(origin, calls, j)
  }

  lemma RefillAtMark(b: Budget, now: nat)
    requires Shaped(b) && b.lastRefill <= now
    ensures Refilled(b, now).lastRefill == if now >= b.lastRefill + PACE then now else b.lastRefill
    ensures Refilled(b, now).tokens == Min(b.tokens + (now - b.lastRefill) / PACE, BURST)
  {
    EarnedIsPace(now - b.lastRefill);
  }

  lemma LeftNext(origin: nat, calls: seq<Call>, call: Call, j: nat)
    requires j <= |calls|
    ensures LeftSince(origin, calls + [call], j) == LeftSince(origin, calls, j)
      + (Earnings(origin, calls + [call]) - Earnings(origin, calls))
      - (Admitted(origin, calls + [call]) - Admitted(origin, calls))
  {
    assert (calls + [call])[..j] == calls[..j];
    var i := if j == 0 then 0 else j - 1;
    assert (calls + [call])[..i] == calls[..i];
  }

  lemma LeftNow(origin: nat, calls: seq<Call>, call: Call)
    ensures LeftSince(origin, calls + [call], |calls| + 1) ==
      BURST - (Admitted(origin, calls + [call]) - Admitted(origin, calls))
  {
    assert (calls + [call])[..|calls| + 1] == calls + [call];
    assert (calls + [call])[..|calls|] == calls;
  }

  /** One call, as far as admission goes. */
  lemma CallDoes(t: Trail, call: Call)
    requires Shaped(t.budget) && t.budget.lastRefill <= call.now
    ensures var b, after := t.budget, Next(t, call);
      if call.Allow? then
        var full := Min(b.tokens + (call.now - b.lastRefill) / PACE, BURST);
        && after.budget.lastRefill == (if call.now >= b.lastRefill + PACE then call.now else b.lastRefill)
        && |after.log| == |t.log| + (if full == 0 then 0 else 1)
        && after.budget.tokens == full - (|after.log| - |t.log|)
        && Allowed(b, call.now, call.bytes).1 == (full > 0)
      else
        after.log == t.log && after.budget.tokens == b.tokens && after.budget.lastRefill == b.lastRefill
  {
    hide Rolled, Refilled;
    match call
    case Allow(now, bytes) =>
      RefillAtMark(t.budget, now);
      var full := Refilled(t.budget, now);
      if full.tokens > 0 {
        RollKeepsTokens(full.(tokens := full.tokens - 1), now);
      }
    case Measure(now) => RollKeepsTokens(t.budget, now);
    case Touch(now) =>
  }

  lemma RunNext(origin: nat, calls: seq<Call>, call: Call)
    ensures Run(Begin(origin), calls + [call]) == Next(Run(Begin(origin), calls), call)
    ensures Mark(origin, calls + [call]) ==
      if call.Allow? && call.now >= Mark(origin, calls) + PACE then call.now else Mark(origin, calls)
    ensures Earnings(origin, calls + [call]) ==
      Earnings(origin, calls) + Since(Mark(origin, calls + [call]), Mark(origin, calls)) / PACE
  {
    hide Next;
    assert (calls + [call])[..|calls|] == calls;
  }

  lemma ForwardFront(origin: nat, calls: seq<Call>, call: Call)
    requires Forward(origin, calls + [call])
    ensures Forward(origin, calls)
    ensures origin <= call.now && (calls != [] ==> calls[|calls| - 1].now <= call.now)
  {
    var all := calls + [call];
    assert forall i | 0 <= i < |calls| :: all[i] == calls[i];
    assert all[|calls|] == call;
  }

  /** The account refills when the calls say so, and its tokens are what the run leaves. */
  lemma {:induction false} TokensFollowRun(origin: nat, calls: seq<Call>)
    requires Forward(origin, calls)
    ensures Run(Begin(origin), calls).budget.lastRefill == Mark(origin, calls)
    ensures Mark(origin, calls) <= if calls == [] then origin else calls[|calls| - 1].now
    ensures TokensAreLeast(origin, calls)
    decreases |calls|
  {
    hide LeftSince, Run, Next, Mark, Earnings, TokensAreLeast;
    if calls == [] {
      NothingYet(origin);
    } else {
      var front, call := calls[..|calls| - 1], calls[|calls| - 1];
      assert calls == front + [call];
      ForwardFront(origin, front, call);
      TokensFollowRun(origin, front);
      TokensNext(origin, front, call);
    }
  }

  lemma TokensNext(origin: nat, calls: seq<Call>, call: Call)
    requires TokensAreLeast(origin, calls) && Run(Begin(origin), calls).budget.lastRefill == Mark(origin, calls)
    requires Mark(origin, calls) <= call.now
    ensures var all := calls + [call];
      && Run(Begin(origin), all).budget.lastRefill == Mark(origin, all) <= call.now
      && TokensAreLeast(origin, all)
  {
    hide LeftSince, Run, Next, Mark, Earnings, TokensAreLeast;
    RunNext(origin, calls, call);
    CallDoes(Run(Begin(origin), calls), call);
    LeastNext(origin, calls, call);
  }

  lemma NothingYet(origin: nat)
    ensures Run(Begin(origin), []).budget.lastRefill == Mark(origin, []) == origin
    ensures TokensAreLeast(origin, [])
  {
    assert LeftSince(origin, [], 0) == BURST;
  }

  lemma LeastNext(origin: nat, calls: seq<Call>, call: Call)
    requires TokensAreLeast(origin, calls)
    requires var was, now := Run(Begin(origin), calls).budget.tokens, Run(Begin(origin), calls + [call]).budget.tokens;
      now == Min(was + (Earnings(origin, calls + [call]) - Earnings(origin, calls)), BURST)
             - (Admitted(origin, calls + [call]) - Admitted(origin, calls))
    ensures TokensAreLeast(origin, calls + [call])
  {
    hide LeftSince, Run, Earnings;
    var n, all := |calls|, calls + [call];
    LeftNow(origin, calls, call);
    forall j | 0 <= j <= n
      ensures LeftSince(origin, all, j) == LeftSince(origin, calls, j)
        + (Earnings(origin, all) - Earnings(origin, calls)) - (Admitted(origin, all) - Admitted(origin, calls))
    {
      LeftNext(origin, calls, call, j);
    }
    var k :| 0 <= k <= n && Run(Begin(origin), calls).budget.tokens == LeftSince(origin, calls, k);
    assert LeftSince(origin, all, k) == LeftSince(origin, calls, k)
        + (Earnings(origin, all) - Earnings(origin, calls)) - (Admitted(origin, all) - Admitted(origin, calls));
    assert |all| == n + 1;
  }

  // ---------------------------------------------------------------- the results

  /**
   The admissions from moment j on have used up a burst and all that was earned since, this
   call's refill included.
   */
  ghost predicate UsedUpSince(origin: nat, calls: seq<Call>, call: Call, j: nat)
    requires j <= |calls|
  {
    Admitted(origin, calls) - Admitted(origin, calls[..if j == 0 then 0 else j - 1])
    >= BURST + Earnings(origin, calls + [call]) - Earnings(origin, calls[..j])
  }

  /** On every run a packet is refused exactly when the budget of some moment has been used up. */
  lemma RefusedExactly(origin: nat, calls: seq<Call>, now: nat, bytes: nat)
    requires Forward(origin, calls + [Allow(now, bytes)])
    ensures !Allowed(Run(Begin(origin), calls).budget, now, bytes).1 <==>
      exists j | 0 <= j <= |calls| :: UsedUpSince(origin, calls, Allow(now, bytes), j)
  {
    hide Run, Mark, Earnings, Allowed, Forward;
    var call, t := Allow(now, bytes), Run(Begin(origin), calls);
    ForwardFront(origin, calls, call);
    TokensFollowRun(origin, calls);
    RunNext(origin, calls, call);
    CallDoes(t, call);
    var earned := Earnings(origin, calls + [call]) - Earnings(origin, calls);
    forall j | 0 <= j <= |calls|
      ensures UsedUpSince(origin, calls, call, j) <==> LeftSince(origin, calls, j) + earned <= 0
    {
    }
    assert !Allowed(t.budget, now, bytes).1 <==> t.budget.tokens + earned == 0;
  }

  /** The first four hundred packets are admitted, however fast they come. */
  lemma BurstIsAdmitted(origin: nat, calls: seq<Call>, now: nat, bytes: nat)
    requires Forward(origin, calls + [Allow(now, bytes)])
    requires |Run(Begin(origin), calls).log| < BURST
    ensures Allowed(Run(Begin(origin), calls).budget, now, bytes).1
  {
    hide Run, Mark, Allowed, Forward;
    RefusedExactly(origin, calls, now, bytes);
    forall j | 0 <= j <= |calls| ensures !UsedUpSince(origin, calls, Allow(now, bytes), j) {
      EarningsGrow(origin, calls + [Allow(now, bytes)], j);
      assert (calls + [Allow(now, bytes)])[..j] == calls[..j];
    }
  }

  lemma {:induction false} EarningsGrow(origin: nat, calls: seq<Call>, j: nat)
    requires j <= |calls|
    ensures Earnings(origin, calls[..j]) <= Earnings(origin, calls)
  {
    hide Mark;
    if j < |calls| {
      var front := calls[..|calls| - 1];
      EarningsGrow(origin, front, j);
      assert front[..j] == calls[..j];
    } else {
      assert calls[..j] == calls;
    }
  }

  /** The last refill is at creation or at some `Allow`; without one, nothing was admitted. */
  lemma {:induction false} MarkByAllow(origin: nat, calls: seq<Call>)
    ensures Mark(origin, calls) == origin
      || exists i | 0 <= i < |calls| :: calls[i].Allow? && calls[i].now == Mark(origin, calls)
    ensures Admitted(origin, calls) > 0 ==> exists i | 0 <= i < |calls| :: calls[i].Allow?
  {
    if calls != [] {
      MarkByAllow(origin, calls[..|calls| - 1]);
      assert forall i | 0 <= i < |calls| - 1 :: calls[..|calls| - 1][i] == calls[i];
    }
  }

  /** A packet one pace after the last one asked for is admitted, whatever came before. */
  lemma PausedIsAdmitted(origin: nat, calls: seq<Call>, now: nat, bytes: nat)
    requires Forward(origin, calls + [Allow(now, bytes)])
    requires forall i | 0 <= i < |calls| && calls[i].Allow? :: calls[i].now + PACE <= now
    ensures Allowed(Run(Begin(origin), calls).budget, now, bytes).1
  {
    hide Run, Mark, Allowed;
    var call := Allow(now, bytes);
    ForwardFront(origin, calls, call);
    if Admitted(origin, calls) == 0 {
      BurstIsAdmitted(origin, calls, now, bytes);
    } else {
      TokensFollowRun(origin, calls);
      MarkByAllow(origin, calls);
      CallDoes(Run(Begin(origin), calls), call);
      assert Mark(origin, calls) + PACE <= now;
    }
  }

  /** The time of the last sign of life: a touch, or a packet that was admitted. */
  function LastSign(origin: nat, calls: seq<Call>): nat {
    if calls == [] then origin else
      var front, last := calls[..|calls| - 1], calls[|calls| - 1];
      if last.Touch? || Admitted(origin, calls) > Admitted(origin, front) then last.now else LastSign(origin, front)
  }

  lemma ActiveNext(t: Trail, call: Call)
    requires Shaped(t.budget)
    ensures var after := Next(t, call);
      after.budget.lastActive == if call.Touch? || |after.log| > |t.log| then call.now else t.budget.lastActive
  {
    hide Steps, Cleared, Earned;
  }

  /** A connection is idle since its last sign of life; measuring it and refusing it are none. */
  lemma {:induction false} IdleSinceLastSign(origin: nat, calls: seq<Call>)
    ensures Run(Begin(origin), calls).budget.lastActive == LastSign(origin, calls)
    decreases |calls|
  {
    if calls != [] {
      hide Next;
      var front := calls[..|calls| - 1];
      IdleSinceLastSign(origin, front);
      ActiveNext(Run(Begin(origin), front), calls[|calls| - 1]);
    }
  }

  /** An admitted packet is billed its bytes and 32 more, up to a 32-bit number; a refused one nothing. */
  lemma BilledWithOverhead(t: Trail, now: nat, bytes: nat)
    requires Shaped(t.budget)
    ensures Next(t, Allow(now, bytes)).log ==
      if !Allowed(t.budget, now, bytes).1 then t.log
      else t.log + [Entry(now, if bytes + 32 < 0x1_0000_0000 then bytes + 32 else 0xffff_ffff)]
  {
    hide Refilled, Rolled;
  }
}
