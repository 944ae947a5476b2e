/**
 Every run of the voice account over a clock that does not go back: what the ring reports is what
 an unbounded log of admitted packets says, and no interval admits more than its share.
 */
module LimitRuns {
  import opened VoiceBudgets

  datatype Entry = Entry(time: nat, bytes: nat)

  datatype Call = Allow(now: nat, bytes: nat) | Measure(now: nat) | Touch(now: nat)

  /** The account, and everything it has ever admitted. */
  datatype Trail = Trail(budget: Budget, log: seq<Entry>, clock: nat)

  function Begin(now: nat): Trail {
    Trail(NewBudget(now), [], now)
  }

  function Bill(bytes: nat): nat {
    Saturated(Min(bytes + PACKET_OVERHEAD, USIZE_MAX))
  }

  function Next(t: Trail, call: Call): (after: Trail)
    requires Shaped(t.budget)
    ensures Shaped(after.budget)
  {
    match call
    case Allow(now, bytes) =>
      var (budget, ok) := Allowed(t.budget, now, bytes);
      Trail(budget, if ok then t.log + [Entry(now, Bill(bytes))] else t.log, now)
    case Measure(now) => Trail(Measured(t.budget, now).0, t.log, now)
    case Touch(now) => Trail(t.budget.(lastActive := now), t.log, now)
  }

  function Run(t: Trail, calls: seq<Call>): (after: Trail)
    requires Shaped(t.budget)
    ensures Shaped(after.budget)
  {
    if calls == [] then t else Next(Run(t, calls[..|calls| - 1]), calls[|calls| - 1])
  }

  // ---------------------------------------------------------------- the ideal log

  /** The number of the bucket a time falls in, counted from the start of the account. */
  function Number(origin: nat, time: nat): nat {
    Since(time, origin) / BUCKET
  }

  /** The bytes an unbounded log bills to one bucket. */
  function BilledTo(origin: nat, log: seq<Entry>, number: int): nat {
    if log == [] then 0 else
      var last := log[|log| - 1];
      BilledTo(origin, log[..|log| - 1], number) + if Number(origin, last.time) == number then last.bytes else 0
  }

  /** The bytes it bills to the current bucket and the nine before it. */
  function Recent(origin: nat, log: seq<Entry>, current: int): nat {
    if log == [] then 0 else
      var last := log[|log| - 1];
      Recent(origin, log[..|log| - 1], current)
      + if current - 10 < Number(origin, last.time) <= current then last.bytes else 0
  }

  function Window(origin: nat, log: seq<Entry>, current: int, n: nat): nat {
    if n == 0 then 0 else Window(origin, log, current, n - 1) + BilledTo(origin, log, current - (n - 1))
  }

  lemma {:induction false} WindowNext(origin: nat, log: seq<Entry>, last: Entry, current: int, n: nat)
    ensures Window(origin, log + [last], current, n) ==
            Window(origin, log, current, n)
            + if current - n < Number(origin, last.time) <= current then last.bytes else 0
    decreases n
  {
    hide Number;
    if n > 0 {
      WindowNext(origin, log, last, current, n - 1);
      assert (log + [last])[..|log|] == log;
    }
  }

  /** The ten buckets together. */
  lemma {:induction false} RecentIsWindow(origin: nat, log: seq<Entry>, current: int)
    ensures Recent(origin, log, current) == Window(origin, log, current, 10)
  {
    hide Number;
    if log == [] {
      NothingBilled(origin, current, 10);
    } else {
      var n := |log| - 1;
      RecentIsWindow(origin, log[..n], current);
      WindowNext(origin, log[..n], log[n], current, 10);
      assert log[..n] + [log[n]] == log;
    }
  }

  lemma {:induction false} NothingBilled(origin: nat, current: int, n: nat)
    ensures Window(origin, [], current, n) == 0
    decreases n
  {
    if n > 0 {
      NothingBilled(origin, current, n - 1);
    }
  }

  // ---------------------------------------------------------------- the ring

  /** How many slots behind the current one a slot is, going round. */
  function Behind(bucket: nat, i: nat): nat
    requires bucket < 10 && i < 10
  {
    if i <= bucket then bucket - i else bucket + 10 - i
  }

  /** Each slot holds what the log bills to the bucket it stands for. */
  ghost predicate RingHolds(origin: nat, b: Budget, log: seq<Entry>, current: nat)
    requires Shaped(b)
  {
    forall i {:trigger b.billed[i]} | 0 <= i < 10 ::
      b.billed[i] == Saturated(BilledTo(origin, log, current - Behind(b.bucket, i)))
  }

  ghost predicate LoggedBy(origin: nat, log: seq<Entry>, current: nat) {
    forall i | 0 <= i < |log| :: Number(origin, log[i].time) <= current
  }

  ghost predicate Anchored(origin: nat, b: Budget, current: nat) {
    b.bucketStarted == origin + BUCKET * current
  }

  lemma {:induction false} FutureIsEmpty(origin: nat, log: seq<Entry>, current: nat, number: int)
    requires LoggedBy(origin, log, current) && number > current
    ensures BilledTo(origin, log, number) == 0
  {
    hide Number;
    if log != [] {
      FutureIsEmpty(origin, log[..|log| - 1], current, number);
    }
  }

  lemma WholeBuckets(elapsed: nat)
    ensures elapsed / MILLI / 100 == elapsed / BUCKET
  {
    var ms := elapsed / MILLI;
    assert elapsed == MILLI * ms + elapsed % MILLI;
    assert ms == 100 * (ms / 100) + ms % 100;
  }

  /** Rolling to a time moves the ring to that time's bucket. */
  lemma RollNumber(origin: nat, b: Budget, current: nat, now: nat)
    requires Shaped(b) && Anchored(origin, b, current)
    requires b.bucketStarted <= now < b.bucketStarted + BUCKET * (U32_MAX + 1)
    ensures Steps(b, now) <= U32_MAX
    ensures current + Steps(b, now) == Number(origin, now)
    ensures Anchored(origin, Rolled(b, now), Number(origin, now))
  {
    var elapsed := now - b.bucketStarted;
    WholeBuckets(elapsed);
    assert elapsed / BUCKET <= U32_MAX;
    var steps := Steps(b, now);
    assert steps == elapsed / BUCKET;
    assert (now - origin) == BUCKET * current + elapsed;
    assert (now - origin) / BUCKET == current + steps;
  }

  lemma RollKeepsRing(origin: nat, b: Budget, log: seq<Entry>, current: nat, now: nat)
    requires Shaped(b) && RingHolds(origin, b, log, current) && LoggedBy(origin, log, current)
    ensures RingHolds(origin, Rolled(b, now), log, current + Steps(b, now))
    ensures LoggedBy(origin, log, current + Steps(b, now))
  {
    hide BilledTo, Number, Steps;
    var steps, after := Steps(b, now), Rolled(b, now);
    forall i | 0 <= i < 10
      ensures after.billed[i] == Saturated(BilledTo(origin, log, current + steps - Behind(after.bucket, i)))
    {
      if steps == 0 {
        assert after.billed[i] == b.billed[i];
      } else if steps >= 10 {
        FutureIsEmpty(origin, log, current, current + steps - Behind(0, i));
      } else if 1 <= Ahead(b.bucket, i) <= steps {
        assert Behind(after.bucket, i) == steps - Ahead(b.bucket, i);
        FutureIsEmpty(origin, log, current, current + steps - Behind(after.bucket, i));
      } else {
        assert Behind(after.bucket, i) == Behind(b.bucket, i) + steps;
        assert after.billed[i] == b.billed[i];
      }
    }
  }

  /** Billing the current slot is logging to the current bucket. */
  lemma BillKeepsRing(origin: nat, b: Budget, log: seq<Entry>, current: nat, entry: Entry)
    requires Shaped(b) && RingHolds(origin, b, log, current) && LoggedBy(origin, log, current)
    requires Number(origin, entry.time) == current
    ensures var after := b.(billed := b.billed[b.bucket := Saturated(b.billed[b.bucket] + entry.bytes)]);
            RingHolds(origin, after, log + [entry], current) && LoggedBy(origin, log + [entry], current)
  {
    hide Number;
    var after := b.(billed := b.billed[b.bucket := Saturated(b.billed[b.bucket] + entry.bytes)]);
    assert (log + [entry])[..|log|] == log;
    forall i | 0 <= i < 10
      ensures after.billed[i] == Saturated(BilledTo(origin, log + [entry], current - Behind(b.bucket, i)))
    {
      assert b.billed[i] == Saturated(BilledTo(origin, log, current - Behind(b.bucket, i)));
      assert Behind(b.bucket, i) == 0 <==> i == b.bucket;
    }
  }

  // ---------------------------------------------------------------- reading the ring

  function Total(xs: seq<nat>): nat {
    if xs == [] then 0 else Total(xs[..|xs| - 1]) + xs[|xs| - 1]
  }

  lemma {:induction false} FoldedIsTotal(xs: seq<nat>, ys: seq<nat>)
    requires |xs| == |ys| && forall i | 0 <= i < |xs| :: xs[i] == Saturated(ys[i])
    ensures Folded(xs) == Saturated(Total(ys))
  {
    if xs != [] {
      FoldedIsTotal(xs[..|xs| - 1], ys[..|ys| - 1]);
    }
  }

  lemma TenTerms(xs: seq<nat>)
    requires |xs| == 10
    ensures Total(xs) == xs[0] + xs[1] + xs[2] + xs[3] + xs[4] + xs[5] + xs[6] + xs[7] + xs[8] + xs[9]
  {
    TotalUpTo(xs, 10);
    TotalUpTo(xs, 5);
  }

  lemma TotalUpTo(xs: seq<nat>, n: nat)
    requires 5 <= n <= |xs|
    ensures Total(xs[..n]) == Total(xs[..n - 5]) + xs[n - 5] + xs[n - 4] + xs[n - 3] + xs[n - 2] + xs[n - 1]
    ensures n == 5 ==> Total(xs[..0]) == 0
    ensures n == |xs| ==> xs[..n] == xs
  {
    assert xs[..n][..n - 1] == xs[..n - 1] && xs[..n - 1][..n - 2] == xs[..n - 2];
    assert xs[..n - 2][..n - 3] == xs[..n - 3] && xs[..n - 3][..n - 4] == xs[..n - 4];
    assert xs[..n - 4][..n - 5] == xs[..n - 5];
    assert Total(xs[..n]) == Total(xs[..n - 1]) + xs[n - 1];
    assert Total(xs[..n - 1]) == Total(xs[..n - 2]) + xs[n - 2];
    assert Total(xs[..n - 2]) == Total(xs[..n - 3]) + xs[n - 3];
    assert Total(xs[..n - 3]) == Total(xs[..n - 4]) + xs[n - 4];
  }

  function Slots(origin: nat, log: seq<Entry>, current: nat, bucket: nat): (r: seq<nat>)
    requires bucket < 10
    ensures |r| == 10
  {
    seq(10, i requires 0 <= i < 10 => BilledTo(origin, log, current - Behind(bucket, i)))
  }

  /** The slots, read in ring order, hold the same ten buckets. */
  lemma SlotsAreWindow(origin: nat, log: seq<Entry>, current: nat, bucket: nat)
    requires bucket < 10
    ensures Total(Slots(origin, log, current, bucket)) == Window(origin, log, current, 10)
  {
    hide BilledTo;
    TenTerms(Slots(origin, log, current, bucket));
    WindowOfTen(origin, log, current);
  }

  lemma WindowOfTen(origin: nat, log: seq<Entry>, current: int)
    ensures Window(origin, log, current, 10) ==
      BilledTo(origin, log, current) + BilledTo(origin, log, current - 1) + BilledTo(origin, log, current - 2)
      + BilledTo(origin, log, current - 3) + BilledTo(origin, log, current - 4) + BilledTo(origin, log, current - 5)
      + BilledTo(origin, log, current - 6) + BilledTo(origin, log, current - 7) + BilledTo(origin, log, current - 8)
      + BilledTo(origin, log, current - 9)
  {
    hide BilledTo;
    assert Window(origin, log, current, 1) == Window(origin, log, current, 0) + BilledTo(origin, log, current);
    assert Window(origin, log, current, 2) == Window(origin, log, current, 1) + BilledTo(origin, log, current - 1);
    assert Window(origin, log, current, 3) == Window(origin, log, current, 2) + BilledTo(origin, log, current - 2);
    assert Window(origin, log, current, 4) == Window(origin, log, current, 3) + BilledTo(origin, log, current - 3);
    assert Window(origin, log, current, 5) == Window(origin, log, current, 4) + BilledTo(origin, log, current - 4);
    assert Window(origin, log, current, 6) == Window(origin, log, current, 5) + BilledTo(origin, log, current - 5);
    assert Window(origin, log, current, 7) == Window(origin, log, current, 6) + BilledTo(origin, log, current - 6);
    assert Window(origin, log, current, 8) == Window(origin, log, current, 7) + BilledTo(origin, log, current - 7);
    assert Window(origin, log, current, 9) == Window(origin, log, current, 8) + BilledTo(origin, log, current - 8);
    assert Window(origin, log, current, 10) == Window(origin, log, current, 9) + BilledTo(origin, log, current - 9);
  }

  /** The reading is the ideal window's bytes, saturated. */
  lemma ReadingIsExact(origin: nat, b: Budget, log: seq<Entry>, current: nat)
    requires Shaped(b) && RingHolds(origin, b, log, current)
    ensures Folded(b.billed) == Saturated(Recent(origin, log, current))
  {
    hide BilledTo, Window, Recent, Folded, Total;
    FoldedIsTotal(b.billed, Slots(origin, log, current, b.bucket));
    SlotsAreWindow(origin, log, current, b.bucket);
    RecentIsWindow(origin, log, current);
  }

  // ---------------------------------------------------------------- every run: the meter

  /** The clock does not go back, and the ring is never left alone for 2^32 buckets. */
  ghost predicate Timely(t: Trail, call: Call) {
    t.clock <= call.now < t.budget.bucketStarted + BUCKET * (U32_MAX + 1)
  }

  ghost predicate AllTimely(t: Trail, calls: seq<Call>)
    requires Shaped(t.budget)
  {
    calls != [] ==>
      AllTimely(t, calls[..|calls| - 1]) && Timely(Run(t, calls[..|calls| - 1]), calls[|calls| - 1])
  }

  ghost predicate MeterBy(origin: nat, t: Trail, current: nat) {
    && Shaped(t.budget)
    && Anchored(origin, t.budget, current)
    && t.budget.bucketStarted <= t.clock
    && RingHolds(origin, t.budget, t.log, current)
    && LoggedBy(origin, t.log, current)
  }

  ghost predicate MeterHolds(origin: nat, t: Trail) {
    exists current :: MeterBy(origin, t, current)
  }

  lemma RollHolds(origin: nat, t: Trail, current: nat, now: nat)
    requires MeterBy(origin, t, current) && Timely(t, Measure(now))
    ensures MeterBy(origin, t.(budget := Rolled(t.budget, now), clock := now), Number(origin, now))
  {
    hide RingHolds, LoggedBy, BilledTo, Rolled;
    RollNumber(origin, t.budget, current, now);
    RollKeepsRing(origin, t.budget, t.log, current, now);
    RollStarted(origin, t.budget, current, now);
  }

  lemma RollStarted(origin: nat, b: Budget, current: nat, now: nat)
    requires Shaped(b) && Anchored(origin, b, current)
    requires b.bucketStarted <= now < b.bucketStarted + BUCKET * (U32_MAX + 1)
    ensures Rolled(b, now).bucketStarted <= now
  {
    RollNumber(origin, b, current, now);
  }

  /** Every reading of every run is the bytes the log bills to the current bucket and the nine before it. */
  lemma MeterIsExact(origin: nat, t: Trail, now: nat)
    requires MeterHolds(origin, t) && Timely(t, Measure(now))
    ensures Measured(t.budget, now).1 == Saturated(Recent(origin, t.log, Number(origin, now)))
    ensures MeterHolds(origin, Next(t, Measure(now)))
  {
    hide MeterBy, Rolled, Recent, Number, Folded;
    var current :| MeterBy(origin, t, current);
    MeterShaped(origin, t, current);
    RollHolds(origin, t, current, now);
    MeterShaped(origin, t.(budget := Rolled(t.budget, now), clock := now), Number(origin, now));
    ReadingIsExact(origin, Rolled(t.budget, now), t.log, Number(origin, now));
  }

  lemma MeterShaped(origin: nat, t: Trail, current: nat)
    requires MeterBy(origin, t, current)
    ensures Shaped(t.budget) && RingHolds(origin, t.budget, t.log, current)
  {
  }

  lemma RefillKeepsMeter(origin: nat, t: Trail, current: nat, now: nat, taken: nat)
    requires MeterBy(origin, t, current)
    requires taken <= Refilled(t.budget, now).tokens
    ensures var full := Refilled(t.budget, now);
            MeterBy(origin, t.(budget := full.(tokens := full.tokens - taken)), current)
  {
    hide BilledTo;
    var full := Refilled(t.budget, now);
    assert full.billed == t.budget.billed && full.bucket == t.budget.bucket;
  }

  lemma AllowKeepsMeter(origin: nat, t: Trail, now: nat, bytes: nat)
    requires MeterHolds(origin, t) && Timely(t, Allow(now, bytes))
    ensures MeterHolds(origin, Next(t, Allow(now, bytes)))
  {
    hide Rolled, Refilled, RingHolds, LoggedBy, BilledTo;
    var current :| MeterBy(origin, t, current);
    var full := Refilled(t.budget, now);
    if full.tokens == 0 {
      RefillKeepsMeter(origin, t, current, now, 0);
      assert MeterBy(origin, Next(t, Allow(now, bytes)), current);
    } else {
      RefillKeepsMeter(origin, t, current, now, 1);
      var charged := t.(budget := full.(tokens := full.tokens - 1));
      RefillStarted(t.budget, now);
      RollHolds(origin, charged, current, now);
      var number := Number(origin, now);
      BillKeepsRing(origin, Rolled(charged.budget, now), t.log, number, Entry(now, Bill(bytes)));
      RingIgnoresActivity(origin, Next(t, Allow(now, bytes)), number, t.log + [Entry(now, Bill(bytes))]);
      assert MeterBy(origin, Next(t, Allow(now, bytes)), number);
    }
  }

  lemma RefillStarted(b: Budget, now: nat)
    requires Shaped(b)
    ensures Refilled(b, now).bucketStarted == b.bucketStarted
  {
  }

  lemma RingIgnoresActivity(origin: nat, t: Trail, current: nat, log: seq<Entry>)
    requires Shaped(t.budget)
    requires exists active :: RingHolds(origin, t.budget.(lastActive := active), log, current)
    ensures RingHolds(origin, t.budget, log, current)
  {
    hide BilledTo;
  }

  lemma MeterKept(origin: nat, t: Trail, call: Call)
    requires MeterHolds(origin, t) && Timely(t, call)
    ensures MeterHolds(origin, Next(t, call))
  {
    match call {
      case Allow(now, bytes) => AllowKeepsMeter(origin, t, now, bytes);
      case Measure(now) => MeterIsExact(origin, t, now);
      case Touch(now) =>
        hide BilledTo;
        var current :| MeterBy(origin, t, current);
        assert MeterBy(origin, Next(t, call), current);
    }
  }

  lemma {:induction false} RunsKeepMeter(origin: nat, calls: seq<Call>)
    requires AllTimely(Begin(origin), calls)
    ensures MeterHolds(origin, Run(Begin(origin), calls))
  {
    hide MeterBy, Next, Timely;
    if calls == [] {
      BeginHolds(origin);
    } else {
      RunsKeepMeter(origin, calls[..|calls| - 1]);
      MeterKept(origin, Run(Begin(origin), calls[..|calls| - 1]), calls[|calls| - 1]);
    }
  }

  lemma BeginHolds(origin: nat)
    ensures MeterHolds(origin, Begin(origin))
  {
    assert MeterBy(origin, Begin(origin), 0);
  }

  /** Every reading of every run. */
  lemma EveryReadingIsExact(origin: nat, calls: seq<Call>, now: nat)
    requires AllTimely(Begin(origin), calls + [Measure(now)])
    ensures var t := Run(Begin(origin), calls);
            Measured(t.budget, now).1 == Saturated(Recent(origin, t.log, Number(origin, now)))
  {
    hide MeterHolds, Measured, Recent, Next;
    var more := calls + [Measure(now)];
    assert more[..|more| - 1] == calls && more[|more| - 1] == Measure(now);
    RunsKeepMeter(origin, calls);
    MeterIsExact(origin, Run(Begin(origin), calls), now);
  }

  // ---------------------------------------------------------------- every run: admission

  const PACE: nat := 5_000_000

  /** One token per five whole milliseconds. */
  lemma EarnedIsPace(elapsed: nat)
    ensures Earned(elapsed) == Saturated(elapsed / PACE)
    ensures elapsed < MILLI ==> elapsed / PACE == 0
  {
    var ms := elapsed / MILLI;
    assert elapsed == MILLI * ms + elapsed % MILLI;
    assert ms * 200 / 1000 == ms / 5;
    assert ms == 5 * (ms / 5) + ms % 5;
  }

  /** What a refill does: it adds at most what the clock earned, and leaves less than one token unearned. */
  lemma RefillSteps(b: Budget, now: nat)
    requires Shaped(b) && b.lastRefill <= now
    ensures var full := Refilled(b, now);
            && full.tokens <= b.tokens + (full.lastRefill - b.lastRefill) / PACE
            && b.lastRefill <= full.lastRefill <= now
            && now - full.lastRefill < PACE
  {
    var elapsed := now - b.lastRefill;
    EarnedIsPace(elapsed);
    if Earned(elapsed) == 0 {
      assert elapsed / PACE == 0;
    }
  }

  lemma FloorsAdd(a: nat, b: nat)
    ensures a / PACE + b / PACE <= (a + b) / PACE <= a / PACE + b / PACE + 1
  {
  }

  /** Tokens left plus packets admitted since `from` never outgrow the allowance plus what the clock earned. */
  ghost predicate Budgeted(t: Trail, already: nat, allowance: nat, from: nat) {
    && Shaped(t.budget)
    && from <= t.budget.lastRefill <= t.clock
    && already <= |t.log|
    && t.budget.tokens + (|t.log| - already) <= allowance + (t.budget.lastRefill - from) / PACE
  }

  lemma RollKeepsTokens(b: Budget, now: nat)
    requires Shaped(b)
    ensures Rolled(b, now).tokens == b.tokens && Rolled(b, now).lastRefill == b.lastRefill
  {
  }

  lemma BudgetedStep(t: Trail, call: Call, already: nat, allowance: nat, from: nat)
    requires Budgeted(t, already, allowance, from) && t.clock <= call.now
    ensures Budgeted(Next(t, call), already, allowance, from)
  {
    hide Rolled, Refilled;
    match call {
      case Allow(now, bytes) =>
        var full := Refilled(t.budget, now);
        RefillSteps(t.budget, now);
        FloorsAdd(t.budget.lastRefill - from, full.lastRefill - t.budget.lastRefill);
        if full.tokens > 0 {
          RollKeepsTokens(full.(tokens := full.tokens - 1), now);
        }
      case Measure(now) => RollKeepsTokens(t.budget, now);
      case Touch(now) =>
    }
  }

  /** The calls' times never go back, starting from `clock`. */
  ghost predicate Forward(clock: nat, calls: seq<Call>) {
    forall i | 0 <= i < |calls| :: clock <= calls[i].now && (i > 0 ==> calls[i - 1].now <= calls[i].now)
  }

  lemma {:induction false} RunClock(t: Trail, calls: seq<Call>)
    requires Shaped(t.budget)
    ensures Run(t, calls).clock == if calls == [] then t.clock else calls[|calls| - 1].now
  {
  }

  lemma {:induction false} BudgetedRun(t: Trail, calls: seq<Call>, already: nat, allowance: nat, from: nat)
    requires Budgeted(t, already, allowance, from) && Forward(t.clock, calls)
    ensures Budgeted(Run(t, calls), already, allowance, from)
  {
    hide Budgeted, Next;
    if calls != [] {
      var n := |calls| - 1;
      BudgetedShaped(t, already, allowance, from);
      BudgetedRun(t, calls[..n], already, allowance, from);
      RunClock(t, calls[..n]);
      BudgetedStep(Run(t, calls[..n]), calls[n], already, allowance, from);
    }
  }

  lemma BudgetedShaped(t: Trail, already: nat, allowance: nat, from: nat)
    requires Budgeted(t, already, allowance, from)
    ensures Shaped(t.budget)
  {
  }

  /** From its creation an account admits at most the burst and one packet per five milliseconds. */
  lemma AdmittedSinceCreation(origin: nat, calls: seq<Call>)
    requires Forward(origin, calls)
    ensures |Run(Begin(origin), calls).log| <= BURST + (Run(Begin(origin), calls).clock - origin) / PACE
  {
    hide Next;
    BudgetedRun(Begin(origin), calls, 0, BURST, origin);
    var t := Run(Begin(origin), calls);
    FloorsAdd(t.budget.lastRefill - origin, t.clock - t.budget.lastRefill);
  }

  /** Over any later stretch of calls, at most one packet more than that stretch's own bound. */
  lemma AdmittedBetween(t: Trail, calls: seq<Call>)
    requires Shaped(t.budget) && t.budget.lastRefill <= t.clock
    requires calls != [] && Forward(t.clock, calls)
    ensures |Run(t, calls).log| - |t.log| <= BURST + (calls[|calls| - 1].now - calls[0].now) / PACE + 1
    decreases |calls|
  {
    hide Next, Run, Forward;
    var first, rest := calls[0], calls[1..];
    assert [first] + rest == calls;
    RunSplit(t, first, rest);
    ForwardTail(t.clock, calls);
    if first.Allow? {
      FirstAllow(t, first.now, first.bytes);
      BetweenFromAllow(t, first, rest, Refilled(t.budget, first.now).lastRefill);
    } else {
      QuietStep(t, first);
      if rest == [] {
        RunNothing(Next(t, first));
      } else {
        AdmittedBetween(Next(t, first), rest);
        ForwardFrom(t.clock, calls, 1);
        ForwardFrom(first.now, rest, |rest| - 1);
        Sooner(first.now, rest[0].now, rest[|rest| - 1].now);
      }
    }
  }

  /** The same of any stretch of any run. */
  lemma AdmittedInAnyStretch(origin: nat, before: seq<Call>, calls: seq<Call>)
    requires calls != [] && Forward(origin, before + calls)
    ensures |Run(Run(Begin(origin), before), calls).log| - |Run(Begin(origin), before).log|
            <= BURST + (calls[|calls| - 1].now - calls[0].now) / PACE + 1
  {
    hide Next, Run, Budgeted;
    var all := before + calls;
    assert all[..|before|] == before && forall i | 0 <= i < |calls| :: calls[i] == all[|before| + i];
    assert Forward(origin, before) by {
      assert forall i | 0 <= i < |before| :: before[i] == all[i];
    }
    BeginBudgeted(origin);
    BudgetedRun(Begin(origin), before, 0, BURST, origin);
    var t := Run(Begin(origin), before);
    RefillBehindClock(t, 0, BURST, origin);
    RunClock(Begin(origin), before);
    assert Forward(t.clock, calls) by {
      ForwardSuffix(origin, before, calls);
    }
    AdmittedBetween(t, calls);
  }

  lemma BeginBudgeted(origin: nat)
    ensures Budgeted(Begin(origin), 0, BURST, origin)
  {
  }

  lemma RefillBehindClock(t: Trail, already: nat, allowance: nat, from: nat)
    requires Budgeted(t, already, allowance, from)
    ensures Shaped(t.budget) && t.budget.lastRefill <= t.clock
  {
  }

  lemma ForwardSuffix(origin: nat, before: seq<Call>, calls: seq<Call>)
    requires Forward(origin, before + calls) && calls != []
    ensures Forward(if before == [] then origin else before[|before| - 1].now, calls)
  {
    var all := before + calls;
    var clock := if before == [] then origin else before[|before| - 1].now;
    forall i | 0 <= i < |calls| ensures clock <= calls[i].now && (i > 0 ==> calls[i - 1].now <= calls[i].now) {
      assert calls[i] == all[|before| + i] && (i > 0 ==> calls[i - 1] == all[|before| + i - 1]);
      LaterThan(origin, all, if before == [] then 0 else |before| - 1, |before| + i);
    }
  }

  lemma {:induction false} LaterThan(clock: nat, calls: seq<Call>, i: nat, j: nat)
    requires Forward(clock, calls) && i <= j < |calls|
    ensures calls[i].now <= calls[j].now
  {
    if i < j {
      LaterThan(clock, calls, i, j - 1);
    }
  }

  lemma RunNothing(t: Trail)
    requires Shaped(t.budget)
    ensures Run(t, []) == t
  {
  }

  lemma BetweenFromAllow(t: Trail, first: Call, rest: seq<Call>, since: nat)
    requires Shaped(t.budget) && Forward(first.now, rest)
    requires Budgeted(Next(t, first), |t.log|, BURST, since) && since <= first.now && first.now - since < PACE
    requires Next(t, first).clock == first.now
    ensures var last := if rest == [] then first.now else rest[|rest| - 1].now;
            last >= first.now && |Run(Next(t, first), rest).log| - |t.log| <= BURST + (last - first.now) / PACE + 1
  {
    hide Next, Run, Budgeted;
    var begun := Next(t, first);
    BudgetedShaped(begun, |t.log|, BURST, since);
    BudgetedRun(begun, rest, |t.log|, BURST, since);
    RunClock(begun, rest);
    if rest != [] {
      assert rest[|rest| - 1].now >= first.now;
    }
    BoundFromRefill(Run(begun, rest), |t.log|, since, first.now, Run(begun, rest).clock);
  }

  lemma ForwardTail(clock: nat, calls: seq<Call>)
    requires Forward(clock, calls) && calls != []
    ensures Forward(calls[0].now, calls[1..]) && clock <= calls[0].now
  {
    var rest := calls[1..];
    forall i | 0 <= i < |rest| ensures calls[0].now <= rest[i].now && (i > 0 ==> rest[i - 1].now <= rest[i].now) {
      ForwardFrom(clock, calls, i + 1);
      assert rest[i] == calls[i + 1] && (i > 0 ==> rest[i - 1] == calls[i]);
    }
  }

  lemma Sooner(a: nat, b: nat, c: nat)
    requires a <= b <= c
    ensures (c - b) / PACE <= (c - a) / PACE
  {
  }

  lemma {:induction false} ForwardFrom(clock: nat, calls: seq<Call>, i: nat)
    requires Forward(clock, calls) && i < |calls|
    ensures calls[0].now <= calls[i].now
  {
    if i > 0 {
      ForwardFrom(clock, calls, i - 1);
    }
  }

  lemma {:induction false} RunSplit(t: Trail, first: Call, rest: seq<Call>)
    requires Shaped(t.budget)
    ensures Run(t, [first] + rest) == Run(Next(t, first), rest)
  {
    hide Next;
    var calls := [first] + rest;
    if rest == [] {
      assert calls == [first] && [first][..0] == [];
      assert Run(t, []) == t;
    } else {
      var n := |rest| - 1;
      RunSplit(t, first, rest[..n]);
      assert calls[..|calls| - 1] == [first] + rest[..n];
    }
  }

  /** After the first packet's refill the account holds at most the burst, that packet included. */
  lemma FirstAllow(t: Trail, now: nat, bytes: nat)
    requires Shaped(t.budget) && t.budget.lastRefill <= t.clock <= now
    ensures var since := Refilled(t.budget, now).lastRefill;
            && Budgeted(Next(t, Allow(now, bytes)), |t.log|, BURST, since)
            && Next(t, Allow(now, bytes)).clock == now
            && since <= now && now - since < PACE
  {
    hide Rolled;
    var full := Refilled(t.budget, now);
    RefillSteps(t.budget, now);
    if full.tokens > 0 {
      RollKeepsTokens(full.(tokens := full.tokens - 1), now);
    }
  }

  lemma QuietStep(t: Trail, call: Call)
    requires Shaped(t.budget) && t.budget.lastRefill <= t.clock <= call.now && !call.Allow?
    ensures var after := Next(t, call);
            after.log == t.log && after.budget.lastRefill <= after.clock && after.clock == call.now
  {
    hide Rolled;
    RollKeepsTokens(t.budget, call.now);
  }

  lemma BoundFromRefill(t: Trail, already: nat, since: nat, first: nat, last: nat)
    requires Budgeted(t, already, BURST, since) && t.clock <= last
    requires since <= first <= last && first - since < PACE
    ensures |t.log| - already <= BURST + (last - first) / PACE + 1
  {
    Sooner(since, t.budget.lastRefill, last);
    FloorsAdd(first - since, last - first);
    assert (first - since) / PACE == 0;
    assert (t.budget.lastRefill - since) / PACE <= (last - since) / PACE;
  }

  // ---------------------------------------------------------------- the remainder a refill drops

  /**
   Refilling twice gives as much as refilling once at the end if and only if the first refill
   earns nothing, or the two remainders together stay short of a token, or the account is full
   without them: a refill that earns anything drops its remainder.
   */
  lemma SplitRefill(b: Budget, first: nat, second: nat)
    requires Shaped(b) && first <= second
    ensures Refilled(Refilled(b, first), second).tokens == Refilled(b, second).tokens <==>
      || first < b.lastRefill + PACE
      || (first - b.lastRefill) % PACE + (second - first) % PACE < PACE
      || b.tokens + (first - b.lastRefill) / PACE + (second - first) / PACE >= BURST
  {
    hide Refilled;
    if first < b.lastRefill + PACE {
      RefillTooSoon(b, first);
    } else {
      RefillEarns(b, first);
      RefillEarns(b, second);
      FloorsExact(first - b.lastRefill, second - first);
      TokensAfter(Refilled(b, first), second);
    }
  }

  /** Nine milliseconds, then six: one refill would have earned three tokens, the two earn two. */
  lemma RemainderDropped()
    ensures var b := Budget(0, 0, Zeros(), 0, 0, 0);
      && Refilled(b, 15 * MILLI).tokens == 3
      && Refilled(Refilled(b, 9 * MILLI), 15 * MILLI).tokens == 2
  {
  }

  lemma FloorsExact(x: nat, y: nat)
    ensures (x + y) / PACE == x / PACE + y / PACE <==> x % PACE + y % PACE < PACE
    ensures x / PACE + y / PACE <= (x + y) / PACE
  {
    assert x == PACE * (x / PACE) + x % PACE && y == PACE * (y / PACE) + y % PACE;
    assert x + y == PACE * (x / PACE + y / PACE) + (x % PACE + y % PACE);
  }

  lemma RefillTooSoon(b: Budget, now: nat)
    requires Shaped(b) && now < b.lastRefill + PACE
    ensures Refilled(b, now) == b
  {
    EarnedIsPace(Since(now, b.lastRefill));
  }

  lemma RefillEarns(b: Budget, now: nat)
    requires Shaped(b) && b.lastRefill + PACE <= now
    ensures Refilled(b, now) == b.(tokens := Min(b.tokens + (now - b.lastRefill) / PACE, BURST), lastRefill := now)
  {
    EarnedIsPace(now - b.lastRefill);
    assert (now - b.lastRefill) / PACE >= 1;
  }

  lemma TokensAfter(b: Budget, now: nat)
    requires Shaped(b) && b.lastRefill <= now
    ensures Refilled(b, now).tokens == Min(b.tokens + (now - b.lastRefill) / PACE, BURST)
  {
    if now < b.lastRefill + PACE {
      RefillTooSoon(b, now);
      assert (now - b.lastRefill) / PACE == 0;
    } else {
      RefillEarns(b, now);
    }
  }
}
