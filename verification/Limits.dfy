/**
 One connection's voice account: a token bucket that admits packets and a ten-slot ring that
 measures throughput. Times are nanoseconds on a clock handed in by the caller.
 */
module VoiceBudgets {
  const MILLI: nat := 1_000_000
  const PACKETS_PER_SECOND: nat := 200
  const BURST: nat := 400
  const PACKET_OVERHEAD: nat := 32
  const BUCKETS: nat := 10
  const BUCKET: nat := 100_000_000
  const WINDOW: nat := 1_000_000_000
  const U32_MAX: nat := 0xffff_ffff
  const USIZE_MAX: nat := 0xffff_ffff_ffff_ffff

  datatype Budget = Budget(
    tokens: nat, lastRefill: nat, billed: seq<nat>, bucket: nat, bucketStarted: nat, lastActive: nat)

  predicate Shaped(b: Budget) {
    b.tokens <= BURST && |b.billed| == 10 && b.bucket < 10
  }

  function Min(a: nat, b: nat): nat {
    if a < b then a else b
  }

  function Saturated(x: nat): nat {
    Min(x, U32_MAX)
  }

  /** Elapsed time, zero when the clock has gone back. */
  function Since(now: nat, earlier: nat): nat {
    if now < earlier then 0 else now - earlier
  }

  function Zeros(): seq<nat> {
    seq(10, i => 0)
  }

  function NewBudget(now: nat): Budget {
    Budget(BURST, now, Zeros(), 0, now, now)
  }

  // ---------------------------------------------------------------- the operations

  function Earned(elapsed: nat): nat {
    Saturated(elapsed / MILLI * PACKETS_PER_SECOND / 1000)
  }

  function Refilled(b: Budget, now: nat): (after: Budget)
    requires Shaped(b)
    ensures Shaped(after)
  {
    var elapsed := Since(now, b.lastRefill);
    if elapsed < MILLI || Earned(elapsed) == 0 then b
    else b.(tokens := Min(Saturated(b.tokens + Earned(elapsed)), BURST), lastRefill := now)
  }

  /** How many slots ahead of the current one a slot is, going round. */
  function Ahead(bucket: nat, i: nat): nat
    requires bucket < 10 && i < 10
  {
    if i >= bucket then i - bucket else i + 10 - bucket
  }

  function Cleared(billed: seq<nat>, bucket: nat, steps: nat): (r: seq<nat>)
    requires |billed| == 10 && bucket < 10
    ensures |r| == 10
  {
    seq(10, i requires 0 <= i < 10 => if 1 <= Ahead(bucket, i) <= steps then 0 else billed[i])
  }

  function Steps(b: Budget, now: nat): nat {
    Min(Since(now, b.bucketStarted) / MILLI / 100, USIZE_MAX)
  }

  function Rolled(b: Budget, now: nat): (after: Budget)
    requires Shaped(b)
    ensures Shaped(after)
  {
    var steps := Steps(b, now);
    if steps == 0 then b else
      var moved :=
        if steps >= 10 then b.(billed := Zeros(), bucket := 0)
        else b.(billed := Cleared(b.billed, b.bucket, steps), bucket := (b.bucket + steps) % 10);
      var started := b.bucketStarted + BUCKET * Saturated(steps);
      moved.(bucketStarted := if Since(now, started) > WINDOW then now else started)
  }

  function Allowed(b: Budget, now: nat, bytes: nat): (r: (Budget, bool))
    requires Shaped(b)
    ensures Shaped(r.0)
  {
    var full := Refilled(b, now);
    if full.tokens == 0 then (full, false) else
      var rolled := Rolled(full.(tokens := full.tokens - 1), now);
      var bill := Saturated(Min(bytes + PACKET_OVERHEAD, USIZE_MAX));
      (rolled.(billed := rolled.billed[rolled.bucket := Saturated(rolled.billed[rolled.bucket] + bill)],
               lastActive := now),
       true)
  }

  function Folded(billed: seq<nat>): nat {
    if billed == [] then 0 else Saturated(Folded(billed[..|billed| - 1]) + billed[|billed| - 1])
  }

  function Measured(b: Budget, now: nat): (r: (Budget, nat))
    requires Shaped(b)
    ensures Shaped(r.0)
  {
    var rolled := Rolled(b, now);
    (rolled, Folded(rolled.billed))
  }

  // ---------------------------------------------------------------- the object

  class VoiceBudget {
    var tokens: nat
    var lastRefill: nat
    const billed: array<nat>
    var bucket: nat
    var bucketStarted: nat
    var lastActive: nat

    ghost predicate Valid()
      reads this
    {
      tokens <= BURST && billed.Length == 10 && bucket < 10
    }

    ghost function State(): (b: Budget)
      requires Valid()
      reads this, billed
      ensures Shaped(b)
    {
      Budget(tokens, lastRefill, billed[..], bucket, bucketStarted, lastActive)
    }

    constructor (now: nat)
      ensures Valid() && fresh(billed) && State() == NewBudget(now)
    {
      tokens, lastRefill, bucket, bucketStarted, lastActive := BURST, now, 0, now, now;
      billed := new nat[10](i => 0);
      new;
      assert billed[..] == Zeros();
    }

    method Refill(now: nat)
      requires Valid()
      modifies this
      ensures Valid() && State() == Refilled(old(State()), now)
    {
      var elapsed := Since(now, lastRefill);
      if elapsed < MILLI {
        return;
      }
      var earned := Earned(elapsed);
      if earned == 0 {
        return;
      }
      tokens := Min(Saturated(tokens + earned), BURST);
      lastRefill := now;
    }

    method Roll(now: nat)
      requires Valid()
      modifies this, billed
      ensures Valid() && State() == Rolled(old(State()), now)
    {
      var steps := Min(Since(now, bucketStarted) / MILLI / 100, USIZE_MAX);
      if steps == 0 {
        return;
      }
      ghost var was := billed[..];
      if steps >= BUCKETS {
        for i := 0 to 10
          modifies billed
          invariant forall k | 0 <= k < i :: billed[k] == 0
        {
          billed[i] := 0;
        }
        assert billed[..] == Zeros();
        bucket := 0;
      } else {
        for step := 1 to steps + 1
          modifies billed
          invariant forall k | 0 <= k < 10 :: billed[k] == if 1 <= Ahead(bucket, k) < step then 0 else was[k]
        {
          var index := (bucket + step) % 10;
          assert Ahead(bucket, index) == step;
          billed[index] := 0;
        }
        assert billed[..] == Cleared(was, bucket, steps);
        bucket := (bucket + steps) % 10;
      }
      bucketStarted := bucketStarted + BUCKET * Saturated(steps);
      if Since(now, bucketStarted) > WINDOW {
        bucketStarted := now;
      }
    }

    /** Admits or refuses one packet, and bills it if admitted. */
    method Allow(now: nat, bytes: nat) returns (ok: bool)
      requires Valid()
      modifies this, billed
      ensures Valid() && (State(), ok) == Allowed(old(State()), now, bytes)
    {
      hide Refilled, Rolled;
      Refill(now);
      if tokens == 0 {
        return false;
      }
      tokens := tokens - 1;
      Roll(now);
      var bill := Saturated(Min(bytes + PACKET_OVERHEAD, USIZE_MAX));
      billed[bucket] := Saturated(billed[bucket] + bill);
      lastActive := now;
      ok := true;
    }

    method Bandwidth(now: nat) returns (total: nat)
      requires Valid()
      modifies this, billed
      ensures Valid() && (State(), total) == Measured(old(State()), now)
    {
      hide Rolled;
      Roll(now);
      total := 0;
      for i := 0 to 10
        invariant total == Folded(billed[..i])
      {
        assert billed[..i + 1][..i] == billed[..i];
        total := Saturated(total + billed[i]);
      }
      assert billed[..10] == billed[..];
    }
  }
}
