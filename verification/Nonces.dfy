/**
 * The 16-byte packet counter: a little-endian number that wraps, and the byte loops
 * that step it from a chosen byte upwards.
 */
module Nonces {
  import opened Blocks
  import opened Bytes

  function Power(n: nat): (p: nat)
    ensures p > 0
  {
    if n == 0 then 1 else 256 * Power(n - 1)
  }

  /** The number of distinct counters. */
  const NONCES: nat := Power(16)

  function Value(bytes: seq<Byte>): nat {
    if |bytes| == 0 then 0 else bytes[0] + 256 * Value(bytes[1..])
  }

  function Digits(value: nat, n: nat): (r: seq<Byte>)
    ensures |r| == n
  {
    if n == 0 then [] else [value % 256] + Digits(value / 256, n - 1)
  }

  /** The counter as the cipher's input. */
  function Nonce(position: nat): Block {
    AsBlock(Digits(position, 16))
  }

  function AsBlock(bytes: seq<Byte>): Block
    requires |bytes| == 16
  {
    seq(16, i requires 0 <= i < 16 => ToBits(bytes[i]))
  }

  // ----- Remainders -----

  lemma {:induction false} MulAtLeast(k: int, m: int)
    requires k >= 1 && m >= 0
    ensures k * m >= m
  {
    if k > 1 {
      MulAtLeast(k - 1, m);
      assert k * m == (k - 1) * m + m;
    }
  }

  lemma OnlyZeroMultiple(k: int, m: int)
    requires -m < k * m < m
    ensures k * m == 0
  {
    if k >= 1 {
      MulAtLeast(k, m);
    } else if k <= -1 {
      assert (-k) * m == -(k * m);
      MulAtLeast(-k, m);
    }
  }

  /** A remainder is known by any quotient that leaves it. */
  lemma Remainder(x: int, k: int, m: int, r: int)
    requires 0 <= r < m && x == k * m + r
    ensures x % m == r
  {
    var q := x / m;
    assert x == q * m + x % m;
    assert (q - k) * m == r - x % m;
    OnlyZeroMultiple(q - k, m);
  }

  lemma ScaleMod(x: int, low: Byte, top: int)
    requires top > 0
    ensures low + 256 * (x % top) == (low + 256 * x) % (256 * top)
  {
    var q, r := x / top, x % top;
    assert x == q * top + r;
    assert low + 256 * x == q * (256 * top) + (low + 256 * r);
    Remainder(low + 256 * x, q, 256 * top, low + 256 * r);
  }

  // ----- Values and digits are inverse -----

  lemma {:induction false} DigitsOfValue(bytes: seq<Byte>)
    ensures Value(bytes) < Power(|bytes|)
    ensures Digits(Value(bytes), |bytes|) == bytes
  {
    if |bytes| > 0 {
      DigitsOfValue(bytes[1..]);
      assert Value(bytes) % 256 == bytes[0] && Value(bytes) / 256 == Value(bytes[1..]);
      assert bytes == [bytes[0]] + bytes[1..];
    }
  }

  lemma {:induction false} ValueOfDigits(value: nat, n: nat)
    requires value < Power(n)
    ensures Value(Digits(value, n)) == value
    decreases n
  {
    if n > 0 {
      ValueOfDigits(value / 256, n - 1);
      assert Digits(value, n)[1..] == Digits(value / 256, n - 1);
    }
  }

  /** At each length, bytes and the numbers below 256 to that power stand for each other one to one. */
  lemma ValueIsBijective(bytes: seq<Byte>, value: nat)
    requires value < Power(|bytes|)
    ensures Value(bytes) == value <==> bytes == Digits(value, |bytes|)
  {
    hide Value, Power, Digits;
    DigitsOfValue(bytes);
    ValueOfDigits(value, |bytes|);
  }

  /** The two lowest bytes of a counter. */
  lemma LowBytes(bytes: seq<Byte>)
    requires |bytes| >= 2
    ensures Value(bytes) % 256 == bytes[0]
    ensures Value(bytes) / 256 % 256 == bytes[1]
  {
    assert Value(bytes) == bytes[0] + 256 * Value(bytes[1..]);
    assert Value(bytes[1..]) == bytes[1] + 256 * Value(bytes[1..][1..]);
  }

  // ----- Stepping -----

  /** The wrapping successor of a byte. */
  function Up(b: Byte): Byte {
    if b == 255 then 0 else b + 1
  }

  /** The wrapping predecessor of a byte. */
  function Down(b: Byte): Byte {
    if b == 0 then 255 else b - 1
  }

  function Incremented(bytes: seq<Byte>): (r: seq<Byte>)
    ensures |r| == |bytes|
  {
    if |bytes| == 0 then []
    else if bytes[0] < 255 then [bytes[0] + 1] + bytes[1..]
    else [0] + Incremented(bytes[1..])
  }

  function Decremented(bytes: seq<Byte>): (r: seq<Byte>)
    ensures |r| == |bytes|
  {
    if |bytes| == 0 then []
    else if bytes[0] != 0 then [bytes[0] - 1] + bytes[1..]
    else [255] + Decremented(bytes[1..])
  }

  lemma {:induction false} IncrementedValue(bytes: seq<Byte>)
    ensures Value(Incremented(bytes)) == (Value(bytes) + 1) % Power(|bytes|)
  {
    DigitsOfValue(bytes);
    DigitsOfValue(Incremented(bytes));
    if |bytes| > 0 {
      var rest, top := bytes[1..], Power(|bytes| - 1);
      if bytes[0] < 255 {
        assert Incremented(bytes)[1..] == rest;
        Remainder(Value(bytes) + 1, 0, Power(|bytes|), Value(bytes) + 1);
      } else {
        IncrementedValue(rest);
        assert Incremented(bytes)[1..] == Incremented(rest);
        ScaleMod(Value(rest) + 1, 0, top);
      }
    }
  }

  /** Taking one away and adding it back is the identity, so decrementing is the inverse step. */
  lemma {:induction false} IncrementDecrement(bytes: seq<Byte>)
    ensures Incremented(Decremented(bytes)) == bytes
  {
    if |bytes| > 0 {
      var d := Decremented(bytes);
      if bytes[0] != 0 {
        assert d[1..] == bytes[1..];
      } else {
        IncrementDecrement(bytes[1..]);
        assert d[1..] == Decremented(bytes[1..]);
      }
    }
  }

  lemma StepBack(before: int, after: int, top: int)
    requires 0 <= before < top
    requires after == (before + 1) % top
    ensures before == (after - 1) % top
  {
    if before + 1 < top {
      Remainder(before + 1, 0, top, before + 1);
      Remainder(before, 0, top, before);
    } else {
      Remainder(before + 1, 1, top, 0);
      Remainder(-1, -1, top, before);
    }
  }

  lemma DecrementedValue(bytes: seq<Byte>)
    ensures Value(Decremented(bytes)) == (Value(bytes) - 1) % Power(|bytes|)
  {
    hide Value, Power, Decremented, Incremented;
    var d := Decremented(bytes);
    IncrementDecrement(bytes);
    IncrementedValue(d);
    DigitsOfValue(d);
    StepBack(Value(d), Value(bytes), Power(|bytes|));
  }

  /** A run of 255s passes the carry on to the first other byte, and nothing above that byte changes. */
  lemma {:induction false} Carry(bytes: seq<Byte>, n: nat)
    requires n <= |bytes| && forall k :: 0 <= k < n ==> bytes[k] == 255
    requires n < |bytes| ==> bytes[n] != 255
    ensures forall k :: 0 <= k < |bytes| ==>
      Incremented(bytes)[k] == if k < n then 0 else if k == n then Up(bytes[k]) else bytes[k]
    decreases n
  {
    if n > 0 {
      Carry(bytes[1..], n - 1);
      forall k | 0 < k < |bytes|
        ensures Incremented(bytes)[k] == if k < n then 0 else if k == n then Up(bytes[k]) else bytes[k]
      {
        assert Incremented(bytes)[k] == Incremented(bytes[1..])[k - 1] && bytes[k] == bytes[1..][k - 1];
      }
    }
  }

  /** A run of 0s passes the borrow on to the first other byte, and nothing above that byte changes. */
  lemma {:induction false} Borrow(bytes: seq<Byte>, n: nat)
    requires n <= |bytes| && forall k :: 0 <= k < n ==> bytes[k] == 0
    requires n < |bytes| ==> bytes[n] != 0
    ensures forall k :: 0 <= k < |bytes| ==>
      Decremented(bytes)[k] == if k < n then 255 else if k == n then Down(bytes[k]) else bytes[k]
    decreases n
  {
    if n > 0 {
      Borrow(bytes[1..], n - 1);
      forall k | 0 < k < |bytes|
        ensures Decremented(bytes)[k] == if k < n then 255 else if k == n then Down(bytes[k]) else bytes[k]
      {
        assert Decremented(bytes)[k] == Decremented(bytes[1..])[k - 1] && bytes[k] == bytes[1..][k - 1];
      }
    }
  }

  /** Adds one to the counter whose lowest byte is `start`. */
  method IncrementFrom(iv: array<Byte>, start: nat)
    requires start <= iv.Length
    modifies iv
    ensures iv[..start] == old(iv[..start])
    ensures iv[start..] == Incremented(old(iv[start..]))
  {
    hide Incremented;
    ghost var was := iv[..];
    var i := start;
    while i < iv.Length
      invariant start <= i <= iv.Length
      invariant forall k :: start <= k < i ==> was[k] == 255 && iv[k] == 0
      invariant forall k :: 0 <= k < start || i <= k < iv.Length ==> iv[k] == was[k]
    {
      iv[i] := Up(iv[i]);
      if iv[i] != 0 {
        break;
      }
      i := i + 1;
    }
    Carry(was[start..], i - start);
    assert forall k :: start <= k < iv.Length ==> iv[k] == Incremented(was[start..])[k - start];
  }

  /** Takes one from the counter whose lowest byte is `start`. */
  method DecrementFrom(iv: array<Byte>, start: nat)
    requires start <= iv.Length
    modifies iv
    ensures iv[..start] == old(iv[..start])
    ensures iv[start..] == Decremented(old(iv[start..]))
  {
    hide Decremented;
    ghost var was := iv[..];
    var i := start;
    while i < iv.Length
      invariant start <= i <= iv.Length
      invariant forall k :: start <= k < i ==> was[k] == 0 && iv[k] == 255
      invariant forall k :: 0 <= k < start || i <= k < iv.Length ==> iv[k] == was[k]
    {
      var before := iv[i];
      iv[i] := Down(iv[i]);
      if before != 0 {
        break;
      }
      i := i + 1;
    }
    Borrow(was[start..], i - start);
    assert forall k :: start <= k < iv.Length ==> iv[k] == Decremented(was[start..])[k - start];
  }

  // ----- Stepping the upper fifteen bytes -----

  lemma NoncesByByte()
    ensures NONCES == 256 * Power(15)
  {
  }

  lemma ValueOf(low: Byte, upper: seq<Byte>)
    ensures Value([low] + upper) == low + 256 * Value(upper)
  {
    assert ([low] + upper)[1..] == upper;
  }

  lemma UpperIncremented(low: Byte, upper: seq<Byte>)
    requires |upper| == 15
    ensures Value([low] + Incremented(upper)) == (Value([low] + upper) + 256) % NONCES
  {
    hide Value, Power, Incremented;
    NoncesByByte();
    ValueOf(low, upper);
    ValueOf(low, Incremented(upper));
    IncrementedValue(upper);
    ScaleMod(Value(upper) + 1, low, Power(15));
  }

  lemma UpperDecremented(low: Byte, upper: seq<Byte>)
    requires |upper| == 15
    ensures Value([low] + Decremented(upper)) == (Value([low] + upper) - 256) % NONCES
  {
    hide Value, Power, Decremented;
    NoncesByByte();
    ValueOf(low, upper);
    ValueOf(low, Decremented(upper));
    DecrementedValue(upper);
    ScaleMod(Value(upper) - 1, low, Power(15));
  }
}
