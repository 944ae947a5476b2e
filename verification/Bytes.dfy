/** Bytes as bit patterns, which the cipher works on, and as numbers, which the counters work on. */
module Bytes {
  type Byte = x: nat | x < 256

  function ToByte(b: bv8): Byte {
    b as nat
  }

  function ToBits(x: Byte): bv8 {
    if x == 0 then 0 else ToBits(x - 1) + 1
  }

  lemma Successor(b: bv8)
    ensures b as nat < 255 ==> (b + 1) as nat == b as nat + 1
  {
  }

  lemma {:induction false} ByteRoundTrip(x: Byte)
    ensures ToByte(ToBits(x)) == x
  {
    if x > 0 {
      ByteRoundTrip(x - 1);
      Successor(ToBits(x - 1));
    }
  }
}
