/**
 * 16-byte blocks: XOR, and doubling and tripling in GF(2^128), as values and as the
 * in-place loops over a byte array.
 */
module Blocks {
  const BLOCK_SIZE: nat := 16

  type Block = b: seq<bv8> | |b| == 16 witness Zero()

  function Zero(): (r: seq<bv8>)
    ensures |r| == 16 && forall i :: 0 <= i < 16 ==> r[i] == 0
  {
    seq(16, i => 0)
  }

  function Xor(a: Block, b: Block): (r: Block)
    ensures forall i :: 0 <= i < 16 ==> r[i] == a[i] ^ b[i]
  {
    seq(16, i requires 0 <= i < 16 => a[i] ^ b[i])
  }

  function ShiftByte(high: bv8, low: bv8): bv8 {
    (high << 1) | (low >> 7)
  }

  function ReduceByte(last: bv8, carry: bv8): bv8 {
    (last << 1) ^ (carry * 0x87)
  }

  function TopBit(b: bv8): bv8 {
    b >> 7
  }

  function Double(b: Block): Block {
    seq(16, i requires 0 <= i < 16 => if i < 15 then ShiftByte(b[i], b[i + 1]) else ReduceByte(b[15], TopBit(b[0])))
  }

  function Triple(b: Block): Block {
    Xor(b, Double(b))
  }

  /** Sixteen bytes as a big-endian 128-bit number. */
  function Pack16(b0: bv8, b1: bv8, b2: bv8, b3: bv8,
                  b4: bv8, b5: bv8, b6: bv8, b7: bv8,
                  b8: bv8, b9: bv8, b10: bv8, b11: bv8,
                  b12: bv8, b13: bv8, b14: bv8, b15: bv8): bv128 {
    ((b0 as bv128) << 120) | ((b1 as bv128) << 112) | ((b2 as bv128) << 104) | ((b3 as bv128) << 96) |
    ((b4 as bv128) << 88) | ((b5 as bv128) << 80) | ((b6 as bv128) << 72) | ((b7 as bv128) << 64) |
    ((b8 as bv128) << 56) | ((b9 as bv128) << 48) | ((b10 as bv128) << 40) | ((b11 as bv128) << 32) |
    ((b12 as bv128) << 24) | ((b13 as bv128) << 16) | ((b14 as bv128) << 8) | (b15 as bv128)
  }

  function Pack(b: Block): bv128 {
    Pack16(b[0], b[1], b[2], b[3], b[4], b[5], b[6], b[7],
           b[8], b[9], b[10], b[11], b[12], b[13], b[14], b[15])
  }

  lemma ShiftPacked(b0: bv8, b1: bv8, b2: bv8, b3: bv8,
                    b4: bv8, b5: bv8, b6: bv8, b7: bv8,
                    b8: bv8, b9: bv8, b10: bv8, b11: bv8,
                    b12: bv8, b13: bv8, b14: bv8, b15: bv8)
    ensures Pack16((b0 << 1) | (b1 >> 7), (b1 << 1) | (b2 >> 7), (b2 << 1) | (b3 >> 7), (b3 << 1) | (b4 >> 7),
                   (b4 << 1) | (b5 >> 7), (b5 << 1) | (b6 >> 7), (b6 << 1) | (b7 >> 7), (b7 << 1) | (b8 >> 7),
                   (b8 << 1) | (b9 >> 7), (b9 << 1) | (b10 >> 7), (b10 << 1) | (b11 >> 7), (b11 << 1) | (b12 >> 7),
                   (b12 << 1) | (b13 >> 7), (b13 << 1) | (b14 >> 7), (b14 << 1) | (b15 >> 7),
                    (b15 << 1) ^ ((b0 >> 7) * 0x87))
            == (Pack16(b0, b1, b2, b3, b4, b5, b6, b7, b8, b9, b10, b11, b12, b13, b14, b15) << 1)
               ^ (if Pack16(b0, b1, b2, b3, b4, b5, b6, b7, b8, b9, b10, b11, b12, b13, b14, b15) >> 127 == 1
                  then 0x87 else 0)
  {
  }

  lemma DoublePacked(b0: bv8, b1: bv8, b2: bv8, b3: bv8,
                     b4: bv8, b5: bv8, b6: bv8, b7: bv8,
                     b8: bv8, b9: bv8, b10: bv8, b11: bv8,
                     b12: bv8, b13: bv8, b14: bv8, b15: bv8)
    ensures Pack16(ShiftByte(b0, b1), ShiftByte(b1, b2), ShiftByte(b2, b3), ShiftByte(b3, b4),
                   ShiftByte(b4, b5), ShiftByte(b5, b6), ShiftByte(b6, b7), ShiftByte(b7, b8),
                   ShiftByte(b8, b9), ShiftByte(b9, b10), ShiftByte(b10, b11), ShiftByte(b11, b12),
                   ShiftByte(b12, b13), ShiftByte(b13, b14), ShiftByte(b14, b15), ReduceByte(b15, TopBit(b0)))
            == (Pack16(b0, b1, b2, b3, b4, b5, b6, b7, b8, b9, b10, b11, b12, b13, b14, b15) << 1)
               ^ (if Pack16(b0, b1, b2, b3, b4, b5, b6, b7, b8, b9, b10, b11, b12, b13, b14, b15) >> 127 == 1
                  then 0x87 else 0)
  {
    hide Pack16;
    ShiftPacked(b0, b1, b2, b3, b4, b5, b6, b7, b8, b9, b10, b11, b12, b13, b14, b15);
  }

  /**
   * Doubling is multiplication by x in GF(2^128) with reduction polynomial 0x87: the
   * block, as one big-endian number, shifts left by a bit, and the bit that falls off
   * the top comes back as 0x87 at the bottom.
   */
  lemma DoubleIsFieldDoubling(b: Block)
    ensures Pack(Double(b)) == (Pack(b) << 1) ^ (if Pack(b) >> 127 == 1 then 0x87 else 0)
  {
    hide ShiftByte, ReduceByte, TopBit, Pack16;
    DoublePacked(b[0], b[1], b[2], b[3], b[4], b[5], b[6], b[7],
                 b[8], b[9], b[10], b[11], b[12], b[13], b[14], b[15]);
  }

  lemma XorTwice(a: Block, b: Block)
    ensures Xor(a, Xor(a, b)) == b
    ensures Xor(Xor(b, a), a) == b
  {
    forall i | 0 <= i < 16
      ensures Xor(a, Xor(a, b))[i] == b[i] && Xor(Xor(b, a), a)[i] == b[i]
    {
      ByteXorTwice(a[i], b[i]);
    }
  }

  lemma ByteXorTwice(a: bv8, b: bv8)
    ensures a ^ (a ^ b) == b && (b ^ a) ^ a == b
  {
  }

  method ToArray(b: Block) returns (a: array<bv8>)
    ensures fresh(a) && a.Length == 16 && a[..] == b
  {
    a := new bv8[16];
    for i := 0 to 16
      invariant forall k :: 0 <= k < i ==> a[k] == b[k]
    {
      a[i] := b[i];
    }
  }

  method Times2(block: array<bv8>)
    requires block.Length == 16
    modifies block
    ensures block[..] == Double(old(block[..]))
  {
    hide ShiftByte, ReduceByte, TopBit, Double;
    ghost var was: Block := block[..];
    var carry := TopBit(block[0]);
    for i := 0 to 15
      invariant forall k :: 0 <= k < i ==> block[k] == Double(was)[k]
      invariant forall k :: i <= k < 16 ==> block[k] == was[k]
    {
      DoubleAt(was, i);
      block[i] := ShiftByte(block[i], block[i + 1]);
    }
    DoubleAt(was, 15);
    block[15] := ReduceByte(block[15], carry);
    assert forall k :: 0 <= k < 16 ==> block[..][k] == Double(was)[k];
  }

  lemma DoubleAt(b: Block, i: nat)
    requires i < 16
    ensures Double(b)[i] == if i < 15 then ShiftByte(b[i], b[i + 1]) else ReduceByte(b[15], TopBit(b[0]))
  {
    hide ShiftByte, ReduceByte, TopBit;
  }

  method Times3(block: array<bv8>)
    requires block.Length == 16
    modifies block
    ensures block[..] == Triple(old(block[..]))
  {
    hide Double;
    ghost var was: Block := block[..];
    var doubled := ToArray(block[..]);
    Times2(doubled);
    for i := 0 to 16
      invariant doubled[..] == Double(was)
      invariant forall k :: 0 <= k < i ==> block[k] == Triple(was)[k]
      invariant forall k :: i <= k < 16 ==> block[k] == was[k]
    {
      block[i] := block[i] ^ doubled[i];
    }
  }

  function Flip(b: Block): Block {
    b[0 := b[0] ^ 1]
  }

  function FlipIf(flip: bool, b: Block): Block {
    if flip then Flip(b) else b
  }

  /** Flipping the lowest bit of an input's first byte commutes with XOR. */
  lemma FlipXor(flip: bool, a: Block, b: Block)
    ensures FlipIf(flip, Xor(a, b)) == Xor(a, FlipIf(flip, b))
  {
    assert a[0] ^ (b[0] ^ 1) == Xor(a, b)[0] ^ 1 by {
      ByteXorAssociates(a[0], b[0], 1);
    }
  }

  lemma ByteXorAssociates(a: bv8, b: bv8, x: bv8)
    ensures (a ^ b) ^ x == a ^ (b ^ x)
  {
  }
}
