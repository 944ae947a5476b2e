/**
 What the parts of the mode mean, said without naming their bodies: offsets as field multiples,
 each sealed block, the length block as a number, what the tag tells apart, and the
 counter-measure byte by byte.
 */
module OcbLaws {
  import opened Bytes
  import opened Blocks
  import opened Ocb2

  // ---------------------------------------------------------------- the length block

  /** Bytes as a big-endian number. */
  function BigEndian(bytes: seq<bv8>): nat {
    if bytes == [] then 0 else 256 * BigEndian(bytes[..|bytes| - 1]) + ToByte(bytes[|bytes| - 1])
  }

  lemma {:induction false} ZerosAreZero(bytes: seq<bv8>)
    requires forall i | 0 <= i < |bytes| :: bytes[i] == 0
    ensures BigEndian(bytes) == 0
  {
    if bytes != [] {
      ZerosAreZero(bytes[..|bytes| - 1]);
    }
  }

  /** The length block is the number of bits of the final block. */
  lemma LengthBlockIsBitLength(length: nat)
    requires length <= 16
    ensures BigEndian(LengthBlock(length)) == 8 * length
  {
    hide ToByte, ToBits;
    var b := LengthBlock(length);
    ZerosAreZero(b[..15]);
    ByteRoundTrip(8 * length);
  }

  lemma LengthsDiffer(a: nat, b: nat)
    requires a <= 16 && b <= 16
    ensures LengthBlock(a) == LengthBlock(b) <==> a == b
  {
    hide LengthBlock;
    LengthBlockIsBitLength(a);
    LengthBlockIsBitLength(b);
  }

  // ---------------------------------------------------------------- offsets

  /** Multiplication by x, on the number itself. */
  function Twice(p: bv128): bv128 {
    (p << 1) ^ (if p >> 127 == 1 then 0x87 else 0)
  }

  function TwiceOver(p: bv128, i: nat): bv128 {
    if i == 0 then p else Twice(TwiceOver(p, i - 1))
  }

  /** The offset of block i is l times x to the i. */
  lemma {:induction false} OffsetIsFieldMultiple(l: Block, i: nat)
    ensures Pack(Offset(l, i)) == TwiceOver(Pack(l), i)
  {
    hide Pack, Double;
    if i > 0 {
      OffsetIsFieldMultiple(l, i - 1);
      DoubleIsFieldDoubling(Offset(l, i - 1));
    }
  }

  lemma TwiceMoves(p: bv128)
    ensures Twice(p) == 0 <==> p == 0
    ensures Twice(p) == p <==> p == 0
  {
  }

  lemma PackIsZero(b: Block)
    ensures Pack(b) == 0 <==> b == Zero()
  {
    Pack16IsZero(b[0], b[1], b[2], b[3], b[4], b[5], b[6], b[7],
                 b[8], b[9], b[10], b[11], b[12], b[13], b[14], b[15]);
  }

  lemma Pack16IsZero(b0: bv8, b1: bv8, b2: bv8, b3: bv8, b4: bv8, b5: bv8, b6: bv8, b7: bv8,
                     b8: bv8, b9: bv8, b10: bv8, b11: bv8, b12: bv8, b13: bv8, b14: bv8, b15: bv8)
    ensures Pack16(b0, b1, b2, b3, b4, b5, b6, b7, b8, b9, b10, b11, b12, b13, b14, b15) == 0 <==>
      && b0 == 0 && b1 == 0 && b2 == 0 && b3 == 0 && b4 == 0 && b5 == 0 && b6 == 0 && b7 == 0
      && b8 == 0 && b9 == 0 && b10 == 0 && b11 == 0 && b12 == 0 && b13 == 0 && b14 == 0 && b15 == 0
  {
  }

  /** Unless l is zero, a block's offset is none of: zero, the next block's, and the two the tag uses after it. */
  lemma OffsetsApart(l: Block, i: nat)
    requires l != Zero()
    ensures Offset(l, i) != Zero()
    ensures Offset(l, i) != Offset(l, i + 1)
    ensures Triple(Offset(l, i)) !in {Zero(), Offset(l, i), Offset(l, i + 1)}
  {
    hide Pack, Double, Zero, Xor;
    var o := Offset(l, i);
    OffsetNotZero(l, i);
    PackIsZero(o);
    DoubleIsFieldDoubling(o);
    TwiceMoves(Pack(o));
    XorWithSelf(o, Double(o));
    PackIsZero(Double(o));
  }

  lemma {:induction false} OffsetNotZero(l: Block, i: nat)
    requires l != Zero()
    ensures Offset(l, i) != Zero()
  {
    hide Pack, Double, Zero;
    if i > 0 {
      var o := Offset(l, i - 1);
      OffsetNotZero(l, i - 1);
      PackIsZero(o);
      PackIsZero(Double(o));
      DoubleIsFieldDoubling(o);
      TwiceMoves(Pack(o));
    }
  }

  lemma XorWithSelf(a: Block, b: Block)
    ensures Xor(a, b) == Zero() <==> a == b
    ensures Xor(a, b) == a <==> b == Zero()
    ensures Xor(a, b) == b <==> a == Zero()
  {
    forall i | 0 <= i < 16
      ensures Xor(a, b)[i] == 0 <==> a[i] == b[i]
      ensures Xor(a, b)[i] == a[i] <==> b[i] == 0
      ensures Xor(a, b)[i] == b[i] <==> a[i] == 0
    {
      ByteXorWithSelf(a[i], b[i]);
    }
    assert Xor(a, b) == Zero() <==> forall i | 0 <= i < 16 :: Xor(a, b)[i] == 0;
    assert Xor(a, b) == a <==> forall i | 0 <= i < 16 :: Xor(a, b)[i] == a[i];
    assert Xor(a, b) == b <==> forall i | 0 <= i < 16 :: Xor(a, b)[i] == b[i];
  }

  lemma ByteXorWithSelf(a: bv8, b: bv8)
    ensures a ^ b == 0 <==> a == b
    ensures a ^ b == a <==> b == 0
    ensures a ^ b == b <==> a == 0
  {
  }

  // ---------------------------------------------------------------- sealed block by block

  lemma {:induction false} SealedPrefix(c: Cipher, l: Block, text: seq<bv8>, i: nat, n: nat)
    requires i <= n && 16 * n <= |text|
    ensures SealBlocks(c, l, text, n)[..16 * i] == SealBlocks(c, l, text, i)
    decreases n
  {
    hide Xor, SealBlock, Offset, Double;
    if i < n {
      SealedPrefix(c, l, text, i, n - 1);
      assert SealBlocks(c, l, text, n)[..16 * i] == SealBlocks(c, l, text, n - 1)[..16 * i];
    }
  }

  /** Every full block is whitened before and after the cipher with its own offset. */
  lemma SealedBlock(c: Cipher, l: Block, text: seq<bv8>, i: nat)
    requires 16 * i + 16 < |text|
    ensures var o := Offset(l, i + 1);
      Seal(c, l, text)[16 * i..16 * i + 16] == Xor(o, c.enc(Xor(o, text[16 * i..16 * i + 16])))
  {
    hide Xor, Offset, Double, Mask, FinalPad;
    SealedPrefix(c, l, text, i + 1, FullBlocks(|text|));
    assert Chunk(Seal(c, l, text), i) == SealBlocks(c, l, text, FullBlocks(|text|))[..16 * (i + 1)][16 * i..];
  }

  /** The final bytes are masked with the cipher of their bit length under the next offset. */
  lemma SealedEnd(c: Cipher, l: Block, text: seq<bv8>, n: nat, j: nat)
    requires 16 * n < |text| <= 16 * n + 16 && 16 * n <= j < |text|
    ensures var pad := c.enc(Xor(LengthBlock(|text| - 16 * n), Offset(l, n + 1)));
      Seal(c, l, text)[j] == pad[j - 16 * n] ^ text[j]
  {
    hide Xor, Offset, Double, SealBlocks, LengthBlock;
  }

  // ---------------------------------------------------------------- what the tag tells apart

  /** Two texts alike in every full block but the i-th, and in the end unless i counts past the full blocks. */
  predicate DifferOnlyIn(a: seq<bv8>, b: seq<bv8>, i: nat) {
    && |a| == |b|
    && (forall j | 0 <= j < |a| && !(16 * i <= j < 16 * i + 16) :: a[j] == b[j])
  }

  /** Whatever one block is changed to, final or not, the tag changes with it. */
  lemma TagTellsOneBlock(c: Cipher, l: Block, a: seq<bv8>, b: seq<bv8>, i: nat)
    requires Decodes(c)
    requires DifferOnlyIn(a, b, i) && a != b
    ensures Tag(c, l, a) != Tag(c, l, b)
  {
    hide Xor, Offset, Double, LengthBlock, Triple;
    var n := FullBlocks(|a|);
    var o, pad := FinalOffset(l, |a|), FinalPad(c, l, |a|);
    var sa, sb := Checksum(a, n), Checksum(b, n);
    var ta, tb := Tail(pad, Last(a)), Tail(pad, Last(b));
    OneBlockSums(a, b, i, n);
    if i < n {
      assert Last(a) == Last(b);
    } else {
      assert forall j | 0 <= j < 16 * n :: a[j] == b[j];
      assert a[..16 * n] == b[..16 * n];
      assert a == a[..16 * n] + Last(a) && b == b[..16 * n] + Last(b);
      assert ta[..|Last(a)|] == Last(a) && tb[..|Last(b)|] == Last(b);
    }
    XorTellsOne(sa, sb, ta, tb);
    XorTellsOne(Triple(o), Triple(o), Xor(sa, ta), Xor(sb, tb));
    var xa, xb := Xor(Triple(o), Xor(sa, ta)), Xor(Triple(o), Xor(sb, tb));
    assert c.dec(c.enc(xa)) == xa && c.dec(c.enc(xb)) == xb;
  }

  /** XOR notices a change in one of its two operands. */
  lemma XorTellsOne(a: Block, a': Block, b: Block, b': Block)
    requires a == a' || b == b'
    ensures Xor(a, b) == Xor(a', b') <==> a == a' && b == b'
  {
    if a == a' {
      XorTwice(a, b);
      XorTwice(a, b');
    } else {
      XorTwice(b, a);
      XorTwice(b, a');
    }
  }

  lemma ChunksDiffer(a: seq<bv8>, b: seq<bv8>, i: nat, k: nat)
    requires DifferOnlyIn(a, b, i) && a != b && 16 * k + 16 <= |a|
    ensures Chunk(a, k) == Chunk(b, k) <==> k != i
  {
    var at, x, y := 16 * k, Chunk(a, k), Chunk(b, k);
    if k != i {
      forall j | 0 <= j < 16 ensures x[j] == y[j] {
        assert a[at + j] == b[at + j];
      }
    } else {
      var j :| 0 <= j < |a| && a[j] != b[j];
      assert x[j - at] == a[j] && y[j - at] == b[j];
    }
  }

  /** The checksums of the first n blocks differ exactly when the changed block is among them. */
  lemma {:induction false} OneBlockSums(a: seq<bv8>, b: seq<bv8>, i: nat, n: nat)
    requires DifferOnlyIn(a, b, i) && a != b && 16 * n <= |a|
    ensures Checksum(a, n) == Checksum(b, n) <==> n <= i
  {
    hide Xor, Zero, Chunk;
    if n > 0 {
      OneBlockSums(a, b, i, n - 1);
      ChunksDiffer(a, b, i, n - 1);
      XorTellsOne(Checksum(a, n - 1), Checksum(b, n - 1), Chunk(a, n - 1), Chunk(b, n - 1));
    }
  }

  // ---------------------------------------------------------------- the counter-measure, byte by byte

  /**
   The text that is sealed differs from the plaintext in at most one byte. With k the start of the
   second-to-last block, that byte is k, it changes exactly when bytes k to k + 14 are all zero,
   and afterwards they never are.
   */
  lemma MitigatedExactly(plain: seq<bv8>, k: nat)
    requires k % 16 == 0 && k + 16 < |plain| <= k + 32
    ensures |Mitigated(plain)| == |plain|
    ensures forall j | 0 <= j < |plain| && j != k :: Mitigated(plain)[j] == plain[j]
    ensures Mitigated(plain) == plain <==> exists j | k <= j < k + 15 :: plain[j] != 0
    ensures exists j | k <= j < k + 15 :: Mitigated(plain)[j] != 0
  {
    var n := FullBlocks(|plain|);
    assert k == 16 * (n - 1);
    var block := Chunk(plain, n - 1);
    assert forall j | 0 <= j < 15 :: block[..15][j] == plain[k + j];
    if j :| k <= j < k + 15 && plain[j] != 0 {
      assert block[..15][j - k] != Zero()[..15][j - k];
      assert Mitigated(plain)[j] != 0;
    } else {
      assert block[..15] == Zero()[..15];
      assert plain[k] == 0 && Mitigated(plain)[k] == 1;
    }
  }

  lemma ShortIsUntouched(plain: seq<bv8>)
    requires |plain| <= 16
    ensures Mitigated(plain) == plain
  {
  }

  /** Byte j after `start`, from the pad where the text has ended. */
  function EndByte(text: seq<bv8>, pad: Block, start: nat, j: nat): bv8
    requires j < 16
  {
    if start + j < |text| then text[start + j] else pad[j]
  }

  /** The tail check, byte by byte: some of fifteen bytes of the padded final block is not the offset's. */
  lemma TrustedExactly(c: Cipher, l: Block, text: seq<bv8>, n: nat, o: Block, pad: Block)
    requires 16 * n <= |text| <= 16 * n + 16 && (|text| > 0 ==> 16 * n < |text|)
    requires o == Offset(l, n + 1) && pad == c.enc(Xor(LengthBlock(|text| - 16 * n), o))
    ensures Trusted(c, l, text) <==> exists j | 0 <= j < 15 :: o[j] != EndByte(text, pad, 16 * n, j)
  {
    hide Xor, Double, LengthBlock, Zero;
    assert n == FullBlocks(|text|);
    var tail := Tail(pad, Last(text));
    assert tail == Tail(FinalPad(c, l, |text|), Last(text));
    assert forall j | 0 <= j < 15 :: tail[j] == EndByte(text, pad, 16 * n, j);
    if j :| 0 <= j < 15 && o[j] != tail[j] {
      assert o[..15][j] != tail[..15][j];
    } else {
      assert tail[..15] == o[..15];
    }
  }
}
