/**
 * OCB2 over an arbitrary 16-byte block cipher, with the counter-measure that
 * alters an XEX*-critical block before it is encrypted.
 *
 * `Seal`, `Tag` and `Open` are the mode itself, written block by block with the
 * closed-form offsets `Offset(l, i)`. The methods are the source's single-pass
 * loops over an offset block that is doubled in place; they are proved to compute
 * the mode on the altered plaintext.
 */
module Ocb2 {
  import opened Bytes
  import opened Blocks

  /** The block cipher: AES-128 under a fixed key in the source, arbitrary here. */
  datatype Cipher = Cipher(enc: Block -> Block, dec: Block -> Block)

  ghost predicate Decodes(c: Cipher) {
    forall b: Block {:trigger c.enc(b)} :: c.dec(c.enc(b)) == b
  }

  ghost predicate Encodes(c: Cipher) {
    forall b: Block {:trigger c.dec(b)} :: c.enc(c.dec(b)) == b
  }

  // ----- The mode -----

  /** How many blocks precede the final one, which is never empty unless the text is. */
  function FullBlocks(length: nat): (n: nat)
    ensures 16 * n <= length <= 16 * n + 16
    ensures length > 0 ==> 16 * n < length
  {
    if length == 0 then 0 else (length - 1) / 16
  }

  function Chunk(text: seq<bv8>, i: nat): Block
    requires 16 * i + 16 <= |text|
  {
    text[16 * i..16 * i + 16]
  }

  function Offset(l: Block, i: nat): Block {
    if i == 0 then l else Double(Offset(l, i - 1))
  }

  function SealBlock(c: Cipher, offset: Block, b: Block): Block {
    Xor(offset, c.enc(Xor(offset, b)))
  }

  function OpenBlock(c: Cipher, offset: Block, b: Block): Block {
    Xor(offset, c.dec(Xor(offset, b)))
  }

  function SealBlocks(c: Cipher, l: Block, text: seq<bv8>, n: nat): (r: seq<bv8>)
    requires 16 * n <= |text|
    ensures |r| == 16 * n
  {
    if n == 0 then [] else
      SealBlocks(c, l, text, n - 1) + SealBlock(c, Offset(l, n), Chunk(text, n - 1))
  }

  function OpenBlocks(c: Cipher, l: Block, text: seq<bv8>, n: nat): (r: seq<bv8>)
    requires 16 * n <= |text|
    ensures |r| == 16 * n
  {
    if n == 0 then [] else
      OpenBlocks(c, l, text, n - 1) + OpenBlock(c, Offset(l, n), Chunk(text, n - 1))
  }

  function Checksum(text: seq<bv8>, n: nat): Block
    requires 16 * n <= |text|
  {
    if n == 0 then Zero() else Xor(Checksum(text, n - 1), Chunk(text, n - 1))
  }

  /** The bit length of a final block, as a big-endian 128-bit number. */
  function LengthBlock(length: nat): Block
    requires length <= 16
  {
    Zero()[15 := ToBits(8 * length)]
  }

  function Pad(c: Cipher, offset: Block, length: nat): Block
    requires length <= 16
  {
    c.enc(Xor(LengthBlock(length), offset))
  }

  /** A final block filled up with the end of its pad. */
  function Tail(pad: Block, rest: seq<bv8>): Block
    requires |rest| <= 16
  {
    rest + pad[|rest|..]
  }

  /** XOR with the front of a block. */
  function Mask(pad: Block, rest: seq<bv8>): (r: seq<bv8>)
    requires |rest| <= 16
    ensures |r| == |rest|
    ensures forall i :: 0 <= i < |rest| ==> r[i] == pad[i] ^ rest[i]
  {
    seq(|rest|, i requires 0 <= i < |rest| => pad[i] ^ rest[i])
  }

  function Last(text: seq<bv8>): (r: seq<bv8>)
    ensures |r| <= 16
  {
    text[16 * FullBlocks(|text|)..]
  }

  function FinalOffset(l: Block, length: nat): Block {
    Offset(l, FullBlocks(length) + 1)
  }

  function FinalPad(c: Cipher, l: Block, length: nat): Block {
    Pad(c, FinalOffset(l, length), length - 16 * FullBlocks(length))
  }

  function Seal(c: Cipher, l: Block, plain: seq<bv8>): (r: seq<bv8>)
    ensures |r| == |plain|
  {
    SealBlocks(c, l, plain, FullBlocks(|plain|)) + Mask(FinalPad(c, l, |plain|), Last(plain))
  }

  function Open(c: Cipher, l: Block, sealed: seq<bv8>): (r: seq<bv8>)
    ensures |r| == |sealed|
  {
    OpenBlocks(c, l, sealed, FullBlocks(|sealed|)) + Mask(FinalPad(c, l, |sealed|), Last(sealed))
  }

  function Tag(c: Cipher, l: Block, plain: seq<bv8>): Block {
    c.enc(Xor(Triple(FinalOffset(l, |plain|)),
              Xor(Checksum(plain, FullBlocks(|plain|)), Tail(FinalPad(c, l, |plain|), Last(plain)))))
  }

  /** Decryption's own check: the final block, padded, must differ from the offset in its first 15 bytes. */
  predicate Trusted(c: Cipher, l: Block, plain: seq<bv8>) {
    Tail(FinalPad(c, l, |plain|), Last(plain))[..15] != FinalOffset(l, |plain|)[..15]
  }

  // ----- The counter-measure -----

  /** The second-to-last block is zero in its first 15 bytes. */
  predicate Critical(plain: seq<bv8>) {
    var n := FullBlocks(|plain|);
    n > 0 && Chunk(plain, n - 1)[..15] == Zero()[..15]
  }

  /** What is encrypted in place of `plain`: a critical block loses its shape by one bit. */
  function Mitigated(plain: seq<bv8>): (r: seq<bv8>)
    ensures |r| == |plain|
  {
    if Critical(plain) then plain[16 * (FullBlocks(|plain|) - 1) := 1] else plain
  }

  lemma MitigatedIsNotCritical(plain: seq<bv8>)
    ensures !Critical(Mitigated(plain))
    ensures Mitigated(plain) == plain <==> !Critical(plain)
    ensures Mitigated(Mitigated(plain)) == Mitigated(plain)
  {
    if Critical(plain) {
      var m := Mitigated(plain);
      var n := FullBlocks(|plain|);
      assert Chunk(m, n - 1)[..15][0] == 1;
      assert Chunk(plain, n - 1)[..15][0] == plain[16 * (n - 1)] == 0;
    }
  }

  // ----- Opening undoes sealing, and sealing undoes opening -----

  lemma OpenSealBlock(c: Cipher, offset: Block, b: Block)
    requires Decodes(c)
    ensures OpenBlock(c, offset, SealBlock(c, offset, b)) == b
  {
    XorTwice(offset, c.enc(Xor(offset, b)));
    XorTwice(offset, b);
  }

  lemma SealOpenBlock(c: Cipher, offset: Block, b: Block)
    requires Encodes(c)
    ensures SealBlock(c, offset, OpenBlock(c, offset, b)) == b
  {
    XorTwice(offset, c.dec(Xor(offset, b)));
    XorTwice(offset, b);
  }

  lemma {:induction false} OpenSealBlocks(c: Cipher, l: Block, text: seq<bv8>, sealed: seq<bv8>, n: nat)
    requires Decodes(c)
    requires 16 * n <= |text| && 16 * n <= |sealed|
    requires sealed[..16 * n] == SealBlocks(c, l, text, n)
    ensures OpenBlocks(c, l, sealed, n) == text[..16 * n]
  {
    hide Xor, SealBlock, OpenBlock, Offset, Double;
    if n > 0 {
      var last := SealBlock(c, Offset(l, n), Chunk(text, n - 1));
      assert sealed[..16 * (n - 1)] == sealed[..16 * n][..16 * (n - 1)] == SealBlocks(c, l, text, n - 1);
      OpenSealBlocks(c, l, text, sealed, n - 1);
      assert Chunk(sealed, n - 1) == sealed[..16 * n][16 * (n - 1)..] == last;
      OpenSealBlock(c, Offset(l, n), Chunk(text, n - 1));
      assert text[..16 * n] == text[..16 * (n - 1)] + Chunk(text, n - 1);
    }
  }

  lemma {:induction false} SealOpenBlocks(c: Cipher, l: Block, text: seq<bv8>, unsealed: seq<bv8>, n: nat)
    requires Encodes(c)
    requires 16 * n <= |text| && 16 * n <= |unsealed|
    requires unsealed[..16 * n] == OpenBlocks(c, l, text, n)
    ensures SealBlocks(c, l, unsealed, n) == text[..16 * n]
  {
    hide Xor, SealBlock, OpenBlock, Offset, Double;
    if n > 0 {
      var last := OpenBlock(c, Offset(l, n), Chunk(text, n - 1));
      assert unsealed[..16 * (n - 1)] == unsealed[..16 * n][..16 * (n - 1)] == OpenBlocks(c, l, text, n - 1);
      SealOpenBlocks(c, l, text, unsealed, n - 1);
      assert Chunk(unsealed, n - 1) == unsealed[..16 * n][16 * (n - 1)..] == last;
      SealOpenBlock(c, Offset(l, n), Chunk(text, n - 1));
      assert text[..16 * n] == text[..16 * (n - 1)] + Chunk(text, n - 1);
    }
  }

  lemma MaskTwice(pad: Block, rest: seq<bv8>)
    requires |rest| <= 16
    ensures Mask(pad, Mask(pad, rest)) == rest
  {
    forall i | 0 <= i < |rest|
      ensures Mask(pad, Mask(pad, rest))[i] == rest[i]
    {
      ByteXorTwice(pad[i], rest[i]);
    }
  }

  lemma OpenSeal(c: Cipher, l: Block, plain: seq<bv8>)
    requires Decodes(c)
    ensures Open(c, l, Seal(c, l, plain)) == plain
  {
    hide Xor, SealBlocks, OpenBlocks, Mask, FinalPad;
    var n := FullBlocks(|plain|);
    var sealed := Seal(c, l, plain);
    var pad := FinalPad(c, l, |plain|);
    assert sealed[..16 * n] == SealBlocks(c, l, plain, n);
    assert Last(sealed) == Mask(pad, Last(plain));
    OpenSealBlocks(c, l, plain, sealed, n);
    MaskTwice(pad, Last(plain));
    assert plain == plain[..16 * n] + Last(plain);
  }

  lemma SealOpen(c: Cipher, l: Block, sealed: seq<bv8>)
    requires Encodes(c)
    ensures Seal(c, l, Open(c, l, sealed)) == sealed
  {
    hide Xor, SealBlocks, OpenBlocks, Mask, FinalPad;
    var n := FullBlocks(|sealed|);
    var plain := Open(c, l, sealed);
    var pad := FinalPad(c, l, |sealed|);
    assert plain[..16 * n] == OpenBlocks(c, l, sealed, n);
    assert Last(plain) == Mask(pad, Last(sealed));
    SealOpenBlocks(c, l, sealed, plain, n);
    MaskTwice(pad, Last(sealed));
    assert sealed == sealed[..16 * n] + Last(sealed);
  }

  // ----- The source's loops -----

  /** Every block before the critical one is encrypted as it stands, the critical one flipped. */
  lemma MitigatedChunk(plain: seq<bv8>, i: nat)
    requires 16 * i + 16 < |plain|
    ensures |plain| - 16 * i - 16 <= 16 <==> i == FullBlocks(|plain|) - 1
    ensures i == FullBlocks(|plain|) - 1 ==> (Critical(plain) <==> Chunk(plain, i)[..15] == Zero()[..15])
    ensures Chunk(Mitigated(plain), i) ==
            if Critical(plain) && i == FullBlocks(|plain|) - 1 then Flip(Chunk(plain, i)) else Chunk(plain, i)
  {
    var n := FullBlocks(|plain|);
    if Critical(plain) {
      assert Chunk(plain, n - 1)[..15][0] == plain[16 * (n - 1)] == 0;
      assert (0 as bv8) ^ 1 == 1;
    }
  }

  /** The scan that ORs the first fifteen bytes together. */
  method AllZeroButLast(block: Block) returns (zero: bool)
    ensures zero <==> block[..15] == Zero()[..15]
  {
    var sum: bv8 := 0;
    for i := 0 to 15
      invariant sum == 0 <==> forall k :: 0 <= k < i ==> block[k] == 0
    {
      OrIsZero(sum, block[i]);
      sum := sum | block[i];
    }
    zero := sum == 0;
    assert forall k :: 0 <= k < 15 ==> block[k] == block[..15][k];
  }

  lemma OrIsZero(a: bv8, b: bv8)
    ensures a | b == 0 <==> a == 0 && b == 0
  {
  }

  /** The look at a full block: whether to alter it, or else whether to report it. */
  method Examine(block: Block, remaining: nat, alter: bool) returns (flip: bool, suspect: bool)
    requires remaining > 16
    ensures flip <==> alter && remaining <= 32 && block[..15] == Zero()[..15]
    ensures suspect <==> !alter && remaining <= 32 && block[..15] == Zero()[..15]
  {
    flip, suspect := false, false;
    if remaining - BLOCK_SIZE <= BLOCK_SIZE {
      var zero := AllZeroButLast(block);
      if zero {
        if alter {
          flip := true;
        } else {
          suspect := true;
        }
      }
    }
  }

  method OcbEncrypt(c: Cipher, plain: seq<bv8>, nonce: Block, alter: bool)
    returns (authentic: bool, encrypted: seq<bv8>, tag: Block)
    ensures authentic <==> alter || !Critical(plain)
    ensures encrypted == Seal(c, c.enc(nonce), if alter then Mitigated(plain) else plain)
    ensures tag == Tag(c, c.enc(nonce), if alter then Mitigated(plain) else plain)
  {
    hide Xor, Double, Mask, Flip, Mitigated, Critical, Zero, FullBlocks, LengthBlock, Triple;
    hide Offset, SealBlocks, Checksum, Seal, Tag;
    ghost var l := c.enc(nonce);
    ghost var text := if alter then Mitigated(plain) else plain;
    ghost var n := FullBlocks(|plain|);
    authentic := true;
    NothingSealed(c, l, text);
    LastUntouched(plain);
    var delta := ToArray(c.enc(nonce));
    var checksum: Block := Zero();
    encrypted := [];
    ghost var i := 0;
    var offset := 0;
    var remaining := |plain|;
    while remaining > BLOCK_SIZE
      invariant 0 <= i <= n && offset == 16 * i && remaining == |plain| - offset
      invariant delta[..] == Offset(l, i)
      invariant encrypted == SealBlocks(c, l, text, i)
      invariant checksum == Checksum(text, i)
      invariant authentic <==> alter || !(Critical(plain) && i == n)
    {
      var block := plain[offset..offset + BLOCK_SIZE];
      var flip, suspect := Examine(block, remaining, alter);
      authentic := authentic && !suspect;
      Examined(plain, i, alter, flip, suspect);
      SealNext(c, l, plain, text, i, flip);
      Times2(delta);
      var tmp := Xor(delta[..], block);
      if flip {
        tmp := Flip(tmp);
      }
      tmp := c.enc(tmp);
      encrypted := encrypted + Xor(delta[..], tmp);
      checksum := Xor(checksum, block);
      if flip {
        checksum := Flip(checksum);
      }
      offset := offset + BLOCK_SIZE;
      remaining := remaining - BLOCK_SIZE;
      i := i + 1;
    }
    assert i == n;
    SealLast(c, l, plain, text, n);
    Times2(delta);
    var pad := c.enc(Xor(LengthBlock(remaining), delta[..]));
    var tail := plain[offset..] + pad[remaining..];
    checksum := Xor(checksum, tail);
    MaskedTail(pad, plain[offset..]);
    encrypted := encrypted + Xor(pad, tail)[..remaining];
    Times3(delta);
    tag := c.enc(Xor(delta[..], checksum));
  }

  /** What the look at a full block decides: how the block is altered, or that the text is reported. */
  lemma Examined(plain: seq<bv8>, i: nat, alter: bool, flip: bool, suspect: bool)
    requires 16 * i + 16 < |plain|
    requires flip <==> alter && |plain| - 16 * i <= 32 && Chunk(plain, i)[..15] == Zero()[..15]
    requires suspect <==> !alter && |plain| - 16 * i <= 32 && Chunk(plain, i)[..15] == Zero()[..15]
    ensures i < FullBlocks(|plain|)
    ensures Chunk(if alter then Mitigated(plain) else plain, i) == FlipIf(flip, Chunk(plain, i))
    ensures suspect <==> !alter && Critical(plain) && i + 1 == FullBlocks(|plain|)
  {
    assert i < FullBlocks(|plain|);
    hide Mitigated, Critical, Zero, Chunk, Flip, FullBlocks;
    MitigatedChunk(plain, i);
  }

  lemma NothingSealed(c: Cipher, l: Block, text: seq<bv8>)
    ensures Offset(l, 0) == l && SealBlocks(c, l, text, 0) == [] && Checksum(text, 0) == Zero()
  {
  }

  /** One full block: what is enciphered, appended and summed when `flip` alters it. */
  lemma SealNext(c: Cipher, l: Block, plain: seq<bv8>, text: seq<bv8>, i: nat, flip: bool)
    requires |text| == |plain| && 16 * i + 16 < |plain|
    requires Chunk(text, i) == FlipIf(flip, Chunk(plain, i))
    ensures Offset(l, i + 1) == Double(Offset(l, i))
    ensures var o := Offset(l, i + 1);
      SealBlocks(c, l, text, i + 1)
      == SealBlocks(c, l, text, i) + Xor(o, c.enc(FlipIf(flip, Xor(o, Chunk(plain, i)))))
    ensures Checksum(text, i + 1) == FlipIf(flip, Xor(Checksum(text, i), Chunk(plain, i)))
  {
    hide Xor, Double, Flip, FlipIf, Zero, Chunk;
    FlipXor(flip, Offset(l, i + 1), Chunk(plain, i));
    FlipXor(flip, Checksum(text, i), Chunk(plain, i));
  }

  /** The last block of a text that differs from the plaintext in full blocks only. */
  lemma SealLast(c: Cipher, l: Block, plain: seq<bv8>, text: seq<bv8>, n: nat)
    requires |text| == |plain| && n == FullBlocks(|plain|) && Last(text) == Last(plain)
    ensures 16 * n <= |plain| <= 16 * n + 16
    ensures Offset(l, n + 1) == Double(Offset(l, n))
    ensures var o := Offset(l, n + 1);
      var pad := c.enc(Xor(LengthBlock(|plain| - 16 * n), o));
      && Seal(c, l, text) == SealBlocks(c, l, text, n) + Mask(pad, plain[16 * n..])
      && Tag(c, l, text) == c.enc(Xor(Triple(o), Xor(Checksum(text, n), Tail(pad, plain[16 * n..]))))
  {
    hide Xor, Double, Mask, LengthBlock, Triple, SealBlocks, Checksum;
  }

  lemma LastUntouched(plain: seq<bv8>)
    ensures Last(Mitigated(plain)) == Last(plain)
    ensures Critical(plain) ==> FullBlocks(|plain|) > 0
  {
  }

  lemma MaskedTail(pad: Block, rest: seq<bv8>)
    requires |rest| <= 16
    ensures Xor(pad, Tail(pad, rest))[..|rest|] == Mask(pad, rest)
  {
  }

  method OcbDecrypt(c: Cipher, encrypted: seq<bv8>, nonce: Block)
    returns (authentic: bool, plain: seq<bv8>, tag: Block)
    ensures plain == Open(c, c.enc(nonce), encrypted)
    ensures tag == Tag(c, c.enc(nonce), plain)
    ensures authentic <==> Trusted(c, c.enc(nonce), plain)
  {
    hide Xor, Double, Mask, Zero, FullBlocks, LengthBlock;
    ghost var l := c.enc(nonce);
    ghost var text := Open(c, l, encrypted);
    ghost var n := FullBlocks(|encrypted|);
    authentic := true;
    var delta := ToArray(c.enc(nonce));
    var checksum: Block := Zero();
    plain := [];
    ghost var i := 0;
    var offset := 0;
    var remaining := |encrypted|;
    while remaining > BLOCK_SIZE
      invariant 0 <= i <= n && offset == 16 * i && remaining == |encrypted| - offset
      invariant delta[..] == Offset(l, i)
      invariant plain == OpenBlocks(c, l, encrypted, i)
      invariant checksum == Checksum(text, i)
    {
      var block := encrypted[offset..offset + BLOCK_SIZE];
      assert block == Chunk(encrypted, i);
      Times2(delta);
      var tmp := c.dec(Xor(delta[..], block));
      var decoded := Xor(delta[..], tmp);
      assert decoded == OpenBlock(c, Offset(l, i + 1), Chunk(encrypted, i));
      OpenedChunk(c, l, encrypted, i, n);
      plain := plain + decoded;
      checksum := Xor(checksum, decoded);
      offset := offset + BLOCK_SIZE;
      remaining := remaining - BLOCK_SIZE;
      i := i + 1;
    }
    assert i == n;
    Times2(delta);
    var pad := c.enc(Xor(LengthBlock(remaining), delta[..]));
    var tail := Xor(encrypted[offset..] + Zero()[remaining..], pad);
    DecodedTail(pad, encrypted[offset..]);
    checksum := Xor(checksum, tail);
    plain := plain + tail[..remaining];
    assert plain == text && Last(text) == Mask(pad, Last(encrypted));
    if tail[..15] == delta[..15] {
      authentic := false;
    }
    assert delta[..15] == delta[..][..15];
    Times3(delta);
    tag := c.enc(Xor(delta[..], checksum));
  }

  lemma DecodedTail(pad: Block, rest: seq<bv8>)
    requires |rest| <= 16
    ensures Xor(rest + Zero()[|rest|..], pad) == Tail(pad, Mask(pad, rest))
  {
    var padded := rest + Zero()[|rest|..];
    forall i | 0 <= i < 16
      ensures Xor(padded, pad)[i] == Tail(pad, Mask(pad, rest))[i]
    {
      ByteXorZero(pad[i], padded[i]);
    }
  }

  lemma ByteXorZero(a: bv8, b: bv8)
    ensures a ^ b == b ^ a && 0 ^ a == a
  {
  }

  lemma {:induction false} OpenedPrefix(c: Cipher, l: Block, text: seq<bv8>, i: nat, n: nat)
    requires i <= n && 16 * n <= |text|
    ensures OpenBlocks(c, l, text, n)[..16 * i] == OpenBlocks(c, l, text, i)
    decreases n
  {
    hide Xor, OpenBlock, Offset, Double;
    if i < n {
      OpenedPrefix(c, l, text, i, n - 1);
      assert OpenBlocks(c, l, text, n)[..16 * i] == OpenBlocks(c, l, text, n - 1)[..16 * i];
    }
  }

  lemma OpenedChunk(c: Cipher, l: Block, sealed: seq<bv8>, i: nat, n: nat)
    requires n == FullBlocks(|sealed|) && i < n
    ensures Chunk(Open(c, l, sealed), i) == OpenBlock(c, Offset(l, i + 1), Chunk(sealed, i))
  {
    hide Xor, OpenBlock, Offset, Double, Mask, FinalPad;
    OpenedPrefix(c, l, sealed, i + 1, n);
    var text := Open(c, l, sealed);
    assert Chunk(text, i) == OpenBlocks(c, l, sealed, n)[..16 * (i + 1)][16 * i..];
  }

  // ----- Both directions together -----

  /**
   * Whatever is encrypted decrypts to the altered plaintext with the same tag; the
   * plaintext itself comes back exactly when no block of it was critical.
   */
  lemma RoundTrip(c: Cipher, nonce: Block, plain: seq<bv8>)
    requires Decodes(c)
    ensures var l := c.enc(nonce);
            var unsealed := Open(c, l, Seal(c, l, Mitigated(plain)));
            && unsealed == Mitigated(plain)
            && Tag(c, l, unsealed) == Tag(c, l, Mitigated(plain))
            && (unsealed == plain <==> !Critical(plain))
  {
    OpenSeal(c, c.enc(nonce), Mitigated(plain));
    MitigatedIsNotCritical(plain);
  }

  /** Under one nonce, two texts seal alike only if they are the same text after the counter-measure. */
  lemma SealIsInjective(c: Cipher, nonce: Block, left: seq<bv8>, right: seq<bv8>)
    requires Decodes(c)
    ensures Seal(c, c.enc(nonce), Mitigated(left)) == Seal(c, c.enc(nonce), Mitigated(right)) <==>
            Mitigated(left) == Mitigated(right)
  {
    OpenSeal(c, c.enc(nonce), Mitigated(left));
    OpenSeal(c, c.enc(nonce), Mitigated(right));
  }
}
