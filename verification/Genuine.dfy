/**
 What the receiver's checks amount to: it delivers a text exactly when the packet is, byte for
 byte, the one that carries this text under the counter its low byte stands for.
 */
module Genuineness {
  import opened Collections
  import opened Bytes
  import opened Blocks
  import opened Ocb2
  import opened Nonces
  import opened CryptStates
  import opened ReplayRuns

  /** The bytes that carry `text` under counter `position`: the low byte, three bytes of tag, the sealed text. */
  function Carrying(c: Cipher, position: nat, text: seq<bv8>): seq<bv8> {
    var l := c.enc(Nonce(position));
    [ToBits(position % 256)] + Tag(c, l, text)[..3] + Seal(c, l, text)
  }

  lemma SameBits(a: bv8, b: bv8)
    requires ToByte(a) == ToByte(b)
    ensures a == b
  {
  }

  /** The counter a packet stands for at the recovered distance has the packet's low byte. */
  lemma LowByteKept(position: nat, b: bv8)
    requires Distance(position, ToByte(b)).Some?
    ensures var q := (position + Distance(position, ToByte(b)).value) % NONCES;
      0 <= q && ToBits(q % 256) == b
  {
    hide ToBits, ToByte, Distance, Power;
    var at := position + Distance(position, ToByte(b)).value;
    LowBytesSurvive(at);
    ByteRoundTrip(at % 256);
    SameBits(ToBits(at % 256), b);
  }

  /** No packet is delivered that is not the one carrying the delivered text. */
  lemma DeliveredIsGenuine(c: Cipher, r: Receiver, packet: seq<bv8>, text: seq<bv8>)
    requires Encodes(c) && Sound(r)
    requires Receive(c, r, packet).1 == Some(text)
    ensures |packet| >= 4 && Distance(r.position, ToByte(packet[0])).Some?
    ensures var q := (r.position + Distance(r.position, ToByte(packet[0])).value) % NONCES;
      0 <= q && packet == Carrying(c, q, text)
  {
    hide Distance, Tag, Seal, Open, Trusted, Nonce, ToBits, ToByte, Power, Remembered, Accepted;
    var q := (r.position + Distance(r.position, ToByte(packet[0])).value) % NONCES;
    LowByteKept(r.position, packet[0]);
    var l := c.enc(Nonce(q));
    SealOpen(c, l, packet[4..]);
    assert packet == [packet[0]] + packet[1..4] + packet[4..];
  }

  /**
   The receiver in one sentence: a text is delivered exactly when the packet carries it under the
   counter at the recovered distance, that counter is the next one or is not in the history, and
   the padded tail passes the check against the offset.
   */
  lemma DeliveredExactly(c: Cipher, r: Receiver, packet: seq<bv8>, text: seq<bv8>)
    requires Decodes(c) && Encodes(c) && Sound(r)
    ensures Receive(c, r, packet).1 == Some(text) <==>
      && |packet| >= 4
      && Distance(r.position, ToByte(packet[0])).Some?
      && var d := Distance(r.position, ToByte(packet[0])).value;
         var q := (r.position + d) % NONCES;
         && 0 <= q
         && (d == 1 || r.history[q % 256] != q / 256 % 256)
         && packet == Carrying(c, q, text)
         && Trusted(c, c.enc(Nonce(q)), text)
  {
    hide Distance, Tag, Seal, Open, Trusted, Nonce, ToBits, ToByte, Power, Accepted;
    if Receive(c, r, packet).1 == Some(text) {
      DeliveredIsGenuine(c, r, packet, text);
    }
    if |packet| >= 4 && Distance(r.position, ToByte(packet[0])).Some? {
      var q := (r.position + Distance(r.position, ToByte(packet[0])).value) % NONCES;
      var l := c.enc(Nonce(q));
      LowByteKept(r.position, packet[0]);
      if packet == Carrying(c, q, text) {
        assert packet[1..4] == Tag(c, l, text)[..3] && packet[4..] == Seal(c, l, text);
        OpenSeal(c, l, text);
      }
    }
  }

  /** So the three bytes of tag are determined by the rest: changing any of them is noticed. */
  lemma TagIsChecked(c: Cipher, r: Receiver, left: seq<bv8>, right: seq<bv8>)
    requires Sound(r)
    requires |left| == |right| >= 4 && left[0] == right[0] && left[4..] == right[4..] && left != right
    ensures Receive(c, r, left).1.None? || Receive(c, r, right).1.None?
  {
    hide Distance, Tag, Seal, Open, Trusted, Nonce, ToBits, ToByte, Power, Remembered, Accepted;
    assert left == [left[0]] + left[1..4] + left[4..];
    assert right == [right[0]] + right[1..4] + right[4..];
  }
}
