/**
 * One end of the voice channel: the sending counter, and the receiver that recovers a
 * packet's counter from its low byte, refuses replays and keeps the loss statistics.
 * `Receive` and `Packet` say on numbers what the class does on byte arrays.
 */
module CryptStates {
  import opened Collections
  import opened Bytes
  import opened Blocks
  import opened Ocb2
  import opened Nonces

  const WORD: nat := 0x1_0000_0000
  const SIGN: nat := 0x8000_0000

  datatype Receiver = Receiver(position: nat, history: seq<Byte>, good: nat, late: nat, lost: nat)

  predicate Sound(r: Receiver) {
    && r.position < NONCES
    && |r.history| == 256
    && r.good < WORD && r.late < WORD && r.lost < WORD
  }

  // ----- What is received -----

  /**
   * How far from the current counter a packet with this low byte is taken to be:
   * up to 127 ahead, 128 ahead when the low byte does not wrap, up to 29 behind.
   */
  function Distance(position: nat, low: Byte): (d: Option<int>)
    ensures d.Some? ==> -29 <= d.value <= 128 && d.value != 0
    ensures d.Some? ==> (position + d.value) % 256 == low
  {
    var ahead := (low - position) % 256;
    if 1 <= ahead <= 127 then Some(ahead)
    else if ahead == 128 && low > position % 256 then Some(128)
    else if ahead > 226 then Some(ahead - 256)
    else None
  }

  function Low(position: nat): Byte {
    position % 256
  }

  function Second(position: nat): Byte {
    position / 256 % 256
  }

  predicate Remembered(history: seq<Byte>, position: nat)
    requires |history| == 256
  {
    history[Low(position)] == Second(position)
  }

  /** A statistic moved by a signed amount: it wraps upwards and never crosses zero downwards. */
  function Adjusted(counter: nat, delta: int): (r: nat)
    requires counter < WORD
    ensures r < WORD
  {
    if delta > 0 then (counter + delta) % WORD
    else if -delta < counter < SIGN then counter + delta
    else counter
  }

  /** The plaintext a packet carries under this counter, when it passes both integrity checks. */
  function Unsealed(c: Cipher, position: nat, packet: seq<bv8>): Option<seq<bv8>>
    requires |packet| >= 4
  {
    var l := c.enc(Nonce(position));
    var plain := Open(c, l, packet[4..]);
    if Trusted(c, l, plain) && Tag(c, l, plain)[..3] == packet[1..4] then Some(plain) else None
  }

  function Accepted(r: Receiver, position: nat, d: int): (after: Receiver)
    requires Sound(r) && position < NONCES
    ensures Sound(after)
  {
    Receiver(if d < 0 then r.position else position,
             r.history[Low(position) := Second(position)],
             (r.good + 1) % WORD,
             Adjusted(r.late, if d < 0 then 1 else 0),
             Adjusted(r.lost, if d < 0 then -1 else d - 1))
  }

  function Receive(c: Cipher, r: Receiver, packet: seq<bv8>): (result: (Receiver, Option<seq<bv8>>))
    requires Sound(r)
    ensures Sound(result.0)
    ensures result.1.None? ==> result.0 == r
  {
    if |packet| < 4 then (r, None) else
    match Distance(r.position, ToByte(packet[0]))
    case None => (r, None)
    case Some(d) =>
      var position := (r.position + d) % NONCES;
      if d != 1 && Remembered(r.history, position) then (r, None) else
      match Unsealed(c, position, packet)
      case None => (r, None)
      case Some(plain) => (Accepted(r, position, d), Some(plain))
  }

  // ----- What is sent -----

  function Packet(c: Cipher, position: nat, plain: seq<bv8>): (r: seq<bv8>)
    ensures |r| == 4 + |plain|
  {
    var l := c.enc(Nonce(position));
    [ToBits(Low(position))] + Tag(c, l, Mitigated(plain))[..3] + Seal(c, l, Mitigated(plain))
  }

  // ----- The object -----

  lemma Relabelled(low: Byte, b: Byte, upper: seq<Byte>)
    requires |upper| == 15
    ensures Value([b] + upper) == Value([low] + upper) + b - low
    ensures Value([b] + upper) < NONCES
    ensures (Value([low] + upper) + (b - low)) % NONCES == Value([b] + upper)
  {
    hide Value, Power;
    ValueOf(low, upper);
    ValueOf(b, upper);
    DigitsOfValue([b] + upper);
    Remainder(Value([b] + upper), 0, NONCES, Value([b] + upper));
  }

  lemma RelabelledUp(low: Byte, b: Byte, upper: seq<Byte>)
    requires |upper| == 15
    ensures Value([b] + Incremented(upper)) == (Value([low] + upper) + (b - low + 256)) % NONCES
  {
    hide Value, Power, Incremented;
    ValueOf(low, upper);
    ValueOf(b, upper);
    UpperIncremented(b, upper);
  }

  lemma RelabelledDown(low: Byte, b: Byte, upper: seq<Byte>)
    requires |upper| == 15
    ensures Value([b] + Decremented(upper)) == (Value([low] + upper) + (b - low - 256)) % NONCES
  {
    hide Value, Power, Decremented;
    ValueOf(low, upper);
    ValueOf(b, upper);
    UpperDecremented(b, upper);
  }

  /** Where a low byte is from the counter, told by comparing bytes. */
  lemma DistanceByBytes(iv: seq<Byte>, b: Byte)
    requires |iv| == 16
    ensures var raw := b - iv[0];
            Distance(Value(iv), b) ==
              if 1 <= raw <= 128 then Some(raw)
              else if raw <= -129 then Some(raw + 256)
              else if -29 <= raw <= -1 then Some(raw)
              else if raw >= 227 then Some(raw - 256)
              else None
  {
    hide Value;
    LowBytes(iv);
    var raw := b - iv[0];
    var ahead := (b - Value(iv)) % 256;
    assert ahead == raw % 256;
    assert ahead == if raw >= 0 then raw else raw + 256;
  }

  /** Overwrites an array with the bytes saved from it. */
  method CopyInto(iv: array<Byte>, saved: seq<Byte>)
    requires iv.Length == |saved|
    modifies iv
    ensures iv[..] == saved
  {
    for i := 0 to iv.Length
      invariant forall k :: 0 <= k < i ==> iv[k] == saved[k]
    {
      iv[i] := saved[i];
    }
  }

  class CryptState {
    const cipher: Cipher
    const encryptIv: array<Byte>
    const decryptIv: array<Byte>
    const history: array<Byte>
    var good: nat
    var late: nat
    var lost: nat

    ghost predicate Valid()
      reads this
    {
      && encryptIv.Length == 16 && decryptIv.Length == 16 && history.Length == 256
      && encryptIv != decryptIv && encryptIv != history && decryptIv != history
      && good < WORD && late < WORD && lost < WORD
    }

    ghost function Receiving(): Receiver
      requires Valid()
      reads this, decryptIv, history
    {
      Receiver(Value(decryptIv[..]), history[..], good, late, lost)
    }

    constructor (cipher: Cipher, encryptFrom: seq<Byte>, decryptFrom: seq<Byte>)
      requires |encryptFrom| == 16 && |decryptFrom| == 16
      ensures Valid() && fresh(encryptIv) && fresh(decryptIv) && fresh(history)
      ensures this.cipher == cipher && encryptIv[..] == encryptFrom
      ensures Receiving() == Receiver(Value(decryptFrom), seq(256, i => 0), 0, 0, 0)
    {
      this.cipher := cipher;
      encryptIv := new Byte[16](i requires 0 <= i < 16 => encryptFrom[i]);
      decryptIv := new Byte[16](i requires 0 <= i < 16 => decryptFrom[i]);
      history := new Byte[256](i => 0);
      good, late, lost := 0, 0, 0;
      new;
      assert decryptIv[..] == decryptFrom && encryptIv[..] == encryptFrom;
    }

    /** Sends one packet under the next counter. */
    method Encrypt(plain: seq<bv8>) returns (packet: Option<seq<bv8>>)
      requires Valid()
      modifies encryptIv
      ensures Value(encryptIv[..]) == (Value(old(encryptIv[..])) + 1) % NONCES
      ensures packet == Some(Packet(cipher, Value(encryptIv[..]), plain))
    {
      hide Value, Power, Incremented, Digits, Tag, Seal, Mitigated, Critical;
      IncrementFrom(encryptIv, 0);
      ghost var iv := encryptIv[..];
      IncrementedValue(old(encryptIv[..]));
      assert old(encryptIv[0..]) == old(encryptIv[..]) && encryptIv[0..] == iv;
      DigitsOfValue(iv);
      LowBytes(iv);
      var nonce := AsBlock(encryptIv[..]);
      var authentic, encrypted, tag := OcbEncrypt(cipher, plain, nonce, true);
      if !authentic {
        return None;
      }
      packet := Some([ToBits(encryptIv[0])] + tag[..3] + encrypted);
    }

    method SetLow(b: Byte)
      requires Valid()
      modifies decryptIv
      ensures decryptIv[..1] == [b] && decryptIv[1..] == old(decryptIv[1..])
    {
      decryptIv[0] := b;
    }

    /** Moves the receiving counter to where a low byte puts it, and says how far that was. */
    method Locate(b: Byte) returns (found: bool, inOrder: bool, restore: bool, late: int, lost: int)
      requires Valid()
      modifies decryptIv
      ensures found <==> Distance(Value(old(decryptIv[..])), b).Some?
      ensures !found ==> decryptIv[..] == old(decryptIv[..])
      ensures found ==>
                var d := Distance(Value(old(decryptIv[..])), b).value;
                && Value(decryptIv[..]) == (Value(old(decryptIv[..])) + d) % NONCES
                && inOrder == (d == 1)
                && restore == (d < 0)
                && late == (if d < 0 then 1 else 0)
                && lost == if d < 0 then -1 else d - 1
    {
      hide Value, Power, Incremented, Decremented, Distance;
      ghost var was := decryptIv[..];
      ghost var upper := was[1..];
      var low := decryptIv[0];
      assert was == [low] + upper;
      DistanceByBytes(was, b);
      Relabelled(low, b, upper);
      RelabelledUp(low, b, upper);
      RelabelledDown(low, b, upper);
      found, inOrder, restore, late, lost := true, false, false, 0, 0;
      if Up(low) == b {
        inOrder := true;
        SetLow(b);
        if b < low {
          IncrementFrom(decryptIv, 1);
        }
      } else {
        var diff: int := b as int - low as int;
        if diff > 128 {
          diff := diff - 256;
        } else if diff < -128 {
          diff := diff + 256;
        }
        if b < low && -30 < diff < 0 {
          late, lost, restore := 1, -1, true;
          SetLow(b);
        } else if b > low && -30 < diff < 0 {
          late, lost, restore := 1, -1, true;
          SetLow(b);
          DecrementFrom(decryptIv, 1);
        } else if b > low && diff > 0 {
          lost := b - low - 1;
          SetLow(b);
        } else if b < low && diff > 0 {
          lost := 256 - low + b - 1;
          SetLow(b);
          IncrementFrom(decryptIv, 1);
        } else {
          found := false;
        }
      }
      assert decryptIv[..] == decryptIv[..1] + decryptIv[1..];
    }

    /** Receives one packet. */
    method Decrypt(source: seq<bv8>) returns (plain: Option<seq<bv8>>)
      requires Valid()
      modifies this, decryptIv, history
      ensures Valid() && Sound(old(Receiving()))
      ensures (Receiving(), plain) == Receive(cipher, old(Receiving()), source)
    {
      hide Value, Power, Digits, Distance, Tag, Open, Trusted, Adjusted, ToByte;
      DigitsOfValue(decryptIv[..]);
      if |source| < 4 {
        return None;
      }
      var saved := decryptIv[..];
      var found, inOrder, restore, lateBy, lostBy := Locate(ToByte(source[0]));
      if !found {
        return None;
      }
      ghost var iv := decryptIv[..];
      DigitsOfValue(iv);
      LowBytes(iv);
      if !inOrder && history[decryptIv[0]] == decryptIv[1] {
        CopyInto(decryptIv, saved);
        return None;
      }
      var nonce := AsBlock(decryptIv[..]);
      var authentic, text, tag := OcbDecrypt(cipher, source[4..], nonce);
      if !authentic || tag[..3] != source[1..4] {
        CopyInto(decryptIv, saved);
        return None;
      }
      history[decryptIv[0]] := decryptIv[1];
      assert history[..] == old(history[..])[Low(Value(iv)) := Second(Value(iv))];
      if restore {
        CopyInto(decryptIv, saved);
      }
      good := (good + 1) % WORD;
      late := Adjusted(late, lateBy);
      lost := Adjusted(lost, lostBy);
      plain := Some(text);
    }
  }
}
