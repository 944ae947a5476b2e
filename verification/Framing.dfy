/**
 TCP framing: a two-byte type, a four-byte length, a payload. The reader reassembles frames
 from whatever pieces the transport delivers; what it produces is a function of the byte stream
 alone.
 */
module Framing {
  import opened Collections
  import opened Bytes

  const HEADER_LEN: nat := 6
  const MAX_PAYLOAD_LEN: nat := 0x7f_ffff

  datatype Frame = Frame(kind: nat, payload: seq<Byte>)

  datatype Parsed = Partial | Complete(frame: Frame) | TooLarge(declared: nat)

  ghost predicate Legal(f: Frame) {
    f.kind < 0x1_0000 && |f.payload| <= MAX_PAYLOAD_LEN
  }

  function TotalLen(f: Frame): nat {
    HEADER_LEN + |f.payload|
  }

  // ---------------------------------------------------------------- one frame

  function Word16(a: Byte, b: Byte): nat {
    256 * a + b
  }

  function Word32(a: Byte, b: Byte, c: Byte, d: Byte): nat {
    0x100_0000 * a + 0x1_0000 * b + 0x100 * c + d
  }

  function ParseFrame(buf: seq<Byte>): Parsed {
    if |buf| < HEADER_LEN then Partial else
      var declared := Word32(buf[2], buf[3], buf[4], buf[5]);
      if declared > MAX_PAYLOAD_LEN then TooLarge(declared)
      else if |buf| < HEADER_LEN + declared then Partial
      else Complete(Frame(Word16(buf[0], buf[1]), buf[HEADER_LEN..HEADER_LEN + declared]))
  }

  function Bytes16(x: nat): (r: seq<Byte>)
    requires x < 0x1_0000
    ensures |r| == 2
  {
    [x / 256, x % 256]
  }

  function Bytes32(x: nat): (r: seq<Byte>)
    requires x < 0x1_0000_0000
    ensures |r| == 4
  {
    [x / 0x100_0000, x / 0x1_0000 % 256, x / 0x100 % 256, x % 256]
  }

  function Encode(f: Frame): (r: seq<Byte>)
    requires f.kind < 0x1_0000 && |f.payload| <= MAX_PAYLOAD_LEN
    ensures |r| == TotalLen(f)
  {
    Bytes16(f.kind) + Bytes32(|f.payload|) + f.payload
  }

  /** Appends a frame, or refuses a payload the peer would reject and appends nothing. */
  method WriteFrame(kind: nat, payload: seq<Byte>, before: seq<Byte>) returns (r: Result<seq<Byte>, nat>)
    requires kind < 0x1_0000
    ensures r.Ok? <==> |payload| <= MAX_PAYLOAD_LEN
    ensures r.Ok? ==> r.value == before + Encode(Frame(kind, payload))
    ensures r.Err? ==> r.error > MAX_PAYLOAD_LEN
  {
    if |payload| >= 0x1_0000_0000 {
      return Err(MAX_PAYLOAD_LEN + 1);
    }
    if |payload| > MAX_PAYLOAD_LEN {
      return Err(|payload|);
    }
    var out := before + Bytes16(kind);
    out := out + Bytes32(|payload|);
    out := out + payload;
    assert out == before + (Bytes16(kind) + Bytes32(|payload|) + payload);
    r := Ok(out);
  }

  lemma WordsRoundTrip(x: nat)
    ensures x < 0x1_0000 ==> Word16(Bytes16(x)[0], Bytes16(x)[1]) == x
    ensures x < 0x1_0000_0000 ==> Word32(Bytes32(x)[0], Bytes32(x)[1], Bytes32(x)[2], Bytes32(x)[3]) == x
  {
    if x < 0x1_0000_0000 {
      var a, b, c := x / 0x100, x / 0x1_0000, x / 0x100_0000;
      assert a == x / 256 && b == a / 256 && c == b / 256;
    }
  }

  lemma BytesRoundTrip(a: Byte, b: Byte, c: Byte, d: Byte)
    ensures Bytes16(Word16(a, b)) == [a, b]
    ensures Bytes32(Word32(a, b, c, d)) == [a, b, c, d]
  {
    var x := Word32(a, b, c, d);
    assert x / 0x100 == 0x1_0000 * a + 0x100 * b + c;
    assert x / 0x1_0000 == 0x100 * a + b;
    assert x / 0x100_0000 == a;
  }

  /** Bytes as a number, the most significant first. */
  function Number(bytes: seq<Byte>): nat {
    if bytes == [] then 0 else 256 * Number(bytes[..|bytes| - 1]) + bytes[|bytes| - 1]
  }

  lemma NumberOfTwo(bytes: seq<Byte>)
    requires |bytes| == 2
    ensures Number(bytes) == Word16(bytes[0], bytes[1])
  {
    assert bytes[..1][..0] == [];
    assert Number(bytes[..1]) == bytes[0];
  }

  lemma NumberOfFour(bytes: seq<Byte>)
    requires |bytes| == 4
    ensures Number(bytes) == Word32(bytes[0], bytes[1], bytes[2], bytes[3])
  {
    NumberOfTwo(bytes[..2]);
    assert bytes[..3][..2] == bytes[..2];
    assert Number(bytes[..3]) == 256 * Number(bytes[..2]) + bytes[2];
    assert bytes[..3] == bytes[..|bytes| - 1];
  }

  /** The layout: two bytes of type and four of length, the most significant first, then the payload. */
  lemma EncodedLayout(f: Frame)
    requires Legal(f)
    ensures var r := Encode(f);
      && |r| == 6 + |f.payload|
      && Number(r[..2]) == f.kind && Number(r[2..6]) == |f.payload| && r[6..] == f.payload
  {
    hide Word16, Word32, Bytes16, Bytes32, Number;
    var r := Encode(f);
    assert r[..2] == Bytes16(f.kind) && r[2..6] == Bytes32(|f.payload|);
    NumberOfTwo(r[..2]);
    NumberOfFour(r[2..6]);
    WordsRoundTrip(f.kind);
    WordsRoundTrip(|f.payload|);
  }

  /** What a buffer is taken for, by the length its header declares. */
  lemma ParsedExactly(buf: seq<Byte>)
    ensures ParseFrame(buf).Partial? <==>
      |buf| < 6 || (Number(buf[2..6]) <= 0x7f_ffff && |buf| < 6 + Number(buf[2..6]))
    ensures ParseFrame(buf).TooLarge? <==> |buf| >= 6 && Number(buf[2..6]) > 0x7f_ffff
    ensures ParseFrame(buf).TooLarge? ==> ParseFrame(buf).declared == Number(buf[2..6])
    ensures ParseFrame(buf).Complete? ==>
      |buf| >= 6 + |ParseFrame(buf).frame.payload| && Encode(ParseFrame(buf).frame) <= buf
  {
    hide Word16, Word32, Number, Encode;
    if |buf| >= 6 {
      NumberOfFour(buf[2..6]);
    }
    if ParseFrame(buf).Complete? {
      EncodeParse(buf);
    }
  }

  /** A legal frame parses back, whatever follows it. */
  lemma ParseEncode(f: Frame, rest: seq<Byte>)
    requires Legal(f)
    ensures ParseFrame(Encode(f) + rest) == Complete(f)
  {
    hide Word16, Word32, Bytes16, Bytes32;
    var buf := Encode(f) + rest;
    WordsRoundTrip(f.kind);
    WordsRoundTrip(|f.payload|);
    assert buf[..2] == Bytes16(f.kind) && buf[2..6] == Bytes32(|f.payload|);
    assert buf[0] == buf[..2][0] && buf[1] == buf[..2][1];
    assert buf[2] == buf[2..6][0] && buf[3] == buf[2..6][1] && buf[4] == buf[2..6][2] && buf[5] == buf[2..6][3];
    assert buf[6..6 + |f.payload|] == f.payload;
  }

  /** Whatever parses is the encoding of what it parses to: no two byte strings stand for one frame. */
  lemma EncodeParse(buf: seq<Byte>)
    requires ParseFrame(buf).Complete?
    ensures var f := ParseFrame(buf).frame;
            Legal(f) && TotalLen(f) <= |buf| && buf == Encode(f) + buf[TotalLen(f)..]
  {
    hide Word32, Bytes16, Bytes32;
    var f := ParseFrame(buf).frame;
    BytesRoundTrip(buf[0], buf[1], buf[2], buf[3]);
    BytesRoundTrip(buf[2], buf[3], buf[4], buf[5]);
    assert buf == buf[..2] + buf[2..6] + f.payload + buf[TotalLen(f)..];
    assert buf[..2] == [buf[0], buf[1]] && buf[2..6] == [buf[2], buf[3], buf[4], buf[5]];
    assert Encode(f) == buf[..2] + buf[2..6] + f.payload;
  }

  /** More bytes never change a verdict, they only complete a partial one. */
  lemma MoreBytes(buf: seq<Byte>, more: seq<Byte>)
    requires !ParseFrame(buf).Partial?
    ensures ParseFrame(buf + more) == ParseFrame(buf)
  {
    hide Word16, Word32;
    var all := buf + more;
    assert all[..6] == buf[..6];
    assert forall i | 0 <= i < 6 :: all[i] == buf[i];
    if ParseFrame(buf).Complete? {
      var n := |ParseFrame(buf).frame.payload|;
      assert all[6..6 + n] == buf[6..6 + n];
    }
  }

  // ---------------------------------------------------------------- the stream

  datatype ReadError = Oversized(declared: nat) | Undecodable(frame: Frame) | ClosedMidFrame(buffered: nat)

  /** One message off the front of a stream that then ends, and what is left of the stream. */
  function StreamNext<M>(decode: Frame -> Option<M>, stream: seq<Byte>): (r: (Result<Option<M>, ReadError>, seq<Byte>))
    ensures r.0.Ok? && r.0.value.Some? ==> |r.1| < |stream|
  {
    match ParseFrame(stream)
    case TooLarge(declared) => (Err(Oversized(declared)), stream)
    case Partial => (if stream == [] then Ok(None) else Err(ClosedMidFrame(|stream|)), stream)
    case Complete(f) =>
      match decode(f)
      case None => (Err(Undecodable(f)), stream)
      case Some(m) => (Ok(Some(m)), stream[TotalLen(f)..])
  }

  /** Every message of the stream, and how it ends. */
  function StreamAll<M>(decode: Frame -> Option<M>, stream: seq<Byte>): (seq<M>, Option<ReadError>)
    decreases |stream|
  {
    var (next, rest) := StreamNext(decode, stream);
    match next
    case Err(e) => ([], Some(e))
    case Ok(None) => ([], None)
    case Ok(Some(m)) =>
      var (more, end) := StreamAll(decode, rest);
      ([m] + more, end)
  }

  function Concat(chunks: seq<seq<Byte>>): seq<Byte> {
    if chunks == [] then [] else chunks[0] + Concat(chunks[1..])
  }

  /** The reader: bytes buffered so far, and the pieces the transport has yet to deliver before it closes. */
  class FrameReader<M(0)> {
    const decode: Frame -> Option<M>
    var buffer: seq<Byte>
    var chunks: seq<seq<Byte>>

    ghost predicate Valid()
      reads this
    {
      forall i | 0 <= i < |chunks| :: chunks[i] != []
    }

    ghost function Pending(): seq<Byte>
      reads this
    {
      buffer + Concat(chunks)
    }

    constructor (decode: Frame -> Option<M>, chunks: seq<seq<Byte>>)
      requires forall i | 0 <= i < |chunks| :: chunks[i] != []
      ensures Valid() && this.decode == decode && Pending() == Concat(chunks)
    {
      this.decode, this.buffer, this.chunks := decode, [], chunks;
    }

    /** The next message: exactly the stream's, however it is cut up. */
    method Next() returns (r: Result<Option<M>, ReadError>)
      requires Valid()
      modifies this
      ensures Valid()
      ensures (r, Pending()) == StreamNext(decode, old(Pending()))
    {
      hide ParseFrame, Encode;
      while true
        invariant Valid() && Pending() == old(Pending())
        decreases |chunks|
      {
        var parsed := ParseFrame(buffer);
        if !parsed.Partial? {
          MoreBytes(buffer, Concat(chunks));
        }
        if parsed.TooLarge? {
          return Err(Oversized(parsed.declared));
        }
        if parsed.Complete? {
          var message := decode(parsed.frame);
          if message.None? {
            return Err(Undecodable(parsed.frame));
          }
          EncodeParse(buffer);
          assert Pending()[TotalLen(parsed.frame)..] == buffer[TotalLen(parsed.frame)..] + Concat(chunks);
          buffer := buffer[TotalLen(parsed.frame)..];
          return Ok(message);
        }
        if chunks == [] {
          assert Pending() == buffer;
          if buffer == [] {
            return Ok(None);
          }
          return Err(ClosedMidFrame(|buffer|));
        }
        assert buffer + (chunks[0] + Concat(chunks[1..])) == (buffer + chunks[0]) + Concat(chunks[1..]);
        assert forall i | 0 <= i < |chunks[1..]| :: chunks[1..][i] == chunks[i + 1];
        buffer, chunks := buffer + chunks[0], chunks[1..];
      }
    }

    /** Every message until the stream ends or fails. */
    method ReadAll() returns (messages: seq<M>, end: Option<ReadError>)
      requires Valid()
      modifies this
      ensures (messages, end) == StreamAll(decode, old(Pending()))
    {
      hide StreamNext;
      messages, end := [], None;
      ghost var all := StreamAll(decode, Pending());
      assert [] + all.0 == all.0;
      while true
        invariant Valid()
        invariant StreamAll(decode, old(Pending())) == Prepend(messages, StreamAll(decode, Pending()))
        decreases |Pending()|
      {
        ghost var ahead := StreamAll(decode, Pending());
        var next := Next();
        if next.Err? {
          assert ahead == ([], Some(next.error)) && messages + [] == messages;
          return messages, Some(next.error);
        }
        if next.value.None? {
          assert ahead == ([], None) && messages + [] == messages;
          return messages, None;
        }
        var m := next.value.value;
        ghost var rest := StreamAll(decode, Pending());
        assert ahead == ([m] + rest.0, rest.1);
        assert messages + ([m] + rest.0) == (messages + [m]) + rest.0;
        messages := messages + [m];
      }
    }
  }

  ghost function Prepend<M>(messages: seq<M>, rest: (seq<M>, Option<ReadError>)): (seq<M>, Option<ReadError>) {
    (messages + rest.0, rest.1)
  }

  // ---------------------------------------------------------------- whole streams

  ghost predicate AllLegal(frames: seq<Frame>) {
    forall i | 0 <= i < |frames| :: Legal(frames[i])
  }

  ghost function EncodeAll(frames: seq<Frame>): seq<Byte>
    requires AllLegal(frames)
  {
    if frames == [] then [] else Encode(frames[0]) + EncodeAll(frames[1..])
  }

  function Whole(f: Frame): Option<Frame> {
    Some(f)
  }

  /** Any sequence of legal frames reads back as itself, ending cleanly. */
  lemma {:induction false} FramesRoundTrip(frames: seq<Frame>)
    requires AllLegal(frames)
    ensures StreamAll(Whole, EncodeAll(frames)) == (frames, None)
  {
    if frames != [] {
      FramesRoundTrip(frames[1..]);
      assert EncodeAll(frames) == Encode(frames[0]) + EncodeAll(frames[1..]);
      hide EncodeAll, Encode, Legal;
      FirstOfMany(frames[0], EncodeAll(frames[1..]));
      assert frames == [frames[0]] + frames[1..];
    }
  }

  lemma FirstOfMany(f: Frame, rest: seq<Byte>)
    requires Legal(f)
    ensures StreamAll(Whole, Encode(f) + rest) == ([f] + StreamAll(Whole, rest).0, StreamAll(Whole, rest).1)
  {
    hide StreamNext, Encode, Legal;
    OneFrame(f, rest);
  }

  lemma OneFrame(f: Frame, rest: seq<Byte>)
    requires Legal(f)
    ensures StreamNext(Whole, Encode(f) + rest) == (Ok(Some(f)), rest)
  {
    hide ParseFrame, Encode;
    ParseEncode(f, rest);
    assert (Encode(f) + rest)[TotalLen(f)..] == rest;
  }

  /** Conversely, a stream that reads to a clean end is the encoding of the frames it reads to. */
  lemma {:induction false} CleanStreamIsEncoding(stream: seq<Byte>)
    requires StreamAll(Whole, stream).1.None?
    ensures AllLegal(StreamAll(Whole, stream).0)
    ensures stream == EncodeAll(StreamAll(Whole, stream).0)
    decreases |stream|
  {
    if ParseFrame(stream).Complete? {
      EncodeParse(stream);
      var f := ParseFrame(stream).frame;
      var rest := stream[TotalLen(f)..];
      CleanStreamIsEncoding(rest);
      var frames := StreamAll(Whole, stream).0;
      assert frames[1..] == StreamAll(Whole, rest).0;
    }
  }
}
