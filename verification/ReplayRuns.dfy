/**
 * Whole runs of the receiver, over any packets in any order: no counter is accepted
 * twice, refusals leave no trace, the statistics account for every counter passed, and
 * a peer's packets come out as what the peer sent.
 *
 * The receiver keeps its counter modulo 2^128. A `Trail` follows it as an integer that
 * does not wrap.
 */
module ReplayRuns {
  import opened Collections
  import opened Bytes
  import opened Blocks
  import opened Ocb2
  import opened Nonces
  import opened CryptStates

  datatype Trail = Trail(receiver: Receiver, at: int, accepted: seq<int>, delivered: seq<seq<bv8>>)

  function Begin(r: Receiver): Trail {
    Trail(r, r.position, [], [])
  }

  function Next(c: Cipher, t: Trail, packet: seq<bv8>): (after: Trail)
    requires Sound(t.receiver)
    ensures Sound(after.receiver)
    ensures after.receiver == Receive(c, t.receiver, packet).0
  {
    var (r, plain) := Receive(c, t.receiver, packet);
    if plain.None? then t else
      var d := Distance(t.receiver.position, ToByte(packet[0])).value;
      Trail(r, if d < 0 then t.at else t.at + d, t.accepted + [t.at + d], t.delivered + [plain.value])
  }

  function Follow(c: Cipher, t: Trail, packets: seq<seq<bv8>>): (after: Trail)
    requires Sound(t.receiver)
    ensures Sound(after.receiver)
  {
    if |packets| == 0 then t else
      Next(c, Follow(c, t, packets[..|packets| - 1]), packets[|packets| - 1])
  }

  // ----- Integers and the counters they stand for -----

  lemma NoncesByPair()
    ensures NONCES == 65536 * Power(14)
  {
    assert Power(16) == 256 * Power(15) && Power(15) == 256 * Power(14);
  }

  /** Reducing modulo 2^128 keeps the two low bytes. */
  lemma LowBytesSurvive(q: int)
    ensures 0 <= q % NONCES < NONCES
    ensures Low(q % NONCES) == q % 256
    ensures Second(q % NONCES) == q / 256 % 256
  {
    hide Power;
    NoncesByPair();
    var k, r := q / NONCES, q % NONCES;
    assert q == NONCES * k + r;
    var m := Power(14) * k;
    assert NONCES * k == 65536 * m;
    LowPair(q, m, r);
  }

  lemma LowPair(q: int, m: int, r: int)
    requires q == 65536 * m + r
    ensures r % 256 == q % 256 && r / 256 % 256 == q / 256 % 256
  {
    assert q / 256 == 256 * m + r / 256;
  }

  lemma StepModulo(at: int, d: int)
    ensures (at % NONCES + d) % NONCES == (at + d) % NONCES
  {
    hide Power;
    var k, r := at / NONCES, at % NONCES;
    assert at == NONCES * k + r;
    var j, s := (r + d) / NONCES, (r + d) % NONCES;
    assert r + d == NONCES * j + s;
    assert at + d == (k + j) * NONCES + s;
    Remainder(at + d, k + j, NONCES, s);
  }

  // ----- The invariant -----

  function LastWith(accepted: seq<int>, low: Byte): Option<int> {
    if |accepted| == 0 then None
    else if accepted[|accepted| - 1] % 256 == low then Some(accepted[|accepted| - 1])
    else LastWith(accepted[..|accepted| - 1], low)
  }

  function Recorded(start: Receiver, accepted: seq<int>, low: Byte): Byte
    requires Sound(start)
  {
    match LastWith(accepted, low)
    case None => start.history[low]
    case Some(a) => a / 256 % 256
  }

  /** The history holds, for each low byte, the second byte of the last counter accepted with it. */
  ghost predicate HistoryHolds(start: Receiver, t: Trail)
    requires Sound(start) && Sound(t.receiver)
  {
    forall low: Byte :: t.receiver.history[low] == Recorded(start, t.accepted, low)
  }

  /** Every counter accepted within the last thirty is the last one accepted with its low byte. */
  ghost predicate WindowHolds(t: Trail) {
    && (forall a :: a in t.accepted ==> a <= t.at)
    && (forall a :: a in t.accepted && a > t.at - 30 ==> LastWith(t.accepted, a % 256) == Some(a))
  }

  ghost predicate Invariant(start: Receiver, t: Trail) {
    && Sound(start)
    && Sound(t.receiver)
    && t.receiver.position == t.at % NONCES
    && HistoryHolds(start, t)
    && WindowHolds(t)
    && Distinct(t.accepted)
  }

  /** Exactly which counters the history refuses. */
  lemma RefusedByHistory(start: Receiver, t: Trail, q: int)
    requires Sound(start) && Sound(t.receiver) && HistoryHolds(start, t)
    ensures Remembered(t.receiver.history, q % NONCES) <==>
            match LastWith(t.accepted, q % 256)
            case Some(a) => (q - a) % 65536 == 0
            case None => start.history[q % 256] == q / 256 % 256
  {
    hide LastWith, Power;
    LowBytesSurvive(q);
    LastWithIsCongruent(t.accepted, q % 256);
    assert t.receiver.history[Low(q % NONCES)] == Recorded(start, t.accepted, q % 256);
    match LastWith(t.accepted, q % 256) {
      case None =>
      case Some(a) => SamePair(q, a);
    }
  }

  lemma {:induction false} LastWithIsCongruent(accepted: seq<int>, low: Byte)
    ensures LastWith(accepted, low).Some? ==> LastWith(accepted, low).value % 256 == low
  {
    if |accepted| > 0 {
      LastWithIsCongruent(accepted[..|accepted| - 1], low);
    }
  }

  lemma SamePair(q: int, a: int)
    requires q % 256 == a % 256
    ensures q / 256 % 256 == a / 256 % 256 <==> (q - a) % 65536 == 0
  {
    var x, y := q / 256, a / 256;
    assert q - a == 256 * (x - y);
    assert (q - a) % 65536 == 0 <==> (x - y) % 256 == 0;
  }

  // ----- One packet keeps the invariant -----

  lemma NewIsNew(start: Receiver, t: Trail, d: int)
    requires Invariant(start, t)
    requires -29 <= d <= 128 && d != 0
    requires d != 1 ==> !Remembered(t.receiver.history, (t.at + d) % NONCES)
    ensures t.at + d !in t.accepted
  {
    hide LastWith, Power;
    if t.at + d in t.accepted && d < 0 {
      RefusedByHistory(start, t, t.at + d);
    }
  }

  lemma WindowKept(t: Trail, d: int, after: Trail)
    requires WindowHolds(t)
    requires -29 <= d <= 128 && d != 0
    requires after.at == if d < 0 then t.at else t.at + d
    requires after.accepted == t.accepted + [t.at + d]
    ensures WindowHolds(after)
  {
    var q := t.at + d;
    forall a | a in after.accepted && a > after.at - 30
      ensures LastWith(after.accepted, a % 256) == Some(a)
    {
      assert after.accepted[..|t.accepted|] == t.accepted;
      if a != q {
        assert a in t.accepted;
        if a % 256 == q % 256 {
          FarApart(a, q);
        }
      }
    }
  }

  lemma FarApart(a: int, q: int)
    requires a % 256 == q % 256 && a != q
    ensures a - q >= 256 || q - a >= 256
  {
  }

  lemma HistoryKept(start: Receiver, t: Trail, d: int, after: Trail)
    requires Sound(start) && Sound(t.receiver) && Sound(after.receiver)
    requires HistoryHolds(start, t)
    requires after.accepted == t.accepted + [t.at + d]
    requires var q := (t.at + d) % NONCES; after.receiver.history == t.receiver.history[Low(q) := Second(q)]
    ensures HistoryHolds(start, after)
  {
    hide Power;
    LowBytesSurvive(t.at + d);
    assert after.accepted[..|t.accepted|] == t.accepted;
    forall low: Byte
      ensures after.receiver.history[low] == Recorded(start, after.accepted, low)
    {
      assert t.receiver.history[low] == Recorded(start, t.accepted, low);
    }
  }

  /** What an accepted packet does, in integers. */
  lemma AcceptedStep(c: Cipher, t: Trail, packet: seq<bv8>) returns (d: int)
    requires Sound(t.receiver) && t.receiver.position == t.at % NONCES
    requires Receive(c, t.receiver, packet).1.Some?
    ensures |packet| >= 4 && Distance(t.receiver.position, ToByte(packet[0])) == Some(d)
    ensures -29 <= d <= 128 && d != 0
    ensures d != 1 ==> !Remembered(t.receiver.history, (t.at + d) % NONCES)
    ensures Next(c, t, packet) ==
            Trail(Accepted(t.receiver, (t.at + d) % NONCES, d), if d < 0 then t.at else t.at + d,
                  t.accepted + [t.at + d], t.delivered + [Receive(c, t.receiver, packet).1.value])
  {
    hide Power, Accepted, Unsealed, Distance;
    d := Distance(t.receiver.position, ToByte(packet[0])).value;
    StepModulo(t.at, d);
  }

  lemma Kept(c: Cipher, start: Receiver, t: Trail, packet: seq<bv8>)
    requires Invariant(start, t)
    ensures Invariant(start, Next(c, t, packet))
  {
    hide Power, Unsealed, Distance, Receive, LastWith;
    if Receive(c, t.receiver, packet).1.Some? {
      var d := AcceptedStep(c, t, packet);
      var after := Next(c, t, packet);
      hide HistoryHolds, WindowHolds;
      NewIsNew(start, t, d);
      WindowKept(t, d, after);
      HistoryKept(start, t, d, after);
    }
  }

  // ----- Every run -----

  /** What a packet can add to the trail, and what it can move. */
  lemma Bounded(c: Cipher, start: Receiver, t: Trail, packet: seq<bv8>)
    requires Invariant(start, t)
    ensures var after := Next(c, t, packet);
            && t.at <= after.at <= t.at + 128
            && (after == t ||
                (|after.accepted| == |t.accepted| + 1 && after.accepted[..|t.accepted|] == t.accepted
                 && t.at - 29 <= after.accepted[|t.accepted|] <= after.at))
            && after.receiver.good == (t.receiver.good + (|after.accepted| - |t.accepted|)) % WORD
  {
    hide Power, Unsealed, Distance, Receive, HistoryHolds, WindowHolds;
    if Receive(c, t.receiver, packet).1.Some? {
      var d := AcceptedStep(c, t, packet);
    }
  }

  ghost predicate InRange(t: Trail, first: int, last: int) {
    && first <= t.at <= last
    && forall i :: 0 <= i < |t.accepted| ==> first - 29 <= t.accepted[i] <= t.at
  }

  lemma {:induction false} RunKeeps(c: Cipher, start: Receiver, packets: seq<seq<bv8>>)
    requires Sound(start)
    ensures var t := Follow(c, Begin(start), packets);
            && Invariant(start, t)
            && InRange(t, start.position, start.position + 128 * |packets|)
            && t.receiver.good == (start.good + |t.accepted|) % WORD
  {
    hide Next, Invariant, InRange, Power, Receive;
    if |packets| == 0 {
      BeginHolds(start);
    } else {
      var front := packets[..|packets| - 1];
      RunKeeps(c, start, front);
      KeptOnce(c, start, Follow(c, Begin(start), front), packets[|packets| - 1], start.position + 128 * |front|);
    }
  }

  lemma KeptOnce(c: Cipher, start: Receiver, t: Trail, packet: seq<bv8>, last: int)
    requires Invariant(start, t) && InRange(t, start.position, last)
    requires t.receiver.good == (start.good + |t.accepted|) % WORD
    ensures var after := Next(c, t, packet);
            && Invariant(start, after)
            && InRange(after, start.position, last + 128)
            && after.receiver.good == (start.good + |after.accepted|) % WORD
  {
    hide Next, InRange, Power, Receive, HistoryHolds, WindowHolds, Distinct;
    Kept(c, start, t, packet);
    Bounded(c, start, t, packet);
    RangeKept(t, Next(c, t, packet), start.position, last);
    AddedModulo(start.good + |t.accepted|, |Next(c, t, packet).accepted| - |t.accepted|);
  }

  lemma AddedModulo(x: nat, more: nat)
    ensures (x % WORD + more) % WORD == (x + more) % WORD
  {
  }

  lemma RangeKept(t: Trail, after: Trail, first: int, last: int)
    requires InRange(t, first, last)
    requires t.at <= after.at <= t.at + 128
    requires after == t ||
             (|after.accepted| == |t.accepted| + 1 && after.accepted[..|t.accepted|] == t.accepted
              && t.at - 29 <= after.accepted[|t.accepted|] <= after.at)
    ensures InRange(after, first, last + 128)
  {
    forall i | 0 <= i < |after.accepted|
      ensures first - 29 <= after.accepted[i] <= after.at
    {
      if i < |t.accepted| {
        assert after.accepted[i] == t.accepted[i];
      }
    }
  }

  lemma BeginHolds(start: Receiver)
    requires Sound(start)
    ensures Invariant(start, Begin(start))
    ensures InRange(Begin(start), start.position, start.position)
    ensures start.good == start.good % WORD
  {
    hide Power;
    Remainder(start.position, 0, NONCES, start.position);
  }

  /** No run accepts a counter twice, whatever packets it is given. */
  lemma NoReplay(c: Cipher, start: Receiver, packets: seq<seq<bv8>>)
    requires Sound(start)
    ensures Distinct(Follow(c, Begin(start), packets).accepted)
    ensures Follow(c, Begin(start), packets).receiver.good ==
            (start.good + |Follow(c, Begin(start), packets).accepted|) % WORD
  {
    RunKeeps(c, start, packets);
  }

  /** Nor a nonce, in any run short of wrapping the whole 2^128 counters. */
  lemma NoNonceTwice(c: Cipher, start: Receiver, packets: seq<seq<bv8>>, i: nat, j: nat)
    requires Sound(start)
    requires Follow(c, Begin(start), packets).at - start.position + 29 < NONCES
    requires i < j < |Follow(c, Begin(start), packets).accepted|
    ensures Follow(c, Begin(start), packets).accepted[i] % NONCES
      != Follow(c, Begin(start), packets).accepted[j] % NONCES
  {
    hide Power, Follow;
    RunKeeps(c, start, packets);
    var t := Follow(c, Begin(start), packets);
    var a, b := t.accepted[i], t.accepted[j];
    assert a != b;
    if a % NONCES == b % NONCES {
      var k := a / NONCES - b / NONCES;
      assert a == NONCES * (a / NONCES) + a % NONCES && b == NONCES * (b / NONCES) + b % NONCES;
      assert a - b == k * NONCES;
      OnlyZeroMultiple(k, NONCES);
    }
  }

  // ----- The statistics -----

  /** A late packet accepted with at most one counter left to take off the lost: it is counted twice. */
  predicate Unpaid(c: Cipher, t: Trail, packet: seq<bv8>)
    requires Sound(t.receiver)
  {
    && Receive(c, t.receiver, packet).1.Some?
    && Distance(t.receiver.position, ToByte(packet[0])).value < 0
    && t.receiver.lost <= 1
  }

  function UnpaidIn(c: Cipher, t: Trail, packets: seq<seq<bv8>>): nat
    requires Sound(t.receiver)
  {
    if |packets| == 0 then 0 else
      var front := packets[..|packets| - 1];
      UnpaidIn(c, t, front) + if Unpaid(c, Follow(c, t, front), packets[|packets| - 1]) then 1 else 0
  }

  /** With the counters at zero at the start: what `good`, `late` and `lost` say about the counters passed. */
  ghost predicate Accounted(start: Receiver, t: Trail, unpaid: nat) {
    && t.receiver.good == |t.accepted|
    && unpaid <= t.receiver.late <= t.receiver.good
    && t.receiver.good + t.receiver.lost == t.at - start.position + unpaid
  }

  lemma AcceptedStats(r: Receiver, position: nat, d: int)
    requires Sound(r) && position < NONCES
    requires r.good + 1 < WORD && r.late <= r.good && r.lost < SIGN && r.lost + d - 1 < SIGN
    requires -29 <= d <= 128 && d != 0
    ensures var after := Accepted(r, position, d);
      && after.good == r.good + 1
      && (d > 0 ==> after.late == r.late && after.lost == r.lost + d - 1)
      && (d < 0 ==> after.late == r.late + 1 && after.lost == if r.lost <= 1 then r.lost else r.lost - 1)
  {
    hide Power;
  }

  lemma AccountedStep(c: Cipher, start: Receiver, t: Trail, packet: seq<bv8>, unpaid: nat)
    requires Invariant(start, t) && Accounted(start, t, unpaid)
    requires Next(c, t, packet).at - start.position < SIGN && |t.accepted| + 1 < WORD && start.position <= t.at
    ensures Accounted(start, Next(c, t, packet), unpaid + if Unpaid(c, t, packet) then 1 else 0)
  {
    hide Power, Unsealed, Distance, Receive, HistoryHolds, WindowHolds, Accepted;
    if Receive(c, t.receiver, packet).1.Some? {
      var d := AcceptedStep(c, t, packet);
      LowBytesSurvive(t.at + d);
      AcceptedStats(t.receiver, (t.at + d) % NONCES, d);
    }
  }

  /** Distinct whole numbers between two bounds are no more than there are between them. */
  lemma {:induction false} DistinctBetween(s: seq<int>, low: int, high: int)
    requires Distinct(s) && forall i | 0 <= i < |s| :: low <= s[i] <= high
    requires low <= high + 1
    ensures |s| <= high - low + 1
    decreases high - low + 1
  {
    if i :| 0 <= i < |s| && s[i] == high {
      var rest := s[..i] + s[i + 1..];
      assert forall k | 0 <= k < |rest| :: rest[k] == if k < i then s[k] else s[k + 1];
      DistinctBetween(rest, low, high - 1);
    } else if s != [] {
      assert low <= s[0] <= high && s[0] != high;
      DistinctBetween(s, low, high - 1);
    }
  }

  lemma AcceptedFewerThanPassed(start: Receiver, t: Trail, last: int)
    requires Invariant(start, t) && InRange(t, start.position, last)
    ensures |t.accepted| <= t.at - start.position + 30
  {
    hide HistoryHolds, WindowHolds, Power;
    DistinctBetween(t.accepted, start.position - 29, t.at);
  }

  /** The counter only ever moves ahead. */
  lemma AtNeverGoesBack(c: Cipher, t: Trail, packet: seq<bv8>)
    requires Sound(t.receiver)
    ensures t.at <= Next(c, t, packet).at
  {
    hide Power, Unsealed, Distance, Accepted;
  }

  /** No late packet of the run is accepted with at most one counter lost. */
  ghost predicate AllPaid(c: Cipher, t: Trail, packets: seq<seq<bv8>>)
    requires Sound(t.receiver)
  {
    forall i | 0 <= i < |packets| :: !Unpaid(c, Follow(c, t, packets[..i]), packets[i])
  }

  lemma {:induction false} NoneUnpaid(c: Cipher, t: Trail, packets: seq<seq<bv8>>)
    requires Sound(t.receiver)
    ensures UnpaidIn(c, t, packets) == 0 <==> AllPaid(c, t, packets)
  {
    hide Unpaid, Follow;
    if |packets| > 0 {
      var front := packets[..|packets| - 1];
      NoneUnpaid(c, t, front);
      assert forall i | 0 <= i < |front| :: front[..i] == packets[..i] && front[i] == packets[i];
    }
  }

  /**
   * Until the counter has passed 2^31 positions: `good` counts what was accepted, and `good`
   * and `lost` together exceed the positions passed by one for each late packet accepted with
   * at most one counter lost, so they add up exactly when there is none.
   */
  lemma {:induction false} EveryCounterAccounted(c: Cipher, start: Receiver, packets: seq<seq<bv8>>)
    requires Sound(start) && start.good == start.late == start.lost == 0
    requires Follow(c, Begin(start), packets).at - start.position < SIGN
    ensures var t := Follow(c, Begin(start), packets);
      && Accounted(start, t, UnpaidIn(c, Begin(start), packets))
      && (t.receiver.good + t.receiver.lost == t.at - start.position <==> AllPaid(c, Begin(start), packets))
  {
    hide Next, Invariant, Power, Receive, Unpaid, AllPaid, InRange;
    NoneUnpaid(c, Begin(start), packets);
    if |packets| > 0 {
      var front, last := packets[..|packets| - 1], packets[|packets| - 1];
      var t := Follow(c, Begin(start), front);
      AtNeverGoesBack(c, t, last);
      EveryCounterAccounted(c, start, front);
      RunKeeps(c, start, front);
      AcceptedFewerThanPassed(start, t, start.position + 128 * |front|);
      StartsBehind(t, start.position, start.position + 128 * |front|);
      AccountedStep(c, start, t, last, UnpaidIn(c, Begin(start), front));
    }
  }

  lemma StartsBehind(t: Trail, first: int, last: int)
    requires InRange(t, first, last)
    ensures first <= t.at
  {
  }

  // ----- A peer's packets -----

  /** The counters a receiver at `at` can recover from their low byte. */
  predicate Reachable(at: int, q: int) {
    || -29 <= q - at <= -1
    || 1 <= q - at <= 127
    || (q - at == 128 && at % 256 < 128)
  }

  /** A low byte leads back to the counter it came from exactly when that counter is in reach. */
  lemma DistanceExact(at: int, q: int)
    ensures 0 <= at % NONCES
    ensures Distance(at % NONCES, q % 256) == Some(q - at) <==> Reachable(at, q)
  {
    hide Power;
    LowBytesSurvive(at);
    Ahead(at % NONCES, at, q);
    AheadCases(at, q);
  }

  lemma Ahead(position: int, at: int, q: int)
    requires position % 256 == at % 256
    ensures (q % 256 - position) % 256 == (q - at) % 256
  {
    var i, j, k := position / 256, at / 256, q / 256;
    assert q - at == (q % 256 - position) + 256 * (k + i - j);
    SameRemainder(q % 256 - position, k + i - j);
  }

  lemma SameRemainder(x: int, k: int)
    ensures (x + 256 * k) % 256 == x % 256
  {
    var d, r := x / 256, x % 256;
    assert x + 256 * k == 256 * (d + k) + r;
  }

  lemma AheadCases(at: int, q: int)
    ensures (q - at) % 256 == 128 ==> (q % 256 > at % 256 <==> at % 256 < 128)
    ensures -29 <= q - at <= -1 ==> (q - at) % 256 == q - at + 256
    ensures 0 <= q - at <= 128 ==> (q - at) % 256 == q - at
  {
    var i, j := at / 256, q / 256;
    assert q - at == q % 256 - at % 256 + 256 * (j - i);
    assert (q - at) % 256 == (q % 256 - at % 256) % 256;
  }

  /** A peer's packet within reach arrives as the peer's plaintext, unless the history or the tail check refuses it. */
  lemma Delivery(c: Cipher, r: Receiver, at: int, q: int, plain: seq<bv8>)
    requires Decodes(c) && Sound(r) && r.position == at % NONCES
    requires Reachable(at, q)
    ensures 0 <= q % NONCES
    ensures Receive(c, r, Packet(c, q % NONCES, plain)) ==
            if (q == at + 1 || !Remembered(r.history, q % NONCES))
               && Trusted(c, c.enc(Nonce(q % NONCES)), Mitigated(plain))
            then (Accepted(r, q % NONCES, q - at), Some(Mitigated(plain)))
            else (r, None)
  {
    hide Power, Accepted, Distance, Tag, Seal, Open, Trusted, Mitigated, Nonce, ToByte, ToBits, Remembered;
    LowBytesSurvive(q);
    DistanceExact(at, q);
    StepModulo(at, q - at);
    ByteRoundTrip(Low(q % NONCES));
    UnsealedPacket(c, q % NONCES, plain);
  }

  lemma UnsealedPacket(c: Cipher, position: nat, plain: seq<bv8>)
    requires Decodes(c)
    ensures Unsealed(c, position, Packet(c, position, plain)) ==
            if Trusted(c, c.enc(Nonce(position)), Mitigated(plain)) then Some(Mitigated(plain)) else None
  {
    hide Tag, Seal, Open, Trusted, Mitigated, Nonce, ToBits;
    var l := c.enc(Nonce(position));
    var packet := Packet(c, position, plain);
    assert packet[4..] == Seal(c, l, Mitigated(plain));
    assert packet[1..4] == Tag(c, l, Mitigated(plain))[..3];
    OpenSeal(c, l, Mitigated(plain));
  }

  function Sent(c: Cipher, stream: int -> seq<bv8>, q: int): seq<bv8> {
    LowBytesSurvive(q);
    Packet(c, q % NONCES, stream(q))
  }

  /** Packets of one peer, in the order they arrive: any loss, repetition and reordering. */
  function Arrivals(c: Cipher, stream: int -> seq<bv8>, qs: seq<int>): (r: seq<seq<bv8>>)
    ensures |r| == |qs|
  {
    if |qs| == 0 then [] else
      Arrivals(c, stream, qs[..|qs| - 1]) + [Sent(c, stream, qs[|qs| - 1])]
  }

  /** Each packet, when it arrives, is within reach of the receiver. */
  ghost predicate AllReachable(c: Cipher, start: Receiver, stream: int -> seq<bv8>, qs: seq<int>)
    requires Sound(start)
  {
    |qs| > 0 ==>
      var front := qs[..|qs| - 1];
      && AllReachable(c, start, stream, front)
      && Reachable(Follow(c, Begin(start), Arrivals(c, stream, front)).at, qs[|qs| - 1])
  }

  ghost predicate AsSent(t: Trail, stream: int -> seq<bv8>, qs: seq<int>) {
    && |t.delivered| == |t.accepted|
    && (forall i :: 0 <= i < |t.accepted| ==> t.accepted[i] in qs && t.delivered[i] == Mitigated(stream(t.accepted[i])))
  }

  /**
   * Every plaintext delivered is the peer's plaintext for a counter that arrived, and no
   * counter is delivered twice.
   */
  lemma {:induction false} PeerRun(c: Cipher, start: Receiver, stream: int -> seq<bv8>, qs: seq<int>)
    requires Decodes(c) && Sound(start)
    requires AllReachable(c, start, stream, qs)
    ensures AsSent(Follow(c, Begin(start), Arrivals(c, stream, qs)), stream, qs)
    ensures Distinct(Follow(c, Begin(start), Arrivals(c, stream, qs)).accepted)
  {
    hide Power, Next, Receive, Sent, Invariant;
    RunKeeps(c, start, Arrivals(c, stream, qs));
    InvariantDistinct(start, Follow(c, Begin(start), Arrivals(c, stream, qs)));
    if |qs| > 0 {
      var front, q := qs[..|qs| - 1], qs[|qs| - 1];
      PeerRun(c, start, stream, front);
      var packets := Arrivals(c, stream, qs);
      assert packets[..|packets| - 1] == Arrivals(c, stream, front);
      var t := Follow(c, Begin(start), Arrivals(c, stream, front));
      RunKeeps(c, start, Arrivals(c, stream, front));
      PeerStep(c, start, t, stream, front, q);
      assert front + [q] == qs;
    }
  }

  lemma InvariantDistinct(start: Receiver, t: Trail)
    requires Invariant(start, t)
    ensures Distinct(t.accepted)
  {
  }

  lemma PeerStep(c: Cipher, start: Receiver, t: Trail, stream: int -> seq<bv8>, qs: seq<int>, q: int)
    requires Decodes(c) && Invariant(start, t) && AsSent(t, stream, qs)
    requires Reachable(t.at, q)
    ensures AsSent(Next(c, t, Sent(c, stream, q)), stream, qs + [q])
  {
    hide Power, Receive, Accepted, Mitigated, HistoryHolds, WindowHolds, Distance, Packet, Trusted, Remembered;
    hide Reachable, Distinct, Nonce, ToByte;
    LowBytesSurvive(q);
    Delivery(c, t.receiver, t.at, q, stream(q));
    SentLow(c, stream, q);
    DistanceExact(t.at, q);
  }

  lemma SentLow(c: Cipher, stream: int -> seq<bv8>, q: int)
    ensures |Sent(c, stream, q)| >= 4
    ensures ToByte(Sent(c, stream, q)[0]) == q % 256
  {
    hide Power, Tag, Seal, Mitigated, ToByte, ToBits;
    LowBytesSurvive(q);
    ByteRoundTrip(q % 256);
  }

  /** One packet of a peer, within reach and neither remembered nor refused by the tail check. */
  lemma PeerAccepted(c: Cipher, t: Trail, stream: int -> seq<bv8>, q: int)
    requires Decodes(c) && Sound(t.receiver) && t.receiver.position == t.at % NONCES && Reachable(t.at, q)
    requires !Remembered(t.receiver.history, q % NONCES)
    requires Trusted(c, c.enc(Nonce(q % NONCES)), Mitigated(stream(q)))
    ensures var after := Next(c, t, Sent(c, stream, q));
      && after.receiver == Accepted(t.receiver, q % NONCES, q - t.at)
      && after.at == if q < t.at then t.at else q
  {
    hide Power, Accepted, Mitigated, Distance, Packet, Remembered, Trusted;
    LowBytesSurvive(q);
    Delivery(c, t.receiver, t.at, q, stream(q));
    SentLow(c, stream, q);
    DistanceExact(t.at, q);
  }

  /** The two next packets of a peer would be accepted. */
  ghost predicate NextTwoPass(c: Cipher, start: Receiver, stream: int -> seq<bv8>)
    requires Sound(start)
  {
    forall q | q == start.position + 1 || q == start.position + 2 ::
      !Remembered(start.history, q % NONCES) && Trusted(c, c.enc(Nonce(q % NONCES)), Mitigated(stream(q)))
  }

  lemma SecondArrivesFirst(c: Cipher, start: Receiver, stream: int -> seq<bv8>, near: int, far: int)
    requires Decodes(c) && Sound(start) && start.good == start.late == start.lost == 0
    requires NextTwoPass(c, start, stream) && near == start.position + 1 && far == start.position + 2
    ensures var t := Next(c, Begin(start), Sent(c, stream, far));
      && t.at == far && t.receiver.position == far % NONCES
      && t.receiver.good == 1 && t.receiver.late == 0 && t.receiver.lost == 1
      && !Remembered(t.receiver.history, near % NONCES)
  {
    hide Power, Mitigated, Trusted, Next, Sent, Nonce, Accepted, Remembered, Low, Reachable;
    Neighbours(start.position, near, far);
    StartsInPlace(start);
    PeerAccepted(c, Begin(start), stream, far);
    assert far - Begin(start).at == 2;
    AcceptedStats(start, far % NONCES, 2);
    AcceptedElsewhere(start, far % NONCES, near % NONCES);
  }

  /**
   * The first two packets of a peer arriving in the wrong order: nothing is missing, both are
   * accepted, and one counter stays lost.
   */
  lemma SwappedPairStaysLost(c: Cipher, start: Receiver, stream: int -> seq<bv8>, near: int, far: int)
    requires Decodes(c) && Sound(start) && start.good == start.late == start.lost == 0
    requires NextTwoPass(c, start, stream) && near == start.position + 1 && far == start.position + 2
    ensures var t := Follow(c, Begin(start), Arrivals(c, stream, [far, near]));
      t.at == far && t.receiver.good == 2 && t.receiver.late == 1 && t.receiver.lost == 1
  {
    hide Power, Mitigated, Trusted, Next, Sent, Nonce, Accepted, Remembered, Low, Reachable, Follow, Arrivals;
    PairRun(c, start, stream, far, near);
    SecondArrivesFirst(c, start, stream, near, far);
    var t := Next(c, Begin(start), Sent(c, stream, far));
    Neighbours(start.position, near, far);
    PeerAccepted(c, t, stream, near);
    assert near - t.at == -1;
    AcceptedStats(t.receiver, near % NONCES, -1);
  }

  lemma Neighbours(position: nat, near: int, far: int)
    requires near == position + 1 && far == position + 2
    ensures 0 <= near % NONCES < NONCES && 0 <= far % NONCES < NONCES
    ensures Low(near % NONCES) != Low(far % NONCES)
    ensures Reachable(position, far) && Reachable(far, near)
  {
    hide Power;
    LowBytesSurvive(near);
    LowBytesSurvive(far);
  }

  lemma StartsInPlace(start: Receiver)
    requires Sound(start)
    ensures start.position == start.position % NONCES
  {
    hide Power;
    Remainder(start.position, 0, NONCES, start.position);
  }

  lemma PairRun(c: Cipher, start: Receiver, stream: int -> seq<bv8>, p: int, q: int)
    requires Sound(start)
    ensures Follow(c, Begin(start), Arrivals(c, stream, [p, q]))
      == Next(c, Next(c, Begin(start), Sent(c, stream, p)), Sent(c, stream, q))
  {
    hide Next, Sent;
    var first, second := Sent(c, stream, p), Sent(c, stream, q);
    assert [p, q][..1] == [p] && [p][..0] == [];
    assert Arrivals(c, stream, [p]) == [first];
    assert Arrivals(c, stream, [p, q]) == [first, second];
    assert [first, second][..1] == [first] && [first][..0] == [];
    assert Follow(c, Begin(start), [first]) == Next(c, Begin(start), first);
  }

  /** Accepting a packet ahead moves there, and remembers nothing about another low byte. */
  lemma AcceptedElsewhere(r: Receiver, position: nat, other: nat)
    requires Sound(r) && position < NONCES && Low(other) != Low(position)
    ensures Accepted(r, position, 2).position == position
    ensures Remembered(Accepted(r, position, 2).history, other) == Remembered(r.history, other)
  {
    hide Power;
  }

  // ----- Nothing is lost when nothing goes wrong -----

  function InOrder(at: int, n: nat): (qs: seq<int>)
    ensures |qs| == n
  {
    if n == 0 then [] else InOrder(at, n - 1) + [at + n]
  }

  /** The tail check passes for each of the next `n` packets. */
  ghost predicate AllTrusted(c: Cipher, first: int, stream: int -> seq<bv8>, n: nat) {
    forall q :: first < q <= first + n ==> Passes(c, q, stream(q))
  }

  ghost predicate Passes(c: Cipher, q: int, plain: seq<bv8>) {
    Trusted(c, c.enc(Nonce(q % NONCES)), Mitigated(plain))
  }

  ghost predicate AllDelivered(t: Trail, first: int, stream: int -> seq<bv8>, n: nat) {
    && t.at == first + n
    && t.accepted == InOrder(first, n)
    && |t.delivered| == n
    && forall i :: 0 <= i < n ==> t.delivered[i] == Mitigated(stream(first + 1 + i))
  }

  /** Packets arriving in order are all delivered, each exactly as sent after the counter-measure. */
  lemma {:induction false} InOrderRun(c: Cipher, start: Receiver, stream: int -> seq<bv8>, n: nat)
    requires Decodes(c) && Sound(start)
    requires AllTrusted(c, start.position, stream, n)
    ensures AllDelivered(Follow(c, Begin(start), Arrivals(c, stream, InOrder(start.position, n))),
                         start.position, stream, n)
  {
    hide Power, Next, Receive, Sent, Invariant, InRange, Passes, Mitigated, Decodes, AllDelivered, AllTrusted;
    hide Follow, Arrivals, InOrder;
    if n == 0 {
      NoneInOrder(c, start, stream);
    } else {
      var front := InOrder(start.position, n - 1);
      FewerTrusted(c, start.position, stream, n);
      InOrderRun(c, start, stream, n - 1);
      OneMoreInOrder(c, start, stream, n);
      RunKeeps(c, start, Arrivals(c, stream, front));
      var t := Follow(c, Begin(start), Arrivals(c, stream, front));
      AllDeliveredStep(c, start, t, stream, n);
    }
  }

  lemma NoneInOrder(c: Cipher, start: Receiver, stream: int -> seq<bv8>)
    requires Sound(start)
    ensures AllDelivered(Follow(c, Begin(start), Arrivals(c, stream, InOrder(start.position, 0))),
                         start.position, stream, 0)
  {
    hide Power;
  }

  lemma FewerTrusted(c: Cipher, first: int, stream: int -> seq<bv8>, n: nat)
    requires AllTrusted(c, first, stream, n) && n > 0
    ensures AllTrusted(c, first, stream, n - 1)
  {
    hide Passes;
  }

  lemma OneMoreInOrder(c: Cipher, start: Receiver, stream: int -> seq<bv8>, n: nat)
    requires Sound(start) && n > 0
    ensures Follow(c, Begin(start), Arrivals(c, stream, InOrder(start.position, n)))
      == Next(c, Follow(c, Begin(start), Arrivals(c, stream, InOrder(start.position, n - 1))),
              Sent(c, stream, start.position + n))
  {
    hide Power, Next, Sent;
    var qs, front := InOrder(start.position, n), InOrder(start.position, n - 1);
    assert qs == front + [start.position + n] && qs[..|qs| - 1] == front;
    var packets := Arrivals(c, stream, qs);
    assert packets[..|packets| - 1] == Arrivals(c, stream, front);
  }

  lemma AllDeliveredStep(c: Cipher, start: Receiver, t: Trail, stream: int -> seq<bv8>, n: nat)
    requires Decodes(c) && Invariant(start, t) && Sound(t.receiver) && n > 0
    requires AllTrusted(c, start.position, stream, n)
    requires AllDelivered(t, start.position, stream, n - 1)
    ensures AllDelivered(Next(c, t, Sent(c, stream, start.position + n)), start.position, stream, n)
  {
    hide Power, Next, Receive, Sent, Invariant, Mitigated, Passes, Decodes;
    InOrderStep(c, start, t, stream, start.position + n);
    var after := Next(c, t, Sent(c, stream, start.position + n));
    forall i | 0 <= i < n
      ensures after.delivered[i] == Mitigated(stream(start.position + 1 + i))
    {
      if i < n - 1 {
        assert after.delivered[i] == t.delivered[i];
      }
    }
  }

  lemma InOrderStep(c: Cipher, start: Receiver, t: Trail, stream: int -> seq<bv8>, q: int)
    requires Decodes(c) && Invariant(start, t) && q == t.at + 1
    requires Passes(c, q, stream(q))
    ensures var after := Next(c, t, Sent(c, stream, q));
            && after.at == q && after.accepted == t.accepted + [q]
            && after.delivered == t.delivered + [Mitigated(stream(q))]
  {
    hide Power, Receive, Accepted, Mitigated, HistoryHolds, WindowHolds, Distance, Packet, Trusted;
    LowBytesSurvive(q);
    Delivery(c, t.receiver, t.at, q, stream(q));
    SentLow(c, stream, q);
    DistanceExact(t.at, q);
  }

  // ----- Where the history refuses a packet it never saw -----

  /**
   * A receiver that has accepted nothing refuses every packet that is not the next one
   * and whose counter has the second byte its history starts with, zero in a new state.
   */
  lemma FreshHistoryRefuses(c: Cipher, start: Receiver, q: int, plain: seq<bv8>)
    requires Decodes(c) && Sound(start) && start.history == seq(256, i => 0)
    requires Reachable(start.position, q) && q != start.position + 1
    requires Passes(c, q, plain)
    ensures 0 <= q % NONCES
    ensures Receive(c, start, Packet(c, q % NONCES, plain)).1.None? <==> q / 256 % 256 == 0
  {
    hide Power, Receive, Accepted, Mitigated, Packet, Trusted;
    LowBytesSurvive(q);
    BeginHolds(start);
    Delivery(c, start, start.position, q, plain);
  }
}
