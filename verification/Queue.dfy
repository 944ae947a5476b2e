/** One connection's bounded output queue, the commit point: a batch is admitted whole or not at all. */
module Queues {
  import opened Collections

  const MAX_DEPTH_FOR_VOICE := 64

  datatype Refused =
    | Congested(needed: nat, free: nat)
    | TooLarge(tooMany: nat, capacity: nat)
    | Closed

  datatype VoiceAdmission = Taken | Dropped

  class OutboundQueue<T> {
    const capacity: nat
    var queued: seq<T>
    /** The writer has ended and will take nothing more. */
    var closed: bool
    var mustClose: bool
    /** What the writer has taken so far, in order. */
    ghost var delivered: seq<T>

    ghost predicate Valid()
      reads this
    {
      capacity >= 1 && |queued| <= capacity
    }

    /** Everything ever admitted. */
    ghost function Admitted(): seq<T>
      reads this
    {
      delivered + queued
    }

    constructor (depth: nat)
      ensures Valid() && capacity == (if depth == 0 then 1 else depth)
      ensures Admitted() == [] && !closed && !mustClose
    {
      capacity := if depth == 0 then 1 else depth;
      queued, delivered, closed, mustClose := [], [], false, false;
    }

    /** Reserve every slot before writing any of them. */
    method TrySendAll(messages: seq<T>) returns (r: Result<(), Refused>)
      requires Valid()
      modifies this
      ensures Valid() && closed == old(closed) && delivered == old(delivered)
      ensures queued == if r.Ok? then old(queued) + messages else old(queued)
      ensures r.Ok? <==> messages == [] || (!closed && old(|queued|) + |messages| <= capacity)
      ensures r.Err? && r.error.TooLarge? <==> |messages| > capacity
      ensures r.Err? && r.error.Congested? ==> r.error.free == capacity - old(|queued|) < |messages| == r.error.needed
      ensures mustClose == (old(mustClose) || (r.Err? && !r.error.Congested?))
    {
      var needed := |messages|;
      if needed == 0 {
        assert queued + messages == queued;
        return Ok(());
      }
      if needed > capacity {
        mustClose := true;
        return Err(TooLarge(needed, capacity));
      }
      var permits := 0;
      while permits < needed
        invariant 0 <= permits <= needed
        invariant permits > 0 ==> !closed
        invariant |queued| + permits <= capacity
        invariant queued == old(queued) && closed == old(closed) && mustClose == old(mustClose)
        invariant delivered == old(delivered)
      {
        if closed {
          mustClose := true;
          return Err(Closed);
        }
        if |queued| + permits == capacity {
          return Err(Congested(needed, permits));
        }
        permits := permits + 1;
      }
      var i := 0;
      while i < needed
        invariant 0 <= i <= needed
        invariant queued == old(queued) + messages[..i]
        invariant closed == old(closed) && mustClose == old(mustClose) && delivered == old(delivered)
      {
        queued := queued + [messages[i]];
        assert messages[..i + 1] == messages[..i] + [messages[i]];
        i := i + 1;
      }
      assert messages[..needed] == messages;
      r := Ok(());
    }

    /** Voice is bounded in latency: it never deepens the queue past its own bound. */
    method PushVoice(message: T) returns (r: VoiceAdmission)
      requires Valid()
      modifies this
      ensures Valid() && closed == old(closed) && delivered == old(delivered)
      ensures queued == if r.Taken? then old(queued) + [message] else old(queued)
      ensures r.Taken? <==> !closed && old(|queued|) < MAX_DEPTH_FOR_VOICE && old(|queued|) < capacity
      ensures r.Taken? ==> |queued| <= MAX_DEPTH_FOR_VOICE
      ensures mustClose == (old(mustClose) || (closed && old(|queued|) < MAX_DEPTH_FOR_VOICE))
    {
      if |queued| >= MAX_DEPTH_FOR_VOICE {
        return Dropped;
      }
      if closed {
        mustClose := true;
        return Dropped;
      }
      if |queued| == capacity {
        return Dropped;
      }
      queued := queued + [message];
      r := Taken;
    }

    /** The writer takes the oldest message. */
    method Take() returns (message: T)
      requires Valid() && queued != []
      modifies this
      ensures Valid() && [message] + queued == old(queued) && closed == old(closed) && mustClose == old(mustClose)
      ensures Admitted() == old(Admitted())
    {
      message := queued[0];
      delivered := delivered + [message];
      queued := queued[1..];
    }
  }
}
