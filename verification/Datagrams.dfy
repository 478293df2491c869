/** What SendDatagram answers, and the payload size it names when a datagram is too large. */
module Datagrams {
  import opened Basics
  import opened Frames
  import opened Endpoints
  import FrameCodec
  import Formats
  import Varints

  const TWO_63: nat := 0x8000_0000_0000_0000
  const TWO_64: nat := 0x1_0000_0000_0000_0000

  /** Unsigned 64-bit arithmetic wraps around. */
  function Uint64(x: int): nat {
    x % TWO_64
  }

  /** The signed reading of 64 bits. */
  function Int64(u: nat): int
    requires u < TWO_64
  {
    if u < TWO_63 then u else u - TWO_64
  }

  /** The limit less the frame's type and a length field as long as the limit's. */
  function PayloadHint(limit: nat): int
    requires limit < Varints.LIMIT
  {
    Int64(Uint64(limit - 1 - Varints.Len(limit)))
  }

  datatype Answer = NotSupported | TooLarge(payload: int) | Closed | Sent

  function Answered(c: ConnState, data: seq<byte>): Answer
    requires DatagramLimit(c) < Varints.LIMIT && |data| < Varints.LIMIT
  {
    if DatagramLimit(c) == 0 then NotSupported
    else if DatagramLen(data) > DatagramLimit(c) then TooLarge(PayloadHint(DatagramLimit(c)))
    else if c.life.closed then Closed
    else Sent
  }

  /** The frame goes out exactly if the answer is that it was sent. */
  lemma {:induction false} SentExactly(c: ConnState, data: seq<byte>)
    requires DatagramLimit(c) < Varints.LIMIT && |data| < Varints.LIMIT
    ensures SendDatagram(c, data) == if Answered(c, data).Sent? then [Datagram(data)] else []
  {
  }

  /** A datagram goes out exactly if the connection is open and its frame is within both of the peer's limits. */
  lemma {:induction false} GoesOutExactly(c: ConnState, data: seq<byte>)
    requires |data| < Varints.LIMIT
    ensures SendDatagram(c, data)
            == if !c.life.closed && |FrameCodec.Encode(Datagram(data))| <= c.life.peer.maxDatagramFrameSize
                  && |FrameCodec.Encode(Datagram(data))| <= c.life.peer.maxRecordSize
               then [Datagram(data)] else []
  {
    Formats.DatagramEncoded(data);
  }

  /** The subtraction wraps for a limit of one, and only then: no datagram fits, and the hint is below zero. */
  lemma {:induction false} HintUnderflows(limit: nat)
    requires 0 < limit < Varints.LIMIT
    ensures limit - 1 - Varints.Len(limit) < 0 <==> limit == 1
    ensures PayloadHint(limit) < 0 <==> limit == 1
    ensures limit == 1 ==>
        && PayloadHint(limit) == -1
        && forall data: seq<byte> | |data| < Varints.LIMIT :: DatagramLen(data) > limit
  {
    hide Varints.Len;
    LenBounds(limit);
    forall data: seq<byte> | |data| < Varints.LIMIT ensures DatagramLen(data) > 1 {
      LenBounds(|data|);
    }
  }

  lemma {:induction false} LenBounds(v: nat)
    requires v < Varints.LIMIT
    ensures 1 <= Varints.Len(v) <= 8 && (v > 0 ==> Varints.Len(v) <= v)
    ensures v >= 2 ==> Varints.Len(v) < v
  {
  }

  lemma {:induction false} LenMonotone(v: nat, w: nat)
    requires v <= w < Varints.LIMIT
    ensures Varints.Len(v) <= Varints.Len(w)
  {
  }

  /** Above one the hint holds: every payload up to it is accepted. */
  lemma {:induction false} HintAccepted(limit: nat, data: seq<byte>)
    requires 2 <= limit < Varints.LIMIT && |data| <= PayloadHint(limit)
    ensures |data| < Varints.LIMIT && DatagramLen(data) <= limit
  {
    hide Varints.Len;
    LenBounds(limit);
    LenMonotone(|data|, limit);
  }

  /**
   The hint is the largest payload exactly if the length of one byte more takes as
   many bytes as the length of the limit; otherwise that one byte more is accepted too.
   */
  lemma {:induction false} HintLargest(limit: nat)
    requires 2 <= limit < Varints.LIMIT
    ensures 0 <= PayloadHint(limit) < limit
    ensures (forall data: seq<byte> | PayloadHint(limit) < |data| < Varints.LIMIT :: DatagramLen(data) > limit)
            <==> Varints.Len(PayloadHint(limit) + 1) == Varints.Len(limit)
  {
    hide Varints.Len;
    LenBounds(limit);
    var h := PayloadHint(limit);
    LenMonotone(h + 1, limit);
    var next: seq<byte> := seq(h + 1, _ => 0);
    if Varints.Len(h + 1) == Varints.Len(limit) {
      forall data: seq<byte> | h < |data| < Varints.LIMIT ensures DatagramLen(data) > limit {
        LenMonotone(h + 1, |data|);
      }
    } else {
      assert DatagramLen(next) <= limit;
    }
  }
}
