/** Handling a whole record, and why records and padding make no difference. */
module Handling {
  import opened Basics
  import opened StreamIds
  import opened Frames
  import opened Endpoints
  import opened EndpointInvariants
  import opened FrameCodec

  /** Handles the frames of a record until one of them ends it. */
  function HandleBytes(c: ConnState, b: seq<byte>): (ConnState, Outcome)
    decreases |b|
  {
    if b == [] || c.life.closed then (c, Fine)
    else
      match Parse(b)
      case OnlyPadding => (c, Fine)
      case Fault(code) => (c, Violation(code))
      case Parsed(f, rest) =>
        var (c1, o) := HandleFrame(c, f);
        if o.Fine? then HandleBytes(c1, rest) else (c1, o)
  }

  /** Handles frames one by one. */
  function HandleAll(c: ConnState, frames: seq<Frame>): (ConnState, Outcome)
    decreases frames
  {
    if frames == [] then (c, Fine)
    else
      var (c1, o) := HandleFrame(c, frames[0]);
      if o.Fine? then HandleAll(c1, frames[1..]) else (c1, o)
  }

  lemma {:induction false} CompleteOpen(c: ConnState, id: StreamId)
    requires id in c.streams
    ensures Complete(c, id).life == c.life
  {
    hide Completes;
  }

  lemma {:induction false} TakesOpen(c: ConnState, id: StreamId, data: seq<byte>, fin: bool, code: nat, size: nat)
    requires id in c.streams
    ensures TakeStream(c, id, data, fin).life == c.life
    ensures c.streams[id].recv.recvOffset <= size ==> TakeReset(c, id, code, size).life == c.life
  {
    hide Accepting, Resetting, Consuming, Complete;
    var s := c.streams[id];
    var c1 := SetStream(c, id,
        s.(recv := Accepting(s.recv, data, fin))).(flow := c.flow.(received := c.flow.received + |data|));
    CompleteOpen(if s.recv.readCancelled then Consume(c1, |data|) else c1, id);
    if s.recv.recvOffset <= size {
      var skipped := size - s.recv.recvOffset;
      var c2 := SetStream(c, id,
          s.(recv := Resetting(s.recv, code, size))).(flow := c.flow.(received := c.flow.received + skipped));
      CompleteOpen(Consume(c2, skipped + |s.recv.unread|), id);
    }
  }

  lemma {:induction false} SendsOpen(c: ConnState, id: StreamId, code: nat, max: nat)
    requires id in c.streams
    ensures ResetSend(c, id, StreamError(code, true)).life == c.life && RaiseSendMax(c, id, max).life == c.life
  {
    hide Completes, SendDone;
  }

  lemma {:induction false} HandleFrameOpen(c: ConnState, f: Frame)
    ensures HandleFrame(c, f).0.life.closed == c.life.closed
  {
    hide Resolve, StreamFault, ResetFault, TakeStream, TakeReset, ResetSend, RaiseSendMax;
    if f.StreamData? || f.ResetStream? || f.StopSending? || f.MaxStreamData? {
      var recv := f.StreamData? || f.ResetStream?;
      var c1 := Resolve(c, f.id, recv).0;
      ResolveOpen(c, f.id, recv);
      if f.id in c1.streams {
        match f
        case StreamData(id, _, data, fin) => TakesOpen(c1, id, data, fin, 0, 0);
        case ResetStream(id, code, finalSize) => TakesOpen(c1, id, [], false, code, finalSize); FaultBound(c1, id,
            finalSize);
        case StopSending(id, code) => SendsOpen(c1, id, code, 0);
        case MaxStreamData(id, max) => SendsOpen(c1, id, 0, max);
        case _ =>
      }
    }
  }

  lemma {:induction false} FaultBound(c: ConnState, id: StreamId, finalSize: nat)
    requires id in c.streams
    ensures ResetFault(c, c.streams[id].recv, finalSize).None? ==> c.streams[id].recv.recvOffset <= finalSize
  {
  }

  lemma {:induction false} ResolveOpen(c: ConnState, id: StreamId, recv: bool)
    ensures Resolve(c, id, recv).0.life == c.life
  {
    hide CreateUpTo;
    CreateUpToFrame(c, id.dir, id.index);
  }

  /** What was parsed after a fault does not count; a fault after a refused frame does not either. */
  function Verdict(r: (ConnState, Outcome), fault: Option<nat>): (ConnState, Outcome) {
    if r.1.Fine? && fault.Some? then (r.0, Violation(fault.value)) else r
  }

  /** Handling a record is handling the frames it parses into, then reporting its fault. */
  lemma {:induction false} RecordIsFrames(c: ConnState, b: seq<byte>)
    requires !c.life.closed
    ensures HandleBytes(c, b) == Verdict(HandleAll(c, ParseAll(b).0), ParseAll(b).1)
    decreases |b|
  {
    hide Parse, HandleFrame;
    if b == [] {
      ParseEmpty();
    } else if Parse(b).Parsed? {
      var f, rest := Parse(b).frame, Parse(b).rest;
      var (c1, o) := HandleFrame(c, f);
      HandleFrameOpen(c, f);
      assert ([f] + ParseAll(rest).0)[1..] == ParseAll(rest).0;
      if o.Fine? {
        RecordIsFrames(c1, rest);
      }
    }
  }

  /** However frames are padded, a record of them does what they do. */
  lemma {:induction false} PaddingImmaterial(c: ConnState, frames: seq<Frame>, pads: seq<nat>, last: nat)
    requires !c.life.closed && |pads| == |frames| && forall f | f in frames :: Encodable(f)
    ensures HandleBytes(c, Padded(frames, pads, last)) == HandleAll(c, ReceivedAll(frames))
  {
    hide HandleBytes, HandleAll, ParseAll, Padded, Encodable;
    RecordRoundTrip(frames, pads, last);
    RecordIsFrames(c, Padded(frames, pads, last));
  }

  /** Nor does it matter how frames are split into records. */
  lemma {:induction false} SplitImmaterial(c: ConnState, a: seq<Frame>, b: seq<Frame>)
    requires HandleAll(c, a).1.Fine?
    ensures HandleAll(c, a + b) == HandleAll(HandleAll(c, a).0, b)
    decreases a
  {
    hide HandleFrame;
    if a == [] {
      assert a + b == b;
    } else {
      assert (a + b)[1..] == a[1..] + b;
      SplitImmaterial(HandleFrame(c, a[0]).0, a[1..], b);
    }
  }
}
