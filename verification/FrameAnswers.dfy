/**
 What each frame of a peer does, honest or not: exactly when it is a violation and of which
 kind, and what it changes when it is none. Error codes are those of section 20.1 of RFC 9000.
 */
module FrameAnswers {
  import opened Basics
  import opened StreamIds
  import opened Frames
  import opened Endpoints
  import opened EndpointInvariants
  import opened Runs
  import opened Handling
  import opened Answers

  /** The peer said how long the stream is. */
  predicate Sized(r: RecvHalf) {
    r.finRecv || r.recvReset
  }

  // ------------------------------------------------------------- STREAM frames

  /**
   Out of order is a PROTOCOL_VIOLATION, past the final size a FINAL_SIZE_ERROR, over a limit
   a FLOW_CONTROL_ERROR.
   */
  lemma {:induction false} StreamFrameAnswers(c: ConnState, id: StreamId, offset: nat, data: seq<byte>, fin: bool)
    requires Reachable(c) && id in c.streams && !c.streams[id].done && CanRecv(c.isServer, id)
    ensures var r, o, n := c.streams[id].recv, HandleFrame(c, StreamData(id, offset, data, fin)).1, |data|;
      && (o == Violation(0x0a) <==> offset != r.recvOffset)
      && (o == Violation(0x06) <==> offset == r.recvOffset && Sized(r) && (n > 0 || (fin && !r.finRecv)))
      && (o == Violation(0x03) <==>
            offset == r.recvOffset && !Sized(r)
                && (r.recvOffset + n > r.recvMax || c.flow.received + n > c.flow.recvMax))
      && (!o.Fine? ==> o.Violation? && o.code in {0x0a, 0x06, 0x03})
  {
    hide Reachable, Inv, TakeStream, Resolve;
    ReachableInv(c);
    FoundLive(c, id, true);
  }

  /** Data that is no violation joins what was received, in order, and an end is an end. */
  lemma {:induction false} StreamFrameEffects(c: ConnState, id: StreamId, offset: nat, data: seq<byte>, fin: bool)
    requires Reachable(c) && id in c.streams && !c.streams[id].done && CanRecv(c.isServer, id)
    requires HandleFrame(c, StreamData(id, offset, data, fin)).1.Fine?
    ensures var c', r := HandleFrame(c, StreamData(id, offset, data, fin)).0, c.streams[id].recv;
      && id in c'.streams
      && (Sized(r) ==> c' == c)
      && (!Sized(r) ==>
            var r' := c'.streams[id].recv;
            && r'.recvLog == r.recvLog + data && r'.recvOffset == r.recvOffset + |data| && r'.finRecv == fin
            && r'.recvErr == r.recvErr && c'.flow.received == c.flow.received + |data|
            && c'.flow.consumed == c.flow.consumed + (if r.readCancelled then |data| else 0))
  {
    hide Reachable, Inv, Resolve, Complete, Consume;
    ReachableInv(c);
    FoundLive(c, id, true);
    var s := c.streams[id];
    var c1 := SetStream(c, id, s.(recv := Accepting(s.recv, data, fin))).(
        flow := c.flow.(received := c.flow.received + |data|));
    ConsumeEffects(c1, |data|);
    CompleteEffects(if s.recv.readCancelled then Consume(c1, |data|) else c1, id);
  }

  // ------------------------------------------------------- RESET_STREAM frames

  lemma {:induction false} ResetFrameAnswers(c: ConnState, id: StreamId, code: nat, size: nat)
    requires Reachable(c) && id in c.streams && !c.streams[id].done && CanRecv(c.isServer, id)
    ensures var r, o := c.streams[id].recv, HandleFrame(c, ResetStream(id, code, size)).1;
      var changed := size < r.recvOffset || (Sized(r) && size != r.recvOffset);
      && (o == Violation(0x06) <==> changed)
      && (o == Violation(0x03) <==>
            !changed && !r.recvReset && (size > r.recvMax || c.flow.received + (size - r.recvOffset) > c.flow.recvMax))
      && (!o.Fine? ==> o.Violation? && o.code in {0x06, 0x03})
  {
    hide Reachable, Inv, TakeReset, Resolve;
    ReachableInv(c);
    FoundLive(c, id, true);
  }

  /**
   A reset that is no violation drops what is unread, counts what was never sent, and gives
   the reader the peer's code.
   */
  lemma {:induction false} ResetFrameEffects(c: ConnState, id: StreamId, code: nat, size: nat)
    requires Reachable(c) && id in c.streams && !c.streams[id].done && CanRecv(c.isServer, id)
    requires HandleFrame(c, ResetStream(id, code, size)).1.Fine?
    ensures var c', r := HandleFrame(c, ResetStream(id, code, size)).0, c.streams[id].recv;
      && id in c'.streams
      && (r.recvReset ==> c' == c)
      && (!r.recvReset ==>
            var r' := c'.streams[id].recv;
            && r'.recvReset && r'.recvOffset == size && r'.recvLog == r.recvLog && r.recvOffset <= size
            && r'.recvErr == (if r.recvErr.None? then Some(StreamError(code, true)) else r.recvErr)
            && c'.flow.received == c.flow.received + (size - r.recvOffset)
            && c'.flow.consumed == c.flow.consumed + (size - r.recvOffset) + |r.unread|)
  {
    hide Reachable, Inv, Resolve, Complete, Consume;
    ReachableInv(c);
    FoundLive(c, id, true);
    var s := c.streams[id];
    if !s.recv.recvReset {
      var skipped := size - s.recv.recvOffset;
      var c1 := SetStream(c, id, s.(recv := Resetting(s.recv, code, size))).(
          flow := c.flow.(received := c.flow.received + skipped));
      ConsumeEffects(c1, skipped + |s.recv.unread|);
      CompleteEffects(Consume(c1, skipped + |s.recv.unread|), id);
    }
  }

  // ------------------------------------------------ STOP_SENDING, MAX_STREAM_DATA

  /**
   STOP_SENDING resets the stream with the peer's code and all that was sent as the final
   size, unless it has ended.
   */
  lemma {:induction false} StopSendingEffects(c: ConnState, id: StreamId, code: nat)
    requires Reachable(c) && id in c.streams && !c.streams[id].done && CanSend(c.isServer, id)
    ensures var ((c', o), w) := (HandleFrame(c, StopSending(id, code)), c.streams[id].send);
      && o.Fine?
      && (w.finSent || w.sendErr.Some? ==> c' == c)
      && (!w.finSent && w.sendErr.None? ==>
            && c'.control.frames == c.control.frames + [ResetStream(id, code, |w.sentLog|)]
            && id in c'.streams && c'.streams[id].send.sendErr == Some(StreamError(code, true)))
  {
    hide Reachable, Inv, Resolve, Completes;
    ReachableInv(c);
    FoundLive(c, id, false);
    StreamOf(c, id);
  }

  lemma {:induction false} MaxStreamDataEffects(c: ConnState, id: StreamId, max: nat)
    requires Reachable(c) && id in c.streams && !c.streams[id].done && CanSend(c.isServer, id)
    ensures var (c', o) := HandleFrame(c, MaxStreamData(id, max));
      && o.Fine? && id in c'.streams && c'.streams[id].send.sendMax == Max(c.streams[id].send.sendMax, max)
      && c'.streams[id].recv == c.streams[id].recv
  {
    hide Reachable, Inv, Resolve;
    ReachableInv(c);
    FoundLive(c, id, false);
  }

  // -------------------------------------------------------- which stream is meant

  /**
   A frame for the wrong direction of a stream, or for one this end never opened, is a
   STREAM_STATE_ERROR; one for a stream beyond the limit is a STREAM_LIMIT_ERROR. A stream that
   has completed is passed over.
   */
  lemma {:induction false} LookupAnswers(c: ConnState, f: Frame)
    requires Reachable(c) && c.life.ready && (f.StreamData? || f.ResetStream? || f.StopSending? || f.MaxStreamData?)
    ensures var (c', o) := HandleFrame(c, f);
      var local := Local(c.isServer, f.id);
      var misdirected := f.id.dir.Uni? && local == (f.StreamData? || f.ResetStream?);
      var limit := c.config.maxStreams.Get(f.id.dir) + |Completed(c.isServer, f.id.dir, c.streams)|;
      && (o == Violation(0x05) <==> misdirected || (local && f.id !in c.streams))
      && (o == Violation(0x04) <==> !misdirected && !local && f.id.index >= limit)
      && (o in {Violation(0x05), Violation(0x04)} ==> c' == c)
      && (!misdirected && f.id in c.streams && c.streams[f.id].done ==> o.Fine? && c' == c)
  {
    hide Reachable, Inv, TakeStream, TakeReset, ResetSend, RaiseSendMax, QueueOk, CreateUpTo;
    ReachableInv(c);
    SlotsConserved(c, f.id.dir);
    KeyOf(c, f.id);
    if f.id in c.streams && c.streams[f.id].done && !Local(c.isServer, f.id) {
      DoneBelowMax(c, f.id);
      NothingCreated(c, f.id.dir, f.id.index);
    }
  }

  lemma {:induction false} NothingCreated(c: ConnState, dir: Dir, index: nat)
    requires index < c.incoming.Get(dir).next
    ensures CreateUpTo(c, dir, index) == c
  {
  }

  // ------------------------------------------------- frames about the connection

  /** Limits of the peer only rise, to what the frame says; such frames are never a violation. */
  lemma {:induction false} LimitFrameEffects(c: ConnState, dir: Dir, max: nat)
    requires c.life.ready
    ensures var (c', o) := HandleFrame(c, MaxData(max));
      o.Fine? && c'.flow.sendMax == Max(c.flow.sendMax, max) && c' == c.(flow := c'.flow)
    ensures var (c', o) := HandleFrame(c, MaxStreams(dir, max));
      && o.Fine? && c'.outgoing.Get(dir).max == Max(c.outgoing.Get(dir).max, max)
      && c' == c.(outgoing := Put(c.outgoing, dir, c'.outgoing.Get(dir)))
      && c'.outgoing.Get(dir).next == c.outgoing.Get(dir).next
    ensures HandleFrame(c, Blocked) == (c, Fine)
  {
  }

  /** Parameters are the first frame and only the first; what they declare is what this end may send and open. */
  lemma {:induction false} ParameterAnswers(c: ConnState, f: Frame)
    ensures (f.TransportParameters? <==> c.life.ready) ==> HandleFrame(c, f) == (c, Violation(0x0a))
    ensures f.TransportParameters? && !c.life.ready ==>
      var (c', o) := HandleFrame(c, f);
      && o.Fine? && c'.life.ready && c'.life.peer == f.params && c'.flow.sendMax == f.params.initialMaxData
      && c'.outgoing.bidi.max == f.params.initialMaxStreamsBidi && c'.outgoing.uni.max == f.params.initialMaxStreamsUni
  {
  }

  /**
   A ping is answered with its own number by the next flush; numbers must rise, and answers
   must have been asked for.
   */
  lemma {:induction false} PingAnswers(c: ConnState, sequence: nat)
    requires c.life.ready && !c.life.closed
    ensures HandleFrame(c, Ping(true, sequence)) == (c, if sequence >= c.control.nextPing then Violation(0x0a)
        else Fine)
    ensures var (c', o) := HandleFrame(c, Ping(false, sequence));
      && (o == Violation(0x0a) <==> c.control.peerPinged && sequence <= c.control.peerPingLast)
      && (!o.Violation? ==>
            && o.Fine? && Ping(true, sequence) in TakeControl(c').1
            && c'.control.peerPinged && c'.control.peerPingLast == sequence)
  {
    var k := c.control.(peerPinged := true, peerPingLast := sequence, pongPending := true, pongSequence := sequence,
        wake := true);
    assert Ping(true, sequence) in PingFrames(k);
  }

  /** A ping that was asked for goes out with the next flush, under a number of its own. */
  lemma {:induction false} PingGoesOut(c: ConnState)
    requires !c.life.closed
    ensures var (c', frames) := TakeControl(RequestPing(c));
      Ping(false, c.control.nextPing) in frames && c'.control.nextPing == c.control.nextPing + 1
  {
    assert Ping(false, c.control.nextPing) in PingFrames(RequestPing(c).control);
  }

  /** A datagram is refused exactly if its type byte and data exceed what was declared. */
  lemma {:induction false} DatagramAnswers(c: ConnState, data: seq<byte>)
    requires c.life.ready
    ensures HandleFrame(c, Datagram(data)) == (c, if 1 + |data| > c.config.maxDatagram then Violation(0x0a) else Fine)
  {
  }

  // --------------------------------------------------------------------- closing

  /** The peer's close is what CONNECTION_CLOSE means, and nothing else does. */
  lemma {:induction false} CloseAnswers(c: ConnState, f: Frame)
    requires c.life.ready
    ensures HandleFrame(c, f).1.PeerClosed? <==> f.ConnectionClose?
    ensures f.ConnectionClose? ==> HandleFrame(c, f).0 == c
  {
    hide Resolve, StreamFault, ResetFault, TakeStream, TakeReset, ResetSend, RaiseSendMax;
  }

  lemma {:induction false} HandleAllReady(c: ConnState, frames: seq<Frame>)
    requires c.life.ready
    ensures HandleAll(c, frames).0.life.ready
    decreases frames
  {
    hide HandleFrame;
    if frames != [] {
      FrameReady(c, frames[0]);
      HandleAllReady(HandleFrame(c, frames[0]).0, frames[1..]);
    }
  }

  lemma {:induction false} FrameReady(c: ConnState, f: Frame)
    requires c.life.ready
    ensures HandleFrame(c, f).0.life.ready
  {
    hide Resolve, StreamFault, ResetFault, TakeStream, TakeReset, ResetSend, RaiseSendMax;
    if f.StreamData? || f.ResetStream? || f.StopSending? || f.MaxStreamData? {
      var recv := f.StreamData? || f.ResetStream?;
      var c1 := Resolve(c, f.id, recv).0;
      ResolveOpen(c, f.id, recv);
      if f.id in c1.streams {
        match f
        case StreamData(id, _, data, fin) => TakesOpen(c1, id, data, fin, 0, 0);
        case ResetStream(id, code, finalSize) => TakesOpen(c1, id, [], false, code, finalSize); FaultBound(c1, id,
            finalSize);
        case StopSending(id, code) => SendsOpen(c1, id, code, 0);
        case MaxStreamData(id, max) => SendsOpen(c1, id, 0, max);
        case _ =>
      }
    }
  }

  /** Nothing after the peer's close is looked at: it changes nothing, and the peer's close is the outcome. */
  lemma {:induction false} CloseStops(c: ConnState, before: seq<Frame>, close: Frame, after: seq<Frame>)
    requires c.life.ready && HandleAll(c, before).1.Fine? && close.ConnectionClose?
    ensures HandleAll(c, before + [close] + after) == (HandleAll(c, before).0, PeerClosed)
  {
    hide HandleFrame;
    var c1 := HandleAll(c, before).0;
    HandleAllReady(c, before);
    CloseAnswers(c1, close);
    assert before + [close] + after == before + ([close] + after);
    SplitImmaterial(c, before, [close] + after);
    assert ([close] + after)[0] == close;
  }

  /** Nor is anything after a violation: its code is the outcome, and what came before it was handled. */
  lemma {:induction false} ViolationStops(c: ConnState, before: seq<Frame>, f: Frame, after: seq<Frame>)
    requires HandleAll(c, before).1.Fine? && HandleFrame(HandleAll(c, before).0, f).1.Violation?
    ensures HandleAll(c, before + [f] + after) == HandleFrame(HandleAll(c, before).0, f)
  {
    hide HandleFrame;
    assert before + [f] + after == before + ([f] + after);
    SplitImmaterial(c, before, [f] + after);
    assert ([f] + after)[0] == f;
  }
}
