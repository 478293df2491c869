/**
 From frames to bytes: whatever an endpoint sends, in any run, has an encoding that
 fits in a record and that the peer's parser turns back into the same frames.
 */
module Wire {
  import opened Basics
  import opened StreamIds
  import opened Frames
  import opened ParamCodec
  import opened FrameCodec
  import opened Records
  import opened Endpoints
  import opened EndpointInvariants
  import opened Traffic
  import opened Speaking
  import opened Runs
  import opened Nodes
  import Varints

  /**
   What the bytes cannot express is ruled out: limits and offsets below 2^62, at
   most 2^60 streams of a kind. The limits of the peer came in frames, which hold
   no more than that.
   */
  ghost predicate InRange(c: ConnState) {
    && ValidConfig(c.config)
    && c.flow.recvMax < Varints.LIMIT
    && c.incoming.bidi.max <= MAX_STREAMS && c.incoming.uni.max <= MAX_STREAMS
    && c.outgoing.bidi.max <= MAX_STREAMS && c.outgoing.uni.max <= MAX_STREAMS
    && (forall id | id in c.streams ::
        && c.streams[id].recv.recvMax < Varints.LIMIT
        && c.streams[id].send.sendMax < Varints.LIMIT)
    && c.control.nextPing <= Varints.LIMIT && c.control.peerPingLast < Varints.LIMIT
  }

  /**
   What the application chose about a frame: its error code, and the reason for closing,
   which is cut to a maximum.
   */
  predicate CodesInRange(f: Frame) {
    match f
    case ResetStream(_, code, _) => code < Varints.LIMIT
    case StopSending(_, code) => code < Varints.LIMIT
    case ConnectionClose(application, code, frameType, reason) =>
      code < Varints.LIMIT && frameType < Varints.LIMIT && (application ==> frameType == 0)
          && |reason| <= MAX_REASON_LENGTH
    case _ => true
  }

  /** The largest record that may carry f. */
  function RecordLimit(c: ConnState, f: Frame): nat {
    if f.Datagram? then c.life.peer.maxRecordSize else DEFAULT_MAX_RECORD_SIZE
  }

  lemma {:induction false} IdsFit(c: ConnState, id: StreamId)
    requires Inv(c) && InRange(c) && id in c.streams
    ensures Raw(id) < Varints.LIMIT
  {
    hide FlowOk, StreamsOk, OursAccepted, LifeOk, QueueOk;
    Parts(c);
  }

  /** Every limit, offset and size in a frame that goes out is at most what the state holds now. */
  lemma {:induction false} StreamValues(n: Node, i: nat)
    requires NodeInv(n) && i < |Out(n)| && Sayable(n.c, Out(n)[i]) && AboutStream(Out(n)[i])
    ensures var f := Out(n)[i];
      && f.id in n.c.streams
      && (f.StreamData? ==> f.offset <= n.c.streams[f.id].send.sendMax)
      && (f.ResetStream? ==> f.finalSize <= n.c.streams[f.id].send.sendMax)
      && (f.MaxStreamData? ==> f.max <= n.c.streams[f.id].recv.recvMax)
  {
    hide NodeInv, StreamFold, ConnFold, Inv;
    var out := Out(n);
    var f := out[i];
    var g := InitialGrant(n.c.isServer, n.c.config.streamWindow, f.id);
    OutSaid(n, f.id);
    InvOf(n);
    StreamOf(n.c, f.id);
    StreamPrefix(out, i, f.id, g);
    StreamPrefix(out, i + 1, f.id, g);
    StreamNext(out, i, f.id, g);
    if f.StreamData? || f.ResetStream? {
      WireOrder(out, i, i, f.id, g);
    }
  }

  lemma {:induction false} ConnValues(n: Node, i: nat)
    requires NodeInv(n) && i < |Out(n)|
    ensures var f := Out(n)[i];
      && (f.MaxData? ==> f.max <= n.c.flow.recvMax)
      && (f.MaxStreams? ==> f.max <= n.c.incoming.Get(f.dir).max)
      && (f.Ping? && !f.response ==> f.sequence < n.c.control.nextPing)
  {
    hide Inv, CloseOk, LoopOk, StreamsSaid, AllSayable, QueueSaid, ConnFold;
    LogInOrder(n);
    ConnPrefix(Out(n), i + 1);
    ConnNext(Out(n), i);
  }

  lemma {:induction false} OutSayable(n: Node, i: nat)
    requires NodeInv(n) && i < |Out(n)|
    ensures Sayable(n.c, Out(n)[i])
  {
    hide Inv, CloseOk, LoopOk, StreamsSaid, QueueSaid, ConnSaid, Sayable;
    assert Out(n)[i] in Out(n) + n.c.control.frames;
  }

  lemma {:induction false} OwnParametersFit(config: Config)
    requires ValidConfig(config)
    ensures EncodableParams(LocalParameters(config)) && FinalCheck(Normal(LocalParameters(config))).Accepted?
  {
  }

  predicate AboutStream(f: Frame) {
    f.StreamData? || f.ResetStream? || f.MaxStreamData? || f.StopSending?
  }

  lemma {:induction false} StreamFrameEncodes(n: Node, i: nat)
    requires NodeInv(n) && i < |Out(n)| && InRange(n.c) && CodesInRange(Out(n)[i]) && AboutStream(Out(n)[i])
    ensures Encodable(Out(n)[i]) && 0 < |Encode(Out(n)[i])| <= DEFAULT_MAX_RECORD_SIZE
  {
    hide NodeInv, Inv, Encode, Varints.Len, CanSend, CanRecv;
    var f := Out(n)[i];
    OutSayable(n, i);
    StreamValues(n, i);
    InvOf(n);
    IdsFit(n.c, f.id);
    if f.StreamData? {
      StreamFits(f.id, f.offset, f.data, f.fin);
    } else {
      ControlFits(f);
    }
  }

  lemma {:induction false} ConnFrameEncodes(n: Node, i: nat)
    requires NodeInv(n) && i < |Out(n)| && InRange(n.c) && CodesInRange(Out(n)[i]) && !AboutStream(Out(n)[i])
    ensures Encodable(Out(n)[i]) && 0 < |Encode(Out(n)[i])| <= RecordLimit(n.c, Out(n)[i])
  {
    hide NodeInv, Encode, EncodableParams;
    var f := Out(n)[i];
    OutSayable(n, i);
    if f.TransportParameters? {
      OwnParametersFit(n.c.config);
      ParamsFit(f.params);
    } else if f.Datagram? {
      DatagramSize(f.data);
    } else if f.ConnectionClose? {
      CloseFits(f);
    } else {
      ConnValues(n, i);
      ControlFits(f);
    }
  }

  /** Every frame that is written or about to be has an encoding, which fits in a record the peer takes. */
  lemma {:induction false} FrameEncodes(n: Node, i: nat)
    requires NodeInv(n) && i < |Out(n)| && InRange(n.c) && CodesInRange(Out(n)[i])
    ensures Encodable(Out(n)[i]) && 0 < |Encode(Out(n)[i])| <= RecordLimit(n.c, Out(n)[i])
  {
    hide NodeInv, Encode, Encodable, InRange, CodesInRange;
    if AboutStream(Out(n)[i]) {
      StreamFrameEncodes(n, i);
    } else {
      ConnFrameEncodes(n, i);
    }
  }

  /** The same for what is on the wire, in every run. */
  lemma {:induction false} LogEncodes(n: Node, i: nat)
    requires NodeReachable(n) && i < |n.log| && InRange(n.c) && CodesInRange(n.log[i])
    ensures Encodable(n.log[i]) && 0 < |Encode(n.log[i])| <= RecordLimit(n.c, n.log[i])
  {
    hide NodeReachable, NodeInv, Encode, Encodable, InRange, CodesInRange;
    NodeReachableInv(n);
    assert Out(n)[i] == n.log[i];
    FrameEncodes(n, i);
  }

  /**
   What the write loop takes from the queue are control frames, each with an encoding:
   just what emptying the queue into records needs.
   */
  lemma {:induction false} TakenFit(n: Node)
    requires NodeInv(n) && Can(n, TakeQueue) && InRange(Do(n, TakeQueue).c)
    requires forall f | f in TakeControl(n.c).1 :: CodesInRange(f)
    ensures forall f | f in TakeControl(n.c).1 :: ControlFrame(f) && Encodable(f)
  {
    hide NodeInv, Encodable, InRange, CodesInRange, ControlFrame, TakeControl;
    var n' := Do(n, TakeQueue);
    var taken := TakeControl(n.c).1;
    DoInv(n, TakeQueue);
    assert Out(n') == Out(n) + taken;
    forall f | f in taken ensures ControlFrame(f) && Encodable(f) {
      var k :| 0 <= k < |taken| && taken[k] == f;
      assert Out(n')[|Out(n)| + k] == f;
      FrameEncodes(n', |Out(n)| + k);
      TakenControl(n, f);
    }
  }

  lemma {:induction false} TakenControl(n: Node, f: Frame)
    requires NodeInv(n) && f in TakeControl(n.c).1
    ensures ControlFrame(f)
  {
    hide Inv, CloseOk, LoopOk, StreamsSaid, ConnSaid, AllSayable;
    if f in n.c.control.frames {
      assert Queued(f);
    }
  }

  lemma {:induction false} InvOf(n: Node)
    requires NodeInv(n)
    ensures Inv(n.c)
  {
  }

  /** However the frames on the wire are put into records, the peer's parser gives back the same frames. */
  lemma {:induction false} WireRoundTrip(n: Node, i: nat, j: nat)
    requires NodeReachable(n) && i <= j <= |n.log| && InRange(n.c)
    requires forall f | f in n.log :: CodesInRange(f)
    ensures forall f | f in n.log[i..j] :: Encodable(f)
    ensures ParseAll(EncodeAll(n.log[i..j])) == (ReceivedAll(n.log[i..j]), None)
  {
    hide NodeReachable, Encodable, CodesInRange, InRange, ParseAll, EncodeAll;
    var frames := n.log[i..j];
    forall f | f in frames ensures Encodable(f) {
      var k :| 0 <= k < |frames| && frames[k] == f;
      assert n.log[i + k] == f && f in n.log;
      LogEncodes(n, i + k);
    }
    ParseEncoded(frames);
  }

  /**
   A configured limit of exactly 2^60 streams leaves no room: once one stream of the
   peer has completed, the frame that would give its slot back is one the peer takes
   for an error. Any smaller limit has room for as many completions as it is smaller.
   */
  lemma {:induction false} NoRoomToGrow(c: ConnState, dir: Dir, rest: seq<byte>)
    requires Reachable(c) && c.config.maxStreams.Get(dir) <= MAX_STREAMS
    requires c.incoming.Get(dir).max < Varints.LIMIT
    ensures var t := if dir.Uni? then MAX_STREAMS_UNI else MAX_STREAMS_BIDI;
      Parse(Ints([t, c.incoming.Get(dir).max]) + rest).Fault?
      <==> |Completed(c.isServer, dir, c.streams)| > MAX_STREAMS - c.config.maxStreams.Get(dir)
  {
    hide Reachable, Parse, Ints, QueueOk;
    SlotsConserved(c, dir);
    MaxStreamsExact(dir, c.incoming.Get(dir).max, rest);
  }

  /** An empty stream of the client opens and ends in one frame. */
  lemma {:induction false} EmptyStream(c: ConnState, id: StreamId)
    requires c == HandleParameters(Init(c.config, true), NO_PARAMETERS) && id == StreamId(0, Uni, false)
    requires c.config.maxStreams.uni >= 1
    ensures var c' := HandleFrame(c, StreamData(id, 0, [], true)).0;
      && id in c'.streams && c'.incoming.uni.queue == [id] && c'.incoming.uni.max == c.config.maxStreams.uni
          && !c'.life.closed
      && c'.config == c.config && c'.isServer && !c'.streams[id].done
      && RecvDone(c'.streams[id].recv) && SendDone(c'.streams[id].send)
  {
    var c1 := Create(c, Uni);
    assert c.incoming.uni.next == 0 && c1.incoming.uni.next == 1;
    assert CreateUpTo(c1, Uni, 0) == c1;
    assert Resolve(c, id, true) == (c1, Found);
  }

  /** Accepting it completes it. */
  lemma {:induction false} AcceptEmpty(c: ConnState, id: StreamId)
    requires !c.life.closed && id in c.streams && c.incoming.uni.queue == [id] && Theirs(c.isServer, Uni, id)
    requires !c.streams[id].done && RecvDone(c.streams[id].recv) && SendDone(c.streams[id].send)
    ensures var c' := TryAccept(c, Uni).0;
      c'.incoming.uni.max == c.incoming.uni.max + 1 && c'.incoming.uni.pending && c'.config == c.config
  {
  }

  lemma {:induction false} ThreeSteps(config: Config, c1: ConnState, c2: ConnState, c: ConnState, id: StreamId)
    requires c1 == HandleFrame(Init(config, true), TransportParameters(NO_PARAMETERS)).0 && !c1.life.closed
    requires c2 == HandleFrame(c1, StreamData(id, 0, [], true)).0 && Enabled(c2, Accept(Uni))
        && c == TryAccept(c2, Uni).0
    ensures Reachable(c)
  {
    hide HandleFrame, TryAccept, Leads;
    var c0 := Init(config, true);
    assert Leads(c, [], c) by { LeadsNowhere(c); }
    LeadsCons(c2, Accept(Uni), [], c);
    LeadsCons(c1, Handle(StreamData(id, 0, [], true)), [Accept(Uni)] + [], c);
    LeadsCons(c0, Handle(TransportParameters(NO_PARAMETERS)), [Handle(StreamData(id, 0, [], true))]
        + ([Accept(Uni)] + []), c);
  }

  /**
   A run that shows it: with a configured limit of exactly 2^60, the client opens one
   empty stream, the application accepts it, and the grant that follows is refused.
   */
  lemma {:induction false} GrantRefused(config: Config, rest: seq<byte>) returns (c: ConnState)
    requires config.maxStreams.uni == MAX_STREAMS
    ensures Reachable(c) && c.config == config && MaxStreams(Uni, c.incoming.uni.max) in LimitFrames(c)
    ensures c.incoming.uni.max == MAX_STREAMS + 1
    ensures Parse(Ints([MAX_STREAMS_UNI, c.incoming.uni.max]) + rest) == Fault(FRAME_ENCODING_ERROR)
  {
    var id := StreamId(0, Uni, false);
    var c0 := Init(config, true);
    var c1 := HandleFrame(c0, TransportParameters(NO_PARAMETERS)).0;
    assert c1 == HandleParameters(c0, NO_PARAMETERS) && !c1.life.closed && c1.config == config && !c0.life.closed;
    hide HandleFrame, TryAccept, Leads, HandleParameters, Init, Parse, Ints;
    EmptyStream(c1, id);
    var c2 := HandleFrame(c1, StreamData(id, 0, [], true)).0;
    AcceptEmpty(c2, id);
    c := TryAccept(c2, Uni).0;
    ThreeSteps(config, c1, c2, c, id);
    MaxStreamsExact(Uni, c.incoming.uni.max, rest);
  }
}
