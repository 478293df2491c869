/**
 One endpoint of a connection, as a value, and what each of its critical
 sections does to it. A section is everything that runs under one hold of the
 connection's mutex; here it is one function from the state to the next state.
 The classes in Conn.dfy implement these functions step by step.
 */
module Endpoints {
  import opened Basics
  import opened StreamIds
  import opened Frames
  import Varints

  /** The configuration after its defaults are filled in. */
  datatype Config = Config(
    maxStreams: PerDir<nat>,
    streamWindow: nat,
    connWindow: nat,
    maxRecordSize: nat,
    maxDatagram: nat,
    idleTimeout: nat)

  /** What normalising a configuration guarantees. */
  predicate ValidConfig(c: Config) {
    && c.maxStreams.bidi <= MAX_STREAMS && c.maxStreams.uni <= MAX_STREAMS
    && 1 <= c.streamWindow < Varints.LIMIT
    && 1 <= c.connWindow < Varints.LIMIT
    && DEFAULT_MAX_RECORD_SIZE <= c.maxRecordSize < Varints.LIMIT
    && c.maxDatagram <= c.maxRecordSize
    && c.idleTimeout < Varints.LIMIT
  }

  function LocalParameters(c: Config): Parameters {
    Parameters(
      c.idleTimeout, c.connWindow, c.streamWindow, c.streamWindow, c.streamWindow,
      c.maxStreams.bidi, c.maxStreams.uni, c.maxDatagram,
      if c.maxRecordSize != DEFAULT_MAX_RECORD_SIZE then c.maxRecordSize else 0)
  }

  /**
   A broadcast-once channel that is replaced after each broadcast. gen names the
   current channel; armed says that some goroutine holds it. A goroutine that
   captured channel g is woken exactly when gen moves past g.
   */
  datatype Signal = Signal(gen: nat, armed: bool) {
    function Wait(): Signal {
      Signal(gen, true)
    }
    function Broadcast(): Signal {
      if armed then Signal(gen + 1, false) else this
    }
  }

  const QUIET := Signal(0, false)

  datatype StreamError = StreamError(code: nat, remote: bool)

  /** A stream's receiving side. unread is what was received and not read; recvLog is all that was received. */
  datatype RecvHalf = RecvHalf(
    canRecv: bool,
    unread: seq<byte>,
    recvOffset: nat,
    recvMax: nat,
    readOffset: nat,
    finRecv: bool,
    recvReset: bool,
    readCancelled: bool,
    recvErr: Option<StreamError>,
    readSignal: Signal,
    recvLog: seq<byte>)

  /** A stream's sending side. sentLog is all the data for which credit was taken. */
  datatype SendHalf = SendHalf(
    canSend: bool,
    sendOffset: nat,
    sendMax: nat,
    finSent: bool,
    sendErr: Option<StreamError>,
    writeSignal: Signal,
    sentLog: seq<byte>)

  datatype StreamState = StreamState(accepted: bool, done: bool, recv: RecvHalf, send: SendHalf)

  datatype Outgoing = Outgoing(next: nat, max: nat, signal: Signal)

  datatype Incoming = Incoming(next: nat, max: nat, pending: bool, queue: seq<StreamId>, signal: Signal)

  /** The connection's stages: closed for good, and the peer's parameters in. */
  datatype Life = Life(closed: bool, ready: bool, handshakeClosed: bool, peer: Parameters)

  /** Connection-level flow control. */
  datatype Flow = Flow(sendMax: nat, sent: nat, sendSignal: Signal, recvMax: nat, received: nat, consumed: nat)

  /** What waits for the write loop, and the state of pings. */
  datatype Control = Control(
    frames: seq<Frame>,
    maxDataPending: bool,
    pongPending: bool,
    pongSequence: nat,
    pingPending: bool,
    wake: bool,
    nextPing: nat,
    peerPinged: bool,
    peerPingLast: nat)

  /**
   The connection. streams holds every stream the endpoint ever had; those that
   are done are the ones the connection has forgotten.
   */
  datatype ConnState = ConnState(
    isServer: bool,
    config: Config,
    life: Life,
    streams: map<StreamId, StreamState>,
    outgoing: PerDir<Outgoing>,
    incoming: PerDir<Incoming>,
    flow: Flow,
    control: Control)

  function Init(config: Config, isServer: bool): ConnState {
    ConnState(
      isServer, config, Life(false, false, false, NO_PARAMETERS), map[],
      PerDir(Outgoing(0, 0, QUIET), Outgoing(0, 0, QUIET)),
      PerDir(Incoming(0, config.maxStreams.bidi, false, [], QUIET),
          Incoming(0, config.maxStreams.uni, false, [], QUIET)),
      Flow(0, 0, QUIET, config.connWindow, 0, 0),
      Control([], false, false, 0, false, false, 0, false, 0))
  }

  /** What handling a frame comes to: nothing to report, a violation by the peer, or the peer's own close. */
  datatype Outcome = Fine | Violation(code: nat) | PeerClosed

  // ---------------------------------------------------------------- streams

  predicate CanRecv(isServer: bool, id: StreamId) {
    id.dir.Bidi? || !Local(isServer, id)
  }

  predicate CanSend(isServer: bool, id: StreamId) {
    id.dir.Bidi? || Local(isServer, id)
  }

  /** The peer's initial limit on what this endpoint sends on a stream. */
  function InitialSendMax(isServer: bool, peer: Parameters, id: StreamId): nat {
    if !CanSend(isServer, id) then 0
    else if id.dir.Uni? then peer.initialMaxStreamDataUni
    else if Local(isServer, id) then peer.initialMaxStreamDataBidiRemote
    else peer.initialMaxStreamDataBidiLocal
  }

  function NewStream(c: ConnState, id: StreamId, accepted: bool): StreamState {
    StreamState(
      accepted, false,
      RecvHalf(CanRecv(c.isServer, id), [], 0, if CanRecv(c.isServer, id) then c.config.streamWindow else 0,
               0, false, false, false, None, QUIET, []),
      SendHalf(CanSend(c.isServer, id), 0, InitialSendMax(c.isServer, c.life.peer, id), false, None, QUIET, []))
  }

  function SetStream(c: ConnState, id: StreamId, s: StreamState): ConnState {
    c.(streams := c.streams[id := s])
  }

  predicate RecvDone(r: RecvHalf) {
    !r.canRecv || r.recvReset || (r.finRecv && (r.readCancelled || r.unread == []))
  }

  predicate SendDone(w: SendHalf) {
    !w.canSend || w.finSent || w.sendErr.Some?
  }

  // ------------------------------------------------------------ bookkeeping

  function Wake(c: ConnState): ConnState {
    c.(control := c.control.(wake := true))
  }

  function Queue(c: ConnState, f: Frame): ConnState {
    c.(control := c.control.(frames := c.control.frames + [f], wake := true))
  }

  /** Data left the receive buffers; the limit is extended once half the window is used. */
  function Consuming(f: Flow, n: nat, window: nat): (Flow, bool) {
    var f1 := f.(consumed := f.consumed + n);
    if f1.recvMax - f1.consumed < window / 2 then (f1.(recvMax := f1.consumed + window), true) else (f1, false)
  }

  function Consume(c: ConnState, n: nat): ConnState {
    var (flow, extended) := Consuming(c.flow, n, c.config.connWindow);
    c.(flow := flow, control := if extended then c.control.(maxDataPending := true, wake := true) else c.control)
  }

  predicate Completes(s: StreamState) {
    !s.done && s.accepted && RecvDone(s.recv) && SendDone(s.send)
  }

  /** Forgets a stream whose two directions have ended, and frees its slot. No stream begins or ceases to have been. */
  function Complete(c: ConnState, id: StreamId): (r: ConnState)
    requires id in c.streams
    ensures r.incoming.bidi.next == c.incoming.bidi.next && r.incoming.uni.next == c.incoming.uni.next
    ensures r.streams.Keys == c.streams.Keys
  {
    var s := c.streams[id];
    if !Completes(s) then c
    else
      var c1 := SetStream(c, id, s.(done := true, recv := s.recv.(unread := [])));
      if Local(c.isServer, id) then c1
      else
        var inc := c.incoming.Get(id.dir);
        Wake(c1.(incoming := Put(c.incoming, id.dir, inc.(max := inc.max + 1, pending := true))))
  }

  // -------------------------------------------------------- finding a stream

  /** The peer's next stream of a kind comes into being, and waits to be accepted. */
  function Create(c: ConnState, dir: Dir): ConnState {
    var inc := c.incoming.Get(dir);
    var id := StreamId(inc.next, dir, !c.isServer);
    SetStream(c, id, NewStream(c, id, false)).(
      incoming := Put(c.incoming, dir, inc.(
        next := inc.next + 1, queue := inc.queue + [id], signal := inc.signal.Broadcast())))
  }

  function CreateUpTo(c: ConnState, dir: Dir, index: nat): ConnState
    decreases index + 1 - c.incoming.Get(dir).next
  {
    if c.incoming.Get(dir).next <= index then CreateUpTo(Create(c, dir), dir, index) else c
  }

  datatype Lookup = Failed(code: nat) | Gone | Found

  function LiveOrGone(c: ConnState, id: StreamId): Lookup {
    if id in c.streams && !c.streams[id].done then Found else Gone
  }

  /**
   Finds the stream a frame refers to. recv tells whether the frame is about the
   data the peer sends. A stream the frame opens is created, with every
   lower-numbered one. Gone is a stream that has already closed.
   */
  function Resolve(c: ConnState, id: StreamId, recv: bool): (r: (ConnState, Lookup))
    ensures r.1.Found? ==> id in r.0.streams && !r.0.streams[id].done
  {
    var local := Local(c.isServer, id);
    if id.dir.Uni? && local == recv then (c, Failed(STREAM_STATE_ERROR))
    else if local then
      if id.index >= c.outgoing.Get(id.dir).next then (c, Failed(STREAM_STATE_ERROR))
      else (c, LiveOrGone(c, id))
    else if id.index >= c.incoming.Get(id.dir).max then (c, Failed(STREAM_LIMIT_ERROR))
    else
      var c1 := CreateUpTo(c, id.dir, id.index);
      (c1, LiveOrGone(c1, id))
  }

  // --------------------------------------------------------- frame handlers

  function Accepting(r: RecvHalf, data: seq<byte>, fin: bool): RecvHalf {
    r.(recvOffset := r.recvOffset + |data|, finRecv := fin,
       unread := if r.readCancelled then r.unread else r.unread + data,
       readSignal := r.readSignal.Broadcast(), recvLog := r.recvLog + data)
  }

  /** What is wrong with a STREAM frame for a live stream, if anything. */
  function StreamFault(c: ConnState, r: RecvHalf, offset: nat, n: nat, fin: bool): Option<nat> {
    if offset != r.recvOffset then Some(PROTOCOL_VIOLATION)
    else if r.finRecv || r.recvReset then
      if n > 0 || (fin && !r.finRecv) then Some(FINAL_SIZE_ERROR) else None
    else if r.recvOffset + n > r.recvMax then Some(FLOW_CONTROL_ERROR)
    else if c.flow.received + n > c.flow.recvMax then Some(FLOW_CONTROL_ERROR)
    else None
  }

  /** Data and end of a live stream arrive, in order and within the limits. */
  function TakeStream(c: ConnState, id: StreamId, data: seq<byte>, fin: bool): ConnState
    requires id in c.streams
  {
    var s := c.streams[id];
    if s.recv.finRecv || s.recv.recvReset then c
    else
      var c1 := SetStream(c, id, s.(recv := Accepting(s.recv, data, fin))).(
        flow := c.flow.(received := c.flow.received + |data|));
      var c2 := if s.recv.readCancelled then Consume(c1, |data|) else c1;
      Complete(c2, id)
  }

  function HandleStream(c0: ConnState, id: StreamId, offset: nat, data: seq<byte>, fin: bool): (ConnState, Outcome) {
    var (c, look) := Resolve(c0, id, true);
    if look.Failed? then (c, Violation(look.code))
    else if look.Gone? then (c, Fine)
    else
      var fault := StreamFault(c, c.streams[id].recv, offset, |data|, fin);
      if fault.Some? then (c, Violation(fault.value)) else (TakeStream(c, id, data, fin), Fine)
  }

  function Resetting(r: RecvHalf, code: nat, finalSize: nat): RecvHalf {
    r.(recvOffset := finalSize, recvReset := true, unread := [],
       recvErr := if r.recvErr.None? then Some(StreamError(code, true)) else r.recvErr,
       readSignal := r.readSignal.Broadcast())
  }

  function ResetFault(c: ConnState, r: RecvHalf, finalSize: nat): Option<nat> {
    if finalSize < r.recvOffset || ((r.finRecv || r.recvReset) && finalSize != r.recvOffset) then Some(FINAL_SIZE_ERROR)
    else if r.recvReset then None
    else if finalSize > r.recvMax then Some(FLOW_CONTROL_ERROR)
    else if c.flow.received + (finalSize - r.recvOffset) > c.flow.recvMax then Some(FLOW_CONTROL_ERROR)
    else None
  }

  function TakeReset(c: ConnState, id: StreamId, code: nat, finalSize: nat): ConnState
    requires id in c.streams && c.streams[id].recv.recvOffset <= finalSize
  {
    var s := c.streams[id];
    if s.recv.recvReset then c
    else
      var skipped := finalSize - s.recv.recvOffset;
      var c1 := SetStream(c, id, s.(recv := Resetting(s.recv, code, finalSize))).(
        flow := c.flow.(received := c.flow.received + skipped));
      Complete(Consume(c1, skipped + |s.recv.unread|), id)
  }

  function HandleReset(c0: ConnState, id: StreamId, code: nat, finalSize: nat): (ConnState, Outcome) {
    var (c, look) := Resolve(c0, id, true);
    if look.Failed? then (c, Violation(look.code))
    else if look.Gone? then (c, Fine)
    else
      var fault := ResetFault(c, c.streams[id].recv, finalSize);
      if fault.Some? then (c, Violation(fault.value)) else (TakeReset(c, id, code, finalSize), Fine)
  }

  /** Ends the sending side of a stream with a RESET_STREAM, unless it has ended already. */
  function ResetSend(c: ConnState, id: StreamId, reason: StreamError): ConnState
    requires id in c.streams
  {
    var s := c.streams[id];
    if SendDone(s.send) then c
    else
      var w := s.send.(sendErr := Some(reason), writeSignal := s.send.writeSignal.Broadcast());
      Complete(Queue(SetStream(c, id, s.(send := w)), ResetStream(id, reason.code, s.send.sendOffset)), id)
  }

  function HandleStopSending(c0: ConnState, id: StreamId, code: nat): (ConnState, Outcome) {
    var (c, look) := Resolve(c0, id, false);
    if look.Failed? then (c, Violation(look.code))
    else if look.Gone? then (c, Fine)
    else (ResetSend(c, id, StreamError(code, true)), Fine)
  }

  function RaiseSendMax(c: ConnState, id: StreamId, max: nat): ConnState
    requires id in c.streams
  {
    var s := c.streams[id];
    if max > s.send.sendMax then
      SetStream(c, id, s.(send := s.send.(sendMax := max, writeSignal := s.send.writeSignal.Broadcast())))
    else c
  }

  function HandleMaxStreamData(c0: ConnState, id: StreamId, max: nat): (ConnState, Outcome) {
    var (c, look) := Resolve(c0, id, false);
    if look.Failed? then (c, Violation(look.code))
    else if look.Gone? then (c, Fine)
    else (RaiseSendMax(c, id, max), Fine)
  }

  function HandleMaxData(c: ConnState, max: nat): ConnState {
    if max > c.flow.sendMax then
      c.(flow := c.flow.(sendMax := max, sendSignal := c.flow.sendSignal.Broadcast()))
    else c
  }

  function HandleMaxStreams(c: ConnState, dir: Dir, max: nat): ConnState {
    var out := c.outgoing.Get(dir);
    if max > out.max then
      c.(outgoing := Put(c.outgoing, dir, out.(max := max, signal := out.signal.Broadcast())))
    else c
  }

  function HandleParameters(c: ConnState, p: Parameters): ConnState {
    c.(life := c.life.(peer := p, ready := true, handshakeClosed := true),
       flow := c.flow.(sendMax := p.initialMaxData, sendSignal := c.flow.sendSignal.Broadcast()),
       outgoing := PerDir(
         c.outgoing.bidi.(max := p.initialMaxStreamsBidi, signal := c.outgoing.bidi.signal.Broadcast()),
         c.outgoing.uni.(max := p.initialMaxStreamsUni, signal := c.outgoing.uni.signal.Broadcast())))
  }

  function HandlePing(c: ConnState, response: bool, sequence: nat): (ConnState, Outcome) {
    if response then
      if sequence >= c.control.nextPing then (c, Violation(PROTOCOL_VIOLATION)) else (c, Fine)
    else if c.control.peerPinged && sequence <= c.control.peerPingLast then (c, Violation(PROTOCOL_VIOLATION))
    else
      (c.(control := c.control.(peerPinged := true, peerPingLast := sequence,
                                pongPending := true, pongSequence := sequence, wake := true)), Fine)
  }

  function HandleDatagram(c: ConnState, data: seq<byte>): (ConnState, Outcome) {
    if 1 + |data| > c.config.maxDatagram then (c, Violation(PROTOCOL_VIOLATION)) else (c, Fine)
  }

  function HandleFrame(c: ConnState, f: Frame): (ConnState, Outcome) {
    if f.TransportParameters? != !c.life.ready then (c, Violation(PROTOCOL_VIOLATION))
    else
      match f
      case TransportParameters(p) => (HandleParameters(c, p), Fine)
      case StreamData(id, offset, data, fin) => HandleStream(c, id, offset, data, fin)
      case ResetStream(id, code, finalSize) => HandleReset(c, id, code, finalSize)
      case StopSending(id, code) => HandleStopSending(c, id, code)
      case MaxStreamData(id, max) => HandleMaxStreamData(c, id, max)
      case MaxData(max) => (HandleMaxData(c, max), Fine)
      case MaxStreams(dir, max) => (HandleMaxStreams(c, dir, max), Fine)
      case Ping(response, sequence) => HandlePing(c, response, sequence)
      case Datagram(data) => HandleDatagram(c, data)
      case ConnectionClose(_, _, _, _) => (c, PeerClosed)
      case Blocked => (c, Fine)
  }

  // ------------------------------------------------------- application calls

  datatype OpenResult = OpenFailed | OpenBlocked(token: nat) | Opened(id: StreamId)

  function TryOpen(c: ConnState, dir: Dir): (ConnState, OpenResult) {
    var out := c.outgoing.Get(dir);
    if c.life.closed then (c, OpenFailed)
    else if out.next >= out.max then
      (c.(outgoing := Put(c.outgoing, dir, out.(signal := out.signal.Wait()))), OpenBlocked(out.signal.gen))
    else
      var id := StreamId(out.next, dir, c.isServer);
      (SetStream(c, id, NewStream(c, id, true)).(outgoing := Put(c.outgoing, dir, out.(next := out.next + 1))),
          Opened(id))
  }

  datatype AcceptResult = AcceptFailed | AcceptBlocked(token: nat) | Accepted(id: StreamId)

  function TryAccept(c: ConnState, dir: Dir): (ConnState, AcceptResult)
    requires forall id | id in c.incoming.Get(dir).queue :: id in c.streams
  {
    var inc := c.incoming.Get(dir);
    if c.life.closed then (c, AcceptFailed)
    else if inc.queue == [] then
      (c.(incoming := Put(c.incoming, dir, inc.(signal := inc.signal.Wait()))), AcceptBlocked(inc.signal.gen))
    else
      var id := inc.queue[0];
      var c1 := SetStream(c, id, c.streams[id].(accepted := true)).(
        incoming := Put(c.incoming, dir, inc.(queue := inc.queue[1..])));
      (Complete(c1, id), Accepted(id))
  }

  datatype ReadResult = ReadFailed | ReadBlocked(token: nat) | ReadEof(data: seq<byte>) | ReadData(data: seq<byte>)

  /** The receiving side after its reader took n bytes, and whether its limit was extended. */
  function Reading(r: RecvHalf, n: nat, window: nat): (RecvHalf, bool)
    requires n <= |r.unread|
  {
    var r1 := r.(unread := r.unread[n..], readOffset := r.readOffset + n);
    if !r.finRecv && r1.recvMax - r1.readOffset < window / 2 then (r1.(recvMax := r1.readOffset + window), true)
    else (r1, false)
  }

  function WaitToRead(c: ConnState, id: StreamId): (ConnState, ReadResult)
    requires id in c.streams
  {
    var s := c.streams[id];
    (SetStream(c, id, s.(recv := s.recv.(readSignal := s.recv.readSignal.Wait()))), ReadBlocked(s.recv.readSignal.gen))
  }

  function Take(c: ConnState, id: StreamId, k: nat): ConnState
    requires id in c.streams && k <= |c.streams[id].recv.unread|
  {
    var s := c.streams[id];
    var (r, extended) := Reading(s.recv, k, c.config.streamWindow);
    var c1 := Consume(SetStream(c, id, s.(recv := r)), k);
    Complete(if extended then Queue(c1, MaxStreamData(id, r.recvMax)) else c1, id)
  }

  function TryRead(c: ConnState, id: StreamId, n: nat): (ConnState, ReadResult)
    requires id in c.streams
  {
    var r := c.streams[id].recv;
    if c.life.closed || r.recvErr.Some? then (c, ReadFailed)
    else if r.unread != [] then
      var k := Min(n, |r.unread|);
      (Take(c, id, k), ReadData(r.unread[..k]))
    else if r.finRecv then (c, ReadEof([]))
    else WaitToRead(c, id)
  }

  function TryPeek(c: ConnState, id: StreamId, n: nat): (ConnState, ReadResult)
    requires id in c.streams
  {
    var r := c.streams[id].recv;
    if c.life.closed || r.recvErr.Some? then (c, ReadFailed)
    else if |r.unread| >= n then (c, ReadData(r.unread[..n]))
    else if r.finRecv then (c, ReadEof(r.unread))
    else WaitToRead(c, id)
  }

  /** The receiving side after its reader gave up. */
  function Cancelling(r: RecvHalf, code: nat): (r': RecvHalf)
    ensures r'.finRecv == r.finRecv && r'.recvMax == r.recvMax && r'.unread == []
  {
    r.(readCancelled := true, recvErr := Some(StreamError(code, false)), unread := [],
       readSignal := r.readSignal.Broadcast())
  }

  function CancelRead(c: ConnState, id: StreamId, code: nat): ConnState
    requires id in c.streams
  {
    var s := c.streams[id];
    if c.life.closed || s.recv.recvErr.Some? || RecvDone(s.recv) then c
    else
      var r := Cancelling(s.recv, code);
      var c1 := Consume(SetStream(c, id, s.(recv := r)), |s.recv.unread|);
      Complete(if r.finRecv then c1 else Queue(c1, StopSending(id, code)), id)
  }

  function CancelWrite(c: ConnState, id: StreamId, code: nat): ConnState
    requires id in c.streams
  {
    if c.life.closed then c else ResetSend(c, id, StreamError(code, false))
  }

  predicate SendFails(c: ConnState, w: SendHalf) {
    c.life.closed || w.sendErr.Some? || w.finSent
  }

  function SendCredit(f: Flow, w: SendHalf): (credit: nat) {
    if w.sendMax <= w.sendOffset || f.sendMax <= f.sent then 0
    else Min(w.sendMax - w.sendOffset, f.sendMax - f.sent)
  }

  datatype SendResult = SendFailed | SendReady | SendBlocked(streamToken: nat, connToken: nat)

  function TrySend(c: ConnState, id: StreamId): (ConnState, SendResult)
    requires id in c.streams
  {
    var s := c.streams[id];
    if SendFails(c, s.send) then (c, SendFailed)
    else if SendCredit(c.flow, s.send) > 0 then (c, SendReady)
    else
      (SetStream(c, id, s.(send := s.send.(writeSignal := s.send.writeSignal.Wait()))).(
         flow := c.flow.(sendSignal := c.flow.sendSignal.Wait())),
       SendBlocked(s.send.writeSignal.gen, c.flow.sendSignal.gen))
  }

  /** Takes credit for as much of p as flow control allows, and gives the frame that carries it. */
  function Reserve(c: ConnState, id: StreamId, p: seq<byte>): (ConnState, seq<Frame>)
    requires id in c.streams
  {
    var s := c.streams[id];
    var n := Min(|p|, Min(MAX_STREAM_DATA, SendCredit(c.flow, s.send)));
    if SendFails(c, s.send) || n == 0 then (c, [])
    else
      var w := s.send.(sendOffset := s.send.sendOffset + n, sentLog := s.send.sentLog + p[..n]);
      (SetStream(c, id, s.(send := w)).(flow := c.flow.(sent := c.flow.sent + n)),
       [StreamData(id, s.send.sendOffset, p[..n], false)])
  }

  /** Ends the sending side, and gives the frame that says so. */
  function Finish(c: ConnState, id: StreamId): (ConnState, seq<Frame>)
    requires id in c.streams
  {
    var s := c.streams[id];
    if SendFails(c, s.send) then (c, [])
    else
      var w := s.send.(finSent := true, writeSignal := s.send.writeSignal.Broadcast());
      (Complete(SetStream(c, id, s.(send := w)), id), [StreamData(id, s.send.sendOffset, [], true)])
  }

  function DatagramLimit(c: ConnState): nat {
    Min(c.life.peer.maxDatagramFrameSize, c.life.peer.maxRecordSize)
  }

  /** The size of an encoded DATAGRAM frame. */
  function DatagramLen(data: seq<byte>): nat
    requires |data| < Varints.LIMIT
  {
    1 + Varints.Len(|data|) + |data|
  }

  /** The frame for a datagram, when the connection is open and the peer takes datagrams of this size. */
  function SendDatagram(c: ConnState, data: seq<byte>): seq<Frame> {
    if c.life.closed || DatagramLimit(c) == 0 || |data| >= Varints.LIMIT || DatagramLen(data) > DatagramLimit(c) then []
    else [Datagram(data)]
  }

  function RequestPing(c: ConnState): ConnState {
    c.(control := c.control.(pingPending := true, wake := true))
  }

  // ------------------------------------------------- control frames, closing

  function LimitFrames(c: ConnState): seq<Frame> {
    (if c.control.maxDataPending then [MaxData(c.flow.recvMax)] else [])
    + (if c.incoming.bidi.pending then [MaxStreams(Bidi, c.incoming.bidi.max)] else [])
    + (if c.incoming.uni.pending then [MaxStreams(Uni, c.incoming.uni.max)] else [])
  }

  function PingFrames(k: Control): seq<Frame> {
    (if k.pongPending then [Ping(true, k.pongSequence)] else [])
    + (if k.pingPending then [Ping(false, k.nextPing)] else [])
  }

  /** Empties the control queue. A closed connection sends nothing after its CONNECTION_CLOSE. */
  function TakeControl(c: ConnState): (ConnState, seq<Frame>) {
    if c.life.closed then (c, [])
    else
      (c.(control := c.control.(frames := [], maxDataPending := false, pongPending := false, pingPending := false,
                                nextPing := if c.control.pingPending then c.control.nextPing + 1
                                    else c.control.nextPing),
          incoming := PerDir(c.incoming.bidi.(pending := false), c.incoming.uni.(pending := false))),
       c.control.frames + LimitFrames(c) + PingFrames(c.control))
  }

  predicate ControlWork(c: ConnState) {
    || c.control.frames != [] || c.control.maxDataPending || c.control.pongPending || c.control.pingPending
    || c.incoming.bidi.pending || c.incoming.uni.pending
  }

  function Hushed(s: StreamState): StreamState {
    if s.done then s
    else
      s.(recv := s.recv.(readSignal := s.recv.readSignal.Broadcast()),
         send := s.send.(writeSignal := s.send.writeSignal.Broadcast()))
  }

  /** Ends the connection and wakes everything that waits on it, but for streams already forgotten. */
  function Terminate(c: ConnState): ConnState {
    if c.life.closed then c
    else
      c.(life := c.life.(closed := true, handshakeClosed := true),
         flow := c.flow.(sendSignal := c.flow.sendSignal.Broadcast()),
         outgoing := PerDir(
           c.outgoing.bidi.(signal := c.outgoing.bidi.signal.Broadcast()),
           c.outgoing.uni.(signal := c.outgoing.uni.signal.Broadcast())),
         incoming := PerDir(
           c.incoming.bidi.(signal := c.incoming.bidi.signal.Broadcast()),
           c.incoming.uni.(signal := c.incoming.uni.signal.Broadcast())),
         streams := map id | id in c.streams :: Hushed(c.streams[id]))
  }
}
