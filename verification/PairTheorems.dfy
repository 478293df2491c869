/**
 What two honest endpoints get: reliable byte streams, no accusations, and credit
 that never runs dry. Each theorem is about one direction, from b to a; the other
 follows by swapping the ends.
 */
module PairTheorems {
  import opened Basics
  import opened StreamIds
  import opened Frames
  import opened Endpoints
  import opened EndpointInvariants
  import opened Evolution
  import opened Traffic
  import opened Speaking
  import opened Runs
  import opened Nodes
  import opened Hearing
  import opened Pairs

  /** The same pair seen from the other end. */
  function Swap(p: Pair): Pair {
    Pair(p.b, p.a, p.toB, p.toA)
  }

  /** A pair that can be reached, seen from either end. */
  ghost predicate Possible(p: Pair) {
    PairReachable(p) || PairReachable(Swap(p))
  }

  lemma {:induction false} PossibleInv(p: Pair)
    requires Possible(p)
    ensures PairInv(p)
  {
    hide PairReachable, NodeInv, OneWay;
    if PairReachable(p) {
      PairReachableInv(p);
    } else {
      PairReachableInv(Swap(p));
    }
  }

  /** Over any interleaving, neither end ever answers a frame of the other with a violation. */
  lemma {:induction false} NoAccusation(p: Pair)
    requires Possible(p) && p.toA < |p.b.log| && !p.a.c.life.closed
    ensures !HandleFrame(p.a.c, Received(p.b.log[p.toA])).1.Violation?
  {
    hide Possible, NodeInv, Respects, Hears, HandleFrame;
    PossibleInv(p);
    NextHeard(p.a, p.b, p.toA);
  }

  /** An end that is ready knows the other's configuration, limit by limit. */
  lemma {:induction false} PeerKnown(p: Pair)
    requires Possible(p) && p.a.c.life.ready
    ensures var known, config := p.a.c.life.peer, p.b.c.config;
      && known.maxIdleTimeout == config.idleTimeout && known.initialMaxData == config.connWindow
      && known.initialMaxStreamDataBidiLocal == config.streamWindow
      && known.initialMaxStreamDataBidiRemote == config.streamWindow
      && known.initialMaxStreamDataUni == config.streamWindow
      && known.initialMaxStreamsBidi == config.maxStreams.bidi
      && known.initialMaxStreamsUni == config.maxStreams.uni
      && known.maxDatagramFrameSize == config.maxDatagram
      && known.maxRecordSize == (if config.maxRecordSize == 0 then 16382 else config.maxRecordSize)
  {
    hide Possible, NodeInv, Hears;
    PossibleInv(p);
  }

  // -------------------------------------------------------- reliable streams

  /** The stream data that frames carry for a stream, in order. */
  function DataOf(frames: Said, id: StreamId): seq<byte> {
    if frames == [] then []
    else
      var f := frames[|frames| - 1];
      DataOf(frames[..|frames| - 1], id) + (if f.StreamData? && f.id == id then f.data else [])
  }

  lemma {:induction false} FoldData(frames: Said, id: StreamId, grant: nat)
    ensures StreamFold(frames, id, grant).data == DataOf(frames, id)
  {
    if frames != [] {
      FoldData(frames[..|frames| - 1], id, grant);
    }
  }

  lemma {:induction false} DataConcat(a: Said, b: Said, id: StreamId)
    ensures DataOf(a + b, id) == DataOf(a, id) + DataOf(b, id)
  {
    if b == [] {
      assert a + b == a;
    } else {
      var n := |b| - 1;
      DataConcat(a, b[..n], id);
      assert (a + b)[..|a + b| - 1] == a + b[..n] && (a + b)[|a + b| - 1] == b[n];
      var last := if b[n].StreamData? && b[n].id == id then b[n].data else [];
      assert DataOf(a + b, id) == DataOf(a + b[..n], id) + last;
      assert DataOf(a, id) + DataOf(b[..n], id) + last == DataOf(a, id) + (DataOf(b[..n], id) + last);
    }
  }

  /** Queued frames carry no stream data. */
  lemma {:induction false} NoData(ctrl: Said, id: StreamId)
    requires forall f | f in ctrl :: Queued(f)
    ensures DataOf(ctrl, id) == []
  {
    if ctrl != [] {
      assert ctrl[|ctrl| - 1] in ctrl;
      NoData(ctrl[..|ctrl| - 1], id);
    }
  }

  /** What a has read of a stream so far. */
  function ReadSoFar(a: ConnState, id: StreamId): seq<byte>
    requires id in a.streams && a.streams[id].recv.readOffset <= |a.streams[id].recv.recvLog|
  {
    a.streams[id].recv.recvLog[..a.streams[id].recv.readOffset]
  }

  /** What of a stream is on its way from b to a: written and not handled, or about to be written. */
  function InFlight(p: Pair, id: StreamId): seq<byte>
    requires p.toA <= |p.b.log|
  {
    DataOf(p.b.log[p.toA..] + p.b.pend, id)
  }

  lemma {:induction false} SentIs(x: Node, id: StreamId)
    requires NodeInv(x) && id in x.c.streams
    ensures DataOf(Out(x), id) == x.c.streams[id].send.sentLog
  {
    OutSaid(x, id);
    QueueCarriesNone(x);
    hide NodeInv;
    var g := InitialGrant(x.c.isServer, x.c.config.streamWindow, id);
    FoldData(Out(x) + x.c.control.frames, id, g);
    DataConcat(Out(x), x.c.control.frames, id);
    NoData(x.c.control.frames, id);
  }

  lemma {:induction false} QueueCarriesNone(x: Node)
    requires NodeInv(x)
    ensures forall f | f in x.c.control.frames :: Queued(f)
  {
    hide Inv, CloseOk, LoopOk, StreamsSaid, ConnSaid, AllSayable;
  }

  lemma {:induction false} ReceivedIs(y: Node, x: Node, m: nat, id: StreamId)
    requires OneWay(y, x, m) && !y.c.life.closed && id in y.c.streams
    ensures y.c.streams[id].recv.recvLog == DataOf(x.log[..m], id)
    ensures var d := StreamFold(x.log[..m], id, InitialGrant(x.c.isServer, x.c.config.streamWindow, id));
      && StreamHeard(d, y.c.streams[id]) && d.data == DataOf(x.log[..m], id)
  {
    hide Respects, Hears;
    HeardStream(y.c, x.log[..m], x.c.config.streamWindow, id);
    FoldData(x.log[..m], id, PeerGrant(y.c.isServer, x.c.config.streamWindow, id));
  }

  /**
   The pair implements reliable byte streams. For a stream neither reset nor
   abandoned by its reader, what was read, what waits to be read and what is on
   its way are together exactly what the sender took credit for.
   */
  lemma {:induction false} ReliableStream(p: Pair, id: StreamId)
    requires Possible(p) && !p.a.c.life.closed && id in p.a.c.streams && id in p.b.c.streams
    requires !p.a.c.streams[id].recv.recvReset && !p.a.c.streams[id].recv.readCancelled
    ensures p.a.c.streams[id].recv.readOffset <= |p.a.c.streams[id].recv.recvLog| && p.toA <= |p.b.log|
    ensures ReadSoFar(p.a.c, id) + p.a.c.streams[id].recv.unread + InFlight(p, id) == p.b.c.streams[id].send.sentLog
  {
    hide Possible, Speaks, Inv, CloseOk, LoopOk, DataOf, Hears, Respects, StreamHeard;
    PossibleInv(p);
    SentIs(p.b, id);
    ReceivedIs(p.a, p.b, p.toA, id);
    StreamOf(p.a.c, id);
    hide NodeInv, OneWay;
    DataConcat(p.b.log[..p.toA], p.b.log[p.toA..] + p.b.pend, id);
    assert Out(p.b) == p.b.log[..p.toA] + (p.b.log[p.toA..] + p.b.pend);
  }

  /** A stream a reads from is one b has, or nothing has arrived on it. */
  lemma {:induction false} SenderHasIt(p: Pair, id: StreamId)
    requires Possible(p) && !p.a.c.life.closed && id in p.a.c.streams && id !in p.b.c.streams
    ensures p.a.c.streams[id].recv.recvLog == [] && !p.a.c.streams[id].recv.finRecv && !p.a.c.streams[id].recv.recvReset
  {
    hide Possible;
    PossibleInv(p);
    OutSaid(p.b, id);
    hide NodeInv;
    ReceivedIs(p.a, p.b, p.toA, id);
    var g := InitialGrant(p.b.c.isServer, p.b.c.config.streamWindow, id);
    StreamPrefix(p.b.log, p.toA, id, g);
    hide StreamFold;
  }

  /** The end of a stream is seen only after all its data, and only if the sender ended it. */
  lemma {:induction false} EndOfStream(p: Pair, id: StreamId, n: nat)
    requires Possible(p) && id in p.a.c.streams && TryRead(p.a.c, id, n).1.ReadEof?
    ensures id in p.b.c.streams && p.b.c.streams[id].send.finSent
    ensures p.a.c.streams[id].recv.readOffset <= |p.a.c.streams[id].recv.recvLog|
    ensures ReadSoFar(p.a.c, id) == p.b.c.streams[id].send.sentLog
  {
    hide Possible, Speaks, Inv, CloseOk, LoopOk;
    PossibleInv(p);
    StreamOf(p.a.c, id);
    ReceivedIs(p.a, p.b, p.toA, id);
    if id !in p.b.c.streams {
      SenderHasIt(p, id);
      assert false;
    }
    EndSaid(p.b, p.toA, id);
    SentIs(p.b, id);
    ReliableStream(p, id);
  }

  /** Once a prefix says a stream ended, it has all the stream's data. */
  lemma {:induction false} EndSaid(x: Node, m: nat, id: StreamId)
    requires NodeInv(x) && m <= |x.log| && id in x.c.streams
    requires StreamFold(x.log[..m], id, InitialGrant(x.c.isServer, x.c.config.streamWindow, id)).fin
    ensures x.c.streams[id].send.finSent
    ensures StreamFold(x.log[..m], id,
        InitialGrant(x.c.isServer, x.c.config.streamWindow, id)).data == x.c.streams[id].send.sentLog
  {
    OutSaid(x, id);
    hide NodeInv;
    var g := InitialGrant(x.c.isServer, x.c.config.streamWindow, id);
    StreamPrefix(x.log, m, id, g);
    hide StreamFold;
  }

  /** Taking k bytes moves the reader on by k, whether or not the stream then completes. */
  lemma {:induction false} TakeReads(c: ConnState, id: StreamId, k: nat)
    requires id in c.streams && k <= |c.streams[id].recv.unread|
    ensures id in Take(c, id, k).streams
    ensures Take(c, id, k).streams[id].recv.recvLog == c.streams[id].recv.recvLog
    ensures Take(c, id, k).streams[id].recv.readOffset == c.streams[id].recv.readOffset + k
  {
    hide Consuming, Complete;
    var s := c.streams[id];
    var (r, extended) := Reading(s.recv, k, c.config.streamWindow);
    var c1 := Consume(SetStream(c, id, s.(recv := r)), k);
    var c2 := if extended then Queue(c1, MaxStreamData(id, r.recvMax)) else c1;
    CompleteReads(c2, id);
  }

  lemma {:induction false} CompleteReads(c: ConnState, id: StreamId)
    requires id in c.streams
    ensures id in Complete(c, id).streams
    ensures Complete(c, id).streams[id].recv == c.streams[id].recv.(unread := Complete(c, id).streams[id].recv.unread)
  {
  }

  /** What Read returns is what comes next in the stream. */
  lemma {:induction false} ReadIsNext(c: ConnState, id: StreamId, n: nat)
    requires Reachable(c) && id in c.streams && TryRead(c, id, n).1.ReadData?
    ensures c.streams[id].recv.readOffset <= |c.streams[id].recv.recvLog| && id in TryRead(c, id, n).0.streams
    ensures var c' := TryRead(c, id, n).0;
      && c'.streams[id].recv.readOffset <= |c'.streams[id].recv.recvLog|
      && ReadSoFar(c', id) == ReadSoFar(c, id) + TryRead(c, id, n).1.data
      && (n > 0 ==> TryRead(c, id, n).1.data != [])
  {
    hide Reachable, Inv, Take;
    ReachableInv(c);
    StreamOf(c, id);
    var r := c.streams[id].recv;
    var k := Min(n, |r.unread|);
    TakeReads(c, id, k);
    assert r.recvLog[..r.readOffset + k] == r.recvLog[..r.readOffset] + r.unread[..k];
  }

  // ------------------------------------------------------------ credit, limits

  /** Nothing is queued, due or on its way, in either direction. */
  ghost predicate Quiet(p: Pair) {
    && p.toA == |p.b.log| && p.toB == |p.a.log| && p.a.pend == [] && p.b.pend == []
    && !ControlWork(p.a.c) && !ControlWork(p.b.c)
    && !p.a.c.life.closed && !p.b.c.life.closed
  }

  /** The hearer knows the limits in force once nothing is queued, due or on its way. */
  lemma {:induction false} LimitsKnown(y: Node, x: Node)
    requires NodeInv(x) && OneWay(y, x, |x.log|) && !y.c.life.closed && x.pend == [] && !ControlWork(x.c)
    ensures y.c.flow.sendMax == x.c.flow.recvMax
    ensures y.c.outgoing.bidi.max == x.c.incoming.bidi.max && y.c.outgoing.uni.max == x.c.incoming.uni.max
    ensures y.c.flow.received == x.c.flow.sent
  {
    hide Inv, CloseOk, LoopOk, StreamsSaid, QueueSaid, AllSayable, StreamsHeard, KnowsWindow, Respects, ConnFold;
    assert Out(x) == x.log && x.log[..|x.log|] == x.log;
  }

  lemma {:induction false} StreamLimitKnown(y: Node, x: Node, id: StreamId)
    requires NodeInv(x) && OneWay(y, x, |x.log|) && !y.c.life.closed && x.pend == [] && !ControlWork(x.c)
    requires id in y.c.streams && !y.c.streams[id].done
    ensures y.c.streams[id].send.sendMax == RecvLimit(x.c, id)
    ensures y.c.streams[id].recv.recvLog == if id in x.c.streams then x.c.streams[id].send.sentLog else []
  {
    hide NodeInv, Hears, Respects, StreamFold;
    OutSaid(x, id);
    ReceivedIs(y, x, |x.log|, id);
    assert Out(x) + x.c.control.frames == x.log && x.log[..|x.log|] == x.log;
  }

  /**
   No credit stall. When nothing is queued, due or on its way and b has read all
   there is, a has at least half of b's connection window to send, and knows it;
   so for windows of at least two it can send.
   */
  lemma {:induction false} NoCreditStall(p: Pair)
    requires Possible(p) && Quiet(p) && UnreadTotal(p.b.c.streams) == 0
    ensures p.a.c.flow.sendMax - p.a.c.flow.sent >= p.b.c.config.connWindow / 2
    ensures p.b.c.config.connWindow >= 2 ==> p.a.c.flow.sendMax > p.a.c.flow.sent
  {
    hide Possible, Speaks, Inv, CloseOk, LoopOk, ControlWork;
    PossibleInv(p);
    hide OneWay;
    LimitsKnown(p.a, p.b);
    LimitsKnown(p.b, p.a);
    FlowOf(p.b.c);
  }

  /** All that a sent on a stream has arrived. */
  lemma {:induction false} AllArrived(p: Pair, id: StreamId)
    requires PairInv(p) && Quiet(p) && id in p.a.c.streams
    ensures p.a.c.streams[id].send.sentLog == if id in p.b.c.streams then p.b.c.streams[id].recv.recvLog else []
  {
    hide NodeInv, ControlWork, Hears, Respects, DataOf;
    SentIs(p.a, id);
    assert Out(p.a) == p.a.log && p.a.log[..p.toB] == p.a.log;
    if id in p.b.c.streams {
      ReceivedIs(p.b, p.a, p.toB, id);
    } else {
      NothingHeard(p.b, p.a, p.toB, id);
    }
  }

  lemma {:induction false} NothingHeard(y: Node, x: Node, m: nat, id: StreamId)
    requires OneWay(y, x, m) && !y.c.life.closed && id !in y.c.streams
    ensures DataOf(x.log[..m], id) == []
    ensures StreamFold(x.log[..m], id, InitialGrant(x.c.isServer, x.c.config.streamWindow, id)).grant
            == InitialGrant(x.c.isServer, x.c.config.streamWindow, id)
  {
    hide Respects, ConnHeard;
    var g := PeerGrant(y.c.isServer, x.c.config.streamWindow, id);
    assert HeardOf(y.c.streams, id, StreamFold(x.log[..m], id, g), g);
    hide StreamsHeard, StreamFold;
    FoldData(x.log[..m], id, g);
  }

  /** The same for a stream that b still reads, or has not seen: half the stream window. */
  lemma {:induction false} NoStreamStall(p: Pair, id: StreamId)
    requires Possible(p) && Quiet(p) && id in p.a.c.streams && CanSend(p.a.c.isServer, id)
        && !SendDone(p.a.c.streams[id].send)
    requires id in p.b.c.streams ==> p.b.c.streams[id].recv.recvErr.None? && p.b.c.streams[id].recv.unread == []
    ensures p.a.c.streams[id].send.sendMax - p.a.c.streams[id].send.sendOffset >= p.b.c.config.streamWindow / 2
  {
    hide Possible, Speaks, Inv, CloseOk, LoopOk, ControlWork, OneWay;
    PossibleInv(p);
    StreamOf(p.a.c, id);
    AllArrived(p, id);
    KnownLimit(p, id);
    if id in p.b.c.streams {
      NotFinished(p, id);
      StreamOf(p.b.c, id);
    }
  }

  lemma {:induction false} KnownLimit(p: Pair, id: StreamId)
    requires PairInv(p) && Quiet(p) && id in p.a.c.streams && !SendDone(p.a.c.streams[id].send)
    ensures p.a.c.streams[id].send.sendMax == RecvLimit(p.b.c, id) && p.a.c.isServer == !p.b.c.isServer
  {
    hide Speaks, Inv, CloseOk, LoopOk, ControlWork;
    StreamOf(p.a.c, id);
    StreamLimitKnown(p.a, p.b, id);
  }

  /** Together: an application that keeps reading never leaves its peer without credit. */
  lemma {:induction false} AlwaysCredit(p: Pair, id: StreamId)
    requires Possible(p) && Quiet(p) && id in p.a.c.streams && CanSend(p.a.c.isServer, id)
        && !SendDone(p.a.c.streams[id].send)
    requires id in p.b.c.streams ==> p.b.c.streams[id].recv.recvErr.None? && p.b.c.streams[id].recv.unread == []
    requires UnreadTotal(p.b.c.streams) == 0 && p.b.c.config.connWindow >= 2 && p.b.c.config.streamWindow >= 2
    ensures TrySend(p.a.c, id).1.SendReady?
  {
    hide Possible;
    NoStreamStall(p, id);
    NoCreditStall(p);
  }

  lemma {:induction false} NotFinished(p: Pair, id: StreamId)
    requires PairInv(p) && Quiet(p) && id in p.a.c.streams && id in p.b.c.streams
    requires !SendDone(p.a.c.streams[id].send)
    ensures !p.b.c.streams[id].recv.finRecv && !p.b.c.streams[id].recv.recvReset
  {
    hide Speaks, Inv, CloseOk, LoopOk, ControlWork;
    OutSaid(p.a, id);
    ReceivedIs(p.b, p.a, p.toB, id);
    hide OneWay, StreamFold;
    StreamPrefix(p.a.log, p.toB, id, InitialGrant(p.a.c.isServer, p.a.c.config.streamWindow, id));
  }

  // ----------------------------------------------- a bounded queue of control frames

  /** How far a's data on a stream can have got is within what b granted in frames that a has handled. */
  lemma {:induction false} WithinHandled(p: Pair, id: StreamId)
    requires PairInv(p) && !p.a.c.life.closed && !p.b.c.life.closed && id in p.b.c.streams
    ensures p.b.c.streams[id].recv.recvOffset
            <= StreamFold(p.b.log[..p.toA], id, InitialGrant(p.b.c.isServer, p.b.c.config.streamWindow, id)).grant
  {
    ReceivedIs(p.b, p.a, p.toB, id);
    OutSaid(p.a, id);
    hide Speaks, Inv, CloseOk, LoopOk;
    var ga := InitialGrant(p.a.c.isServer, p.a.c.config.streamWindow, id);
    StreamPrefix(p.a.log, p.toB, id, ga);
    if id in p.a.c.streams {
      ReceivedIs(p.a, p.b, p.toA, id);
      hide OneWay, StreamFold;
      StreamOf(p.a.c, id);
    } else {
      hide OneWay, StreamFold;
    }
  }

  /**
   At most one MAX_STREAM_DATA per stream is queued or on its way: a second would
   need more to have been read than the first limit lets the peer send.
   */
  lemma {:induction false} OneRaiseOutstanding(p: Pair, id: StreamId)
    requires Possible(p) && !p.a.c.life.closed && !p.b.c.life.closed
    ensures p.toA <= |p.b.log|
    ensures var g := InitialGrant(p.b.c.isServer, p.b.c.config.streamWindow, id);
      StreamFold(Out(p.b) + p.b.c.control.frames, id, g).raises <= StreamFold(p.b.log[..p.toA], id, g).raises + 1
  {
    hide Possible, Speaks, Inv, CloseOk, LoopOk;
    PossibleInv(p);
    var g := InitialGrant(p.b.c.isServer, p.b.c.config.streamWindow, id);
    var all := Out(p.b) + p.b.c.control.frames;
    OutSaid(p.b, id);
    StreamPrefix(all, p.toA, id, g);
    assert all[..p.toA] == p.b.log[..p.toA];
    if id in p.b.c.streams {
      WithinHandled(p, id);
      FoldWindow(all, id, g);
      hide OneWay, StreamFold;
      StreamOf(p.b.c, id);
    }
  }

  /** Frames of one kind about one stream that a queue should not hold twice. */
  predicate Twins(f: Frame, g: Frame) {
    || (f.MaxStreamData? && g.MaxStreamData? && f.id == g.id)
    || (f.ResetStream? && g.ResetStream? && f.id == g.id)
    || (f.StopSending? && g.StopSending? && f.id == g.id)
  }

  lemma {:induction false} TwinsCount(all: Said, m: nat, i: nat, j: nat, id: StreamId, g: nat)
    requires m <= i < j < |all| && Twins(all[i], all[j]) && all[i].id == id
    ensures all[i].MaxStreamData? ==> StreamFold(all, id, g).raises >= StreamFold(all[..m], id, g).raises + 2
    ensures all[i].StopSending? ==> StreamFold(all, id, g).stops >= 2
  {
    StreamPrefix(all[..i], m, id, g);
    assert all[..i][..m] == all[..m];
    assert all[..i + 1] == all[..i] + [all[i]];
    StreamAppend(all[..i], all[i], id, g);
    StreamPrefix(all[..j], i + 1, id, g);
    assert all[..j][..i + 1] == all[..i + 1];
    assert all[..j + 1] == all[..j] + [all[j]];
    StreamAppend(all[..j], all[j], id, g);
    StreamPrefix(all, j + 1, id, g);
    hide StreamFold;
  }

  /** Of the frames queued or on their way from b, no two of a kind are about the same stream: the queue is bounded. */
  lemma {:induction false} NoTwins(p: Pair, i: nat, j: nat)
    requires Possible(p) && !p.a.c.life.closed && !p.b.c.life.closed
    requires p.toA <= i < j < |Out(p.b) + p.b.c.control.frames|
    ensures !Twins((Out(p.b) + p.b.c.control.frames)[i], (Out(p.b) + p.b.c.control.frames)[j])
  {
    hide Possible, Speaks, Inv, CloseOk, LoopOk;
    PossibleInv(p);
    var all := Out(p.b) + p.b.c.control.frames;
    if Twins(all[i], all[j]) {
      var id := all[i].id;
      var g := InitialGrant(p.b.c.isServer, p.b.c.config.streamWindow, id);
      TwinsCount(all, p.toA, i, j, id, g);
      assert all[..p.toA] == p.b.log[..p.toA];
      OneRaiseOutstanding(p, id);
      OutSaid(p.b, id);
      WireOrder(all, i, j, id, g);
      hide OneWay, StreamFold;
      assert false;
    }
  }

  // ---------------------------------------------------------- the queue's length

  datatype Kind = Raise | Reset | Stop

  /** What a frame of the queue is about, and of which kind it is. */
  function Subject(f: Frame): (Kind, StreamId)
    requires Queued(f)
  {
    match f
    case MaxStreamData(id, _) => (Raise, id)
    case ResetStream(id, _, _) => (Reset, id)
    case StopSending(id, _) => (Stop, id)
  }

  /** Different members of a set, in a row, are no more than the set has. */
  lemma {:induction false} DistinctCount<T>(xs: seq<T>, all: set<T>)
    requires (forall i | 0 <= i < |xs| :: xs[i] in all) && forall i, j | 0 <= i < j < |xs| :: xs[i] != xs[j]
    ensures |xs| <= |all|
  {
    if xs != [] {
      var n := |xs| - 1;
      DistinctCount(xs[..n], all - {xs[n]});
    }
  }

  ghost function Every(ids: set<StreamId>): set<(Kind, StreamId)> {
    set id, k: Kind | id in ids && k in {Raise, Reset, Stop} :: (k, id)
  }

  lemma {:induction false} EveryCount(ids: set<StreamId>)
    ensures |Every(ids)| == 3 * |ids|
    decreases |ids|
  {
    if ids == {} {
      assert Every(ids) == {};
    } else {
      var id :| id in ids;
      EveryCount(ids - {id});
      assert Every(ids) == Every(ids - {id}) + {(Raise, id), (Reset, id), (Stop, id)};
    }
  }

  lemma {:induction false} QueueAbout(x: Node, f: Frame)
    requires NodeInv(x) && f in x.c.control.frames
    ensures Queued(f) && Subject(f) in Every(x.c.streams.Keys)
  {
    hide Inv, CloseOk, LoopOk, StreamsSaid, ConnSaid;
    assert f in Out(x) + x.c.control.frames;
    assert Sayable(x.c, f);
  }

  /** Between honest endpoints the control queue is bounded by the streams: three frames for each at most. */
  lemma {:induction false} QueueBounded(p: Pair)
    requires Possible(p) && !p.a.c.life.closed && !p.b.c.life.closed
    ensures |p.b.c.control.frames| <= 3 * |p.b.c.streams|
  {
    hide Possible, NodeInv, OneWay, Twins, Every;
    PossibleInv(p);
    HandledWritten(p);
    var frames, every, n := p.b.c.control.frames, Every(p.b.c.streams.Keys), |Out(p.b)|;
    var all := Out(p.b) + frames;
    forall i | 0 <= i < |frames| ensures Queued(frames[i]) && Subject(frames[i]) in every {
      QueueAbout(p.b, frames[i]);
    }
    var subjects := seq(|frames|, i requires 0 <= i < |frames| => Subject(frames[i]));
    forall i, j | 0 <= i < j < |frames| ensures subjects[i] != subjects[j] {
      NoTwins(p, n + i, n + j);
      assert all[n + i] == frames[i] && all[n + j] == frames[j];
      NotTwins(frames[i], frames[j]);
    }
    DistinctCount(subjects, every);
    EveryCount(p.b.c.streams.Keys);
  }

  lemma {:induction false} NotTwins(f: Frame, g: Frame)
    requires Queued(f) && Queued(g) && !Twins(f, g)
    ensures Subject(f) != Subject(g)
  {
  }

  lemma {:induction false} HandledWritten(p: Pair)
    requires PairInv(p)
    ensures p.toA <= |Out(p.b)|
  {
    hide NodeInv, Respects, Hears;
  }
}
