/**
 What Peek can come to. It waits for all its bytes and leaves them in place, so only
 what the limits in force admit can ever be there for it; those limits do not move
 until something is read.
 */
module Peeking {
  import opened Basics
  import opened StreamIds
  import opened Frames
  import opened Endpoints
  import opened EndpointInvariants
  import opened Runs
  import opened Hearing
  import opened Limits

  /** After the run, in which the stream is not read, a Peek of n bytes is given them. */
  ghost predicate PeekFills(c: ConnState, xs: seq<Section>, c': ConnState, id: StreamId, n: nat) {
    Leads(c, xs, c') && NotReading(xs, id) && id in c'.streams && TryPeek(c', id, n).1.ReadData?
  }

  /**
   Whatever the peer sends and the application does short of reading the stream, Peek gets no
   more than the limits.
   */
  lemma {:induction false} PeekBounded(c: ConnState, xs: seq<Section>, c': ConnState, id: StreamId, n: nat)
    requires Reachable(c) && id in c.streams && PeekFills(c, xs, c', id, n)
    ensures n <= c.streams[id].recv.recvMax - c.streams[id].recv.readOffset
    ensures n <= c.config.connWindow
  {
    hide Reachable, Inv, Leads;
    ReachableInv(c);
    RunKeeps(c, xs, c');
    RunPlace(c, xs, c', id);
    StreamOf(c', id);
    FlowOf(c');
  }

  // ------------------------------------------------------ how the peer can fill it

  lemma {:induction false} LiveData(c: ConnState, id: StreamId, data: seq<byte>)
    requires id in c.streams && !c.streams[id].recv.finRecv && !c.streams[id].recv.recvReset
        && !c.streams[id].recv.readCancelled
    requires c.streams[id].recv.canRecv
    ensures var c' := TakeStream(c, id, data, false);
      id in c'.streams && c'.streams[id].recv == Accepting(c.streams[id].recv, data, false) && c'.life == c.life
  {
  }

  /** A stream with unread data can be reset by the peer: it has not ended for the reader. */
  lemma {:induction false} UnreadIsLive(c: ConnState, id: StreamId)
    requires Inv(c) && id in c.streams && c.streams[id].recv.unread != []
    ensures !c.streams[id].done && CanRecv(c.isServer, id) && !c.streams[id].recv.recvReset
    ensures ResetFault(c, c.streams[id].recv, c.streams[id].recv.recvOffset).None?
  {
    hide Inv;
    StreamOf(c, id);
    FlowOf(c);
  }

  lemma {:induction false} ResetShape(c: ConnState, i: StreamId, id: StreamId)
    requires i in c.streams && id in c.streams && i != id && !c.streams[i].recv.recvReset
    ensures var c' := TakeReset(c, i, 0, c.streams[i].recv.recvOffset);
      && i in c'.streams && c'.streams == c.streams[i := c'.streams[i]] && c'.streams[i].recv.unread == []
      && c'.life == c.life && c'.config == c.config && c'.isServer == c.isServer
  {
    hide Complete, Consuming, Resetting;
    var s := c.streams[i];
    assert Resetting(s.recv, 0, s.recv.recvOffset).unread == [] by { ResettingDrops(s.recv); }
    var c1 := SetStream(c, i,
        s.(recv := Resetting(s.recv, 0, s.recv.recvOffset))).(flow := c.flow.(received := c.flow.received + 0));
    CompleteShapeOf(Consume(c1, 0 + |s.recv.unread|), i);
  }

  lemma {:induction false} ResettingDrops(r: RecvHalf)
    ensures Resetting(r, 0, r.recvOffset).unread == []
  {
  }

  lemma {:induction false} CompleteShapeOf(c: ConnState, i: StreamId)
    requires i in c.streams
    ensures var c' := Complete(c, i);
      && i in c'.streams && c'.streams == c.streams[i := c'.streams[i]]
      && (c.streams[i].recv.unread == [] ==> c'.streams[i].recv.unread == [])
      && c'.life == c.life && c'.config == c.config && c'.isServer == c.isServer
  {
    hide Completes;
  }

  /** Resetting a sibling frees what it held, and leaves the stream alone. */
  lemma {:induction false} ResetOne(c: ConnState, i: StreamId, id: StreamId)
    requires Inv(c) && !c.life.closed && id in c.streams && i in c.streams && i != id && c.streams[i].recv.unread != []
    ensures var c' := HandleFrame(c, ResetStream(i, 0, c.streams[i].recv.recvOffset)).0;
      && Inv(c') && !c'.life.closed && c'.config == c.config && c'.isServer == c.isServer
      && id in c'.streams && c'.streams[id] == c.streams[id]
      && UnreadTotal(c'.streams) < UnreadTotal(c.streams)
  {
    hide Inv, TakeReset, ResetFault;
    var f := ResetStream(i, 0, c.streams[i].recv.recvOffset);
    UnreadIsLive(c, i);
    FoundLive(c, i, true);
    HandleFrameInv(c, f);
    ResetShape(c, i, id);
    assert HandleFrame(c, f).0 == TakeReset(c, i, 0, c.streams[i].recv.recvOffset);
    UnreadUpdate(c.streams, i, HandleFrame(c, f).0.streams[i]);
  }

  predicate AllFrames(xs: seq<Section>) {
    forall x | x in xs :: x.Handle?
  }

  /** The peer resets every other stream that holds unread data. */
  lemma {:induction false} ResetSiblings(c: ConnState, id: StreamId) returns (xs: seq<Section>, c': ConnState)
    requires Inv(c) && !c.life.closed && id in c.streams
    ensures Leads(c, xs, c') && AllFrames(xs)
    ensures Inv(c') && !c'.life.closed && c'.config == c.config && c'.isServer == c.isServer
    ensures id in c'.streams && c'.streams[id] == c.streams[id]
    ensures forall i | i in c'.streams && i != id :: c'.streams[i].recv.unread == []
    decreases UnreadTotal(c.streams)
  {
    hide Inv, HandleFrame, Leads;
    if i :| i in c.streams && i != id && c.streams[i].recv.unread != [] {
      var x := Handle(ResetStream(i, 0, c.streams[i].recv.recvOffset));
      ResetOne(c, i, id);
      var rest;
      rest, c' := ResetSiblings(Apply(c, x), id);
      xs := [x] + rest;
      LeadsCons(c, x, rest, c');
    } else {
      xs, c' := [], c;
      LeadsNowhere(c);
    }
  }

  lemma {:induction false} NoneUnread(m: Streams)
    requires forall i | i in m :: m[i].recv.unread == []
    ensures UnreadTotal(m) == 0
    decreases |m|
  {
    if i :| i in m {
      UnreadRemove(m, i);
      assert (m - {i}).Keys == m.Keys - {i};
      NoneUnread(m - {i});
    }
  }

  /** Data of the peer for the stream, with all siblings empty: half a connection window is there for it. */
  lemma {:induction false} SendOne(c: ConnState, id: StreamId, data: seq<byte>)
    requires Inv(c) && !c.life.closed && id in c.streams && CanRecv(c.isServer, id)
    requires !c.streams[id].recv.finRecv && c.streams[id].recv.recvErr.None?
    requires forall i | i in c.streams && i != id :: c.streams[i].recv.unread == []
    requires var r := c.streams[id].recv;
      |r.unread| + |data| <= r.recvMax - r.readOffset && |r.unread| + |data| <= c.config.connWindow / 2
    ensures var c' := HandleFrame(c, StreamData(id, c.streams[id].recv.recvOffset, data, false)).0;
      && id in c'.streams && c'.streams[id].recv == Accepting(c.streams[id].recv, data, false) && !c'.life.closed
  {
    hide Inv, TakeStream, Accepting;
    StreamOf(c, id);
    FlowOf(c);
    UnreadRemove(c.streams, id);
    NoneUnread(c.streams - {id});
    FoundLive(c, id, true);
    LiveData(c, id, data);
    var f := StreamData(id, c.streams[id].recv.recvOffset, data, false);
    assert StreamFault(c, c.streams[id].recv, f.offset, |data|, false).None?;
    hide Resolve, StreamFault;
    assert HandleFrame(c, f).0 == TakeStream(c, id, data, false);
  }

  /**
   The peer can fill a Peek that the stream's limit admits, up to half a connection
   window, by frames alone: it resets the other streams, then sends the data.
   */
  lemma {:induction false} PeekFilledByFrames(c: ConnState, id: StreamId, n: nat) returns (xs: seq<Section>,
      c': ConnState)
    requires Reachable(c) && !c.life.closed && id in c.streams && CanRecv(c.isServer, id)
    requires !c.streams[id].recv.finRecv && c.streams[id].recv.recvErr.None?
    requires n <= c.streams[id].recv.recvMax - c.streams[id].recv.readOffset && n <= c.config.connWindow / 2
    ensures AllFrames(xs) && PeekFills(c, xs, c', id, n)
  {
    hide Reachable, Inv, Leads, HandleFrame;
    ReachableInv(c);
    StreamOf(c, id);
    var r := c.streams[id].recv;
    if n <= |r.unread| {
      xs, c' := [], c;
      LeadsNowhere(c);
    } else {
      var resets, c1 := ResetSiblings(c, id);
      var data: seq<byte> := seq(n - |r.unread|, _ => 0);
      var x := Handle(StreamData(id, r.recvOffset, data, false));
      SendOne(c1, id, data);
      c' := Apply(c1, x);
      xs := resets + [x];
      LeadsMore(c, resets, c1, x);
      assert |c'.streams[id].recv.unread| == n;
    }
  }

  /** One section more at the end of a run. */
  lemma {:induction false} LeadsMore(c: ConnState, xs: seq<Section>, c1: ConnState, x: Section)
    requires Leads(c, xs, c1) && Enabled(c1, x)
    ensures Leads(c, xs + [x], Apply(c1, x))
    decreases xs
  {
    hide Enabled, Apply;
    if xs == [] {
      assert xs + [x] == [x] && [x][1..] == [];
    } else {
      assert (xs + [x])[1..] == xs[1..] + [x];
      LeadsMore(Apply(c, xs[0]), xs[1..], c1, x);
    }
  }

  /**
   A Peek of up to half a connection window on a live stream can still be given its
   bytes, by some run that does not read the stream, exactly if it is within the
   stream's limit as it stands.
   */
  lemma {:induction false} PeekExact(c: ConnState, id: StreamId, n: nat)
    requires Reachable(c) && !c.life.closed && id in c.streams && CanRecv(c.isServer, id)
    requires !c.streams[id].recv.finRecv && c.streams[id].recv.recvErr.None? && n <= c.config.connWindow / 2
    ensures (exists xs, c' :: PeekFills(c, xs, c', id, n))
            <==> n <= c.streams[id].recv.recvMax - c.streams[id].recv.readOffset
  {
    hide Reachable, PeekFills;
    forall xs, c' | PeekFills(c, xs, c', id, n)
        ensures n <= c.streams[id].recv.recvMax - c.streams[id].recv.readOffset {
      PeekBounded(c, xs, c', id, n);
    }
    if n <= c.streams[id].recv.recvMax - c.streams[id].recv.readOffset {
      var xs, c' := PeekFilledByFrames(c, id, n);
    }
  }

  /** Half a stream window can always still be peeked, as far as the connection window has room for it. */
  lemma {:induction false} HalfWindowPeeks(c: ConnState, id: StreamId)
    requires Reachable(c) && !c.life.closed && id in c.streams && CanRecv(c.isServer, id)
    requires !c.streams[id].recv.finRecv && c.streams[id].recv.recvErr.None?
        && c.config.streamWindow <= c.config.connWindow
    ensures exists xs, c' :: PeekFills(c, xs, c', id, c.config.streamWindow / 2)
  {
    hide Reachable, PeekFills;
    GrantAhead(c, id);
    PeekExact(c, id, c.config.streamWindow / 2);
  }

  /**
   A whole window can still be peeked only if nothing was read since the limit last
   grew; and exactly then, if the connection window has room for two of them.
   */
  lemma {:induction false} PeekWholeWindow(c: ConnState, id: StreamId)
    requires Reachable(c) && !c.life.closed && id in c.streams && CanRecv(c.isServer, id)
    requires !c.streams[id].recv.finRecv && c.streams[id].recv.recvErr.None?
    ensures var r, window := c.streams[id].recv, c.config.streamWindow;
      && ((exists xs, c' :: PeekFills(c, xs, c', id, window)) ==> r.recvMax == r.readOffset + window)
      && (2 * window <= c.config.connWindow ==>
            ((exists xs, c' :: PeekFills(c, xs, c', id, window)) <==> r.recvMax == r.readOffset + window))
  {
    hide Reachable, PeekFills;
    var window := c.config.streamWindow;
    StreamConservation(c, id);
    forall xs, c' | PeekFills(c, xs, c', id, window)
        ensures window <= c.streams[id].recv.recvMax - c.streams[id].recv.readOffset {
      PeekBounded(c, xs, c', id, window);
    }
    if 2 * window <= c.config.connWindow {
      PeekExact(c, id, window);
    }
  }

  // --------------------------------------------------------------- where it stalls

  /** One byte arrives on a new stream of the client. */
  lemma {:induction false} OneByteArrives(c: ConnState, c': ConnState, id: StreamId)
    requires c == HandleParameters(Init(c.config, true), NO_PARAMETERS) && id == StreamId(0, Uni, false)
    requires c.config.maxStreams.uni >= 1 && c.config.streamWindow >= 2 && c.config.connWindow >= 1
    requires c' == HandleFrame(c, StreamData(id, 0, [0], false)).0
    ensures id in c'.streams && c'.config == c.config && c'.isServer && !c'.life.closed
    ensures var r := c'.streams[id].recv;
      && r.recvMax == c.config.streamWindow && r.readOffset == 0 && r.unread == [0] && !r.finRecv && r.recvErr.None?
      && r.canRecv && !r.recvReset
    ensures c'.incoming.uni.queue == [id]
  {
    var c1 := Create(c, Uni);
    assert c.incoming.uni.next == 0 && c1.incoming.uni.next == 1;
    assert CreateUpTo(c1, Uni, 0) == c1;
    assert Resolve(c, id, true) == (c1, Found);
    LiveData(c1, id, [0]);
  }

  /**
   Peek accepts up to a whole window, but may wait for good: in every configuration
   that lets the peer open a stream and has a stream window of at least two, a run
   leads to a Peek of a whole window that no run fills without reading the stream.
   */
  lemma {:induction false} WholeWindowPeekStalls(config: Config)
    requires config.maxStreams.uni >= 1 && config.streamWindow >= 2 && config.connWindow >= 1
    ensures exists c: ConnState, id: StreamId ::
      && Reachable(c) && c.config == config && id in c.streams && TryPeek(c, id, config.streamWindow).1.ReadBlocked?
      && forall xs, c' :: !PeekFills(c, xs, c', id, config.streamWindow)
  {
    hide Reachable, PeekFills;
    var c, id := ByteRead(config);
    PeekWholeWindow(c, id);
  }

  /** A run in which a byte arrives on a new stream, which is accepted and read. */
  lemma {:induction false} ByteRead(config: Config) returns (c: ConnState, id: StreamId)
    requires config.maxStreams.uni >= 1 && config.streamWindow >= 2 && config.connWindow >= 1
    ensures Reachable(c) && c.config == config && !c.life.closed && id in c.streams && CanRecv(c.isServer, id)
    ensures var r := c.streams[id].recv;
      r.recvMax == config.streamWindow && r.readOffset == 1 && r.unread == [] && !r.finRecv && r.recvErr.None?
  {
    id := StreamId(0, Uni, false);
    var c0 := Init(config, true);
    var c1 := HandleFrame(c0, TransportParameters(NO_PARAMETERS)).0;
    assert c1 == HandleParameters(c0, NO_PARAMETERS) && !c1.life.closed && c1.config == config && !c0.life.closed;
    hide HandleFrame, TryRead, TryAccept, Leads, HandleParameters, Init;
    var c2 := HandleFrame(c1, StreamData(id, 0, [0], false)).0;
    OneByteArrives(c1, c2, id);
    var c3 := TryAccept(c2, Uni).0;
    AcceptOne(c2, id);
    c := TryRead(c3, id, 1).0;
    ReadOne(c3, id);
    FourSteps(config, c1, c2, c3, c, id);
  }

  lemma {:induction false} FourSteps(config: Config, c1: ConnState, c2: ConnState, c3: ConnState, c: ConnState,
      id: StreamId)
    requires c1 == HandleFrame(Init(config, true), TransportParameters(NO_PARAMETERS)).0 && !c1.life.closed
    requires c2 == HandleFrame(c1, StreamData(id, 0, [0], false)).0
    requires Enabled(c2, Accept(Uni)) && c3 == TryAccept(c2, Uni).0
    requires Enabled(c3, Read(id, 1)) && c == TryRead(c3, id, 1).0
    ensures Reachable(c)
  {
    hide HandleFrame, TryRead, TryAccept, Leads;
    var c0 := Init(config, true);
    var calls := [Accept(Uni)] + ([Read(id, 1)] + []);
    assert Leads(c, [], c) by { LeadsNowhere(c); }
    LeadsCons(c3, Read(id, 1), [], c);
    LeadsCons(c2, Accept(Uni), [Read(id, 1)] + [], c);
    LeadsCons(c1, Handle(StreamData(id, 0, [0], false)), calls, c);
    LeadsCons(c0, Handle(TransportParameters(NO_PARAMETERS)), [Handle(StreamData(id, 0, [0], false))] + calls, c);
  }

  lemma {:induction false} AcceptOne(c: ConnState, id: StreamId)
    requires !c.life.closed && id in c.streams && c.incoming.uni.queue == [id]
    requires var r := c.streams[id].recv; r.canRecv && !r.recvReset && !r.finRecv
    ensures var c' := TryAccept(c, Uni).0;
      && id in c'.streams && !c'.life.closed && c'.config == c.config && c'.isServer == c.isServer
      && c'.streams[id].recv == c.streams[id].recv
  {
  }

  /** Reading the one byte does not extend the limit. */
  lemma {:induction false} ReadOne(c: ConnState, id: StreamId)
    requires id in c.streams && !c.life.closed && c.config.streamWindow >= 2
    requires var r := c.streams[id].recv;
      && r.recvMax == c.config.streamWindow && r.readOffset == 0 && r.unread == [0] && !r.finRecv
      && r.recvErr.None? && r.canRecv && !r.recvReset
    ensures var c' := TryRead(c, id, 1).0;
      && id in c'.streams && !c'.life.closed && c'.config == c.config && c'.isServer == c.isServer
      && c'.streams[id].recv == c.streams[id].recv.(unread := [], readOffset := 1)
  {
    var r := c.streams[id].recv;
    assert Reading(r, 1, c.config.streamWindow) == (r.(unread := r.unread[1..], readOffset := 1), false);
    hide Consuming;
  }
}
