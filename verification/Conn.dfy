/**
 The connection and its streams as objects that change in place. Every critical
 section does to the fields what its function in Endpoint.dfy does to the value
 they stand for.
 */
module Conns {
  import opened Basics
  import opened StreamIds
  import opened Frames
  import opened Endpoints
  import opened EndpointInvariants
  import opened FrameCodec
  import opened Handling
  import opened ReadBuffers
  import FrameReader
  import Datagrams
  import Varints
  import Evolution
  import Speaking
  import PairTheorems
  import FrameAnswers
  import opened WriteLocks

  /** The receiving side of a stream, but for its buffer. */
  datatype Receiving = Receiving(
    recvOffset: nat,
    recvMax: nat,
    readOffset: nat,
    finRecv: bool,
    recvReset: bool,
    readCancelled: bool,
    recvErr: Option<StreamError>,
    readSignal: Signal)

  datatype Sending = Sending(sendOffset: nat, sendMax: nat, finSent: bool, sendErr: Option<StreamError>,
      writeSignal: Signal)

  function ToRecv(canRecv: bool, unread: seq<byte>, r: Receiving, recvLog: seq<byte>): RecvHalf {
    RecvHalf(canRecv, unread, r.recvOffset, r.recvMax, r.readOffset, r.finRecv, r.recvReset, r.readCancelled,
        r.recvErr, r.readSignal, recvLog)
  }

  function ToSend(canSend: bool, w: Sending, sentLog: seq<byte>): SendHalf {
    SendHalf(canSend, w.sendOffset, w.sendMax, w.finSent, w.sendErr, w.writeSignal, sentLog)
  }

  class Stream {
    const id: StreamId
    var accepted: bool
    var done: bool
    const canRecv: bool
    /** Received data; rbuf[roff..] is unread. rcap is the capacity behind it. */
    var rbuf: seq<byte>
    var roff: nat
    var rcap: nat
    var recv: Receiving
    const canSend: bool
    var urgency: int
    var incremental: bool
    var send: Sending

    /** The buffer is compacted when it has to be, and never takes more than two windows. */
    ghost predicate BufferOk(window: nat)
      reads this
    {
      && (roff == 0 || roff < |rbuf|)
      && |rbuf| <= rcap <= 2 * window
      && (!canRecv || recv.readCancelled || recv.recvReset || done ==> rbuf == [])
    }

    /** The object stands for s. All that was ever received and sent is not kept in the object. */
    ghost predicate Is(s: StreamState, window: nat)
      reads this
    {
      && BufferOk(window)
      && s == StreamState(accepted, done, ToRecv(canRecv, rbuf[roff..], recv, s.recv.recvLog),
          ToSend(canSend, send, s.send.sentLog))
    }

    constructor (id: StreamId, canRecv: bool, canSend: bool, recvMax: nat, sendMax: nat, accepted: bool)
      ensures this.id == id
      ensures forall window: nat ::
        Is(StreamState(accepted, false, RecvHalf(canRecv, [], 0, recvMax, 0, false, false, false, None, QUIET, []),
                       SendHalf(canSend, 0, sendMax, false, None, QUIET, [])), window)
    {
      this.id, this.accepted, done := id, accepted, false;
      this.canRecv, rbuf, roff, rcap := canRecv, [], 0, 0;
      recv := Receiving(0, recvMax, 0, false, false, false, None, QUIET);
      this.canSend := canSend;
      urgency, incremental := if canSend then DEFAULT_URGENCY else 0, canSend;
      send := Sending(0, sendMax, false, None, QUIET);
    }

    /** The urgency is clipped to what stream data may have, so that control frames stay ahead of it. */
    method SetPriority(urgency: int, incremental: bool)
      modifies this`urgency, this`incremental
      ensures StreamPriority(Priority(this.urgency, this.incremental, Raw(id))) && this.incremental == incremental
      ensures 0 <= urgency <= MAX_URGENCY ==> this.urgency == urgency
      ensures urgency < 0 ==> this.urgency == 0
      ensures urgency > MAX_URGENCY ==> this.urgency == MAX_URGENCY
    {
      this.urgency := Min(Max(urgency, 0), MAX_URGENCY);
      this.incremental := incremental;
    }

    predicate IsRecvDone()
      requires roff <= |rbuf|
      reads this
    {
      !canRecv || recv.recvReset || (recv.finRecv && (recv.readCancelled || roff == |rbuf|))
    }

    predicate IsSendDone()
      reads this
    {
      !canSend || send.finSent || send.sendErr.Some?
    }

    predicate IsDone()
      requires roff <= |rbuf|
      reads this
    {
      !done && accepted && IsRecvDone() && IsSendDone()
    }

    // ------------------------------------------------------------- the buffer

    /** The buffer's fields as one value. */
    ghost function Held(): Slice
      reads this
    {
      Slice(rbuf, roff, rcap)
    }

    /**
     Appends received data, as ReadBuffer does inside one array: the read part goes when
     the data would not fit, what is unread stays in order, and data within the window
     never takes more than two windows, whatever room growing gives.
     */
    method Buffer(p: seq<byte>, window: nat)
      requires BufferOk(window) && |rbuf| - roff + |p| <= window
      requires canRecv && !recv.readCancelled && !recv.recvReset && !done
      modifies this`rbuf, this`roff, this`rcap
      ensures BufferOk(window) && rbuf[roff..] == old(rbuf[roff..]) + p && Buffers(old(Held()), p, Held())
    {
      ghost var before := Held();
      if roff > 0 && |rbuf| + |p| > rcap {
        rbuf := rbuf[roff..];
        roff := 0;
      }
      assert Held() == Compacted(before, |p|);
      if |rbuf| + |p| > rcap {
        assert |rbuf| + |p| <= Max(|rbuf| + |p|, 2 * rcap);
        var room: nat :| |rbuf| + |p| <= room <= Max(|rbuf| + |p|, 2 * rcap);
        rcap := room;
      }
      rbuf := rbuf + p;
      BuffersQueue(before, p, Held());
      BuffersBound(before, p, Held(), window);
    }

    ghost predicate Unread(unread: seq<byte>)
      reads this
    {
      roff <= |rbuf| && rbuf[roff..] == unread
    }

    /** Takes up to n bytes out of the buffer. */
    method Unbuffer(n: nat, window: nat, ghost unread: seq<byte>) returns (data: seq<byte>)
      requires BufferOk(window) && Unread(unread)
      modifies this`rbuf, this`roff
      ensures BufferOk(window)
      ensures |data| == Min(n, |unread|) && data == unread[..|data|] && Unread(unread[|data|..])
    {
      var k := Min(n, |rbuf| - roff);
      data := rbuf[roff..][..k];
      assert rbuf[roff..][k..] == rbuf[roff + k..];
      roff := roff + k;
      if roff == |rbuf| {
        rbuf, roff := [], 0;
      }
    }

    method DropBuffer()
      modifies this`rbuf, this`roff, this`rcap
      ensures rbuf == [] && roff == 0 && rcap == 0
    {
      rbuf, roff, rcap := [], 0, 0;
    }

    // -------------------------------------------------------------- the fields

    /** Both directions have ended. The buffer goes; roff is zero already. */
    method Forget(ghost s: StreamState, ghost window: nat)
      requires Is(s, window) && Completes(s)
      modifies this
      ensures Is(s.(done := true, recv := s.recv.(unread := [])), window)
    {
      done := true;
      rbuf := [];
    }

    /** Data arrives, in order and within the limits. */
    method Receive(data: seq<byte>, fin: bool, window: nat, ghost s: StreamState)
      requires Is(s, window) && s.recv.canRecv && !s.recv.recvReset && !s.done
      requires !s.recv.readCancelled ==> |s.recv.unread| + |data| <= window
      modifies this`rbuf, this`roff, this`rcap, this`recv
      ensures Is(s.(recv := Accepting(s.recv, data, fin)), window)
    {
      if !recv.readCancelled {
        Buffer(data, window);
      }
      recv := recv.(recvOffset := recv.recvOffset + |data|, finRecv := fin, readSignal := recv.readSignal.Broadcast());
    }

    /** The peer reset the stream: what was not read is dropped. */
    method TakeReset(code: nat, finalSize: nat, ghost s: StreamState, ghost window: nat)
      requires Is(s, window)
      modifies this`rbuf, this`roff, this`rcap, this`recv
      ensures Is(s.(recv := Resetting(s.recv, code, finalSize)), window)
    {
      DropBuffer();
      recv := recv.(
        recvOffset := finalSize, recvReset := true,
        recvErr := if recv.recvErr.None? then Some(StreamError(code, true)) else recv.recvErr,
        readSignal := recv.readSignal.Broadcast());
    }

    method TakeOut(n: nat, ghost s: StreamState, window: nat) returns (data: seq<byte>)
      requires Is(s, window)
      modifies this`rbuf, this`roff
      ensures var k := Min(n, |s.recv.unread|);
        data == s.recv.unread[..k] && Is(s.(recv := s.recv.(unread := s.recv.unread[k..])), window)
    {
      assert Unread(s.recv.unread);
      data := Unbuffer(n, window, s.recv.unread);
    }

    /** Accounts for data that was read; extended says that the limit grew. The subtraction cannot underflow. */
    method Advance(n: nat, window: nat, ghost s: StreamState) returns (extended: bool)
      requires n <= |s.recv.unread| && Is(s.(recv := s.recv.(unread := s.recv.unread[n..])), window)
      requires s.recv.readOffset + n <= s.recv.recvMax
      modifies this`recv
      ensures extended == Reading(s.recv, n, window).1 && Is(s.(recv := Reading(s.recv, n, window).0), window)
    {
      recv := recv.(readOffset := recv.readOffset + n);
      var left: nat := recv.recvMax - recv.readOffset;
      extended := !recv.finRecv && left < window / 2;
      if extended {
        recv := recv.(recvMax := recv.readOffset + window);
      }
    }

    /** Takes data out for the reader. */
    method Take(n: nat, window: nat, ghost s: StreamState) returns (data: seq<byte>, extended: bool)
      requires Is(s, window) && s.recv.readOffset + |s.recv.unread| <= s.recv.recvMax
      modifies this`rbuf, this`roff, this`recv
      ensures var k := Min(n, |s.recv.unread|);
        && data == s.recv.unread[..k] && extended == Reading(s.recv, k, window).1
        && Is(s.(recv := Reading(s.recv, k, window).0), window)
    {
      hide Is, Reading;
      data := TakeOut(n, s, window);
      extended := Advance(|data|, window, s);
    }

    method WaitToRead(ghost s: StreamState, ghost window: nat) returns (token: nat)
      requires Is(s, window)
      modifies this`recv
      ensures token == s.recv.readSignal.gen && Is(s.(recv := s.recv.(readSignal := s.recv.readSignal.Wait())), window)
    {
      token := recv.readSignal.gen;
      recv := recv.(readSignal := recv.readSignal.Wait());
    }

    method StopReading(code: nat, ghost s: StreamState, ghost window: nat)
      requires Is(s, window)
      modifies this`rbuf, this`roff, this`rcap, this`recv
      ensures Is(s.(recv := Cancelling(s.recv, code)), window)
    {
      DropBuffer();
      recv := recv.(readCancelled := true, recvErr := Some(StreamError(code, false)),
          readSignal := recv.readSignal.Broadcast());
    }

    method EndSending(reason: StreamError, ghost s: StreamState, ghost window: nat)
      requires Is(s, window)
      modifies this`send
      ensures Is(s.(send := s.send.(sendErr := Some(reason), writeSignal := s.send.writeSignal.Broadcast())), window)
    {
      send := send.(sendErr := Some(reason), writeSignal := send.writeSignal.Broadcast());
    }

    method RaiseLimit(max: nat, ghost s: StreamState, ghost window: nat)
      requires Is(s, window)
      modifies this`send
      ensures Is(s.(send := s.send.(sendMax := max, writeSignal := s.send.writeSignal.Broadcast())), window)
    {
      send := send.(sendMax := max, writeSignal := send.writeSignal.Broadcast());
    }

    method WaitToSend(ghost s: StreamState, ghost window: nat) returns (token: nat)
      requires Is(s, window)
      modifies this`send
      ensures token == s.send.writeSignal.gen
          && Is(s.(send := s.send.(writeSignal := s.send.writeSignal.Wait())), window)
    {
      token := send.writeSignal.gen;
      send := send.(writeSignal := send.writeSignal.Wait());
    }

    method TakeCredit(p: seq<byte>, ghost s: StreamState, ghost window: nat)
      requires Is(s, window)
      modifies this`send
      ensures Is(s.(send := s.send.(sendOffset := s.send.sendOffset + |p|, sentLog := s.send.sentLog + p)), window)
    {
      send := send.(sendOffset := send.sendOffset + |p|);
    }

    method Finish(ghost s: StreamState, ghost window: nat)
      requires Is(s, window)
      modifies this`send
      ensures Is(s.(send := s.send.(finSent := true, writeSignal := s.send.writeSignal.Broadcast())), window)
    {
      send := send.(finSent := true, writeSignal := send.writeSignal.Broadcast());
    }

    method Accept(ghost s: StreamState, ghost window: nat)
      requires Is(s, window)
      modifies this`accepted
      ensures Is(s.(accepted := true), window)
    {
      accepted := true;
    }

    method Hush(ghost s: StreamState, ghost window: nat)
      requires Is(s, window) && !s.done
      modifies this`recv, this`send
      ensures Is(Hushed(s), window)
    {
      recv := recv.(readSignal := recv.readSignal.Broadcast());
      send := send.(writeSignal := send.writeSignal.Broadcast());
    }
  }

  /** The streams the peer opens, of one kind. */
  datatype Inbox = Inbox(next: nat, max: nat, pending: bool, queue: seq<Stream>, signal: Signal)

  type Table = map<StreamId, Stream>

  function Ids(queue: seq<Stream>): (ids: seq<StreamId>)
    ensures |ids| == |queue| && forall i | 0 <= i < |ids| :: ids[i] == queue[i].id
  {
    if queue == [] then [] else [queue[0].id] + Ids(queue[1..])
  }

  function Incomings(inbox: Inbox): Incoming {
    Incoming(inbox.next, inbox.max, inbox.pending, Ids(inbox.queue), inbox.signal)
  }

  ghost predicate QueueIn(queue: seq<Stream>, all: Table) {
    forall s | s in queue :: s.id in all && all[s.id] == s
  }

  /** The table holds the streams that are not done, while the connection is open. */
  ghost predicate LiveIs(streams: Table, all: Table, closed: bool, states: map<StreamId, StreamState>) {
    && all.Keys == states.Keys
    && (forall id | id in streams :: id in all && streams[id] == all[id] && !states[id].done && !closed)
    && (forall id | id in all && !states[id].done && !closed :: id in streams)
  }

  /** The objects in the table stand for the states; owned holds them all. */
  ghost predicate StreamsAre(all: Table, owned: set<Stream>, states: map<StreamId, StreamState>, window: nat)
    reads owned
  {
    && all.Keys == states.Keys
    && (forall id | id in all :: all[id] in owned && all[id].id == id && all[id].Is(states[id], window))
  }

  /** As StreamsAre, for all streams but s. */
  ghost predicate OthersAre(all: Table, owned: set<Stream>, states: map<StreamId, StreamState>, window: nat, s: Stream)
    reads owned - {s}
  {
    && all.Keys == states.Keys && s.id in all && all[s.id] == s && s in owned
    && (forall id | id in all && id != s.id ::
        && all[id] in owned && all[id].id == id && all[id] != s
        && all[id].Is(states[id], window))
  }

  lemma {:induction false} Single(all: Table, owned: set<Stream>, states: map<StreamId, StreamState>, window: nat,
      s: Stream)
    requires StreamsAre(all, owned, states, window) && s.id in all && all[s.id] == s
    ensures OthersAre(all, owned, states, window, s)
    ensures s.id in states && s.Is(states[s.id], window) && s.roff <= |s.rbuf|
    ensures s.IsDone() <==> Completes(states[s.id])
  {
  }

  lemma {:induction false} Rejoin(all: Table, owned: set<Stream>, states: map<StreamId, StreamState>, window: nat,
      s: Stream, st: StreamState)
    requires OthersAre(all, owned, states, window, s) && s.Is(st, window)
    ensures StreamsAre(all, owned, states[s.id := st], window)
  {
  }

  class Conn {
    const isServer: bool
    const config: Config
    var life: Life
    /** The streams the connection has not forgotten. */
    var streams: Table
    var outgoing: PerDir<Outgoing>
    var incoming: PerDir<Inbox>
    var flow: Flow
    var control: Control

    /** Every stream there ever was, and what it stands for. */
    ghost var all: Table
    ghost var owned: set<Stream>
    ghost var states: map<StreamId, StreamState>

    /** What the fields stand for. */
    ghost function State(): ConnState
      reads this
    {
      ConnState(isServer, config, life, states, outgoing, PerDir(Incomings(incoming.bidi), Incomings(incoming.uni)),
          flow, control)
    }

    ghost predicate Matches()
      reads this, owned
    {
      && LiveIs(streams, all, life.closed, states)
      && QueueIn(incoming.bidi.queue, all) && QueueIn(incoming.uni.queue, all)
      && StreamsAre(all, owned, states, config.streamWindow)
    }

    ghost predicate Valid()
      reads this, owned
    {
      Matches() && Inv(State())
    }

    constructor (config: Config, isServer: bool)
      ensures Valid() && State() == Init(config, isServer) && owned == {}
    {
      this.isServer, this.config := isServer, config;
      life := Life(false, false, false, NO_PARAMETERS);
      streams := map[];
      outgoing := PerDir(Outgoing(0, 0, QUIET), Outgoing(0, 0, QUIET));
      incoming := PerDir(Inbox(0, config.maxStreams.bidi, false, [], QUIET),
          Inbox(0, config.maxStreams.uni, false, [], QUIET));
      flow := Flow(0, 0, QUIET, config.connWindow, 0, 0);
      control := Control([], false, false, 0, false, false, 0, false, 0);
      all, owned, states := map[], {}, map[];
      new;
      hide Inv;
      InitInv(config, isServer);
    }

    // ------------------------------------------------------------ bookkeeping

    method WakeWriter()
      modifies this`control
      ensures State() == Wake(old(State()))
    {
      control := control.(wake := true);
    }

    method QueueLocked(f: Frame)
      modifies this`control
      ensures State() == Queue(old(State()), f)
    {
      control := control.(frames := control.frames + [f]);
      WakeWriter();
    }

    /** Accounts for data that left the receive buffers. The subtraction cannot underflow. */
    method ConsumeLocked(n: nat)
      requires flow.consumed + n <= flow.recvMax
      modifies this`flow, this`control
      ensures State() == Consume(old(State()), n)
    {
      flow := flow.(consumed := flow.consumed + n);
      var window := config.connWindow;
      var left: nat := flow.recvMax - flow.consumed;
      if left < window / 2 {
        flow := flow.(recvMax := flow.consumed + window);
        control := control.(maxDataPending := true);
        WakeWriter();
      }
    }

    /** The peer may open another stream. */
    method FreeSlot(dir: Dir)
      modifies this`incoming, this`control
      ensures var c := old(State());
        var inc := c.incoming.Get(dir);
        State() == Wake(c.(incoming := Put(c.incoming, dir, inc.(max := inc.max + 1, pending := true))))
      ensures incoming.bidi.queue == old(incoming.bidi.queue) && incoming.uni.queue == old(incoming.uni.queue)
    {
      hide Ids;
      var inbox := incoming.Get(dir);
      incoming := Put(incoming, dir, inbox.(max := inbox.max + 1, pending := true));
      WakeWriter();
    }

    /** Forgets a stream whose two directions have ended, and lets the peer open another in its place. */
    method CompleteLocked(s: Stream)
      requires Matches() && s.id in all && all[s.id] == s
      modifies this, s
      ensures Matches() && all == old(all) && owned == old(owned) && State() == Complete(old(State()), s.id)
    {
      hide StreamsAre, OthersAre, Stream.Is, LiveIs, QueueIn, Incomings, Completes, Wake;
      Single(all, owned, states, config.streamWindow, s);
      if !s.IsDone() {
        return;
      }
      ghost var st, window := states[s.id], config.streamWindow;
      ghost var st' := st.(done := true, recv := st.recv.(unread := []));
      s.Forget(st, window);
      Rejoin(all, owned, states, window, s, st');
      LiveForgets(streams, all, life.closed, states, s.id, st');
      streams := streams - {s.id};
      states := states[s.id := st'];
      if !Local(isServer, s.id) {
        FreeSlot(s.id.dir);
      }
    }

    /** One stream changed from st to st', which does not end it. */
    ghost method Change(s: Stream, st': StreamState)
      requires LiveIs(streams, all, life.closed, states) && s.id in states && st'.done == states[s.id].done
      requires OthersAre(all, owned, states, config.streamWindow, s) && s.Is(st', config.streamWindow)
      modifies this`states
      ensures LiveIs(streams, all, life.closed, states) && StreamsAre(all, owned, states, config.streamWindow)
      ensures states == old(states)[s.id := st']
    {
      hide StreamsAre, Stream.Is;
      Rejoin(all, owned, states, config.streamWindow, s, st');
      LiveKeeps(streams, all, life.closed, states, s.id, st');
      states := states[s.id := st'];
    }

    // -------------------------------------------------------- finding a stream

    method NewStreamLocked(id: StreamId, accepted: bool) returns (s: Stream)
      requires Matches() && id !in all && !life.closed
      modifies this`streams, this`all, this`owned, this`states
      ensures Matches() && fresh(s) && s.id == id && all == old(all)[id := s] && owned == old(owned) + {s}
      ensures State() == SetStream(old(State()), id, NewStream(old(State()), id, accepted))
    {
      hide StreamsAre, LiveIs, QueueIn, Incomings, Stream.Is, CanRecv, CanSend, InitialSendMax;
      var canRecv, canSend := CanRecv(isServer, id), CanSend(isServer, id);
      var recvMax := if canRecv then config.streamWindow else 0;
      s := new Stream(id, canRecv, canSend, recvMax, InitialSendMax(isServer, life.peer, id), accepted);
      Added(streams, all, owned, life.closed, states, config.streamWindow, s, NewStream(State(), id, accepted));
      QueueGrows(incoming.bidi.queue, all, s);
      QueueGrows(incoming.uni.queue, all, s);
      states := states[id := NewStream(State(), id, accepted)];
      all, owned := all[id := s], owned + {s};
      streams := streams[id := s];
    }

    /** The peer's next stream of a kind comes into being. */
    method CreateLocked(dir: Dir)
      requires Valid() && life.ready && !life.closed && incoming.Get(dir).next < incoming.Get(dir).max
      modifies this
      ensures Valid() && State() == Create(old(State()), dir) && owned >= old(owned) && fresh(owned - old(owned))
    {
      hide StreamsAre, Stream.Is, LiveIs, QueueIn, Inv, NewStream, SetStream, Ids;
      CreateInv(State(), dir);
      var inbox := incoming.Get(dir);
      var id := StreamId(inbox.next, dir, !isServer);
      Evolution.FreshId(State(), id);
      assert id !in all by { KeysAre(all, owned, states, config.streamWindow); }
      var s := NewStreamLocked(id, false);
      QueueAppend(inbox.queue, all, s);
      incoming := Put(incoming, dir,
          inbox.(next := inbox.next + 1, queue := inbox.queue + [s], signal := inbox.signal.Broadcast()));
    }

    /**
     Finds the stream a frame refers to, and creates the ones it opens. No stream and no error
     is a stream that has closed.
     */
    method StreamLocked(id: StreamId, recv: bool) returns (s: Stream?, err: Option<nat>)
      requires Valid() && life.ready && !life.closed
      modifies this
      ensures Valid() && owned >= old(owned) && fresh(owned - old(owned))
      ensures State() == Resolve(old(State()), id, recv).0
      ensures match Resolve(old(State()), id, recv).1
        case Failed(code) => s == null && err == Some(code)
        case Gone => s == null && err.None?
        case Found => s != null && err.None? && s.id == id && id in all && all[id] == s
    {
      hide StreamsAre, LiveIs, QueueIn, Inv, Create, Incomings;
      var local := Local(isServer, id);
      if id.dir.Uni? && local == recv {
        return null, Some(STREAM_STATE_ERROR);
      }
      if local {
        if id.index >= outgoing.Get(id.dir).next {
          return null, Some(STREAM_STATE_ERROR);
        }
        s := Lookup(id);
        return s, None;
      }
      InboxCounts(incoming, id.dir);
      if id.index >= incoming.Get(id.dir).max {
        return null, Some(STREAM_LIMIT_ERROR);
      }
      while incoming.Get(id.dir).next <= id.index
        invariant Valid() && life.ready && !life.closed && owned >= old(owned) && fresh(owned - old(owned))
        invariant id.index < incoming.Get(id.dir).max
        invariant CreateUpTo(State(), id.dir, id.index) == CreateUpTo(old(State()), id.dir, id.index)
        decreases id.index + 1 - incoming.Get(id.dir).next
      {
        InboxCounts(incoming, id.dir);
        ghost var c := State();
        CreateCounts(c, id.dir);
        CreateLocked(id.dir);
        InboxCounts(incoming, id.dir);
      }
      InboxCounts(incoming, id.dir);
      s := Lookup(id);
      return s, None;
    }

    method Lookup(id: StreamId) returns (s: Stream?)
      requires Matches() && !life.closed
      ensures s != null <==> LiveOrGone(State(), id).Found?
      ensures s != null ==> s.id == id && id in all && all[id] == s
    {
      s := if id in streams then streams[id] else null;
    }

    // ---------------------------------------------------------- frame handlers

    method TakeStreamLocked(s: Stream, ghost offset: nat, data: seq<byte>, fin: bool)
      requires Valid() && s.id in all && all[s.id] == s && s.id in states && !states[s.id].done
          && CanRecv(isServer, s.id)
      requires StreamFault(State(), states[s.id].recv, offset, |data|, fin).None? && !states[s.id].recv.finRecv
          && !states[s.id].recv.recvReset
      modifies this, s
      ensures Valid() && all == old(all) && owned == old(owned) && State() == TakeStream(old(State()), s.id, data, fin)
    {
      hide StreamsAre, OthersAre, Stream.Is, LiveIs, QueueIn, Incomings, Inv, Accepting, Complete, Consume;
      TakeStreamInv(State(), s.id, offset, data, fin);
      Single(all, owned, states, config.streamWindow, s);
      SingleRecv(s, states[s.id], config.streamWindow);
      TakeBounds(State(), s.id, offset, data, fin);
      var cancelled := s.recv.readCancelled;
      flow := flow.(received := flow.received + |data|);
      s.Receive(data, fin, config.streamWindow, states[s.id]);
      Change(s, states[s.id].(recv := Accepting(states[s.id].recv, data, fin)));
      if cancelled {
        ConsumeLocked(|data|);
      }
      CompleteLocked(s);
    }

    method HandleStreamLocked(id: StreamId, offset: nat, data: seq<byte>, fin: bool) returns (o: Outcome)
      requires Valid() && life.ready && !life.closed
      modifies this, owned
      ensures Valid() && owned >= old(owned) && fresh(owned - old(owned))
      ensures (State(), o) == HandleStream(old(State()), id, offset, data, fin)
    {
      hide StreamsAre, OthersAre, Stream.Is, LiveIs, QueueIn, Incomings, Inv, Resolve, TakeStream;
      ResolveInv(State(), id, true);
      var s, err := StreamLocked(id, true);
      if s == null {
        return if err.Some? then Violation(err.value) else Fine;
      }
      Single(all, owned, states, config.streamWindow, s);
      SingleRecv(s, states[id], config.streamWindow);
      var n := |data|;
      if offset != s.recv.recvOffset {
        return Violation(PROTOCOL_VIOLATION);
      }
      if s.recv.finRecv || s.recv.recvReset {
        TakeNothing(State(), id, data, fin);
        return if n > 0 || (fin && !s.recv.finRecv) then Violation(FINAL_SIZE_ERROR) else Fine;
      }
      if s.recv.recvOffset + n > s.recv.recvMax {
        return Violation(FLOW_CONTROL_ERROR);
      }
      if flow.received + n > flow.recvMax {
        return Violation(FLOW_CONTROL_ERROR);
      }
      TakeStreamLocked(s, offset, data, fin);
      o := Fine;
    }

    method TakeResetLocked(s: Stream, code: nat, finalSize: nat)
      requires Valid() && s.id in all && all[s.id] == s && s.id in states && !states[s.id].done
          && CanRecv(isServer, s.id)
      requires ResetFault(State(), states[s.id].recv, finalSize).None? && !states[s.id].recv.recvReset
      modifies this, s
      ensures Valid() && all == old(all) && owned == old(owned)
      ensures old(states[s.id].recv.recvOffset) <= finalSize
          && State() == TakeReset(old(State()), s.id, code, finalSize)
    {
      hide StreamsAre, OthersAre, Stream.Is, LiveIs, QueueIn, Incomings, Inv, Resetting, Complete, Consume;
      TakeResetInv(State(), s.id, code, finalSize);
      Single(all, owned, states, config.streamWindow, s);
      SingleRecv(s, states[s.id], config.streamWindow);
      ResetBounds(State(), s.id, finalSize);
      var skipped: nat := finalSize - s.recv.recvOffset;
      var dropped: nat := |s.rbuf| - s.roff;
      flow := flow.(received := flow.received + skipped);
      s.TakeReset(code, finalSize, states[s.id], config.streamWindow);
      Change(s, states[s.id].(recv := Resetting(states[s.id].recv, code, finalSize)));
      ConsumeLocked(skipped + dropped);
      CompleteLocked(s);
    }

    method HandleResetLocked(id: StreamId, code: nat, finalSize: nat) returns (o: Outcome)
      requires Valid() && life.ready && !life.closed
      modifies this, owned
      ensures Valid() && owned >= old(owned) && fresh(owned - old(owned))
      ensures (State(), o) == HandleReset(old(State()), id, code, finalSize)
    {
      hide StreamsAre, OthersAre, Stream.Is, LiveIs, QueueIn, Incomings, Inv, Resolve, TakeReset;
      ResolveInv(State(), id, true);
      var s, err := StreamLocked(id, true);
      if s == null {
        return if err.Some? then Violation(err.value) else Fine;
      }
      Single(all, owned, states, config.streamWindow, s);
      SingleRecv(s, states[id], config.streamWindow);
      if finalSize < s.recv.recvOffset || ((s.recv.finRecv || s.recv.recvReset) && finalSize != s.recv.recvOffset) {
        return Violation(FINAL_SIZE_ERROR);
      }
      if s.recv.recvReset {
        ResetNothing(State(), id, code, finalSize);
        return Fine;
      }
      if finalSize > s.recv.recvMax {
        return Violation(FLOW_CONTROL_ERROR);
      }
      if flow.received + (finalSize - s.recv.recvOffset) > flow.recvMax {
        return Violation(FLOW_CONTROL_ERROR);
      }
      TakeResetLocked(s, code, finalSize);
      o := Fine;
    }

    /** Ends the sending side with a RESET_STREAM, unless it has ended. */
    method ResetSendLocked(s: Stream, reason: StreamError)
      requires Valid() && s.id in all && all[s.id] == s && s.id in states && CanSend(isServer, s.id) && !life.closed
      modifies this, s
      ensures Valid() && all == old(all) && owned == old(owned) && State() == ResetSend(old(State()), s.id, reason)
    {
      hide StreamsAre, OthersAre, Stream.Is, LiveIs, QueueIn, Incomings, Inv, Complete, Queue;
      ResetSendInv(State(), s.id, reason);
      Single(all, owned, states, config.streamWindow, s);
      ghost var st := states[s.id];
      SingleSend(s, st, config.streamWindow);
      if s.IsSendDone() {
        return;
      }
      var finalSize := s.send.sendOffset;
      s.EndSending(reason, st, config.streamWindow);
      Change(s, st.(send := st.send.(sendErr := Some(reason), writeSignal := st.send.writeSignal.Broadcast())));
      QueueLocked(ResetStream(s.id, reason.code, finalSize));
      CompleteLocked(s);
    }

    method HandleStopSendingLocked(id: StreamId, code: nat) returns (o: Outcome)
      requires Valid() && life.ready && !life.closed
      modifies this, owned
      ensures Valid() && owned >= old(owned) && fresh(owned - old(owned))
      ensures (State(), o) == HandleStopSending(old(State()), id, code)
    {
      hide StreamsAre, OthersAre, Stream.Is, LiveIs, QueueIn, Incomings, Inv, Resolve, ResetSend;
      ResolveInv(State(), id, false);
      var s, err := StreamLocked(id, false);
      if s != null {
        Single(all, owned, states, config.streamWindow, s);
        ResolveOpen(old(State()), id, false);
        ResetSendLocked(s, StreamError(code, true));
      }
      o := if err.Some? then Violation(err.value) else Fine;
    }

    method HandleMaxStreamDataLocked(id: StreamId, max: nat) returns (o: Outcome)
      requires Valid() && life.ready && !life.closed
      modifies this, owned
      ensures Valid() && owned >= old(owned) && fresh(owned - old(owned))
      ensures (State(), o) == HandleMaxStreamData(old(State()), id, max)
    {
      hide StreamsAre, OthersAre, Stream.Is, LiveIs, QueueIn, Incomings, Inv, Resolve;
      ResolveInv(State(), id, false);
      var s, err := StreamLocked(id, false);
      if s != null {
        Single(all, owned, states, config.streamWindow, s);
        ghost var st := states[id];
        RaiseSendMaxInv(State(), id, max);
        SingleSend(s, st, config.streamWindow);
        if max > s.send.sendMax {
          s.RaiseLimit(max, st, config.streamWindow);
          Change(s, st.(send := st.send.(sendMax := max, writeSignal := st.send.writeSignal.Broadcast())));
        }
      }
      o := if err.Some? then Violation(err.value) else Fine;
    }

    /** The handshake channel is closed once: closing it again would be a panic. */
    method CloseHandshake()
      requires !life.handshakeClosed
      modifies this`life
      ensures life == old(life).(handshakeClosed := true)
    {
      life := life.(handshakeClosed := true);
    }

    method HandleParametersLocked(p: Parameters)
      requires Valid() && !life.ready && !life.closed
      modifies this
      ensures Valid() && all == old(all) && owned == old(owned) && State() == HandleParameters(old(State()), p)
    {
      hide StreamsAre, OthersAre, Stream.Is, LiveIs, QueueIn, Incomings, Inv;
      ParametersInv(State(), p);
      life := life.(peer := p, ready := true);
      flow := flow.(sendMax := p.initialMaxData);
      outgoing := PerDir(outgoing.bidi.(max := p.initialMaxStreamsBidi), outgoing.uni.(max := p.initialMaxStreamsUni));
      CloseHandshake();
      flow := flow.(sendSignal := flow.sendSignal.Broadcast());
      outgoing := PerDir(
        outgoing.bidi.(signal := outgoing.bidi.signal.Broadcast()),
            outgoing.uni.(signal := outgoing.uni.signal.Broadcast()));
    }

    /** Frames that concern the connection as a whole. */
    method HandleConnFrameLocked(f: Frame) returns (o: Outcome)
      requires Valid() && life.ready && !life.closed
      requires f.MaxData? || f.MaxStreams? || f.Ping? || f.Datagram? || f.ConnectionClose? || f.Blocked?
      modifies this
      ensures Valid() && all == old(all) && owned == old(owned) && (State(), o) == HandleFrame(old(State()), f)
      ensures o.PeerClosed? <==> f.ConnectionClose?
    {
      hide StreamsAre, OthersAre, Stream.Is, LiveIs, QueueIn, Incomings, Inv;
      HandleFrameInv(State(), f);
      o := Fine;
      match f
      case MaxData(max) =>
        if max > flow.sendMax {
          flow := flow.(sendMax := max, sendSignal := flow.sendSignal.Broadcast());
        }
      case MaxStreams(dir, max) =>
        var out := outgoing.Get(dir);
        if max > out.max {
          outgoing := Put(outgoing, dir, out.(max := max, signal := out.signal.Broadcast()));
        }
      case Ping(response, sequence) =>
        if response {
          if sequence >= control.nextPing {
            o := Violation(PROTOCOL_VIOLATION);
          }
        } else if control.peerPinged && sequence <= control.peerPingLast {
          o := Violation(PROTOCOL_VIOLATION);
        } else {
          control := control.(peerPinged := true, peerPingLast := sequence, pongPending := true,
              pongSequence := sequence);
          WakeWriter();
        }
      case Datagram(data) =>
        if 1 + |data| > config.maxDatagram {
          o := Violation(PROTOCOL_VIOLATION);
        }
      case ConnectionClose(_, _, _, _) =>
        o := PeerClosed;
      case Blocked =>
    }

    method HandleFrameLocked(f: Frame) returns (o: Outcome)
      requires Valid() && !life.closed
      modifies this, owned
      ensures Valid() && owned >= old(owned) && fresh(owned - old(owned))
      ensures (State(), o) == HandleFrame(old(State()), f)
      ensures o.PeerClosed? <==> old(life.ready) && f.ConnectionClose?
    {
      ghost var c := State();
      if life.ready {
        FrameAnswers.CloseAnswers(c, f);
      }
      hide StreamsAre, OthersAre, Stream.Is, LiveIs, QueueIn, Incomings, Inv, HandleStream, HandleReset,
          HandleStopSending, HandleMaxStreamData, HandleMaxData, HandleMaxStreams, HandlePing, HandleDatagram,
          HandleParameters;
      if f.TransportParameters? != !life.ready {
        return Violation(PROTOCOL_VIOLATION);
      }
      match f
      case TransportParameters(p) =>
        HandleParametersLocked(p);
        o := Fine;
      case StreamData(id, offset, data, fin) =>
        o := HandleStreamLocked(id, offset, data, fin);
      case ResetStream(id, code, finalSize) =>
        o := HandleResetLocked(id, code, finalSize);
      case StopSending(id, code) =>
        o := HandleStopSendingLocked(id, code);
      case MaxStreamData(id, max) =>
        o := HandleMaxStreamDataLocked(id, max);
      case _ =>
        o := HandleConnFrameLocked(f);
    }

    /** Processes the frames of a record. */
    method HandleRecord(record: seq<byte>) returns (o: Outcome)
      requires Valid()
      modifies this, owned
      ensures Valid() && owned >= old(owned) && fresh(owned - old(owned))
      ensures (State(), o) == HandleBytes(old(State()), record)
    {
      hide StreamsAre, OthersAre, Stream.Is, LiveIs, QueueIn, Incomings, Inv, HandleFrame, Parse;
      var rec := record;
      while |rec| > 0 && !life.closed
        invariant Valid() && owned >= old(owned) && fresh(owned - old(owned))
        invariant HandleBytes(State(), rec) == HandleBytes(old(State()), record)
        decreases |rec|
      {
        var p := FrameReader.ParseFrame(rec);
        match p
        case OnlyPadding =>
          return Fine;
        case Fault(code) =>
          return Violation(code);
        case Parsed(f, rest) =>
          rec := rest;
          o := HandleFrameLocked(f);
          if !o.Fine? {
            return;
          }
      }
      o := Fine;
    }

    // ------------------------------------------------------- application calls

    /** Opens a stream if the peer's limit allows it, or says what to wait for. */
    method TryOpen(dir: Dir) returns (r: OpenResult)
      requires Valid()
      modifies this
      ensures Valid() && owned >= old(owned) && fresh(owned - old(owned))
          && (State(), r) == Endpoints.TryOpen(old(State()), dir)
    {
      hide StreamsAre, OthersAre, Stream.Is, LiveIs, QueueIn, Incomings, Inv, NewStream;
      TryOpenInv(State(), dir);
      if life.closed {
        return OpenFailed;
      }
      var out := outgoing.Get(dir);
      if out.next >= out.max {
        outgoing := Put(outgoing, dir, out.(signal := out.signal.Wait()));
        return OpenBlocked(out.signal.gen);
      }
      var id := StreamId(out.next, dir, isServer);
      Evolution.FreshId(State(), id);
      assert id !in all by { KeysAre(all, owned, states, config.streamWindow); }
      var s := NewStreamLocked(id, true);
      outgoing := Put(outgoing, dir, out.(next := out.next + 1));
      r := Opened(id);
    }

    /** Takes the next stream the peer opened, or says what to wait for. */
    method TryAccept(dir: Dir) returns (r: AcceptResult)
      requires Valid()
      modifies this, owned
      ensures Valid() && all == old(all) && owned == old(owned)
      ensures forall id | id in old(State()).incoming.Get(dir).queue :: id in old(states)
      ensures (State(), r) == Endpoints.TryAccept(old(State()), dir)
    {
      hide StreamsAre, OthersAre, Stream.Is, LiveIs, QueueIn, Incomings, Inv, Complete;
      QueuedExist(State(), dir);
      TryAcceptInv(State(), dir);
      if life.closed {
        return AcceptFailed;
      }
      var inbox := incoming.Get(dir);
      IncomingsOf(incoming, dir);
      if inbox.queue == [] {
        incoming := Put(incoming, dir, inbox.(signal := inbox.signal.Wait()));
        IncomingsPut(old(incoming), dir, incoming.Get(dir));
        return AcceptBlocked(inbox.signal.gen);
      }
      var s := inbox.queue[0];
      QueueTail(inbox.queue, all);
      Single(all, owned, states, config.streamWindow, s);
      ghost var st := states[s.id];
      OwnedOf(all, owned, states, config.streamWindow, s);
      incoming := Put(incoming, dir, inbox.(queue := inbox.queue[1..]));
      IncomingsPut(old(incoming), dir, incoming.Get(dir));
      s.Accept(st, config.streamWindow);
      Change(s, st.(accepted := true));
      CompleteLocked(s);
      r := Accepted(s.id);
    }

    /** Takes received data out; with none, says whether the stream has ended or what to wait for. */
    method TryRead(s: Stream, n: nat) returns (r: ReadResult)
      requires Valid() && s.id in all && all[s.id] == s && s.id in states && CanRecv(isServer, s.id)
      modifies this, s
      ensures Valid() && all == old(all) && owned == old(owned)
      ensures (State(), r) == Endpoints.TryRead(old(State()), s.id, n)
      ensures r.ReadFailed? <==> old(life.closed || states[s.id].recv.recvErr.Some?)
      ensures r.ReadData? <==> !r.ReadFailed? && old(states[s.id].recv.unread) != []
      ensures r.ReadData? ==>
        && r.data <= old(states[s.id].recv.unread)
        && |r.data| == Min(n, |old(states[s.id].recv.unread)|)
      ensures r.ReadEof? <==> !r.ReadFailed? && old(states[s.id].recv.unread == [] && states[s.id].recv.finRecv)
    {
      hide StreamsAre, OthersAre, Stream.Is, LiveIs, QueueIn, Incomings, Inv, Reading, Complete, Consume, Queue;
      TryReadInv(State(), s.id, n);
      Single(all, owned, states, config.streamWindow, s);
      ghost var st := states[s.id];
      SingleRecv(s, st, config.streamWindow);
      if life.closed || s.recv.recvErr.Some? {
        return ReadFailed;
      }
      if s.roff < |s.rbuf| {
        var data := TakeLocked(s, n, State());
        return ReadData(data);
      }
      if s.recv.finRecv {
        return ReadEof([]);
      }
      r := WaitToReadLocked(s);
    }

    method TakeLocked(s: Stream, n: nat, ghost c: ConnState) returns (data: seq<byte>)
      requires Valid() && s.id in all && all[s.id] == s && s.id in c.streams && CanRecv(isServer, s.id)
      requires c == State() && !c.life.closed && c.streams[s.id].recv.recvErr.None? && c.streams[s.id].recv.unread != []
      modifies this, s
      ensures Valid() && all == old(all) && owned == old(owned)
      ensures |data| == Min(n, |c.streams[s.id].recv.unread|) && data == c.streams[s.id].recv.unread[..|data|]
      ensures State() == Take(c, s.id, |data|)
    {
      hide StreamsAre, OthersAre, Stream.Is, LiveIs, QueueIn, Incomings, Inv, Reading, Complete, Consume, Queue;
      Single(all, owned, states, config.streamWindow, s);
      ghost var st := states[s.id];
      ghost var k := Min(n, |st.recv.unread|);
      TakeInv(State(), s.id, k);
      ReadBounds(State(), s.id);
      var extended;
      data, extended := s.Take(n, config.streamWindow, st);
      ghost var st' := st.(recv := Reading(st.recv, k, config.streamWindow).0);
      Change(s, st');
      SingleRecv(s, st', config.streamWindow);
      var limit := s.recv.recvMax;
      ConsumeLocked(|data|);
      if extended {
        QueueLocked(MaxStreamData(s.id, limit));
      }
      CompleteLocked(s);
    }

    method WaitToReadLocked(s: Stream) returns (r: ReadResult)
      requires Valid() && s.id in all && all[s.id] == s && s.id in states && CanRecv(isServer, s.id) && !life.closed
      requires !states[s.id].recv.finRecv && states[s.id].recv.recvErr.None?
      modifies this, s
      ensures Valid() && all == old(all) && owned == old(owned) && (State(), r) == WaitToRead(old(State()), s.id)
    {
      hide StreamsAre, OthersAre, Stream.Is, LiveIs, QueueIn, Incomings, Inv;
      Single(all, owned, states, config.streamWindow, s);
      WaitToReadInv(State(), s.id);
      ghost var st := states[s.id];
      var token := s.WaitToRead(st, config.streamWindow);
      Change(s, st.(recv := st.recv.(readSignal := st.recv.readSignal.Wait())));
      r := ReadBlocked(token);
    }

    /** As TryRead, but leaves the data in place and waits for all of it. */
    method TryPeek(s: Stream, n: nat) returns (r: ReadResult)
      requires Valid() && s.id in all && all[s.id] == s && s.id in states && CanRecv(isServer, s.id)
      modifies this, s
      ensures Valid() && all == old(all) && owned == old(owned)
      ensures (State(), r) == Endpoints.TryPeek(old(State()), s.id, n)
    {
      hide StreamsAre, OthersAre, Stream.Is, LiveIs, QueueIn, Incomings, Inv, WaitToRead;
      TryPeekInv(State(), s.id, n);
      Single(all, owned, states, config.streamWindow, s);
      SingleRecv(s, states[s.id], config.streamWindow);
      if life.closed || s.recv.recvErr.Some? {
        return ReadFailed;
      }
      var unread := s.rbuf[s.roff..];
      if |unread| >= n {
        return ReadData(unread[..n]);
      }
      if s.recv.finRecv {
        return ReadEof(unread);
      }
      r := WaitToReadLocked(s);
    }

    method CancelRead(s: Stream, code: nat)
      requires Valid() && s.id in all && all[s.id] == s && s.id in states && CanRecv(isServer, s.id)
      modifies this, s
      ensures Valid() && all == old(all) && owned == old(owned)
      ensures State() == Endpoints.CancelRead(old(State()), s.id, code)
    {
      hide StreamsAre, OthersAre, Stream.Is, LiveIs, QueueIn, Incomings, Inv, Complete, Consume, Queue, RecvDone,
          Cancelling;
      CancelReadInv(State(), s.id, code);
      Single(all, owned, states, config.streamWindow, s);
      ghost var st := states[s.id];
      SingleRecv(s, st, config.streamWindow);
      if life.closed || s.recv.recvErr.Some? || s.IsRecvDone() {
        return;
      }
      CancelLocked(s, code, State());
    }

    method CancelLocked(s: Stream, code: nat, ghost c: ConnState)
      requires Valid() && s.id in all && all[s.id] == s && s.id in c.streams && CanRecv(isServer, s.id) && c == State()
      requires !c.life.closed && c.streams[s.id].recv.recvErr.None? && !RecvDone(c.streams[s.id].recv)
      modifies this, s
      ensures Valid() && all == old(all) && owned == old(owned) && State() == Endpoints.CancelRead(c, s.id, code)
    {
      hide StreamsAre, OthersAre, Stream.Is, LiveIs, QueueIn, Incomings, Inv, Complete, Consume, Queue, RecvDone,
          Cancelling;
      CancelReadInv(c, s.id, code);
      Single(all, owned, states, config.streamWindow, s);
      ghost var st := states[s.id];
      SingleRecv(s, st, config.streamWindow);
      ReadBounds(c, s.id);
      var dropped: nat := |s.rbuf| - s.roff;
      var ended := s.recv.finRecv;
      s.StopReading(code, st, config.streamWindow);
      Change(s, st.(recv := Cancelling(st.recv, code)));
      ConsumeLocked(dropped);
      if !ended {
        QueueLocked(StopSending(s.id, code));
      }
      CompleteLocked(s);
    }

    method CancelWrite(s: Stream, code: nat)
      requires Valid() && s.id in all && all[s.id] == s && s.id in states && CanSend(isServer, s.id)
      modifies this, s
      ensures Valid() && all == old(all) && owned == old(owned)
      ensures State() == Endpoints.CancelWrite(old(State()), s.id, code)
    {
      hide StreamsAre, OthersAre, Stream.Is, LiveIs, QueueIn, Incomings, Inv, ResetSend;
      if !life.closed {
        ResetSendLocked(s, StreamError(code, false));
      }
    }

    predicate SendErrs(s: Stream)
      reads this, s
    {
      life.closed || s.send.sendErr.Some? || s.send.finSent
    }

    function SendCreditLocked(s: Stream): nat
      reads this, s
    {
      if s.send.sendMax <= s.send.sendOffset || flow.sendMax <= flow.sent then 0
      else Min(s.send.sendMax - s.send.sendOffset, flow.sendMax - flow.sent)
    }

    /** Says whether there is credit, or what to wait for. */
    method TrySend(s: Stream) returns (r: SendResult)
      requires Valid() && s.id in all && all[s.id] == s && s.id in states && CanSend(isServer, s.id)
      modifies this, s
      ensures Valid() && all == old(all) && owned == old(owned)
      ensures (State(), r) == Endpoints.TrySend(old(State()), s.id)
    {
      hide StreamsAre, OthersAre, Stream.Is, LiveIs, QueueIn, Incomings, Inv;
      TrySendInv(State(), s.id);
      Single(all, owned, states, config.streamWindow, s);
      ghost var st := states[s.id];
      SingleSend(s, st, config.streamWindow);
      if SendErrs(s) {
        return SendFailed;
      }
      if SendCreditLocked(s) > 0 {
        return SendReady;
      }
      var token := s.WaitToSend(st, config.streamWindow);
      Change(s, st.(send := st.send.(writeSignal := st.send.writeSignal.Wait())));
      r := SendBlocked(token, flow.sendSignal.gen);
      flow := flow.(sendSignal := flow.sendSignal.Wait());
    }

    /** Takes credit for as much of p as it can; frames is what to write under the write lock. */
    method Reserve(s: Stream, p: seq<byte>) returns (frames: seq<Frame>)
      requires Valid() && s.id in all && all[s.id] == s && s.id in states && CanSend(isServer, s.id)
      modifies this, s
      ensures Valid() && all == old(all) && owned == old(owned)
      ensures (State(), frames) == Endpoints.Reserve(old(State()), s.id, p)
    {
      hide StreamsAre, OthersAre, Stream.Is, LiveIs, QueueIn, Incomings, Inv;
      ReserveInv(State(), s.id, p);
      Single(all, owned, states, config.streamWindow, s);
      ghost var st := states[s.id];
      SingleSend(s, st, config.streamWindow);
      if SendErrs(s) {
        return [];
      }
      var n := Min(|p|, Min(MAX_STREAM_DATA, SendCreditLocked(s)));
      if n == 0 {
        return [];
      }
      var offset := s.send.sendOffset;
      s.TakeCredit(p[..n], st, config.streamWindow);
      Change(s, st.(send := st.send.(sendOffset := st.send.sendOffset + n, sentLog := st.send.sentLog + p[..n])));
      flow := flow.(sent := flow.sent + n);
      frames := [StreamData(s.id, offset, p[..n], false)];
    }

    /** Waits for no credit: sends the start of p in one frame if the stream is ready, and says whether it was. */
    method WriteChunk(s: Stream, p: seq<byte>) returns (n: nat, frames: seq<Frame>, answer: SendResult)
      requires Valid() && s.id in all && all[s.id] == s && s.id in states && CanSend(isServer, s.id) && p != []
      modifies this, s
      ensures Valid() && all == old(all) && owned == old(owned) && s.id in states
      ensures n <= |p| && n <= 16357 && (n > 0 <==> answer.SendReady?)
      ensures states[s.id].send.sentLog == old(states[s.id].send.sentLog) + p[..n]
      ensures n == 0 ==> frames == []
      ensures n > 0 ==>
        && |frames| == 1 && frames[0].StreamData?
        && frames[0] == StreamData(s.id, frames[0].offset, p[..n], false)
    {
      hide Matches, Inv, Endpoints.TrySend, Endpoints.Reserve;
      ReadyStep(State(), s.id, p);
      answer := TrySend(s);
      n, frames := 0, [];
      if answer.SendReady? {
        frames := Reserve(s, p);
        n := |frames[0].data|;
      }
    }

    /**
     Sends p until all of it is sent or the stream is not ready; answer says why it is not. The
     frames, each written under the write lock in its turn, carry the first total bytes of p.
     */
    method WriteSome(s: Stream, p: seq<byte>) returns (total: nat, frames: seq<Frame>, answer: SendResult)
      requires Valid() && s.id in all && all[s.id] == s && s.id in states && CanSend(isServer, s.id)
      modifies this, s
      ensures Valid() && all == old(all) && owned == old(owned) && s.id in states
      ensures total <= |p| && (total == |p| || !answer.SendReady?)
      ensures states[s.id].send.sentLog == old(states[s.id].send.sentLog) + p[..total]
      ensures PairTheorems.DataOf(frames, s.id) == p[..total]
      ensures forall f | f in frames :: f.StreamData? && f.id == s.id && !f.fin && 0 < |f.data| <= 16357
    {
      hide Valid, PairTheorems.DataOf;
      total, frames, answer := 0, [], SendReady;
      DataNone(s.id);
      while total < |p| && answer.SendReady?
        invariant Valid() && all == old(all) && owned == old(owned)
        invariant s.id in all && all[s.id] == s && s.id in states
        invariant total <= |p|
        invariant states[s.id].send.sentLog == old(states[s.id].send.sentLog) + p[..total]
        invariant PairTheorems.DataOf(frames, s.id) == p[..total]
        invariant forall f | f in frames :: f.StreamData? && f.id == s.id && !f.fin && 0 < |f.data| <= 16357
        decreases |p| - total, answer.SendReady?
      {
        var n, more;
        n, more, answer := WriteChunk(s, p[total..]);
        PrefixGrows(p, total, n);
        if n > 0 {
          DataAppend(frames, more[0], s.id);
          assert more == [more[0]];
        } else {
          assert frames + more == frames;
        }
        total, frames := total + n, frames + more;
      }
    }

    /** Ends the sending side; frames is what to write under the write lock. */
    method Finish(s: Stream) returns (frames: seq<Frame>)
      requires Valid() && s.id in all && all[s.id] == s && s.id in states && CanSend(isServer, s.id)
      modifies this, s
      ensures Valid() && all == old(all) && owned == old(owned)
      ensures (State(), frames) == Endpoints.Finish(old(State()), s.id)
    {
      hide StreamsAre, OthersAre, Stream.Is, LiveIs, QueueIn, Incomings, Inv, Complete;
      FinishInv(State(), s.id);
      Single(all, owned, states, config.streamWindow, s);
      ghost var st := states[s.id];
      SingleSend(s, st, config.streamWindow);
      if SendErrs(s) {
        return [];
      }
      frames := [StreamData(s.id, s.send.sendOffset, [], true)];
      s.Finish(st, config.streamWindow);
      Change(s, st.(send := st.send.(finSent := true, writeSignal := st.send.writeSignal.Broadcast())));
      CompleteLocked(s);
    }

    /** Answers a request to send a datagram; the frame is to be written under the write lock. */
    method SendDatagram(data: seq<byte>) returns (answer: Datagrams.Answer)
      requires DatagramLimit(State()) < Varints.LIMIT && |data| < Varints.LIMIT
      ensures answer == Datagrams.Answered(State(), data)
      ensures answer.Sent? <==> Endpoints.SendDatagram(State(), data) == [Datagram(data)]
    {
      var limit := Min(life.peer.maxDatagramFrameSize, life.peer.maxRecordSize);
      Datagrams.SentExactly(State(), data);
      if limit == 0 {
        return Datagrams.NotSupported;
      }
      if 1 + Varints.Len(|data|) + |data| > limit {
        var payload := Datagrams.Uint64(Datagrams.Uint64(limit - 1) - Varints.Len(limit));
        return Datagrams.TooLarge(Datagrams.Int64(payload));
      }
      if life.closed {
        return Datagrams.Closed;
      }
      return Datagrams.Sent;
    }

    method RequestPing()
      requires Valid()
      modifies this`control
      ensures Valid() && State() == Endpoints.RequestPing(old(State()))
    {
      hide StreamsAre, OthersAre, Stream.Is, LiveIs, QueueIn, Incomings, Inv;
      RequestPingInv(State());
      control := control.(pingPending := true);
      WakeWriter();
    }

    // ----------------------------------------------- control frames, closing

    /** Empties the control queue, unless the connection is closed. */
    method TakeControl() returns (frames: seq<Frame>)
      requires Valid()
      modifies this`control, this`incoming
      ensures Valid() && (State(), frames) == Endpoints.TakeControl(old(State()))
    {
      hide StreamsAre, LiveIs, QueueIn, Ids, Inv, LimitFrames, PingFrames;
      TakeControlInv(State());
      if life.closed {
        return [];
      }
      Speaking.SameDue(State());
      frames := control.frames;
      control := control.(frames := []);
      var limits := TakeLimits();
      var pings := TakePings();
      frames := frames + limits + pings;
    }

    method TakeLimits() returns (frames: seq<Frame>)
      modifies this`control, this`incoming
      ensures frames == LimitFrames(old(State())) && control == old(control).(maxDataPending := false)
      ensures incoming == PerDir(old(incoming).bidi.(pending := false), old(incoming).uni.(pending := false))
    {
      hide Ids;
      frames := [];
      if control.maxDataPending {
        control := control.(maxDataPending := false);
        frames := frames + [MaxData(flow.recvMax)];
      }
      if incoming.bidi.pending {
        incoming := incoming.(bidi := incoming.bidi.(pending := false));
        frames := frames + [MaxStreams(Bidi, incoming.bidi.max)];
      }
      if incoming.uni.pending {
        incoming := incoming.(uni := incoming.uni.(pending := false));
        frames := frames + [MaxStreams(Uni, incoming.uni.max)];
      }
    }

    method TakePings() returns (frames: seq<Frame>)
      modifies this`control
      ensures frames == PingFrames(old(control))
      ensures control == old(control).(pongPending := false, pingPending := false,
                                       nextPing := if old(control).pingPending then old(control).nextPing + 1
                                           else old(control).nextPing)
    {
      frames := [];
      if control.pongPending {
        control := control.(pongPending := false);
        frames := frames + [Ping(true, control.pongSequence)];
      }
      if control.pingPending {
        control := control.(pingPending := false);
        frames := frames + [Ping(false, control.nextPing)];
        control := control.(nextPing := control.nextPing + 1);
      }
    }

    /** Wakes everything that waits on a stream the connection has not forgotten. */
    method HushStreams()
      requires LiveIs(streams, all, false, states) && StreamsAre(all, owned, states, config.streamWindow)
      modifies owned
      ensures StreamsAre(all, owned, HushedAll(states), config.streamWindow)
    {
      hide Stream.Is, Hushed, LiveIs;
      LiveDone(streams, all, states);
      var todo := streams.Keys;
      while todo != {}
        invariant todo <= streams.Keys
        invariant forall id | id in all ::
          && all[id] in owned && all[id].id == id
          && all[id].Is(if id in streams && id !in todo then Hushed(states[id]) else states[id], config.streamWindow)
        decreases |todo|
      {
        var id :| id in todo;
        streams[id].Hush(states[id], config.streamWindow);
        todo := todo - {id};
      }
    }

    method WakeAll()
      modifies this`flow, this`outgoing, this`incoming
      ensures State() == Woken(old(State()))
      ensures incoming.bidi.queue == old(incoming.bidi.queue) && incoming.uni.queue == old(incoming.uni.queue)
    {
      hide Ids;
      flow := flow.(sendSignal := flow.sendSignal.Broadcast());
      outgoing := PerDir(
        outgoing.bidi.(signal := outgoing.bidi.signal.Broadcast()),
            outgoing.uni.(signal := outgoing.uni.signal.Broadcast()));
      incoming := PerDir(
        incoming.bidi.(signal := incoming.bidi.signal.Broadcast()),
            incoming.uni.(signal := incoming.uni.signal.Broadcast()));
    }

    method Shut()
      requires life.handshakeClosed == life.ready
      modifies this`life, this`flow, this`outgoing, this`incoming, this`streams, this`states
      ensures var c := old(State());
        State() == Woken(c.(life := c.life.(closed := true, handshakeClosed := true))).(streams := HushedAll(c.streams))
      ensures incoming.bidi.queue == old(incoming.bidi.queue) && incoming.uni.queue == old(incoming.uni.queue)
      ensures streams == map[] && states == HushedAll(old(states)) && life.closed
    {
      hide Incomings, HushedAll;
      life := life.(closed := true);
      if !life.ready {
        CloseHandshake();
      }
      WakeAll();
      streams := map[];
      states := HushedAll(states);
    }

    /** Ends the connection and wakes everything that waits on it. It says whether this call did. */
    method Terminate() returns (ended: bool)
      requires Valid()
      modifies this, owned
      ensures Valid() && all == old(all) && owned == old(owned)
      ensures State() == Endpoints.Terminate(old(State())) && ended == !old(life.closed)
    {
      hide StreamsAre, Stream.Is, LiveIs, QueueIn, Inv, Hushed, Incomings, Endpoints.Terminate, Woken, HushedAll;
      TerminateInv(State());
      TerminateIs(State());
      if life.closed {
        return false;
      }
      ended := true;
      HandshakeOnce(State());
      LiveNone(streams, all, states);
      HushStreams();
      Shut();
    }
  }

  lemma {:induction false} LiveForgets(streams: Table, all: Table, closed: bool, states: map<StreamId, StreamState>,
      id: StreamId, s: StreamState)
    requires LiveIs(streams, all, closed, states) && id in all && s.done
    ensures LiveIs(streams - {id}, all, closed, states[id := s])
  {
  }

  /** A change that does not forget the stream. */
  lemma {:induction false} LiveKeeps(streams: Table, all: Table, closed: bool, states: map<StreamId, StreamState>,
      id: StreamId, s: StreamState)
    requires LiveIs(streams, all, closed, states) && id in all && s.done == states[id].done
    ensures LiveIs(streams, all, closed, states[id := s])
  {
  }

  lemma {:induction false} KeysAre(all: Table, owned: set<Stream>, states: map<StreamId, StreamState>, window: nat)
    requires StreamsAre(all, owned, states, window)
    ensures all.Keys == states.Keys
  {
  }

  lemma {:induction false} Added(streams: Table, all: Table, owned: set<Stream>, closed: bool,
      states: map<StreamId, StreamState>, window: nat, s: Stream, st: StreamState)
    requires LiveIs(streams, all, closed, states) && StreamsAre(all, owned, states, window)
    requires s.id !in all && !closed && !st.done && s.Is(st, window)
    ensures LiveIs(streams[s.id := s], all[s.id := s], closed, states[s.id := st])
    ensures StreamsAre(all[s.id := s], owned + {s}, states[s.id := st], window)
  {
    hide Stream.Is;
  }

  lemma {:induction false} QueueGrows(queue: seq<Stream>, all: Table, s: Stream)
    requires QueueIn(queue, all) && s.id !in all
    ensures QueueIn(queue, all[s.id := s])
  {
  }

  lemma {:induction false} QueueAppend(queue: seq<Stream>, all: Table, s: Stream)
    requires QueueIn(queue, all) && s.id in all && all[s.id] == s
    ensures QueueIn(queue + [s], all) && Ids(queue + [s]) == Ids(queue) + [s.id]
  {
  }

  lemma {:induction false} InboxCounts(incoming: PerDir<Inbox>, dir: Dir)
    ensures var inc := PerDir(Incomings(incoming.bidi), Incomings(incoming.uni)).Get(dir);
      inc.next == incoming.Get(dir).next && inc.max == incoming.Get(dir).max
  {
  }

  lemma {:induction false} CreateCounts(c: ConnState, dir: Dir)
    ensures var c' := Create(c, dir);
      && c'.life == c.life && c'.incoming.Get(dir).next == c.incoming.Get(dir).next + 1
      && c'.incoming.Get(dir).max == c.incoming.Get(dir).max
  {
  }

  /** What the fields of a stream say about its receiving side. */
  lemma {:induction false} SingleRecv(s: Stream, st: StreamState, window: nat)
    requires s.Is(st, window)
    ensures s.recv.recvOffset == st.recv.recvOffset && s.recv.recvMax == st.recv.recvMax
        && s.recv.finRecv == st.recv.finRecv
    ensures s.recv.recvReset == st.recv.recvReset && s.recv.readCancelled == st.recv.readCancelled
        && s.recv.recvErr == st.recv.recvErr
    ensures s.roff <= |s.rbuf| && s.rbuf[s.roff..] == st.recv.unread && s.IsRecvDone() == RecvDone(st.recv)
  {
  }

  lemma {:induction false} TakeBounds(c: ConnState, id: StreamId, offset: nat, data: seq<byte>, fin: bool)
    requires Inv(c) && id in c.streams && !c.streams[id].recv.finRecv && !c.streams[id].recv.recvReset
        && CanRecv(c.isServer, id)
    requires StreamFault(c, c.streams[id].recv, offset, |data|, fin).None?
    ensures c.flow.consumed + |data| <= c.flow.recvMax && c.streams[id].recv.canRecv
    ensures !c.streams[id].recv.readCancelled ==> |c.streams[id].recv.unread| + |data| <= c.config.streamWindow
  {
    hide Inv;
    FlowOf(c);
    StreamOf(c, id);
  }

  lemma {:induction false} TakeNothing(c: ConnState, id: StreamId, data: seq<byte>, fin: bool)
    requires id in c.streams && (c.streams[id].recv.finRecv || c.streams[id].recv.recvReset)
    ensures TakeStream(c, id, data, fin) == c
  {
  }

  /** Polling leaves what was sent as it is; a ready stream takes at least one byte, from the front. */
  lemma {:induction false} ReadyStep(c: ConnState, id: StreamId, p: seq<byte>)
    requires Inv(c) && id in c.streams && p != []
    ensures var (c1, answer) := TrySend(c, id);
      && id in c1.streams && c1.streams[id].send.sentLog == c.streams[id].send.sentLog
      && (answer.SendReady? ==>
            var (c2, frames) := Reserve(c1, id, p);
            && c1 == c && |frames| == 1 && frames[0].StreamData? && frames[0].id == id && !frames[0].fin
            && 0 < |frames[0].data| <= Min(16357, |p|) && frames[0].data == p[..|frames[0].data|]
            && id in c2.streams && c2.streams[id].send.sentLog == c.streams[id].send.sentLog + frames[0].data)
  {
    hide Inv;
  }

  lemma {:induction false} DataNone(id: StreamId)
    ensures PairTheorems.DataOf([], id) == []
  {
  }

  lemma {:induction false} PrefixGrows(p: seq<byte>, total: nat, n: nat)
    requires total + n <= |p|
    ensures p[..total] + p[total..][..n] == p[..total + n]
  {
  }

  lemma {:induction false} DataAppend(frames: seq<Frame>, f: Frame, id: StreamId)
    requires f.StreamData? && f.id == id
    ensures PairTheorems.DataOf(frames + [f], id) == PairTheorems.DataOf(frames, id) + f.data
  {
    assert (frames + [f])[..|frames|] == frames;
  }

  lemma {:induction false} SingleSend(s: Stream, st: StreamState, window: nat)
    requires s.Is(st, window)
    ensures s.send.sendOffset == st.send.sendOffset && s.send.sendMax == st.send.sendMax
        && s.send.finSent == st.send.finSent
    ensures s.send.sendErr == st.send.sendErr && s.IsSendDone() == SendDone(st.send)
  {
  }

  lemma {:induction false} ResetBounds(c: ConnState, id: StreamId, finalSize: nat)
    requires Inv(c) && id in c.streams && ResetFault(c, c.streams[id].recv, finalSize).None?
        && !c.streams[id].recv.recvReset
    ensures c.streams[id].recv.recvOffset <= finalSize
    ensures c.flow.consumed + (finalSize - c.streams[id].recv.recvOffset)
        + |c.streams[id].recv.unread| <= c.flow.recvMax
  {
    hide Inv;
    FlowOf(c);
    StreamOf(c, id);
  }

  lemma {:induction false} ResetNothing(c: ConnState, id: StreamId, code: nat, finalSize: nat)
    requires id in c.streams && c.streams[id].recv.recvReset && c.streams[id].recv.recvOffset <= finalSize
    ensures TakeReset(c, id, code, finalSize) == c
  {
  }

  lemma {:induction false} ParametersInv(c: ConnState, p: Parameters)
    requires Inv(c) && !c.life.ready && !c.life.closed
    ensures Inv(HandleParameters(c, p)) && !c.life.handshakeClosed
  {
    hide Inv;
    HandleFrameInv(c, TransportParameters(p));
    Parts(c);
  }

  lemma {:induction false} IncomingsOf(incoming: PerDir<Inbox>, dir: Dir)
    ensures PerDir(Incomings(incoming.bidi), Incomings(incoming.uni)).Get(dir) == Incomings(incoming.Get(dir))
    ensures Incomings(incoming.Get(dir)).queue == Ids(incoming.Get(dir).queue)
    ensures Incomings(incoming.Get(dir)).signal == incoming.Get(dir).signal
  {
  }

  lemma {:induction false} IncomingsPut(incoming: PerDir<Inbox>, dir: Dir, inbox: Inbox)
    ensures var p := Put(incoming, dir, inbox);
      PerDir(Incomings(p.bidi), Incomings(p.uni)) == Put(PerDir(Incomings(incoming.bidi), Incomings(incoming.uni)),
          dir, Incomings(inbox))
    ensures inbox == incoming.Get(dir).(signal := inbox.signal) ==>
      Incomings(inbox) == Incomings(incoming.Get(dir)).(signal := inbox.signal)
    ensures incoming.Get(dir).queue != [] && inbox == incoming.Get(dir).(queue := incoming.Get(dir).queue[1..]) ==>
      Incomings(inbox) == Incomings(incoming.Get(dir)).(queue := Ids(incoming.Get(dir).queue)[1..])
  {
  }

  lemma {:induction false} QueueTail(queue: seq<Stream>, all: Table)
    requires QueueIn(queue, all) && queue != []
    ensures QueueIn(queue[1..], all) && queue[0].id in all && all[queue[0].id] == queue[0]
        && Ids(queue)[0] == queue[0].id
  {
    assert queue[0] in queue;
  }

  lemma {:induction false} OwnedOf(all: Table, owned: set<Stream>, states: map<StreamId, StreamState>, window: nat,
      s: Stream)
    requires StreamsAre(all, owned, states, window) && s.id in all && all[s.id] == s
    ensures s in owned
  {
  }

  lemma {:induction false} ReadBounds(c: ConnState, id: StreamId)
    requires Inv(c) && id in c.streams
    ensures var r := c.streams[id].recv;
      c.flow.consumed + |r.unread| <= c.flow.recvMax && r.readOffset + |r.unread| <= r.recvMax
  {
    hide Inv;
    FlowOf(c);
    StreamOf(c, id);
  }

  ghost function HushedAll(states: map<StreamId, StreamState>): map<StreamId, StreamState> {
    map id | id in states :: Hushed(states[id])
  }

  /** Everyone who waits on the connection itself is woken. */
  ghost function Woken(c: ConnState): ConnState {
    c.(flow := c.flow.(sendSignal := c.flow.sendSignal.Broadcast()),
       outgoing := PerDir(
         c.outgoing.bidi.(signal := c.outgoing.bidi.signal.Broadcast()),
         c.outgoing.uni.(signal := c.outgoing.uni.signal.Broadcast())),
       incoming := PerDir(
         c.incoming.bidi.(signal := c.incoming.bidi.signal.Broadcast()),
         c.incoming.uni.(signal := c.incoming.uni.signal.Broadcast())))
  }

  lemma {:induction false} TerminateIs(c: ConnState)
    ensures c.life.closed ==> Terminate(c) == c
    ensures !c.life.closed ==>
      Terminate(c) == Woken(c.(life := c.life.(closed := true,
          handshakeClosed := true))).(streams := HushedAll(c.streams))
  {
  }

  lemma {:induction false} LiveDone(streams: Table, all: Table, states: map<StreamId, StreamState>)
    requires LiveIs(streams, all, false, states)
    ensures all.Keys == states.Keys
    ensures forall id | id in streams :: id in all && streams[id] == all[id] && !states[id].done
    ensures forall id | id in all && id !in streams :: Hushed(states[id]) == states[id]
  {
  }

  lemma {:induction false} LiveNone(streams: Table, all: Table, states: map<StreamId, StreamState>)
    requires LiveIs(streams, all, false, states)
    ensures LiveIs(map[], all, true, HushedAll(states))
  {
    assert HushedAll(states).Keys == states.Keys;
  }

  /** The handshake is over exactly if the peer's parameters are in or the connection has ended. */
  lemma {:induction false} HandshakeOnce(c: ConnState)
    requires Inv(c) && !c.life.closed
    ensures c.life.handshakeClosed == c.life.ready
  {
    hide Inv;
    Parts(c);
  }

  /**
   The buffer of every stream, at every moment: its offset is zero or within it, what
   is unread fits the window, and its capacity is at most two windows.
   */
  lemma {:induction false} BufferBounded(c: Conn, id: StreamId)
    requires c.Valid() && id in c.all
    ensures var s := c.all[id];
      && (s.roff == 0 || s.roff < |s.rbuf|)
      && |s.rbuf| - s.roff <= c.config.streamWindow
      && |s.rbuf| <= s.rcap <= 2 * c.config.streamWindow
  {
    hide Inv;
    StreamOf(c.State(), id);
  }
}
