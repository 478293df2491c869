/**
 What one endpoint keeps, whatever its peer sends and whatever its application
 calls: conservation of received data, windows, stream slots, the accept queue
 and the meaning of every armed signal.
 */
module EndpointInvariants {
  import opened Basics
  import opened StreamIds
  import opened Frames
  import opened Endpoints

  // -------------------------------------------------------------- one stream

  ghost predicate RecvOk(r: RecvHalf, window: nat) {
    && (!r.canRecv ==> r.recvMax == 0 && !r.finRecv && !r.recvReset && !r.readCancelled)
    && r.readOffset <= |r.recvLog| <= r.recvOffset <= r.recvMax <= r.readOffset + window
    && (!r.recvReset ==> |r.recvLog| == r.recvOffset)
    && (if r.readCancelled || r.recvReset then r.unread == [] else r.unread == r.recvLog[r.readOffset..])
    && (r.recvErr.Some? <==> r.readCancelled || r.recvReset)
    && (r.canRecv && !r.finRecv && r.recvErr.None? ==> r.recvMax - r.readOffset >= window / 2)
    && (r.readSignal.armed ==> r.canRecv && !r.finRecv && r.recvErr.None?)
  }

  ghost predicate SendOk(w: SendHalf) {
    && |w.sentLog| == w.sendOffset <= w.sendMax
    && !(w.finSent && w.sendErr.Some?)
    && (!w.canSend ==> w.sendMax == 0 && !w.finSent && w.sendErr.None?)
    && (w.writeSignal.armed ==> !SendDone(w))
  }

  ghost predicate StreamOk(isServer: bool, window: nat, id: StreamId, s: StreamState) {
    && s.recv.canRecv == CanRecv(isServer, id)
    && s.send.canSend == CanSend(isServer, id)
    && RecvOk(s.recv, window)
    && SendOk(s.send)
  }

  /** A stream is forgotten exactly when the application holds it and both directions have ended. */
  ghost predicate Settled(s: StreamState) {
    s.done <==> s.accepted && RecvDone(s.recv) && SendDone(s.send)
  }

  // ------------------------------------------------- unread data, all streams

  ghost function Unread(s: StreamState): nat {
    |s.recv.unread|
  }

  ghost function UnreadTotal(m: map<StreamId, StreamState>): nat
    decreases |m|
  {
    if m == map[] then 0
    else
      var id :| id in m;
      assert |m - {id}| < |m| by { assert (m - {id}).Keys == m.Keys - {id}; }
      Unread(m[id]) + UnreadTotal(m - {id})
  }

  lemma {:induction false} UnreadRemove(m: map<StreamId, StreamState>, id: StreamId)
    requires id in m
    ensures UnreadTotal(m) == Unread(m[id]) + UnreadTotal(m - {id})
    decreases |m|
  {
    var k :| k in m && UnreadTotal(m) == Unread(m[k]) + UnreadTotal(m - {k});
    if k != id {
      assert (m - {k}).Keys == m.Keys - {k};
      assert (m - {id}).Keys == m.Keys - {id};
      UnreadRemove(m - {k}, id);
      UnreadRemove(m - {id}, k);
      assert m - {k} - {id} == m - {id} - {k};
    }
  }

  lemma {:induction false} UnreadUpdate(m: map<StreamId, StreamState>, id: StreamId, s: StreamState)
    ensures UnreadTotal(m[id := s]) == Unread(s) + UnreadTotal(m) - (if id in m then Unread(m[id]) else 0)
  {
    UnreadRemove(m[id := s], id);
    assert m[id := s] - {id} == m - {id};
    if id in m {
      UnreadRemove(m, id);
    } else {
      assert m - {id} == m;
    }
  }

  lemma {:induction false} UnreadSame(m: map<StreamId, StreamState>, m': map<StreamId, StreamState>)
    requires m.Keys == m'.Keys
    requires forall id | id in m :: Unread(m[id]) == Unread(m'[id])
    ensures UnreadTotal(m) == UnreadTotal(m')
    decreases |m|
  {
    if m != map[] {
      var k :| k in m && UnreadTotal(m) == Unread(m[k]) + UnreadTotal(m - {k});
      assert k in m.Keys;
      UnreadRemove(m', k);
      assert (m - {k}).Keys == m.Keys - {k};
      assert (m' - {k}).Keys == m'.Keys - {k};
      UnreadSame(m - {k}, m' - {k});
    } else {
      assert m'.Keys == {};
      assert m' == map[];
    }
  }

  // ----------------------------------------------------------- the connection

  type Streams = map<StreamId, StreamState>

  ghost predicate StreamsOk(isServer: bool, window: nat, streams: Streams) {
    forall id | id in streams :: StreamOk(isServer, window, id, streams[id])
  }

  ghost predicate SettledBut(streams: Streams, but: Option<StreamId>) {
    forall id | id in streams :: Some(id) == but || Settled(streams[id])
  }

  /** How many streams of a kind and an initiator have existed. */
  function Next(isServer: bool, outgoing: PerDir<Outgoing>, incoming: PerDir<Incoming>, id: StreamId): nat {
    if Local(isServer, id) then outgoing.Get(id.dir).next else incoming.Get(id.dir).next
  }

  /** The streams that exist are those numbered below the two counters. */
  ghost predicate KeysOk(isServer: bool, outgoing: PerDir<Outgoing>, incoming: PerDir<Incoming>, streams: Streams) {
    forall id: StreamId :: id in streams <==> id.index < Next(isServer, outgoing, incoming, id)
  }

  ghost predicate FlowOk(f: Flow, window: nat, unread: int) {
    && f.received == f.consumed + unread
    && f.received <= f.recvMax <= f.consumed + window
    && f.recvMax - f.consumed >= window / 2
    && f.sent <= f.sendMax
  }

  /** A stream of this kind that the peer opened. */
  predicate Theirs(isServer: bool, dir: Dir, id: StreamId) {
    id.dir == dir && !Local(isServer, id)
  }

  /** The peer's streams of a kind that have completed. */
  ghost function Completed(isServer: bool, dir: Dir, streams: Streams): set<StreamId> {
    set id | id in streams && Theirs(isServer, dir, id) && streams[id].done
  }

  /** The accept queue is exactly the peer's newest streams, oldest first, and those are the ones not accepted. */
  ghost predicate QueueOk(isServer: bool, dir: Dir, inc: Incoming, streams: Streams) {
    && |inc.queue| <= inc.next
    && (forall i | 0 <= i < |inc.queue| :: inc.queue[i] == StreamId(inc.next - |inc.queue| + i, dir, !isServer))
    && (forall id | id in streams && Theirs(isServer, dir, id) ::
          streams[id].accepted <==> id.index < inc.next - |inc.queue|)
  }

  ghost predicate SlotsOk(isServer: bool, dir: Dir, limit: nat, inc: Incoming, streams: Streams) {
    && inc.next <= inc.max
    && inc.max == limit + |Completed(isServer, dir, streams)|
    && QueueOk(isServer, dir, inc, streams)
  }

  ghost predicate CountersOk(inc: Incoming, out: Outgoing, closed: bool) {
    && out.next <= out.max
    && (inc.signal.armed ==> inc.queue == [] && !closed)
    && (out.signal.armed ==> out.next >= out.max && !closed)
  }

  ghost predicate Asleep(s: StreamState) {
    !s.recv.readSignal.armed && !s.send.writeSignal.armed
  }

  ghost predicate OursAccepted(isServer: bool, streams: Streams) {
    forall id | id in streams && Local(isServer, id) :: streams[id].accepted
  }

  ghost predicate AllAsleep(streams: Streams) {
    forall id | id in streams :: Asleep(streams[id])
  }

  ghost predicate LifeOk(life: Life, flow: Flow, outgoing: PerDir<Outgoing>, streams: Streams) {
    && (!life.ready ==>
          && streams == map[] && flow.sendMax == 0 && life.peer == NO_PARAMETERS
          && outgoing.bidi.max == 0 && outgoing.uni.max == 0)
    && (life.handshakeClosed <==> life.ready || life.closed)
    && (life.closed ==> !flow.sendSignal.armed)
    && (life.closed ==> AllAsleep(streams))
  }

  /** All that does not count unread data and need not be settled. */
  ghost predicate Skeleton(c: ConnState) {
    match c
    case ConnState(isServer, config, life, streams, outgoing, incoming, flow, _) =>
      && StreamsOk(isServer, config.streamWindow, streams)
      && KeysOk(isServer, outgoing, incoming, streams)
      && SlotsOk(isServer, Bidi, config.maxStreams.bidi, incoming.bidi, streams)
      && SlotsOk(isServer, Uni, config.maxStreams.uni, incoming.uni, streams)
      && CountersOk(incoming.bidi, outgoing.bidi, life.closed)
      && CountersOk(incoming.uni, outgoing.uni, life.closed)
      && OursAccepted(isServer, streams)
      && LifeOk(life, flow, outgoing, streams)
  }

  ghost predicate Core(c: ConnState) {
    match c
    case ConnState(_, config, _, streams, _, _, flow, _) =>
      Skeleton(c) && FlowOk(flow, config.connWindow, UnreadTotal(streams))
  }

  ghost predicate Inv(c: ConnState) {
    match c
    case ConnState(_, _, _, streams, _, _, _, _) => Core(c) && SettledBut(streams, None)
  }

  // ---------------------------------------------------------- building blocks

  lemma {:induction false} InitInv(config: Config, isServer: bool)
    ensures Inv(Init(config, isServer))
  {
    assert Completed(isServer, Bidi, map[]) == {} && Completed(isServer, Uni, map[]) == {};
  }

  lemma {:induction false} UpdateKeys(isServer: bool, outgoing: PerDir<Outgoing>, incoming: PerDir<Incoming>,
      streams: Streams, id: StreamId, s: StreamState)
    requires KeysOk(isServer, outgoing, incoming, streams) && id in streams
    ensures KeysOk(isServer, outgoing, incoming, streams[id := s])
  {
    forall i: StreamId ensures i in streams[id := s] <==> i.index < Next(isServer, outgoing, incoming, i) {
      assert i in streams <==> i.index < Next(isServer, outgoing, incoming, i);
    }
  }

  lemma {:induction false} UpdateSlots(isServer: bool, dir: Dir, limit: nat, inc: Incoming, streams: Streams,
      id: StreamId, s: StreamState)
    requires SlotsOk(isServer, dir, limit, inc, streams) && id in streams
    requires s.done == streams[id].done && s.accepted == streams[id].accepted
    ensures SlotsOk(isServer, dir, limit, inc, streams[id := s])
  {
    assert Completed(isServer, dir, streams[id := s]) == Completed(isServer, dir, streams);
  }

  lemma {:induction false} UpdateStreams(isServer: bool, window: nat, streams: Streams, id: StreamId, s: StreamState)
    requires StreamsOk(isServer, window, streams) && StreamOk(isServer, window, id, s)
    ensures StreamsOk(isServer, window, streams[id := s])
  {
  }

  lemma {:induction false} UpdateAccepted(isServer: bool, streams: Streams, id: StreamId, s: StreamState)
    requires OursAccepted(isServer, streams) && (Local(isServer, id) ==> s.accepted)
    ensures OursAccepted(isServer, streams[id := s])
  {
  }

  lemma {:induction false} UpdateAsleep(streams: Streams, id: StreamId, s: StreamState)
    requires AllAsleep(streams) && Asleep(s)
    ensures AllAsleep(streams[id := s])
  {
  }

  lemma {:induction false} UpdateSettled(streams: Streams, id: StreamId, s: StreamState)
    requires SettledBut(streams, Some(id)) || SettledBut(streams, None)
    ensures SettledBut(streams[id := s], Some(id))
    ensures Settled(s) ==> SettledBut(streams[id := s], None)
  {
  }

  /** What depends neither on the counters nor on the slots. */
  lemma {:induction false} UpdateRest(c: ConnState, id: StreamId, s: StreamState)
    requires Skeleton(c) && id in c.streams
    requires StreamOk(c.isServer, c.config.streamWindow, id, s)
    requires s.accepted == c.streams[id].accepted
    requires c.life.closed ==> Asleep(s)
    ensures StreamsOk(c.isServer, c.config.streamWindow, c.streams[id := s])
    ensures KeysOk(c.isServer, c.outgoing, c.incoming, c.streams[id := s])
    ensures OursAccepted(c.isServer, c.streams[id := s])
    ensures LifeOk(c.life, c.flow, c.outgoing, c.streams[id := s])
  {
    UpdateStreams(c.isServer, c.config.streamWindow, c.streams, id, s);
    UpdateKeys(c.isServer, c.outgoing, c.incoming, c.streams, id, s);
    UpdateAccepted(c.isServer, c.streams, id, s);
    if c.life.closed {
      UpdateAsleep(c.streams, id, s);
    }
  }

  /** Changing one stream, and nothing the slots depend on, keeps all but the totals. */
  lemma {:induction false} SetStreamFrame(c: ConnState, id: StreamId, s: StreamState)
    requires Skeleton(c) && id in c.streams
    requires StreamOk(c.isServer, c.config.streamWindow, id, s)
    requires s.done == c.streams[id].done && s.accepted == c.streams[id].accepted
    requires c.life.closed ==> Asleep(s)
    ensures Skeleton(SetStream(c, id, s))
  {
    UpdateRest(c, id, s);
    UpdateSlots(c.isServer, Bidi, c.config.maxStreams.bidi, c.incoming.bidi, c.streams, id, s);
    UpdateSlots(c.isServer, Uni, c.config.maxStreams.uni, c.incoming.uni, c.streams, id, s);
  }

  lemma {:induction false} ConsumingFlow(f: Flow, n: nat, window: nat, unread: int)
    requires unread >= 0
    requires f.received == f.consumed + n + unread
    requires f.received <= f.recvMax <= f.consumed + window
    requires f.sent <= f.sendMax
    ensures FlowOk(Consuming(f, n, window).0, window, unread)
    ensures Consuming(f, n, window).0.recvMax >= f.recvMax
  {
  }

  // -------------------------------------------------------- completing a stream

  lemma {:induction false} CompleteSlots(isServer: bool, dir: Dir, limit: nat, inc: Incoming, inc': Incoming,
      streams: Streams, id: StreamId, s: StreamState)
    requires SlotsOk(isServer, dir, limit, inc, streams) && id in streams
    requires !streams[id].done && s.done && s.accepted == streams[id].accepted
    requires inc'.next == inc.next && inc'.queue == inc.queue
    requires inc'.max == inc.max + (if Theirs(isServer, dir, id) then 1 else 0)
    ensures SlotsOk(isServer, dir, limit, inc', streams[id := s])
  {
    var before := Completed(isServer, dir, streams);
    var after := Completed(isServer, dir, streams[id := s]);
    assert id !in before;
    if Theirs(isServer, dir, id) {
      assert after == before + {id};
    } else {
      assert after == before;
    }
  }

  /** What completing a stream amounts to. */
  lemma {:induction false} CompleteShape(c: ConnState, id: StreamId)
    requires id in c.streams && Completes(c.streams[id])
    requires StreamOk(c.isServer, c.config.streamWindow, id, c.streams[id])
    ensures var c' := Complete(c, id);
      && c' == c.(streams := c.streams[id := c.streams[id].(done := true)], incoming := c'.incoming,
          control := c'.control)
      && FreesSlot(c.isServer, Bidi, id, c.incoming.bidi, c'.incoming.bidi)
      && FreesSlot(c.isServer, Uni, id, c.incoming.uni, c'.incoming.uni)
  {
    var s := c.streams[id];
    assert s.(done := true, recv := s.recv.(unread := [])) == s.(done := true)
        by { DoneEmpty(c.isServer, c.config.streamWindow, id, s); }
    hide StreamOk, Completes;
  }

  /** A stream that completes has nothing left to read. */
  lemma {:induction false} DoneEmpty(isServer: bool, window: nat, id: StreamId, s: StreamState)
    requires Completes(s) && StreamOk(isServer, window, id, s)
    ensures s.recv.unread == []
  {
  }

  ghost predicate FreesSlot(isServer: bool, dir: Dir, id: StreamId, inc: Incoming, inc': Incoming) {
    inc' == if Theirs(isServer, dir, id) then inc.(max := inc.max + 1, pending := true) else inc
  }

  lemma {:induction false} SameKeys(isServer: bool, outgoing: PerDir<Outgoing>, incoming: PerDir<Incoming>,
      incoming': PerDir<Incoming>, streams: Streams)
    requires KeysOk(isServer, outgoing, incoming, streams)
    requires incoming.bidi.next == incoming'.bidi.next && incoming.uni.next == incoming'.uni.next
    ensures KeysOk(isServer, outgoing, incoming', streams)
  {
    forall i: StreamId ensures i in streams <==> i.index < Next(isServer, outgoing, incoming', i) {
      assert i in streams <==> i.index < Next(isServer, outgoing, incoming, i);
    }
  }

  /** Skeleton says these, and they make it. */
  lemma {:induction false} SkeletonParts(c: ConnState)
    requires Skeleton(c)
    ensures StreamsOk(c.isServer, c.config.streamWindow, c.streams)
    ensures KeysOk(c.isServer, c.outgoing, c.incoming, c.streams)
    ensures SlotsOk(c.isServer, Bidi, c.config.maxStreams.bidi, c.incoming.bidi, c.streams)
    ensures SlotsOk(c.isServer, Uni, c.config.maxStreams.uni, c.incoming.uni, c.streams)
    ensures CountersOk(c.incoming.bidi, c.outgoing.bidi, c.life.closed)
    ensures CountersOk(c.incoming.uni, c.outgoing.uni, c.life.closed)
    ensures OursAccepted(c.isServer, c.streams) && LifeOk(c.life, c.flow, c.outgoing, c.streams)
  {
    hide StreamsOk, KeysOk, SlotsOk, CountersOk, OursAccepted, LifeOk;
  }

  lemma {:induction false} CompleteFrame(c: ConnState, id: StreamId)
    requires Skeleton(c) && id in c.streams && Completes(c.streams[id])
    ensures Skeleton(Complete(c, id))
  {
    hide StreamsOk, KeysOk, SlotsOk, OursAccepted, LifeOk, Complete, Completes;
    SkeletonParts(c);
    var s := c.streams[id];
    var s1 := s.(done := true);
    var c' := Complete(c, id);
    StreamOkOf(c, id);
    CompleteShape(c, id);
    DoneOk(c, id);
    UpdateRest(c, id, s1);
    SameKeys(c.isServer, c.outgoing, c.incoming, c'.incoming, c'.streams);
    CompleteSlots(c.isServer, Bidi, c.config.maxStreams.bidi, c.incoming.bidi, c'.incoming.bidi, c.streams, id, s1);
    CompleteSlots(c.isServer, Uni, c.config.maxStreams.uni, c.incoming.uni, c'.incoming.uni, c.streams, id, s1);
  }

  lemma {:induction false} DoneOk(c: ConnState, id: StreamId)
    requires Skeleton(c) && id in c.streams && Completes(c.streams[id])
    ensures !c.streams[id].done && (c.life.closed ==> Asleep(c.streams[id].(done := true)))
    ensures StreamOk(c.isServer, c.config.streamWindow, id, c.streams[id].(done := true))
  {
  }

  lemma {:induction false} StreamOkOf(c: ConnState, id: StreamId)
    requires Skeleton(c) && id in c.streams
    ensures StreamOk(c.isServer, c.config.streamWindow, id, c.streams[id])
  {
  }

  lemma {:induction false} MakeInv(c: ConnState)
    requires Skeleton(c) && FlowOk(c.flow, c.config.connWindow, UnreadTotal(c.streams)) && SettledBut(c.streams, None)
    ensures Inv(c)
  {
  }

  lemma {:induction false} CompleteInv(c: ConnState, id: StreamId)
    requires Core(c) && SettledBut(c.streams, Some(id)) && id in c.streams
    requires c.streams[id].done ==> Settled(c.streams[id])
    ensures Inv(Complete(c, id))
  {
    hide Skeleton, Inv;
    var s := c.streams[id];
    if Completes(s) {
      assert StreamOk(c.isServer, c.config.streamWindow, id, s) by { StreamOkOf(c, id); }
      CompleteFrame(c, id);
      CompleteShape(c, id);
      UnreadUpdate(c.streams, id, s.(done := true));
      UpdateSettled(c.streams, id, s.(done := true));
      MakeInv(Complete(c, id));
    } else {
      MakeInv(c) by {
        UpdateSettled(c.streams, id, s);
        assert c.streams[id := s] == c.streams;
      }
    }
  }

  // ------------------------------------------- changing one stream and the flow

  function Edit(c: ConnState, id: StreamId, s: StreamState, flow: Flow, control: Control): ConnState {
    c.(streams := c.streams[id := s], flow := flow, control := control)
  }

  lemma {:induction false} EditCore(c: ConnState, id: StreamId, s: StreamState, flow: Flow, control: Control)
    requires Inv(c) && id in c.streams
    requires StreamOk(c.isServer, c.config.streamWindow, id, s)
    requires s.done == c.streams[id].done && s.accepted == c.streams[id].accepted
    requires c.life.closed ==> Asleep(s) && !flow.sendSignal.armed
    requires FlowOk(flow, c.config.connWindow, UnreadTotal(c.streams[id := s]))
    ensures Core(Edit(c, id, s, flow, control))
    ensures SettledBut(Edit(c, id, s, flow, control).streams, Some(id))
    ensures Settled(s) ==> Inv(Edit(c, id, s, flow, control))
  {
    SetStreamFrame(c, id, s);
    UpdateSettled(c.streams, id, s);
  }

  lemma {:induction false} EditThenComplete(c: ConnState, id: StreamId, s: StreamState, flow: Flow, control: Control)
    requires Inv(c) && id in c.streams
    requires StreamOk(c.isServer, c.config.streamWindow, id, s)
    requires !s.done && !c.streams[id].done && s.accepted == c.streams[id].accepted
    requires c.life.closed ==> Asleep(s) && !flow.sendSignal.armed
    requires FlowOk(flow, c.config.connWindow, UnreadTotal(c.streams) - Unread(c.streams[id]) + Unread(s))
    ensures Inv(Complete(Edit(c, id, s, flow, control), id))
  {
    hide Skeleton, Core, Inv;
    UnreadUpdate(c.streams, id, s);
    EditCore(c, id, s, flow, control);
    CompleteInv(Edit(c, id, s, flow, control), id);
  }

  /** As EditThenComplete, with n bytes consumed in between. */
  lemma {:induction false} EditConsumeComplete(c: ConnState, id: StreamId, s: StreamState, flow: Flow, n: nat,
      c1: ConnState)
    requires Inv(c) && id in c.streams
    requires StreamOk(c.isServer, c.config.streamWindow, id, s)
    requires !s.done && !c.streams[id].done && s.accepted == c.streams[id].accepted
    requires c.life.closed ==> Asleep(s)
    requires flow == c.flow.(received := flow.received)
    requires flow.received == flow.consumed + n + UnreadTotal(c.streams) - Unread(c.streams[id])
        + Unread(s) <= flow.recvMax
    requires c1 == c.(streams := c.streams[id := s], flow := Consuming(flow, n, c.config.connWindow).0,
        control := c1.control)
    ensures Inv(Complete(c1, id))
  {
    hide Skeleton, Core, Inv;
    FlowOf(c);
    StreamOf(c, id);
    ConsumingFlow(flow, n, c.config.connWindow, UnreadTotal(c.streams) - Unread(c.streams[id]) + Unread(s));
    EditThenComplete(c, id, s, c1.flow, c1.control);
  }

  lemma {:induction false} FlowOf(c: ConnState)
    requires Inv(c)
    ensures FlowOk(c.flow, c.config.connWindow, UnreadTotal(c.streams))
    ensures c.life.closed ==> !c.flow.sendSignal.armed
  {
  }

  lemma {:induction false} StreamOf(c: ConnState, id: StreamId)
    requires Inv(c) && id in c.streams
    ensures StreamOk(c.isServer, c.config.streamWindow, id, c.streams[id])
    ensures Settled(c.streams[id])
    ensures Unread(c.streams[id]) <= UnreadTotal(c.streams)
    ensures c.life.closed ==> Asleep(c.streams[id])
    ensures c.life.ready
  {
    UnreadRemove(c.streams, id);
  }

  // --------------------------------------------------------- data and its end

  lemma {:induction false} AcceptingOk(r: RecvHalf, data: seq<byte>, fin: bool, window: nat)
    requires RecvOk(r, window) && r.canRecv && !r.finRecv && !r.recvReset
    requires r.recvOffset + |data| <= r.recvMax
    ensures RecvOk(Accepting(r, data, fin), window)
  {
    if !r.readCancelled {
      assert (r.recvLog + data)[r.readOffset..] == r.recvLog[r.readOffset..] + data;
    }
  }

  lemma {:induction false} TakeStreamInv(c: ConnState, id: StreamId, offset: nat, data: seq<byte>, fin: bool)
    requires Inv(c) && id in c.streams && !c.streams[id].done && CanRecv(c.isServer, id)
    requires StreamFault(c, c.streams[id].recv, offset, |data|, fin).None?
    ensures Inv(TakeStream(c, id, data, fin))
  {
    hide Skeleton, Core, Inv;
    var s := c.streams[id];
    if !s.recv.finRecv && !s.recv.recvReset {
      FlowOf(c);
      StreamOf(c, id);
      AcceptingOk(s.recv, data, fin, c.config.streamWindow);
      var s1 := s.(recv := Accepting(s.recv, data, fin));
      var f1 := c.flow.(received := c.flow.received + |data|);
      var c1 := SetStream(c, id, s1).(flow := f1);
      if s.recv.readCancelled {
        EditConsumeComplete(c, id, s1, f1, |data|, Consume(c1, |data|));
      } else {
        EditThenComplete(c, id, s1, f1, c.control);
        assert Edit(c, id, s1, f1, c.control) == c1;
      }
    }
  }

  lemma {:induction false} ResettingOk(r: RecvHalf, code: nat, finalSize: nat, window: nat)
    requires RecvOk(r, window) && r.canRecv && !r.recvReset
    requires r.recvOffset <= finalSize <= r.recvMax
    ensures RecvOk(Resetting(r, code, finalSize), window)
  {
  }

  lemma {:induction false} TakeResetInv(c: ConnState, id: StreamId, code: nat, finalSize: nat)
    requires Inv(c) && id in c.streams && !c.streams[id].done && CanRecv(c.isServer, id)
    requires ResetFault(c, c.streams[id].recv, finalSize).None?
    ensures Inv(TakeReset(c, id, code, finalSize))
  {
    hide Skeleton, Core, Inv;
    var s := c.streams[id];
    if !s.recv.recvReset {
      FlowOf(c);
      StreamOf(c, id);
      ResettingOk(s.recv, code, finalSize, c.config.streamWindow);
      var s1 := s.(recv := Resetting(s.recv, code, finalSize));
      var skipped := finalSize - s.recv.recvOffset;
      var f1 := c.flow.(received := c.flow.received + skipped);
      var n := skipped + |s.recv.unread|;
      EditConsumeComplete(c, id, s1, f1, n, Consume(SetStream(c, id, s1).(flow := f1), n));
    }
  }

  // ----------------------------------------------------------------- reading

  lemma {:induction false} ReadingOk(r: RecvHalf, n: nat, window: nat)
    requires RecvOk(r, window) && r.canRecv && n <= |r.unread| && r.recvErr.None?
    ensures RecvOk(Reading(r, n, window).0, window)
    ensures Reading(r, n, window).0.recvMax >= r.recvMax
  {
    assert r.recvLog[r.readOffset..][n..] == r.recvLog[r.readOffset + n..];
  }

  lemma {:induction false} TakeInv(c: ConnState, id: StreamId, k: nat)
    requires Inv(c) && id in c.streams && !c.life.closed && c.streams[id].recv.recvErr.None?
    requires 0 <= k <= |c.streams[id].recv.unread| && c.streams[id].recv.unread != []
    ensures Inv(Take(c, id, k))
  {
    hide Skeleton, Core, Inv;
    var s := c.streams[id];
    FlowOf(c);
    StreamOf(c, id);
    assert s.recv.canRecv;
    ReadingOk(s.recv, k, c.config.streamWindow);
    var (r, extended) := Reading(s.recv, k, c.config.streamWindow);
    var s1 := s.(recv := r);
    var c1 := Consume(SetStream(c, id, s1), k);
    EditConsumeComplete(c, id, s1, c.flow, k, if extended then Queue(c1, MaxStreamData(id, r.recvMax)) else c1);
  }

  lemma {:induction false} WaitToReadInv(c: ConnState, id: StreamId)
    requires Inv(c) && id in c.streams && !c.life.closed && CanRecv(c.isServer, id)
    requires c.streams[id].recv.recvErr.None? && !c.streams[id].recv.finRecv
    ensures Inv(WaitToRead(c, id).0)
  {
    hide Skeleton, Core, Inv;
    FlowOf(c);
    var s := c.streams[id];
    var s1 := s.(recv := s.recv.(readSignal := s.recv.readSignal.Wait()));
    StreamOf(c, id);
    UnreadUpdate(c.streams, id, s1);
    EditCore(c, id, s1, c.flow, c.control);
    assert Edit(c, id, s1, c.flow, c.control) == SetStream(c, id, s1);
  }

  lemma {:induction false} TryReadInv(c: ConnState, id: StreamId, n: nat)
    requires Inv(c) && id in c.streams && CanRecv(c.isServer, id)
    ensures Inv(TryRead(c, id, n).0)
  {
    hide Skeleton, Core, Inv;
    var r := c.streams[id].recv;
    if !c.life.closed && r.recvErr.None? {
      if r.unread != [] {
        TakeInv(c, id, Min(n, |r.unread|));
      } else if !r.finRecv {
        WaitToReadInv(c, id);
      }
    }
  }

  lemma {:induction false} TryPeekInv(c: ConnState, id: StreamId, n: nat)
    requires Inv(c) && id in c.streams && CanRecv(c.isServer, id)
    ensures Inv(TryPeek(c, id, n).0)
  {
    hide Skeleton, Core, Inv;
    var r := c.streams[id].recv;
    if !c.life.closed && r.recvErr.None? && |r.unread| < n && !r.finRecv {
      WaitToReadInv(c, id);
    }
  }

  lemma {:induction false} CancelReadInv(c: ConnState, id: StreamId, code: nat)
    requires Inv(c) && id in c.streams
    ensures Inv(CancelRead(c, id, code))
  {
    hide Skeleton, Core, Inv;
    var s := c.streams[id];
    if !c.life.closed && s.recv.recvErr.None? && !RecvDone(s.recv) {
      FlowOf(c);
      StreamOf(c, id);
      var r := Cancelling(s.recv, code);
      var s1 := s.(recv := r);
      assert RecvOk(r, c.config.streamWindow);
      var n := |s.recv.unread|;
      var c1 := Consume(SetStream(c, id, s1), n);
      EditConsumeComplete(c, id, s1, c.flow, n, if r.finRecv then c1 else Queue(c1, StopSending(id, code)));
    }
  }

  // ----------------------------------------------------------------- sending

  lemma {:induction false} ResetSendInv(c: ConnState, id: StreamId, reason: StreamError)
    requires Inv(c) && id in c.streams
    ensures Inv(ResetSend(c, id, reason))
  {
    hide Skeleton, Core, Inv;
    var s := c.streams[id];
    if !SendDone(s.send) {
      FlowOf(c);
      StreamOf(c, id);
      var s1 := s.(send := s.send.(sendErr := Some(reason), writeSignal := s.send.writeSignal.Broadcast()));
      var c1 := Queue(SetStream(c, id, s1), ResetStream(id, reason.code, s.send.sendOffset));
      EditThenComplete(c, id, s1, c.flow, c1.control);
      assert Edit(c, id, s1, c.flow, c1.control) == c1;
    }
  }

  lemma {:induction false} RaiseSendMaxInv(c: ConnState, id: StreamId, max: nat)
    requires Inv(c) && id in c.streams && CanSend(c.isServer, id)
    ensures Inv(RaiseSendMax(c, id, max))
  {
    hide Skeleton, Core, Inv;
    FlowOf(c);
    var s := c.streams[id];
    if max > s.send.sendMax {
      StreamOf(c, id);
      var s1 := s.(send := s.send.(sendMax := max, writeSignal := s.send.writeSignal.Broadcast()));
      UnreadUpdate(c.streams, id, s1);
      EditCore(c, id, s1, c.flow, c.control);
      assert Edit(c, id, s1, c.flow, c.control) == SetStream(c, id, s1);
    }
  }

  lemma {:induction false} TrySendInv(c: ConnState, id: StreamId)
    requires Inv(c) && id in c.streams && CanSend(c.isServer, id)
    ensures Inv(TrySend(c, id).0)
  {
    hide Skeleton, Core, Inv;
    FlowOf(c);
    var s := c.streams[id];
    if !SendFails(c, s.send) && SendCredit(c.flow, s.send) == 0 {
      StreamOf(c, id);
      var s1 := s.(send := s.send.(writeSignal := s.send.writeSignal.Wait()));
      UnreadUpdate(c.streams, id, s1);
      EditCore(c, id, s1, c.flow.(sendSignal := c.flow.sendSignal.Wait()), c.control);
    }
  }

  lemma {:induction false} ReserveInv(c: ConnState, id: StreamId, p: seq<byte>)
    requires Inv(c) && id in c.streams
    ensures Inv(Reserve(c, id, p).0)
  {
    hide Skeleton, Core, Inv;
    var s := c.streams[id];
    FlowOf(c);
    var n := Min(|p|, Min(MAX_STREAM_DATA, SendCredit(c.flow, s.send)));
    if !SendFails(c, s.send) && n != 0 {
      StreamOf(c, id);
      var s1 := s.(send := s.send.(sendOffset := s.send.sendOffset + n, sentLog := s.send.sentLog + p[..n]));
      UnreadUpdate(c.streams, id, s1);
      EditCore(c, id, s1, c.flow.(sent := c.flow.sent + n), c.control);
    }
  }

  lemma {:induction false} FinishInv(c: ConnState, id: StreamId)
    requires Inv(c) && id in c.streams && CanSend(c.isServer, id)
    ensures Inv(Finish(c, id).0)
  {
    hide Skeleton, Core, Inv;
    var s := c.streams[id];
    if !SendFails(c, s.send) {
      FlowOf(c);
      StreamOf(c, id);
      var s1 := s.(send := s.send.(finSent := true, writeSignal := s.send.writeSignal.Broadcast()));
      EditThenComplete(c, id, s1, c.flow, c.control);
      assert Edit(c, id, s1, c.flow, c.control) == SetStream(c, id, s1);
    }
  }

  // --------------------------------------------------------- streams begin

  lemma {:induction false} AddKeys(isServer: bool, outgoing: PerDir<Outgoing>, incoming: PerDir<Incoming>,
                                   outgoing': PerDir<Outgoing>, incoming': PerDir<Incoming>, streams: Streams,
                                       id: StreamId, s: StreamState)
    requires KeysOk(isServer, outgoing, incoming, streams)
    requires id.index == Next(isServer, outgoing, incoming, id)
    requires forall i: StreamId :: Next(isServer, outgoing', incoming', i) ==
               Next(isServer, outgoing, incoming, i) + (if i.dir == id.dir && i.byServer == id.byServer then 1 else 0)
    ensures KeysOk(isServer, outgoing', incoming', streams[id := s])
    ensures id !in streams
  {
    forall i: StreamId ensures i in streams[id := s] <==> i.index < Next(isServer, outgoing', incoming', i) {
      assert i in streams <==> i.index < Next(isServer, outgoing, incoming, i);
      if i.dir == id.dir && i.byServer == id.byServer {
        assert Next(isServer, outgoing, incoming, i) == id.index;
        assert i == id <==> i.index == id.index;
      }
    }
    assert id in streams <==> id.index < Next(isServer, outgoing, incoming, id);
  }

  lemma {:induction false} AddSlots(isServer: bool, dir: Dir, limit: nat, inc: Incoming, inc': Incoming,
      streams: Streams, id: StreamId, s: StreamState)
    requires SlotsOk(isServer, dir, limit, inc, streams) && id !in streams && !s.done
    requires if Theirs(isServer, dir, id)
             then id.index == inc.next < inc.max && !s.accepted
                  && inc'.next == inc.next + 1 && inc'.max == inc.max && inc'.queue == inc.queue + [id]
             else inc'.next == inc.next && inc'.max == inc.max && inc'.queue == inc.queue
    ensures SlotsOk(isServer, dir, limit, inc', streams[id := s])
  {
    assert Completed(isServer, dir, streams[id := s]) == Completed(isServer, dir, streams);
    if Theirs(isServer, dir, id) {
      assert id == StreamId(inc.next, dir, !isServer);
    }
  }

  lemma {:induction false} NewStreamOk(c: ConnState, id: StreamId, accepted: bool)
    requires accepted ==> Local(c.isServer, id)
    ensures StreamOk(c.isServer, c.config.streamWindow, id, NewStream(c, id, accepted))
    ensures Settled(NewStream(c, id, accepted)) && Asleep(NewStream(c, id, accepted))
    ensures Unread(NewStream(c, id, accepted)) == 0
  {
  }

  /** Adding a stream that did not exist. */
  lemma {:induction false} AddInv(c: ConnState, id: StreamId, s: StreamState, c': ConnState)
    requires Inv(c) && c.life.ready
    requires c' == c.(streams := c.streams[id := s], outgoing := c'.outgoing, incoming := c'.incoming)
    requires StreamOk(c.isServer, c.config.streamWindow, id, s) && Settled(s) && Asleep(s) && Unread(s) == 0
    requires Local(c.isServer, id) ==> s.accepted
    requires id !in c.streams && KeysOk(c.isServer, c'.outgoing, c'.incoming, c'.streams)
    requires SlotsOk(c.isServer, Bidi, c.config.maxStreams.bidi, c'.incoming.bidi, c'.streams)
    requires SlotsOk(c.isServer, Uni, c.config.maxStreams.uni, c'.incoming.uni, c'.streams)
    requires CountersOk(c'.incoming.bidi, c'.outgoing.bidi, c.life.closed)
    requires CountersOk(c'.incoming.uni, c'.outgoing.uni, c.life.closed)
    ensures Inv(c')
  {
    hide KeysOk, SlotsOk, CountersOk, StreamsOk, OursAccepted, SettledBut, FlowOk, AllAsleep;
    UpdateStreams(c.isServer, c.config.streamWindow, c.streams, id, s);
    UpdateAccepted(c.isServer, c.streams, id, s);
    if c.life.closed {
      UpdateAsleep(c.streams, id, s);
    }
    UnreadUpdate(c.streams, id, s);
    UpdateSettled(c.streams, id, s);
    MakeInv(c');
  }

  lemma {:induction false} Parts(c: ConnState)
    requires Inv(c)
    ensures KeysOk(c.isServer, c.outgoing, c.incoming, c.streams)
    ensures SlotsOk(c.isServer, Bidi, c.config.maxStreams.bidi, c.incoming.bidi, c.streams)
    ensures SlotsOk(c.isServer, Uni, c.config.maxStreams.uni, c.incoming.uni, c.streams)
    ensures CountersOk(c.incoming.bidi, c.outgoing.bidi, c.life.closed)
    ensures CountersOk(c.incoming.uni, c.outgoing.uni, c.life.closed)
    ensures LifeOk(c.life, c.flow, c.outgoing, c.streams)
    ensures OursAccepted(c.isServer, c.streams)
  {
    hide KeysOk, SlotsOk, CountersOk, LifeOk, OursAccepted;
  }

  lemma {:induction false} CreateInv(c: ConnState, dir: Dir)
    requires Inv(c) && c.life.ready && c.incoming.Get(dir).next < c.incoming.Get(dir).max
    ensures Inv(Create(c, dir))
  {
    hide Skeleton, Core, Inv, KeysOk, SlotsOk, StreamOk, Settled, Asleep;
    Parts(c);
    var inc := c.incoming.Get(dir);
    var id := StreamId(inc.next, dir, !c.isServer);
    var s := NewStream(c, id, false);
    var c' := Create(c, dir);
    NewStreamOk(c, id, false);
    AddKeys(c.isServer, c.outgoing, c.incoming, c'.outgoing, c'.incoming, c.streams, id, s);
    AddSlots(c.isServer, Bidi, c.config.maxStreams.bidi, c.incoming.bidi, c'.incoming.bidi, c.streams, id, s);
    AddSlots(c.isServer, Uni, c.config.maxStreams.uni, c.incoming.uni, c'.incoming.uni, c.streams, id, s);
    AddInv(c, id, s, c');
  }

  lemma {:induction false} CreateUpToInv(c: ConnState, dir: Dir, index: nat)
    requires Inv(c) && c.life.ready && index < c.incoming.Get(dir).max
    ensures Inv(CreateUpTo(c, dir, index))
    decreases index + 1 - c.incoming.Get(dir).next
  {
    hide Inv;
    if c.incoming.Get(dir).next <= index {
      CreateInv(c, dir);
      CreateUpToInv(Create(c, dir), dir, index);
    }
  }

  lemma {:induction false} ResolveInv(c: ConnState, id: StreamId, recv: bool)
    requires Inv(c) && c.life.ready
    ensures Inv(Resolve(c, id, recv).0)
    ensures Resolve(c, id, recv).1.Found? ==> (if recv then CanRecv(c.isServer, id) else CanSend(c.isServer, id))
    ensures Resolve(c, id, recv).0.isServer == c.isServer
  {
    hide Inv;
    if !Local(c.isServer, id) && id.index < c.incoming.Get(id.dir).max {
      CreateUpToInv(c, id.dir, id.index);
      CreateUpToFrame(c, id.dir, id.index);
    }
  }

  /** Creating the peer's streams touches nothing but them and their counters. */
  lemma {:induction false} CreateUpToFrame(c: ConnState, dir: Dir, index: nat)
    ensures var c' := CreateUpTo(c, dir, index); c' == c.(streams := c'.streams, incoming := c'.incoming)
    decreases index + 1 - c.incoming.Get(dir).next
  {
    if c.incoming.Get(dir).next <= index {
      CreateUpToFrame(Create(c, dir), dir, index);
    }
  }

  lemma {:induction false} TryOpenInv(c: ConnState, dir: Dir)
    requires Inv(c)
    ensures Inv(TryOpen(c, dir).0)
  {
    hide Skeleton, Core, Inv, KeysOk, SlotsOk, StreamOk, Settled, Asleep;
    Parts(c);
    var c' := TryOpen(c, dir).0;
    var out := c.outgoing.Get(dir);
    if !c.life.closed {
      if out.next < out.max {
        var id := StreamId(out.next, dir, c.isServer);
        var s := NewStream(c, id, true);
        NewStreamOk(c, id, true);
        AddKeys(c.isServer, c.outgoing, c.incoming, c'.outgoing, c'.incoming, c.streams, id, s);
        AddSlots(c.isServer, Bidi, c.config.maxStreams.bidi, c.incoming.bidi, c'.incoming.bidi, c.streams, id, s);
        AddSlots(c.isServer, Uni, c.config.maxStreams.uni, c.incoming.uni, c'.incoming.uni, c.streams, id, s);
        AddInv(c, id, s, c');
      } else {
        RewireInv(c, c');
      }
    }
  }

  /** Signals and limits of streams yet to open may change, within reason. */
  lemma {:induction false} RewireInv(c: ConnState, c': ConnState)
    requires Inv(c) && c' == c.(outgoing := c'.outgoing, incoming := c'.incoming, flow := c'.flow,
        control := c'.control, life := c'.life)
    requires SameCounts(c.incoming.bidi, c'.incoming.bidi) && SameCounts(c.incoming.uni, c'.incoming.uni)
    requires c'.outgoing.bidi.next == c.outgoing.bidi.next && c'.outgoing.uni.next == c.outgoing.uni.next
    requires CountersOk(c'.incoming.bidi, c'.outgoing.bidi, c'.life.closed)
    requires CountersOk(c'.incoming.uni, c'.outgoing.uni, c'.life.closed)
    requires LifeOk(c'.life, c'.flow, c'.outgoing, c.streams)
    requires c'.flow == c.flow.(sendMax := c'.flow.sendMax, sendSignal := c'.flow.sendSignal)
        && c.flow.sendMax <= c'.flow.sendMax
    ensures Inv(c')
  {
    assert KeysOk(c.isServer, c'.outgoing, c'.incoming, c.streams) by {
      forall i: StreamId ensures i in c.streams <==> i.index < Next(c.isServer, c'.outgoing, c'.incoming, i) {
        assert i in c.streams <==> i.index < Next(c.isServer, c.outgoing, c.incoming, i);
      }
    }
    hide KeysOk, CountersOk, StreamsOk, OursAccepted, SettledBut, AllAsleep, LifeOk, QueueOk;
    assert SlotsOk(c.isServer, Bidi, c.config.maxStreams.bidi, c'.incoming.bidi, c.streams) by {
      SameQueue(c.isServer, Bidi, c.incoming.bidi, c'.incoming.bidi, c.streams);
    }
    assert SlotsOk(c.isServer, Uni, c.config.maxStreams.uni, c'.incoming.uni, c.streams) by {
      SameQueue(c.isServer, Uni, c.incoming.uni, c'.incoming.uni, c.streams);
    }
    hide SlotsOk;
    MakeInv(c');
  }

  predicate SameCounts(inc: Incoming, inc': Incoming) {
    inc' == inc.(pending := inc'.pending, signal := inc'.signal)
  }

  lemma {:induction false} SameQueue(isServer: bool, dir: Dir, inc: Incoming, inc': Incoming, streams: Streams)
    requires QueueOk(isServer, dir, inc, streams) && SameCounts(inc, inc')
    ensures QueueOk(isServer, dir, inc', streams)
  {
  }

  // ---------------------------------------------------------------- accepting

  lemma {:induction false} QueuedExist(c: ConnState, dir: Dir)
    requires Inv(c)
    ensures forall id | id in c.incoming.Get(dir).queue ::
        && id in c.streams && Theirs(c.isServer, dir, id)
        && !c.streams[id].accepted
  {
    Parts(c);
    hide Inv, Core, Skeleton, CountersOk, LifeOk, OursAccepted;
    var inc := c.incoming.Get(dir);
    assert QueueOk(c.isServer, dir, inc, c.streams);
    forall id | id in inc.queue ensures id in c.streams && Theirs(c.isServer, dir, id) && !c.streams[id].accepted {
      var i :| 0 <= i < |inc.queue| && inc.queue[i] == id;
      assert id in c.streams <==> id.index < Next(c.isServer, c.outgoing, c.incoming, id);
    }
  }

  lemma {:induction false} AcceptSlots(isServer: bool, dir: Dir, limit: nat, inc: Incoming, inc': Incoming,
      streams: Streams, id: StreamId, s: StreamState)
    requires SlotsOk(isServer, dir, limit, inc, streams) && id in streams && s.done == streams[id].done
    requires if Theirs(isServer, dir, id)
             then inc.queue != [] && id == inc.queue[0] && s.accepted && inc' == inc.(queue := inc.queue[1..])
             else inc' == inc
    ensures SlotsOk(isServer, dir, limit, inc', streams[id := s])
  {
    assert Completed(isServer, dir, streams[id := s]) == Completed(isServer, dir, streams);
    if Theirs(isServer, dir, id) {
      forall i | i in streams[id := s] && Theirs(isServer, dir, i)
        ensures streams[id := s][i].accepted <==> i.index < inc'.next - |inc'.queue|
      {
        assert i == id <==> i.index == id.index;
      }
    }
  }

  lemma {:induction false} TryAcceptInv(c: ConnState, dir: Dir)
    requires Inv(c) && forall id | id in c.incoming.Get(dir).queue :: id in c.streams
    ensures Inv(TryAccept(c, dir).0)
  {
    hide Inv, StreamOk, SlotsOk, KeysOk, LifeOk, OursAccepted, Core, Skeleton, SettledBut, Settled, Complete;
    Parts(c);
    QueuedExist(c, dir);
    var inc := c.incoming.Get(dir);
    if !c.life.closed {
      if inc.queue == [] {
        RewireInv(c, TryAccept(c, dir).0);
      } else {
        var id := inc.queue[0];
        assert id in inc.queue;
        var s := c.streams[id].(accepted := true);
        var c1 := SetStream(c, id, s).(incoming := Put(c.incoming, dir, inc.(queue := inc.queue[1..])));
        StreamOf(c, id);
        FlowOf(c);
        assert StreamOk(c.isServer, c.config.streamWindow, id, s)
            by { SameHalves(c.isServer, c.config.streamWindow, id, c.streams[id], s); }
        AcceptSlots(c.isServer, Bidi, c.config.maxStreams.bidi, c.incoming.bidi, c1.incoming.bidi, c.streams, id, s);
        AcceptSlots(c.isServer, Uni, c.config.maxStreams.uni, c.incoming.uni, c1.incoming.uni, c.streams, id, s);
        AcceptCore(c, id, s, c1);
        CompleteInv(c1, id);
      }
    }
  }

  lemma {:induction false} SameHalves(isServer: bool, window: nat, id: StreamId, s: StreamState, s': StreamState)
    requires StreamOk(isServer, window, id, s) && s'.recv == s.recv && s'.send == s.send
    ensures StreamOk(isServer, window, id, s')
  {
  }

  lemma {:induction false} AcceptCore(c: ConnState, id: StreamId, s: StreamState, c1: ConnState)
    requires Inv(c) && id in c.streams && s == c.streams[id].(accepted := true)
    requires c1 == c.(streams := c.streams[id := s], incoming := c1.incoming)
    requires StreamOk(c.isServer, c.config.streamWindow, id, s)
    requires SlotsOk(c.isServer, Bidi, c.config.maxStreams.bidi, c1.incoming.bidi, c1.streams)
    requires SlotsOk(c.isServer, Uni, c.config.maxStreams.uni, c1.incoming.uni, c1.streams)
    requires CountersOk(c1.incoming.bidi, c1.outgoing.bidi, c.life.closed)
    requires CountersOk(c1.incoming.uni, c1.outgoing.uni, c.life.closed)
    requires c1.incoming.bidi.next == c.incoming.bidi.next && c1.incoming.uni.next == c.incoming.uni.next
    ensures Core(c1) && SettledBut(c1.streams, Some(id))
  {
    hide KeysOk, SlotsOk, CountersOk, StreamsOk, OursAccepted, SettledBut, FlowOk, AllAsleep;
    StreamOf(c, id);
    UpdateStreams(c.isServer, c.config.streamWindow, c.streams, id, s);
    UpdateKeys(c.isServer, c.outgoing, c.incoming, c.streams, id, s);
    SameKeys(c.isServer, c.outgoing, c.incoming, c1.incoming, c1.streams);
    UpdateAccepted(c.isServer, c.streams, id, s);
    if c.life.closed {
      UpdateAsleep(c.streams, id, s);
    }
    UnreadUpdate(c.streams, id, s);
    UpdateSettled(c.streams, id, s);
  }

  // ------------------------------------------------------------------ closing

  lemma {:induction false} HushedOk(isServer: bool, window: nat, id: StreamId, s: StreamState)
    requires StreamOk(isServer, window, id, s) && Settled(s)
    ensures StreamOk(isServer, window, id, Hushed(s)) && Settled(Hushed(s)) && Asleep(Hushed(s))
  {
  }

  lemma {:induction false} HushedSlots(isServer: bool, dir: Dir, limit: nat, inc: Incoming, inc': Incoming,
      streams: Streams, streams': Streams)
    requires SlotsOk(isServer, dir, limit, inc, streams) && SameCounts(inc, inc')
    requires streams'.Keys == streams.Keys && forall id | id in streams :: streams'[id] == Hushed(streams[id])
    ensures SlotsOk(isServer, dir, limit, inc', streams')
  {
    assert Completed(isServer, dir, streams') == Completed(isServer, dir, streams);
    assert forall id | id in streams' :: id in streams;
  }

  lemma {:induction false} HushedStreams(isServer: bool, window: nat, streams: Streams, streams': Streams)
    requires StreamsOk(isServer, window, streams) && SettledBut(streams, None) && OursAccepted(isServer, streams)
    requires streams'.Keys == streams.Keys && forall id | id in streams :: streams'[id] == Hushed(streams[id])
    ensures StreamsOk(isServer, window, streams') && SettledBut(streams', None) && OursAccepted(isServer, streams')
        && AllAsleep(streams')
    ensures UnreadTotal(streams') == UnreadTotal(streams)
  {
    forall id | id in streams'
      ensures id in streams && StreamOk(isServer, window, id, streams'[id]) && Settled(streams'[id])
          && Asleep(streams'[id])
      ensures Unread(streams'[id]) == Unread(streams[id])
      ensures streams'[id].accepted == streams[id].accepted
    {
      assert id in streams;
      HushedOk(isServer, window, id, streams[id]);
    }
    UnreadSame(streams, streams');
  }

  lemma {:induction false} TerminateInv(c: ConnState)
    requires Inv(c)
    ensures Inv(Terminate(c))
  {
    hide SlotsOk, KeysOk, OursAccepted, AllAsleep, CountersOk, FlowOk, StreamsOk, SettledBut;
    Parts(c);
    var c' := Terminate(c);
    if !c.life.closed {
      assert StreamsOk(c.isServer, c.config.streamWindow, c.streams) && SettledBut(c.streams, None);
      FlowOf(c);
      hide Skeleton, Core, Inv;
      assert c'.streams.Keys == c.streams.Keys;
      HushedStreams(c.isServer, c.config.streamWindow, c.streams, c'.streams);
      HushedSlots(c.isServer, Bidi, c.config.maxStreams.bidi, c.incoming.bidi, c'.incoming.bidi, c.streams, c'.streams);
      HushedSlots(c.isServer, Uni, c.config.maxStreams.uni, c.incoming.uni, c'.incoming.uni, c.streams, c'.streams);
      TerminateKeys(c, c');
      assert !c.life.ready ==> c'.streams == map[];
      TerminateFrame(c, c');
      MakeInv(c');
    }
  }

  lemma {:induction false} TerminateKeys(c: ConnState, c': ConnState)
    requires KeysOk(c.isServer, c.outgoing, c.incoming, c.streams) && c'.streams.Keys == c.streams.Keys
    requires forall id: StreamId ::
        Next(c.isServer, c'.outgoing, c'.incoming, id) == Next(c.isServer, c.outgoing, c.incoming, id)
    ensures KeysOk(c.isServer, c'.outgoing, c'.incoming, c'.streams)
  {
    forall i: StreamId ensures i in c'.streams <==> i.index < Next(c.isServer, c'.outgoing, c'.incoming, i) {
      assert i in c'.streams.Keys <==> i in c.streams.Keys;
      assert i in c.streams <==> i.index < Next(c.isServer, c.outgoing, c.incoming, i);
    }
  }

  lemma {:induction false} TerminateFrame(c: ConnState, c': ConnState)
    requires !c.life.closed && c' == Terminate(c)
    requires StreamsOk(c.isServer, c.config.streamWindow, c'.streams)
        && KeysOk(c.isServer, c'.outgoing, c'.incoming, c'.streams)
    requires SlotsOk(c.isServer, Bidi, c.config.maxStreams.bidi, c'.incoming.bidi, c'.streams)
    requires SlotsOk(c.isServer, Uni, c.config.maxStreams.uni, c'.incoming.uni, c'.streams)
    requires OursAccepted(c.isServer, c'.streams) && AllAsleep(c'.streams)
    requires CountersOk(c.incoming.bidi, c.outgoing.bidi, c.life.closed)
    requires CountersOk(c.incoming.uni, c.outgoing.uni, c.life.closed)
    requires LifeOk(c.life, c.flow, c.outgoing, c.streams)
    requires !c.life.ready ==> c'.streams == map[]
    ensures Skeleton(c')
  {
    hide StreamsOk, KeysOk, SlotsOk, OursAccepted, AllAsleep;
  }

  // ------------------------------------------------------------- every section

  lemma {:induction false} HandleStreamInv(c: ConnState, id: StreamId, offset: nat, data: seq<byte>, fin: bool)
    requires Inv(c) && c.life.ready
    ensures Inv(HandleStream(c, id, offset, data, fin).0)
  {
    hide Inv, TakeStream, StreamFault;
    ResolveInv(c, id, true);
    var (c1, look) := Resolve(c, id, true);
    if look.Found? && StreamFault(c1, c1.streams[id].recv, offset, |data|, fin).None? {
      TakeStreamInv(c1, id, offset, data, fin);
    }
  }

  lemma {:induction false} HandleResetInv(c: ConnState, id: StreamId, code: nat, finalSize: nat)
    requires Inv(c) && c.life.ready
    ensures Inv(HandleReset(c, id, code, finalSize).0)
  {
    hide Inv, TakeReset;
    ResolveInv(c, id, true);
    var (c1, look) := Resolve(c, id, true);
    if look.Found? && ResetFault(c1, c1.streams[id].recv, finalSize).None? {
      TakeResetInv(c1, id, code, finalSize);
    }
  }

  lemma {:induction false} HandleFrameInv(c: ConnState, f: Frame)
    requires Inv(c) && !c.life.closed
    ensures Inv(HandleFrame(c, f).0)
  {
    if f.TransportParameters? != !c.life.ready {
    } else if f.StreamData? {
      HandleStreamInv(c, f.id, f.offset, f.data, f.fin);
    } else if f.ResetStream? {
      HandleResetInv(c, f.id, f.code, f.finalSize);
    } else if f.StopSending? || f.MaxStreamData? {
      HandleReverseInv(c, f);
    } else {
      HandleConnInv(c, f);
    }
  }

  lemma {:induction false} HandleReverseInv(c: ConnState, f: Frame)
    requires Inv(c) && c.life.ready && (f.StopSending? || f.MaxStreamData?)
    ensures Inv(HandleFrame(c, f).0)
  {
    hide Inv, ResetSend, RaiseSendMax;
    ResolveInv(c, f.id, false);
    var (c1, look) := Resolve(c, f.id, false);
    if look.Found? {
      if f.StopSending? {
        ResetSendInv(c1, f.id, StreamError(f.code, true));
      } else {
        RaiseSendMaxInv(c1, f.id, f.max);
      }
    }
  }

  lemma {:induction false} HandleConnInv(c: ConnState, f: Frame)
    requires Inv(c) && !c.life.closed && f.TransportParameters? == !c.life.ready
    requires !f.StreamData? && !f.ResetStream? && !f.StopSending? && !f.MaxStreamData?
    ensures Inv(HandleFrame(c, f).0)
  {
    hide Inv, KeysOk, SlotsOk, OursAccepted, AllAsleep;
    Parts(c);
    RewireInv(c, HandleFrame(c, f).0);
  }

  lemma {:induction false} TakeControlInv(c: ConnState)
    requires Inv(c)
    ensures Inv(TakeControl(c).0)
  {
    Parts(c);
    hide Inv;
    RewireInv(c, TakeControl(c).0);
  }

  lemma {:induction false} RequestPingInv(c: ConnState)
    requires Inv(c)
    ensures Inv(RequestPing(c))
  {
    Parts(c);
    hide Inv;
    RewireInv(c, RequestPing(c));
  }
}
