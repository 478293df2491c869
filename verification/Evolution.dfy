/**
 What never goes back. Evolves relates two moments of a connection's life: limits
 only rise, ended directions stay as they ended, data is only appended, and a
 signal that has not fired since still means what it meant.
 */
module Evolution {
  import opened Basics
  import opened StreamIds
  import opened Frames
  import opened Endpoints
  import opened EndpointInvariants

  /** The channel gen is still open: nobody broadcast in between. */
  predicate StillOpen(s: Signal, s': Signal) {
    s.armed && s'.gen == s.gen
  }

  predicate SignalEvolves(s: Signal, s': Signal) {
    s.gen <= s'.gen && (StillOpen(s, s') ==> s'.armed)
  }

  predicate Sticks<T(==)>(o: Option<T>, o': Option<T>) {
    o.Some? ==> o' == o
  }

  predicate RecvEvolves(r: RecvHalf, r': RecvHalf) {
    && r'.canRecv == r.canRecv
    && r.recvOffset <= r'.recvOffset && r.recvMax <= r'.recvMax && r.readOffset <= r'.readOffset
    && r.recvLog <= r'.recvLog
    && (r.finRecv ==> r'.finRecv) && (r.recvReset ==> r'.recvReset) && (r.readCancelled ==> r'.readCancelled)
    && (r.finRecv || r.recvReset ==> r'.recvOffset == r.recvOffset && r'.recvLog == r.recvLog)
    && Sticks(r.recvErr, r'.recvErr)
    && SignalEvolves(r.readSignal, r'.readSignal)
    && (StillOpen(r.readSignal, r'.readSignal) ==> |r'.unread| <= |r.unread|)
  }

  predicate SendEvolves(w: SendHalf, w': SendHalf) {
    && w'.canSend == w.canSend
    && w.sendOffset <= w'.sendOffset && w.sendMax <= w'.sendMax
    && w.sentLog <= w'.sentLog
    && (w.finSent ==> w'.finSent)
    && (SendDone(w) ==> w'.sentLog == w.sentLog && w'.finSent == w.finSent && w'.sendErr == w.sendErr)
    && SignalEvolves(w.writeSignal, w'.writeSignal)
    && (StillOpen(w.writeSignal, w'.writeSignal) ==> w'.sendMax == w.sendMax)
  }

  predicate StreamEvolves(s: StreamState, s': StreamState) {
    && (s.done ==> s'.done) && (s.accepted ==> s'.accepted)
    && RecvEvolves(s.recv, s'.recv)
    && SendEvolves(s.send, s'.send)
  }

  ghost predicate StreamsEvolve(m: map<StreamId, StreamState>, m': map<StreamId, StreamState>) {
    forall id | id in m :: id in m' && StreamEvolves(m[id], m'[id])
  }

  predicate FlowEvolves(f: Flow, f': Flow) {
    && f.sendMax <= f'.sendMax && f.sent <= f'.sent
    && f.recvMax <= f'.recvMax && f.received <= f'.received && f.consumed <= f'.consumed
    && SignalEvolves(f.sendSignal, f'.sendSignal)
    && (StillOpen(f.sendSignal, f'.sendSignal) ==> f'.sendMax == f.sendMax)
  }

  predicate OutEvolves(o: Outgoing, o': Outgoing) {
    o.next <= o'.next && o.max <= o'.max && SignalEvolves(o.signal, o'.signal)
  }

  predicate InEvolves(i: Incoming, i': Incoming) {
    i.next <= i'.next && i.max <= i'.max && SignalEvolves(i.signal, i'.signal)
  }

  predicate LifeEvolves(l: Life, l': Life) {
    && (l.closed ==> l'.closed) && (l.ready ==> l'.ready && l'.peer == l.peer)
    && (l.handshakeClosed ==> l'.handshakeClosed)
  }

  predicate PingsEvolve(k: Control, k': Control) {
    && k.nextPing <= k'.nextPing
    && (k.peerPinged ==> k'.peerPinged && k.peerPingLast <= k'.peerPingLast)
  }

  /** Work for the write loop comes with a wake token. */
  predicate WakeKept(c: ConnState, c': ConnState) {
    && (c.control.wake ==> c'.control.wake)
    && (ControlWork(c') ==> ControlWork(c) || c'.control.wake)
  }

  ghost predicate Evolves(c: ConnState, c': ConnState) {
    && c'.isServer == c.isServer && c'.config == c.config
    && LifeEvolves(c.life, c'.life)
    && StreamsEvolve(c.streams, c'.streams)
    && OutEvolves(c.outgoing.bidi, c'.outgoing.bidi) && OutEvolves(c.outgoing.uni, c'.outgoing.uni)
    && InEvolves(c.incoming.bidi, c'.incoming.bidi) && InEvolves(c.incoming.uni, c'.incoming.uni)
    && FlowEvolves(c.flow, c'.flow)
    && PingsEvolve(c.control, c'.control) && WakeKept(c, c')
  }

  // ------------------------------------------------------------ it is an order

  lemma {:induction false} StreamsTransitive(m: map<StreamId, StreamState>, m1: map<StreamId, StreamState>,
      m2: map<StreamId, StreamState>)
    requires StreamsEvolve(m, m1) && StreamsEvolve(m1, m2)
    ensures StreamsEvolve(m, m2)
  {
    forall id | id in m ensures id in m2 && StreamEvolves(m[id], m2[id]) {
      assert id in m1 && StreamEvolves(m[id], m1[id]);
      assert id in m2 && StreamEvolves(m1[id], m2[id]);
    }
  }

  lemma {:induction false} Transitive(c: ConnState, c1: ConnState, c2: ConnState)
    requires Evolves(c, c1) && Evolves(c1, c2)
    ensures Evolves(c, c2)
  {
    hide StreamsEvolve;
    StreamsTransitive(c.streams, c1.streams, c2.streams);
  }

  lemma {:induction false} Reflexive(c: ConnState)
    ensures Evolves(c, c)
  {
  }

  // ---------------------------------------------------------- building blocks

  /** Control frames or flags were added, and the write loop was told. */
  predicate Adds(k: Control, k': Control) {
    k' == k || (k'.wake && k' == k.(frames := k'.frames, maxDataPending := k'.maxDataPending, wake := true))
  }

  /** One stream, the flow counters and the queue of control frames change. */
  lemma {:induction false} EditEvolves(c: ConnState, id: StreamId, s: StreamState, c': ConnState)
    requires id in c.streams && StreamEvolves(c.streams[id], s)
    requires c' == c.(streams := c.streams[id := s], flow := c'.flow, control := c'.control)
    requires FlowEvolves(c.flow, c'.flow) && Adds(c.control, c'.control)
    ensures Evolves(c, c')
  {
    hide StreamEvolves, FlowEvolves;
    assert forall i | i in c.streams :: StreamEvolves(c.streams[i], c.streams[i]) by {
      forall i | i in c.streams ensures StreamEvolves(c.streams[i], c.streams[i]) { StreamReflexive(c.streams[i]); }
    }
  }

  lemma {:induction false} StreamReflexive(s: StreamState)
    ensures StreamEvolves(s, s)
  {
  }

  lemma {:induction false} CompleteEvolves(c: ConnState, id: StreamId)
    requires id in c.streams
    ensures Evolves(c, Complete(c, id))
  {
    hide RecvEvolves, SendEvolves;
    var s := c.streams[id];
    var c' := Complete(c, id);
    if Completes(s) {
      forall i | i in c.streams ensures i in c'.streams && StreamEvolves(c.streams[i], c'.streams[i]) {
        HalvesReflexive(c.streams[i]);
        if i == id {
          ForgottenEvolves(s.recv);
        }
      }
    } else {
      Reflexive(c);
    }
  }

  lemma {:induction false} HalvesReflexive(s: StreamState)
    ensures RecvEvolves(s.recv, s.recv) && SendEvolves(s.send, s.send)
  {
  }

  lemma {:induction false} ForgottenEvolves(r: RecvHalf)
    ensures RecvEvolves(r, r.(unread := []))
  {
  }

  lemma {:induction false} ConsumingEvolves(f: Flow, n: nat, window: nat)
    requires f.recvMax <= f.consumed + window
    ensures FlowEvolves(f, Consuming(f, n, window).0)
  {
  }

  /** As EditEvolves, and then the stream may complete. */
  lemma {:induction false} EditCompleteEvolves(c: ConnState, id: StreamId, s: StreamState, c': ConnState)
    requires id in c.streams && StreamEvolves(c.streams[id], s)
    requires c' == c.(streams := c.streams[id := s], flow := c'.flow, control := c'.control)
    requires FlowEvolves(c.flow, c'.flow) && Adds(c.control, c'.control)
    ensures Evolves(c, Complete(c', id))
  {
    hide Evolves, StreamEvolves, FlowEvolves, Complete;
    EditEvolves(c, id, s, c');
    CompleteEvolves(c', id);
    Transitive(c, c', Complete(c', id));
  }

  // ------------------------------------------------------------ every section

  lemma {:induction false} TakeStreamEvolves(c: ConnState, id: StreamId, data: seq<byte>, fin: bool)
    requires Inv(c) && id in c.streams
    ensures Evolves(c, TakeStream(c, id, data, fin))
  {
    hide Evolves, Inv, Complete;
    FlowOf(c);
    var s := c.streams[id];
    if s.recv.finRecv || s.recv.recvReset {
      Reflexive(c);
    } else {
      var s1 := s.(recv := Accepting(s.recv, data, fin));
      var f1 := c.flow.(received := c.flow.received + |data|);
      ConsumingEvolves(f1, |data|, c.config.connWindow);
      var c1 := SetStream(c, id, s1).(flow := f1);
      EditCompleteEvolves(c, id, s1, if s.recv.readCancelled then Consume(c1, |data|) else c1);
    }
  }

  lemma {:induction false} TakeResetEvolves(c: ConnState, id: StreamId, code: nat, finalSize: nat)
    requires Inv(c) && id in c.streams && ResetFault(c, c.streams[id].recv, finalSize).None?
    ensures Evolves(c, TakeReset(c, id, code, finalSize))
  {
    hide Evolves, Inv, Complete;
    FlowOf(c);
    var s := c.streams[id];
    if s.recv.recvReset {
      Reflexive(c);
    } else {
      var s1 := s.(recv := Resetting(s.recv, code, finalSize));
      var skipped := finalSize - s.recv.recvOffset;
      var f1 := c.flow.(received := c.flow.received + skipped);
      var n := skipped + |s.recv.unread|;
      ConsumingEvolves(f1, n, c.config.connWindow);
      EditCompleteEvolves(c, id, s1, Consume(SetStream(c, id, s1).(flow := f1), n));
    }
  }

  lemma {:induction false} ResetSendEvolves(c: ConnState, id: StreamId, reason: StreamError)
    requires id in c.streams
    ensures Evolves(c, ResetSend(c, id, reason))
  {
    hide Evolves, Complete;
    var s := c.streams[id];
    if SendDone(s.send) {
      Reflexive(c);
    } else {
      var s1 := s.(send := s.send.(sendErr := Some(reason), writeSignal := s.send.writeSignal.Broadcast()));
      EditCompleteEvolves(c, id, s1, Queue(SetStream(c, id, s1), ResetStream(id, reason.code, s.send.sendOffset)));
    }
  }

  lemma {:induction false} RaiseSendMaxEvolves(c: ConnState, id: StreamId, max: nat)
    requires id in c.streams
    ensures Evolves(c, RaiseSendMax(c, id, max))
  {
    hide Evolves;
    var s := c.streams[id];
    if max > s.send.sendMax {
      var s1 := s.(send := s.send.(sendMax := max, writeSignal := s.send.writeSignal.Broadcast()));
      EditEvolves(c, id, s1, SetStream(c, id, s1));
    } else {
      Reflexive(c);
    }
  }

  lemma {:induction false} CreateUpToEvolves(c: ConnState, dir: Dir, index: nat)
    requires Inv(c) && c.life.ready && index < c.incoming.Get(dir).max
    ensures Evolves(c, CreateUpTo(c, dir, index))
    decreases index + 1 - c.incoming.Get(dir).next
  {
    hide Evolves, Inv;
    if c.incoming.Get(dir).next <= index {
      CreateInv(c, dir);
      CreateEvolves(c, dir);
      CreateUpToEvolves(Create(c, dir), dir, index);
      Transitive(c, Create(c, dir), CreateUpTo(c, dir, index));
    } else {
      Reflexive(c);
    }
  }

  lemma {:induction false} FreshId(c: ConnState, id: StreamId)
    requires Inv(c) && id.index == Next(c.isServer, c.outgoing, c.incoming, id)
    ensures id !in c.streams
  {
    Parts(c);
    hide Inv, SlotsOk, CountersOk, LifeOk, OursAccepted;
    assert id in c.streams <==> id.index < Next(c.isServer, c.outgoing, c.incoming, id);
  }

  lemma {:induction false} CreateEvolves(c: ConnState, dir: Dir)
    requires Inv(c)
    ensures Evolves(c, Create(c, dir))
  {
    hide Inv, StreamEvolves;
    var id := StreamId(c.incoming.Get(dir).next, dir, !c.isServer);
    FreshId(c, id);
    var c' := Create(c, dir);
    forall i | i in c.streams ensures i in c'.streams && StreamEvolves(c.streams[i], c'.streams[i]) {
      StreamReflexive(c.streams[i]);
    }
  }

  lemma {:induction false} ResolveEvolves(c: ConnState, id: StreamId, recv: bool)
    requires Inv(c) && c.life.ready
    ensures Evolves(c, Resolve(c, id, recv).0)
  {
    hide Evolves, Inv;
    Reflexive(c);
    if !Local(c.isServer, id) && id.index < c.incoming.Get(id.dir).max {
      CreateUpToEvolves(c, id.dir, id.index);
    }
  }

  lemma {:induction false} HandleDataEvolves(c: ConnState, f: Frame)
    requires Inv(c) && c.life.ready && (f.StreamData? || f.ResetStream?)
    ensures Evolves(c, HandleFrame(c, f).0)
  {
    hide Evolves, Inv, TakeStream, TakeReset, StreamFault, ResetFault;
    ResolveEvolves(c, f.id, true);
    ResolveInv(c, f.id, true);
    var (c1, look) := Resolve(c, f.id, true);
    if look.Found? {
      if f.StreamData? && StreamFault(c1, c1.streams[f.id].recv, f.offset, |f.data|, f.fin).None? {
        TakeStreamEvolves(c1, f.id, f.data, f.fin);
        Transitive(c, c1, TakeStream(c1, f.id, f.data, f.fin));
      } else if f.ResetStream? && ResetFault(c1, c1.streams[f.id].recv, f.finalSize).None? {
        TakeResetInv(c1, f.id, f.code, f.finalSize);
        ResetFaultBound(c1, f.id, f.finalSize);
        TakeResetEvolves(c1, f.id, f.code, f.finalSize);
        Transitive(c, c1, TakeReset(c1, f.id, f.code, f.finalSize));
      }
    }
  }

  lemma {:induction false} ResetFaultBound(c: ConnState, id: StreamId, finalSize: nat)
    requires id in c.streams && ResetFault(c, c.streams[id].recv, finalSize).None?
    ensures c.streams[id].recv.recvOffset <= finalSize
  {
  }

  lemma {:induction false} HandleReverseEvolves(c: ConnState, f: Frame)
    requires Inv(c) && c.life.ready && (f.StopSending? || f.MaxStreamData?)
    ensures Evolves(c, HandleFrame(c, f).0)
  {
    hide Evolves, Inv, ResetSend, RaiseSendMax;
    ResolveEvolves(c, f.id, false);
    var (c1, look) := Resolve(c, f.id, false);
    if look.Found? {
      if f.StopSending? {
        ResetSendEvolves(c1, f.id, StreamError(f.code, true));
        Transitive(c, c1, ResetSend(c1, f.id, StreamError(f.code, true)));
      } else {
        RaiseSendMaxEvolves(c1, f.id, f.max);
        Transitive(c, c1, RaiseSendMax(c1, f.id, f.max));
      }
    }
  }

  /** The streams stay as they are. */
  lemma {:induction false} SameStreamsEvolve(c: ConnState, c': ConnState)
    requires c' == c.(life := c'.life, outgoing := c'.outgoing, incoming := c'.incoming, flow := c'.flow,
        control := c'.control)
    requires LifeEvolves(c.life, c'.life) && FlowEvolves(c.flow, c'.flow) && PingsEvolve(c.control, c'.control)
        && WakeKept(c, c')
    requires OutEvolves(c.outgoing.bidi, c'.outgoing.bidi) && OutEvolves(c.outgoing.uni, c'.outgoing.uni)
    requires InEvolves(c.incoming.bidi, c'.incoming.bidi) && InEvolves(c.incoming.uni, c'.incoming.uni)
    ensures Evolves(c, c')
  {
    hide StreamEvolves, LifeEvolves, FlowEvolves, OutEvolves, InEvolves;
    forall i | i in c.streams ensures StreamEvolves(c.streams[i], c'.streams[i]) {
      StreamReflexive(c.streams[i]);
    }
  }

  lemma {:induction false} HandleFrameEvolves(c: ConnState, f: Frame)
    requires Inv(c) && !c.life.closed
    ensures Evolves(c, HandleFrame(c, f).0)
  {
    hide Evolves, Inv;
    if f.TransportParameters? != !c.life.ready {
      Reflexive(c);
    } else if f.StreamData? || f.ResetStream? {
      HandleDataEvolves(c, f);
    } else if f.StopSending? || f.MaxStreamData? {
      HandleReverseEvolves(c, f);
    } else {
      HandleConnEvolves(c, f);
    }
  }

  lemma {:induction false} HandleConnEvolves(c: ConnState, f: Frame)
    requires Inv(c) && !c.life.closed && f.TransportParameters? == !c.life.ready
    requires !(f.StreamData? || f.ResetStream? || f.StopSending? || f.MaxStreamData?)
    ensures Evolves(c, HandleFrame(c, f).0)
  {
    hide Evolves, Inv, KeysOk, SlotsOk, OursAccepted, AllAsleep, CountersOk;
    Parts(c);
    SameStreamsEvolve(c, HandleFrame(c, f).0);
  }

  lemma {:induction false} TryOpenEvolves(c: ConnState, dir: Dir)
    requires Inv(c)
    ensures Evolves(c, TryOpen(c, dir).0)
  {
    hide Inv, StreamEvolves;
    var id := StreamId(c.outgoing.Get(dir).next, dir, c.isServer);
    FreshId(c, id);
    var c' := TryOpen(c, dir).0;
    forall i | i in c.streams ensures i in c'.streams && StreamEvolves(c.streams[i], c'.streams[i]) {
      StreamReflexive(c.streams[i]);
    }
  }

  lemma {:induction false} TryAcceptEvolves(c: ConnState, dir: Dir)
    requires forall id | id in c.incoming.Get(dir).queue :: id in c.streams
    ensures Evolves(c, TryAccept(c, dir).0)
  {
    hide Evolves, Complete;
    var inc := c.incoming.Get(dir);
    if c.life.closed {
      Reflexive(c);
    } else if inc.queue == [] {
      SameStreamsEvolve(c, TryAccept(c, dir).0);
    } else {
      var id := inc.queue[0];
      var c1 := SetStream(c, id, c.streams[id].(accepted := true));
      var c2 := c1.(incoming := Put(c.incoming, dir, inc.(queue := inc.queue[1..])));
      EditEvolves(c, id, c.streams[id].(accepted := true), c1);
      SameStreamsEvolve(c1, c2);
      Transitive(c, c1, c2);
      CompleteEvolves(c2, id);
      Transitive(c, c2, Complete(c2, id));
    }
  }

  lemma {:induction false} ReadingEvolves(r: RecvHalf, n: nat, window: nat)
    requires n <= |r.unread| && r.recvMax <= r.readOffset + window
    ensures RecvEvolves(r, Reading(r, n, window).0)
  {
  }

  lemma {:induction false} TakeEvolves(c: ConnState, id: StreamId, k: nat)
    requires Inv(c) && id in c.streams && k <= |c.streams[id].recv.unread|
    ensures Evolves(c, Take(c, id, k))
  {
    hide Evolves, Inv, Complete, RecvEvolves, FlowEvolves;
    FlowOf(c);
    StreamOf(c, id);
    var s := c.streams[id];
    ReadingEvolves(s.recv, k, c.config.streamWindow);
    HalvesReflexive(s);
    var (r, extended) := Reading(s.recv, k, c.config.streamWindow);
    var s1 := s.(recv := r);
    ConsumingEvolves(c.flow, k, c.config.connWindow);
    var c1 := Consume(SetStream(c, id, s1), k);
    EditCompleteEvolves(c, id, s1, if extended then Queue(c1, MaxStreamData(id, r.recvMax)) else c1);
  }

  lemma {:induction false} WaitToReadEvolves(c: ConnState, id: StreamId)
    requires id in c.streams
    ensures Evolves(c, WaitToRead(c, id).0)
  {
    hide Evolves;
    var s := c.streams[id];
    EditEvolves(c, id, s.(recv := s.recv.(readSignal := s.recv.readSignal.Wait())), WaitToRead(c, id).0);
  }

  lemma {:induction false} TryReadEvolves(c: ConnState, id: StreamId, n: nat)
    requires Inv(c) && id in c.streams
    ensures Evolves(c, TryRead(c, id, n).0) && Evolves(c, TryPeek(c, id, n).0)
  {
    hide Evolves, Inv, Take, WaitToRead;
    Reflexive(c);
    TakeEvolves(c, id, Min(n, |c.streams[id].recv.unread|));
    WaitToReadEvolves(c, id);
  }

  lemma {:induction false} CancelReadEvolves(c: ConnState, id: StreamId, code: nat)
    requires Inv(c) && id in c.streams
    ensures Evolves(c, CancelRead(c, id, code))
  {
    hide Evolves, Inv, Complete;
    FlowOf(c);
    var s := c.streams[id];
    if c.life.closed || s.recv.recvErr.Some? || RecvDone(s.recv) {
      Reflexive(c);
    } else {
      var r := Cancelling(s.recv, code);
      var s1 := s.(recv := r);
      var n := |s.recv.unread|;
      ConsumingEvolves(c.flow, n, c.config.connWindow);
      var c1 := Consume(SetStream(c, id, s1), n);
      EditCompleteEvolves(c, id, s1, if r.finRecv then c1 else Queue(c1, StopSending(id, code)));
    }
  }

  lemma {:induction false} CancelWriteEvolves(c: ConnState, id: StreamId, code: nat)
    requires id in c.streams
    ensures Evolves(c, CancelWrite(c, id, code))
  {
    hide Evolves, ResetSend;
    Reflexive(c);
    ResetSendEvolves(c, id, StreamError(code, false));
  }

  lemma {:induction false} TrySendEvolves(c: ConnState, id: StreamId)
    requires id in c.streams
    ensures Evolves(c, TrySend(c, id).0)
  {
    hide Evolves;
    var s := c.streams[id];
    Reflexive(c);
    if !SendFails(c, s.send) && SendCredit(c.flow, s.send) == 0 {
      EditEvolves(c, id, s.(send := s.send.(writeSignal := s.send.writeSignal.Wait())), TrySend(c, id).0);
    }
  }

  lemma {:induction false} ReserveEvolves(c: ConnState, id: StreamId, p: seq<byte>)
    requires Inv(c) && id in c.streams && CanSend(c.isServer, id)
    ensures Evolves(c, Reserve(c, id, p).0)
  {
    hide Evolves, Inv;
    StreamOf(c, id);
    var s := c.streams[id];
    Reflexive(c);
    var n := Min(|p|, Min(MAX_STREAM_DATA, SendCredit(c.flow, s.send)));
    if !SendFails(c, s.send) && n != 0 {
      var s1 := s.(send := s.send.(sendOffset := s.send.sendOffset + n, sentLog := s.send.sentLog + p[..n]));
      EditEvolves(c, id, s1, Reserve(c, id, p).0);
    }
  }

  lemma {:induction false} FinishEvolves(c: ConnState, id: StreamId)
    requires Inv(c) && id in c.streams && CanSend(c.isServer, id)
    ensures Evolves(c, Finish(c, id).0)
  {
    hide Evolves, Complete, Inv;
    StreamOf(c, id);
    var s := c.streams[id];
    Reflexive(c);
    if !SendFails(c, s.send) {
      var s1 := s.(send := s.send.(finSent := true, writeSignal := s.send.writeSignal.Broadcast()));
      EditCompleteEvolves(c, id, s1, SetStream(c, id, s1));
    }
  }

  lemma {:induction false} TerminateEvolves(c: ConnState)
    requires Inv(c)
    ensures Evolves(c, Terminate(c))
  {
    var c' := Terminate(c);
    hide Inv, StreamEvolves;
    Reflexive(c);
    if !c.life.closed {
      forall i | i in c.streams ensures i in c'.streams && StreamEvolves(c.streams[i], c'.streams[i]) {
        HushedEvolves(c.streams[i]);
      }
    }
  }

  lemma {:induction false} HushedEvolves(s: StreamState)
    ensures StreamEvolves(s, Hushed(s))
  {
  }

  lemma {:induction false} ControlEvolves(c: ConnState)
    ensures Evolves(c, TakeControl(c).0) && Evolves(c, RequestPing(c))
  {
    hide Evolves;
    SameStreamsEvolve(c, TakeControl(c).0);
    SameStreamsEvolve(c, RequestPing(c));
  }
}
