/**
 What an open endpoint has taken in is what its peer said. heard is the frames of
 the peer it has handled so far, peerWindow the peer's stream window.
 */
module Hearing {
  import opened Basics
  import opened StreamIds
  import opened Frames
  import opened Endpoints
  import opened EndpointInvariants
  import opened Evolution
  import opened Traffic
  import opened Speaking
  import opened Runs

  /** What the peer grants on a stream from the start. */
  function PeerGrant(isServer: bool, peerWindow: nat, id: StreamId): nat {
    InitialGrant(!isServer, peerWindow, id)
  }

  ghost predicate StreamHeard(d: StreamDigest, s: StreamState) {
    && s.recv.recvLog == d.data && s.recv.recvOffset == |d.data|
    && s.recv.finRecv == d.fin && s.recv.recvReset == d.reset
    && s.send.sendMax <= d.grant && (!s.done ==> s.send.sendMax == d.grant)
  }

  ghost predicate HeardOf(streams: Streams, id: StreamId, d: StreamDigest, grant: nat) {
    if id in streams then StreamHeard(d, streams[id]) else d == Unsaid(grant)
  }

  ghost predicate StreamsHeard(isServer: bool, peerWindow: nat, streams: Streams, heard: Said) {
    forall id: StreamId ::
      HeardOf(streams, id, StreamFold(heard, id, PeerGrant(isServer, peerWindow, id)),
          PeerGrant(isServer, peerWindow, id))
  }

  predicate ConnHeard(flow: Flow, outgoing: PerDir<Outgoing>, control: Control, d: ConnDigest) {
    && flow.sendMax == d.grant && outgoing.bidi.max == d.bidi && outgoing.uni.max == d.uni
    && flow.received == d.total
    && (control.peerPinged <==> d.lastPing.Some?)
    && (control.peerPinged ==> control.peerPingLast == d.lastPing.value)
  }

  /** The peer's parameters, once in, grant its stream window. */
  ghost predicate KnowsWindow(isServer: bool, life: Life, peerWindow: nat) {
    life.ready ==> forall id: StreamId :: InitialSendMax(isServer, life.peer, id) == PeerGrant(isServer, peerWindow, id)
  }

  ghost predicate Hears(c: ConnState, heard: Said, peerWindow: nat) {
    && (c.life.ready <==> heard != [])
    && KnowsWindow(c.isServer, c.life, peerWindow)
    && StreamsHeard(c.isServer, peerWindow, c.streams, heard)
    && ConnHeard(c.flow, c.outgoing, c.control, ConnFold(heard))
  }

  lemma {:induction false} InitHears(config: Config, isServer: bool, peerWindow: nat)
    ensures Hears(Init(config, isServer), [], peerWindow)
  {
    var c := Init(config, isServer);
    assert StreamsHeard(isServer, peerWindow, c.streams, []);
    hide StreamsHeard;
  }

  // ------------------------------------------------ sections of the application

  predicate SameHeard(s: StreamState, s': StreamState) {
    && s'.recv.recvLog == s.recv.recvLog && s'.recv.recvOffset == s.recv.recvOffset
    && s'.recv.finRecv == s.recv.finRecv && s'.recv.recvReset == s.recv.recvReset
    && s'.send.sendMax == s.send.sendMax && (s.done ==> s'.done)
  }

  predicate FreshStream(c: ConnState, id: StreamId, s: StreamState) {
    && s.recv.recvLog == [] && s.recv.recvOffset == 0 && !s.recv.finRecv && !s.recv.recvReset
    && s.send.sendMax == InitialSendMax(c.isServer, c.life.peer, id)
  }

  ghost predicate StreamsUntouched(c: ConnState, streams: Streams) {
    && (forall id | id in c.streams :: id in streams && SameHeard(c.streams[id], streams[id]))
    && (forall id | id in streams && id !in c.streams :: FreshStream(c, id, streams[id]))
  }

  /** Nothing that the peer's frames decide has changed, but for streams that begin. */
  ghost predicate Untouched(c: ConnState, c': ConnState) {
    && c'.isServer == c.isServer && c'.life.ready == c.life.ready && c'.life.peer == c.life.peer
    && StreamsUntouched(c, c'.streams) && (!c.life.ready ==> c'.streams == c.streams)
    && c'.flow.sendMax == c.flow.sendMax && c'.flow.received == c.flow.received
    && c'.outgoing.bidi.max == c.outgoing.bidi.max && c'.outgoing.uni.max == c.outgoing.uni.max
    && c'.control.peerPinged == c.control.peerPinged && c'.control.peerPingLast == c.control.peerPingLast
  }

  lemma {:induction false} UntouchedHears(c: ConnState, c': ConnState, heard: Said, peerWindow: nat)
    requires Hears(c, heard, peerWindow) && Untouched(c, c')
    ensures Hears(c', heard, peerWindow)
  {
    hide ConnFold;
    forall i: StreamId
      ensures HeardOf(c'.streams, i, StreamFold(heard, i, PeerGrant(c.isServer, peerWindow, i)),
          PeerGrant(c.isServer, peerWindow, i))
    {
      assert HeardOf(c.streams, i, StreamFold(heard, i, PeerGrant(c.isServer, peerWindow, i)),
          PeerGrant(c.isServer, peerWindow, i));
    }
  }

  lemma {:induction false} UntouchedTransitive(c: ConnState, c1: ConnState, c2: ConnState)
    requires Untouched(c, c1) && Untouched(c1, c2)
    ensures Untouched(c, c2)
  {
  }

  lemma {:induction false} EditUntouched(c: ConnState, id: StreamId, s: StreamState, c': ConnState)
    requires id in c.streams && SameHeard(c.streams[id], s) && c.life.ready
    requires c'.streams == c.streams[id := s]
    requires c' == c.(streams := c'.streams, incoming := c'.incoming, flow := c'.flow, control := c'.control)
    requires c'.flow.sendMax == c.flow.sendMax && c'.flow.received == c.flow.received
    requires c'.control.peerPinged == c.control.peerPinged && c'.control.peerPingLast == c.control.peerPingLast
    ensures Untouched(c, c')
  {
  }

  lemma {:induction false} CompleteUntouched(c: ConnState, id: StreamId)
    requires id in c.streams && c.life.ready
    ensures Untouched(c, Complete(c, id))
  {
    hide Untouched;
    var s := c.streams[id];
    if Completes(s) {
      EditUntouched(c, id, s.(done := true, recv := s.recv.(unread := [])), Complete(c, id));
    } else {
      SameUntouched(c, c);
    }
  }

  lemma {:induction false} EditCompleteUntouched(c: ConnState, id: StreamId, s: StreamState, c': ConnState)
    requires id in c.streams && SameHeard(c.streams[id], s) && c.life.ready
    requires c'.streams == c.streams[id := s]
    requires c' == c.(streams := c'.streams, incoming := c'.incoming, flow := c'.flow, control := c'.control)
    requires c'.flow.sendMax == c.flow.sendMax && c'.flow.received == c.flow.received
    requires c'.control.peerPinged == c.control.peerPinged && c'.control.peerPingLast == c.control.peerPingLast
    ensures Untouched(c, Complete(c', id))
  {
    hide Untouched, Complete, SameHeard;
    EditUntouched(c, id, s, c');
    CompleteUntouched(c', id);
    UntouchedTransitive(c, c', Complete(c', id));
  }

  lemma {:induction false} SameUntouched(c: ConnState, c': ConnState)
    requires c' == c.(life := c'.life, outgoing := c'.outgoing, incoming := c'.incoming, flow := c'.flow,
        control := c'.control)
    requires c'.life.ready == c.life.ready && c'.life.peer == c.life.peer
    requires c'.flow.sendMax == c.flow.sendMax && c'.flow.received == c.flow.received
    requires c'.outgoing.bidi.max == c.outgoing.bidi.max && c'.outgoing.uni.max == c.outgoing.uni.max
    requires c'.control.peerPinged == c.control.peerPinged && c'.control.peerPingLast == c.control.peerPingLast
    ensures Untouched(c, c')
  {
  }

  lemma {:induction false} ResetSendUntouched(c: ConnState, id: StreamId, reason: StreamError)
    requires id in c.streams && c.life.ready
    ensures Untouched(c, ResetSend(c, id, reason))
  {
    hide Untouched, Complete;
    var s := c.streams[id];
    if SendDone(s.send) {
      SameUntouched(c, c);
    } else {
      var s1 := s.(send := s.send.(sendErr := Some(reason), writeSignal := s.send.writeSignal.Broadcast()));
      EditCompleteUntouched(c, id, s1, Queue(SetStream(c, id, s1), ResetStream(id, reason.code, s.send.sendOffset)));
    }
  }

  lemma {:induction false} AddUntouched(c: ConnState, id: StreamId, accepted: bool, c': ConnState)
    requires id !in c.streams && c.life.ready
    requires c' == c.(streams := c.streams[id := NewStream(c, id, accepted)], incoming := c'.incoming,
        outgoing := c'.outgoing)
    requires c'.outgoing.bidi.max == c.outgoing.bidi.max && c'.outgoing.uni.max == c.outgoing.uni.max
    ensures Untouched(c, c')
  {
  }

  lemma {:induction false} TakeUntouched(c: ConnState, id: StreamId, k: nat)
    requires id in c.streams && c.life.ready && k <= |c.streams[id].recv.unread|
    ensures Untouched(c, Take(c, id, k))
  {
    hide Untouched, Complete;
    var s := c.streams[id];
    var (r, extended) := Reading(s.recv, k, c.config.streamWindow);
    var s1 := s.(recv := r);
    var c1 := Consume(SetStream(c, id, s1), k);
    EditCompleteUntouched(c, id, s1, if extended then Queue(c1, MaxStreamData(id, r.recvMax)) else c1);
  }

  lemma {:induction false} WaitUntouched(c: ConnState, id: StreamId)
    requires id in c.streams && c.life.ready
    ensures Untouched(c, WaitToRead(c, id).0) && Untouched(c, TrySend(c, id).0)
  {
    hide Untouched;
    var s := c.streams[id];
    SameUntouched(c, c);
    EditUntouched(c, id, s.(recv := s.recv.(readSignal := s.recv.readSignal.Wait())), WaitToRead(c, id).0);
    if !SendFails(c, s.send) && SendCredit(c.flow, s.send) == 0 {
      EditUntouched(c, id, s.(send := s.send.(writeSignal := s.send.writeSignal.Wait())), TrySend(c, id).0);
    }
  }

  lemma {:induction false} ReadUntouched(c: ConnState, id: StreamId, n: nat)
    requires id in c.streams && c.life.ready
    ensures Untouched(c, TryRead(c, id, n).0) && Untouched(c, TryPeek(c, id, n).0)
  {
    hide Untouched, Take, WaitToRead, TrySend;
    SameUntouched(c, c);
    TakeUntouched(c, id, Min(n, |c.streams[id].recv.unread|));
    WaitUntouched(c, id);
  }

  lemma {:induction false} CancelWriteUntouched(c: ConnState, id: StreamId, code: nat)
    requires id in c.streams && c.life.ready
    ensures Untouched(c, CancelWrite(c, id, code))
  {
    hide Untouched, ResetSend;
    SameUntouched(c, c);
    ResetSendUntouched(c, id, StreamError(code, false));
  }

  lemma {:induction false} CancelReadUntouched(c: ConnState, id: StreamId, code: nat)
    requires id in c.streams && c.life.ready
    ensures Untouched(c, CancelRead(c, id, code))
  {
    hide Untouched, Complete;
    var s := c.streams[id];
    SameUntouched(c, c);
    if !c.life.closed && s.recv.recvErr.None? && !RecvDone(s.recv) {
      var r := Cancelling(s.recv, code);
      var s1 := s.(recv := r);
      var c1 := Consume(SetStream(c, id, s1), |s.recv.unread|);
      EditCompleteUntouched(c, id, s1, if r.finRecv then c1 else Queue(c1, StopSending(id, code)));
    }
  }

  lemma {:induction false} SendUntouched(c: ConnState, id: StreamId, p: seq<byte>)
    requires id in c.streams && c.life.ready
    ensures Untouched(c, Reserve(c, id, p).0) && Untouched(c, Finish(c, id).0)
  {
    hide Untouched, Complete;
    var s := c.streams[id];
    SameUntouched(c, c);
    var n := Min(|p|, Min(MAX_STREAM_DATA, SendCredit(c.flow, s.send)));
    if !SendFails(c, s.send) {
      var s2 := s.(send := s.send.(finSent := true, writeSignal := s.send.writeSignal.Broadcast()));
      EditCompleteUntouched(c, id, s2, SetStream(c, id, s2));
      if n != 0 {
        var s1 := s.(send := s.send.(sendOffset := s.send.sendOffset + n, sentLog := s.send.sentLog + p[..n]));
        EditUntouched(c, id, s1, Reserve(c, id, p).0);
      }
    }
  }

  lemma {:induction false} TryAcceptUntouched(c: ConnState, dir: Dir)
    requires c.life.ready && forall id | id in c.incoming.Get(dir).queue :: id in c.streams
    ensures Untouched(c, TryAccept(c, dir).0)
  {
    hide Untouched, Complete;
    var inc := c.incoming.Get(dir);
    SameUntouched(c, c);
    if !c.life.closed {
      if inc.queue == [] {
        SameUntouched(c, TryAccept(c, dir).0);
      } else {
        var id := inc.queue[0];
        var s := c.streams[id].(accepted := true);
        EditCompleteUntouched(c, id, s,
            SetStream(c, id, s).(incoming := Put(c.incoming, dir, inc.(queue := inc.queue[1..]))));
      }
    }
  }

  lemma {:induction false} TryOpenUntouched(c: ConnState, dir: Dir)
    requires Inv(c)
    ensures Untouched(c, TryOpen(c, dir).0)
  {
    hide Inv, Untouched, KeysOk, SlotsOk, OursAccepted, AllAsleep;
    Parts(c);
    SameUntouched(c, c);
    var out := c.outgoing.Get(dir);
    if !c.life.closed {
      if out.next < out.max {
        var id := StreamId(out.next, dir, c.isServer);
        FreshId(c, id);
        AddUntouched(c, id, true, TryOpen(c, dir).0);
      } else {
        SameUntouched(c, TryOpen(c, dir).0);
      }
    }
  }

  lemma {:induction false} TerminateUntouched(c: ConnState)
    requires Inv(c)
    ensures Untouched(c, Terminate(c))
  {
    hide Inv;
    NoStreamsYet(c);
    var c' := Terminate(c);
    SameUntouched(c, c.(life := c'.life, outgoing := c'.outgoing, incoming := c'.incoming, flow := c'.flow));
    assert c'.streams.Keys == c.streams.Keys;
    assert StreamsUntouched(c, c'.streams) by {
      forall id | id in c'.streams ensures id in c.streams { assert id in c'.streams.Keys; }
    }
    hide StreamsUntouched;
    assert !c.life.ready ==> c'.streams == map[];
  }

  lemma {:induction false} NoStreamsYet(c: ConnState)
    requires Inv(c)
    ensures !c.life.ready ==> c.streams == map[]
  {
    Parts(c);
    hide Inv, KeysOk, SlotsOk, CountersOk, OursAccepted, AllAsleep;
  }

  lemma {:induction false} NoQueueYet(c: ConnState, dir: Dir)
    requires Inv(c) && !c.life.ready
    ensures c.incoming.Get(dir).queue == []
  {
    Parts(c);
    NoStreamsYet(c);
    KeyOf(c, StreamId(0, dir, !c.isServer));
    hide Inv, KeysOk, CountersOk, OursAccepted, AllAsleep;
  }

  lemma {:induction false} AcceptNothing(c: ConnState, dir: Dir)
    requires Inv(c) && !c.life.ready && forall id | id in c.incoming.Get(dir).queue :: id in c.streams
    ensures Untouched(c, TryAccept(c, dir).0)
  {
    hide Inv, Untouched;
    NoQueueYet(c, dir);
    SameUntouched(c, TryAccept(c, dir).0);
  }

  /** No section of the application touches what the peer decides. */
  lemma {:induction false} ApplyUntouched(c: ConnState, x: Section)
    requires Inv(c) && Enabled(c, x) && !x.Handle?
    ensures Untouched(c, Apply(c, x))
  {
    hide Inv, Untouched, TryOpen, TryAccept, TryRead, TryPeek, TrySend, CancelRead, CancelWrite, Reserve, Finish,
        Terminate;
    NoStreamsYet(c);
    match x
    case Open(dir) => TryOpenUntouched(c, dir);
    case Accept(dir) =>
      if c.life.ready {
        TryAcceptUntouched(c, dir);
      } else {
        AcceptNothing(c, dir);
      }
    case Read(id, n) => ReadUntouched(c, id, n);
    case Peek(id, n) => ReadUntouched(c, id, n);
    case StopReading(id, code) => CancelReadUntouched(c, id, code);
    case StopWriting(id, code) => CancelWriteUntouched(c, id, code);
    case PollSend(id) => WaitUntouched(c, id);
    case Send(id, data) => SendUntouched(c, id, data);
    case End(id) => SendUntouched(c, id, []);
    case AskPing => SameUntouched(c, RequestPing(c));
    case Flush => SameUntouched(c, TakeControl(c).0);
    case Close => TerminateUntouched(c);
  }

  // --------------------------------------------------- handling the next frame

  /** What the limits in force allow of the peer on a stream. */
  function RecvLimit(c: ConnState, id: StreamId): nat {
    if id in c.streams then c.streams[id].recv.recvMax else InitialGrant(c.isServer, c.config.streamWindow, id)
  }

  /** The stream exists, or the peer may open it. */
  predicate Known(c: ConnState, id: StreamId) {
    if Local(c.isServer, id) then id in c.streams else id.index < c.incoming.Get(id.dir).max
  }

  /** What an honest peer's next frame satisfies. total counts the stream data of the frames up to it. */
  predicate Fits(c: ConnState, f: Frame, peerWindow: nat, size: nat, total: nat) {
    match f
    case StreamData(id, _, _, _) => CanRecv(c.isServer, id) && Known(c, id) && size <= RecvLimit(c, id)
        && total <= c.flow.recvMax
    case ResetStream(id, _, _) => CanRecv(c.isServer, id) && Known(c, id) && size <= RecvLimit(c, id)
    case StopSending(id, _) => CanSend(c.isServer, id) && Known(c, id)
    case MaxStreamData(id, _) => CanSend(c.isServer, id) && Known(c, id)
    case Ping(response, sequence) => response ==> sequence < c.control.nextPing
    case Datagram(data) => 1 + |data| <= c.config.maxDatagram
    case TransportParameters(p) =>
      && p.initialMaxStreamDataBidiLocal == peerWindow && p.initialMaxStreamDataBidiRemote == peerWindow
      && p.initialMaxStreamDataUni == peerWindow
    case Blocked => false
    case _ => true
  }

  lemma {:induction false} CreateUpToUntouched(c: ConnState, dir: Dir, index: nat)
    requires Inv(c) && c.life.ready && index < c.incoming.Get(dir).max
    ensures Untouched(c, CreateUpTo(c, dir, index))
    decreases index + 1 - c.incoming.Get(dir).next
  {
    hide Inv, Untouched;
    if c.incoming.Get(dir).next <= index {
      var id := StreamId(c.incoming.Get(dir).next, dir, !c.isServer);
      FreshId(c, id);
      AddUntouched(c, id, false, Create(c, dir));
      CreateInv(c, dir);
      CreateUpToUntouched(Create(c, dir), dir, index);
      UntouchedTransitive(c, Create(c, dir), CreateUpTo(c, dir, index));
    } else {
      SameUntouched(c, c);
    }
  }

  /** A known stream of the right direction is found, or has completed. */
  lemma {:induction false} ResolveKnown(c: ConnState, id: StreamId, recv: bool)
    requires Inv(c) && c.life.ready && Known(c, id)
    requires if recv then CanRecv(c.isServer, id) else CanSend(c.isServer, id)
    ensures var (c1, look) := Resolve(c, id, recv);
      && Inv(c1) && Untouched(c, c1) && !look.Failed? && id in c1.streams && (look.Gone? <==> c1.streams[id].done)
      && c1.flow == c.flow && c1.config == c.config && c1.control == c.control && c1.life == c.life
          && c1.isServer == c.isServer
      && RecvLimit(c1, id) == RecvLimit(c, id)
  {
    hide Inv, Untouched;
    SameUntouched(c, c);
    KeyOf(c, id);
    ResolveInv(c, id, recv);
    var (c1, look) := Resolve(c, id, recv);
    KeyOf(c1, id);
    if !Local(c.isServer, id) {
      CreateUpToUntouched(c, id.dir, id.index);
      CreateUpToFrame(c, id.dir, id.index);
      CreateUpToNext(c, id.dir, id.index);
      CreateUpToKeeps(c, id.dir, id.index, id);
      CreateUpToLimit(c, id.dir, id.index, id);
    }
  }

  lemma {:induction false} CreateUpToLimit(c: ConnState, dir: Dir, index: nat, id: StreamId)
    requires Inv(c) && c.life.ready && index < c.incoming.Get(dir).max
    ensures RecvLimit(CreateUpTo(c, dir, index), id) == RecvLimit(c, id)
    decreases index + 1 - c.incoming.Get(dir).next
  {
    hide Inv;
    if c.incoming.Get(dir).next <= index {
      FreshId(c, StreamId(c.incoming.Get(dir).next, dir, !c.isServer));
      CreateInv(c, dir);
      CreateUpToLimit(Create(c, dir), dir, index, id);
    }
  }

  /** What happens to one stream is what the frame says, and the rest stays. */
  lemma {:induction false} StreamStepHeard(isServer: bool, peerWindow: nat, streams: Streams, heard: Said, f: Frame,
      id: StreamId, s: StreamState)
    requires StreamsHeard(isServer, peerWindow, streams, heard) && id in streams
    requires StreamHeard(StreamStep(StreamFold(heard, id, PeerGrant(isServer, peerWindow, id)), f, id), s)
    requires forall i, d :: i != id ==> StreamStep(d, f, i) == d
    ensures StreamsHeard(isServer, peerWindow, streams[id := s], heard + [f])
  {
    forall i: StreamId
      ensures HeardOf(streams[id := s], i, StreamFold(heard + [f], i, PeerGrant(isServer, peerWindow, i)),
          PeerGrant(isServer, peerWindow, i))
    {
      var g := PeerGrant(isServer, peerWindow, i);
      assert HeardOf(streams, i, StreamFold(heard, i, g), g);
      StreamAppend(heard, f, i, g);
    }
  }

  lemma {:induction false} AboutOne(f: Frame)
    requires f.StreamData? || f.ResetStream? || f.StopSending? || f.MaxStreamData?
    ensures forall i, d :: i != f.id ==> StreamStep(d, f, i) == d
  {
  }

  /** Putting together what was heard: one stream changed as f says, and the connection as a whole too. */
  lemma {:induction false} StepHears(c: ConnState, heard: Said, peerWindow: nat, f: Frame, s: StreamState,
      c': ConnState)
    requires Hears(c, heard, peerWindow) && c.life.ready
    requires f.StreamData? || f.ResetStream? || f.StopSending? || f.MaxStreamData?
    requires f.id in c.streams && c' == c.(streams := c.streams[f.id := s], flow := c'.flow, control := c'.control)
    requires StreamHeard(StreamStep(StreamFold(heard, f.id, PeerGrant(c.isServer, peerWindow, f.id)), f, f.id), s)
    requires c'.flow.sendMax == c.flow.sendMax && c'.flow.received == c.flow.received
        + (if f.StreamData? then |f.data| else 0)
    requires c'.control.peerPinged == c.control.peerPinged && c'.control.peerPingLast == c.control.peerPingLast
    ensures Hears(c', heard + [f], peerWindow)
  {
    hide StreamsHeard, StreamHeard, StreamFold;
    AboutOne(f);
    StreamStepHeard(c.isServer, peerWindow, c.streams, heard, f, f.id, s);
    ConnAppend(heard, f);
  }

  lemma {:induction false} HeardStream(c: ConnState, heard: Said, peerWindow: nat, id: StreamId)
    requires Hears(c, heard, peerWindow) && id in c.streams
    ensures StreamHeard(StreamFold(heard, id, PeerGrant(c.isServer, peerWindow, id)), c.streams[id])
  {
    hide ConnFold, ConnHeard;
    assert HeardOf(c.streams, id, StreamFold(heard, id, PeerGrant(c.isServer, peerWindow, id)),
        PeerGrant(c.isServer, peerWindow, id));
  }

  lemma {:induction false} NoStreamFault(c: ConnState, d: StreamDigest, s: StreamState, f: Frame)
    requires StreamHeard(d, s) && Settled(s) && f.StreamData? && StreamStep(d, f, f.id).ok && s.recv.canRecv
    requires f.offset + |f.data| <= s.recv.recvMax && c.flow.received + |f.data| <= c.flow.recvMax
    ensures !s.done && !s.recv.finRecv && !s.recv.recvReset
    ensures StreamFault(c, s.recv, f.offset, |f.data|, f.fin).None?
    ensures StreamHeard(StreamStep(d, f, f.id), s.(recv := Accepting(s.recv, f.data, f.fin)))
  {
  }

  lemma {:induction false} TakeStreamHears(c: ConnState, heard: Said, peerWindow: nat, f: Frame)
    requires Hears(c, heard, peerWindow) && c.life.ready && f.StreamData? && f.id in c.streams
    requires !c.streams[f.id].recv.finRecv && !c.streams[f.id].recv.recvReset
    requires StreamHeard(StreamStep(StreamFold(heard, f.id, PeerGrant(c.isServer, peerWindow, f.id)), f, f.id),
                         c.streams[f.id].(recv := Accepting(c.streams[f.id].recv, f.data, f.fin)))
    ensures Hears(TakeStream(c, f.id, f.data, f.fin), heard + [f], peerWindow)
  {
    hide Hears, StreamFold, StreamStep, StreamHeard, Untouched, Complete, Accepting;
    var s := c.streams[f.id];
    var s1 := s.(recv := Accepting(s.recv, f.data, f.fin));
    var c2 := SetStream(c, f.id, s1).(flow := c.flow.(received := c.flow.received + |f.data|));
    var c3 := if s.recv.readCancelled then Consume(c2, |f.data|) else c2;
    StepHears(c, heard, peerWindow, f, s1, c3);
    CompleteUntouched(c3, f.id);
    UntouchedHears(c3, Complete(c3, f.id), heard + [f], peerWindow);
  }

  /** Stream data from an honest peer is taken in, without complaint. */
  lemma {:induction false} HearData(c: ConnState, heard: Said, peerWindow: nat, f: Frame)
    requires Inv(c) && Hears(c, heard, peerWindow) && c.life.ready && f.StreamData?
    requires StreamStep(StreamFold(heard, f.id, PeerGrant(c.isServer, peerWindow, f.id)), f, f.id).ok
    requires Fits(c, f, peerWindow, f.offset + |f.data|, c.flow.received + |f.data|)
    ensures HandleFrame(c, f).1.Fine? && Hears(HandleFrame(c, f).0, heard + [f], peerWindow)
  {
    hide Inv, Hears, StreamFold, Untouched, TakeStream, StreamHeard, StreamStep, Accepting;
    ResolveKnown(c, f.id, true);
    var (c1, look) := Resolve(c, f.id, true);
    UntouchedHears(c, c1, heard, peerWindow);
    HeardStream(c1, heard, peerWindow, f.id);
    StreamOf(c1, f.id);
    NoStreamFault(c1, StreamFold(heard, f.id, PeerGrant(c.isServer, peerWindow, f.id)), c1.streams[f.id], f);
    TakeStreamHears(c1, heard, peerWindow, f);
  }

  lemma {:induction false} NoResetFault(c: ConnState, d: StreamDigest, s: StreamState, f: Frame)
    requires StreamHeard(d, s) && Settled(s) && f.ResetStream? && StreamStep(d, f, f.id).ok && s.recv.canRecv
    requires f.finalSize <= s.recv.recvMax && c.flow.received <= c.flow.recvMax
    ensures !s.done && !s.recv.recvReset && f.finalSize == s.recv.recvOffset
    ensures ResetFault(c, s.recv, f.finalSize).None?
    ensures StreamHeard(StreamStep(d, f, f.id), s.(recv := Resetting(s.recv, f.code, f.finalSize)))
  {
  }

  lemma {:induction false} TakeResetHears(c: ConnState, heard: Said, peerWindow: nat, f: Frame)
    requires Hears(c, heard, peerWindow) && c.life.ready && f.ResetStream? && f.id in c.streams
    requires !c.streams[f.id].recv.recvReset && f.finalSize == c.streams[f.id].recv.recvOffset
    requires StreamHeard(StreamStep(StreamFold(heard, f.id, PeerGrant(c.isServer, peerWindow, f.id)), f, f.id),
                         c.streams[f.id].(recv := Resetting(c.streams[f.id].recv, f.code, f.finalSize)))
    ensures Hears(TakeReset(c, f.id, f.code, f.finalSize), heard + [f], peerWindow)
  {
    hide Hears, StreamFold, StreamStep, StreamHeard, Untouched, Complete, Resetting;
    var s := c.streams[f.id];
    var s1 := s.(recv := Resetting(s.recv, f.code, f.finalSize));
    var c2 := Consume(SetStream(c, f.id, s1).(flow := c.flow.(received := c.flow.received + 0)), 0 + |s.recv.unread|);
    StepHears(c, heard, peerWindow, f, s1, c2);
    CompleteUntouched(c2, f.id);
    UntouchedHears(c2, Complete(c2, f.id), heard + [f], peerWindow);
  }

  lemma {:induction false} HearReset(c: ConnState, heard: Said, peerWindow: nat, f: Frame)
    requires Inv(c) && Hears(c, heard, peerWindow) && c.life.ready && f.ResetStream?
    requires StreamStep(StreamFold(heard, f.id, PeerGrant(c.isServer, peerWindow, f.id)), f, f.id).ok
    requires Fits(c, f, peerWindow, f.finalSize, c.flow.received)
    ensures HandleFrame(c, f).1.Fine? && Hears(HandleFrame(c, f).0, heard + [f], peerWindow)
  {
    hide Inv, Hears, StreamFold, Untouched, TakeReset, StreamHeard, StreamStep, Resetting;
    ResolveKnown(c, f.id, true);
    var (c1, look) := Resolve(c, f.id, true);
    UntouchedHears(c, c1, heard, peerWindow);
    HeardStream(c1, heard, peerWindow, f.id);
    StreamOf(c1, f.id);
    FlowOf(c1);
    NoResetFault(c1, StreamFold(heard, f.id, PeerGrant(c.isServer, peerWindow, f.id)), c1.streams[f.id], f);
    TakeResetHears(c1, heard, peerWindow, f);
  }

  lemma {:induction false} HearReverse(c: ConnState, heard: Said, peerWindow: nat, f: Frame)
    requires Inv(c) && Hears(c, heard, peerWindow) && c.life.ready && (f.StopSending? || f.MaxStreamData?)
    requires Fits(c, f, peerWindow, 0, 0)
    ensures HandleFrame(c, f).1.Fine? && Hears(HandleFrame(c, f).0, heard + [f], peerWindow)
  {
    hide Inv, Hears, StreamFold, Untouched, ResetSend;
    ResolveKnown(c, f.id, false);
    var (c1, look) := Resolve(c, f.id, false);
    UntouchedHears(c, c1, heard, peerWindow);
    HeardStream(c1, heard, peerWindow, f.id);
    var s := c1.streams[f.id];
    if look.Found? && f.MaxStreamData? {
      var c2 := RaiseSendMax(c1, f.id, f.max);
      assert c2 == c1.(streams := c1.streams[f.id := c2.streams[f.id]]);
      StepHears(c1, heard, peerWindow, f, c2.streams[f.id], c2);
    } else {
      assert c1 == c1.(streams := c1.streams[f.id := s]);
      StepHears(c1, heard, peerWindow, f, s, c1);
      if look.Found? {
        ResetSendUntouched(c1, f.id, StreamError(f.code, true));
        UntouchedHears(c1, ResetSend(c1, f.id, StreamError(f.code, true)), heard + [f], peerWindow);
      }
    }
  }

  /** Frames about the connection as a whole. */
  lemma {:induction false} HearConn(c: ConnState, heard: Said, peerWindow: nat, f: Frame)
    requires Inv(c) && Hears(c, heard, peerWindow) && !c.life.closed
    requires !f.StreamData? && !Queued(f)
    requires ConnStep(ConnFold(heard), f).ok && ConnFold(heard).ok && Fits(c, f, peerWindow, 0, 0)
    ensures !HandleFrame(c, f).1.Violation? && Hears(HandleFrame(c, f).0, heard + [f], peerWindow)
  {
    hide Inv;
    NoStreamsYet(c);
    ConnBegun(heard);
    ConnAppend(heard, f);
    var c' := HandleFrame(c, f).0;
    forall i: StreamId
      ensures HeardOf(c'.streams, i, StreamFold(heard + [f], i, PeerGrant(c.isServer, peerWindow, i)),
          PeerGrant(c.isServer, peerWindow, i))
    {
      var g := PeerGrant(c.isServer, peerWindow, i);
      assert HeardOf(c.streams, i, StreamFold(heard, i, g), g);
      StreamAppend(heard, f, i, g);
    }
    hide ConnFold, StreamFold;
    assert StreamsHeard(c.isServer, peerWindow, c'.streams, heard + [f]);
    hide StreamsHeard;
  }
}
