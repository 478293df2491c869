/**
 What an endpoint sends agrees with what it did, whatever its peer does. out is
 every frame it has put on the wire or is about to; the control queue comes
 after that. Each section that changes what must be said also says it.
 */
module Speaking {
  import opened Basics
  import opened StreamIds
  import opened Frames
  import opened Endpoints
  import opened EndpointInvariants
  import opened Evolution
  import opened Traffic
  import Varints

  type Said = seq<Frame>

  function InitialGrant(isServer: bool, window: nat, id: StreamId): nat {
    if CanRecv(isServer, id) then window else 0
  }

  /** What was said about a stream is what happened to it. */
  ghost predicate StreamSaid(d: StreamDigest, s: StreamState) {
    && d.ok && d.data == s.send.sentLog && d.fin == s.send.finSent && d.reset == s.send.sendErr.Some?
    && d.grant == s.recv.recvMax
    && d.stops <= 1 && (d.stops == 1 ==> s.recv.readCancelled)
  }

  ghost predicate SaidOf(streams: Streams, id: StreamId, d: StreamDigest, grant: nat) {
    if id in streams then StreamSaid(d, streams[id]) else d == Unsaid(grant)
  }

  ghost predicate StreamsSaid(isServer: bool, window: nat, streams: Streams, all: Said) {
    forall id: StreamId ::
      SaidOf(streams, id, StreamFold(all, id, InitialGrant(isServer, window, id)), InitialGrant(isServer, window, id))
  }

  /** A RESET_STREAM in the queue belongs to a stream that was reset. */
  ghost predicate QueueSaid(streams: Streams, ctrl: Said) {
    forall f | f in ctrl :: Queued(f) && (f.ResetStream? ==> f.id in streams && streams[f.id].send.sendErr.Some?)
  }

  /** The limits granted are those in force, or a flag says that the write loop will grant them. */
  predicate LimitsSaid(recvMax: nat, pending: bool, grant: nat) {
    grant <= recvMax && (pending || grant == recvMax)
  }

  predicate ConnSaid(flow: Flow, control: Control, incoming: PerDir<Incoming>, d: ConnDigest) {
    && d.ok && d.begun
    && LimitsSaid(flow.recvMax, control.maxDataPending, d.grant)
    && LimitsSaid(incoming.bidi.max, incoming.bidi.pending, d.bidi)
    && LimitsSaid(incoming.uni.max, incoming.uni.pending, d.uni)
    && d.total == flow.sent
    && (d.lastPing.Some? ==> d.lastPing.value < control.nextPing)
    && (control.pongPending ==> control.peerPinged && control.pongSequence <= control.peerPingLast)
  }

  /** What an endpoint may say at all. */
  predicate Sayable(c: ConnState, f: Frame) {
    match f
    case StreamData(id, _, data, _) => id in c.streams && CanSend(c.isServer, id) && |data| <= MAX_STREAM_DATA
    case ResetStream(id, code, _) =>
        && id in c.streams && CanSend(c.isServer, id)
        && c.streams[id].send.sendErr.Some? && c.streams[id].send.sendErr.value.code == code
    case StopSending(id, code) =>
      id in c.streams && CanRecv(c.isServer, id) && c.streams[id].recv.recvErr == Some(StreamError(code, false))
    case MaxStreamData(id, _) => id in c.streams && CanRecv(c.isServer, id)
    case Ping(response, sequence) => response ==> c.control.peerPinged && sequence <= c.control.peerPingLast
    case Datagram(data) => c.life.ready && |data| < Varints.LIMIT && DatagramLen(data) <= DatagramLimit(c)
    case TransportParameters(p) => p == LocalParameters(c.config)
    case ConnectionClose(_, _, _, _) => c.life.closed
    case Blocked => false
    case _ => true
  }

  ghost predicate AllSayable(c: ConnState, all: Said) {
    forall f | f in all :: Sayable(c, f)
  }

  ghost predicate Speaks(c: ConnState, out: Said) {
    && StreamsSaid(c.isServer, c.config.streamWindow, c.streams, out + c.control.frames)
    && QueueSaid(c.streams, c.control.frames)
    && ConnSaid(c.flow, c.control, c.incoming, ConnFold(out))
    && AllSayable(c, out + c.control.frames)
  }

  // ---------------------------------------------------------- building blocks

  lemma {:induction false} InitSpeaks(config: Config, isServer: bool)
    ensures Speaks(Init(config, isServer), [TransportParameters(LocalParameters(config))])
  {
    var out := [TransportParameters(LocalParameters(config))];
    assert out + [] == out && out == [] + out && out[..0] == [];
    forall id: StreamId ensures StreamFold(out, id,
        InitialGrant(isServer, config.streamWindow, id)) == Unsaid(InitialGrant(isServer, config.streamWindow, id)) {
      StreamAppend([], out[0], id, InitialGrant(isServer, config.streamWindow, id));
    }
    ConnAppend([], out[0]);
  }

  lemma {:induction false} SayableKept(c: ConnState, c': ConnState, f: Frame)
    requires Sayable(c, f) && Evolves(c, c')
    ensures Sayable(c', f)
  {
  }

  lemma {:induction false} AllSayableKept(c: ConnState, c': ConnState, all: Said)
    requires AllSayable(c, all) && Evolves(c, c')
    ensures AllSayable(c', all)
  {
    hide Sayable, Evolves;
    forall f | f in all ensures Sayable(c', f) {
      SayableKept(c, c', f);
    }
  }

  /** Nothing about a stream's sending side, its limit or its reader's cancellation changed. */
  predicate SameSaid(s: StreamState, s': StreamState) {
    && s'.send.sentLog == s.send.sentLog && s'.send.finSent == s.send.finSent
        && s'.send.sendErr.Some? == s.send.sendErr.Some?
    && s'.recv.recvMax == s.recv.recvMax
    && (s.recv.readCancelled ==> s'.recv.readCancelled)
  }

  /** Queueing f is what the change from s to s' calls for. */
  predicate Says(s: StreamState, f: Frame, id: StreamId, window: nat, s': StreamState) {
    match f
    case ResetStream(i, _, finalSize) =>
      && i == id && s'.send.sendErr.Some? && s.send.sendErr.None? && !s.send.finSent && finalSize == |s.send.sentLog|
      && s'.recv == s.recv && s'.send.sentLog == s.send.sentLog && !s'.send.finSent
    case MaxStreamData(i, max) =>
      && i == id && max == s'.recv.recvMax && max > s.recv.recvMax + Gap(window) && s'.send == s.send
      && s'.recv.readCancelled == s.recv.readCancelled
    case StopSending(i, _) =>
      && i == id && !s.recv.readCancelled && s'.recv.readCancelled && s'.send == s.send
          && s'.recv.recvMax == s.recv.recvMax
    case _ => false
  }

  predicate SaysAll(s: StreamState, fs: Said, id: StreamId, window: nat, s': StreamState) {
    |fs| <= 1 && if fs == [] then SameSaid(s, s') else Says(s, fs[0], id, window, s')
  }

  lemma {:induction false} StepSaid(d: StreamDigest, s: StreamState, f: Frame, id: StreamId, s': StreamState)
    requires StreamSaid(d, s) && Says(s, f, id, d.window, s')
    ensures StreamSaid(StreamStep(d, f, id), s') && Queued(f)
    ensures f.ResetStream? ==> f.id == id && s'.send.sendErr.Some?
    ensures forall i :: i != id ==> StreamStep(d, f, i) == d
  {
  }

  lemma {:induction false} EditStreamsSaid(isServer: bool, window: nat, streams: Streams, all: Said, id: StreamId,
      fs: Said, s: StreamState)
    requires StreamsSaid(isServer, window, streams, all) && id in streams
        && SaysAll(streams[id], fs, id, InitialGrant(isServer, window, id), s)
    ensures StreamsSaid(isServer, window, streams[id := s], all + fs)
  {
    if fs == [] {
      assert all + fs == all;
      forall i: StreamId
        ensures SaidOf(streams[id := s], i, StreamFold(all + fs, i, InitialGrant(isServer, window, i)),
            InitialGrant(isServer, window, i))
      {
        assert SaidOf(streams, i, StreamFold(all, i, InitialGrant(isServer, window, i)),
            InitialGrant(isServer, window, i));
      }
    } else {
      hide Says, StreamStep, StreamSaid;
      assert fs == [fs[0]];
      forall i: StreamId
        ensures SaidOf(streams[id := s], i, StreamFold(all + fs, i, InitialGrant(isServer, window, i)),
            InitialGrant(isServer, window, i))
      {
        var g := InitialGrant(isServer, window, i);
        assert SaidOf(streams, i, StreamFold(all, i, g), g);
        StreamAppend(all, fs[0], i, g);
        if i == id {
          FoldWindow(all, i, g);
          StepSaid(StreamFold(all, i, g), streams[id], fs[0], id, s);
        } else {
          StepOther(StreamFold(all, i, g), streams[id], fs[0], id, InitialGrant(isServer, window, id), s, i);
        }
      }
    }
  }

  lemma {:induction false} FoldWindow(all: Said, id: StreamId, grant: nat)
    ensures StreamFold(all, id, grant).window == grant
  {
    StreamPrefix(all, 0, id, grant);
    assert all[..0] == [];
  }

  lemma {:induction false} StepOther(d: StreamDigest, s: StreamState, f: Frame, id: StreamId, window: nat,
      s': StreamState, i: StreamId)
    requires Says(s, f, id, window, s') && i != id
    ensures StreamStep(d, f, i) == d
  {
  }

  lemma {:induction false} EditQueueSaid(streams: Streams, ctrl: Said, id: StreamId, fs: Said, window: nat,
      s: StreamState)
    requires QueueSaid(streams, ctrl) && id in streams && SaysAll(streams[id], fs, id, window, s)
    ensures QueueSaid(streams[id := s], ctrl + fs)
  {
  }

  /** Limits may rise if the write loop is told so. */
  predicate Announces(c: ConnState, c': ConnState) {
    && c'.flow.sent == c.flow.sent
    && c.flow.recvMax <= c'.flow.recvMax
    && (c'.control.maxDataPending
        || (c'.flow.recvMax == c.flow.recvMax && c'.control.maxDataPending == c.control.maxDataPending))
    && c'.control == c.control.(frames := c'.control.frames, maxDataPending := c'.control.maxDataPending,
        wake := c'.control.wake)
  }

  lemma {:induction false} EditSpeaks(c: ConnState, out: Said, id: StreamId, s: StreamState, fs: Said, c': ConnState)
    requires Speaks(c, out) && id in c.streams
        && SaysAll(c.streams[id], fs, id, InitialGrant(c.isServer, c.config.streamWindow, id), s)
    requires c' == c.(streams := c.streams[id := s], flow := c'.flow, control := c'.control)
    requires c'.control.frames == c.control.frames + fs && Announces(c, c')
    requires Evolves(c, c') && AllSayable(c', fs)
    ensures Speaks(c', out)
  {
    var all := out + c.control.frames;
    assert out + c'.control.frames == all + fs;
    EditStreamsSaid(c.isServer, c.config.streamWindow, c.streams, all, id, fs, s);
    EditQueueSaid(c.streams, c.control.frames, id, fs, InitialGrant(c.isServer, c.config.streamWindow, id), s);
    AllSayableKept(c, c', all);
    hide Evolves, StreamsSaid, QueueSaid, SaysAll, Sayable;
  }

  /** Completing a stream frees a slot, which the write loop is told to announce. */
  lemma {:induction false} CompleteSpeaks(c: ConnState, out: Said, id: StreamId)
    requires Speaks(c, out) && id in c.streams
    ensures Speaks(Complete(c, id), out)
  {
    hide Evolves, AllSayable, StreamsSaid, QueueSaid, ConnFold;
    var c' := Complete(c, id);
    CompleteEvolves(c, id);
    var s := c.streams[id];
    if Completes(s) {
      var s' := c'.streams[id];
      var all := out + c.control.frames;
      assert SaysAll(s, [], id, 0, s');
      EditStreamsSaid(c.isServer, c.config.streamWindow, c.streams, all, id, [], s');
      EditQueueSaid(c.streams, c.control.frames, id, [], 0, s');
      assert all + [] == all && c.control.frames + [] == c.control.frames;
      assert c'.streams == c.streams[id := s'];
      AllSayableKept(c, c', all);
    }
  }

  lemma {:induction false} EditCompleteSpeaks(c: ConnState, out: Said, id: StreamId, s: StreamState, fs: Said,
      c': ConnState)
    requires Speaks(c, out) && id in c.streams
        && SaysAll(c.streams[id], fs, id, InitialGrant(c.isServer, c.config.streamWindow, id), s)
    requires c' == c.(streams := c.streams[id := s], flow := c'.flow, control := c'.control)
    requires c'.control.frames == c.control.frames + fs && Announces(c, c')
    requires StreamEvolves(c.streams[id], s) && FlowEvolves(c.flow, c'.flow) && Adds(c.control, c'.control)
    requires AllSayable(c', fs)
    ensures Speaks(Complete(c', id), out)
  {
    hide Speaks, SaysAll, Announces, StreamEvolves, FlowEvolves, Adds, AllSayable, Evolves, Complete;
    EditEvolves(c, id, s, c');
    EditSpeaks(c, out, id, s, fs, c');
    CompleteSpeaks(c', out, id);
  }

  // -------------------------------------------------------------- the sections

  /** The connection after a stream changed to s, data came in or left the buffers, and fs was queued. */
  function Edited(c: ConnState, id: StreamId, s: StreamState, flow: Flow, n: nat, fs: Said): ConnState
    requires |fs| <= 1
  {
    var c1 := Consume(SetStream(c, id, s).(flow := flow), n);
    if fs == [] then c1 else Queue(c1, fs[0])
  }

  lemma {:induction false} EditedShape(c: ConnState, id: StreamId, s: StreamState, flow: Flow, n: nat, fs: Said)
    requires |fs| <= 1 && flow == c.flow.(received := flow.received) && c.flow.received <= flow.received
    requires c.flow.recvMax <= c.flow.consumed + c.config.connWindow
    ensures var c' := Edited(c, id, s, flow, n, fs);
      && c' == c.(streams := c.streams[id := s], flow := c'.flow, control := c'.control)
      && c'.control.frames == c.control.frames + fs && Announces(c, c')
      && FlowEvolves(c.flow, c'.flow) && Adds(c.control, c'.control)
  {
    assert fs == if fs == [] then [] else [fs[0]];
  }

  /** As EditCompleteSpeaks, for a change that consumes data. */
  lemma {:induction false} EditedSpeaks(c: ConnState, out: Said, id: StreamId, s: StreamState, flow: Flow, n: nat,
      fs: Said)
    requires Inv(c) && Speaks(c, out) && id in c.streams && |fs| <= 1
    requires SaysAll(c.streams[id], fs, id, InitialGrant(c.isServer, c.config.streamWindow, id), s)
        && StreamEvolves(c.streams[id], s)
    requires flow == c.flow.(received := flow.received) && c.flow.received <= flow.received
    requires AllSayable(Edited(c, id, s, flow, n, fs), fs)
    ensures Speaks(Complete(Edited(c, id, s, flow, n, fs), id), out)
  {
    hide Inv, Speaks, SaysAll, Announces, StreamEvolves, FlowEvolves, Adds, AllSayable, Complete, Edited;
    FlowOf(c);
    EditedShape(c, id, s, flow, n, fs);
    EditCompleteSpeaks(c, out, id, s, fs, Edited(c, id, s, flow, n, fs));
  }

  lemma {:induction false} NothingSayable(c: ConnState)
    ensures AllSayable(c, [])
  {
  }

  lemma {:induction false} AcceptingSays(s: StreamState, data: seq<byte>, fin: bool, id: StreamId, window: nat)
    requires !s.recv.finRecv && !s.recv.recvReset
    ensures var s1 := s.(recv := Accepting(s.recv, data, fin));
      SaysAll(s, [], id, window, s1) && StreamEvolves(s, s1)
  {
  }

  lemma {:induction false} TakeStreamSpeaks(c: ConnState, out: Said, id: StreamId, data: seq<byte>, fin: bool)
    requires Inv(c) && Speaks(c, out) && id in c.streams
    ensures Speaks(TakeStream(c, id, data, fin), out)
  {
    hide Inv, Speaks, Complete, Accepting, SaysAll, StreamEvolves, AllSayable, Consuming;
    var s := c.streams[id];
    if !s.recv.finRecv && !s.recv.recvReset {
      var s1 := s.(recv := Accepting(s.recv, data, fin));
      var f1 := c.flow.(received := c.flow.received + |data|);
      AcceptingSays(s, data, fin, id, InitialGrant(c.isServer, c.config.streamWindow, id));
      if s.recv.readCancelled {
        NothingSayable(Edited(c, id, s1, f1, |data|, []));
        EditedSpeaks(c, out, id, s1, f1, |data|, []);
      } else {
        PlainSpeaks(c, out, id, s1, f1);
      }
    }
  }

  /** As EditedSpeaks, when nothing is consumed and nothing queued. */
  lemma {:induction false} PlainSpeaks(c: ConnState, out: Said, id: StreamId, s: StreamState, flow: Flow)
    requires Speaks(c, out) && id in c.streams && StreamEvolves(c.streams[id], s)
    requires SaysAll(c.streams[id], [], id, InitialGrant(c.isServer, c.config.streamWindow, id), s)
    requires flow == c.flow.(received := flow.received) && c.flow.received <= flow.received
    ensures Speaks(Complete(SetStream(c, id, s).(flow := flow), id), out)
  {
    hide Speaks, SaysAll, StreamEvolves, AllSayable, Complete;
    var c' := SetStream(c, id, s).(flow := flow);
    NothingSayable(c');
    EditCompleteSpeaks(c, out, id, s, [], c');
  }

  lemma {:induction false} ResettingSays(s: StreamState, code: nat, finalSize: nat, id: StreamId, window: nat)
    requires !s.recv.recvReset && s.recv.recvOffset <= finalSize && (s.recv.finRecv ==> finalSize == s.recv.recvOffset)
    ensures var s1 := s.(recv := Resetting(s.recv, code, finalSize));
      SaysAll(s, [], id, window, s1) && StreamEvolves(s, s1)
  {
  }

  lemma {:induction false} TakeResetSpeaks(c: ConnState, out: Said, id: StreamId, code: nat, finalSize: nat)
    requires Inv(c) && Speaks(c, out) && id in c.streams && ResetFault(c, c.streams[id].recv, finalSize).None?
    ensures Speaks(TakeReset(c, id, code, finalSize), out)
  {
    hide Inv, Speaks, Complete, Resetting, SaysAll, StreamEvolves, AllSayable, Consuming;
    var s := c.streams[id];
    if !s.recv.recvReset {
      var s1 := s.(recv := Resetting(s.recv, code, finalSize));
      var skipped := finalSize - s.recv.recvOffset;
      var f1 := c.flow.(received := c.flow.received + skipped);
      var n := skipped + |s.recv.unread|;
      ResettingSays(s, code, finalSize, id, InitialGrant(c.isServer, c.config.streamWindow, id));
      NothingSayable(Edited(c, id, s1, f1, n, []));
      EditedSpeaks(c, out, id, s1, f1, n, []);
    }
  }

  lemma {:induction false} ResetSendSpeaks(c: ConnState, out: Said, id: StreamId, reason: StreamError)
    requires Inv(c) && Speaks(c, out) && id in c.streams && CanSend(c.isServer, id)
    ensures Speaks(ResetSend(c, id, reason), out)
  {
    hide Inv, Speaks, Complete;
    StreamOf(c, id);
    var s := c.streams[id];
    if !SendDone(s.send) {
      var s1 := s.(send := s.send.(sendErr := Some(reason), writeSignal := s.send.writeSignal.Broadcast()));
      var f := ResetStream(id, reason.code, s.send.sendOffset);
      EditCompleteSpeaks(c, out, id, s1, [f], Queue(SetStream(c, id, s1), f));
    }
  }

  lemma {:induction false} RaiseSendMaxSpeaks(c: ConnState, out: Said, id: StreamId, max: nat)
    requires Speaks(c, out) && id in c.streams
    ensures Speaks(RaiseSendMax(c, id, max), out)
  {
    hide Speaks, Evolves;
    var s := c.streams[id];
    RaiseSendMaxEvolves(c, id, max);
    if max > s.send.sendMax {
      var s1 := s.(send := s.send.(sendMax := max, writeSignal := s.send.writeSignal.Broadcast()));
      EditSpeaks(c, out, id, s1, [], SetStream(c, id, s1));
    }
  }

  /** A stream that did not exist, of which nothing was said. */
  lemma {:induction false} AddSpeaks(c: ConnState, out: Said, id: StreamId, s: StreamState, c': ConnState)
    requires Speaks(c, out) && id !in c.streams && Evolves(c, c')
    requires c' == c.(streams := c.streams[id := s], outgoing := c'.outgoing, incoming := c'.incoming)
    requires s.send.sentLog == [] && !s.send.finSent && s.send.sendErr.None? && !s.recv.readCancelled
    requires s.recv.recvMax == InitialGrant(c.isServer, c.config.streamWindow, id)
    requires c'.incoming.bidi.max == c.incoming.bidi.max && c'.incoming.bidi.pending == c.incoming.bidi.pending
    requires c'.incoming.uni.max == c.incoming.uni.max && c'.incoming.uni.pending == c.incoming.uni.pending
    ensures Speaks(c', out)
  {
    hide Evolves, Sayable, ConnFold;
    var all := out + c.control.frames;
    forall i: StreamId
      ensures SaidOf(c'.streams, i, StreamFold(all, i, InitialGrant(c.isServer, c.config.streamWindow, i)),
          InitialGrant(c.isServer, c.config.streamWindow, i))
    {
      assert SaidOf(c.streams, i, StreamFold(all, i, InitialGrant(c.isServer, c.config.streamWindow, i)),
          InitialGrant(c.isServer, c.config.streamWindow, i));
    }
    AllSayableKept(c, c', all);
  }

  lemma {:induction false} CreateSpeaks(c: ConnState, out: Said, dir: Dir)
    requires Inv(c) && Speaks(c, out)
    ensures Speaks(Create(c, dir), out)
  {
    hide Inv, Speaks, Evolves;
    var id := StreamId(c.incoming.Get(dir).next, dir, !c.isServer);
    FreshId(c, id);
    CreateEvolves(c, dir);
    AddSpeaks(c, out, id, NewStream(c, id, false), Create(c, dir));
  }

  lemma {:induction false} CreateUpToSpeaks(c: ConnState, out: Said, dir: Dir, index: nat)
    requires Inv(c) && Speaks(c, out) && c.life.ready && index < c.incoming.Get(dir).max
    ensures Speaks(CreateUpTo(c, dir, index), out)
    decreases index + 1 - c.incoming.Get(dir).next
  {
    hide Inv, Speaks;
    if c.incoming.Get(dir).next <= index {
      CreateInv(c, dir);
      CreateSpeaks(c, out, dir);
      CreateUpToSpeaks(Create(c, dir), out, dir, index);
    }
  }

  lemma {:induction false} ResolveSpeaks(c: ConnState, out: Said, id: StreamId, recv: bool)
    requires Inv(c) && Speaks(c, out) && c.life.ready
    ensures Speaks(Resolve(c, id, recv).0, out)
  {
    hide Inv, Speaks;
    if !Local(c.isServer, id) && id.index < c.incoming.Get(id.dir).max {
      CreateUpToSpeaks(c, out, id.dir, id.index);
    }
  }

  lemma {:induction false} HandleDataSpeaks(c: ConnState, out: Said, f: Frame)
    requires Inv(c) && Speaks(c, out) && c.life.ready && (f.StreamData? || f.ResetStream?)
    ensures Speaks(HandleFrame(c, f).0, out)
  {
    hide Speaks, Inv, TakeStream, TakeReset, StreamFault, ResetFault;
    ResolveSpeaks(c, out, f.id, true);
    ResolveInv(c, f.id, true);
    var (c1, look) := Resolve(c, f.id, true);
    if look.Found? {
      if f.StreamData? {
        TakeStreamSpeaks(c1, out, f.id, f.data, f.fin);
      } else if ResetFault(c1, c1.streams[f.id].recv, f.finalSize).None? {
        ResetFaultBound(c1, f.id, f.finalSize);
        TakeResetSpeaks(c1, out, f.id, f.code, f.finalSize);
      }
    }
  }

  lemma {:induction false} HandleReverseSpeaks(c: ConnState, out: Said, f: Frame)
    requires Inv(c) && Speaks(c, out) && c.life.ready && (f.StopSending? || f.MaxStreamData?)
    ensures Speaks(HandleFrame(c, f).0, out)
  {
    hide Speaks, Inv, ResetSend, RaiseSendMax;
    ResolveSpeaks(c, out, f.id, false);
    ResolveInv(c, f.id, false);
    var (c1, look) := Resolve(c, f.id, false);
    if look.Found? {
      if f.StopSending? {
        ResetSendSpeaks(c1, out, f.id, StreamError(f.code, true));
      } else {
        RaiseSendMaxSpeaks(c1, out, f.id, f.max);
      }
    }
  }

  /** The streams and the queue stay as they are. */
  lemma {:induction false} SameStreamsSpeak(c: ConnState, out: Said, c': ConnState)
    requires Speaks(c, out) && Evolves(c, c')
    requires c'.isServer == c.isServer && c'.config == c.config && c'.streams == c.streams
    requires c'.control.frames == c.control.frames && ConnSaid(c'.flow, c'.control, c'.incoming, ConnFold(out))
    ensures Speaks(c', out)
  {
    hide Evolves, StreamsSaid, QueueSaid, Sayable, ConnSaid;
    AllSayableKept(c, c', out + c.control.frames);
  }

  lemma {:induction false} HandleFrameSpeaks(c: ConnState, out: Said, f: Frame)
    requires Inv(c) && !c.life.closed && Speaks(c, out)
    ensures Speaks(HandleFrame(c, f).0, out)
  {
    hide Inv, HandleStream, HandleReset, HandleStopSending, HandleMaxStreamData, Evolves, StreamsSaid, QueueSaid,
        AllSayable;
    if f.TransportParameters? != !c.life.ready {
    } else if f.StreamData? || f.ResetStream? {
      HandleDataSpeaks(c, out, f);
    } else if f.StopSending? || f.MaxStreamData? {
      HandleReverseSpeaks(c, out, f);
    } else {
      HandleFrameEvolves(c, f);
      SameStreamsSpeak(c, out, HandleFrame(c, f).0);
    }
  }

  lemma {:induction false} TryOpenSpeaks(c: ConnState, out: Said, dir: Dir)
    requires Inv(c) && Speaks(c, out)
    ensures Speaks(TryOpen(c, dir).0, out)
  {
    hide Inv, Evolves, StreamsSaid, QueueSaid, AllSayable;
    TryOpenEvolves(c, dir);
    var id := StreamId(c.outgoing.Get(dir).next, dir, c.isServer);
    FreshId(c, id);
    if !c.life.closed {
      if c.outgoing.Get(dir).next < c.outgoing.Get(dir).max {
        hide Speaks;
        AddSpeaks(c, out, id, NewStream(c, id, true), TryOpen(c, dir).0);
      } else {
        SameStreamsSpeak(c, out, TryOpen(c, dir).0);
      }
    }
  }

  lemma {:induction false} TryAcceptSpeaks(c: ConnState, out: Said, dir: Dir)
    requires Speaks(c, out) && forall id | id in c.incoming.Get(dir).queue :: id in c.streams
    ensures Speaks(TryAccept(c, dir).0, out)
  {
    hide Evolves, StreamsSaid, QueueSaid, Complete;
    var inc := c.incoming.Get(dir);
    TryAcceptEvolves(c, dir);
    if !c.life.closed {
      if inc.queue == [] {
        SameStreamsSpeak(c, out, TryAccept(c, dir).0);
      } else {
        var id := inc.queue[0];
        var s := c.streams[id].(accepted := true);
        var c1 := SetStream(c, id, s);
        EditEvolves(c, id, s, c1);
        EditSpeaks(c, out, id, s, [], c1);
        var c2 := c1.(incoming := Put(c.incoming, dir, inc.(queue := inc.queue[1..])));
        SameStreamsEvolve(c1, c2);
        SameStreamsSpeak(c1, out, c2);
        CompleteSpeaks(c2, out, id);
      }
    }
  }

  /** Reading moves the limit exactly if it says so, and by more than half a window. */
  lemma {:induction false} ReadingSays(s: StreamState, k: nat, id: StreamId, window: nat)
    requires RecvOk(s.recv, window) && k <= |s.recv.unread| && s.recv.canRecv
    ensures var (r, extended) := Reading(s.recv, k, window);
      var s1 := s.(recv := r);
      && SaysAll(s, if extended then [MaxStreamData(id, r.recvMax)] else [], id, window, s1) && StreamEvolves(s, s1)
  {
    hide RecvEvolves, SendEvolves;
    ReadingEvolves(s.recv, k, window);
    HalvesReflexive(s);
  }

  lemma {:induction false} TakeSpeaks(c: ConnState, out: Said, id: StreamId, k: nat)
    requires Inv(c) && Speaks(c, out) && id in c.streams && CanRecv(c.isServer, id) && k <= |c.streams[id].recv.unread|
    ensures Speaks(Take(c, id, k), out)
  {
    hide Inv, Speaks, Complete, Reading, SaysAll, StreamEvolves, Consuming;
    StreamOf(c, id);
    var s := c.streams[id];
    var (r, extended) := Reading(s.recv, k, c.config.streamWindow);
    var s1 := s.(recv := r);
    var fs := if extended then [MaxStreamData(id, r.recvMax)] else [];
    ReadingSays(s, k, id, c.config.streamWindow);
    var c' := Edited(c, id, s1, c.flow, k, fs);
    assert AllSayable(c', fs);
    hide Sayable, AllSayable, RecvOk, SendOk;
    EditedSpeaks(c, out, id, s1, c.flow, k, fs);
    assert SetStream(c, id, s1).(flow := c.flow) == SetStream(c, id, s1);
  }

  lemma {:induction false} WaitToReadSpeaks(c: ConnState, out: Said, id: StreamId)
    requires Speaks(c, out) && id in c.streams
    ensures Speaks(WaitToRead(c, id).0, out)
  {
    hide Speaks, Evolves;
    var s := c.streams[id];
    WaitToReadEvolves(c, id);
    EditSpeaks(c, out, id, s.(recv := s.recv.(readSignal := s.recv.readSignal.Wait())), [], WaitToRead(c, id).0);
  }

  lemma {:induction false} TryReadSpeaks(c: ConnState, out: Said, id: StreamId, n: nat)
    requires Inv(c) && Speaks(c, out) && id in c.streams && CanRecv(c.isServer, id)
    ensures Speaks(TryRead(c, id, n).0, out) && Speaks(TryPeek(c, id, n).0, out)
  {
    hide Speaks, Inv, Take, WaitToRead;
    TakeSpeaks(c, out, id, Min(n, |c.streams[id].recv.unread|));
    WaitToReadSpeaks(c, out, id);
  }

  lemma {:induction false} CancelSays(s: StreamState, code: nat, id: StreamId, window: nat)
    requires s.recv.recvErr.None? && !s.recv.readCancelled
    ensures var r := Cancelling(s.recv, code);
      var s1 := s.(recv := r);
      && SaysAll(s, if r.finRecv then [] else [StopSending(id, code)], id, window, s1) && StreamEvolves(s, s1)
  {
  }

  lemma {:induction false} CancelReadSpeaks(c: ConnState, out: Said, id: StreamId, code: nat)
    requires Inv(c) && Speaks(c, out) && id in c.streams && CanRecv(c.isServer, id)
    ensures Speaks(CancelRead(c, id, code), out)
  {
    hide Inv, Speaks, Complete, SaysAll, StreamEvolves, Consuming, RecvDone;
    StreamOf(c, id);
    var s := c.streams[id];
    if !c.life.closed && s.recv.recvErr.None? && !RecvDone(s.recv) {
      var r := Cancelling(s.recv, code);
      var s1 := s.(recv := r);
      var fs := if r.finRecv then [] else [StopSending(id, code)];
      CancelSays(s, code, id, InitialGrant(c.isServer, c.config.streamWindow, id));
      assert AllSayable(Edited(c, id, s1, c.flow, |s.recv.unread|, fs), fs);
      hide Sayable, AllSayable, RecvOk, SendOk;
      EditedSpeaks(c, out, id, s1, c.flow, |s.recv.unread|, fs);
      assert SetStream(c, id, s1).(flow := c.flow) == SetStream(c, id, s1);
    }
  }

  lemma {:induction false} TrySendSpeaks(c: ConnState, out: Said, id: StreamId)
    requires Speaks(c, out) && id in c.streams
    ensures Speaks(TrySend(c, id).0, out)
  {
    hide Speaks, Evolves;
    var s := c.streams[id];
    TrySendEvolves(c, id);
    if !SendFails(c, s.send) && SendCredit(c.flow, s.send) == 0 {
      EditSpeaks(c, out, id, s.(send := s.send.(writeSignal := s.send.writeSignal.Wait())), [], TrySend(c, id).0);
    }
  }

  lemma {:induction false} HushedSaid(isServer: bool, window: nat, streams: Streams, streams': Streams, all: Said,
      ctrl: Said)
    requires StreamsSaid(isServer, window, streams, all) && QueueSaid(streams, ctrl)
    requires streams'.Keys == streams.Keys && forall id | id in streams :: streams'[id] == Hushed(streams[id])
    ensures StreamsSaid(isServer, window, streams', all) && QueueSaid(streams', ctrl)
  {
    forall i: StreamId
      ensures SaidOf(streams', i, StreamFold(all, i, InitialGrant(isServer, window, i)),
          InitialGrant(isServer, window, i))
    {
      assert SaidOf(streams, i, StreamFold(all, i, InitialGrant(isServer, window, i)),
          InitialGrant(isServer, window, i));
      assert i in streams'.Keys <==> i in streams.Keys;
    }
    forall f | f in ctrl && f.ResetStream? ensures f.id in streams' && streams'[f.id].send.sendErr.Some? {
      assert f.id in streams'.Keys;
    }
  }

  lemma {:induction false} TerminateSpeaks(c: ConnState, out: Said)
    requires Inv(c) && Speaks(c, out)
    ensures Speaks(Terminate(c), out)
  {
    hide Evolves, Inv, Sayable, ConnFold, StreamsSaid, QueueSaid, AllSayable;
    var c' := Terminate(c);
    TerminateEvolves(c);
    if !c.life.closed {
      var all := out + c.control.frames;
      AllSayableKept(c, c', all);
      assert c'.streams.Keys == c.streams.Keys;
      HushedSaid(c.isServer, c.config.streamWindow, c.streams, c'.streams, all, c.control.frames);
    }
  }

  lemma {:induction false} RequestPingSpeaks(c: ConnState, out: Said)
    requires Speaks(c, out)
    ensures Speaks(RequestPing(c), out)
  {
    hide Evolves, StreamsSaid, QueueSaid, AllSayable;
    ControlEvolves(c);
    SameStreamsSpeak(c, out, RequestPing(c));
  }

  // ------------------------------------------------ sections that put frames out

  /** A data or closing frame goes out ahead of the queue. */
  lemma {:induction false} OutStreamsSaid(isServer: bool, window: nat, streams: Streams, out: Said, f: Frame,
      ctrl: Said, id: StreamId, s: StreamState)
    requires StreamsSaid(isServer, window, streams, out + ctrl) && QueueSaid(streams, ctrl)
    requires id in streams && f.StreamData? && f.id == id && f.offset == |streams[id].send.sentLog|
    requires !streams[id].send.finSent && streams[id].send.sendErr.None?
    requires s.recv == streams[id].recv && s.send.sentLog == streams[id].send.sentLog + f.data
        && s.send.finSent == f.fin && s.send.sendErr.None?
    ensures StreamsSaid(isServer, window, streams[id := s], out + [f] + ctrl)
  {
    forall i: StreamId
      ensures SaidOf(streams[id := s], i, StreamFold(out + [f] + ctrl, i, InitialGrant(isServer, window, i)),
          InitialGrant(isServer, window, i))
    {
      var g := InitialGrant(isServer, window, i);
      assert SaidOf(streams, i, StreamFold(out + ctrl, i, g), g);
      StreamInsert(out, f, ctrl, i, g);
    }
  }

  lemma {:induction false} OutSpeaks(c: ConnState, out: Said, id: StreamId, s: StreamState, f: Frame, c': ConnState)
    requires Speaks(c, out) && id in c.streams && Evolves(c, c') && !ConnFold(out).over
    requires f.StreamData? && f.id == id && f.offset == |c.streams[id].send.sentLog| && CanSend(c.isServer, id)
        && |f.data| <= MAX_STREAM_DATA
    requires !c.streams[id].send.finSent && c.streams[id].send.sendErr.None?
    requires s.recv == c.streams[id].recv && s.send.sentLog == c.streams[id].send.sentLog + f.data
        && s.send.finSent == f.fin && s.send.sendErr.None?
    requires c' == c.(streams := c.streams[id := s], flow := c.flow.(sent := c.flow.sent + |f.data|))
    ensures Speaks(c', out + [f])
  {
    hide Evolves, StreamsSaid, ConnFold;
    var ctrl := c.control.frames;
    OutStreamsSaid(c.isServer, c.config.streamWindow, c.streams, out, f, ctrl, id, s);
    ConnAppend(out, f);
    AllSayableKept(c, c', out + ctrl);
    assert Sayable(c', f);
    hide Sayable;
    assert forall g | g in out + [f] + ctrl :: g == f || g in out + ctrl;
  }

  lemma {:induction false} ReserveSpeaks(c: ConnState, out: Said, id: StreamId, p: seq<byte>)
    requires Inv(c) && Speaks(c, out) && id in c.streams && CanSend(c.isServer, id)
        && (ConnFold(out).over ==> c.life.closed)
    ensures Speaks(Reserve(c, id, p).0, out + Reserve(c, id, p).1)
  {
    hide Inv, Speaks, Evolves, ConnFold;
    ReserveEvolves(c, id, p);
    StreamOf(c, id);
    var s := c.streams[id];
    var n := Min(|p|, Min(MAX_STREAM_DATA, SendCredit(c.flow, s.send)));
    if SendFails(c, s.send) || n == 0 {
      assert out + [] == out;
    } else {
      var s1 := s.(send := s.send.(sendOffset := s.send.sendOffset + n, sentLog := s.send.sentLog + p[..n]));
      OutSpeaks(c, out, id, s1, StreamData(id, s.send.sendOffset, p[..n], false), Reserve(c, id, p).0);
    }
  }

  lemma {:induction false} FinishSpeaks(c: ConnState, out: Said, id: StreamId)
    requires Inv(c) && Speaks(c, out) && id in c.streams && CanSend(c.isServer, id)
        && (ConnFold(out).over ==> c.life.closed)
    ensures Speaks(Finish(c, id).0, out + Finish(c, id).1)
  {
    hide Inv, Speaks, Evolves, ConnFold, Complete;
    StreamOf(c, id);
    var s := c.streams[id];
    if SendFails(c, s.send) {
      assert out + [] == out;
    } else {
      var s1 := s.(send := s.send.(finSent := true, writeSignal := s.send.writeSignal.Broadcast()));
      var c1 := SetStream(c, id, s1);
      var f := StreamData(id, s.send.sendOffset, [], true);
      EditEvolves(c, id, s1, c1);
      assert s.send.sentLog + [] == s.send.sentLog;
      assert c1 == c.(streams := c.streams[id := s1], flow := c.flow.(sent := c.flow.sent + |f.data|));
      OutSpeaks(c, out, id, s1, f, c1);
      CompleteSpeaks(c1, out + [f], id);
    }
  }

  /** A frame that says nothing about streams or limits. */
  lemma {:induction false} AsideSpeaks(c: ConnState, out: Said, f: Frame)
    requires Speaks(c, out) && Sayable(c, f) && !ConnFold(out).over && (f.Datagram? || f.ConnectionClose?)
    ensures Speaks(c, out + [f])
  {
    var ctrl := c.control.frames;
    ConnAppend(out, f);
    forall i: StreamId
      ensures SaidOf(c.streams, i,
          StreamFold(out + [f] + ctrl, i, InitialGrant(c.isServer, c.config.streamWindow, i)),
          InitialGrant(c.isServer, c.config.streamWindow, i))
    {
      var g := InitialGrant(c.isServer, c.config.streamWindow, i);
      assert SaidOf(c.streams, i, StreamFold(out + ctrl, i, g), g);
      StreamInsert(out, f, ctrl, i, g);
    }
    assert forall g | g in out + [f] + ctrl :: g == f || g in out + ctrl;
  }

  /** With the queue empty, a frame about the connection as a whole. */
  lemma {:induction false} TailSpeaks(c: ConnState, out: Said, f: Frame, c': ConnState)
    requires Speaks(c, out) && c.control.frames == [] && Evolves(c, c')
    requires c' == c.(incoming := c'.incoming, control := c'.control) && c'.control.frames == []
    requires !Queued(f) && !f.StreamData? && Sayable(c', f)
    requires ConnSaid(c'.flow, c'.control, c'.incoming, ConnStep(ConnFold(out), f))
    ensures Speaks(c', out + [f])
  {
    assert out + [] == out && out + [f] + [] == out + [f];
    forall i: StreamId
      ensures SaidOf(c.streams, i, StreamFold(out + [f], i, InitialGrant(c.isServer, c.config.streamWindow, i)),
          InitialGrant(c.isServer, c.config.streamWindow, i))
    {
      var g := InitialGrant(c.isServer, c.config.streamWindow, i);
      assert SaidOf(c.streams, i, StreamFold(out, i, g), g);
      StreamAppend(out, f, i, g);
    }
    ConnAppend(out, f);
    AllSayableKept(c, c', out);
    hide Evolves, Sayable, StreamsSaid;
    assert forall g | g in out + [f] :: g == f || g in out;
  }

  lemma {:induction false} MoveQueue(c: ConnState, out: Said)
    requires Speaks(c, out) && !ConnFold(out).over
    ensures Speaks(c.(control := c.control.(frames := [])), out + c.control.frames)
    ensures ConnFold(out + c.control.frames) == ConnFold(out)
  {
    var ctrl := c.control.frames;
    var c' := c.(control := c.control.(frames := []));
    ConnSkip(out, ctrl);
    assert out + ctrl + [] == out + ctrl;
    forall f | f in out + ctrl ensures Sayable(c', f) {
      assert Sayable(c, f);
    }
    hide StreamsSaid, Sayable;
  }

  /** The limits and pings that were due, one frame at a time. */
  lemma {:induction false} FlagSpeaks(c: ConnState, out: Said)
    requires Speaks(c, out) && c.control.frames == [] && !ConnFold(out).over
    ensures c.control.maxDataPending ==>
        Speaks(c.(control := c.control.(maxDataPending := false)), out + [MaxData(c.flow.recvMax)])
    ensures c.incoming.bidi.pending ==>
      Speaks(c.(incoming := c.incoming.(bidi := c.incoming.bidi.(pending := false))), out
          + [MaxStreams(Bidi, c.incoming.bidi.max)])
    ensures c.incoming.uni.pending ==>
      Speaks(c.(incoming := c.incoming.(uni := c.incoming.uni.(pending := false))), out
          + [MaxStreams(Uni, c.incoming.uni.max)])
    ensures c.control.pongPending ==>
        Speaks(c.(control := c.control.(pongPending := false)), out + [Ping(true, c.control.pongSequence)])
    ensures c.control.pingPending ==>
      Speaks(c.(control := c.control.(pingPending := false, nextPing := c.control.nextPing + 1)), out
          + [Ping(false, c.control.nextPing)])
  {
    hide Evolves, StreamsSaid, QueueSaid, AllSayable, ConnFold;
    if c.control.maxDataPending {
      var c' := c.(control := c.control.(maxDataPending := false));
      SameStreamsEvolve(c, c');
      TailSpeaks(c, out, MaxData(c.flow.recvMax), c');
    }
    if c.incoming.bidi.pending {
      var c' := c.(incoming := c.incoming.(bidi := c.incoming.bidi.(pending := false)));
      SameStreamsEvolve(c, c');
      TailSpeaks(c, out, MaxStreams(Bidi, c.incoming.bidi.max), c');
    }
    if c.incoming.uni.pending {
      var c' := c.(incoming := c.incoming.(uni := c.incoming.uni.(pending := false)));
      SameStreamsEvolve(c, c');
      TailSpeaks(c, out, MaxStreams(Uni, c.incoming.uni.max), c');
    }
    PingSpeaks(c, out);
  }

  lemma {:induction false} PingSpeaks(c: ConnState, out: Said)
    requires Speaks(c, out) && c.control.frames == [] && !ConnFold(out).over
    ensures c.control.pongPending ==>
        Speaks(c.(control := c.control.(pongPending := false)), out + [Ping(true, c.control.pongSequence)])
    ensures c.control.pingPending ==>
      Speaks(c.(control := c.control.(pingPending := false, nextPing := c.control.nextPing + 1)), out
          + [Ping(false, c.control.nextPing)])
  {
    hide Evolves, StreamsSaid, QueueSaid, AllSayable, ConnFold;
    if c.control.pongPending {
      var c' := c.(control := c.control.(pongPending := false));
      SameStreamsEvolve(c, c');
      TailSpeaks(c, out, Ping(true, c.control.pongSequence), c');
    }
    if c.control.pingPending {
      var c' := c.(control := c.control.(pingPending := false, nextPing := c.control.nextPing + 1));
      SameStreamsEvolve(c, c');
      TailSpeaks(c, out, Ping(false, c.control.nextPing), c');
    }
  }

  lemma {:induction false} NotOver(out: Said, f: Frame)
    requires !ConnFold(out).over && !f.ConnectionClose?
    ensures !ConnFold(out + [f]).over
  {
    ConnAppend(out, f);
  }

  lemma {:induction false} LimitsSpeak(c: ConnState, out: Said)
    requires Speaks(c, out) && c.control.frames == [] && !ConnFold(out).over
    ensures Speaks(c.(control := c.control.(maxDataPending := false),
                      incoming := PerDir(c.incoming.bidi.(pending := false), c.incoming.uni.(pending := false))), out
                          + LimitFrames(c))
    ensures !ConnFold(out + LimitFrames(c)).over
  {
    hide Speaks, ConnFold;
    FlagSpeaks(c, out);
    var f1 := MaxData(c.flow.recvMax);
    NotOver(out, f1);
    var c1, o1 := c.(control := c.control.(maxDataPending := false)), if c.control.maxDataPending then out + [f1]
        else out;
    assert c.control.maxDataPending || c1 == c;
    FlagSpeaks(c1, o1);
    var f2 := MaxStreams(Bidi, c.incoming.bidi.max);
    NotOver(o1, f2);
    var c2, o2 := c1.(incoming := c.incoming.(bidi := c.incoming.bidi.(pending := false))),
        if c.incoming.bidi.pending then o1 + [f2] else o1;
    assert c.incoming.bidi.pending || c2 == c1;
    FlagSpeaks(c2, o2);
    var f3 := MaxStreams(Uni, c.incoming.uni.max);
    NotOver(o2, f3);
    var c3, o3 := c2.(incoming := c2.incoming.(uni := c.incoming.uni.(pending := false))),
        if c.incoming.uni.pending then o2 + [f3] else o2;
    assert c.incoming.uni.pending || c3 == c2;
    assert out + LimitFrames(c) == o3;
  }

  lemma {:induction false} PingsSpeak(c: ConnState, out: Said)
    requires Speaks(c, out) && c.control.frames == [] && !ConnFold(out).over
    ensures Speaks(c.(control := c.control.(pongPending := false, pingPending := false,
                        nextPing := if c.control.pingPending then c.control.nextPing + 1 else c.control.nextPing)),
                            out + PingFrames(c.control))
    ensures !ConnFold(out + PingFrames(c.control)).over
  {
    hide Speaks, ConnFold;
    PingSpeaks(c, out);
    var f4 := Ping(true, c.control.pongSequence);
    NotOver(out, f4);
    var c4, o4 := c.(control := c.control.(pongPending := false)), if c.control.pongPending then out + [f4] else out;
    assert c.control.pongPending || c4 == c;
    PingSpeaks(c4, o4);
    var f5 := Ping(false, c.control.nextPing);
    NotOver(o4, f5);
    var o5 := if c.control.pingPending then o4 + [f5] else o4;
    assert out + PingFrames(c.control) == o5;
  }

  /** Emptying the queue puts out everything that was due, in a valid order. */
  lemma {:induction false} TakeControlSpeaks(c: ConnState, out: Said)
    requires Speaks(c, out) && (ConnFold(out).over ==> c.life.closed)
    ensures Speaks(TakeControl(c).0, out + TakeControl(c).1)
    ensures ConnFold(out + TakeControl(c).1).over ==> ConnFold(out).over
  {
    hide Speaks, ConnFold, LimitFrames, PingFrames;
    if c.life.closed {
      assert out + [] == out;
    } else {
      MoveQueue(c, out);
      var c0, o0 := c.(control := c.control.(frames := [])), out + c.control.frames;
      LimitsSpeak(c0, o0);
      var o1 := o0 + LimitFrames(c0);
      var c1 := c0.(control := c0.control.(maxDataPending := false),
                    incoming := PerDir(c.incoming.bidi.(pending := false), c.incoming.uni.(pending := false)));
      PingsSpeak(c1, o1);
      assert LimitFrames(c0) == LimitFrames(c) && PingFrames(c1.control) == PingFrames(c.control) by { SameDue(c); }
      assert out + TakeControl(c).1 == o1 + PingFrames(c.control);
    }
  }

  lemma {:induction false} SameDue(c: ConnState)
    ensures LimitFrames(c.(control := c.control.(frames := []))) == LimitFrames(c)
    ensures PingFrames(c.control.(frames := [], maxDataPending := false)) == PingFrames(c.control)
  {
  }
}
