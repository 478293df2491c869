/**
 Windows of one byte. Half of such a window is nothing, so a limit is never extended,
 and once its byte is used the peer has no credit for good.
 */
module Stalls {
  import opened Basics
  import opened StreamIds
  import opened Frames
  import opened Endpoints
  import opened EndpointInvariants
  import opened Runs
  import opened Speaking
  import opened Hearing
  import opened Limits

  lemma {:induction false} ConsumeStuck(c: ConnState, n: nat)
    requires c.config.connWindow <= 1 && c.flow.consumed + n <= c.flow.recvMax
    ensures Consume(c, n).flow.recvMax == c.flow.recvMax
  {
  }

  lemma {:induction false} CompleteFlow(c: ConnState, id: StreamId)
    requires id in c.streams
    ensures Complete(c, id).flow == c.flow
  {
  }

  lemma {:induction false} TakeStuck(c: ConnState, id: StreamId, k: nat)
    requires Inv(c) && c.config.connWindow <= 1 && id in c.streams && k <= |c.streams[id].recv.unread|
    ensures Take(c, id, k).flow.recvMax == c.flow.recvMax
  {
    hide Inv, Complete, Consume;
    FlowOf(c);
    StreamOf(c, id);
    var s := c.streams[id];
    var (r, extended) := Reading(s.recv, k, c.config.streamWindow);
    var c0 := SetStream(c, id, s.(recv := r));
    ConsumeStuck(c0, k);
    var c1 := Consume(c0, k);
    assert c1.streams == c0.streams by { ConsumeStreams(c0, k); }
    var c2 := if extended then Queue(c1, MaxStreamData(id, r.recvMax)) else c1;
    CompleteFlow(c2, id);
  }

  lemma {:induction false} ConsumeStreams(c: ConnState, n: nat)
    ensures Consume(c, n).streams == c.streams
  {
  }

  lemma {:induction false} CancelStuck(c: ConnState, id: StreamId, code: nat)
    requires Inv(c) && c.config.connWindow <= 1 && id in c.streams
    ensures CancelRead(c, id, code).flow.recvMax == c.flow.recvMax
  {
    hide Inv, Complete, Consume, RecvDone;
    FlowOf(c);
    StreamOf(c, id);
    var s := c.streams[id];
    var r := Cancelling(s.recv, code);
    var c0 := SetStream(c, id, s.(recv := r));
    ConsumeStuck(c0, |s.recv.unread|);
    ConsumeStreams(c0, |s.recv.unread|);
    var c1 := Consume(c0, |s.recv.unread|);
    CompleteFlow(if r.finRecv then c1 else Queue(c1, StopSending(id, code)), id);
  }

  lemma {:induction false} DataStuck(c: ConnState, id: StreamId, offset: nat, data: seq<byte>, fin: bool)
    requires Inv(c) && c.config.connWindow <= 1 && id in c.streams
        && StreamFault(c, c.streams[id].recv, offset, |data|, fin).None?
    ensures TakeStream(c, id, data, fin).flow.recvMax == c.flow.recvMax
  {
    hide Inv, Complete, Consume, Accepting;
    FlowOf(c);
    var s := c.streams[id];
    if !s.recv.finRecv && !s.recv.recvReset {
      var c1 := SetStream(c, id,
          s.(recv := Accepting(s.recv, data, fin))).(flow := c.flow.(received := c.flow.received + |data|));
      ConsumeStuck(c1, |data|);
      ConsumeStreams(c1, |data|);
      CompleteFlow(if s.recv.readCancelled then Consume(c1, |data|) else c1, id);
    }
  }

  lemma {:induction false} ResetStuck(c: ConnState, id: StreamId, code: nat, finalSize: nat)
    requires Inv(c) && c.config.connWindow <= 1 && id in c.streams && ResetFault(c, c.streams[id].recv, finalSize).None?
    ensures c.streams[id].recv.recvOffset <= finalSize
        && TakeReset(c, id, code, finalSize).flow.recvMax == c.flow.recvMax
  {
    hide Inv, Complete, Consume, Resetting;
    FlowOf(c);
    StreamOf(c, id);
    var s := c.streams[id];
    if !s.recv.recvReset {
      var skipped := finalSize - s.recv.recvOffset;
      var c1 := SetStream(c, id,
          s.(recv := Resetting(s.recv, code, finalSize))).(flow := c.flow.(received := c.flow.received + skipped));
      ConsumeStuck(c1, skipped + |s.recv.unread|);
      ConsumeStreams(c1, skipped + |s.recv.unread|);
      CompleteFlow(Consume(c1, skipped + |s.recv.unread|), id);
    }
  }

  lemma {:induction false} ResolveStuck(c: ConnState, id: StreamId, recv: bool)
    ensures Resolve(c, id, recv).0.flow == c.flow && Resolve(c, id, recv).0.config == c.config
  {
    hide CreateUpTo;
    CreateUpToFrame(c, id.dir, id.index);
  }

  lemma {:induction false} ReverseStuck(c: ConnState, id: StreamId, v: nat)
    requires id in c.streams
    ensures forall reason :: ResetSend(c, id, reason).flow == c.flow
    ensures RaiseSendMax(c, id, v).flow == c.flow
  {
    hide SendDone, Completes;
  }

  lemma {:induction false} HandleStuck(c: ConnState, f: Frame)
    requires Inv(c) && c.config.connWindow <= 1
    ensures HandleFrame(c, f).0.flow.recvMax == c.flow.recvMax
  {
    hide Inv, Resolve, TakeStream, TakeReset, ResetSend, RaiseSendMax, StreamFault, ResetFault;
    if c.life.ready && (f.StreamData? || f.ResetStream? || f.StopSending? || f.MaxStreamData?) {
      var recv := f.StreamData? || f.ResetStream?;
      var (c1, look) := Resolve(c, f.id, recv);
      ResolveInv(c, f.id, recv);
      ResolveStuck(c, f.id, recv);
      if look.Found? {
        if f.StreamData? {
          if StreamFault(c1, c1.streams[f.id].recv, f.offset, |f.data|, f.fin).None? {
            DataStuck(c1, f.id, f.offset, f.data, f.fin);
          }
        } else if f.ResetStream? {
          if ResetFault(c1, c1.streams[f.id].recv, f.finalSize).None? {
            ResetStuck(c1, f.id, f.code, f.finalSize);
          }
        } else {
          ReverseStuck(c1, f.id, if f.MaxStreamData? then f.max else 0);
        }
      }
    }
  }

  lemma {:induction false} SectionStuck(c: ConnState, x: Section)
    requires Inv(c) && Enabled(c, x) && c.config.connWindow <= 1
    ensures Apply(c, x).flow.recvMax == c.flow.recvMax
  {
    hide Inv, HandleFrame, Take, CancelRead, Complete, ResetSend;
    match x
    case Handle(f) => HandleStuck(c, f);
    case Read(id, n) =>
      TakeStuck(c, id, Min(n, |c.streams[id].recv.unread|));
    case StopReading(id, code) => CancelStuck(c, id, code);
    case StopWriting(id, code) => ReverseStuck(c, id, 0);
    case End(id) => FinishStuck(c, id);
    case Accept(dir) => AcceptStuck(c, dir);
    case _ =>
  }

  lemma {:induction false} FinishStuck(c: ConnState, id: StreamId)
    requires id in c.streams
    ensures Finish(c, id).0.flow == c.flow
  {
    hide Completes;
  }

  lemma {:induction false} AcceptStuck(c: ConnState, dir: Dir)
    requires forall id | id in c.incoming.Get(dir).queue :: id in c.streams
    ensures TryAccept(c, dir).0.flow == c.flow
  {
    hide Completes;
  }

  lemma {:induction false} RunStuck(c: ConnState, xs: seq<Section>, c': ConnState)
    requires Inv(c) && Leads(c, xs, c') && c.config.connWindow <= 1
    ensures c'.flow.recvMax == c.flow.recvMax
    decreases xs
  {
    hide Inv, Apply, Enabled;
    if xs != [] {
      SectionStuck(c, xs[0]);
      ApplyKeeps(c, xs[0]);
      RunStuck(Apply(c, xs[0]), xs[1..], c');
    }
  }

  /** With a connection window of one byte, the peer never gets to send a second one: no run extends the limit. */
  lemma {:induction false} OneByteWindow(c: ConnState)
    requires Reachable(c) && c.config.connWindow <= 1
    ensures c.flow.recvMax == c.config.connWindow
    ensures c.flow.received <= 1
  {
    hide Inv, Leads;
    var config, isServer, xs :| Leads(Init(config, isServer), xs, c);
    InitInv(config, isServer);
    RunKeeps(Init(config, isServer), xs, c);
    RunStuck(Init(config, isServer), xs, c);
    FlowOf(c);
  }

  // ------------------------------------------------------------ stream windows

  lemma {:induction false} ReadStuck(c: ConnState, id: StreamId, n: nat)
    requires Inv(c) && c.config.streamWindow <= 1 && id in c.streams
    ensures RecvLimit(TryRead(c, id, n).0, id) == RecvLimit(c, id)
  {
    hide Inv, Take, WaitToRead;
    StreamOf(c, id);
    TakePlace(c, id, Min(n, |c.streams[id].recv.unread|), id);
    ReaderPlace(c, id, 0, id);
  }

  lemma {:induction false} SectionLimitStuck(c: ConnState, x: Section, id: StreamId)
    requires Inv(c) && Enabled(c, x) && c.config.streamWindow <= 1
    ensures RecvLimit(Apply(c, x), id) == RecvLimit(c, id)
  {
    hide Inv, TryRead;
    if x.Read? && x.id == id {
      ReadStuck(c, id, x.n);
    } else {
      hide Apply, Enabled;
      SectionPlace(c, x, id);
    }
  }

  lemma {:induction false} RunLimitStuck(c: ConnState, xs: seq<Section>, c': ConnState, id: StreamId)
    requires Inv(c) && Leads(c, xs, c') && c.config.streamWindow <= 1
    ensures RecvLimit(c', id) == RecvLimit(c, id)
    decreases xs
  {
    hide Inv, Apply, Enabled, RecvLimit;
    if xs != [] {
      SectionLimitStuck(c, xs[0], id);
      ApplyKeeps(c, xs[0]);
      RunLimitStuck(Apply(c, xs[0]), xs[1..], c', id);
    }
  }

  /** With a stream window of one byte, no run extends the limit of any stream, and none carries a second byte. */
  lemma {:induction false} OneByteStream(c: ConnState, id: StreamId)
    requires Reachable(c) && c.config.streamWindow <= 1 && id in c.streams
    ensures c.streams[id].recv.recvMax == InitialGrant(c.isServer, c.config.streamWindow, id)
    ensures c.streams[id].recv.recvOffset <= 1
  {
    hide Inv, Leads;
    var config, isServer, xs :| Leads(Init(config, isServer), xs, c);
    InitInv(config, isServer);
    RunKeeps(Init(config, isServer), xs, c);
    RunLimitStuck(Init(config, isServer), xs, c, id);
    StreamOf(c, id);
  }
}
