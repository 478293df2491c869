/**
 A stream's limit and its reader's place: only reading moves them, whatever else the
 peer and the application do. The consequences are about Peek, which does not read,
 and about windows too small to extend.
 */
module Limits {
  import opened Basics
  import opened StreamIds
  import opened Frames
  import opened Endpoints
  import opened EndpointInvariants
  import opened Evolution
  import opened Runs
  import opened Hearing

  /** How far the stream's reader is. */
  function ReadUpTo(c: ConnState, id: StreamId): nat {
    if id in c.streams then c.streams[id].recv.readOffset else 0
  }

  /** The stream's limit and its reader's place are the same in both. */
  predicate SamePlace(c: ConnState, c': ConnState, id: StreamId) {
    RecvLimit(c', id) == RecvLimit(c, id) && ReadUpTo(c', id) == ReadUpTo(c, id)
  }

  lemma {:induction false} CompletePlace(c: ConnState, id: StreamId, i: StreamId)
    requires id in c.streams
    ensures SamePlace(c, Complete(c, id), i)
  {
    hide Completes;
  }

  /** One stream changes, but neither its limit nor its reader's place; then it may complete. */
  lemma {:induction false} EditPlace(c: ConnState, id: StreamId, s: StreamState, c2: ConnState, i: StreamId)
    requires id in c.streams && c2 == c.(streams := c.streams[id := s], flow := c2.flow, control := c2.control,
        incoming := c2.incoming)
    requires s.recv.recvMax == c.streams[id].recv.recvMax && s.recv.readOffset == c.streams[id].recv.readOffset
    ensures SamePlace(c, c2, i) && SamePlace(c, Complete(c2, id), i)
  {
    hide Complete;
    CompletePlace(c2, id, i);
  }

  lemma {:induction false} TakeStreamPlace(c: ConnState, id: StreamId, data: seq<byte>, fin: bool, i: StreamId)
    requires id in c.streams
    ensures SamePlace(c, TakeStream(c, id, data, fin), i)
  {
    hide Complete, SamePlace, Consuming;
    var s := c.streams[id];
    if !s.recv.finRecv && !s.recv.recvReset {
      var s1 := s.(recv := Accepting(s.recv, data, fin));
      var c1 := SetStream(c, id, s1).(flow := c.flow.(received := c.flow.received + |data|));
      EditPlace(c, id, s1, if s.recv.readCancelled then Consume(c1, |data|) else c1, i);
    } else {
      Still(c, i);
    }
  }

  lemma {:induction false} Still(c: ConnState, i: StreamId)
    ensures SamePlace(c, c, i)
  {
  }

  lemma {:induction false} TakeResetPlace(c: ConnState, id: StreamId, code: nat, finalSize: nat, i: StreamId)
    requires id in c.streams && c.streams[id].recv.recvOffset <= finalSize
    ensures SamePlace(c, TakeReset(c, id, code, finalSize), i)
  {
    hide Complete, SamePlace, Consuming;
    var s := c.streams[id];
    if s.recv.recvReset {
      Still(c, i);
    } else {
      var skipped := finalSize - s.recv.recvOffset;
      var s1 := s.(recv := Resetting(s.recv, code, finalSize));
      var c1 := SetStream(c, id, s1).(flow := c.flow.(received := c.flow.received + skipped));
      EditPlace(c, id, s1, Consume(c1, skipped + |s.recv.unread|), i);
    }
  }

  lemma {:induction false} ResetSendPlace(c: ConnState, id: StreamId, reason: StreamError, i: StreamId)
    requires id in c.streams
    ensures SamePlace(c, ResetSend(c, id, reason), i)
  {
    hide Complete, SamePlace, SendDone;
    Still(c, i);
    var s := c.streams[id];
    var w := s.send.(sendErr := Some(reason), writeSignal := s.send.writeSignal.Broadcast());
    EditPlace(c, id, s.(send := w),
        Queue(SetStream(c, id, s.(send := w)), ResetStream(id, reason.code, s.send.sendOffset)), i);
  }

  lemma {:induction false} FinishPlace(c: ConnState, id: StreamId, i: StreamId)
    requires id in c.streams
    ensures SamePlace(c, Finish(c, id).0, i)
  {
    hide Complete, SamePlace, SendFails;
    Still(c, i);
    var s := c.streams[id];
    var f := s.(send := s.send.(finSent := true, writeSignal := s.send.writeSignal.Broadcast()));
    EditPlace(c, id, f, SetStream(c, id, f), i);
  }

  lemma {:induction false} SendPlace(c: ConnState, id: StreamId, max: nat, p: seq<byte>, i: StreamId)
    requires id in c.streams
    ensures SamePlace(c, RaiseSendMax(c, id, max), i)
    ensures SamePlace(c, Reserve(c, id, p).0, i) && SamePlace(c, TrySend(c, id).0, i)
  {
    hide Complete, SamePlace, SendFails, SendCredit;
    Still(c, i);
    EditPlace(c, id, RaiseSendMax(c, id, max).streams[id], RaiseSendMax(c, id, max), i);
    CreditPlace(c, id, p, i);
  }

  lemma {:induction false} CreditPlace(c: ConnState, id: StreamId, p: seq<byte>, i: StreamId)
    requires id in c.streams
    ensures SamePlace(c, Reserve(c, id, p).0, i) && SamePlace(c, TrySend(c, id).0, i)
  {
    hide Complete, SamePlace, SendFails, SendCredit;
    Still(c, i);
    EditPlace(c, id, Reserve(c, id, p).0.streams[id], Reserve(c, id, p).0, i);
    EditPlace(c, id, TrySend(c, id).0.streams[id], TrySend(c, id).0, i);
  }

  lemma {:induction false} ReaderPlace(c: ConnState, id: StreamId, code: nat, i: StreamId)
    requires id in c.streams
    ensures SamePlace(c, CancelRead(c, id, code), i) && SamePlace(c, WaitToRead(c, id).0, i)
  {
    hide Complete, SamePlace, RecvDone, Consuming;
    Still(c, i);
    var s := c.streams[id];
    var r := Cancelling(s.recv, code);
    var c1 := Consume(SetStream(c, id, s.(recv := r)), |s.recv.unread|);
    EditPlace(c, id, s.(recv := r), if r.finRecv then c1 else Queue(c1, StopSending(id, code)), i);
    EditPlace(c, id, WaitToRead(c, id).0.streams[id], WaitToRead(c, id).0, i);
  }

  /** Reading moves the place of that stream only. */
  lemma {:induction false} TakePlace(c: ConnState, id: StreamId, k: nat, i: StreamId)
    requires id in c.streams && k <= |c.streams[id].recv.unread|
    ensures i != id ==> SamePlace(c, Take(c, id, k), i)
    ensures var r := Reading(c.streams[id].recv, k, c.config.streamWindow).0;
      RecvLimit(Take(c, id, k), id) == r.recvMax && ReadUpTo(Take(c, id, k), id) == r.readOffset
  {
    hide Complete, Reading, Consuming;
    var s := c.streams[id];
    var (r, extended) := Reading(s.recv, k, c.config.streamWindow);
    var c1 := Consume(SetStream(c, id, s.(recv := r)), k);
    var c2 := if extended then Queue(c1, MaxStreamData(id, r.recvMax)) else c1;
    CompletePlace(c2, id, i);
    CompletePlace(c2, id, id);
  }

  lemma {:induction false} AcceptPlace(c: ConnState, dir: Dir, i: StreamId)
    requires forall id | id in c.incoming.Get(dir).queue :: id in c.streams
    ensures SamePlace(c, TryAccept(c, dir).0, i)
  {
    hide Complete, SamePlace;
    Still(c, i);
    var inc := c.incoming.Get(dir);
    if !c.life.closed && inc.queue != [] {
      var id := inc.queue[0];
      var s := c.streams[id].(accepted := true);
      EditPlace(c, id, s, SetStream(c, id, s).(incoming := Put(c.incoming, dir, inc.(queue := inc.queue[1..]))), i);
    } else {
      WaitPlace(c, TryAccept(c, dir).0, i);
    }
  }

  lemma {:induction false} WaitPlace(c: ConnState, c': ConnState, i: StreamId)
    requires c'.streams == c.streams && c'.isServer == c.isServer && c'.config == c.config
    ensures SamePlace(c, c', i)
  {
  }

  lemma {:induction false} OpenPlace(c: ConnState, dir: Dir, i: StreamId)
    requires Inv(c)
    ensures SamePlace(c, TryOpen(c, dir).0, i)
  {
    hide Inv;
    var out := c.outgoing.Get(dir);
    if !c.life.closed && out.next < out.max {
      FreshId(c, StreamId(out.next, dir, c.isServer));
    }
  }

  lemma {:induction false} ResolvePlace(c: ConnState, id: StreamId, recv: bool, i: StreamId)
    requires Inv(c) && c.life.ready
    ensures SamePlace(c, Resolve(c, id, recv).0, i)
  {
    hide Inv, CreateUpTo;
    if !Local(c.isServer, id) && id.index < c.incoming.Get(id.dir).max {
      CreateUpToLimit(c, id.dir, id.index, i);
      CreateUpToRead(c, id.dir, id.index, i);
    }
  }

  lemma {:induction false} CreateUpToRead(c: ConnState, dir: Dir, index: nat, i: StreamId)
    requires Inv(c) && c.life.ready && index < c.incoming.Get(dir).max
    ensures ReadUpTo(CreateUpTo(c, dir, index), i) == ReadUpTo(c, i)
    decreases index + 1 - c.incoming.Get(dir).next
  {
    hide Inv;
    if c.incoming.Get(dir).next <= index {
      FreshId(c, StreamId(c.incoming.Get(dir).next, dir, !c.isServer));
      CreateInv(c, dir);
      CreateUpToRead(Create(c, dir), dir, index, i);
    }
  }

  lemma {:induction false} PlaceChain(c: ConnState, c1: ConnState, c2: ConnState, i: StreamId)
    requires SamePlace(c, c1, i) && SamePlace(c1, c2, i)
    ensures SamePlace(c, c2, i)
  {
  }

  lemma {:induction false} HandlePlace(c: ConnState, f: Frame, i: StreamId)
    requires Inv(c)
    ensures SamePlace(c, HandleFrame(c, f).0, i)
  {
    hide Inv, Resolve, TakeStream, TakeReset, ResetSend, RaiseSendMax, StreamFault, ResetFault, SamePlace;
    Still(c, i);
    if c.life.ready && (f.StreamData? || f.ResetStream? || f.StopSending? || f.MaxStreamData?) {
      var recv := f.StreamData? || f.ResetStream?;
      var (c1, look) := Resolve(c, f.id, recv);
      ResolvePlace(c, f.id, recv, i);
      if look.Found? {
        FoundPlace(c1, f, i);
        PlaceChain(c, c1, HandleFrame(c, f).0, i);
      }
    } else {
      WaitPlace(c, HandleFrame(c, f).0, i);
    }
  }

  /** What is done with a frame once its stream is found. */
  lemma {:induction false} FoundPlace(c: ConnState, f: Frame, i: StreamId)
    requires (f.StreamData? || f.ResetStream? || f.StopSending? || f.MaxStreamData?) && f.id in c.streams
    ensures SamePlace(c, c, i)
    ensures f.StreamData? ==> SamePlace(c, TakeStream(c, f.id, f.data, f.fin), i)
    ensures f.ResetStream? && ResetFault(c, c.streams[f.id].recv, f.finalSize).None? ==>
      c.streams[f.id].recv.recvOffset <= f.finalSize && SamePlace(c, TakeReset(c, f.id, f.code, f.finalSize), i)
    ensures f.StopSending? ==> SamePlace(c, ResetSend(c, f.id, StreamError(f.code, true)), i)
    ensures f.MaxStreamData? ==> SamePlace(c, RaiseSendMax(c, f.id, f.max), i)
  {
    hide TakeStream, TakeReset, ResetSend, RaiseSendMax, SamePlace;
    Still(c, i);
    match f
    case StreamData(id, _, data, fin) => TakeStreamPlace(c, id, data, fin, i);
    case ResetStream(id, code, finalSize) =>
      if ResetFault(c, c.streams[id].recv, finalSize).None? {
        TakeResetPlace(c, id, code, finalSize, i);
      }
    case StopSending(id, code) => ResetSendPlace(c, id, StreamError(code, true), i);
    case MaxStreamData(id, max) => SendPlace(c, id, max, [], i);
  }

  lemma {:induction false} ClosePlace(c: ConnState, i: StreamId)
    ensures SamePlace(c, Terminate(c), i)
  {
  }

  /** A section that does not read the stream leaves its limit and its reader's place alone. */
  lemma {:induction false} SectionPlace(c: ConnState, x: Section, i: StreamId)
    requires Inv(c) && Enabled(c, x) && !(x.Read? && x.id == i)
    ensures SamePlace(c, Apply(c, x), i)
  {
    hide Inv, HandleFrame, TryOpen, TryAccept, Take, WaitToRead, CancelRead, ResetSend, TrySend, Reserve, Finish,
        Terminate, SamePlace;
    Still(c, i);
    match x
    case Handle(f) => HandlePlace(c, f, i);
    case Open(dir) => OpenPlace(c, dir, i);
    case Accept(dir) => AcceptPlace(c, dir, i);
    case Read(id, n) =>
      TakePlace(c, id, Min(n, |c.streams[id].recv.unread|), i);
      ReaderPlace(c, id, 0, i);
    case Peek(id, n) => ReaderPlace(c, id, 0, i);
    case StopReading(id, code) => ReaderPlace(c, id, code, i);
    case StopWriting(id, code) => ResetSendPlace(c, id, StreamError(code, false), i);
    case PollSend(id) => SendPlace(c, id, 0, [], i);
    case Send(id, data) => SendPlace(c, id, 0, data, i);
    case End(id) => FinishPlace(c, id, i);
    case AskPing => WaitPlace(c, RequestPing(c), i);
    case Flush => WaitPlace(c, TakeControl(c).0, i);
    case Close => ClosePlace(c, i);
  }

  /** No section of the run reads the stream. */
  predicate NotReading(xs: seq<Section>, id: StreamId) {
    forall x | x in xs :: !(x.Read? && x.id == id)
  }

  /** Over any run that does not read a stream, its limit and its reader's place stay. */
  lemma {:induction false} RunPlace(c: ConnState, xs: seq<Section>, c': ConnState, i: StreamId)
    requires Inv(c) && Leads(c, xs, c') && NotReading(xs, i)
    ensures SamePlace(c, c', i)
    decreases xs
  {
    hide Inv, Apply, Enabled, SamePlace;
    if xs == [] {
      Still(c, i);
    } else {
      assert xs[0] in xs && forall x | x in xs[1..] :: x in xs;
      SectionPlace(c, xs[0], i);
      ApplyKeeps(c, xs[0]);
      RunPlace(Apply(c, xs[0]), xs[1..], c', i);
      PlaceChain(c, Apply(c, xs[0]), c', i);
    }
  }
}
