/**
 One endpoint against any peer and any application: whole runs of critical
 sections, in any order.
 */
module Runs {
  import opened Basics
  import opened StreamIds
  import opened Frames
  import opened Endpoints
  import opened EndpointInvariants
  import opened Evolution

  /** Everything that can happen to a connection under its mutex. */
  datatype Section =
    | Handle(frame: Frame)
    | Open(dir: Dir)
    | Accept(dir: Dir)
    | Read(id: StreamId, n: nat)
    | Peek(id: StreamId, n: nat)
    | StopReading(id: StreamId, code: nat)
    | StopWriting(id: StreamId, code: nat)
    | PollSend(id: StreamId)
    | Send(id: StreamId, data: seq<byte>)
    | End(id: StreamId)
    | AskPing
    | Flush
    | Close

  /**
   When a section can run: frames are handled on an open connection only, and the
   application holds a stream of the direction it uses.
   */
  ghost predicate Enabled(c: ConnState, x: Section) {
    match x
    case Handle(_) => !c.life.closed
    case Accept(dir) => forall id | id in c.incoming.Get(dir).queue :: id in c.streams
    case Read(id, _) => id in c.streams && CanRecv(c.isServer, id)
    case Peek(id, _) => id in c.streams && CanRecv(c.isServer, id)
    case StopReading(id, _) => id in c.streams && CanRecv(c.isServer, id)
    case StopWriting(id, _) => id in c.streams && CanSend(c.isServer, id)
    case PollSend(id) => id in c.streams && CanSend(c.isServer, id)
    case Send(id, _) => id in c.streams && CanSend(c.isServer, id)
    case End(id) => id in c.streams && CanSend(c.isServer, id)
    case _ => true
  }

  ghost function Apply(c: ConnState, x: Section): ConnState
    requires Enabled(c, x)
  {
    match x
    case Handle(f) => HandleFrame(c, f).0
    case Open(dir) => TryOpen(c, dir).0
    case Accept(dir) => TryAccept(c, dir).0
    case Read(id, n) => TryRead(c, id, n).0
    case Peek(id, n) => TryPeek(c, id, n).0
    case StopReading(id, code) => CancelRead(c, id, code)
    case StopWriting(id, code) => CancelWrite(c, id, code)
    case PollSend(id) => TrySend(c, id).0
    case Send(id, data) => Reserve(c, id, data).0
    case End(id) => Finish(c, id).0
    case AskPing => RequestPing(c)
    case Flush => TakeControl(c).0
    case Close => Terminate(c)
  }

  /** c' is where the sections, run in this order, take c. */
  ghost predicate Leads(c: ConnState, xs: seq<Section>, c': ConnState)
    decreases xs
  {
    if xs == [] then c' == c else Enabled(c, xs[0]) && Leads(Apply(c, xs[0]), xs[1..], c')
  }

  lemma {:induction false} LeadsNowhere(c: ConnState)
    ensures Leads(c, [], c)
  {
  }

  lemma {:induction false} LeadsCons(c: ConnState, x: Section, xs: seq<Section>, c': ConnState)
    requires Enabled(c, x) && Leads(Apply(c, x), xs, c')
    ensures Leads(c, [x] + xs, c')
  {
    hide Enabled, Apply;
    assert ([x] + xs)[1..] == xs;
  }

  lemma {:induction false} ApplyKeeps(c: ConnState, x: Section)
    requires Inv(c) && Enabled(c, x)
    ensures Inv(Apply(c, x)) && Evolves(c, Apply(c, x))
  {
    hide Inv, Evolves, HandleFrame, TryOpen, TryAccept, TryRead, TryPeek, CancelRead, TrySend, Reserve, Finish,
        TakeControl, Terminate, ResetSend;
    match x
    case Handle(f) => HandleFrameInv(c, f); HandleFrameEvolves(c, f);
    case Open(dir) => TryOpenInv(c, dir); TryOpenEvolves(c, dir);
    case Accept(dir) => TryAcceptInv(c, dir); TryAcceptEvolves(c, dir);
    case Read(id, n) => TryReadInv(c, id, n); TryReadEvolves(c, id, n);
    case Peek(id, n) => TryPeekInv(c, id, n); TryReadEvolves(c, id, n);
    case StopReading(id, code) => CancelReadInv(c, id, code); CancelReadEvolves(c, id, code);
    case StopWriting(id, code) => ResetSendInv(c, id, StreamError(code, false)); CancelWriteEvolves(c, id, code);
    case PollSend(id) => TrySendInv(c, id); TrySendEvolves(c, id);
    case Send(id, data) => ReserveInv(c, id, data); ReserveEvolves(c, id, data);
    case End(id) => FinishInv(c, id); FinishEvolves(c, id);
    case AskPing => RequestPingInv(c); ControlEvolves(c);
    case Flush => TakeControlInv(c); ControlEvolves(c);
    case Close => TerminateInv(c); TerminateEvolves(c);
  }

  /** The invariant holds after any run, and nothing that must not go back goes back. */
  lemma {:induction false} RunKeeps(c: ConnState, xs: seq<Section>, c': ConnState)
    requires Inv(c) && Leads(c, xs, c')
    ensures Inv(c') && Evolves(c, c')
    decreases xs
  {
    hide Inv, Evolves, Apply, Enabled;
    if xs == [] {
      Reflexive(c);
    } else {
      var c1 := Apply(c, xs[0]);
      ApplyKeeps(c, xs[0]);
      RunKeeps(c1, xs[1..], c');
      Transitive(c, c1, c');
    }
  }

  /** A state that some run of a new connection reaches, whatever its peer and application do. */
  ghost predicate Reachable(c: ConnState) {
    exists config, isServer, xs :: Leads(Init(config, isServer), xs, c)
  }

  lemma {:induction false} ReachableInv(c: ConnState)
    requires Reachable(c)
    ensures Inv(c)
  {
    hide Inv, Init;
    var config, isServer, xs :| Leads(Init(config, isServer), xs, c);
    InitInv(config, isServer);
    RunKeeps(Init(config, isServer), xs, c);
  }

  // ------------------------------------------------- what the invariant says

  /**
   Received data is conserved: what arrived is what left the buffers plus what is
   still unread, never more than one window ahead, and every subtraction of the
   flow control code stays above zero.
   */
  lemma {:induction false} Conservation(c: ConnState)
    requires Reachable(c)
    ensures c.flow.received == c.flow.consumed + UnreadTotal(c.streams)
    ensures c.flow.consumed <= c.flow.received <= c.flow.recvMax <= c.flow.consumed + c.config.connWindow
    ensures UnreadTotal(c.streams) <= c.config.connWindow
  {
    hide Reachable, Inv;
    ReachableInv(c);
    FlowOf(c);
  }

  /** The same for one stream: what was read followed by what is unread is what arrived, within the stream's window. */
  lemma {:induction false} StreamConservation(c: ConnState, id: StreamId)
    requires Reachable(c) && id in c.streams
    ensures var r := c.streams[id].recv;
      && r.readOffset <= |r.recvLog| <= r.recvOffset <= r.recvMax <= r.readOffset + c.config.streamWindow
      && (!r.readCancelled && !r.recvReset ==> r.recvLog == r.recvLog[..r.readOffset] + r.unread)
      && |r.unread| <= c.config.streamWindow
  {
    hide Reachable, Inv;
    ReachableInv(c);
    StreamOf(c, id);
  }

  /** Half a window is always granted ahead of the reader, so a stream's own limit admits a Peek of half a window. */
  lemma {:induction false} GrantAhead(c: ConnState, id: StreamId)
    requires Reachable(c) && id in c.streams && CanRecv(c.isServer, id)
    requires c.streams[id].recv.recvErr.None? && !c.streams[id].recv.finRecv
    ensures c.streams[id].recv.recvMax - c.streams[id].recv.readOffset >= c.config.streamWindow / 2
    ensures c.flow.recvMax - c.flow.consumed >= c.config.connWindow / 2
  {
    hide Reachable, Inv;
    ReachableInv(c);
    FlowOf(c);
    StreamOf(c, id);
  }

  // ------------------------------------------------------------ stream slots

  ghost function TheirIds(isServer: bool, dir: Dir, n: nat): set<StreamId> {
    if n == 0 then {} else TheirIds(isServer, dir, n - 1) + {StreamId(n - 1, dir, !isServer)}
  }

  lemma {:induction false} TheirIdsCount(isServer: bool, dir: Dir, n: nat)
    ensures forall id :: id in TheirIds(isServer, dir, n) <==> Theirs(isServer, dir, id) && id.index < n
    ensures |TheirIds(isServer, dir, n)| == n
  {
    if n > 0 {
      TheirIdsCount(isServer, dir, n - 1);
      assert StreamId(n - 1, dir, !isServer) !in TheirIds(isServer, dir, n - 1);
    }
  }

  /** The peer's streams of a kind that have not completed. */
  ghost function Live(c: ConnState, dir: Dir): set<StreamId> {
    set id | id in c.streams && Theirs(c.isServer, dir, id) && !c.streams[id].done
  }

  lemma {:induction false} LiveOrCompleted(c: ConnState, dir: Dir)
    requires Inv(c)
    ensures |Live(c, dir)| == c.incoming.Get(dir).next - |Completed(c.isServer, dir, c.streams)|
  {
    hide Inv;
    var done := Completed(c.isServer, dir, c.streams);
    var ids := TheirIds(c.isServer, dir, c.incoming.Get(dir).next);
    TheirIdsCount(c.isServer, dir, c.incoming.Get(dir).next);
    assert Live(c, dir) + done == ids by {
      forall id: StreamId ensures id in Live(c, dir) + done <==> id in ids {
        KeyOf(c, id);
      }
    }
    assert Live(c, dir) !! done;
    assert |Live(c, dir) + done| == |Live(c, dir)| + |done|;
  }

  /**
   Stream slots are conserved: the limit is the configured one plus one for each
   completed stream, no more streams than configured are ever live, and the
   accept queue is exactly the unaccepted ones, in the order of their numbers.
   */
  lemma {:induction false} SlotsConserved(c: ConnState, dir: Dir)
    requires Reachable(c)
    ensures c.incoming.Get(dir).max == c.config.maxStreams.Get(dir) + |Completed(c.isServer, dir, c.streams)|
    ensures |Live(c, dir)| == c.incoming.Get(dir).next - |Completed(c.isServer, dir,
        c.streams)| <= c.config.maxStreams.Get(dir)
    ensures QueueOk(c.isServer, dir, c.incoming.Get(dir), c.streams)
  {
    hide Reachable, Inv, CountersOk, LifeOk, OursAccepted, QueueOk, KeysOk;
    ReachableInv(c);
    Parts(c);
    LiveOrCompleted(c, dir);
  }

  /**
   Finding a stream: for a frame that is allowed, the stream is Gone exactly when
   it was opened before and has completed; otherwise it is the live stream of
   that name, with the direction the frame is about.
   */
  lemma {:induction false} LookupExact(c: ConnState, id: StreamId, recv: bool)
    requires Reachable(c) && c.life.ready
    ensures var (c', look) := Resolve(c, id, recv);
      && (look.Gone? <==> id in c.streams && c.streams[id].done && !(id.dir.Uni? && Local(c.isServer, id) == recv))
      && (look.Found? ==> id in c'.streams && !c'.streams[id].done
                          && (if recv then c'.streams[id].recv.canRecv else c'.streams[id].send.canSend)
                          && (id in c.streams ==> c'.streams[id] == c.streams[id]))
      && (look.Failed? <==> || (id.dir.Uni? && Local(c.isServer, id) == recv)
                            || (Local(c.isServer, id) && id !in c.streams)
                            || (!Local(c.isServer, id) && id.index >= c.incoming.Get(id.dir).max))
  {
    hide Reachable, Inv;
    ReachableInv(c);
    ResolveInv(c, id, recv);
    var (c', look) := Resolve(c, id, recv);
    KeyOf(c, id);
    KeyOf(c', id);
    if look.Found? {
      StreamOf(c', id);
    }
    if !Local(c.isServer, id) {
      CreateUpToKeeps(c, id.dir, id.index, id);
      CreateUpToNext(c, id.dir, id.index);
      DoneBelowMax(c, id);
    }
  }

  lemma {:induction false} KeyOf(c: ConnState, id: StreamId)
    requires Inv(c)
    ensures id in c.streams <==> id.index < Next(c.isServer, c.outgoing, c.incoming, id)
  {
    Parts(c);
    hide Inv, SlotsOk, CountersOk, LifeOk, OursAccepted;
  }

  lemma {:induction false} DoneBelowMax(c: ConnState, id: StreamId)
    requires Inv(c)
    ensures id in c.streams && !Local(c.isServer, id) ==> id.index < c.incoming.Get(id.dir).max
  {
    Parts(c);
    hide Inv, CountersOk, LifeOk, OursAccepted;
    KeyOf(c, id);
  }

  /** A frame about a stream that is there and has not completed finds it, and creates nothing. */
  lemma {:induction false} FoundLive(c: ConnState, id: StreamId, recv: bool)
    requires Inv(c) && id in c.streams && !c.streams[id].done
    requires if recv then CanRecv(c.isServer, id) else CanSend(c.isServer, id)
    ensures Resolve(c, id, recv) == (c, Found) && c.life.ready
  {
    hide Inv;
    StreamOf(c, id);
    KeyOf(c, id);
    DoneBelowMax(c, id);
  }

  lemma {:induction false} CreateUpToNext(c: ConnState, dir: Dir, index: nat)
    ensures CreateUpTo(c, dir, index).incoming.Get(dir).next == Basics.Max(c.incoming.Get(dir).next, index + 1)
    decreases index + 1 - c.incoming.Get(dir).next
  {
    if c.incoming.Get(dir).next <= index {
      CreateUpToNext(Create(c, dir), dir, index);
    }
  }

  /** A stream that exists is left alone; one that comes into being is live. */
  lemma {:induction false} CreateUpToKeeps(c: ConnState, dir: Dir, index: nat, id: StreamId)
    requires Inv(c) && c.life.ready
    ensures index < c.incoming.Get(dir).max && id in c.streams ==>
              id in CreateUpTo(c, dir, index).streams && CreateUpTo(c, dir, index).streams[id] == c.streams[id]
    ensures index < c.incoming.Get(dir).max && id !in c.streams && id in CreateUpTo(c, dir, index).streams ==>
              !CreateUpTo(c, dir, index).streams[id].done
    decreases index + 1 - c.incoming.Get(dir).next
  {
    hide Inv;
    if index < c.incoming.Get(dir).max && c.incoming.Get(dir).next <= index {
      FreshId(c, StreamId(c.incoming.Get(dir).next, dir, !c.isServer));
      CreateInv(c, dir);
      CreateUpToKeeps(Create(c, dir), dir, index, id);
    }
  }

  /**
   Before the peer's parameters are in, no stream exists and nothing may be sent; and
   the handshake is over exactly if they are in or the connection has ended.
   */
  lemma {:induction false} NothingBeforeParameters(c: ConnState)
    requires Reachable(c)
    ensures !c.life.ready ==>
        && c.streams == map[] && c.flow.sendMax == 0 && c.incoming.bidi.next == 0
        && c.incoming.uni.next == 0
    ensures !c.life.ready ==> c.outgoing.bidi.max == 0 && c.outgoing.uni.max == 0
    ensures c.life.handshakeClosed <==> c.life.ready || c.life.closed
  {
    hide Reachable, Inv, SlotsOk, CountersOk, OursAccepted;
    ReachableInv(c);
    Parts(c);
    if !c.life.ready {
      assert StreamId(0, Bidi, !c.isServer) !in c.streams && StreamId(0, Uni, !c.isServer) !in c.streams;
    }
  }

  // ------------------------------------------------------------- final sizes

  /**
   Once a stream's end or reset was accepted its size never changes, over any run:
   no data is added to it.
   */
  lemma {:induction false} FinalSizeFixed(c: ConnState, xs: seq<Section>, c': ConnState, id: StreamId)
    requires Reachable(c) && Leads(c, xs, c') && id in c.streams
    requires c.streams[id].recv.finRecv || c.streams[id].recv.recvReset
    ensures id in c'.streams
    ensures c'.streams[id].recv.recvOffset == c.streams[id].recv.recvOffset
    ensures c'.streams[id].recv.recvLog == c.streams[id].recv.recvLog
  {
    hide Reachable, Inv, Leads;
    ReachableInv(c);
    RunKeeps(c, xs, c');
  }

  /** ... and no frame for it adds to what the connection received. */
  lemma {:induction false} FinalSizeCounts(c: ConnState, f: Frame)
    requires Reachable(c) && c.life.ready && (f.StreamData? || f.ResetStream?)
    requires f.id in c.streams && (c.streams[f.id].recv.finRecv || c.streams[f.id].recv.recvReset)
    ensures HandleFrame(c, f).0.flow.received == c.flow.received
  {
    hide Reachable, Inv, Resolve, TakeStream, TakeReset;
    ReachableInv(c);
    ResolveLeaves(c, f.id, true);
    var c1 := Resolve(c, f.id, true).0;
    if f.StreamData? {
      EndedTakes(c1, f.id, f.data, f.fin, 0, c1.streams[f.id].recv.recvOffset);
    } else if ResetFault(c1, c1.streams[f.id].recv, f.finalSize).None? {
      EndedTakes(c1, f.id, [], false, f.code, f.finalSize);
    }
  }

  /** Looking up a stream that exists changes neither it nor what was received. */
  lemma {:induction false} ResolveLeaves(c: ConnState, id: StreamId, recv: bool)
    requires Inv(c) && c.life.ready && id in c.streams
    ensures var c1 := Resolve(c, id, recv).0; id in c1.streams && c1.streams[id] == c.streams[id] && c1.flow == c.flow
  {
    hide Inv;
    DoneBelowMax(c, id);
    if !Local(c.isServer, id) {
      CreateUpToKeeps(c, id.dir, id.index, id);
      CreateUpToFrame(c, id.dir, id.index);
    }
  }

  /** On a stream whose size is final, data and resets that are no fault add nothing. */
  lemma {:induction false} EndedTakes(c: ConnState, id: StreamId, data: seq<byte>, fin: bool, code: nat, finalSize: nat)
    requires id in c.streams && (c.streams[id].recv.finRecv || c.streams[id].recv.recvReset)
        && finalSize == c.streams[id].recv.recvOffset
    ensures TakeStream(c, id, data, fin) == c
    ensures TakeReset(c, id, code, finalSize).flow.received == c.flow.received
  {
    hide Completes, Resetting;
  }

  // -------------------------------------------------------- no lost wake-ups

  /**
   A reader that was told to wait, and whose channel is still open after any run,
   would be told to wait again: there is nothing to read, no end and no error.
   */
  lemma {:induction false} ReaderNotForgotten(c: ConnState, id: StreamId, n: nat, xs: seq<Section>, c': ConnState)
    requires Reachable(c) && id in c.streams && CanRecv(c.isServer, id)
    requires TryRead(c, id, n).1.ReadBlocked? && Leads(TryRead(c, id, n).0, xs, c')
    ensures id in c'.streams
    ensures c'.streams[id].recv.readSignal.gen == TryRead(c, id, n).1.token ==> TryRead(c', id, n).1.ReadBlocked?
  {
    hide Reachable, Inv, Leads;
    ReachableInv(c);
    TryReadInv(c, id, n);
    RunKeeps(TryRead(c, id, n).0, xs, c');
    StreamOf(c', id);
  }

  /** The same for a Peek of n bytes: fewer than n are there. */
  lemma {:induction false} PeekerNotForgotten(c: ConnState, id: StreamId, n: nat, xs: seq<Section>, c': ConnState)
    requires Reachable(c) && id in c.streams && CanRecv(c.isServer, id)
    requires TryPeek(c, id, n).1.ReadBlocked? && Leads(TryPeek(c, id, n).0, xs, c')
    ensures id in c'.streams
    ensures c'.streams[id].recv.readSignal.gen == TryPeek(c, id, n).1.token ==> TryPeek(c', id, n).1.ReadBlocked?
  {
    hide Reachable, Inv, Leads;
    ReachableInv(c);
    TryPeekInv(c, id, n);
    RunKeeps(TryPeek(c, id, n).0, xs, c');
    StreamOf(c', id);
  }

  /** A writer waits on two channels; while both are open it has no credit. */
  lemma {:induction false} WriterNotForgotten(c: ConnState, id: StreamId, xs: seq<Section>, c': ConnState)
    requires Reachable(c) && id in c.streams && CanSend(c.isServer, id)
    requires TrySend(c, id).1.SendBlocked? && Leads(TrySend(c, id).0, xs, c')
    ensures id in c'.streams
    ensures c'.streams[id].send.writeSignal.gen == TrySend(c, id).1.streamToken
            && c'.flow.sendSignal.gen == TrySend(c, id).1.connToken
            ==> TrySend(c', id).1.SendBlocked?
  {
    hide Reachable, Inv, Leads;
    ReachableInv(c);
    TrySendInv(c, id);
    RunKeeps(TrySend(c, id).0, xs, c');
    StreamOf(c', id);
    FlowOf(c');
  }

  lemma {:induction false} OpenerNotForgotten(c: ConnState, dir: Dir, xs: seq<Section>, c': ConnState)
    requires Reachable(c)
    requires TryOpen(c, dir).1.OpenBlocked? && Leads(TryOpen(c, dir).0, xs, c')
    ensures c'.outgoing.Get(dir).signal.gen == TryOpen(c, dir).1.token ==> TryOpen(c', dir).1.OpenBlocked?
  {
    hide Reachable, Inv, Leads, KeysOk, SlotsOk, OursAccepted, LifeOk;
    ReachableInv(c);
    TryOpenInv(c, dir);
    RunKeeps(TryOpen(c, dir).0, xs, c');
    Parts(c');
  }

  lemma {:induction false} AccepterNotForgotten(c: ConnState, dir: Dir, xs: seq<Section>, c': ConnState)
    requires Reachable(c) && Enabled(c, Accept(dir))
    requires TryAccept(c, dir).1.AcceptBlocked? && Leads(TryAccept(c, dir).0, xs, c')
    ensures Enabled(c', Accept(dir))
    ensures c'.incoming.Get(dir).signal.gen == TryAccept(c, dir).1.token ==> TryAccept(c', dir).1.AcceptBlocked?
  {
    hide Reachable, Inv, Leads, KeysOk, SlotsOk, OursAccepted, LifeOk;
    ReachableInv(c);
    TryAcceptInv(c, dir);
    RunKeeps(TryAccept(c, dir).0, xs, c');
    Parts(c');
    QueuedExist(c', dir);
  }

  /**
   Every stream of the peer is accepted at most once, in the order of their numbers,
   over any run; and one that has completed stays completed, so that it freed one
   slot and never frees another.
   */
  lemma {:induction false} AcceptedOnce(c: ConnState, dir: Dir, xs: seq<Section>, c': ConnState)
    requires Reachable(c) && Enabled(c, Accept(dir)) && TryAccept(c, dir).1.Accepted?
    requires Leads(TryAccept(c, dir).0, xs, c')
    ensures var id := TryAccept(c, dir).1.id;
      && id in c.streams && !c.streams[id].accepted && id in c'.streams && c'.streams[id].accepted
      && (TryAccept(c, dir).0.streams[id].done ==> c'.streams[id].done)
      && Enabled(c', Accept(dir))
      && (TryAccept(c', dir).1.Accepted? ==> TryAccept(c', dir).1.id.index > id.index)
  {
    hide Reachable, Inv, Leads, KeysOk, OursAccepted, LifeOk, CountersOk, Complete;
    ReachableInv(c);
    TryAcceptInv(c, dir);
    QueuedExist(c, dir);
    var inc := c.incoming.Get(dir);
    var id := inc.queue[0];
    assert id in inc.queue;
    AcceptKeeps(c, dir);
    RunKeeps(TryAccept(c, dir).0, xs, c');
    Parts(c');
    QueuedExist(c', dir);
    assert QueueOk(c'.isServer, dir, c'.incoming.Get(dir), c'.streams);
  }

  lemma {:induction false} AcceptKeeps(c: ConnState, dir: Dir)
    requires Enabled(c, Accept(dir)) && TryAccept(c, dir).1.Accepted?
    ensures var id := TryAccept(c, dir).1.id;
      id in TryAccept(c, dir).0.streams && TryAccept(c, dir).0.streams[id].accepted
          && TryAccept(c, dir).0.isServer == c.isServer
  {
  }
}
