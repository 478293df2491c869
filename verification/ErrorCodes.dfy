/**
 The error codes of streams. An end that hears of an error from its peer hears the code
 that the peer's application gave, in every run of two endpoints.
 */
module ErrorCodes {
  import opened Basics
  import opened StreamIds
  import opened Frames
  import opened Endpoints
  import opened EndpointInvariants
  import opened Evolution
  import opened Traffic
  import opened Speaking
  import opened Runs
  import opened Nodes
  import opened Hearing
  import opened Pairs
  import opened PairTheorems
  import opened FrameAnswers
  import Writing

  /** What a reader, and a writer, of a stream are told is wrong with it. */
  function RecvError(c: ConnState, id: StreamId): Option<StreamError> {
    if id in c.streams then c.streams[id].recv.recvErr else None
  }

  function SendError(c: ConnState, id: StreamId): Option<StreamError> {
    if id in c.streams then c.streams[id].send.sendErr else None
  }

  predicate FromPeer(e: Option<StreamError>) {
    e.Some? && e.value.remote
  }

  ghost predicate SameErrors(c: ConnState, c': ConnState) {
    forall id :: RecvError(c', id) == RecvError(c, id) && SendError(c', id) == SendError(c, id)
  }

  /** Every new error is the application's own doing. */
  ghost predicate OwnErrors(c: ConnState, c': ConnState) {
    && (forall id :: FromPeer(RecvError(c', id)) ==> RecvError(c', id) == RecvError(c, id))
    && (forall id :: FromPeer(SendError(c', id)) ==> SendError(c', id) == SendError(c, id))
  }

  /** Every new error is what f says. */
  ghost predicate SaidErrors(c: ConnState, f: Frame, c': ConnState) {
    && (forall id :: RecvError(c', id) == RecvError(c, id)
                     || (f.ResetStream? && f.id == id && RecvError(c', id) == Some(StreamError(f.code, true))))
    && (forall id :: SendError(c', id) == SendError(c, id)
                     || (f.StopSending? && f.id == id && SendError(c', id) == Some(StreamError(f.code, true))))
  }

  // ----------------------------------------------------------- building blocks

  lemma {:induction false} CompleteErrors(c: ConnState, id: StreamId)
    requires id in c.streams
    ensures SameErrors(c, Complete(c, id))
  {
    hide Completes;
  }

  /** One stream changes, but not its errors. */
  lemma {:induction false} EditErrors(c: ConnState, id: StreamId, s: StreamState, c': ConnState)
    requires id in c.streams && c'.streams == c.streams[id := s]
    requires s.recv.recvErr == c.streams[id].recv.recvErr && s.send.sendErr == c.streams[id].send.sendErr
    ensures SameErrors(c, c')
  {
  }

  lemma {:induction false} FreshErrors(c: ConnState, id: StreamId, local: bool, c': ConnState)
    requires id !in c.streams && c'.streams == c.streams[id := NewStream(c, id, local)]
    ensures SameErrors(c, c')
  {
  }

  lemma {:induction false} Chain(c: ConnState, c1: ConnState, c2: ConnState)
    requires SameErrors(c, c1) && SameErrors(c1, c2)
    ensures SameErrors(c, c2)
  {
    hide RecvError, SendError;
  }

  lemma {:induction false} NextIsFresh(c: ConnState, dir: Dir)
    requires Inv(c)
    ensures StreamId(c.incoming.Get(dir).next, dir, !c.isServer) !in c.streams
    ensures StreamId(c.outgoing.Get(dir).next, dir, c.isServer) !in c.streams
  {
    hide Inv, SlotsOk, CountersOk, LifeOk, OursAccepted;
    Parts(c);
  }

  lemma {:induction false} CreateUpToErrors(c: ConnState, dir: Dir, index: nat)
    requires Inv(c) && c.life.ready && index < c.incoming.Get(dir).max
    ensures SameErrors(c, CreateUpTo(c, dir, index))
    decreases index + 1 - c.incoming.Get(dir).next
  {
    hide Inv, SameErrors, NewStream;
    var inc := c.incoming.Get(dir);
    if inc.next <= index {
      var c1 := Create(c, dir);
      NextIsFresh(c, dir);
      FreshErrors(c, StreamId(inc.next, dir, !c.isServer), false, c1);
      CreateInv(c, dir);
      CreateUpToErrors(c1, dir, index);
      Chain(c, c1, CreateUpTo(c, dir, index));
    } else {
      Unchanged(c, c);
    }
  }

  lemma {:induction false} Unchanged(c: ConnState, c': ConnState)
    requires c'.streams == c.streams
    ensures SameErrors(c, c')
  {
  }

  lemma {:induction false} ResolveErrors(c: ConnState, id: StreamId, recv: bool)
    requires Inv(c) && c.life.ready
    ensures SameErrors(c, Resolve(c, id, recv).0)
  {
    hide Inv, SameErrors, CreateUpTo;
    Unchanged(c, c);
    if !Local(c.isServer, id) && id.index < c.incoming.Get(id.dir).max {
      CreateUpToErrors(c, id.dir, id.index);
    }
  }

  // -------------------------------------------------------------------- frames

  lemma {:induction false} TakeStreamErrors(c: ConnState, id: StreamId, data: seq<byte>, fin: bool)
    requires id in c.streams
    ensures SameErrors(c, TakeStream(c, id, data, fin))
  {
    hide SameErrors, Complete;
    Unchanged(c, c);
    var s := c.streams[id];
    if !s.recv.finRecv && !s.recv.recvReset {
      var c1 := SetStream(c, id, s.(recv := Accepting(s.recv, data, fin))).(
        flow := c.flow.(received := c.flow.received + |data|));
      var c2 := if s.recv.readCancelled then Consume(c1, |data|) else c1;
      EditErrors(c, id, s.(recv := Accepting(s.recv, data, fin)), c2);
      CompleteErrors(c2, id);
      Chain(c, c2, Complete(c2, id));
    }
  }

  lemma {:induction false} ResetEdit(c: ConnState, id: StreamId, s: StreamState, c1: ConnState, c2: ConnState,
      code: nat,
      finalSize: nat)
    requires id in c.streams && c1.streams == c.streams[id := s] && s.send == c.streams[id].send && SameErrors(c1, c2)
    requires s.recv.recvErr in {c.streams[id].recv.recvErr, Some(StreamError(code, true))}
    ensures SaidErrors(c, ResetStream(id, code, finalSize), c2)
  {
  }

  lemma {:induction false} TakeResetErrors(c: ConnState, id: StreamId, code: nat, finalSize: nat)
    requires id in c.streams && c.streams[id].recv.recvOffset <= finalSize
    ensures SaidErrors(c, ResetStream(id, code, finalSize), TakeReset(c, id, code, finalSize))
  {
    hide Complete, SaidErrors, SameErrors;
    Unchanged(c, c);
    SameSaid(c, ResetStream(id, code, finalSize), c);
    var s := c.streams[id];
    if !s.recv.recvReset {
      var skipped := finalSize - s.recv.recvOffset;
      var c1 := SetStream(c, id, s.(recv := Resetting(s.recv, code, finalSize))).(
        flow := c.flow.(received := c.flow.received + skipped));
      var c2 := Consume(c1, skipped + |s.recv.unread|);
      assert c2.streams == c.streams[id := s.(recv := Resetting(s.recv, code, finalSize))];
      CompleteErrors(c2, id);
      ResetEdit(c, id, s.(recv := Resetting(s.recv, code, finalSize)), c2, Complete(c2, id), code, finalSize);
    }
  }

  lemma {:induction false} ResetSendErrors(c: ConnState, id: StreamId, reason: StreamError)
    requires id in c.streams
    ensures var c' := ResetSend(c, id, reason);
      forall i :: RecvError(c', i) == RecvError(c, i)
                  && (SendError(c', i) == SendError(c, i) || (i == id && SendError(c', i) == Some(reason)))
  {
    hide Complete;
    var s := c.streams[id];
    if !SendDone(s.send) {
      var w := s.send.(sendErr := Some(reason), writeSignal := s.send.writeSignal.Broadcast());
      CompleteErrors(Queue(SetStream(c, id, s.(send := w)), ResetStream(id, reason.code, s.send.sendOffset)), id);
    }
  }

  lemma {:induction false} SameSaid(c: ConnState, f: Frame, c': ConnState)
    requires SameErrors(c, c')
    ensures SaidErrors(c, f, c')
  {
    hide RecvError, SendError;
  }

  lemma {:induction false} SaidAfter(c: ConnState, c1: ConnState, f: Frame, c2: ConnState)
    requires SameErrors(c, c1) && SaidErrors(c1, f, c2)
    ensures SaidErrors(c, f, c2)
  {
    hide RecvError, SendError;
  }

  /** Handling a frame makes no errors but those it names. */
  lemma {:induction false} HandleErrors(c: ConnState, f: Frame)
    requires Inv(c)
    ensures SaidErrors(c, f, HandleFrame(c, f).0)
  {
    hide Inv, SameErrors, SaidErrors, Resolve, TakeStream, TakeReset, ResetSend, StreamFault;
    Unchanged(c, c);
    SameSaid(c, f, c);
    if f.TransportParameters? == !c.life.ready {
      match f
      case StreamData(id, offset, data, fin) =>
        ResolveErrors(c, id, true);
        var (c1, look) := Resolve(c, id, true);
        SameSaid(c, f, c1);
        if look.Found? {
          TakeStreamErrors(c1, id, data, fin);
          SameSaid(c1, f, TakeStream(c1, id, data, fin));
          SaidAfter(c, c1, f, TakeStream(c1, id, data, fin));
        }
      case ResetStream(id, code, finalSize) =>
        ResolveErrors(c, id, true);
        var (c1, look) := Resolve(c, id, true);
        SameSaid(c, f, c1);
        if look.Found? && c1.streams[id].recv.recvOffset <= finalSize {
          TakeResetErrors(c1, id, code, finalSize);
          SaidAfter(c, c1, f, TakeReset(c1, id, code, finalSize));
        }
      case StopSending(id, code) =>
        ResolveErrors(c, id, false);
        var (c1, look) := Resolve(c, id, false);
        SameSaid(c, f, c1);
        if look.Found? {
          StopErrors(c1, id, code);
          SaidAfter(c, c1, f, ResetSend(c1, id, StreamError(code, true)));
        }
      case MaxStreamData(id, max) =>
        ResolveErrors(c, id, false);
        var (c1, look) := Resolve(c, id, false);
        SameSaid(c, f, c1);
        if look.Found? {
          RaiseErrors(c1, id, max);
          SameSaid(c1, f, RaiseSendMax(c1, id, max));
          SaidAfter(c, c1, f, RaiseSendMax(c1, id, max));
        }
      case _ =>
        Unchanged(c, HandleFrame(c, f).0);
        SameSaid(c, f, HandleFrame(c, f).0);
    }
  }

  lemma {:induction false} StopErrors(c: ConnState, id: StreamId, code: nat)
    requires id in c.streams
    ensures SaidErrors(c, StopSending(id, code), ResetSend(c, id, StreamError(code, true)))
  {
    hide ResetSend, RecvError, SendError;
    ResetSendErrors(c, id, StreamError(code, true));
  }

  lemma {:induction false} RaiseErrors(c: ConnState, id: StreamId, max: nat)
    requires id in c.streams
    ensures SameErrors(c, RaiseSendMax(c, id, max))
  {
  }

  // --------------------------------------------------------------- applications

  lemma {:induction false} SameOwn(c: ConnState, c': ConnState)
    requires SameErrors(c, c')
    ensures OwnErrors(c, c')
  {
    hide RecvError, SendError;
  }

  lemma {:induction false} TakeErrors(c: ConnState, id: StreamId, k: nat)
    requires id in c.streams && k <= |c.streams[id].recv.unread|
    ensures SameErrors(c, Take(c, id, k))
  {
    hide SameErrors, Complete;
    var s := c.streams[id];
    var (r, extended) := Reading(s.recv, k, c.config.streamWindow);
    var c1 := Consume(SetStream(c, id, s.(recv := r)), k);
    var c2 := if extended then Queue(c1, MaxStreamData(id, r.recvMax)) else c1;
    EditErrors(c, id, s.(recv := r), c2);
    CompleteErrors(c2, id);
    Chain(c, c2, Complete(c2, id));
  }

  lemma {:induction false} WaitErrors(c: ConnState, id: StreamId)
    requires id in c.streams
    ensures SameErrors(c, WaitToRead(c, id).0) && SameErrors(c, TrySend(c, id).0)
  {
    hide SendFails, SendCredit;
  }

  lemma {:induction false} CancelReadErrors(c: ConnState, id: StreamId, code: nat)
    requires id in c.streams
    ensures OwnErrors(c, CancelRead(c, id, code))
  {
    hide Complete;
    var s := c.streams[id];
    if !(c.life.closed || s.recv.recvErr.Some? || RecvDone(s.recv)) {
      var r := Cancelling(s.recv, code);
      var c1 := Consume(SetStream(c, id, s.(recv := r)), |s.recv.unread|);
      var c2 := if r.finRecv then c1 else Queue(c1, StopSending(id, code));
      CompleteErrors(c2, id);
      assert c2.streams == c.streams[id := s.(recv := r)];
    }
  }

  lemma {:induction false} CancelWriteErrors(c: ConnState, id: StreamId, code: nat)
    requires id in c.streams
    ensures OwnErrors(c, CancelWrite(c, id, code))
  {
    hide ResetSend, RecvError, SendError;
    ResetSendErrors(c, id, StreamError(code, false));
  }

  lemma {:induction false} AcceptErrors(c: ConnState, dir: Dir)
    requires forall id | id in c.incoming.Get(dir).queue :: id in c.streams
    ensures SameErrors(c, TryAccept(c, dir).0)
  {
    hide SameErrors, Complete;
    Unchanged(c, TryAccept(c, dir).0.(streams := c.streams));
    Unchanged(c, c);
    var inc := c.incoming.Get(dir);
    if !c.life.closed && inc.queue != [] {
      var id := inc.queue[0];
      var s := c.streams[id].(accepted := true);
      var c1 := SetStream(c, id, s).(incoming := Basics.Put(c.incoming, dir, inc.(queue := inc.queue[1..])));
      EditErrors(c, id, s, c1);
      CompleteErrors(c1, id);
      Chain(c, c1, Complete(c1, id));
    } else {
      Unchanged(c, TryAccept(c, dir).0);
    }
  }

  lemma {:induction false} OpenErrors(c: ConnState, dir: Dir)
    requires Inv(c)
    ensures SameErrors(c, TryOpen(c, dir).0)
  {
    hide SameErrors, Inv, NewStream;
    NextIsFresh(c, dir);
    var c', out := TryOpen(c, dir).0, c.outgoing.Get(dir);
    if c.life.closed || out.next >= out.max {
      Unchanged(c, c');
    } else {
      FreshErrors(c, StreamId(out.next, dir, c.isServer), true, c');
    }
  }

  lemma {:induction false} FinishErrors(c: ConnState, id: StreamId)
    requires id in c.streams
    ensures SameErrors(c, Finish(c, id).0)
  {
    hide SameErrors, Complete, SendFails;
    Unchanged(c, c);
    var s := c.streams[id];
    var w := s.send.(finSent := true, writeSignal := s.send.writeSignal.Broadcast());
    var c1 := SetStream(c, id, s.(send := w));
    EditErrors(c, id, s.(send := w), c1);
    CompleteErrors(c1, id);
    Chain(c, c1, Complete(c1, id));
  }

  lemma {:induction false} ReserveErrors(c: ConnState, id: StreamId, p: seq<byte>)
    requires id in c.streams
    ensures SameErrors(c, Reserve(c, id, p).0)
  {
    hide SendFails, SendCredit;
  }

  lemma {:induction false} TerminateErrors(c: ConnState)
    ensures SameErrors(c, Terminate(c))
  {
  }

  lemma {:induction false} CallErrors(c: ConnState, x: Section)
    requires Inv(c) && Silent(x) && Enabled(c, x)
    ensures OwnErrors(c, Apply(c, x))
  {
    hide Inv, SameErrors, OwnErrors, TryOpen, TryAccept, Take, WaitToRead, CancelRead, CancelWrite, TrySend;
    Unchanged(c, c);
    match x {
      case Open(dir) => OpenErrors(c, dir);
      case Accept(dir) => AcceptErrors(c, dir);
      case Read(id, n) =>
        WaitErrors(c, id);
        TakeErrors(c, id, Min(n, |c.streams[id].recv.unread|));
      case Peek(id, n) => WaitErrors(c, id);
      case StopReading(id, code) => CancelReadErrors(c, id, code);
      case StopWriting(id, code) => CancelWriteErrors(c, id, code);
      case PollSend(id) => WaitErrors(c, id);
      case AskPing => Unchanged(c, RequestPing(c));
    }
    if !x.StopReading? && !x.StopWriting? {
      SameOwn(c, Apply(c, x));
    }
  }

  lemma {:induction false} ActErrors(n: Node, a: Act)
    requires NodeInv(n) && Can(n, a) && !a.Receive?
    ensures OwnErrors(n.c, Do(n, a).c)
  {
    hide NodeInv, Inv, SameErrors, OwnErrors, Apply, Reserve, Finish, TakeControl, Terminate;
    Writing.InvOfNode(n);
    Unchanged(n.c, n.c);
    if a.Call? {
      CallErrors(n.c, a.x);
    } else {
      match a {
        case Put(x) =>
          ReserveErrors(n.c, x.id, if x.Send? then x.data else []);
          FinishErrors(n.c, x.id);
        case TakeQueue => TakenErrors(n.c);
        case Token => Unchanged(n.c, Do(n, a).c);
        case CloseQuietly => TerminateErrors(n.c);
        case CloseSaying(_) => TerminateErrors(n.c);
        case _ =>
      }
      SameOwn(n.c, Do(n, a).c);
    }
  }

  lemma {:induction false} TakenErrors(c: ConnState)
    ensures SameErrors(c, TakeControl(c).0)
  {
    Unchanged(c, TakeControl(c).0);
  }

  // -------------------------------------------------------------- both together

  /** What y was told by its peer is what x did, with x's code. */
  ghost predicate Told(y: ConnState, x: ConnState) {
    && (forall id :: FromPeer(RecvError(y, id)) ==>
          SendError(x, id).Some? && SendError(x, id).value.code == RecvError(y, id).value.code)
    && (forall id :: FromPeer(SendError(y, id)) ==>
          RecvError(x, id) == Some(StreamError(SendError(y, id).value.code, false)))
  }

  lemma {:induction false} OwnTold(y: ConnState, y': ConnState, x: ConnState)
    requires Told(y, x) && OwnErrors(y, y')
    ensures Told(y', x)
  {
    hide RecvError, SendError;
  }

  lemma {:induction false} SaidTold(y: ConnState, f: Frame, y': ConnState, x: ConnState)
    requires Told(y, x) && SaidErrors(y, f, y') && Sayable(x, f)
    ensures Told(y', x)
  {
  }

  lemma {:induction false} EvolvedTold(y: ConnState, x: ConnState, x': ConnState)
    requires Told(y, x) && StreamsEvolve(x.streams, x'.streams)
    ensures Told(y, x')
  {
    forall id ensures RecvError(x, id).Some? ==> RecvError(x', id) == RecvError(x, id) {
      if id in x.streams {
        assert StreamEvolves(x.streams[id], x'.streams[id]);
      }
    }
    forall id ensures SendError(x, id).Some? ==> SendError(x', id) == SendError(x, id) {
      if id in x.streams {
        assert StreamEvolves(x.streams[id], x'.streams[id]);
      }
    }
    hide RecvError, SendError;
  }

  lemma {:induction false} ActTold(n: Node, a: Act, other: ConnState)
    requires NodeInv(n) && Can(n, a) && !a.Receive? && Told(n.c, other) && Told(other, n.c)
    ensures Told(Do(n, a).c, other) && Told(other, Do(n, a).c)
  {
    hide NodeInv, Can, Do, Told, OwnErrors, StreamEvolves;
    ActErrors(n, a);
    OwnTold(n.c, Do(n, a).c, other);
    Writing.ActEvolves(n, a);
    EvolvedTold(other, n.c, Do(n, a).c);
  }

  lemma {:induction false} NextTold(y: Node, x: Node, m: nat)
    requires NodeInv(y) && NodeInv(x) && m < |x.log| && Told(y.c, x.c) && Told(x.c, y.c)
    ensures Told(HandleNext(y, x, m).c, x.c) && Told(x.c, HandleNext(y, x, m).c)
  {
    hide NodeInv, Inv, HandleFrame, Told, SaidErrors, Evolves, Sayable;
    Writing.InvOfNode(y);
    if !y.c.life.closed {
      var f := Received(x.log[m]);
      var c' := HandleFrame(y.c, f).0;
      HandleErrors(y.c, f);
      NextSayable(x, m);
      ReceivedSaid(y.c, x.log[m], c');
      SaidTold(y.c, x.log[m], c', x.c);
      HandleFrameEvolves(y.c, f);
      Writing.EvolvesStreams(y.c, c');
      EvolvedTold(x.c, y.c, c');
    }
  }

  lemma {:induction false} ReceivedSaid(y: ConnState, f: Frame, y': ConnState)
    requires SaidErrors(y, Received(f), y')
    ensures SaidErrors(y, f, y')
  {
    hide RecvError, SendError;
  }

  lemma {:induction false} MoveTold(p: Pair, v: Move)
    requires PairInv(p) && CanMove(p, v) && Told(p.a.c, p.b.c) && Told(p.b.c, p.a.c)
    ensures var p' := Moved(p, v); Told(p'.a.c, p'.b.c) && Told(p'.b.c, p'.a.c)
  {
    hide NodeInv, OneWay, Can, Do, HandleNext, Told;
    match v
    case MoveA(act) => ActTold(p.a, act, p.b.c);
    case MoveB(act) => ActTold(p.b, act, p.a.c);
    case DeliverA => NextTold(p.a, p.b, p.toA);
    case DeliverB => NextTold(p.b, p.a, p.toB);
  }

  lemma {:induction false} RunTold(p: Pair, moves: seq<Move>, p': Pair)
    requires PairInv(p) && PairLeads(p, moves, p') && Told(p.a.c, p.b.c) && Told(p.b.c, p.a.c)
    ensures Told(p'.a.c, p'.b.c) && Told(p'.b.c, p'.a.c)
    decreases moves
  {
    hide PairInv, CanMove, Moved, Told;
    if moves != [] {
      MoveTold(p, moves[0]);
      MovedInv(p, moves[0]);
      RunTold(Moved(p, moves[0]), moves[1..], p');
    }
  }

  /**
   In every run of two endpoints, an error that an end has from its peer carries the code with
   which the peer's side of that stream was ended; and an end that was asked to stop sending was
   asked with the code that the peer's reader gave.
   */
  lemma {:induction false} CodesAgree(p: Pair)
    requires Possible(p)
    ensures Told(p.a.c, p.b.c)
  {
    hide PairLeads, PairInv, Told;
    var q := if PairReachable(p) then p else Swap(p);
    var client, server, moves :| PairLeads(InitPair(client, server), moves, q);
    InitPairInv(client, server);
    NothingTold(client, server);
    RunTold(InitPair(client, server), moves, q);
  }

  lemma {:induction false} NothingTold(client: Config, server: Config)
    ensures var p := InitPair(client, server); Told(p.a.c, p.b.c) && Told(p.b.c, p.a.c)
  {
  }

  /** Once everything was delivered, the reader of a stream that was reset is told so, with the writer's code. */
  lemma {:induction false} ResetComes(p: Pair, id: StreamId)
    requires Possible(p) && !p.a.c.life.closed && SendError(p.b.c, id).Some?
    requires p.toA == |p.b.log| && p.b.pend == [] && p.b.c.control.frames == []
    ensures id in p.a.c.streams && p.a.c.streams[id].recv.recvReset
    ensures var r := p.a.c.streams[id].recv;
      FromPeer(r.recvErr) ==> r.recvErr == Some(StreamError(SendError(p.b.c, id).value.code, true))
    ensures RecvError(p.a.c, id).Some?
  {
    hide Possible, NodeInv, OneWay, StreamFold, Told, Inv;
    PossibleInv(p);
    CodesAgree(p);
    ToldRecv(p.a.c, p.b.c, id);
    ResetSaid(p.b, id);
    assert Out(p.b) == p.b.log && p.b.log[..p.toA] == p.b.log;
    if id !in p.a.c.streams {
      NoResetHeard(p.a, p.b, p.toA, id);
      assert false;
    }
    ReceivedIs(p.a, p.b, p.toA, id);
    Writing.InvOfNode(p.a);
    ResetIsError(p.a.c, id);
  }

  lemma {:induction false} ToldRecv(y: ConnState, x: ConnState, id: StreamId)
    requires Told(y, x)
    ensures FromPeer(RecvError(y, id)) ==>
      SendError(x, id).Some? && RecvError(y, id) == Some(StreamError(SendError(x, id).value.code, true))
  {
  }

  lemma {:induction false} ResetSaid(x: Node, id: StreamId)
    requires NodeInv(x) && x.c.control.frames == [] && SendError(x.c, id).Some?
    ensures StreamFold(Out(x), id, InitialGrant(x.c.isServer, x.c.config.streamWindow, id)).reset
  {
    hide NodeInv, StreamFold;
    OutSaid(x, id);
    assert Out(x) + x.c.control.frames == Out(x);
  }

  lemma {:induction false} NoResetHeard(y: Node, x: Node, m: nat, id: StreamId)
    requires OneWay(y, x, m) && !y.c.life.closed && id !in y.c.streams
    ensures !StreamFold(x.log[..m], id, InitialGrant(x.c.isServer, x.c.config.streamWindow, id)).reset
  {
    hide Respects, ConnHeard;
    var g := PeerGrant(y.c.isServer, x.c.config.streamWindow, id);
    assert HeardOf(y.c.streams, id, StreamFold(x.log[..m], id, g), g);
    hide StreamsHeard, StreamFold;
  }

  lemma {:induction false} ResetIsError(c: ConnState, id: StreamId)
    requires Inv(c) && id in c.streams && c.streams[id].recv.recvReset
    ensures c.streams[id].recv.recvErr.Some?
  {
    hide Inv;
    StreamOf(c, id);
  }

  /**
   A request to stop sending carries the code of the reader that sends it, and ends the stream of
   an end that still sends on it: with that code, which goes back with all that was sent.
   */
  lemma {:induction false} StopDelivered(p: Pair, id: StreamId, code: nat)
    requires Possible(p) && !p.a.c.life.closed && p.toA < |p.b.log| && p.b.log[p.toA] == StopSending(id, code)
    ensures RecvError(p.b.c, id) == Some(StreamError(code, false))
    ensures id in p.a.c.streams && !p.a.c.streams[id].done && !SendDone(p.a.c.streams[id].send) ==>
      var c' := HandleFrame(p.a.c, Received(p.b.log[p.toA])).0;
      && SendError(c', id) == Some(StreamError(code, true))
      && c'.control.frames == p.a.c.control.frames + [ResetStream(id, code, |p.a.c.streams[id].send.sentLog|)]
  {
    hide Possible, NodeInv, Inv, OneWay, HandleFrame;
    PossibleInv(p);
    NextSayable(p.b, p.toA);
    Writing.InvOfNode(p.a);
    if id in p.a.c.streams && !p.a.c.streams[id].done && !SendDone(p.a.c.streams[id].send) {
      StopTaken(p.a.c, id, code);
    }
  }

  lemma {:induction false} StopTaken(c: ConnState, id: StreamId, code: nat)
    requires Inv(c) && id in c.streams && !c.streams[id].done && !SendDone(c.streams[id].send)
    ensures var c' := HandleFrame(c, StopSending(id, code)).0;
      && SendError(c', id) == Some(StreamError(code, true))
      && c'.control.frames == c.control.frames + [ResetStream(id, code, |c.streams[id].send.sentLog|)]
  {
    hide Inv, Resolve, Completes;
    StreamOf(c, id);
    FoundLive(c, id, false);
  }
}
