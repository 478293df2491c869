/**
 What each call answers and each frame does, said about the state as the peer and the
 application know it: what was received and read, what was sent, which limits are in
 force. Numbers are written out.
 */
module Answers {
  import opened Basics
  import opened StreamIds
  import opened Frames
  import opened Endpoints
  import opened EndpointInvariants
  import opened Runs
  import Varints

  // -------------------------------------------------------------------- reading

  /** A stream's reader may go on: the connection is open, and neither side gave up on the stream. */
  predicate Readable(c: ConnState, r: RecvHalf) {
    !c.life.closed && r.recvErr.None?
  }

  /**
   Read fails exactly if the connection or the stream failed; else it gives what comes next, up
   to n bytes; else the end, exactly if the peer ended the stream and everything was read; and
   else it waits.
   */
  lemma {:induction false} ReadAnswers(c: ConnState, id: StreamId, n: nat)
    requires Reachable(c) && id in c.streams && CanRecv(c.isServer, id)
    ensures var r, answer := c.streams[id].recv, TryRead(c, id, n).1;
      && (answer.ReadFailed? <==> !Readable(c, r))
      && (Readable(c, r) ==>
            && r.readOffset <= |r.recvLog|
            && (answer.ReadData? <==> r.readOffset < |r.recvLog|)
            && (answer.ReadData? ==>
                  answer.data == r.recvLog[r.readOffset..Min(r.readOffset + n, |r.recvLog|)])
            && (answer.ReadEof? <==> r.finRecv && r.readOffset == |r.recvLog|)
            && (answer.ReadEof? ==> answer.data == [])
            && (answer.ReadBlocked? <==> !r.finRecv && r.readOffset == |r.recvLog|))
  {
    hide Reachable, Inv, Take;
    ReachableInv(c);
    StreamOf(c, id);
    var r := c.streams[id].recv;
    if Readable(c, r) && r.unread != [] {
      var k := Min(n, |r.unread|);
      assert r.unread[..k] == r.recvLog[r.readOffset..r.readOffset + k];
    }
  }

  /**
   Peek gives the next n bytes exactly if they are there; else the rest, exactly if the
   stream ended; and else it waits.
   */
  lemma {:induction false} PeekAnswers(c: ConnState, id: StreamId, n: nat)
    requires Reachable(c) && id in c.streams && CanRecv(c.isServer, id)
    ensures var r, answer := c.streams[id].recv, TryPeek(c, id, n).1;
      && (answer.ReadFailed? <==> !Readable(c, r))
      && (!answer.ReadBlocked? ==> TryPeek(c, id, n).0 == c)
      && (Readable(c, r) ==>
            && r.readOffset <= |r.recvLog|
            && (answer.ReadData? <==> r.readOffset + n <= |r.recvLog|)
            && (answer.ReadData? ==> answer.data == r.recvLog[r.readOffset..r.readOffset + n])
            && (answer.ReadEof? <==> r.finRecv && r.readOffset + n > |r.recvLog|)
            && (answer.ReadEof? ==> answer.data == r.recvLog[r.readOffset..])
            && (answer.ReadBlocked? <==> !r.finRecv && r.readOffset + n > |r.recvLog|))
  {
    hide Reachable, Inv;
    ReachableInv(c);
    StreamOf(c, id);
  }

  /**
   What a read of k bytes does: it moves the reader, and grants a whole window anew, on the
   stream and on the connection, exactly when less than half of it is left; and it says so.
   */
  lemma {:induction false} ReadEffects(c: ConnState, id: StreamId, n: nat)
    requires Reachable(c) && id in c.streams && CanRecv(c.isServer, id) && TryRead(c, id, n).1.ReadData?
    ensures var c', k, w := TryRead(c, id, n).0, |TryRead(c, id, n).1.data|, c.config.streamWindow;
      id in c'.streams &&
      var r, r' := c.streams[id].recv, c'.streams[id].recv;
      && r'.readOffset == r.readOffset + k && r'.recvLog == r.recvLog
      && c'.flow.consumed == c.flow.consumed + k && c'.flow.received == c.flow.received
      && c'.flow.recvMax == (if c.flow.recvMax - c'.flow.consumed < c.config.connWindow / 2
                             then c'.flow.consumed + c.config.connWindow else c.flow.recvMax)
      && (c'.flow.recvMax != c.flow.recvMax ==> c'.control.maxDataPending)
      && r'.recvMax == (if !r.finRecv && r.recvMax - r'.readOffset < w / 2 then r'.readOffset + w else r.recvMax)
      && c'.control.frames == c.control.frames +
           (if !r.finRecv && r.recvMax - r'.readOffset < w / 2 then [MaxStreamData(id, r'.readOffset + w)] else [])
  {
    hide Reachable, Inv, Complete, Consume;
    ReachableInv(c);
    StreamOf(c, id);
    var s := c.streams[id];
    var k := Min(n, |s.recv.unread|);
    var (r, extended) := Reading(s.recv, k, c.config.streamWindow);
    var c0 := SetStream(c, id, s.(recv := r));
    ConsumeEffects(c0, k);
    var c1 := Consume(c0, k);
    CompleteEffects(if extended then Queue(c1, MaxStreamData(id, r.recvMax)) else c1, id);
  }

  /** Forgetting a stream touches nothing of these. */
  lemma {:induction false} CompleteEffects(c: ConnState, id: StreamId)
    requires id in c.streams
    ensures var c' := Complete(c, id);
      && c'.flow == c.flow && c'.control == c.control.(wake := c'.control.wake) && id in c'.streams
      && c'.streams[id].recv == c.streams[id].recv.(unread := c'.streams[id].recv.unread)
      && c'.streams[id].send == c.streams[id].send
  {
    hide Completes;
  }

  lemma {:induction false} ConsumeEffects(c: ConnState, n: nat)
    ensures var c', w := Consume(c, n), c.config.connWindow;
      var short := c.flow.recvMax - (c.flow.consumed + n) < w / 2;
      && c'.flow == c.flow.(consumed := c.flow.consumed + n,
                            recvMax := if short then c.flow.consumed + n + w else c.flow.recvMax)
      && c'.control == c.control.(maxDataPending := c.control.maxDataPending || short, wake := c.control.wake || short)
      && c'.streams == c.streams && c'.config == c.config
  {
  }

  /**
   Giving up on reading acts exactly if there is something to give up; the peer is told
   unless it has ended the stream.
   */
  lemma {:induction false} CancelReadExact(c: ConnState, id: StreamId, code: nat)
    requires Reachable(c) && id in c.streams && CanRecv(c.isServer, id)
    ensures var c', r := CancelRead(c, id, code), c.streams[id].recv;
      var acts := Readable(c, r) && !(r.finRecv && r.readOffset == |r.recvLog|);
      && (!acts ==> c' == c)
      && (acts ==>
            && id in c'.streams && c'.streams[id].recv.recvErr == Some(StreamError(code, false))
            && c'.flow.consumed == c.flow.consumed + (|r.recvLog| - r.readOffset)
            && c'.control.frames == c.control.frames + (if r.finRecv then [] else [StopSending(id, code)]))
  {
    hide Reachable, Inv, Complete, Consume;
    ReachableInv(c);
    StreamOf(c, id);
    var s := c.streams[id];
    var r := Cancelling(s.recv, code);
    var c0 := SetStream(c, id, s.(recv := r));
    ConsumeEffects(c0, |s.recv.unread|);
    var c1 := Consume(c0, |s.recv.unread|);
    CompleteEffects(if r.finRecv then c1 else Queue(c1, StopSending(id, code)), id);
  }

  // -------------------------------------------------------------------- sending

  /** A stream's writer may go on. */
  predicate Writable(c: ConnState, w: SendHalf) {
    !c.life.closed && w.sendErr.None? && !w.finSent
  }

  /** TrySend fails exactly if the stream cannot send, and is ready exactly if both credits have something left. */
  lemma {:induction false} SendAnswers(c: ConnState, id: StreamId)
    requires Reachable(c) && id in c.streams && CanSend(c.isServer, id)
    ensures var w, answer := c.streams[id].send, TrySend(c, id).1;
      && (answer.SendFailed? <==> !Writable(c, w))
      && (answer.SendReady? <==> Writable(c, w) && w.sendOffset < w.sendMax && c.flow.sent < c.flow.sendMax)
      && (answer.SendBlocked? ==> answer == SendBlocked(w.writeSignal.gen, c.flow.sendSignal.gen))
  {
  }

  /**
   Reserve takes the first bytes of what the application hands it: as many as there are, as fit
   a record, and as both credits allow; none exactly if the stream cannot send or has no credit.
   */
  lemma {:induction false} ReserveExact(c: ConnState, id: StreamId, p: seq<byte>)
    requires Reachable(c) && id in c.streams && CanSend(c.isServer, id)
    ensures var (c', frames) := Reserve(c, id, p);
      id in c'.streams && c'.streams[id].send.sendOffset >= c.streams[id].send.sendOffset &&
      var w, w' := c.streams[id].send, c'.streams[id].send;
      var k := w'.sendOffset - w.sendOffset;
      && k == (if Writable(c, w)
               then Min(Min(|p|, 16357), Min(w.sendMax - w.sendOffset, c.flow.sendMax - c.flow.sent)) else 0)
      && k <= |p| && w'.sentLog == w.sentLog + p[..k] && c'.flow.sent == c.flow.sent + k
      && frames == (if k == 0 then [] else [StreamData(id, w.sendOffset, p[..k], false)])
      && (TrySend(c, id).1.SendReady? && p != [] ==> k > 0)
  {
    hide Reachable, Inv;
    ReachableInv(c);
    StreamOf(c, id);
    FlowOf(c);
    assert c.streams[id].send.sentLog + [] == c.streams[id].send.sentLog;
  }

  /** Closing a stream sends an empty frame that ends it after all that was sent, exactly if it can send. */
  lemma {:induction false} FinishExact(c: ConnState, id: StreamId)
    requires Reachable(c) && id in c.streams && CanSend(c.isServer, id)
    ensures var ((c', frames), w) := (Finish(c, id), c.streams[id].send);
      && (!Writable(c, w) ==> c' == c && frames == [])
      && (Writable(c, w) ==>
            && frames == [StreamData(id, |w.sentLog|, [], true)]
            && id in c'.streams && c'.streams[id].send.finSent)
  {
    hide Reachable, Inv, Completes;
    ReachableInv(c);
    StreamOf(c, id);
  }

  /** Resetting sends the application's code and all that was sent as the final size, exactly if the stream can send. */
  lemma {:induction false} CancelWriteExact(c: ConnState, id: StreamId, code: nat)
    requires Reachable(c) && id in c.streams && CanSend(c.isServer, id)
    ensures var c', w := CancelWrite(c, id, code), c.streams[id].send;
      && (!Writable(c, w) ==> c' == c)
      && (Writable(c, w) ==>
            && c'.control.frames == c.control.frames + [ResetStream(id, code, |w.sentLog|)]
            && id in c'.streams && c'.streams[id].send.sendErr == Some(StreamError(code, false)))
  {
    hide Reachable, Inv, Completes;
    ReachableInv(c);
    StreamOf(c, id);
  }

  // --------------------------------------------------------- opening, accepting

  /**
   Opening fails exactly if the connection is closed, and opens the next stream exactly if
   the peer's limit allows it.
   */
  lemma {:induction false} OpenAnswers(c: ConnState, dir: Dir)
    requires Reachable(c)
    ensures var (c', answer) := TryOpen(c, dir);
      var out := c.outgoing.Get(dir);
      && (answer.OpenFailed? <==> c.life.closed)
      && (answer.Opened? <==> !c.life.closed && out.next < out.max)
      && (answer.Opened? ==>
            && answer.id == StreamId(out.next, dir, c.isServer) && answer.id !in c.streams && answer.id in c'.streams
            && var s := c'.streams[answer.id];
               && s.accepted && s.send.sentLog == [] && s.recv.recvLog == []
               && s.send.sendMax == (if dir.Uni? then c.life.peer.initialMaxStreamDataUni
                                     else c.life.peer.initialMaxStreamDataBidiRemote)
               && s.recv.recvMax == (if dir.Uni? then 0 else c.config.streamWindow))
  {
    hide Reachable, Inv;
    ReachableInv(c);
    KeyOf(c, StreamId(c.outgoing.Get(dir).next, dir, c.isServer));
  }

  /**
   A stream that a frame of the peer brings into being: what this end may send on it is the
   peer's bidi_local limit.
   */
  lemma {:induction false} PeerOpens(c: ConnState, id: StreamId, recv: bool, i: StreamId)
    requires Reachable(c) && c.life.ready && i !in c.streams && i in Resolve(c, id, recv).0.streams
    ensures var s := Resolve(c, id, recv).0.streams[i];
      && !Local(c.isServer, i) && i.dir == id.dir && i.index <= id.index
      && s.send.sendMax == (if i.dir.Uni? then 0 else c.life.peer.initialMaxStreamDataBidiLocal)
      && s.recv.recvMax == c.config.streamWindow && !s.accepted && s.recv.recvLog == [] && s.send.sentLog == []
  {
    hide Reachable, Inv;
    ReachableInv(c);
    CreatedUpTo(c, id.dir, id.index, i);
  }

  lemma {:induction false} CreatedUpTo(c: ConnState, dir: Dir, index: nat, i: StreamId)
    ensures i !in c.streams && i in CreateUpTo(c, dir, index).streams ==>
      var s := CreateUpTo(c, dir, index).streams[i];
      && !Local(c.isServer, i) && i.dir == dir && i.index <= index
      && s.send.sendMax == (if dir.Uni? then 0 else c.life.peer.initialMaxStreamDataBidiLocal)
      && s.recv.recvMax == c.config.streamWindow && !s.accepted && s.recv.recvLog == [] && s.send.sentLog == []
    ensures i in c.streams ==> i in CreateUpTo(c, dir, index).streams
    decreases index + 1 - c.incoming.Get(dir).next
  {
    if c.incoming.Get(dir).next <= index {
      var next := StreamId(c.incoming.Get(dir).next, dir, !c.isServer);
      CreatedUpTo(Create(c, dir), dir, index, i);
      if i == next {
        CreatedKept(Create(c, dir), dir, index, i);
      }
    }
  }

  /** Later creations do not touch a stream with a lower number. */
  lemma {:induction false} CreatedKept(c: ConnState, dir: Dir, index: nat, i: StreamId)
    requires i in c.streams && (i.dir == dir && !Local(c.isServer, i) ==> i.index < c.incoming.Get(dir).next)
    ensures i in CreateUpTo(c, dir, index).streams && CreateUpTo(c, dir, index).streams[i] == c.streams[i]
    decreases index + 1 - c.incoming.Get(dir).next
  {
    if c.incoming.Get(dir).next <= index {
      CreatedKept(Create(c, dir), dir, index, i);
    }
  }

  /** Accepting gives the peer's first stream of the kind that was not accepted, and waits exactly if there is none. */
  lemma {:induction false} AcceptAnswers(c: ConnState, dir: Dir)
    requires Reachable(c) && Enabled(c, Accept(dir))
    ensures var answer := TryAccept(c, dir).1;
      && (answer.AcceptFailed? <==> c.life.closed)
      && (answer.Accepted? ==>
            && answer.id in c.streams && Theirs(c.isServer, dir, answer.id) && !c.streams[answer.id].accepted
            && forall i | i in c.streams && Theirs(c.isServer, dir, i)
                && !c.streams[i].accepted :: answer.id.index <= i.index)
      && (answer.AcceptBlocked? ==>
            !c.life.closed && forall i | i in c.streams && Theirs(c.isServer, dir, i) :: c.streams[i].accepted)
  {
    hide Reachable, Inv, KeysOk, OursAccepted, LifeOk, CountersOk, Complete;
    ReachableInv(c);
    Parts(c);
    QueuedExist(c, dir);
    assert QueueOk(c.isServer, dir, c.incoming.Get(dir), c.streams);
    forall i | i in c.streams && Theirs(c.isServer, dir, i) ensures i.index < c.incoming.Get(dir).next {
      KeyOf(c, i);
    }
  }
}
