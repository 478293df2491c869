/**
 An endpoint with its transport: the write lock, the write loop and the steps of
 closing, interleaved in any order with the critical sections. The peer is
 arbitrary.
 */
module Nodes {
  import opened Basics
  import opened StreamIds
  import opened Frames
  import opened Endpoints
  import opened EndpointInvariants
  import opened Evolution
  import opened Traffic
  import opened Speaking
  import opened Runs

  /** Who holds the write lock. */
  datatype Holder = Nobody | WriteLoop | Writer | Closer

  /**
   Where the write loop is: sending the parameters, waiting for a token, about to empty the
   queue, writing it, gone.
   */
  datatype Loop = Starting | Idle | Flushing | Flushed | Ended

  /** Whether a CONNECTION_CLOSE is due, or handed to the transport. */
  datatype Closing = NotClosing | ToSay(frame: Frame) | SaidIt

  /** log is what the transport took; pend is what the holder of the lock has yet to write. */
  datatype Node = Node(c: ConnState, log: Said, pend: Said, holder: Holder, loop: Loop, closing: Closing, failed: bool)

  /** The lock is taken on behalf of the write loop, which starts with the transport parameters. */
  function InitNode(config: Config, isServer: bool): Node {
    Node(Init(config, isServer), [], [TransportParameters(LocalParameters(config))], WriteLoop, Starting, NotClosing,
        false)
  }

  datatype Act =
    | Call(x: Section)              // a section that writes nothing
    | Receive(frame: Frame)  // the read loop handles a frame
    | Lock(holder: Holder)
    | Put(x: Section)               // a stream takes credit, or ends, under the lock
    | PutDatagram(data: seq<byte>)
    | TakeQueue                     // the write loop empties the control queue, under the lock
    | SayClose                      // the closing goroutine, under the lock
    | Write(n: nat)                 // the transport takes the next frames
    | Fail                          // the transport fails, for good
    | Unlock
    | Token                         // the write loop takes a wake token
    | LoopEnds
    | CloseQuietly
    | CloseSaying(frame: Frame)

  /** Sections of the application that neither write nor close. */
  predicate Silent(x: Section) {
    x.Open? || x.Accept? || x.Read? || x.Peek? || x.StopReading? || x.StopWriting? || x.PollSend? || x.AskPing?
  }

  /** The holder has written what it took, or writing has become pointless. */
  predicate Drained(n: Node) {
    n.pend == [] || n.failed
  }

  ghost predicate Can(n: Node, a: Act) {
    match a
    case Call(x) => Silent(x) && Enabled(n.c, x)
    case Receive(f) => !n.c.life.closed
    case Lock(h) =>
      && n.holder.Nobody? && !h.Nobody?
      && (h.WriteLoop? ==> n.loop.Flushing?) && (h.Closer? ==> n.closing.ToSay?)
    case Put(x) => n.holder.Writer? && Drained(n) && (x.Send? || x.End?) && Enabled(n.c, x)
    case PutDatagram(_) => n.holder.Writer? && Drained(n)
    case TakeQueue => n.holder.WriteLoop? && n.loop.Flushing? && Drained(n)
    case SayClose => n.holder.Closer? && n.closing.ToSay? && Drained(n)
    case Write(k) => !n.holder.Nobody? && !n.failed && 0 < k <= |n.pend|
    case Fail => !n.holder.Nobody?
    case Unlock => !n.holder.Nobody? && Drained(n) && !(n.holder.WriteLoop? && n.loop.Flushing?)
    case Token => n.loop.Idle? && n.c.control.wake
    case LoopEnds => n.loop.Idle? && n.c.life.closed
    case CloseQuietly => true
    case CloseSaying(f) => f.ConnectionClose?
  }

  ghost function Do(n: Node, a: Act): Node
    requires Can(n, a)
  {
    match a
    case Call(x) => n.(c := Apply(n.c, x))
    case Receive(f) => n.(c := HandleFrame(n.c, f).0)
    case Lock(h) => n.(holder := h)
    case Put(x) =>
      var (c, frames) := if x.Send? then Reserve(n.c, x.id, x.data) else Finish(n.c, x.id);
      n.(c := c, pend := n.pend + frames)
    case PutDatagram(data) => n.(pend := n.pend + SendDatagram(n.c, data))
    case TakeQueue => n.(c := TakeControl(n.c).0, pend := n.pend + TakeControl(n.c).1, loop := Flushed)
    case SayClose => n.(pend := n.pend + [n.closing.frame], closing := SaidIt)
    case Write(k) => n.(log := n.log + n.pend[..k], pend := n.pend[k..])
    case Fail => n.(failed := true)
    case Unlock => n.(holder := Nobody, loop := if n.holder.WriteLoop? then if n.failed then Ended else Idle
        else n.loop)
    case Token => n.(c := n.c.(control := n.c.control.(wake := false)), loop := Flushing)
    case LoopEnds => n.(loop := Ended)
    case CloseQuietly => n.(c := Terminate(n.c))
    case CloseSaying(f) => if n.c.life.closed then n else n.(c := Terminate(n.c), closing := ToSay(f))
  }

  /** Everything written or about to be. */
  function Out(n: Node): Said {
    n.log + n.pend
  }

  ghost predicate CloseOk(n: Node) {
    && (ConnFold(Out(n)).over ==> n.closing.SaidIt?)
    && (!n.closing.NotClosing? ==> n.c.life.closed)
    && (n.closing.ToSay? ==> n.closing.frame.ConnectionClose?)
  }

  /** On an open connection, work in the queue comes with a token or a write loop about to take it. */
  ghost predicate LoopOk(n: Node) {
    && (ControlWork(n.c) && !n.c.life.closed && !n.failed ==> n.c.control.wake || n.loop.Flushing?)
    && (n.loop.Ended? ==> n.failed || n.c.life.closed)
    && (n.pend != [] && !n.failed ==> !n.holder.Nobody?)
    && (n.loop.Starting? || n.loop.Flushed? ==> n.holder.WriteLoop?)
  }

  ghost predicate NodeInv(n: Node) {
    Inv(n.c) && Speaks(n.c, Out(n)) && CloseOk(n) && LoopOk(n)
  }

  lemma {:induction false} InitNodeInv(config: Config, isServer: bool)
    ensures NodeInv(InitNode(config, isServer))
  {
    var n := InitNode(config, isServer);
    InitInv(config, isServer);
    InitSpeaks(config, isServer);
    assert Out(n) == [TransportParameters(LocalParameters(config))];
    ConnAppend([], TransportParameters(LocalParameters(config)));
    assert Out(n) == [] + [TransportParameters(LocalParameters(config))];
    hide Inv, Speaks, ConnFold;
  }

  lemma {:induction false} LocalSpeaks(c: ConnState, out: Said, x: Section)
    requires Inv(c) && Speaks(c, out) && Silent(x) && Enabled(c, x)
    ensures Speaks(Apply(c, x), out)
  {
    hide Inv, Speaks, TryOpen, TryAccept, TryRead, TryPeek, CancelRead, TrySend, ResetSend;
    match x
    case Open(dir) => TryOpenSpeaks(c, out, dir);
    case Accept(dir) => TryAcceptSpeaks(c, out, dir);
    case Read(id, n) => TryReadSpeaks(c, out, id, n);
    case Peek(id, n) => TryReadSpeaks(c, out, id, n);
    case StopReading(id, code) => CancelReadSpeaks(c, out, id, code);
    case StopWriting(id, code) => ResetSendSpeaks(c, out, id, StreamError(code, false));
    case PollSend(id) => TrySendSpeaks(c, out, id);
    case AskPing => RequestPingSpeaks(c, out);
  }

  /** A section of the connection, with the node's frames as they are. */
  lemma {:induction false} SectionInv(n: Node, c': ConnState)
    requires NodeInv(n) && Inv(c') && Speaks(c', Out(n)) && Evolves(n.c, c')
    ensures NodeInv(n.(c := c'))
  {
    hide Inv, Speaks, ConnFold;
    assert Out(n.(c := c')) == Out(n);
  }

  lemma {:induction false} WakeSpeaks(c: ConnState, out: Said)
    requires Inv(c) && Speaks(c, out)
    ensures Inv(c.(control := c.control.(wake := false))) && Speaks(c.(control := c.control.(wake := false)), out)
  {
    var c' := c.(control := c.control.(wake := false));
    forall f | f in out + c.control.frames ensures Sayable(c', f) {
      assert Sayable(c, f);
    }
    hide Sayable, StreamsSaid, QueueSaid, Skeleton, ConnFold;
  }

  lemma {:induction false} PutInv(n: Node, x: Section)
    requires NodeInv(n) && Can(n, Put(x))
    ensures NodeInv(Do(n, Put(x)))
  {
    hide Inv, Speaks, ConnFold, Reserve, Finish, Evolves;
    var n' := Do(n, Put(x));
    ApplyKeeps(n.c, x);
    if x.Send? {
      ReserveSpeaks(n.c, Out(n), x.id, x.data);
      assert Out(n') == Out(n) + Reserve(n.c, x.id, x.data).1;
    } else {
      FinishSpeaks(n.c, Out(n), x.id);
      assert Out(n') == Out(n) + Finish(n.c, x.id).1;
    }
    PutNotOver(n.c, Out(n), x);
    assert WakeKept(n.c, n'.c) && LifeEvolves(n.c.life, n'.c.life) by { EvolvesWake(n.c, n'.c); }
  }

  lemma {:induction false} EvolvesWake(c: ConnState, c': ConnState)
    requires Evolves(c, c')
    ensures WakeKept(c, c') && LifeEvolves(c.life, c'.life)
  {
  }

  /** What a stream puts out never is a CONNECTION_CLOSE. */
  lemma {:induction false} PutNotOver(c: ConnState, out: Said, x: Section)
    requires (x.Send? || x.End?) && Enabled(c, x)
    ensures ConnFold(out + (if x.Send? then Reserve(c, x.id, x.data).1 else Finish(c, x.id).1)).over ==>
        ConnFold(out).over
  {
    var frames := if x.Send? then Reserve(c, x.id, x.data).1 else Finish(c, x.id).1;
    if frames == [] {
      assert out + frames == out;
    } else {
      assert frames == [frames[0]];
      ConnAppend(out, frames[0]);
    }
  }

  lemma {:induction false} AsideInv(n: Node, f: Frame, n': Node)
    requires NodeInv(n) && Sayable(n.c, f) && !ConnFold(Out(n)).over && (f.Datagram? || f.ConnectionClose?)
    requires n' == n.(pend := n.pend + [f], closing := n'.closing)
        && (n'.closing.SaidIt? || (n'.closing == n.closing && f.Datagram?))
    requires n'.closing.SaidIt? ==> n.c.life.closed
    requires !n.holder.Nobody?
    ensures NodeInv(n')
  {
    assert Out(n') == Out(n) + [f];
    ConnAppend(Out(n), f);
    AsideSpeaks(n.c, Out(n), f);
    hide Inv, Speaks, ConnFold;
  }

  /** Every step of the node keeps the invariant. */
  lemma {:induction false} DoInv(n: Node, a: Act)
    requires NodeInv(n) && Can(n, a)
    ensures NodeInv(Do(n, a))
  {
    hide Inv, Speaks, ConnFold, HandleFrame, Terminate, TakeControl, Evolves, Apply, Enabled, SendDatagram;
    match a
    case Call(x) =>
      ApplyKeeps(n.c, x);
      LocalSpeaks(n.c, Out(n), x);
      SectionInv(n, Apply(n.c, x));
    case Receive(f) =>
      HandleFrameInv(n.c, f);
      HandleFrameEvolves(n.c, f);
      HandleFrameSpeaks(n.c, Out(n), f);
      SectionInv(n, HandleFrame(n.c, f).0);
    case Put(x) =>
      PutInv(n, x);
    case PutDatagram(data) =>
      DatagramInv(n, data);
    case TakeQueue =>
      TakeQueueInv(n);
    case SayClose =>
      AsideInv(n, n.closing.frame, Do(n, a));
    case Write(k) =>
      assert Out(Do(n, a)) == Out(n);
    case Token =>
      WakeSpeaks(n.c, Out(n));
    case CloseQuietly =>
      CloseInv(n);
    case CloseSaying(f) =>
      CloseInv(n);
    case _ =>
      assert Out(Do(n, a)) == Out(n);
  }

  lemma {:induction false} DatagramInv(n: Node, data: seq<byte>)
    requires NodeInv(n) && Can(n, PutDatagram(data))
    ensures NodeInv(Do(n, PutDatagram(data)))
  {
    hide Inv, Speaks, ConnFold;
    if SendDatagram(n.c, data) == [] {
      assert n.pend + [] == n.pend;
    } else {
      Parts(n.c);
      AsideInv(n, Datagram(data), Do(n, PutDatagram(data)));
    }
  }

  lemma {:induction false} TakeQueueInv(n: Node)
    requires NodeInv(n) && Can(n, TakeQueue)
    ensures NodeInv(Do(n, TakeQueue))
  {
    hide Inv, Speaks, ConnFold;
    var n' := Do(n, TakeQueue);
    TakeControlInv(n.c);
    TakeControlSpeaks(n.c, Out(n));
    assert Out(n') == Out(n) + TakeControl(n.c).1;
  }

  lemma {:induction false} CloseInv(n: Node)
    requires NodeInv(n)
    ensures NodeInv(n.(c := Terminate(n.c)))
    ensures !n.c.life.closed ==> forall f: Frame | f.ConnectionClose? ::
        NodeInv(n.(c := Terminate(n.c), closing := ToSay(f)))
  {
    hide Inv, Speaks, ConnFold, Evolves;
    TerminateInv(n.c);
    TerminateEvolves(n.c);
    TerminateSpeaks(n.c, Out(n));
    EvolvesWake(n.c, Terminate(n.c));
    assert Out(n.(c := Terminate(n.c))) == Out(n);
    forall f: Frame | f.ConnectionClose? && !n.c.life.closed
        ensures NodeInv(n.(c := Terminate(n.c), closing := ToSay(f))) {
      assert Out(n.(c := Terminate(n.c), closing := ToSay(f))) == Out(n);
    }
  }

  // ------------------------------------------------------------- whole runs

  ghost predicate NodeLeads(n: Node, acts: seq<Act>, n': Node)
    decreases acts
  {
    if acts == [] then n' == n else Can(n, acts[0]) && NodeLeads(Do(n, acts[0]), acts[1..], n')
  }

  /** A state some run reaches, over all interleavings, whatever the peer and the application do. */
  ghost predicate NodeReachable(n: Node) {
    exists config, isServer, acts :: NodeLeads(InitNode(config, isServer), acts, n)
  }

  lemma {:induction false} NodeRunInv(n: Node, acts: seq<Act>, n': Node)
    requires NodeInv(n) && NodeLeads(n, acts, n')
    ensures NodeInv(n')
    decreases acts
  {
    hide NodeInv, Can, Do;
    if acts != [] {
      DoInv(n, acts[0]);
      NodeRunInv(Do(n, acts[0]), acts[1..], n');
    }
  }

  lemma {:induction false} NodeReachableInv(n: Node)
    requires NodeReachable(n)
    ensures NodeInv(n)
  {
    hide NodeInv, InitNode;
    var config, isServer, acts :| NodeLeads(InitNode(config, isServer), acts, n);
    InitNodeInv(config, isServer);
    NodeRunInv(InitNode(config, isServer), acts, n);
  }

  lemma {:induction false} OutSaid(n: Node, id: StreamId)
    requires NodeInv(n)
    ensures var g := InitialGrant(n.c.isServer, n.c.config.streamWindow, id);
      && SaidOf(n.c.streams, id, StreamFold(Out(n) + n.c.control.frames, id, g), g)
      && StreamFold(n.log, id, g).ok
      && Begins(StreamFold(n.log, id, g), StreamFold(Out(n) + n.c.control.frames, id, g))
      && Begins(StreamFold(Out(n), id, g), StreamFold(Out(n) + n.c.control.frames, id, g))
  {
    hide Inv, CloseOk, LoopOk, ConnFold, AllSayable, QueueSaid;
    var g := InitialGrant(n.c.isServer, n.c.config.streamWindow, id);
    var all := Out(n) + n.c.control.frames;
    assert SaidOf(n.c.streams, id, StreamFold(all, id, g), g);
    StreamPrefix(all, |n.log|, id, g);
    assert all[..|n.log|] == n.log;
    StreamPrefix(all, |Out(n)|, id, g);
    assert all[..|Out(n)|] == Out(n);
  }

  /** The data of a stream in the first k frames on the wire. */
  ghost function OnWire(n: Node, k: nat, id: StreamId): seq<byte>
    requires k <= |n.log|
  {
    StreamFold(n.log[..k], id, InitialGrant(n.c.isServer, n.c.config.streamWindow, id)).data
  }

  /**
   Per-stream order on the wire, under all interleavings: data is contiguous from
   offset zero, a final size is all the data before it, nothing of the stream's
   data follows its end, and what the transport took is a beginning of what the
   stream reserved.
   */
  lemma {:induction false} WireInOrder(n: Node, id: StreamId, i: nat, j: nat)
    requires NodeReachable(n) && i < |n.log|
    ensures var f := n.log[i];
      && (f.StreamData? && f.id == id ==>
          && f.offset == |OnWire(n, i, id)|
          && OnWire(n, i + 1, id) == OnWire(n, i, id) + f.data)
      && (f.ResetStream? && f.id == id ==> f.finalSize == |OnWire(n, i, id)|)
      && (i < j < |n.log| && Ends(f, id) ==> !AboutData(n.log[j], id))
      && (id in n.c.streams ==> OnWire(n, |n.log|, id) <= n.c.streams[id].send.sentLog)
  {
    hide NodeReachable, NodeInv, StreamFold;
    NodeReachableInv(n);
    OutSaid(n, id);
    var g := InitialGrant(n.c.isServer, n.c.config.streamWindow, id);
    assert n.log[..|n.log|] == n.log;
    WireOrder(n.log, i, j, id, g);
    StreamNext(n.log, i, id, g);
  }

  lemma {:induction false} LogInOrder(n: Node)
    requires NodeInv(n)
    ensures ConnFold(n.log).ok && ConnFold(Out(n)).ok
    ensures ConnFold(n.log).total <= n.c.flow.sent
  {
    hide Inv, CloseOk, LoopOk, StreamsSaid, AllSayable, QueueSaid;
    ConnPrefix(Out(n), |n.log|);
    assert Out(n)[..|n.log|] == n.log;
  }

  /**
   The transport parameters are the first frame on the wire and only the first;
   CONNECTION_CLOSE is sent at most once, and no frame of any writer follows it.
   */
  lemma {:induction false} FirstAndLast(n: Node, i: nat)
    requires NodeReachable(n) && i < |n.log|
    ensures n.log[i].TransportParameters? <==> i == 0
    ensures n.log[i].ConnectionClose? ==> i == |n.log| - 1 && n.c.life.closed
  {
    hide NodeReachable;
    NodeReachableInv(n);
    LogInOrder(n);
    ConnNext(n.log, i);
    ConnPrefix(n.log, i + 1);
    if n.log[i].ConnectionClose? {
      SaidClosed(n, i);
    }
  }

  lemma {:induction false} SaidClosed(n: Node, i: nat)
    requires NodeInv(n) && i < |n.log| && n.log[i].ConnectionClose?
    ensures n.c.life.closed
  {
    hide Inv, CloseOk, LoopOk, StreamsSaid, QueueSaid, ConnFold;
    assert n.log[i] in Out(n) + n.c.control.frames;
    assert Sayable(n.c, n.log[i]);
  }

  /** What goes out never exceeds the credit the peer gave, on the connection and on each stream. */
  lemma {:induction false} WithinCredit(n: Node, id: StreamId)
    requires NodeReachable(n)
    ensures ConnFold(n.log).total <= n.c.flow.sendMax
    ensures id in n.c.streams ==>
      |StreamFold(n.log, id, InitialGrant(n.c.isServer, n.c.config.streamWindow,
          id)).data| <= n.c.streams[id].send.sendMax
  {
    hide NodeReachable;
    NodeReachableInv(n);
    LogInOrder(n);
    OutSaid(n, id);
    hide Speaks, Inv, CloseOk, LoopOk, ConnFold;
    FlowOf(n.c);
    if id in n.c.streams {
      StreamOf(n.c, id);
    }
  }

  /**
   Control work is never forgotten: while the connection is open, a token is there or the
   write loop is about to flush.
   */
  lemma {:induction false} WorkNotForgotten(n: Node)
    requires NodeReachable(n) && ControlWork(n.c) && !n.c.life.closed && !n.failed
    ensures n.c.control.wake || n.loop.Flushing?
    ensures !n.loop.Ended?
  {
    hide NodeReachable;
    NodeReachableInv(n);
    hide Inv, Speaks, CloseOk;
  }
}
