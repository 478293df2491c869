/**
 Two endpoints joined by two reliable, ordered channels. Each handles what the
 other wrote, in order and at its own pace, while everything else either does
 interleaves freely.
 */
module Pairs {
  import opened Basics
  import opened StreamIds
  import opened Frames
  import opened Endpoints
  import opened EndpointInvariants
  import opened Evolution
  import opened Traffic
  import opened Speaking
  import opened Runs
  import opened Nodes
  import opened Hearing
  import Varints

  /** y stays within what x allows, also after either has closed. */
  ghost predicate Respects(y: ConnState, x: ConnState) {
    && y.flow.sendMax <= x.flow.recvMax
    && y.outgoing.bidi.max <= x.incoming.bidi.max && y.outgoing.uni.max <= x.incoming.uni.max
    && (forall id | id in y.streams :: y.streams[id].send.sendMax <= RecvLimit(x, id))
    && y.incoming.bidi.next <= x.outgoing.bidi.next && y.incoming.uni.next <= x.outgoing.uni.next
    && (y.control.peerPinged ==> y.control.peerPingLast < x.control.nextPing)
    && (y.life.ready ==> y.life.peer == Received(TransportParameters(LocalParameters(x.config))).params)
  }

  /** y has handled the first m frames of x; what it does with them is what they say. */
  ghost predicate OneWay(y: Node, x: Node, m: nat) {
    && m <= |x.log| && y.c.isServer == !x.c.isServer
    && Respects(y.c, x.c)
    && (!y.c.life.closed ==> Hears(y.c, x.log[..m], x.c.config.streamWindow))
  }

  datatype Pair = Pair(a: Node, b: Node, toA: nat, toB: nat)

  ghost predicate PairInv(p: Pair) {
    NodeInv(p.a) && NodeInv(p.b) && OneWay(p.a, p.b, p.toA) && OneWay(p.b, p.a, p.toB)
  }

  /** A closed endpoint keeps reading, and discards. */
  ghost function HandleNext(y: Node, x: Node, m: nat): Node
    requires m < |x.log|
  {
    if y.c.life.closed then y else y.(c := HandleFrame(y.c, Received(x.log[m])).0)
  }

  // ----------------------------------------------------------- one side moves

  lemma {:induction false} LimitAtLeast(n: Node, id: StreamId)
    requires NodeInv(n)
    ensures RecvLimit(n.c, id) >= InitialGrant(n.c.isServer, n.c.config.streamWindow, id)
  {
    OutSaid(n, id);
    hide NodeInv;
    var g := InitialGrant(n.c.isServer, n.c.config.streamWindow, id);
    var all := Out(n) + n.c.control.frames;
    StreamPrefix(all, 0, id, g);
    assert all[..0] == [];
  }

  lemma {:induction false} WindowIs(y: ConnState, x: ConnState, id: StreamId)
    requires Respects(y, x) && y.life.ready && y.isServer == !x.isServer
    ensures InitialSendMax(y.isServer, y.life.peer, id) == InitialGrant(x.isServer, x.config.streamWindow, id)
  {
  }

  lemma {:induction false} UntouchedRespects(y: ConnState, y': ConnState, x: Node)
    requires Respects(y, x.c) && Untouched(y, y') && NodeInv(x) && y.isServer == !x.c.isServer
    requires y'.incoming.bidi.next == y.incoming.bidi.next && y'.incoming.uni.next == y.incoming.uni.next
    ensures Respects(y', x.c)
  {
    hide NodeInv, SameHeard;
    forall id | id in y'.streams ensures y'.streams[id].send.sendMax <= RecvLimit(x.c, id) {
      if id in y.streams {
        SameSendMax(y.streams[id], y'.streams[id]);
      } else {
        WindowIs(y, x.c, id);
        LimitAtLeast(x, id);
      }
    }
  }

  lemma {:induction false} SameSendMax(s: StreamState, s': StreamState)
    requires SameHeard(s, s')
    ensures s'.send.sendMax == s.send.sendMax
  {
  }

  /** Only frames bring the peer's streams into being. */
  lemma {:induction false} ApplyNext(c: ConnState, x: Section)
    requires Enabled(c, x) && !x.Handle?
    ensures var c' := Apply(c, x);
        && c'.incoming.bidi.next == c.incoming.bidi.next
        && c'.incoming.uni.next == c.incoming.uni.next
  {
    hide Complete, Consuming, Reading, HandleFrame, SendFails, SendCredit, NewStream, Hushed, LimitFrames, PingFrames;
  }

  lemma {:induction false} OthersLimits(x: Node, x': Node)
    requires NodeInv(x) && NodeInv(x') && StreamsEvolve(x.c.streams, x'.c.streams)
    requires x'.c.isServer == x.c.isServer && x'.c.config == x.c.config
    ensures forall id :: RecvLimit(x.c, id) <= RecvLimit(x'.c, id)
  {
    hide NodeInv, StreamEvolves;
    forall id ensures RecvLimit(x.c, id) <= RecvLimit(x'.c, id) {
      if id in x.c.streams {
        MaxGrows(x.c.streams[id], x'.c.streams[id]);
      } else {
        LimitAtLeast(x', id);
      }
    }
  }

  lemma {:induction false} MaxGrows(s: StreamState, s': StreamState)
    requires StreamEvolves(s, s')
    ensures s.recv.recvMax <= s'.recv.recvMax
  {
  }

  lemma {:induction false} EvolvesRespects(y: ConnState, x: Node, x': Node)
    requires Respects(y, x.c) && NodeInv(x) && NodeInv(x') && Evolves(x.c, x'.c)
    ensures Respects(y, x'.c)
  {
    OthersLimits(x, x');
    hide NodeInv, StreamEvolves, RecvLimit;
  }

  /** What a node's step does to its connection. */
  lemma {:induction false} DoConn(n: Node, a: Act)
    requires NodeInv(n) && Can(n, a) && !a.Receive?
    ensures Untouched(n.c, Do(n, a).c)
    ensures Do(n, a).c.incoming.bidi.next == n.c.incoming.bidi.next
        && Do(n, a).c.incoming.uni.next == n.c.incoming.uni.next
    ensures Evolves(n.c, Do(n, a).c) || (a.Token? && Do(n, a).c == n.c.(control := n.c.control.(wake := false)))
    ensures n.log <= Do(n, a).log
    ensures n.c.life.closed ==> Do(n, a).c.life.closed
  {
    hide Inv, Speaks, CloseOk, LoopOk, Untouched, Evolves, Apply, Enabled, Reserve, Finish, TakeControl, Terminate,
        HandleFrame;
    match a
    case Call(x) => DoSection(n.c, x);
    case Put(x) =>
      DoSection(n.c, x);
      PutApply(n.c, x);
    case TakeQueue =>
      FlushApply(n.c);
      DoSection(n.c, Flush);
    case CloseQuietly =>
      CloseApply(n.c);
      DoSection(n.c, Close);
    case CloseSaying(f) =>
      CloseApply(n.c);
      DoSection(n.c, Close);
      SameUntouched(n.c, n.c);
      Reflexive(n.c);
    case Receive(_) => assert false;
    case _ =>
      SameUntouched(n.c, Do(n, a).c);
      Reflexive(n.c);
  }

  lemma {:induction false} DoSection(c: ConnState, x: Section)
    requires Inv(c) && Enabled(c, x) && !x.Handle?
    ensures var c' := Apply(c, x);
      && Untouched(c, c') && Evolves(c, c') && (c.life.closed ==> c'.life.closed)
      && c'.incoming.bidi.next == c.incoming.bidi.next && c'.incoming.uni.next == c.incoming.uni.next
  {
    hide Inv, Untouched, Apply, Enabled;
    ApplyUntouched(c, x);
    ApplyKeeps(c, x);
    ApplyNext(c, x);
  }

  lemma {:induction false} PutApply(c: ConnState, x: Section)
    requires (x.Send? || x.End?) && Enabled(c, x)
    ensures Apply(c, x) == if x.Send? then Reserve(c, x.id, x.data).0 else Finish(c, x.id).0
  {
  }

  lemma {:induction false} FlushApply(c: ConnState)
    ensures Enabled(c, Flush) && Apply(c, Flush) == TakeControl(c).0
  {
  }

  lemma {:induction false} CloseApply(c: ConnState)
    ensures Enabled(c, Close) && Apply(c, Close) == Terminate(c)
  {
  }

  lemma {:induction false} LocalOneWay(y: Node, a: Act, x: Node, m: nat)
    requires NodeInv(y) && NodeInv(x) && OneWay(y, x, m) && Can(y, a) && !a.Receive?
    ensures OneWay(Do(y, a), x, m)
  {
    hide NodeInv, Respects, Hears, Untouched, Do, Can, Evolves;
    DoConn(y, a);
    UntouchedRespects(y.c, Do(y, a).c, x);
    UntouchedRole(y.c, Do(y, a).c);
    if !Do(y, a).c.life.closed {
      UntouchedHears(y.c, Do(y, a).c, x.log[..m], x.c.config.streamWindow);
    }
  }

  lemma {:induction false} UntouchedRole(c: ConnState, c': ConnState)
    requires Untouched(c, c')
    ensures c'.isServer == c.isServer
  {
  }

  lemma {:induction false} OtherOneWay(y: Node, x: Node, x': Node, m: nat)
    requires NodeInv(x) && NodeInv(x') && OneWay(y, x, m) && x.log <= x'.log
    requires Evolves(x.c, x'.c) || x'.c == x.c.(control := x.c.control.(wake := false))
    ensures OneWay(y, x', m)
  {
    hide NodeInv, Hears;
    assert x'.log[..m] == x.log[..m];
    if Evolves(x.c, x'.c) {
      EvolvesRespects(y.c, x, x');
      hide Respects, StreamsEvolve;
    } else {
      hide Evolves;
      assert forall id :: RecvLimit(x'.c, id) == RecvLimit(x.c, id);
    }
  }

  // -------------------------------------------------- the next frame is handled

  lemma {:induction false} NextSayable(x: Node, m: nat)
    requires NodeInv(x) && m < |x.log|
    ensures Sayable(x.c, x.log[m])
  {
    hide Inv, CloseOk, LoopOk, StreamsSaid, QueueSaid, ConnSaid, Sayable;
    assert x.log[m] in Out(x) + x.c.control.frames;
  }

  /** A stream x may talk about is one that y knows. */
  lemma {:induction false} KnownToBoth(y: Node, x: Node, id: StreamId)
    requires NodeInv(y) && NodeInv(x) && y.c.isServer == !x.c.isServer && Respects(x.c, y.c) && id in x.c.streams
    ensures Known(y.c, id)
  {
    hide Speaks, CloseOk, LoopOk, Inv;
    KeyOf(x.c, id);
    KeyOf(y.c, id);
    Parts(x.c);
    hide KeysOk, SlotsOk, LifeOk, OursAccepted;
  }

  /** The size of a stream after the next frame is within what x was granted. */
  lemma {:induction false} NextWithin(x: Node, m: nat, id: StreamId)
    requires NodeInv(x) && m < |x.log| && id in x.c.streams
    ensures var g := InitialGrant(x.c.isServer, x.c.config.streamWindow, id);
      && |StreamStep(StreamFold(x.log[..m], id, g), x.log[m], id).data| <= x.c.streams[id].send.sendMax
      && StreamStep(StreamFold(x.log[..m], id, g), x.log[m], id).ok
  {
    hide Speaks, CloseOk, LoopOk, Inv, StreamFold, StreamStep;
    OutSaid(x, id);
    var g := InitialGrant(x.c.isServer, x.c.config.streamWindow, id);
    StreamNext(x.log, m, id, g);
    StreamPrefix(x.log, m + 1, id, g);
    StreamOf(x.c, id);
  }

  /** So is all the stream data so far. */
  lemma {:induction false} NextTotal(x: Node, m: nat)
    requires NodeInv(x) && m < |x.log|
    ensures ConnStep(ConnFold(x.log[..m]), x.log[m]).total <= x.c.flow.sendMax
    ensures x.log[m].TransportParameters? <==> m == 0
  {
    hide Speaks, CloseOk, LoopOk, Inv, ConnFold, ConnStep;
    LogInOrder(x);
    ConnNext(x.log, m);
    ConnPrefix(x.log, m + 1);
    FlowOf(x.c);
  }

  /** x's next stream frame is acceptable to y, who then knows what it said. */
  lemma {:induction false} NextStreamHeard(y: Node, x: Node, m: nat)
    requires NodeInv(y) && NodeInv(x) && OneWay(y, x, m) && Respects(x.c, y.c) && m < |x.log| && !y.c.life.closed
    requires x.log[m].StreamData? || Queued(x.log[m])
    ensures HandleFrame(y.c, x.log[m]).1.Fine?
    ensures Hears(HandleFrame(y.c, x.log[m]).0, x.log[..m + 1], x.c.config.streamWindow)
  {
    hide Speaks, CloseOk, LoopOk, Inv, Hears, StreamFold, ConnFold, HandleFrame;
    var f := x.log[m];
    var w := x.c.config.streamWindow;
    assert x.log[..m] + [f] == x.log[..m + 1];
    NextSayable(x, m);
    KnownToBoth(y, x, f.id);
    NextWithin(x, m, f.id);
    NextTotal(x, m);
    HearsTotal(y.c, x.log[..m], w);
    if f.StreamData? {
      HearData(y.c, x.log[..m], w, f);
    } else if f.ResetStream? {
      FlowOf(y.c);
      HearReset(y.c, x.log[..m], w, f);
    } else {
      HearReverse(y.c, x.log[..m], w, f);
    }
  }

  lemma {:induction false} HearsTotal(c: ConnState, heard: Said, w: nat)
    requires Hears(c, heard, w)
    ensures c.flow.received == ConnFold(heard).total && (c.life.ready <==> heard != [])
  {
  }

  lemma {:induction false} NextConnHeard(y: Node, x: Node, m: nat)
    requires NodeInv(y) && NodeInv(x) && OneWay(y, x, m) && Respects(x.c, y.c) && m < |x.log| && !y.c.life.closed
    requires !x.log[m].StreamData? && !Queued(x.log[m])
    ensures !HandleFrame(y.c, Received(x.log[m])).1.Violation?
    ensures Hears(HandleFrame(y.c, Received(x.log[m])).0, x.log[..m + 1], x.c.config.streamWindow)
  {
    hide Speaks, CloseOk, LoopOk, Inv, Hears, StreamFold, ConnFold, HandleFrame;
    var f := x.log[m];
    var heard := x.log[..m];
    assert heard + [f] == x.log[..m + 1];
    NextSayable(x, m);
    LogInOrder(x);
    ConnNext(x.log, m);
    ConnPrefix(x.log, m);
    HearConn(y.c, heard, x.c.config.streamWindow, Received(f));
    SameSaying(y.c, HandleFrame(y.c, Received(f)).0, heard, f, x.c.config.streamWindow);
  }

  /** The default record size, filled in, is nothing that is kept track of. */
  lemma {:induction false} SameSaying(c: ConnState, c': ConnState, heard: Said, f: Frame, w: nat)
    requires Hears(c', heard + [Received(f)], w)
    ensures Hears(c', heard + [f], w)
  {
    ConnAppend(heard, f);
    ConnAppend(heard, Received(f));
    forall i: StreamId
      ensures HeardOf(c'.streams, i, StreamFold(heard + [f], i, PeerGrant(c'.isServer, w, i)),
          PeerGrant(c'.isServer, w, i))
    {
      var g := PeerGrant(c'.isServer, w, i);
      assert HeardOf(c'.streams, i, StreamFold(heard + [Received(f)], i, g), g);
      StreamAppend(heard, f, i, g);
      StreamAppend(heard, Received(f), i, g);
    }
    hide ConnFold, StreamFold, HeardOf;
  }

  /** Handling a frame of x brings no stream of x into being that x did not open. */
  lemma {:induction false} HandleNextCount(c: ConnState, f: Frame, dir: Dir, limit: nat)
    requires c.incoming.Get(dir).next <= limit
    requires (f.StreamData? || Queued(f)) && !Local(c.isServer, f.id) && f.id.dir == dir ==> f.id.index < limit
    ensures HandleFrame(c, f).0.incoming.Get(dir).next <= limit
  {
    hide Resolve, TakeStream, TakeReset, ResetSend, RaiseSendMax, StreamFault, ResetFault;
    if f.StreamData? || Queued(f) {
      var recv := f.StreamData? || f.ResetStream?;
      ResolveCount(c, f.id, recv, dir, limit);
      var (c1, look) := Resolve(c, f.id, recv);
      if look.Found? {
        TakeCount(c1, f);
        if f.ResetStream? && ResetFault(c1, c1.streams[f.id].recv, f.finalSize).None? {
          ResetFaultBound(c1, f.id, f.finalSize);
        }
      }
    }
  }

  lemma {:induction false} ResolveCount(c: ConnState, id: StreamId, recv: bool, dir: Dir, limit: nat)
    requires c.incoming.Get(dir).next <= limit && (!Local(c.isServer, id) && id.dir == dir ==> id.index < limit)
    ensures Resolve(c, id, recv).0.incoming.Get(dir).next <= limit
  {
    CreateUpToNext(c, id.dir, id.index);
    CreateUpToOther(c, id.dir, id.index, dir);
    hide CreateUpTo;
  }

  predicate SameNext(c: ConnState, c': ConnState) {
    c'.incoming.bidi.next == c.incoming.bidi.next && c'.incoming.uni.next == c.incoming.uni.next
  }

  lemma {:induction false} TakeCount(c: ConnState, f: Frame)
    requires (f.StreamData? || Queued(f)) && f.id in c.streams
    ensures f.StreamData? ==> SameNext(c, TakeStream(c, f.id, f.data, f.fin))
    ensures f.ResetStream? && c.streams[f.id].recv.recvOffset <= f.finalSize ==>
        SameNext(c, TakeReset(c, f.id, f.code, f.finalSize))
    ensures f.StopSending? ==> SameNext(c, ResetSend(c, f.id, StreamError(f.code, true)))
    ensures f.MaxStreamData? ==> SameNext(c, RaiseSendMax(c, f.id, f.max))
  {
    hide Complete, Consuming, Accepting, Resetting;
  }

  lemma {:induction false} CreateUpToOther(c: ConnState, dir: Dir, index: nat, other: Dir)
    ensures other != dir ==> CreateUpTo(c, dir, index).incoming.Get(other) == c.incoming.Get(other)
    decreases index + 1 - c.incoming.Get(dir).next
  {
    if c.incoming.Get(dir).next <= index {
      CreateUpToOther(Create(c, dir), dir, index, other);
    }
  }

  /** Whoever hears x stays within what x allows. */
  lemma {:induction false} HearingRespects(y: ConnState, x: Node, m: nat)
    requires NodeInv(x) && m <= |x.log| && y.isServer == !x.c.isServer && Hears(y, x.log[..m], x.c.config.streamWindow)
    requires y.incoming.bidi.next <= x.c.outgoing.bidi.next && y.incoming.uni.next <= x.c.outgoing.uni.next
    requires y.life.ready ==> y.life.peer == Received(TransportParameters(LocalParameters(x.c.config))).params
    ensures Respects(y, x.c)
  {
    forall id | id in y.streams ensures y.streams[id].send.sendMax <= RecvLimit(x.c, id) {
      hide NodeInv, Hears;
      HeardStream(y, x.log[..m], x.c.config.streamWindow, id);
      HeardWithin(y, x, m, id);
    }
    HeardLimits(y, x, m);
    hide NodeInv, Hears, RecvLimit;
  }

  lemma {:induction false} HeardWithin(y: ConnState, x: Node, m: nat, id: StreamId)
    requires NodeInv(x) && m <= |x.log| && y.isServer == !x.c.isServer
    ensures StreamFold(x.log[..m], id, PeerGrant(y.isServer, x.c.config.streamWindow, id)).grant <= RecvLimit(x.c, id)
  {
    OutSaid(x, id);
    hide NodeInv;
    StreamPrefix(x.log, m, id, InitialGrant(x.c.isServer, x.c.config.streamWindow, id));
  }

  lemma {:induction false} HeardLimits(y: ConnState, x: Node, m: nat)
    requires NodeInv(x) && m <= |x.log| && Hears(y, x.log[..m], x.c.config.streamWindow)
    ensures y.flow.sendMax <= x.c.flow.recvMax
    ensures y.outgoing.bidi.max <= x.c.incoming.bidi.max && y.outgoing.uni.max <= x.c.incoming.uni.max
    ensures y.control.peerPinged ==> y.control.peerPingLast < x.c.control.nextPing
  {
    hide Inv, CloseOk, LoopOk, StreamsSaid, QueueSaid, AllSayable, StreamsHeard, KnowsWindow;
    LogInOrder(x);
    ConnPrefix(Out(x), m);
    assert Out(x)[..m] == x.log[..m];
  }

  lemma {:induction false} PeerIs(y: ConnState, x: Node, m: nat)
    requires NodeInv(x) && m < |x.log| && Respects(y, x.c) && Evolves(y, HandleFrame(y, Received(x.log[m])).0)
    ensures var c' := HandleFrame(y, Received(x.log[m])).0;
      c'.life.ready ==> c'.life.peer == Received(TransportParameters(LocalParameters(x.c.config))).params
  {
    hide NodeInv, HandleStream, HandleReset, HandleStopSending, HandleMaxStreamData, StreamsEvolve, RecvLimit;
    NextSayable(x, m);
    if y.life.ready {
      hide HandleFrame;
    }
  }

  /** Streams x talks about of its own are below its counter. */
  lemma {:induction false} NextIndex(y: Node, x: Node, m: nat)
    requires NodeInv(x) && m < |x.log| && y.c.isServer == !x.c.isServer && (x.log[m].StreamData? || Queued(x.log[m]))
    ensures !Local(y.c.isServer, x.log[m].id) ==> x.log[m].id.index < x.c.outgoing.Get(x.log[m].id.dir).next
  {
    NextSayable(x, m);
    hide Speaks, CloseOk, LoopOk, Inv;
    KeyOf(x.c, x.log[m].id);
  }

  lemma {:induction false} HandleNextCounts(y: Node, x: Node, m: nat)
    requires NodeInv(x) && m < |x.log| && y.c.isServer == !x.c.isServer && Respects(y.c, x.c)
    ensures var c' := HandleFrame(y.c, Received(x.log[m])).0;
      c'.incoming.bidi.next <= x.c.outgoing.bidi.next && c'.incoming.uni.next <= x.c.outgoing.uni.next
  {
    var f := Received(x.log[m]);
    if f.StreamData? || Queued(f) {
      NextIndex(y, x, m);
    }
    hide NodeInv, HandleFrame, RecvLimit;
    HandleNextCount(y.c, f, Bidi, x.c.outgoing.bidi.next);
    HandleNextCount(y.c, f, Uni, x.c.outgoing.uni.next);
  }

  lemma {:induction false} NextHeard(y: Node, x: Node, m: nat)
    requires NodeInv(y) && NodeInv(x) && OneWay(y, x, m) && Respects(x.c, y.c) && m < |x.log| && !y.c.life.closed
    ensures !HandleFrame(y.c, Received(x.log[m])).1.Violation?
    ensures Hears(HandleFrame(y.c, Received(x.log[m])).0, x.log[..m + 1], x.c.config.streamWindow)
  {
    hide NodeInv, OneWay, Respects, Hears, HandleFrame;
    if x.log[m].StreamData? || Queued(x.log[m]) {
      NextStreamHeard(y, x, m);
    } else {
      NextConnHeard(y, x, m);
    }
  }

  lemma {:induction false} HandleNextOneWay(y: Node, x: Node, m: nat)
    requires NodeInv(y) && NodeInv(x) && OneWay(y, x, m) && Respects(x.c, y.c) && m < |x.log|
    ensures OneWay(HandleNext(y, x, m), x, m + 1)
    ensures NodeInv(HandleNext(y, x, m))
    ensures Evolves(y.c, HandleNext(y, x, m).c)
  {
    hide NodeInv, Respects, Hears, HandleFrame, Evolves, Can;
    if y.c.life.closed {
      Reflexive(y.c);
    } else {
      var y' := HandleNext(y, x, m);
      HandleNextInv(y, Received(x.log[m]));
      NextHeard(y, x, m);
      PeerIs(y.c, x, m);
      HandleNextCounts(y, x, m);
      SameRole(y.c, y'.c);
      HearingRespects(y'.c, x, m + 1);
    }
  }

  lemma {:induction false} SameRole(c: ConnState, c': ConnState)
    requires Evolves(c, c')
    ensures c'.isServer == c.isServer
  {
  }

  lemma {:induction false} HandleNextInv(y: Node, f: Frame)
    requires NodeInv(y) && !y.c.life.closed
    ensures NodeInv(y.(c := HandleFrame(y.c, f).0)) && Evolves(y.c, HandleFrame(y.c, f).0)
  {
    hide Inv, Speaks, CloseOk, LoopOk, Evolves, HandleFrame;
    DoInv(y, Receive(f));
    HandleFrameEvolves(y.c, f);
  }

  // --------------------------------------------------------------- the system

  datatype Move = MoveA(act: Act) | MoveB(act: Act) | DeliverA | DeliverB

  ghost predicate CanMove(p: Pair, v: Move) {
    match v
    case MoveA(act) => !act.Receive? && Can(p.a, act)
    case MoveB(act) => !act.Receive? && Can(p.b, act)
    case DeliverA => p.toA < |p.b.log|
    case DeliverB => p.toB < |p.a.log|
  }

  ghost function Moved(p: Pair, v: Move): Pair
    requires CanMove(p, v)
  {
    match v
    case MoveA(act) => p.(a := Do(p.a, act))
    case MoveB(act) => p.(b := Do(p.b, act))
    case DeliverA => p.(a := HandleNext(p.a, p.b, p.toA), toA := p.toA + 1)
    case DeliverB => p.(b := HandleNext(p.b, p.a, p.toB), toB := p.toB + 1)
  }

  function InitPair(client: Config, server: Config): Pair {
    Pair(InitNode(client, false), InitNode(server, true), 0, 0)
  }

  lemma {:induction false} InitOneWay(config: Config, other: Config, isServer: bool)
    ensures OneWay(InitNode(config, isServer), InitNode(other, !isServer), 0)
  {
    InitHears(config, isServer, other.streamWindow);
    assert InitNode(other, !isServer).log[..0] == [];
    hide Hears;
  }

  lemma {:induction false} InitPairInv(client: Config, server: Config)
    ensures PairInv(InitPair(client, server))
  {
    hide NodeInv, OneWay, InitNode;
    InitNodeInv(client, false);
    InitNodeInv(server, true);
    InitOneWay(client, server, false);
    InitOneWay(server, client, true);
  }

  /** One end acts, the other stays: both directions keep agreeing. */
  lemma {:induction false} ActsBothWays(x: Node, y: Node, toX: nat, toY: nat, act: Act)
    requires NodeInv(x) && NodeInv(y) && OneWay(x, y, toX) && OneWay(y, x, toY) && Can(x, act) && !act.Receive?
    ensures NodeInv(Do(x, act)) && OneWay(Do(x, act), y, toX) && OneWay(y, Do(x, act), toY)
  {
    hide NodeInv, OneWay, Can, Do, Evolves, Untouched;
    DoInv(x, act);
    LocalOneWay(x, act, y, toX);
    DoConn(x, act);
    OtherOneWay(y, x, Do(x, act), toY);
  }

  lemma {:induction false} DeliversBothWays(x: Node, y: Node, toX: nat, toY: nat)
    requires NodeInv(x) && NodeInv(y) && OneWay(x, y, toX) && OneWay(y, x, toY) && toX < |y.log|
    ensures var x' := HandleNext(x, y, toX); NodeInv(x') && OneWay(x', y, toX + 1) && OneWay(y, x', toY)
  {
    hide NodeInv, Respects, Hears, HandleFrame, Evolves;
    HandleNextOneWay(x, y, toX);
    OtherOneWay(y, x, HandleNext(x, y, toX), toY);
  }

  lemma {:induction false} MovedInv(p: Pair, v: Move)
    requires PairInv(p) && CanMove(p, v)
    ensures PairInv(Moved(p, v))
  {
    hide NodeInv, OneWay, Can, Do, HandleNext;
    match v
    case MoveA(act) => ActsBothWays(p.a, p.b, p.toA, p.toB, act);
    case MoveB(act) => ActsBothWays(p.b, p.a, p.toB, p.toA, act);
    case DeliverA => DeliversBothWays(p.a, p.b, p.toA, p.toB);
    case DeliverB => DeliversBothWays(p.b, p.a, p.toB, p.toA);
  }

  ghost predicate PairLeads(p: Pair, moves: seq<Move>, p': Pair)
    decreases moves
  {
    if moves == [] then p' == p else CanMove(p, moves[0]) && PairLeads(Moved(p, moves[0]), moves[1..], p')
  }

  /** A state that two endpoints of any configurations can reach, by any interleaving of what they do. */
  ghost predicate PairReachable(p: Pair) {
    exists client, server, moves :: PairLeads(InitPair(client, server), moves, p)
  }

  lemma {:induction false} PairRunInv(p: Pair, moves: seq<Move>, p': Pair)
    requires PairInv(p) && PairLeads(p, moves, p')
    ensures PairInv(p')
    decreases moves
  {
    hide PairInv, CanMove, Moved;
    if moves != [] {
      MovedInv(p, moves[0]);
      PairRunInv(Moved(p, moves[0]), moves[1..], p');
    }
  }

  lemma {:induction false} PairReachableInv(p: Pair)
    requires PairReachable(p)
    ensures PairInv(p)
  {
    hide PairInv, InitPair;
    var client, server, moves :| PairLeads(InitPair(client, server), moves, p);
    InitPairInv(client, server);
    PairRunInv(InitPair(client, server), moves, p);
  }
}
