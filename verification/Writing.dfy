/**
 What the two applications see. The bytes the writer handed over, as far as the stream took them,
 and the bytes the reader was given, are both read off the run itself: the calls and their
 answers. The pair carries the one to the other.
 */
module Writing {
  import opened Basics
  import opened StreamIds
  import opened Frames
  import opened Endpoints
  import opened EndpointInvariants
  import opened Evolution
  import opened Traffic
  import opened Speaking
  import opened Runs
  import opened Nodes
  import opened Hearing
  import opened Limits
  import opened Answers
  import opened Pairs
  import opened PairTheorems

  // ------------------------------------------------------------------- writing

  function SentUpTo(c: ConnState, id: StreamId): nat {
    if id in c.streams then c.streams[id].send.sendOffset else 0
  }

  /** What the application hands over in this step of a node, as far as the stream takes it. */
  ghost function Handed(n: Node, a: Act, id: StreamId): seq<byte>
    requires Can(n, a)
  {
    if a.Put? && a.x.Send? && a.x.id == id then
      var k := SentUpTo(Do(n, a).c, id) - SentUpTo(n.c, id);
      if 0 <= k <= |a.x.data| then a.x.data[..k] else []
    else []
  }

  /** Everything that is handed over in a run. */
  ghost function Written(n: Node, acts: seq<Act>, n': Node, id: StreamId): seq<byte>
    requires NodeLeads(n, acts, n')
    decreases acts
  {
    if acts == [] then [] else Handed(n, acts[0], id) + Written(Do(n, acts[0]), acts[1..], n', id)
  }

  lemma {:induction false} PutData(n: Node, x: Section, id: StreamId)
    requires NodeInv(n) && Can(n, Put(x))
    ensures DataOf(Out(Do(n, Put(x))), id) == DataOf(Out(n), id) + Handed(n, Put(x), id)
  {
    hide NodeInv, Reserve, Finish, DataOf, Handed, Do, Can;
    PutOut(n, x);
    var frames := if x.Send? then Reserve(n.c, x.id, x.data).1 else Finish(n.c, x.id).1;
    DataConcat(Out(n), frames, id);
    if x.Send? {
      SendHands(n, x, id);
    } else {
      FinishShape(n.c, x.id);
      EndHands(n, x, id);
    }
    DataOfAtMostOne(frames, id);
  }

  lemma {:induction false} PutOut(n: Node, x: Section)
    requires Can(n, Put(x))
    ensures x.id in n.c.streams && (x.Send? || x.End?)
    ensures Out(Do(n, Put(x))) == Out(n) + (if x.Send? then Reserve(n.c, x.id, x.data).1 else Finish(n.c, x.id).1)
    ensures x.Send? ==> Do(n, Put(x)).c == Reserve(n.c, x.id, x.data).0
  {
    hide Reserve, Finish;
  }

  lemma {:induction false} SendHands(n: Node, x: Section, id: StreamId)
    requires NodeInv(n) && Can(n, Put(x)) && x.Send? && x.id in n.c.streams
    ensures var frames := Reserve(n.c, x.id, x.data).1;
      && |frames| <= 1
      && Handed(n, Put(x), id) ==
         if frames != [] && frames[0].StreamData? && frames[0].id == id then frames[0].data else []
  {
    hide NodeInv, Inv, Reserve, Do, Can, Out;
    PutOut(n, x);
    InvOfNode(n);
    ReserveShape(n.c, x.id, x.data);
  }

  lemma {:induction false} EndHands(n: Node, x: Section, id: StreamId)
    requires Can(n, Put(x)) && x.End?
    ensures Handed(n, Put(x), id) == []
  {
  }

  lemma {:induction false} FinishShape(c: ConnState, id: StreamId)
    requires id in c.streams
    ensures Finish(c, id).1 == [] || Finish(c, id).1 == [StreamData(id, c.streams[id].send.sendOffset, [], true)]
  {
  }

  lemma {:induction false} InvOfNode(n: Node)
    requires NodeInv(n)
    ensures Inv(n.c)
  {
  }

  /** As ReserveExact, for any state that meets the invariant. */
  lemma {:induction false} ReserveShape(c: ConnState, id: StreamId, p: seq<byte>)
    requires Inv(c) && id in c.streams
    ensures var (c', frames) := Reserve(c, id, p);
      var k := SentUpTo(c', id) - SentUpTo(c, id);
      && 0 <= k <= |p|
      && frames == (if k == 0 then [] else [StreamData(id, c.streams[id].send.sendOffset, p[..k], false)])
  {
    hide Inv;
    StreamOf(c, id);
    FlowOf(c);
  }

  lemma {:induction false} DataOfAtMostOne(frames: Said, id: StreamId)
    requires |frames| <= 1
    ensures DataOf(frames, id) == if frames != [] && frames[0].StreamData?
        && frames[0].id == id then frames[0].data else []
  {
    if frames != [] {
      assert frames[..0] == [];
    }
  }

  /** Only what is handed over adds to a stream's data on its way out. */
  lemma {:induction false} ActData(n: Node, a: Act, id: StreamId)
    requires NodeInv(n) && Can(n, a)
    ensures DataOf(Out(Do(n, a)), id) == DataOf(Out(n), id) + Handed(n, a, id)
  {
    hide NodeInv, DataOf, TakeControl, SendDatagram, Reserve, Finish, Apply, HandleFrame, Terminate;
    match a
    case Put(x) => PutData(n, x, id);
    case PutDatagram(data) =>
      assert Out(Do(n, a)) == Out(n) + SendDatagram(n.c, data);
      DataConcat(Out(n), SendDatagram(n.c, data), id);
      AsideData(n.c, data, id);
    case TakeQueue =>
      var frames := TakeControl(n.c).1;
      assert Out(Do(n, a)) == Out(n) + frames;
      DataConcat(Out(n), frames, id);
      TakenData(n, id);
    case SayClose =>
      assert Out(Do(n, a)) == Out(n) + [n.closing.frame];
      DataConcat(Out(n), [n.closing.frame], id);
      ClosingFrame(n);
      DataOfAtMostOne([n.closing.frame], id);
    case _ =>
      assert Out(Do(n, a)) == Out(n);
  }

  lemma {:induction false} ClosingFrame(n: Node)
    requires NodeInv(n)
    ensures n.closing.ToSay? ==> n.closing.frame.ConnectionClose?
  {
    hide Inv, Speaks, LoopOk;
  }

  lemma {:induction false} AsideData(c: ConnState, data: seq<byte>, id: StreamId)
    ensures DataOf(SendDatagram(c, data), id) == []
  {
    DataOfAtMostOne(SendDatagram(c, data), id);
  }

  lemma {:induction false} TakenData(n: Node, id: StreamId)
    requires NodeInv(n)
    ensures DataOf(TakeControl(n.c).1, id) == []
  {
    QueueCarriesNone(n);
    hide NodeInv;
    NoStreamData(TakeControl(n.c).1, id);
  }

  lemma {:induction false} NoStreamData(frames: Said, id: StreamId)
    requires forall f | f in frames :: !f.StreamData?
    ensures DataOf(frames, id) == []
  {
    if frames != [] {
      NoStreamData(frames[..|frames| - 1], id);
      assert frames[|frames| - 1] in frames;
    }
  }

  /** Over any run, what goes out on a stream is what was handed over, in order. */
  lemma {:induction false} RunData(n: Node, acts: seq<Act>, n': Node, id: StreamId)
    requires NodeInv(n) && NodeLeads(n, acts, n')
    ensures DataOf(Out(n'), id) == DataOf(Out(n), id) + Written(n, acts, n', id)
    decreases acts
  {
    hide NodeInv, Can, Do, DataOf, Handed;
    if acts != [] {
      ActData(n, acts[0], id);
      DoInv(n, acts[0]);
      RunData(Do(n, acts[0]), acts[1..], n', id);
    }
  }

  // ------------------------------------------------------------- the write loop

  /**
   Every call that writes to the stream in this run hands over what is left of p: what the
   stream took of it before is dropped from the front.
   */
  ghost predicate WritesOn(n: Node, acts: seq<Act>, id: StreamId, p: seq<byte>, total: nat)
    requires total <= |p|
    decreases acts
  {
    acts != [] && Can(n, acts[0]) ==>
      && (acts[0].Put? && acts[0].x.Send? && acts[0].x.id == id ==> acts[0].x.data == p[total..])
      && |Handed(n, acts[0], id)| <= |p| - total
      && WritesOn(Do(n, acts[0]), acts[1..], id, p, total + |Handed(n, acts[0], id)|)
  }

  /** A write loop, interleaved with anything, adds the bytes of p in order, none twice and none left out. */
  lemma {:induction false} WriteLoop(n: Node, acts: seq<Act>, n': Node, id: StreamId, p: seq<byte>, total: nat)
    requires NodeLeads(n, acts, n') && total <= |p| && WritesOn(n, acts, id, p, total)
    ensures total + |Written(n, acts, n', id)| <= |p|
    ensures Written(n, acts, n', id) == p[total..total + |Written(n, acts, n', id)|]
    decreases acts
  {
    hide Can, Do;
    if acts != [] {
      var k := |Handed(n, acts[0], id)|;
      WriteLoop(Do(n, acts[0]), acts[1..], n', id, p, total + k);
      assert Handed(n, acts[0], id) == p[total..total + k];
    }
  }

  // ------------------------------------------------------------------- reading

  /** What the reader is given in this step of a node. */
  ghost function Given(n: Node, a: Act, id: StreamId): seq<byte>
    requires Can(n, a)
  {
    if a.Call? && a.x.Read? && a.x.id == id && TryRead(n.c, id, a.x.n).1.ReadData? then TryRead(n.c, id, a.x.n).1.data
    else []
  }

  /** What a stream's reader was given so far, as the state has it. */
  ghost function ReadOf(c: ConnState, id: StreamId): seq<byte> {
    if id in c.streams && c.streams[id].recv.readOffset <= |c.streams[id].recv.recvLog| then ReadSoFar(c, id) else []
  }

  /** A section that does not read the stream leaves what was read as it is. */
  lemma {:induction false} KeepsRead(c: ConnState, c': ConnState, id: StreamId)
    requires Inv(c) && Inv(c') && StreamsEvolve(c.streams, c'.streams) && SamePlace(c, c', id)
    ensures ReadOf(c', id) == ReadOf(c, id)
  {
    hide Inv;
    if id in c.streams {
      StreamOf(c, id);
      StreamOf(c', id);
      assert StreamEvolves(c.streams[id], c'.streams[id]);
    }
  }

  /** A read adds to it what it returns. */
  lemma {:induction false} ReadAdds(c: ConnState, id: StreamId, n: nat)
    requires Inv(c) && id in c.streams
    ensures var (c', answer) := TryRead(c, id, n);
      ReadOf(c', id) == ReadOf(c, id) + (if answer.ReadData? then answer.data else [])
  {
    hide Inv, Take;
    StreamOf(c, id);
    var r := c.streams[id].recv;
    var k := Min(n, |r.unread|);
    TakeReads(c, id, k);
    if TryRead(c, id, n).1.ReadData? {
      assert r.recvLog[..r.readOffset + k] == r.recvLog[..r.readOffset] + r.unread[..k];
    }
  }

  /** Only reading moves what was read, and by what it returns. */
  lemma {:induction false} ActRead(n: Node, a: Act, id: StreamId)
    requires NodeInv(n) && Can(n, a) && !a.Receive?
    ensures ReadOf(Do(n, a).c, id) == ReadOf(n.c, id) + Given(n, a, id)
  {
    hide NodeInv, Inv, StreamsEvolve, ReadOf, SamePlace, TryRead, Enabled, Apply;
    InvOfNode(n);
    if a.Call? && a.x.Read? && a.x.id == id {
      ReadStep(n, a, id);
    } else {
      ActPlace(n, a, id);
      DoInv(n, a);
      InvOfNode(Do(n, a));
      ActEvolves(n, a);
      KeepsRead(n.c, Do(n, a).c, id);
    }
  }

  lemma {:induction false} ActEvolves(n: Node, a: Act)
    requires NodeInv(n) && Can(n, a) && !a.Receive?
    ensures StreamsEvolve(n.c.streams, Do(n, a).c.streams)
  {
    hide NodeInv, Can, Do;
    DoConn(n, a);
    Reflexive(n.c);
  }

  lemma {:induction false} ReadStep(n: Node, a: Act, id: StreamId)
    requires NodeInv(n) && Can(n, a) && a.Call? && a.x.Read? && a.x.id == id
    ensures ReadOf(Do(n, a).c, id) == ReadOf(n.c, id) + Given(n, a, id)
  {
    hide NodeInv, Inv, ReadOf, TryRead;
    InvOfNode(n);
    ReadAdds(n.c, id, a.x.n);
  }

  lemma {:induction false} ActPlace(n: Node, a: Act, id: StreamId)
    requires NodeInv(n) && Can(n, a) && !a.Receive? && !(a.Call? && a.x.Read? && a.x.id == id)
    ensures SamePlace(n.c, Do(n, a).c, id)
  {
    hide NodeInv, Inv, SamePlace, TakeControl, Terminate, Apply, Reserve, Finish;
    InvOfNode(n);
    Still(n.c, id);
    match a
    case Call(x) => SectionPlace(n.c, x, id);
    case Put(x) =>
      if x.Send? {
        CreditPlace(n.c, x.id, x.data, id);
      } else {
        FinishPlace(n.c, x.id, id);
      }
    case TakeQueue => TakenPlace(n.c, id);
    case Token => WaitPlace(n.c, Do(n, a).c, id);
    case CloseQuietly => ClosePlace(n.c, id);
    case CloseSaying(_) => ClosePlace(n.c, id);
    case _ =>
  }

  lemma {:induction false} TakenPlace(c: ConnState, id: StreamId)
    ensures SamePlace(c, TakeControl(c).0, id)
  {
  }

  // -------------------------------------------------------------- both together

  /**
   What the application of one end writes to a stream, and what the application of the other
   reads from it, in a run.
   */
  ghost function WrittenBy(p: Pair, moves: seq<Move>, p': Pair, byA: bool, id: StreamId): seq<byte>
    requires PairLeads(p, moves, p')
    decreases moves
  {
    if moves == [] then []
    else
      var v := moves[0];
      (if byA && v.MoveA? then Handed(p.a, v.act, id) else if !byA && v.MoveB? then Handed(p.b, v.act, id) else [])
      + WrittenBy(Moved(p, v), moves[1..], p', byA, id)
  }

  ghost function ReadBy(p: Pair, moves: seq<Move>, p': Pair, byA: bool, id: StreamId): seq<byte>
    requires PairLeads(p, moves, p')
    decreases moves
  {
    if moves == [] then []
    else
      var v := moves[0];
      (if byA && v.MoveA? then Given(p.a, v.act, id) else if !byA && v.MoveB? then Given(p.b, v.act, id) else [])
      + ReadBy(Moved(p, v), moves[1..], p', byA, id)
  }

  ghost function End(p: Pair, isA: bool): Node {
    if isA then p.a else p.b
  }

  /** Handling the other end's frame neither writes nor reads. */
  lemma {:induction false} NextKeeps(y: Node, x: Node, m: nat, id: StreamId)
    requires NodeInv(y) && m < |x.log|
    ensures Out(HandleNext(y, x, m)) == Out(y) && ReadOf(HandleNext(y, x, m).c, id) == ReadOf(y.c, id)
  {
    hide NodeInv, Inv, HandleFrame, ReadOf, Evolves, SamePlace;
    InvOfNode(y);
    if !y.c.life.closed {
      var f := Received(x.log[m]);
      HandlePlace(y.c, f, id);
      HandleFrameInv(y.c, f);
      HandleFrameEvolves(y.c, f);
      assert StreamsEvolve(y.c.streams, HandleFrame(y.c, f).0.streams)
          by { EvolvesStreams(y.c, HandleFrame(y.c, f).0); }
      KeepsRead(y.c, HandleFrame(y.c, f).0, id);
    }
  }

  lemma {:induction false} EvolvesStreams(c: ConnState, c': ConnState)
    requires Evolves(c, c')
    ensures StreamsEvolve(c.streams, c'.streams)
  {
  }

  lemma {:induction false} MoveKeeps(p: Pair, v: Move, isA: bool, id: StreamId)
    requires PairInv(p) && CanMove(p, v)
    ensures var n, n' := End(p, isA), End(Moved(p, v), isA);
      var mine := if isA then v.MoveA? else v.MoveB?;
      && DataOf(Out(n'), id) == DataOf(Out(n), id) + (if mine then Handed(n, v.act, id) else [])
      && ReadOf(n'.c, id) == ReadOf(n.c, id) + (if mine then Given(n, v.act, id) else [])
  {
    hide NodeInv, OneWay, Can, Do, HandleNext, DataOf, ReadOf, Handed, Given;
    match v
    case MoveA(act) =>
      if isA {
        ActData(p.a, act, id);
        ActRead(p.a, act, id);
      }
    case MoveB(act) =>
      if !isA {
        ActData(p.b, act, id);
        ActRead(p.b, act, id);
      }
    case DeliverA =>
      assert p.toA < |p.b.log|;
      NextKeeps(p.a, p.b, p.toA, id);
    case DeliverB =>
      assert p.toB < |p.a.log|;
      NextKeeps(p.b, p.a, p.toB, id);
  }

  /**
   Over any run of the pair, what an end put out is what its application wrote, and what was
   read is what its application got.
   */
  lemma {:induction false} PairRunData(p: Pair, moves: seq<Move>, p': Pair, isA: bool, id: StreamId)
    requires PairInv(p) && PairLeads(p, moves, p')
    ensures DataOf(Out(End(p', isA)), id) == DataOf(Out(End(p, isA)), id) + WrittenBy(p, moves, p', isA, id)
    ensures ReadOf(End(p', isA).c, id) == ReadOf(End(p, isA).c, id) + ReadBy(p, moves, p', isA, id)
    decreases moves
  {
    hide PairInv, CanMove, Moved, DataOf, ReadOf, Handed, Given;
    if moves != [] {
      MoveKeeps(p, moves[0], isA, id);
      MovedInv(p, moves[0]);
      PairRunData(Moved(p, moves[0]), moves[1..], p', isA, id);
    }
  }

  /**
   Reliable byte streams, as the applications see them. In every run of two endpoints, for a
   stream neither reset nor abandoned by its reader: what the reader was given, what waits for
   it and what is on its way are together exactly what the writer handed over, as far as the
   stream took it. toA says which way.
   */
  lemma {:induction false} ReliableRun(client: Config, server: Config, moves: seq<Move>, p: Pair, toA: bool,
      id: StreamId)
    requires PairLeads(InitPair(client, server), moves, p)
    requires var y, x := End(p, toA), End(p, !toA);
      && !y.c.life.closed && id in y.c.streams && id in x.c.streams
      && !y.c.streams[id].recv.recvReset && !y.c.streams[id].recv.readCancelled
    ensures var q := if toA then p else Swap(p);
      && q.toA <= |q.b.log|
      && ReadBy(InitPair(client, server), moves, p, toA, id) + q.a.c.streams[id].recv.unread + InFlight(q, id)
         == WrittenBy(InitPair(client, server), moves, p, !toA, id)
  {
    hide InitPair, PairLeads, NodeInv, OneWay, DataOf, WrittenBy, ReadBy, Reachable;
    var p0 := InitPair(client, server);
    InitPairInv(client, server);
    NothingYet(client, server, toA, id);
    NothingYet(client, server, !toA, id);
    PairRunData(p0, moves, p, toA, id);
    PairRunData(p0, moves, p, !toA, id);
    PairRunInv(p0, moves, p);
    var q := if toA then p else Swap(p);
    assert Possible(q) by { RunPossible(client, server, moves, p); }
    hide Possible;
    ReliableStream(q, id);
    SentIs(q.b, id);
    var given, handed := ReadBy(p0, moves, p, toA, id), WrittenBy(p0, moves, p, !toA, id);
    assert [] + given == given && [] + handed == handed;
    assert given == ReadSoFar(q.a.c, id) && handed == DataOf(Out(q.b), id);
  }

  lemma {:induction false} NothingYet(client: Config, server: Config, isA: bool, id: StreamId)
    ensures DataOf(Out(End(InitPair(client, server), isA)), id) == []
    ensures ReadOf(End(InitPair(client, server), isA).c, id) == []
  {
    var n := End(InitPair(client, server), isA);
    assert Out(n) == n.pend;
    DataOfAtMostOne(n.pend, id);
  }

  lemma {:induction false} RunPossible(client: Config, server: Config, moves: seq<Move>, p: Pair)
    requires PairLeads(InitPair(client, server), moves, p)
    ensures PairReachable(p) && Possible(p) && Possible(Swap(p))
  {
    hide PairLeads, InitPair;
    assert Swap(Swap(p)) == p;
  }

  /** Once the writer ended the stream and all of it was delivered and read, the reader is told so. */
  lemma {:induction false} EndComes(p: Pair, id: StreamId, n: nat)
    requires Possible(p) && !p.a.c.life.closed && id in p.b.c.streams && p.b.c.streams[id].send.finSent
    requires p.toA == |p.b.log| && p.b.pend == []
    ensures id in p.a.c.streams && p.a.c.streams[id].recv.finRecv
    ensures var r := p.a.c.streams[id].recv;
      r.recvErr.None? && r.unread == [] ==> TryRead(p.a.c, id, n).1 == ReadEof([])
  {
    hide Possible, NodeInv, OneWay, StreamFold;
    PossibleInv(p);
    FinSaid(p.b, id);
    assert p.b.log[..p.toA] == p.b.log && Out(p.b) == p.b.log;
    if id !in p.a.c.streams {
      NothingHeardAll(p.a, p.b, p.toA, id);
      assert false;
    }
    ReceivedIs(p.a, p.b, p.toA, id);
  }

  lemma {:induction false} FinSaid(x: Node, id: StreamId)
    requires NodeInv(x) && id in x.c.streams
    ensures StreamFold(Out(x), id,
        InitialGrant(x.c.isServer, x.c.config.streamWindow, id)).fin == x.c.streams[id].send.finSent
  {
    hide NodeInv, StreamFold;
    OutSaid(x, id);
    QueueSilent(x, id);
  }

  lemma {:induction false} NothingHeardAll(y: Node, x: Node, m: nat, id: StreamId)
    requires OneWay(y, x, m) && !y.c.life.closed && id !in y.c.streams
    ensures !StreamFold(x.log[..m], id, InitialGrant(x.c.isServer, x.c.config.streamWindow, id)).fin
  {
    hide Respects, ConnHeard;
    var g := PeerGrant(y.c.isServer, x.c.config.streamWindow, id);
    assert HeardOf(y.c.streams, id, StreamFold(x.log[..m], id, g), g);
    hide StreamsHeard, StreamFold;
  }

  /** The queue never ends a stream with FIN. */
  lemma {:induction false} QueueSilent(x: Node, id: StreamId)
    requires NodeInv(x)
    ensures var g := InitialGrant(x.c.isServer, x.c.config.streamWindow, id);
      StreamFold(Out(x) + x.c.control.frames, id, g).fin == StreamFold(Out(x), id, g).fin
  {
    QueueCarriesNone(x);
    hide NodeInv;
    FinSkip(Out(x), x.c.control.frames, id, InitialGrant(x.c.isServer, x.c.config.streamWindow, id));
  }

  lemma {:induction false} FinSkip(out: Said, ctrl: Said, id: StreamId, g: nat)
    requires forall f | f in ctrl :: Queued(f)
    ensures StreamFold(out + ctrl, id, g).fin == StreamFold(out, id, g).fin
  {
    if ctrl == [] {
      assert out + ctrl == out;
    } else {
      var n := |ctrl| - 1;
      assert ctrl[n] in ctrl;
      FinSkip(out, ctrl[..n], id, g);
      assert out + ctrl == out + ctrl[..n] + [ctrl[n]];
      StreamAppend(out + ctrl[..n], ctrl[n], id, g);
    }
  }
}
