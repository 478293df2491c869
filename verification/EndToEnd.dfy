/**
 The whole way, down to bytes: what an honest endpoint writes is put into records,
 framed, read back, parsed and handled, and is never answered with an error; not one
 about a frame, and not one about the size of a record.
 */
module EndToEnd {
  import opened Basics
  import opened StreamIds
  import opened Frames
  import opened Endpoints
  import opened FrameCodec
  import opened Handling
  import opened FrameAnswers
  import opened Traffic
  import opened Speaking
  import opened Nodes
  import opened Hearing
  import opened Pairs
  import opened PairTheorems
  import opened Records
  import opened Wire
  import Framing
  import Varints

  lemma {:induction false} OneMoveMore(p: Pair, moves: seq<Move>, p': Pair, v: Move)
    requires PairLeads(p, moves, p') && CanMove(p', v)
    ensures PairLeads(p, moves + [v], Moved(p', v))
    decreases moves
  {
    hide CanMove, Moved;
    if moves == [] {
      assert moves + [v] == [v] && [v][1..] == [];
    } else {
      assert (moves + [v])[1..] == moves[1..] + [v];
      OneMoveMore(Moved(p, moves[0]), moves[1..], p', v);
    }
  }

  lemma {:induction false} ReachableMoves(p: Pair, v: Move)
    requires PairReachable(p) && CanMove(p, v)
    ensures PairReachable(Moved(p, v))
  {
    hide CanMove, Moved, PairLeads, InitPair;
    var client, server, moves :| PairLeads(InitPair(client, server), moves, p);
    OneMoveMore(InitPair(client, server), moves, p, v);
  }

  /** The pair after a has handled the next frame. */
  ghost function Delivered(p: Pair): Pair
    requires p.toA < |p.b.log|
  {
    Moved(p, DeliverA)
  }

  lemma {:induction false} PossibleDelivers(p: Pair)
    requires Possible(p) && p.toA < |p.b.log|
    ensures Possible(Delivered(p))
  {
    hide PairReachable;
    if PairReachable(p) {
      ReachableMoves(p, DeliverA);
    } else {
      ReachableMoves(Swap(p), DeliverB);
      assert Moved(Swap(p), DeliverB) == Swap(Delivered(p));
    }
  }

  /** Frames handled one after the other: none is a violation. */
  lemma {:induction false} FramesNeverAccused(p: Pair, j: nat)
    requires Possible(p) && !p.a.c.life.closed && p.toA <= j <= |p.b.log|
    ensures !HandleAll(p.a.c, ReceivedAll(p.b.log[p.toA..j])).1.Violation?
    decreases j - p.toA
  {
    hide Possible, HandleFrame, Received;
    if p.toA < j {
      var frames := p.b.log[p.toA..j];
      var f := Received(p.b.log[p.toA]);
      assert frames[0] == p.b.log[p.toA] && frames[1..] == p.b.log[p.toA + 1..j];
      NoAccusation(p);
      HandleFrameOpen(p.a.c, f);
      PossibleDelivers(p);
      assert ReceivedAll(frames)[1..] == ReceivedAll(frames[1..]);
      FramesNeverAccused(Delivered(p), j);
    }
  }

  /**
   A record by its bytes: whatever stretch of frames it holds, and whatever padding
   stands between them, the receiver's parser and handlers find no violation.
   */
  lemma {:induction false} RecordNeverAccused(p: Pair, j: nat, pads: seq<nat>, last: nat)
    requires Possible(p) && !p.a.c.life.closed && p.toA <= j <= |p.b.log| && |pads| == j - p.toA
    requires InRange(p.b.c) && forall f | f in p.b.log :: CodesInRange(f)
    ensures forall f | f in p.b.log[p.toA..j] :: Encodable(f)
    ensures !HandleBytes(p.a.c, Padded(p.b.log[p.toA..j], pads, last)).1.Violation?
  {
    hide Possible, HandleBytes, HandleAll, Padded, Encodable, InRange, CodesInRange;
    var frames := p.b.log[p.toA..j];
    forall f | f in frames ensures Encodable(f) {
      var k :| 0 <= k < |frames| && frames[k] == f;
      assert p.b.log[p.toA + k] == f && f in p.b.log;
      PossibleNode(p);
      assert Out(p.b)[p.toA + k] == f;
      FrameEncodes(p.b, p.toA + k);
    }
    PaddingImmaterial(p.a.c, frames, pads, last);
    FramesNeverAccused(p, j);
  }

  lemma {:induction false} PossibleNode(p: Pair)
    requires Possible(p)
    ensures NodeInv(p.b)
  {
    hide Possible, NodeInv, OneWay;
    PossibleInv(p);
  }

  // --------------------------------------------------------------- record sizes

  /** A frame that is sent fits a record of the size the receiver declared. */
  lemma {:induction false} FrameFitsPeer(p: Pair, i: nat)
    requires Possible(p) && i < |p.b.log| && ValidConfig(p.a.c.config) && InRange(p.b.c) && CodesInRange(p.b.log[i])
    ensures Encodable(p.b.log[i]) && 0 < |Encode(p.b.log[i])| <= p.a.c.config.maxRecordSize
  {
    hide Possible, Encode, Encodable, InRange, CodesInRange;
    PossibleNode(p);
    assert Out(p.b)[i] == p.b.log[i];
    FrameEncodes(p.b, i);
    if p.b.log[i].Datagram? {
      OutSayable(p.b, i);
      PeerDeclared(p);
    }
  }

  /** What the sender knows as the receiver's record size is what the receiver was configured with. */
  lemma {:induction false} PeerDeclared(p: Pair)
    requires Possible(p) && p.b.c.life.ready && ValidConfig(p.a.c.config)
    ensures p.b.c.life.peer.maxRecordSize == p.a.c.config.maxRecordSize
  {
    hide Possible, NodeInv, Hears;
    PossibleInv(p);
  }

  /** Frames of the sender, in groups as they go into records. */
  ghost predicate PutIn(p: Pair, j: nat, groups: seq<seq<Frame>>)
    requires p.toA <= j <= |p.b.log|
  {
    (forall g | g in groups :: Writable(g)) && Together(groups) == p.b.log[p.toA..j]
  }

  lemma {:induction false} GroupFrames(groups: seq<seq<Frame>>, i: nat, f: Frame)
    requires i < |groups| && f in groups[i]
    ensures f in Together(groups)
  {
    if i < |groups| - 1 {
      GroupFrames(groups[..|groups| - 1], i, f);
    }
  }

  lemma {:induction false} RecordAt(groups: seq<seq<Frame>>, i: nat)
    requires i < |groups| && forall g | g in groups :: Writable(g)
    ensures Writable(groups[i]) && (forall f | f in groups[i] :: Encodable(f))
        && RecordsOf(groups)[i] == EncodeAll(groups[i])
  {
    hide Writable, RecordsOf, EncodeAll, Encodable, Together;
    LastGroup(groups);
    var n := |groups| - 1;
    if i < n {
      RecordAt(groups[..n], i);
      assert groups[..n][i] == groups[i];
    }
  }

  /** Every record is within the size that the receiver declared. */
  lemma {:induction false} RecordFitsPeer(p: Pair, j: nat, groups: seq<seq<Frame>>, i: nat)
    requires Possible(p) && ValidConfig(p.a.c.config) && InRange(p.b.c) && (forall f | f in p.b.log :: CodesInRange(f))
    requires p.toA <= j <= |p.b.log| && PutIn(p, j, groups) && i < |groups|
    ensures |RecordsOf(groups)[i]| <= p.a.c.config.maxRecordSize < Varints.LIMIT
  {
    hide Possible, InRange, CodesInRange, Encodable, Encode, EncodeAll;
    RecordAt(groups, i);
    var g := groups[i];
    if |g| == 1 {
      GroupFrames(groups, i, g[0]);
      var k :| p.toA <= k < j && p.b.log[k] == g[0];
      assert p.b.log[k] in p.b.log;
      FrameFitsPeer(p, k);
      assert g == [g[0]];
      EncodeAllOne(g[0]);
    }
  }

  // ---------------------------------------------------------------- the read loop

  /**
   Handles what the transport delivers, until something ends the connection. A record over
   the limit is an error of the peer.
   */
  function HandleResults(c: ConnState, results: seq<Framing.ReadResult>): (ConnState, Outcome)
    decreases results
  {
    if results == [] then (c, Fine)
    else
      match results[0]
      case Record(record) =>
        var (c1, o) := HandleBytes(c, record);
        if o.Fine? then HandleResults(c1, results[1..]) else (c1, o)
      case TooLarge(_) => (c, Violation(FRAME_ENCODING_ERROR))
      case Ended => (c, Fine)
  }

  ghost function Whole(records: seq<seq<byte>>): seq<Framing.ReadResult> {
    if records == [] then [] else [Framing.Record(records[0])] + Whole(records[1..])
  }

  lemma {:induction false} AllDelivered(records: seq<seq<byte>>, max: nat)
    requires forall r | r in records :: |r| <= max
    ensures Framing.DeliveredAll(records, max) == Whole(records)
  {
    if records != [] {
      assert records[0] in records && forall r | r in records[1..] :: r in records;
      AllDelivered(records[1..], max);
    }
  }

  lemma {:induction false} GroupHandled(c: ConnState, group: seq<Frame>)
    requires !c.life.closed && forall f | f in group :: Encodable(f)
    ensures HandleBytes(c, EncodeAll(group)) == HandleAll(c, ReceivedAll(group))
  {
    hide HandleBytes, HandleAll, Padded, Encodable, EncodeAll;
    var pads: seq<nat> := seq(|group|, _ => 0);
    PaddedPlain(group, pads);
    PaddingImmaterial(c, group, pads, 0);
  }

  lemma {:induction false} HandleAllOpen(c: ConnState, frames: seq<Frame>)
    ensures HandleAll(c, frames).0.life.closed == c.life.closed
    decreases frames
  {
    hide HandleFrame;
    if frames != [] {
      HandleFrameOpen(c, frames[0]);
      HandleAllOpen(HandleFrame(c, frames[0]).0, frames[1..]);
    }
  }

  lemma {:induction false} HandleAllStops(c: ConnState, a: seq<Frame>, b: seq<Frame>)
    requires !HandleAll(c, a).1.Fine?
    ensures HandleAll(c, a + b) == HandleAll(c, a)
    decreases a
  {
    hide HandleFrame;
    assert (a + b)[0] == a[0] && (a + b)[1..] == a[1..] + b;
    if HandleFrame(c, a[0]).1.Fine? {
      HandleAllStops(HandleFrame(c, a[0]).0, a[1..], b);
    }
  }

  /** Reading records on is handling their frames in order. */
  lemma {:induction false} ResultsAreFrames(c: ConnState, groups: seq<seq<Frame>>)
    requires !c.life.closed && forall g | g in groups :: Writable(g)
    ensures HandleResults(c, Whole(RecordsOf(groups))) == HandleAll(c, ReceivedAll(Together(groups)))
  {
    if groups == [] {
      NothingGrouped();
    } else {
      LastGroup(groups);
      hide Writable, RecordsOf, Together, Encodable, EncodeAll, HandleAll, HandleBytes, ReceivedAll;
      var n := |groups| - 1;
      var before, last := Together(groups[..n]), groups[n];
      ResultsAreFrames(c, groups[..n]);
      ResultsMore(c, RecordsOf(groups[..n]), EncodeAll(last));
      ReceivedConcat(before, last);
      var (c1, o) := HandleAll(c, ReceivedAll(before));
      HandleAllOpen(c, ReceivedAll(before));
      if o.Fine? {
        SplitImmaterial(c, ReceivedAll(before), ReceivedAll(last));
        GroupHandled(c1, last);
      } else {
        HandleAllStops(c, ReceivedAll(before), ReceivedAll(last));
      }
    }
  }

  lemma {:induction false} ResultsMore(c: ConnState, records: seq<seq<byte>>, record: seq<byte>)
    ensures var (c1, o) := HandleResults(c, Whole(records));
      HandleResults(c, Whole(records + [record])) == if o.Fine? then HandleBytes(c1, record) else (c1, o)
    decreases records
  {
    hide HandleBytes;
    if records == [] {
      assert records + [record] == [record] && Whole([record]) == [Framing.Record(record)];
    } else {
      assert (records + [record])[0] == records[0] && (records + [record])[1..] == records[1..] + [record];
      assert Whole(records)[1..] == Whole(records[1..]);
      assert Whole(records + [record])[1..] == Whole(records[1..] + [record]);
      ResultsMore(HandleBytes(c, records[0]).0, records[1..], record);
    }
  }

  /**
   Two endpoints never make each other report an error, on the wire as it is: put into
   records as the sender does, framed with their sizes and read back, the frames give no
   record over the receiver's limit, and nothing the receiver handles is a violation.
   */
  lemma {:induction false} NeverAccused(p: Pair, j: nat, groups: seq<seq<Frame>>)
    requires Possible(p) && !p.a.c.life.closed && ValidConfig(p.a.c.config)
    requires InRange(p.b.c) && forall f | f in p.b.log :: CodesInRange(f)
    requires p.toA <= j <= |p.b.log| && PutIn(p, j, groups)
    ensures forall r | r in RecordsOf(groups) :: |r| < Varints.LIMIT
    ensures var results := Framing.ReadAll(Framing.Wired(RecordsOf(groups)), p.a.c.config.maxRecordSize);
      && (forall r | r in results :: r.Record?) && |results| == |groups|
      && !HandleResults(p.a.c, results).1.Violation?
  {
    var records, max := RecordsOf(groups), p.a.c.config.maxRecordSize;
    forall r | r in records ensures |r| <= max < Varints.LIMIT {
      hide Possible, InRange, CodesInRange, PutIn, RecordsOf, ValidConfig;
      var i :| 0 <= i < |records| && records[i] == r;
      RecordFitsPeer(p, j, groups, i);
    }
    hide Possible, InRange, CodesInRange, RecordsOf, ValidConfig, HandleResults, HandleAll, Writable, Together;
    Framing.FramingRoundTrip(records, max);
    AllDelivered(records, max);
    WholeRecords(records);
    ResultsAreFrames(p.a.c, groups);
    FramesNeverAccused(p, j);
  }

  lemma {:induction false} WholeRecords(records: seq<seq<byte>>)
    ensures |Whole(records)| == |records| && forall r | r in Whole(records) :: r.Record?
  {
    if records != [] {
      WholeRecords(records[1..]);
    }
  }

  /**
   Emptying the control queue makes such groups: what the write loop takes is written in
   records of the default size at most, which every peer accepts.
   */
  method FlushQueue(ghost n: Node, frames: seq<Frame>, accepts: nat)
    returns (records: seq<seq<byte>>, ok: bool, ghost groups: seq<seq<Frame>>)
    requires NodeInv(n) && Can(n, TakeQueue) && InRange(Do(n, TakeQueue).c)
    requires frames == TakeControl(n.c).1 && forall f | f in frames :: CodesInRange(f)
    ensures forall r | r in records :: RecordFits(r)
    ensures (forall g | g in groups :: Writable(g)) && records == RecordsOf(groups)
    ensures if ok then Together(groups) == frames else Together(groups) < frames
  {
    hide NodeInv, Writable, RecordsOf, Together, RecordFits, TakeControl, InRange, CodesInRange;
    TakenFit(n);
    records, ok, groups := FlushControl(frames, accepts);
  }

  // --------------------------------------------------------------- the peer's close

  lemma {:induction false} ReadyAfterFirst(p: Pair)
    requires Possible(p) && !p.a.c.life.closed && 0 < p.toA <= |p.b.log|
    ensures p.a.c.life.ready
  {
    hide Possible, NodeInv, Respects, KnowsWindow, StreamsHeard;
    PossibleInv(p);
  }

  lemma {:induction false} CloseIsNotFirst(n: Node, i: nat)
    requires NodeInv(n) && i < |n.log| && n.log[i].ConnectionClose?
    ensures i > 0
  {
    hide NodeInv;
    LogInOrder(n);
    ConnNext(n.log, i);
  }

  /** The next frame on the wire is taken for the sender's close exactly if it is one, and is fine otherwise. */
  lemma {:induction false} CloseDelivered(p: Pair)
    requires Possible(p) && !p.a.c.life.closed && p.toA < |p.b.log|
    ensures var (c', o) := HandleFrame(p.a.c, Received(p.b.log[p.toA]));
      && (o.PeerClosed? <==> p.b.log[p.toA].ConnectionClose?)
      && (!p.b.log[p.toA].ConnectionClose? ==> o.Fine?)
      && (o.PeerClosed? ==> c' == p.a.c)
  {
    hide Possible, HandleFrame;
    NoAccusation(p);
    PossibleNode(p);
    if p.toA > 0 {
      ReadyAfterFirst(p);
      CloseAnswers(p.a.c, Received(p.b.log[p.toA]));
    } else {
      if p.b.log[p.toA].ConnectionClose? {
        CloseIsNotFirst(p.b, p.toA);
        assert false;
      }
      FirstNotClose(p.a.c, Received(p.b.log[p.toA]));
    }
  }

  lemma {:induction false} FirstNotClose(c: ConnState, f: Frame)
    requires !f.ConnectionClose?
    ensures !HandleFrame(c, f).1.PeerClosed?
  {
    hide Resolve, StreamFault, ResetFault, TakeStream, TakeReset, ResetSend, RaiseSendMax;
  }

  lemma {:induction false} ResultsStop(c: ConnState, results: seq<Framing.ReadResult>, more: seq<Framing.ReadResult>)
    requires !HandleResults(c, results).1.Fine?
    ensures HandleResults(c, results + more) == HandleResults(c, results)
    decreases results
  {
    hide HandleBytes;
    assert (results + more)[0] == results[0] && (results + more)[1..] == results[1..] + more;
    if results[0].Record? && HandleBytes(c, results[0].frames).1.Fine? {
      ResultsStop(HandleBytes(c, results[0].frames).0, results[1..], more);
    }
  }

  /** The read loop ends at the record with the peer's close: whatever follows on the transport changes nothing. */
  lemma {:induction false} CloseEndsReading(c: ConnState, groups: seq<seq<Frame>>, close: Frame,
      more: seq<Framing.ReadResult>)
    requires c.life.ready && !c.life.closed && (forall g | g in groups :: Writable(g))
    requires HandleAll(c, ReceivedAll(Together(groups))).1.Fine? && close.ConnectionClose? && Encodable(close)
    ensures HandleResults(c, Whole(RecordsOf(groups) + [EncodeAll([close])]) + more)
            == (HandleAll(c, ReceivedAll(Together(groups))).0, PeerClosed)
  {
    hide HandleAll, HandleResults, Encodable, EncodeAll, RecordsOf, Together, Writable, Whole, HandleFrame;
    var frames := ReceivedAll(Together(groups));
    var c1 := HandleAll(c, frames).0;
    ResultsAreFrames(c, groups);
    ResultsMore(c, RecordsOf(groups), EncodeAll([close]));
    HandleAllOpen(c, frames);
    HandleAllReady(c, frames);
    GroupHandled(c1, [close]);
    CloseAlone(c1, close);
    ResultsStop(c, Whole(RecordsOf(groups) + [EncodeAll([close])]), more);
  }

  lemma {:induction false} CloseAlone(c: ConnState, close: Frame)
    requires c.life.ready && close.ConnectionClose?
    ensures HandleAll(c, ReceivedAll([close])) == (c, PeerClosed)
  {
    hide HandleFrame;
    CloseAnswers(c, close);
    assert ReceivedAll([close]) == [close];
  }

  /** A record over the limit is reported as a FRAME_ENCODING_ERROR, and what came before it stands. */
  lemma {:induction false} OversizeReported(c: ConnState, record: seq<byte>, max: nat, more: seq<Framing.ReadResult>)
    requires max < |record| < Varints.LIMIT
    ensures Framing.ReadAll(Framing.Wired([record]), max) == [Framing.TooLarge(|record|)]
    ensures HandleResults(c, [Framing.TooLarge(|record|)] + more) == (c, Violation(0x07))
  {
    Framing.FramingRoundTrip([record], max);
  }
}
