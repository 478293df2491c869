/**
 What a sequence of frames says. A digest sums up the frames one endpoint has
 sent so far: for a stream, its data and how it ended; for the connection, the
 limits granted. ok records whether every frame so far was in order.
 */
module Traffic {
  import opened Basics
  import opened StreamIds
  import opened Frames

  /**
   What was said about one stream: the data sent on it and whether that ended, the
   limit granted to the other side (window at first) and in how many frames, and
   how often the other side was asked to stop. In order, each new limit is more
   than half a window above the one before.
   */
  datatype StreamDigest = StreamDigest(ok: bool, data: seq<byte>, fin: bool, reset: bool, window: nat, grant: nat,
      raises: nat, stops: nat)

  function Gap(window: nat): nat {
    window - window / 2
  }

  function StreamStep(d: StreamDigest, f: Frame, id: StreamId): StreamDigest {
    match f
    case StreamData(i, offset, data, fin) =>
      if i == id then d.(ok := d.ok && !d.fin && !d.reset && offset == |d.data|, data := d.data + data, fin := fin)
          else d
    case ResetStream(i, _, finalSize) =>
      if i == id then d.(ok := d.ok && !d.fin && !d.reset && finalSize == |d.data|, reset := true) else d
    case MaxStreamData(i, max) =>
      if i == id then d.(ok := d.ok && max > d.grant + Gap(d.window), grant := Max(d.grant, max), raises := d.raises
          + 1) else d
    case StopSending(i, _) =>
      if i == id then d.(stops := d.stops + 1) else d
    case _ => d
  }

  function Unsaid(grant: nat): StreamDigest {
    StreamDigest(true, [], false, false, grant, grant, 0, 0)
  }

  function StreamFold(frames: seq<Frame>, id: StreamId, grant: nat): StreamDigest {
    if frames == [] then Unsaid(grant)
    else StreamStep(StreamFold(frames[..|frames| - 1], id, grant), frames[|frames| - 1], id)
  }

  /** What was said about the connection. begun: the transport parameters went out; over: CONNECTION_CLOSE did. */
  datatype ConnDigest = ConnDigest(ok: bool, begun: bool, over: bool, grant: nat, bidi: nat, uni: nat, total: nat,
      lastPing: Option<nat>)

  function ConnStep(d0: ConnDigest, f: Frame): ConnDigest {
    var d := d0.(ok := d0.ok && !d0.over && (f.TransportParameters? <==> !d0.begun));
    match f
    case TransportParameters(p) =>
      d.(begun := true, grant := p.initialMaxData, bidi := p.initialMaxStreamsBidi, uni := p.initialMaxStreamsUni)
    case MaxData(max) => d.(grant := Max(d.grant, max))
    case MaxStreams(dir, max) => if dir.Bidi? then d.(bidi := Max(d.bidi, max)) else d.(uni := Max(d.uni, max))
    case StreamData(_, _, data, _) => d.(total := d.total + |data|)
    case Ping(response, sequence) =>
      if response then d
      else d.(ok := d.ok && (d.lastPing.Some? ==> d.lastPing.value < sequence), lastPing := Some(sequence))
    case ConnectionClose(_, _, _, _) => d.(over := true)
    case _ => d
  }

  const SILENCE := ConnDigest(true, false, false, 0, 0, 0, 0, None)

  function ConnFold(frames: seq<Frame>): ConnDigest {
    if frames == [] then SILENCE else ConnStep(ConnFold(frames[..|frames| - 1]), frames[|frames| - 1])
  }

  // -------------------------------------------------------------- appending

  lemma {:induction false} StreamAppend(frames: seq<Frame>, f: Frame, id: StreamId, grant: nat)
    ensures StreamFold(frames + [f], id, grant) == StreamStep(StreamFold(frames, id, grant), f, id)
  {
    assert (frames + [f])[..|frames|] == frames;
  }

  lemma {:induction false} ConnAppend(frames: seq<Frame>, f: Frame)
    ensures ConnFold(frames + [f]) == ConnStep(ConnFold(frames), f)
  {
    assert (frames + [f])[..|frames|] == frames;
  }

  /** Control frames: those that go through the queue. */
  predicate Queued(f: Frame) {
    f.ResetStream? || f.StopSending? || f.MaxStreamData?
  }

  /** Queued frames say nothing about the connection as a whole. */
  lemma {:induction false} ConnSkip(out: seq<Frame>, ctrl: seq<Frame>)
    requires ConnFold(out).begun && !ConnFold(out).over && forall f | f in ctrl :: Queued(f)
    ensures ConnFold(out + ctrl) == ConnFold(out)
  {
    if ctrl == [] {
      assert out + ctrl == out;
    } else {
      var n := |ctrl| - 1;
      assert ctrl[n] in ctrl;
      ConnSkip(out, ctrl[..n]);
      assert out + ctrl == out + ctrl[..n] + [ctrl[n]];
      ConnAppend(out + ctrl[..n], ctrl[n]);
    }
  }

  /** A frame sent ahead of queued ones says the same as one sent after them, unless they end its stream. */
  lemma {:induction false} StreamInsert(out: seq<Frame>, f: Frame, ctrl: seq<Frame>, id: StreamId, grant: nat)
    requires !Queued(f)
    requires forall g | g in ctrl :: Queued(g) && !(f.StreamData? && g.ResetStream? && g.id == f.id)
    ensures StreamFold(out + [f] + ctrl, id, grant) == StreamStep(StreamFold(out + ctrl, id, grant), f, id)
  {
    if ctrl == [] {
      assert out + [f] + ctrl == out + [f] && out + ctrl == out;
      StreamAppend(out, f, id, grant);
    } else {
      var n := |ctrl| - 1;
      var g := ctrl[n];
      assert g in ctrl;
      StreamInsert(out, f, ctrl[..n], id, grant);
      assert out + [f] + ctrl == out + [f] + ctrl[..n] + [g];
      assert out + ctrl == out + ctrl[..n] + [g];
      StreamAppend(out + [f] + ctrl[..n], g, id, grant);
      StreamAppend(out + ctrl[..n], g, id, grant);
    }
  }

  /** Frames that say nothing about any stream. */
  lemma {:induction false} StreamSkip(all: seq<Frame>, more: seq<Frame>, id: StreamId, grant: nat)
    requires forall f | f in more :: !Queued(f) && !f.StreamData?
    ensures StreamFold(all + more, id, grant) == StreamFold(all, id, grant)
  {
    if more == [] {
      assert all + more == all;
    } else {
      var n := |more| - 1;
      assert more[n] in more;
      StreamSkip(all, more[..n], id, grant);
      assert all + more == all + more[..n] + [more[n]];
      StreamAppend(all + more[..n], more[n], id, grant);
    }
  }

  // --------------------------------------------------------------- prefixes

  /** d is a beginning of e. */
  predicate Begins(d: StreamDigest, e: StreamDigest) {
    && (e.ok ==> d.ok) && d.data <= e.data && d.grant <= e.grant && d.raises <= e.raises && d.stops <= e.stops
    && (e.ok && (d.fin || d.reset) ==> d.data == e.data && e.fin == d.fin && e.reset == d.reset)
    && e.window == d.window
    && (e.ok && e.raises == d.raises ==> e.grant == d.grant)
    && (e.ok && e.raises >= d.raises + 1 ==> e.grant > d.grant + Gap(d.window))
    && (e.ok && e.raises >= d.raises + 2 ==> e.grant > d.grant + Gap(d.window) + Gap(d.window))
  }

  lemma {:induction false} StepBegins(d: StreamDigest, f: Frame, id: StreamId)
    ensures Begins(d, StreamStep(d, f, id))
  {
  }

  lemma {:induction false} BeginsTransitive(d: StreamDigest, e: StreamDigest, g: StreamDigest)
    requires Begins(d, e) && Begins(e, g)
    ensures Begins(d, g)
  {
  }

  /** What was said first is part of what was said in all. */
  lemma {:induction false} StreamPrefix(frames: seq<Frame>, n: nat, id: StreamId, grant: nat)
    requires n <= |frames|
    ensures Begins(StreamFold(frames[..n], id, grant), StreamFold(frames, id, grant))
    decreases |frames| - n
  {
    hide Begins, StreamStep;
    var d := StreamFold(frames[..n], id, grant);
    if n < |frames| {
      StreamPrefix(frames, n + 1, id, grant);
      assert frames[..n + 1] == frames[..n] + [frames[n]];
      StreamAppend(frames[..n], frames[n], id, grant);
      StepBegins(d, frames[n], id);
      BeginsTransitive(d, StreamFold(frames[..n + 1], id, grant), StreamFold(frames, id, grant));
    } else {
      assert frames[..n] == frames;
      BeginsReflexive(d);
    }
  }

  lemma {:induction false} BeginsReflexive(d: StreamDigest)
    ensures Begins(d, d)
  {
  }

  lemma {:induction false} ConnPrefix(frames: seq<Frame>, n: nat)
    requires n <= |frames| && ConnFold(frames).ok
    ensures var d, e := ConnFold(frames[..n]), ConnFold(frames);
      && d.ok && (d.begun <==> n > 0) && (d.over ==> n == |frames|)
      && (e.begun ==> d.grant <= e.grant && d.bidi <= e.bidi && d.uni <= e.uni)
      && d.total <= e.total
      && (d.lastPing.Some? ==> e.lastPing.Some? && d.lastPing.value <= e.lastPing.value)
    decreases |frames| - n
  {
    if n < |frames| {
      ConnPrefix(frames, n + 1);
      assert frames[..n + 1] == frames[..n] + [frames[n]];
      ConnAppend(frames[..n], frames[n]);
      ConnBegun(frames[..n]);
    } else {
      assert frames[..n] == frames;
      ConnBegun(frames);
    }
  }

  lemma {:induction false} ConnBegun(frames: seq<Frame>)
    requires ConnFold(frames).ok
    ensures ConnFold(frames).begun <==> frames != []
    ensures !ConnFold(frames).begun ==> ConnFold(frames) == SILENCE
  {
    if frames != [] {
      ConnBegun(frames[..|frames| - 1]);
    }
  }

  /** The next frame after a prefix, when all is in order. */
  lemma {:induction false} ConnNext(frames: seq<Frame>, n: nat)
    requires n < |frames| && ConnFold(frames).ok
    ensures var d := ConnFold(frames[..n]); ConnStep(d, frames[n]).ok
    ensures ConnFold(frames[..n + 1]) == ConnStep(ConnFold(frames[..n]), frames[n])
    ensures frames[n].TransportParameters? <==> n == 0
  {
    hide ConnFold;
    ConnPrefix(frames, n + 1);
    ConnPrefix(frames, n);
    assert frames[..n + 1] == frames[..n] + [frames[n]];
    ConnAppend(frames[..n], frames[n]);
  }

  lemma {:induction false} StreamNext(frames: seq<Frame>, n: nat, id: StreamId, grant: nat)
    requires n < |frames| && StreamFold(frames, id, grant).ok
    ensures StreamFold(frames[..n + 1], id, grant) == StreamStep(StreamFold(frames[..n], id, grant), frames[n], id)
    ensures StreamFold(frames[..n + 1], id, grant).ok
  {
    StreamPrefix(frames, n + 1, id, grant);
    assert frames[..n + 1] == frames[..n] + [frames[n]];
    StreamAppend(frames[..n], frames[n], id, grant);
  }

  /**
   What being in order means for one stream, frame by frame: data is contiguous
   from offset zero, the final size is all the data before it, and nothing about
   the stream's data follows its end.
   */
  lemma {:induction false} WireOrder(frames: seq<Frame>, i: nat, j: nat, id: StreamId, grant: nat)
    requires StreamFold(frames, id, grant).ok && i < |frames|
    ensures frames[i].StreamData? && frames[i].id == id ==>
        frames[i].offset == |StreamFold(frames[..i], id, grant).data|
    ensures frames[i].ResetStream? && frames[i].id == id ==>
        frames[i].finalSize == |StreamFold(frames[..i], id, grant).data|
    ensures i < j < |frames| && Ends(frames[i], id) ==> !AboutData(frames[j], id)
  {
    StreamNext(frames, i, id, grant);
    if i < j < |frames| {
      StreamNext(frames, j, id, grant);
      StreamPrefix(frames[..j], i + 1, id, grant);
      assert frames[..j][..i + 1] == frames[..i + 1];
    }
  }

  predicate AboutData(f: Frame, id: StreamId) {
    (f.StreamData? || f.ResetStream?) && f.id == id
  }

  predicate Ends(f: Frame, id: StreamId) {
    AboutData(f, id) && (f.StreamData? ==> f.fin)
  }
}
