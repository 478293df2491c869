/**
 Frames in records: how large an encoded frame is, how the write loop splits the
 control queue into records, and that everything an endpoint ever sends has an
 encoding that its peer takes.
 */
module Records {
  import opened Basics
  import opened StreamIds
  import opened Frames
  import opened ParamCodec
  import opened FrameCodec
  import Varints

  const MAX_CONTROL_FRAME_SIZE: nat := 32
  const MAX_REASON_LENGTH: nat := DEFAULT_MAX_RECORD_SIZE - MAX_CONTROL_FRAME_SIZE

  // ----------------------------------------------------------------- frame sizes

  lemma {:induction false} IntsLength(vs: seq<nat>)
    requires forall v | v in vs :: v < Varints.LIMIT
    ensures |vs| <= |Ints(vs)| <= 8 * |vs|
    ensures vs != [] ==> vs[0] in vs && |Ints(vs)| <= Varints.Len(vs[0]) + 8 * (|vs| - 1)
  {
    if vs != [] {
      assert vs[0] in vs && forall v | v in vs[1..] :: v in vs;
      IntsLength(vs[1..]);
    }
  }

  /** The frames that go through the write loop. */
  predicate ControlFrame(f: Frame) {
    f.ResetStream? || f.StopSending? || f.MaxStreamData? || f.MaxData? || f.MaxStreams? || f.Ping?
  }

  lemma {:induction false} ControlFits(f: Frame)
    requires ControlFrame(f) && Encodable(f)
    ensures 0 < |Encode(f)| <= MAX_CONTROL_FRAME_SIZE
  {
    hide Ints;
    match f
    case ResetStream(id, code, finalSize) => IntsLength([RESET_STREAM, Raw(id), code, finalSize]);
    case StopSending(id, code) => IntsLength([STOP_SENDING, Raw(id), code]);
    case MaxStreamData(id, max) => IntsLength([MAX_STREAM_DATA_FRAME, Raw(id), max]);
    case MaxData(max) => IntsLength([MAX_DATA, max]);
    case MaxStreams(dir, max) => IntsLength([if dir.Uni? then MAX_STREAMS_UNI else MAX_STREAMS_BIDI, max]);
    case Ping(response, sequence) => IntsLength([if response then PING_RESPONSE else PING_REQUEST, sequence]);
  }

  /** As much data as a stream ever reserves at once fits in a record of the default size. */
  lemma {:induction false} StreamFits(id: StreamId, offset: nat, data: seq<byte>, fin: bool)
    requires Encodable(StreamData(id, offset, data, fin)) && |data| <= MAX_STREAM_DATA
    ensures 0 < |Encode(StreamData(id, offset, data, fin))| <= DEFAULT_MAX_RECORD_SIZE
  {
    hide Ints;
    if offset > 0 {
      IntsLength([StreamType(offset, fin), Raw(id), offset, |data|]);
    } else {
      IntsLength([StreamType(offset, fin), Raw(id), |data|]);
    }
  }

  lemma {:induction false} CloseFits(f: Frame)
    requires f.ConnectionClose? && Encodable(f) && |f.reason| <= MAX_REASON_LENGTH
    ensures 0 < |Encode(f)| <= DEFAULT_MAX_RECORD_SIZE
  {
    hide Ints;
    if f.application {
      IntsLength([APPLICATION_CLOSE, f.code, |f.reason|]);
    } else {
      IntsLength([TRANSPORT_CLOSE, f.code, f.frameType, |f.reason|]);
    }
  }

  lemma {:induction false} ParamListShort(p: Parameters, ids: seq<nat>)
    requires (forall id | id in ids :: id in IDS) && EncodableParams(p)
    ensures |ParamList(p, ids)| <= |ids|
    ensures forall t | t in ParamList(p, ids) :: |t.value| <= 8
  {
    hide GetField, EncodableParams, Varints.Encode;
    if ids != [] {
      ParamListShort(p, ids[1..]);
    }
  }

  lemma {:induction false} ListShort(ts: seq<Param>)
    requires forall t | t in ts :: EncodableParam(t) && |t.value| <= 8
    ensures |EncodeList(ts)| <= 24 * |ts|
  {
    if ts != [] {
      assert ts[0] in ts && forall t | t in ts[1..] :: t in ts;
      ListShort(ts[1..]);
    }
  }

  lemma {:induction false} ParamsFit(p: Parameters)
    requires EncodableParams(p)
    ensures |EncodeParams(p)| <= 216
    ensures FinalCheck(Normal(p)).Accepted? ==>
      Encodable(TransportParameters(p)) && 0 < |Encode(TransportParameters(p))| <= DEFAULT_MAX_RECORD_SIZE
  {
    hide Ints, EncodableParams, ParamList, EncodeList, GetField, Normal, FinalCheck;
    ListEncodable(p);
    ParamListShort(p, IDS);
    ListShort(ParamList(p, IDS));
    IntsLength([TRANSPORT_PARAMETERS, |EncodeParams(p)|]);
  }

  /** The limit is checked against the exact size of the encoded frame. */
  lemma {:induction false} DatagramSize(data: seq<byte>)
    requires |data| < Varints.LIMIT
    ensures |Encode(Datagram(data))| == 1 + Varints.Len(|data|) + |data|
  {
    assert Ints([DATAGRAM_LEN, |data|]) == Varints.Encode(DATAGRAM_LEN) + Ints([|data|]);
    assert Ints([|data|]) == Varints.Encode(|data|) + [];
  }

  /**
   A MAX_STREAMS frame is taken exactly when its limit is at most 2^60. Above that
   it is an error of the sender, and a limit grows with every stream that completes.
   */
  lemma {:induction false} MaxStreamsExact(dir: Dir, max: nat, rest: seq<byte>)
    requires max < Varints.LIMIT
    ensures var t := if dir.Uni? then MAX_STREAMS_UNI else MAX_STREAMS_BIDI;
      Parse(Ints([t, max]) + rest) == if max <= MAX_STREAMS then Parsed(MaxStreams(dir, max), rest)
          else Fault(FRAME_ENCODING_ERROR)
  {
    hide ReadInt, Parse;
    var t := if dir.Uni? then MAX_STREAMS_UNI else MAX_STREAMS_BIDI;
    assert [t, max] == [t] + [max];
    ParseType(t, [max], rest);
    IntsOf1(max, rest);
  }

  // ------------------------------------------------------- emptying the queue

  /** What a peer makes of records, one after the other. */
  function ParseRecords(records: seq<seq<byte>>): (seq<Frame>, Option<nat>) {
    if records == [] then ([], None)
    else
      var n := |records| - 1;
      var (before, fault) := ParseRecords(records[..n]);
      if fault.Some? then (before, fault) else (before + ParseAll(records[n]).0, ParseAll(records[n]).1)
  }

  lemma {:induction false} ParseRecordsNext(records: seq<seq<byte>>, before: seq<Frame>, more: seq<Frame>)
    requires ParseRecords(records) == (ReceivedAll(before), None) && forall f | f in more :: Encodable(f)
    ensures ParseRecords(records + [EncodeAll(more)]) == (ReceivedAll(before + more), None)
  {
    hide ParseAll, Encodable;
    var n := |records|;
    assert (records + [EncodeAll(more)])[..n] == records;
    ParseEncoded(more);
    ReceivedConcat(before, more);
  }

  lemma {:induction false} ReceivedConcat(a: seq<Frame>, b: seq<Frame>)
    ensures ReceivedAll(a + b) == ReceivedAll(a) + ReceivedAll(b)
  {
    if a == [] {
      assert a + b == b;
    } else {
      assert (a + b)[1..] == a[1..] + b;
      ReceivedConcat(a[1..], b);
    }
  }

  predicate RecordFits(record: seq<byte>) {
    0 < |record| <= DEFAULT_MAX_RECORD_SIZE
  }

  // ------------------------------------------------------ frames put into records

  /** What one record carries: any one frame, or control frames as long as they fit the default size. */
  ghost predicate Writable(group: seq<Frame>) {
    && group != [] && (forall f | f in group :: Encodable(f))
    && (|group| == 1 || ((forall f | f in group :: ControlFrame(f)) && RecordFits(EncodeAll(group))))
  }

  /** The frames of all groups, in order. */
  ghost function Together(groups: seq<seq<Frame>>): seq<Frame> {
    if groups == [] then [] else Together(groups[..|groups| - 1]) + groups[|groups| - 1]
  }

  /** One record for each group. */
  ghost function RecordsOf(groups: seq<seq<Frame>>): (records: seq<seq<byte>>)
    requires forall g | g in groups :: Writable(g)
    ensures |records| == |groups|
  {
    if groups == [] then []
    else
      var n := |groups| - 1;
      assert Writable(groups[n]) && forall g | g in groups[..n] :: g in groups;
      RecordsOf(groups[..n]) + [EncodeAll(groups[n])]
  }

  lemma {:induction false} OneGroupMore(groups: seq<seq<Frame>>, group: seq<Frame>)
    requires (forall g | g in groups :: Writable(g)) && Writable(group)
    ensures forall g | g in groups + [group] :: Writable(g)
    ensures Together(groups + [group]) == Together(groups) + group
    ensures RecordsOf(groups + [group]) == RecordsOf(groups) + [EncodeAll(group)]
  {
    hide Encodable, EncodeAll, ControlFrame;
    assert (groups + [group])[..|groups|] == groups;
  }

  lemma {:induction false} LastGroup(groups: seq<seq<Frame>>)
    requires groups != [] && forall g | g in groups :: Writable(g)
    ensures var n := |groups| - 1;
      && (forall g | g in groups[..n] :: Writable(g)) && Writable(groups[n])
          && (forall f | f in groups[n] :: Encodable(f))
      && RecordsOf(groups) == RecordsOf(groups[..n]) + [EncodeAll(groups[n])]
      && Together(groups) == Together(groups[..n]) + groups[n]
  {
    hide Encodable, EncodeAll, ControlFrame;
    var n := |groups| - 1;
    assert groups[n] in groups && forall g | g in groups[..n] :: g in groups;
  }

  /** What a peer makes of records of such groups is the frames. */
  lemma {:induction false} GroupsParse(groups: seq<seq<Frame>>)
    requires forall g | g in groups :: Writable(g)
    ensures ParseRecords(RecordsOf(groups)) == (ReceivedAll(Together(groups)), None)
  {
    if groups == [] {
      NothingParsed();
      NothingGrouped();
    } else {
      LastGroup(groups);
      hide Writable, Encodable, EncodeAll, RecordsOf, Together, ParseRecords, ReceivedAll;
      var n := |groups| - 1;
      GroupsParse(groups[..n]);
      ParseRecordsNext(RecordsOf(groups[..n]), Together(groups[..n]), groups[n]);
    }
  }

  /**
   Writes the queued frames, in as many records as it takes; accepts is how many
   records the transport takes before it fails. No record is empty or larger than
   every peer accepts, and what the peer parses is what was queued, in order: all
   of it, or a beginning of it if the transport failed. groups tells which frames
   went into which record.
   */
  method FlushControl(frames: seq<Frame>, accepts: nat)
    returns (records: seq<seq<byte>>, ok: bool, ghost groups: seq<seq<Frame>>)
    requires forall f | f in frames :: ControlFrame(f) && Encodable(f)
    ensures forall r | r in records :: RecordFits(r)
    ensures (forall g | g in groups :: Writable(g)) && records == RecordsOf(groups)
    ensures if ok then Together(groups) == frames else |records| == accepts && Together(groups) < frames
    ensures ParseRecords(records) == (ReceivedAll(Together(groups)), None)
    ensures frames == [] ==> records == [] && ok
  {
    hide EncodeAll, Encode, Encodable, ControlFrame, ParseRecords, ReceivedAll, Together, RecordsOf, Writable;
    var full := RECORD_HEADROOM + DEFAULT_MAX_RECORD_SIZE - MAX_CONTROL_FRAME_SIZE;
    var empty := seq(RECORD_HEADROOM, _ => 0);
    var buf := empty;
    records, groups := [], [];
    ghost var done := 0;
    NothingGrouped();
    assert frames[..0] == [] && frames[0..0] == [];
    NothingEncoded();
    for i := 0 to |frames|
      invariant done <= i && |records| <= accepts && (records != [] ==> done > 0)
      invariant forall f | f in frames[done..i] :: Encodable(f)
      invariant buf == empty + EncodeAll(frames[done..i]) && |buf| <= full && (|buf| == RECORD_HEADROOM ==> done == i)
      invariant (forall g | g in groups :: Writable(g)) && records == RecordsOf(groups)
          && Together(groups) == frames[..done]
      invariant forall r | r in records :: RecordFits(r)
    {
      var f := frames[i];
      assert f in frames;
      ghost var now := frames[done..i + 1];
      assert now == frames[done..i] + [f];
      assert forall g | g in now :: g in frames;
      EncodeAllMore(frames[done..i], f);
      ControlFits(f);
      assert buf + Encode(f) == empty + EncodeAll(now);
      buf := buf + Encode(f);
      if |buf| > full {
        if |records| == accepts {
          GroupsParse(groups);
          return records, false, groups;
        }
        assert buf[RECORD_HEADROOM..] == EncodeAll(now);
        ControlGroup(now);
        OneGroupMore(groups, now);
        assert frames[..done] + now == frames[..i + 1];
        records, groups := records + [buf[RECORD_HEADROOM..]], groups + [now];
        buf := empty;
        done := i + 1;
        assert frames[done..i + 1] == [];
        assert buf == empty + [];
      }
    }
    ok := |buf| == RECORD_HEADROOM;
    assert frames[..|frames|] == frames;
    if !ok && |records| < accepts {
      ghost var now := frames[done..|frames|];
      assert buf[RECORD_HEADROOM..] == EncodeAll(now);
      assert forall g | g in now :: g in frames;
      ControlGroup(now);
      OneGroupMore(groups, now);
      assert frames[..done] + now == frames;
      records, groups := records + [buf[RECORD_HEADROOM..]], groups + [now];
      ok := true;
    }
    GroupsParse(groups);
  }

  lemma {:induction false} ControlGroup(group: seq<Frame>)
    requires (forall f | f in group :: ControlFrame(f) && Encodable(f)) && RecordFits(EncodeAll(group))
    ensures Writable(group)
  {
    hide ControlFrame, Encodable;
    if group == [] {
      NothingEncoded();
    }
  }

  lemma {:induction false} NothingGrouped()
    ensures Together([]) == [] && RecordsOf([]) == []
  {
  }

  lemma {:induction false} NothingParsed()
    ensures ParseRecords([]) == ([], None) && ReceivedAll([]) == []
  {
  }

  lemma {:induction false} NothingEncoded()
    ensures EncodeAll([]) == []
  {
  }

  lemma {:induction false} EncodeAllMore(frames: seq<Frame>, f: Frame)
    requires (forall g | g in frames :: Encodable(g)) && Encodable(f)
    ensures forall g | g in frames + [f] :: Encodable(g)
    ensures EncodeAll(frames + [f]) == EncodeAll(frames) + Encode(f)
  {
    hide Encodable, Encode;
    assert (frames + [f])[..|frames|] == frames;
  }
}
