/**
 The encoding of frames, and a parser that stops at the first short read. The
 reader that goes on after a short read, and checks once at the end, is in
 FrameReader.dfy; it agrees with this one.
 */
module FrameCodec {
  import opened Basics
  import opened StreamIds
  import opened Frames
  import opened ParamCodec
  import Varints

  const RESET_STREAM: nat := 0x04
  const STOP_SENDING: nat := 0x05
  const STREAM: nat := 0x08
  const STREAM_LAST: nat := 0x0f
  const MAX_DATA: nat := 0x10
  const MAX_STREAM_DATA_FRAME: nat := 0x11
  const MAX_STREAMS_BIDI: nat := 0x12
  const MAX_STREAMS_UNI: nat := 0x13
  const DATA_BLOCKED: nat := 0x14
  const STREAM_DATA_BLOCKED: nat := 0x15
  const STREAMS_BLOCKED_BIDI: nat := 0x16
  const STREAMS_BLOCKED_UNI: nat := 0x17
  const TRANSPORT_CLOSE: nat := 0x1c
  const APPLICATION_CLOSE: nat := 0x1d
  const DATAGRAM: nat := 0x30
  const DATAGRAM_LEN: nat := 0x31
  const TRANSPORT_PARAMETERS: nat := 0x3f51_5330_0d0a_0d0a
  const PING_REQUEST: nat := 0x348c_6752_9ef8_c7bd
  const PING_RESPONSE: nat := 0x348c_6752_9ef8_c7be

  /** Frames that have an encoding: every integer fits in 62 bits, and the receiver takes the limits in it. */
  predicate Encodable(f: Frame) {
    match f
    case ResetStream(id, code, finalSize) => Raw(id) < Varints.LIMIT && code < Varints.LIMIT
        && finalSize < Varints.LIMIT
    case StopSending(id, code) => Raw(id) < Varints.LIMIT && code < Varints.LIMIT
    case StreamData(id, offset, data, _) => Raw(id) < Varints.LIMIT && offset < Varints.LIMIT && |data| < Varints.LIMIT
    case MaxData(max) => max < Varints.LIMIT
    case MaxStreamData(id, max) => Raw(id) < Varints.LIMIT && max < Varints.LIMIT
    case MaxStreams(_, max) => max <= MAX_STREAMS
    case Blocked => false
    case ConnectionClose(application, code, frameType, reason) =>
      code < Varints.LIMIT && frameType < Varints.LIMIT && (application ==> frameType == 0) && |reason| < Varints.LIMIT
    case Datagram(data) => |data| < Varints.LIMIT
    case Ping(_, sequence) => sequence < Varints.LIMIT
    case TransportParameters(p) =>
        && EncodableParams(p) && FinalCheck(Normal(p)).Accepted?
        && |EncodeParams(p)| < Varints.LIMIT
  }

  function Ints(vs: seq<nat>): seq<byte>
    requires forall v | v in vs :: v < Varints.LIMIT
  {
    if vs == [] then []
    else
      assert vs[0] in vs && forall v | v in vs[1..] :: v in vs;
      Varints.Encode(vs[0]) + Ints(vs[1..])
  }

  /** The Type field of a STREAM frame: it always carries its length, and its offset unless that is zero. */
  function StreamType(offset: nat, fin: bool): nat {
    STREAM + 0x02 + (if offset > 0 then 0x04 else 0) + (if fin then 0x01 else 0)
  }

  function Encode(f: Frame): seq<byte>
    requires Encodable(f)
  {
    match f
    case ResetStream(id, code, finalSize) => Ints([RESET_STREAM, Raw(id), code, finalSize])
    case StopSending(id, code) => Ints([STOP_SENDING, Raw(id), code])
    case StreamData(id, offset, data, fin) =>
      (if offset > 0 then Ints([StreamType(offset, fin), Raw(id), offset, |data|])
          else Ints([StreamType(offset, fin), Raw(id), |data|])) + data
    case MaxData(max) => Ints([MAX_DATA, max])
    case MaxStreamData(id, max) => Ints([MAX_STREAM_DATA_FRAME, Raw(id), max])
    case MaxStreams(dir, max) => Ints([if dir.Uni? then MAX_STREAMS_UNI else MAX_STREAMS_BIDI, max])
    case ConnectionClose(application, code, frameType, reason) =>
      (if application then Ints([APPLICATION_CLOSE, code, |reason|])
          else Ints([TRANSPORT_CLOSE, code, frameType, |reason|])) + reason
    case Datagram(data) => Ints([DATAGRAM_LEN, |data|]) + data
    case Ping(response, sequence) => Ints([if response then PING_RESPONSE else PING_REQUEST, sequence])
    case TransportParameters(p) => Ints([TRANSPORT_PARAMETERS, |EncodeParams(p)|]) + EncodeParams(p)
  }

  // ------------------------------------------------------------------- parsing

  /** A frame, or the code of the error that the bytes are. */
  datatype Item = Good(frame: Frame) | Bad(code: nat)

  predicate IsStreamType(t: nat) {
    STREAM <= t <= STREAM_LAST
  }

  function ReadStream(t: nat, b: seq<byte>): (r: Read<Item>)
    requires IsStreamType(t)
    ensures r.Got? ==> |r.rest| <= |b|
  {
    var (raw, b1) :- ReadInt(b);
    var (offset, b2) :- if t / 4 % 2 == 1 then ReadInt(b1) else Got(0, b1);
    if t / 2 % 2 == 1 then
      var (n, b3) :- ReadInt(b2);
      var (data, b4) :- ReadBytes(b3, n);
      Got(Good(StreamData(Split(raw), offset, data, t % 2 == 1)), b4)
    else Got(Good(StreamData(Split(raw), offset, b2, t % 2 == 1)), [])
  }

  function ReadClose(t: nat, b: seq<byte>): (r: Read<Item>)
    ensures r.Got? ==> |r.rest| <= |b|
  {
    var (code, b1) :- ReadInt(b);
    var (frameType, b2) :- if t == TRANSPORT_CLOSE then ReadInt(b1) else Got(0, b1);
    var (n, b3) :- ReadInt(b2);
    var (reason, b4) :- ReadBytes(b3, n);
    Got(Good(ConnectionClose(t == APPLICATION_CLOSE, code, frameType, reason)), b4)
  }

  function ReadParams(b: seq<byte>): (r: Read<Item>)
    ensures r.Got? ==> |r.rest| <= |b|
  {
    var (n, b1) :- ReadInt(b);
    var (body, b2) :- ReadBytes(b1, n);
    match ParseParams(body)
    case Refused => Got(Bad(TRANSPORT_PARAMETER_ERROR), b2)
    case Accepted(p) => Got(Good(TransportParameters(p)), b2)
  }

  /** What follows the Type field t. */
  function ReadBody(t: nat, b: seq<byte>): (r: Read<Item>)
    ensures r.Got? ==> |r.rest| <= |b|
  {
    if t == RESET_STREAM then
      var (raw, b1) :- ReadInt(b);
      var (code, b2) :- ReadInt(b1);
      var (finalSize, b3) :- ReadInt(b2);
      Got(Good(ResetStream(Split(raw), code, finalSize)), b3)
    else if t == STOP_SENDING then
      var (raw, b1) :- ReadInt(b);
      var (code, b2) :- ReadInt(b1);
      Got(Good(StopSending(Split(raw), code)), b2)
    else if IsStreamType(t) then ReadStream(t, b)
    else if t == MAX_DATA then
      var (max, b1) :- ReadInt(b);
      Got(Good(MaxData(max)), b1)
    else if t == MAX_STREAM_DATA_FRAME then
      var (raw, b1) :- ReadInt(b);
      var (max, b2) :- ReadInt(b1);
      Got(Good(MaxStreamData(Split(raw), max)), b2)
    else if t == MAX_STREAMS_BIDI || t == MAX_STREAMS_UNI then
      var (max, b1) :- ReadInt(b);
      Got(if max > MAX_STREAMS then Bad(FRAME_ENCODING_ERROR)
          else Good(MaxStreams(if t == MAX_STREAMS_UNI then Uni else Bidi, max)), b1)
    else if t == DATA_BLOCKED then
      var (_, b1) :- ReadInt(b);
      Got(Good(Blocked), b1)
    else if t == STREAM_DATA_BLOCKED then
      var (_, b1) :- ReadInt(b);
      var (_, b2) :- ReadInt(b1);
      Got(Good(Blocked), b2)
    else if t == STREAMS_BLOCKED_BIDI || t == STREAMS_BLOCKED_UNI then
      var (n, b1) :- ReadInt(b);
      Got(if n > MAX_STREAMS then Bad(FRAME_ENCODING_ERROR) else Good(Blocked), b1)
    else if t == TRANSPORT_CLOSE || t == APPLICATION_CLOSE then ReadClose(t, b)
    else if t == DATAGRAM then Got(Good(Datagram(b)), [])
    else if t == DATAGRAM_LEN then
      var (n, b1) :- ReadInt(b);
      var (data, b2) :- ReadBytes(b1, n);
      Got(Good(Datagram(data)), b2)
    else if t == TRANSPORT_PARAMETERS then ReadParams(b)
    else if t == PING_REQUEST || t == PING_RESPONSE then
      var (sequence, b1) :- ReadInt(b);
      Got(Good(Ping(t == PING_RESPONSE, sequence)), b1)
    else Got(Bad(FRAME_ENCODING_ERROR), b)
  }

  datatype ParseResult = OnlyPadding | Fault(code: nat) | Parsed(frame: Frame, rest: seq<byte>)

  function SkipPadding(b: seq<byte>): (r: seq<byte>)
    ensures |r| <= |b| && (r != [] ==> r[0] != 0)
  {
    if b != [] && b[0] == 0 then SkipPadding(b[1..]) else b
  }

  function Judge(r: Read<Item>): ParseResult {
    match r
    case Short => Fault(FRAME_ENCODING_ERROR)
    case Got(Bad(code), _) => Fault(code)
    case Got(Good(f), rest) => Parsed(f, rest)
  }

  /** The first frame of a record's remainder. A frame that is returned makes the remainder shorter. */
  function Parse(b: seq<byte>): (r: ParseResult)
    ensures r.Parsed? ==> |r.rest| < |b|
  {
    var b1 := SkipPadding(b);
    if b1 == [] then OnlyPadding
    else
      match ReadInt(b1)
      case Short => Fault(FRAME_ENCODING_ERROR)
      case Got(t, rest) => Judge(ReadBody(t, rest))
  }

  // ---------------------------------------------------------------- round trips

  lemma {:induction false} IntsOf1(a: nat, rest: seq<byte>)
    requires a < Varints.LIMIT
    ensures ReadInt(Ints([a]) + rest) == Got(a, rest)
  {
    assert Ints([a]) == Varints.Encode(a) + [];
    assert Ints([a]) + rest == Varints.Encode(a) + rest;
    ReadIntEncoded(a, rest);
  }

  lemma {:induction false} IntsOf(a: nat, more: seq<nat>, rest: seq<byte>)
    requires a < Varints.LIMIT && forall v | v in more :: v < Varints.LIMIT
    ensures forall v | v in [a] + more :: v < Varints.LIMIT
    ensures ReadInt(Ints([a] + more) + rest) == Got(a, Ints(more) + rest)
  {
    assert ([a] + more)[1..] == more;
    assert Ints([a] + more) + rest == Varints.Encode(a) + (Ints(more) + rest);
    ReadIntEncoded(a, Ints(more) + rest);
  }

  /** The type is read first, and padding cannot be mistaken for it. */
  lemma {:induction false} ParseType(t: nat, more: seq<nat>, rest: seq<byte>)
    requires 0 < t < Varints.LIMIT && forall v | v in more :: v < Varints.LIMIT
    ensures forall v | v in [t] + more :: v < Varints.LIMIT
    ensures Parse(Ints([t] + more) + rest) == Judge(ReadBody(t, Ints(more) + rest))
  {
    var b := Ints([t] + more) + rest;
    IntsOf(t, more, rest);
    assert b[0] != 0 by {
      assert ([t] + more)[1..] == more;
      assert b[0] == Varints.Encode(t)[0];
      FirstByte(t);
    }
    hide ReadBody, ReadInt, Judge;
  }

  lemma {:induction false} FirstByte(t: nat)
    requires 0 < t < Varints.LIMIT
    ensures Varints.Encode(t)[0] != 0
  {
    Varints.Powers();
  }

  lemma {:induction false} RoundTripReset(id: StreamId, code: nat, finalSize: nat, rest: seq<byte>)
    requires Encodable(ResetStream(id, code, finalSize))
    ensures Parse(Encode(ResetStream(id, code, finalSize)) + rest) == Parsed(ResetStream(id, code, finalSize), rest)
  {
    hide ReadInt, Parse;
    var raw := Raw(id);
    assert [RESET_STREAM, raw, code, finalSize] == [RESET_STREAM] + [raw, code, finalSize];
    ParseType(RESET_STREAM, [raw, code, finalSize], rest);
    assert [raw, code, finalSize] == [raw] + [code, finalSize] && [code, finalSize] == [code] + [finalSize];
    IntsOf(raw, [code, finalSize], rest);
    IntsOf(code, [finalSize], rest);
    IntsOf1(finalSize, rest);
    SplitRaw(id, 0);
  }

  lemma {:induction false} RoundTripPairs(id: StreamId, v: nat, rest: seq<byte>)
    requires Raw(id) < Varints.LIMIT && v < Varints.LIMIT
    ensures Parse(Encode(StopSending(id, v)) + rest) == Parsed(StopSending(id, v), rest)
    ensures Parse(Encode(MaxStreamData(id, v)) + rest) == Parsed(MaxStreamData(id, v), rest)
  {
    hide ReadInt, Parse;
    var raw := Raw(id);
    assert [STOP_SENDING, raw, v] == [STOP_SENDING] + [raw, v]
        && [MAX_STREAM_DATA_FRAME, raw, v] == [MAX_STREAM_DATA_FRAME] + [raw, v];
    ParseType(STOP_SENDING, [raw, v], rest);
    ParseType(MAX_STREAM_DATA_FRAME, [raw, v], rest);
    assert [raw, v] == [raw] + [v];
    IntsOf(raw, [v], rest);
    IntsOf1(v, rest);
    SplitRaw(id, 0);
  }

  lemma {:induction false} RoundTripMaxData(max: nat, rest: seq<byte>)
    requires max < Varints.LIMIT
    ensures Parse(Encode(MaxData(max)) + rest) == Parsed(MaxData(max), rest)
  {
    hide ReadInt, Parse;
    assert [MAX_DATA, max] == [MAX_DATA] + [max];
    ParseType(MAX_DATA, [max], rest);
    IntsOf1(max, rest);
  }

  lemma {:induction false} RoundTripMaxStreams(dir: Dir, max: nat, rest: seq<byte>)
    requires max <= MAX_STREAMS
    ensures Parse(Encode(MaxStreams(dir, max)) + rest) == Parsed(MaxStreams(dir, max), rest)
  {
    hide ReadInt, Parse;
    var t := if dir.Uni? then MAX_STREAMS_UNI else MAX_STREAMS_BIDI;
    assert [t, max] == [t] + [max];
    ParseType(t, [max], rest);
    IntsOf1(max, rest);
  }

  lemma {:induction false} RoundTripPing(response: bool, sequence: nat, rest: seq<byte>)
    requires sequence < Varints.LIMIT
    ensures Parse(Encode(Ping(response, sequence)) + rest) == Parsed(Ping(response, sequence), rest)
  {
    hide ReadInt, Parse;
    var t := if response then PING_RESPONSE else PING_REQUEST;
    assert [t, sequence] == [t] + [sequence];
    ParseType(t, [sequence], rest);
    IntsOf1(sequence, rest);
  }

  lemma {:induction false} RoundTripStream(id: StreamId, offset: nat, data: seq<byte>, fin: bool, rest: seq<byte>)
    requires Encodable(StreamData(id, offset, data, fin))
    ensures Parse(Encode(StreamData(id, offset, data, fin)) + rest) == Parsed(StreamData(id, offset, data, fin), rest)
  {
    hide ReadInt, Parse, Ints, ReadBytes;
    var raw, t, n, tail := Raw(id), StreamType(offset, fin), |data|, data + rest;
    SplitRaw(id, 0);
    ReadBytesOf(data, rest);
    if offset > 0 {
      assert [t, raw, offset, n] == [t] + [raw, offset, n] && [raw, offset, n] == [raw] + [offset, n]
          && [offset, n] == [offset] + [n];
      assert Encode(StreamData(id, offset, data, fin)) + rest == Ints([t, raw, offset, n]) + tail;
      ParseType(t, [raw, offset, n], tail);
      IntsOf(raw, [offset, n], tail);
      IntsOf(offset, [n], tail);
    } else {
      assert [t, raw, n] == [t] + [raw, n] && [raw, n] == [raw] + [n];
      assert Encode(StreamData(id, offset, data, fin)) + rest == Ints([t, raw, n]) + tail;
      ParseType(t, [raw, n], tail);
      IntsOf(raw, [n], tail);
    }
    IntsOf1(n, tail);
  }

  lemma {:induction false} RoundTripClose(f: Frame, rest: seq<byte>)
    requires f.ConnectionClose? && Encodable(f)
    ensures Parse(Encode(f) + rest) == Parsed(f, rest)
  {
    hide ReadInt, Parse, Ints, ReadBytes;
    var n, tail := |f.reason|, f.reason + rest;
    ReadBytesOf(f.reason, rest);
    if f.application {
      assert [APPLICATION_CLOSE, f.code, n] == [APPLICATION_CLOSE] + [f.code, n] && [f.code, n] == [f.code] + [n];
      assert Encode(f) + rest == Ints([APPLICATION_CLOSE, f.code, n]) + tail;
      ParseType(APPLICATION_CLOSE, [f.code, n], tail);
      IntsOf(f.code, [n], tail);
    } else {
      assert [TRANSPORT_CLOSE, f.code, f.frameType, n] == [TRANSPORT_CLOSE] + [f.code, f.frameType, n];
      assert [f.code, f.frameType, n] == [f.code] + [f.frameType, n] && [f.frameType, n] == [f.frameType] + [n];
      assert Encode(f) + rest == Ints([TRANSPORT_CLOSE, f.code, f.frameType, n]) + tail;
      ParseType(TRANSPORT_CLOSE, [f.code, f.frameType, n], tail);
      IntsOf(f.code, [f.frameType, n], tail);
      IntsOf(f.frameType, [n], tail);
    }
    IntsOf1(n, tail);
  }

  lemma {:induction false} RoundTripDatagram(data: seq<byte>, rest: seq<byte>)
    requires |data| < Varints.LIMIT
    ensures Parse(Encode(Datagram(data)) + rest) == Parsed(Datagram(data), rest)
  {
    hide ReadInt, Parse, Ints, ReadBytes;
    var n, tail := |data|, data + rest;
    ReadBytesOf(data, rest);
    assert [DATAGRAM_LEN, n] == [DATAGRAM_LEN] + [n];
    assert Encode(Datagram(data)) + rest == Ints([DATAGRAM_LEN, n]) + tail;
    ParseType(DATAGRAM_LEN, [n], tail);
    IntsOf1(n, tail);
  }

  lemma {:induction false} RoundTripParams(p: Parameters, rest: seq<byte>)
    requires Encodable(TransportParameters(p))
    ensures Parse(Encode(TransportParameters(p)) + rest) == Parsed(Received(TransportParameters(p)), rest)
  {
    hide ReadInt, Parse, Ints, ReadBytes, ParseParams, EncodeParams;
    var body := EncodeParams(p);
    var n, tail := |body|, body + rest;
    ReadBytesOf(body, rest);
    assert [TRANSPORT_PARAMETERS, n] == [TRANSPORT_PARAMETERS] + [n];
    assert Encode(TransportParameters(p)) + rest == Ints([TRANSPORT_PARAMETERS, n]) + tail;
    ParseType(TRANSPORT_PARAMETERS, [n], tail);
    IntsOf1(n, tail);
    ParamsRoundTrip(p);
  }

  /** Parsing takes back what encoding wrote, whatever follows. */
  lemma {:induction false} FrameRoundTrip(f: Frame, rest: seq<byte>)
    requires Encodable(f)
    ensures Parse(Encode(f) + rest) == Parsed(Received(f), rest)
  {
    hide Parse, Encode;
    match f
    case ResetStream(id, code, finalSize) => RoundTripReset(id, code, finalSize, rest);
    case StopSending(id, code) => RoundTripPairs(id, code, rest);
    case StreamData(id, offset, data, fin) => RoundTripStream(id, offset, data, fin, rest);
    case MaxData(max) => RoundTripMaxData(max, rest);
    case MaxStreamData(id, max) => RoundTripPairs(id, max, rest);
    case MaxStreams(dir, max) => RoundTripMaxStreams(dir, max, rest);
    case ConnectionClose(_, _, _, _) => RoundTripClose(f, rest);
    case Datagram(data) => RoundTripDatagram(data, rest);
    case Ping(response, sequence) => RoundTripPing(response, sequence, rest);
    case TransportParameters(p) => RoundTripParams(p, rest);
  }

  // -------------------------------------------------------------- whole records

  /** What handling a record comes to: its frames up to the first fault, and the fault's code, if any. */
  function ParseAll(b: seq<byte>): (seq<Frame>, Option<nat>)
    decreases |b|
  {
    match Parse(b)
    case OnlyPadding => ([], None)
    case Fault(code) => ([], Some(code))
    case Parsed(f, rest) =>
      var (frames, fault) := ParseAll(rest);
      ([f] + frames, fault)
  }

  function Padding(n: nat): seq<byte> {
    seq(n, _ => 0)
  }

  /** Frames in one record, with padding before each and at the end. */
  function Padded(frames: seq<Frame>, pads: seq<nat>, last: nat): seq<byte>
    requires |pads| == |frames| && forall f | f in frames :: Encodable(f)
  {
    if frames == [] then Padding(last)
    else
      assert frames[0] in frames && forall f | f in frames[1..] :: f in frames;
      Padding(pads[0]) + Encode(frames[0]) + Padded(frames[1..], pads[1..], last)
  }

  function ReceivedAll(frames: seq<Frame>): seq<Frame> {
    if frames == [] then [] else [Received(frames[0])] + ReceivedAll(frames[1..])
  }

  lemma {:induction false} SkipAll(n: nat, b: seq<byte>)
    ensures SkipPadding(Padding(n) + b) == SkipPadding(b)
  {
    if n == 0 {
      assert Padding(n) + b == b;
    } else {
      assert (Padding(n) + b)[0] == 0;
      assert (Padding(n) + b)[1..] == Padding(n - 1) + b;
      SkipAll(n - 1, b);
    }
  }

  lemma {:induction false} ParsePadded(n: nat, b: seq<byte>)
    ensures Parse(Padding(n) + b) == Parse(b)
  {
    hide ReadInt, ReadBody, Judge;
    SkipAll(n, b);
  }

  /** Record round trip: whatever the padding, the frames of a record are the frames that were put in, in order. */
  lemma {:induction false} RecordRoundTrip(frames: seq<Frame>, pads: seq<nat>, last: nat)
    requires |pads| == |frames| && forall f | f in frames :: Encodable(f)
    ensures ParseAll(Padded(frames, pads, last)) == (ReceivedAll(frames), None)
    decreases |frames|
  {
    hide Parse, Encode, Encodable, Received;
    if frames == [] {
      assert Padding(last) == Padding(last) + [];
      ParsePadded(last, []);
      assert Parse([]).OnlyPadding? by { ParseEmpty(); }
    } else {
      assert frames[0] in frames && forall f | f in frames[1..] :: f in frames;
      var tail := Padded(frames[1..], pads[1..], last);
      assert Padded(frames, pads, last) == Padding(pads[0]) + (Encode(frames[0]) + tail);
      ParsePadded(pads[0], Encode(frames[0]) + tail);
      FrameRoundTrip(frames[0], tail);
      RecordRoundTrip(frames[1..], pads[1..], last);
    }
  }

  lemma {:induction false} ParseEmpty()
    ensures Parse([]) == OnlyPadding
  {
  }

  /** Frames back to back, as one record holds them. */
  function EncodeAll(frames: seq<Frame>): seq<byte>
    requires forall f | f in frames :: Encodable(f)
  {
    if frames == [] then []
    else
      var n := |frames| - 1;
      assert frames[n] in frames && forall f | f in frames[..n] :: f in frames;
      EncodeAll(frames[..n]) + Encode(frames[n])
  }

  lemma {:induction false} EncodeAllConcat(a: seq<Frame>, b: seq<Frame>)
    requires (forall f | f in a :: Encodable(f)) && (forall f | f in b :: Encodable(f))
    ensures forall f | f in a + b :: Encodable(f)
    ensures EncodeAll(a + b) == EncodeAll(a) + EncodeAll(b)
  {
    hide Encodable, Encode;
    assert forall f | f in a + b :: f in a || f in b;
    if b == [] {
      assert a + b == a;
    } else {
      var n := |b| - 1;
      assert b[n] in b && forall f | f in b[..n] :: f in b;
      EncodeAllConcat(a, b[..n]);
      assert (a + b)[..|a + b| - 1] == a + b[..n] && (a + b)[|a + b| - 1] == b[n];
      assert EncodeAll(a + b) == EncodeAll(a + b[..n]) + Encode(b[n]);
      assert EncodeAll(a) + EncodeAll(b[..n]) + Encode(b[n]) == EncodeAll(a) + (EncodeAll(b[..n]) + Encode(b[n]));
    }
  }

  lemma {:induction false} ParseEncoded(frames: seq<Frame>)
    requires forall f | f in frames :: Encodable(f)
    ensures ParseAll(EncodeAll(frames)) == (ReceivedAll(frames), None)
  {
    var pads := seq(|frames|, _ => 0);
    PaddedPlain(frames, pads);
    RecordRoundTrip(frames, pads, 0);
  }

  lemma {:induction false} PaddedPlain(frames: seq<Frame>, pads: seq<nat>)
    requires |pads| == |frames| && (forall f | f in frames :: Encodable(f)) && forall p | p in pads :: p == 0
    ensures Padded(frames, pads, 0) == EncodeAll(frames)
    decreases |frames|
  {
    hide Encodable, Encode;
    if frames != [] {
      assert frames[0] in frames && pads[0] in pads && forall f | f in frames[1..] :: f in frames;
      assert forall p | p in pads[1..] :: p in pads;
      PaddedPlain(frames[1..], pads[1..]);
      assert Padding(pads[0]) == [];
      assert frames == [frames[0]] + frames[1..];
      EncodeAllConcat([frames[0]], frames[1..]);
      EncodeAllOne(frames[0]);
    }
  }

  lemma {:induction false} EncodeAllOne(f: Frame)
    requires Encodable(f)
    ensures EncodeAll([f]) == Encode(f)
  {
    hide Encodable, Encode;
    assert [f][..0] == [];
    assert EncodeAll([f][..0]) == [];
  }
}
