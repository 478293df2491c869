/**
 The reader that keeps going after it ran out of bytes, and the parsers that
 drive it and check once at the end. They agree with the grammar in FrameCodec.dfy
 and ParamCodec.dfy on every byte string.
 */
module FrameReader {
  import opened Basics
  import opened StreamIds
  import opened Frames
  import opened ParamCodec
  import opened FrameCodec
  import Varints

  /** Running out of bytes sets failed; every later read then returns nothing. */
  class Reader {
    var b: seq<byte>
    var failed: bool

    constructor (bytes: seq<byte>)
      ensures b == bytes && !failed
    {
      b, failed := bytes, false;
    }

    method Varint() returns (v: nat)
      modifies this
      ensures old(failed) ==> failed && b == old(b) && v == 0
      ensures !old(failed) && ReadInt(old(b)).Short? ==> failed && b == old(b) && v == 0
      ensures !old(failed) && ReadInt(old(b)).Got? ==> !failed && Got(v, b) == ReadInt(old(b))
    {
      if failed {
        return 0;
      }
      var d := Varints.Decode(b);
      if d.None? {
        failed := true;
        return 0;
      }
      v := d.value.0;
      b := b[d.value.1..];
    }

    method Bytes(n: nat) returns (p: seq<byte>)
      modifies this
      ensures old(failed) ==> failed && b == old(b) && p == []
      ensures !old(failed) && ReadBytes(old(b), n).Short? ==> failed && b == old(b) && p == []
      ensures !old(failed) && ReadBytes(old(b), n).Got? ==> !failed && Got(p, b) == ReadBytes(old(b), n)
    {
      if failed || n > |b| {
        failed := true;
        return [];
      }
      p := b[..n];
      b := b[n..];
    }

    method Rest() returns (p: seq<byte>)
      modifies this
      ensures failed == old(failed)
      ensures old(failed) ==> b == old(b) && p == []
      ensures !old(failed) ==> b == [] && p == old(b)
    {
      if failed {
        return [];
      }
      p := b;
      b := [];
    }
  }

  /** Parses a Transport Parameters field. Unknown parameters are ignored. */
  method ParseParameters(b: seq<byte>) returns (result: ParamsResult)
    ensures result == ParseParams(b)
  {
    var p := DEFAULTS;
    var seen: set<nat> := {};
    var r := new Reader(b);
    while |r.b| > 0
      invariant !r.failed && ParseFrom(b, {}, DEFAULTS) == ParseFrom(r.b, seen, p)
      decreases |r.b|
    {
      hide FinalCheck, SetField, Varints.Decode;
      ghost var before := r.b;
      var id := r.Varint();
      var n := r.Varint();
      var value := r.Bytes(n);
      if r.failed {
        return Refused;
      }
      assert ReadParam(before) == Got(Param(id, value), r.b);
      if Prohibited(id) {
        return Refused;
      }
      if id in seen {
        return Refused;
      }
      seen := seen + {id};
      if id in IDS {
        var d := Varints.Decode(value);
        if d.None? || d.value.1 != |value| {
          return Refused;
        }
        p := SetField(p, id, d.value.0);
      }
    }
    if p.initialMaxStreamsBidi > MAX_STREAMS || p.initialMaxStreamsUni > MAX_STREAMS {
      return Refused;
    }
    if p.maxRecordSize < DEFAULT_MAX_RECORD_SIZE {
      return Refused;
    }
    return Accepted(p);
  }

  /** The parameters of p from the k-th on, as they are sent. */
  ghost function From(p: Parameters, k: nat): seq<byte>
    requires EncodableParams(p) && k <= |IDS|
  {
    Suffix(p, k);
    EncodeList(ParamList(p, IDS[k..]))
  }

  lemma {:induction false} Suffix(p: Parameters, k: nat)
    requires EncodableParams(p) && k <= |IDS|
    ensures forall id | id in IDS[k..] :: id in IDS
    ensures forall t | t in ParamList(p, IDS[k..]) :: EncodableParam(t)
  {
    hide Varints.Encode;
    IdsDistinct();
    assert forall id | id in IDS[k..] :: id in IDS;
    forall t | t in ParamList(p, IDS[k..]) ensures EncodableParam(t) {
      hide GetField, Prohibited;
      ParamListMember(p, IDS[k..], t);
      assert |t.value| <= 8;
    }
  }

  lemma {:induction false} FromNext(p: Parameters, k: nat)
    requires EncodableParams(p) && k < |IDS|
    ensures var value := GetField(p, IDS[k]);
      && value < Varints.LIMIT && IDS[k] < Varints.LIMIT && Varints.Len(value) < Varints.LIMIT
      && (value == 0 ==> From(p, k) == From(p, k + 1))
      && (value != 0 ==>
            From(p, k) == Varints.Encode(IDS[k]) + Varints.Encode(Varints.Len(value)) + Varints.Encode(value)
                + From(p, k + 1))
  {
    IdsDistinct();
    Suffix(p, k);
    Suffix(p, k + 1);
    var ids := IDS[k..];
    assert ids[0] == IDS[k] && ids[1..] == IDS[k + 1..];
    hide EncodableParams, EncodableParam, GetField, Varints.Len, Varints.Encode;
    var value := GetField(p, IDS[k]);
    var tail := ParamList(p, IDS[k + 1..]);
    if value != 0 {
      var t := Param(IDS[k], Varints.Encode(value));
      assert ParamList(p, ids) == [t] + tail;
      assert ([t] + tail)[1..] == tail;
    } else {
      assert ParamList(p, ids) == [] + tail == tail;
    }
  }

  lemma {:induction false} FromEnds(p: Parameters)
    requires EncodableParams(p)
    ensures From(p, 0) == EncodeParams(p) && From(p, |IDS|) == []
  {
    assert IDS[0..] == IDS;
  }

  /** Appends every parameter that is not zero. */
  method AppendParameters(p: Parameters) returns (b: seq<byte>)
    requires EncodableParams(p)
    ensures b == EncodeParams(p)
  {
    hide EncodableParams, GetField, EncodeParams, From, Varints.Len, Varints.Encode;
    b := [];
    FromEnds(p);
    for k := 0 to |IDS|
      invariant b + From(p, k) == EncodeParams(p)
    {
      FromNext(p, k);
      var value := GetField(p, IDS[k]);
      if value != 0 {
        assert b + From(p, k)
            == b + Varints.Encode(IDS[k]) + Varints.Encode(Varints.Len(value)) + Varints.Encode(value) + From(p, k + 1);
        b := b + Varints.Encode(IDS[k]);
        b := b + Varints.Encode(Varints.Len(value));
        b := b + Varints.Encode(value);
      }
    }
  }

  /**
   What a reader has come to after reading what the grammar reads as g: the same,
   or failed where the grammar stops short. A value read after a failure is
   nothing, which no check objects to.
   */
  predicate Agrees(g: Read<Item>, item: Item, failed: bool, b: seq<byte>) {
    match g
    case Short => failed && item.Good?
    case Got(Bad(code), _) => item == Bad(code)
    case Got(Good(f), rest) => item == Good(f) && !failed && b == rest
  }

  /** What the grammar makes of the rest of a frame when it may have stopped short before. */
  function After(failed: bool, g: Read<Item>): Read<Item> {
    if failed then Short else g
  }

  method ParseStream(r: Reader, t: nat) returns (item: Item)
    requires IsStreamType(t)
    modifies r
    ensures Agrees(After(old(r.failed), ReadStream(t, old(r.b))), item, r.failed, r.b)
  {
    var raw := r.Varint();
    var offset := 0;
    if t / 4 % 2 == 1 {
      offset := r.Varint();
    }
    var data;
    if t / 2 % 2 == 1 {
      var n := r.Varint();
      data := r.Bytes(n);
    } else {
      data := r.Rest();
    }
    item := Good(StreamData(Split(raw), offset, data, t % 2 == 1));
  }

  method ParseClose(r: Reader, t: nat) returns (item: Item)
    requires t == TRANSPORT_CLOSE || t == APPLICATION_CLOSE
    modifies r
    ensures Agrees(After(old(r.failed), ReadClose(t, old(r.b))), item, r.failed, r.b)
  {
    var application := t == APPLICATION_CLOSE;
    var code := r.Varint();
    var frameType := 0;
    if !application {
      frameType := r.Varint();
    }
    var n := r.Varint();
    var reason := r.Bytes(n);
    item := Good(ConnectionClose(application, code, frameType, reason));
  }

  method ParseParamsFrame(r: Reader) returns (item: Item)
    modifies r
    ensures Agrees(After(old(r.failed), ReadParams(old(r.b))), item, r.failed, r.b)
  {
    var n := r.Varint();
    var body := r.Bytes(n);
    var result := ParseParameters(body);
    if result.Refused? && !r.failed {
      return Bad(TRANSPORT_PARAMETER_ERROR);
    }
    item := Good(TransportParameters(if result.Accepted? then result.params else NO_PARAMETERS));
  }

  /** Frames that limit or end one stream, or the connection. */
  method ParseLimit(r: Reader, t: nat) returns (item: Item)
    requires t in {RESET_STREAM, STOP_SENDING, MAX_DATA, MAX_STREAM_DATA_FRAME, MAX_STREAMS_BIDI, MAX_STREAMS_UNI}
    modifies r
    ensures Agrees(After(old(r.failed), ReadBody(t, old(r.b))), item, r.failed, r.b)
  {
    if t == RESET_STREAM {
      var raw := r.Varint();
      var code := r.Varint();
      var finalSize := r.Varint();
      item := Good(ResetStream(Split(raw), code, finalSize));
    } else if t == STOP_SENDING {
      var raw := r.Varint();
      var code := r.Varint();
      item := Good(StopSending(Split(raw), code));
    } else if t == MAX_DATA {
      var max := r.Varint();
      item := Good(MaxData(max));
    } else if t == MAX_STREAM_DATA_FRAME {
      var raw := r.Varint();
      var max := r.Varint();
      item := Good(MaxStreamData(Split(raw), max));
    } else {
      var max := r.Varint();
      if max > MAX_STREAMS {
        return Bad(FRAME_ENCODING_ERROR);
      }
      item := Good(MaxStreams(if t == MAX_STREAMS_UNI then Uni else Bidi, max));
    }
  }

  method ParseBlocked(r: Reader, t: nat) returns (item: Item)
    requires t in {DATA_BLOCKED, STREAM_DATA_BLOCKED, STREAMS_BLOCKED_BIDI, STREAMS_BLOCKED_UNI}
    modifies r
    ensures Agrees(After(old(r.failed), ReadBody(t, old(r.b))), item, r.failed, r.b)
  {
    var v := r.Varint();
    if t == STREAM_DATA_BLOCKED {
      var w := r.Varint();
    } else if t != DATA_BLOCKED && v > MAX_STREAMS {
      return Bad(FRAME_ENCODING_ERROR);
    }
    item := Good(Blocked);
  }

  predicate KnownType(t: nat) {
    || t in {RESET_STREAM, STOP_SENDING, MAX_DATA, MAX_STREAM_DATA_FRAME, MAX_STREAMS_BIDI, MAX_STREAMS_UNI}
    || IsStreamType(t) || t in {DATA_BLOCKED, STREAM_DATA_BLOCKED, STREAMS_BLOCKED_BIDI, STREAMS_BLOCKED_UNI}
    || t in {TRANSPORT_CLOSE, APPLICATION_CLOSE, DATAGRAM, DATAGRAM_LEN, TRANSPORT_PARAMETERS, PING_REQUEST,
        PING_RESPONSE}
  }

  /** Every type, also with a reader that has failed: a type that is not known is an error either way. */
  method ParseBody(r: Reader, t: nat) returns (item: Item)
    modifies r
    ensures Agrees(After(old(r.failed) && KnownType(t), ReadBody(t, old(r.b))), item, r.failed, r.b)
  {
    if t in {RESET_STREAM, STOP_SENDING, MAX_DATA, MAX_STREAM_DATA_FRAME, MAX_STREAMS_BIDI, MAX_STREAMS_UNI} {
      item := ParseLimit(r, t);
    } else if IsStreamType(t) {
      item := ParseStream(r, t);
    } else if t in {DATA_BLOCKED, STREAM_DATA_BLOCKED, STREAMS_BLOCKED_BIDI, STREAMS_BLOCKED_UNI} {
      item := ParseBlocked(r, t);
    } else if t == TRANSPORT_CLOSE || t == APPLICATION_CLOSE {
      item := ParseClose(r, t);
    } else if t == DATAGRAM {
      var data := r.Rest();
      item := Good(Datagram(data));
    } else if t == DATAGRAM_LEN {
      var n := r.Varint();
      var data := r.Bytes(n);
      item := Good(Datagram(data));
    } else if t == TRANSPORT_PARAMETERS {
      item := ParseParamsFrame(r);
    } else if t == PING_REQUEST || t == PING_RESPONSE {
      var sequence := r.Varint();
      item := Good(Ping(t == PING_RESPONSE, sequence));
    } else {
      item := Bad(FRAME_ENCODING_ERROR);
    }
  }

  /**
   Parses the first frame of b: on every byte string, the same frame and rest, or the same
   error code, as the grammar.
   */
  method ParseFrame(bytes: seq<byte>) returns (result: ParseResult)
    ensures result == Parse(bytes)
  {
    var b := bytes;
    while |b| > 0 && b[0] == 0
      invariant SkipPadding(b) == SkipPadding(bytes)
    {
      b := b[1..];
    }
    if |b| == 0 {
      return OnlyPadding;
    }
    hide ReadBody, SkipPadding;
    assert SkipPadding(bytes) == b by { Skipped(b); }
    var r := new Reader(b);
    var t := r.Varint();
    ZeroUnknown(b);
    var item := ParseBody(r, t);
    if item.Bad? {
      return Fault(item.code);
    }
    if r.failed {
      return Fault(FRAME_ENCODING_ERROR);
    }
    return Parsed(item.frame, r.b);
  }

  /** A Type field that is cut short reads as zero, which is not the type of any frame. */
  lemma {:induction false} ZeroUnknown(b: seq<byte>)
    ensures !KnownType(0) && ReadBody(0, b) == Got(Bad(FRAME_ENCODING_ERROR), b)
  {
  }

  lemma {:induction false} Skipped(b: seq<byte>)
    requires b == [] || b[0] != 0
    ensures SkipPadding(b) == b
  {
  }
}
