/**
 The formats on the wire, byte by byte and with their numbers written out: variable-length
 integers (section 16 of RFC 9000), stream identifiers (section 2.1 there), frames (section 19
 there and draft-ietf-quic-qmux-02) and transport parameters (section 18.2 there).
 */
module Formats {
  import opened Basics
  import opened StreamIds
  import opened Frames
  import opened ParamCodec
  import opened FrameCodec
  import opened Varints

  type Bytes = seq<byte>

  // ------------------------------------------------------------------- integers

  /** The two top bits of the first byte are the length; the rest is the value, most significant byte first. */
  lemma {:induction false} DecodeFormat(b0: byte, b1: byte, b2: byte, b3: byte, b4: byte, b5: byte, b6: byte, b7: byte)
    ensures b0 < 0x40 ==> Varints.Decode([b0]) == Some((b0, 1))
    ensures 0x40 <= b0 < 0x80 ==> Varints.Decode([b0, b1]) == Some(((b0 - 0x40) * 0x100 + b1, 2))
    ensures 0x80 <= b0 < 0xc0 ==>
      Varints.Decode([b0, b1, b2, b3]) == Some(((b0 - 0x80) * 0x100_0000 + b1 * 0x1_0000 + b2 * 0x100 + b3, 4))
    ensures 0xc0 <= b0 ==>
      Varints.Decode([b0, b1, b2, b3, b4, b5, b6, b7])
      == Some(((b0 - 0xc0) * 0x100_0000_0000_0000 + b1 * 0x1_0000_0000_0000 + b2 * 0x100_0000_0000 + b3 * 0x1_0000_0000
               + b4 * 0x100_0000 + b5 * 0x1_0000 + b6 * 0x100 + b7, 8))
  {
    hide FromBigEndian, Pow256;
    Powers();
    OneByte(b1);
    ThreeBytes(b1, b2, b3);
    SevenBytes(b1, b2, b3, b4, b5, b6, b7);
    assert [b0][1..1] == [] && [b0, b1][1..2] == [b1] && [b0, b1, b2, b3][1..4] == [b1, b2, b3];
    assert [b0, b1, b2, b3, b4, b5, b6, b7][1..8] == [b1, b2, b3, b4, b5, b6, b7];
  }

  lemma {:induction false} Horner(s: Bytes, b: byte)
    ensures FromBigEndian(s + [b]) == 256 * FromBigEndian(s) + b
  {
    assert (s + [b])[..|s|] == s;
  }

  lemma {:induction false} OneByte(b1: byte)
    ensures FromBigEndian([]) == 0 && FromBigEndian([b1]) == b1
  {
    assert [b1] == [] + [b1];
    Horner([], b1);
  }

  lemma {:induction false} ThreeBytes(b1: byte, b2: byte, b3: byte)
    ensures FromBigEndian([b1, b2, b3]) == b1 * 0x1_0000 + b2 * 0x100 + b3
  {
    assert [b1] == [] + [b1] && [b1, b2] == [b1] + [b2] && [b1, b2, b3] == [b1, b2] + [b3];
    Horner([], b1);
    Horner([b1], b2);
    Horner([b1, b2], b3);
  }

  lemma {:induction false} SevenBytes(b1: byte, b2: byte, b3: byte, b4: byte, b5: byte, b6: byte, b7: byte)
    ensures FromBigEndian([b1, b2, b3, b4, b5, b6, b7])
            == b1 * 0x1_0000_0000_0000 + b2 * 0x100_0000_0000 + b3 * 0x1_0000_0000
               + b4 * 0x100_0000 + b5 * 0x1_0000 + b6 * 0x100 + b7
  {
    ThreeBytes(b1, b2, b3);
    var s := [b1, b2, b3];
    assert [b1, b2, b3, b4, b5, b6, b7] == s + [b4] + [b5] + [b6] + [b7];
    Horner(s, b4);
    Horner(s + [b4], b5);
    Horner(s + [b4] + [b5], b6);
    Horner(s + [b4] + [b5] + [b6], b7);
  }

  lemma {:induction false} DigitsBack(s: Bytes)
    ensures FromBigEndian(s) < Pow256(|s|) && BigEndian(FromBigEndian(s), |s|) == s
  {
    if s != [] {
      var n := |s| - 1;
      DigitsBack(s[..n]);
      assert s == s[..n] + [s[n]];
    }
  }

  lemma {:induction false} Quotient(n: nat, high: nat, low: nat)
    requires n in {1, 2, 4, 8} && low < Pow256(n - 1)
    ensures (high * Pow256(n - 1) + low) / Pow256(n - 1) == high && (high * Pow256(n - 1) + low) % Pow256(n - 1) == low
  {
    Powers();
    hide Pow256;
    if n == 1 {
      assert (high * 1 + low) / 1 == high;
    } else if n == 2 {
      assert (high * 0x100 + low) / 0x100 == high;
    } else if n == 4 {
      assert (high * 0x100_0000 + low) / 0x100_0000 == high;
    } else {
      assert (high * 0x100_0000_0000_0000 + low) / 0x100_0000_0000_0000 == high;
    }
  }

  /** Bytes that hold an integer in its shortest length are its encoding: there is no other. */
  lemma {:induction false} OnlyEncoding(s: Bytes, v: nat)
    requires Varints.Decode(s) == Some((v, |s|)) && v < LIMIT && |s| == Len(v)
    ensures Varints.Encode(v) == s
  {
    Powers();
    var n := |s|;
    var p := Pow256(n - 1);
    DigitsBack(s[1..]);
    assert s[1..n] == s[1..];
    var low, high := FromBigEndian(s[1..]), s[0] % 64;
    assert v == high * p + low && low < p;
    Quotient(n, high, low);
    assert s[0] == 64 * LengthTag(n) + high;
    assert s == [s[0]] + s[1..];
  }

  /** The examples of appendix A.1 of RFC 9000. */
  lemma {:induction false} Samples()
    ensures Varints.Encode(37) == [0x25] && Varints.Encode(15293) == [0x7b, 0xbd]
    ensures Varints.Encode(494878333) == [0x9d, 0x7f, 0x3e, 0x7d]
    ensures Varints.Encode(151288809941952652) == [0xc2, 0x19, 0x7c, 0x5e, 0xff, 0x14, 0xe8, 0x8c]
    ensures Varints.Decode([0x40, 0x25]) == Some((37, 2))
  {
    DecodeFormat(0x25, 0, 0, 0, 0, 0, 0, 0);
    OnlyEncoding([0x25], 37);
    DecodeFormat(0x7b, 0xbd, 0, 0, 0, 0, 0, 0);
    OnlyEncoding([0x7b, 0xbd], 15293);
    DecodeFormat(0x9d, 0x7f, 0x3e, 0x7d, 0, 0, 0, 0);
    OnlyEncoding([0x9d, 0x7f, 0x3e, 0x7d], 494878333);
    DecodeFormat(0xc2, 0x19, 0x7c, 0x5e, 0xff, 0x14, 0xe8, 0x8c);
    OnlyEncoding([0xc2, 0x19, 0x7c, 0x5e, 0xff, 0x14, 0xe8, 0x8c], 151288809941952652);
    DecodeFormat(0x40, 0x25, 0, 0, 0, 0, 0, 0);
  }

  lemma {:induction false} SmallInt(v: nat)
    requires v < 0x40
    ensures Varints.Encode(v) == [v]
  {
    DecodeFormat(v, 0, 0, 0, 0, 0, 0, 0);
    OnlyEncoding([v], v);
  }

  lemma {:induction false} MediumInt(v: nat)
    requires 0x40 <= v < 0x4000
    ensures Varints.Encode(v) == [0x40 + v / 0x100, v % 0x100]
  {
    DecodeFormat(0x40 + v / 0x100, v % 0x100, 0, 0, 0, 0, 0, 0);
    OnlyEncoding([0x40 + v / 0x100, v % 0x100], v);
  }

  // ----------------------------------------------------------------- identifiers

  /** The low bit says that the server opened the stream, the next one that it is unidirectional. */
  lemma {:induction false} IdFormat(index: nat)
    ensures Raw(StreamId(index, Bidi, false)) == 4 * index && Raw(StreamId(index, Bidi, true)) == 4 * index + 1
    ensures Raw(StreamId(index, Uni, false)) == 4 * index + 2 && Raw(StreamId(index, Uni, true)) == 4 * index + 3
    ensures RawId(false, index, Bidi, true) == 4 * index && RawId(true, index, Bidi, true) == 4 * index + 1
    ensures RawId(false, index, Uni, true) == 4 * index + 2 && RawId(true, index, Uni, true) == 4 * index + 3
    ensures RawId(false, index, Bidi, false) == 4 * index + 1 && RawId(true, index, Bidi, false) == 4 * index
    ensures RawId(false, index, Uni, false) == 4 * index + 3 && RawId(true, index, Uni, false) == 4 * index + 2
  {
  }

  // ---------------------------------------------------------------------- frames

  lemma {:induction false} IntsCons(a: nat, more: seq<nat>)
    requires a < LIMIT && forall v | v in more :: v < LIMIT
    ensures forall v | v in [a] + more :: v < LIMIT
    ensures Ints([a] + more) == Varints.Encode(a) + Ints(more)
  {
    assert ([a] + more)[1..] == more;
  }

  lemma {:induction false} Ints2(a: nat, b: nat)
    requires a < LIMIT && b < LIMIT
    ensures Ints([a, b]) == Varints.Encode(a) + Varints.Encode(b)
  {
    hide Varints.Encode;
    assert [a, b] == [a] + [b] && [b] == [b] + [];
    IntsCons(a, [b]);
    IntsCons(b, []);
  }

  lemma {:induction false} Ints3(a: nat, b: nat, c: nat)
    requires a < LIMIT && b < LIMIT && c < LIMIT
    ensures Ints([a, b, c]) == Varints.Encode(a) + Varints.Encode(b) + Varints.Encode(c)
  {
    hide Varints.Encode;
    assert [a, b, c] == [a] + [b, c];
    IntsCons(a, [b, c]);
    Ints2(b, c);
  }

  lemma {:induction false} Ints4(a: nat, b: nat, c: nat, d: nat)
    requires a < LIMIT && b < LIMIT && c < LIMIT && d < LIMIT
    ensures Ints([a, b, c, d]) == Varints.Encode(a) + Varints.Encode(b) + Varints.Encode(c) + Varints.Encode(d)
  {
    hide Varints.Encode;
    assert [a, b, c, d] == [a] + [b, c, d];
    IntsCons(a, [b, c, d]);
    Ints3(b, c, d);
  }

  lemma {:induction false} LongTypes()
    ensures Varints.Encode(0x3f51_5330_0d0a_0d0a) == [0xff, 0x51, 0x53, 0x30, 0x0d, 0x0a, 0x0d, 0x0a]
    ensures Varints.Encode(0x348c_6752_9ef8_c7bd) == [0xf4, 0x8c, 0x67, 0x52, 0x9e, 0xf8, 0xc7, 0xbd]
    ensures Varints.Encode(0x348c_6752_9ef8_c7be) == [0xf4, 0x8c, 0x67, 0x52, 0x9e, 0xf8, 0xc7, 0xbe]
    ensures Varints.Encode(0x0571_c594_29cd_0845) == [0xc5, 0x71, 0xc5, 0x94, 0x29, 0xcd, 0x08, 0x45]
  {
    DecodeFormat(0xff, 0x51, 0x53, 0x30, 0x0d, 0x0a, 0x0d, 0x0a);
    OnlyEncoding([0xff, 0x51, 0x53, 0x30, 0x0d, 0x0a, 0x0d, 0x0a], 0x3f51_5330_0d0a_0d0a);
    DecodeFormat(0xf4, 0x8c, 0x67, 0x52, 0x9e, 0xf8, 0xc7, 0xbd);
    OnlyEncoding([0xf4, 0x8c, 0x67, 0x52, 0x9e, 0xf8, 0xc7, 0xbd], 0x348c_6752_9ef8_c7bd);
    DecodeFormat(0xf4, 0x8c, 0x67, 0x52, 0x9e, 0xf8, 0xc7, 0xbe);
    OnlyEncoding([0xf4, 0x8c, 0x67, 0x52, 0x9e, 0xf8, 0xc7, 0xbe], 0x348c_6752_9ef8_c7be);
    DecodeFormat(0xc5, 0x71, 0xc5, 0x94, 0x29, 0xcd, 0x08, 0x45);
    OnlyEncoding([0xc5, 0x71, 0xc5, 0x94, 0x29, 0xcd, 0x08, 0x45], 0x0571_c594_29cd_0845);
  }

  /** RESET_STREAM is 0x04, with the stream, the error code and the final size. */
  lemma {:induction false} ResetFormat(id: StreamId, code: nat, finalSize: nat, rest: Bytes)
    requires Raw(id) < LIMIT && code < LIMIT && finalSize < LIMIT
    ensures var b := [0x04] + Varints.Encode(Raw(id)) + Varints.Encode(code) + Varints.Encode(finalSize);
            && FrameCodec.Encode(ResetStream(id, code, finalSize)) == b
            && Parse(b + rest) == Parsed(ResetStream(id, code, finalSize), rest)
  {
    hide Parse, Varints.Encode, Ints;
    SmallInt(0x04);
    Ints4(0x04, Raw(id), code, finalSize);
    FrameRoundTrip(ResetStream(id, code, finalSize), rest);
  }

  /** STOP_SENDING is 0x05 and MAX_STREAM_DATA is 0x11; each has the stream and one integer. */
  lemma {:induction false} StreamPairFormat(id: StreamId, v: nat, rest: Bytes)
    requires Raw(id) < LIMIT && v < LIMIT
    ensures var b := [0x05] + Varints.Encode(Raw(id)) + Varints.Encode(v);
            && FrameCodec.Encode(StopSending(id, v)) == b
            && Parse(b + rest) == Parsed(StopSending(id, v), rest)
    ensures var b := [0x11] + Varints.Encode(Raw(id)) + Varints.Encode(v);
            && FrameCodec.Encode(MaxStreamData(id, v)) == b
            && Parse(b + rest) == Parsed(MaxStreamData(id, v), rest)
  {
    hide Parse, Varints.Encode, Ints;
    SmallInt(0x05);
    SmallInt(0x11);
    Ints3(0x05, Raw(id), v);
    Ints3(0x11, Raw(id), v);
    FrameRoundTrip(StopSending(id, v), rest);
    FrameRoundTrip(MaxStreamData(id, v), rest);
  }

  /** MAX_DATA is 0x10; MAX_STREAMS is 0x12 for bidirectional and 0x13 for unidirectional streams. */
  lemma {:induction false} LimitFormat(max: nat, rest: Bytes)
    requires max < LIMIT
    ensures var b := [0x10] + Varints.Encode(max);
            FrameCodec.Encode(MaxData(max)) == b && Parse(b + rest) == Parsed(MaxData(max), rest)
    ensures max <= 0x1000_0000_0000_0000 ==>
              var b := [0x12] + Varints.Encode(max);
              && FrameCodec.Encode(MaxStreams(Bidi, max)) == b
              && Parse(b + rest) == Parsed(MaxStreams(Bidi, max), rest)
    ensures max <= 0x1000_0000_0000_0000 ==>
              var b := [0x13] + Varints.Encode(max);
              && FrameCodec.Encode(MaxStreams(Uni, max)) == b
              && Parse(b + rest) == Parsed(MaxStreams(Uni, max), rest)
    ensures max > 0x1000_0000_0000_0000 ==>
              && Parse([0x12] + Varints.Encode(max) + rest) == Fault(0x07)
              && Parse([0x13] + Varints.Encode(max) + rest) == Fault(0x07)
  {
    hide Parse, Varints.Encode, Ints, ReadInt;
    SmallInt(0x10);
    SmallInt(0x12);
    SmallInt(0x13);
    Ints2(0x10, max);
    Ints2(0x12, max);
    Ints2(0x13, max);
    FrameRoundTrip(MaxData(max), rest);
    if max <= 0x1000_0000_0000_0000 {
      FrameRoundTrip(MaxStreams(Bidi, max), rest);
      FrameRoundTrip(MaxStreams(Uni, max), rest);
    } else {
      OneIntBody(0x12, max, rest);
      OneIntBody(0x13, max, rest);
    }
  }

  lemma {:induction false} OneIntBody(t: nat, v: nat, rest: Bytes)
    requires 0 < t < LIMIT && v < LIMIT
    ensures Parse(Varints.Encode(t) + Varints.Encode(v) + rest) == Judge(ReadBody(t, Varints.Encode(v) + rest))
    ensures ReadInt(Varints.Encode(v) + rest) == Got(v, rest)
  {
    hide Parse, Varints.Encode, ReadInt, ReadBody, Judge;
    Ints2(t, v);
    assert [t, v] == [t] + [v] && [v] == [v] + [];
    IntsCons(v, []);
    assert Ints([v]) == Varints.Encode(v);
    ParseType(t, [v], rest);
    ReadIntEncoded(v, rest);
  }

  /**
   DATA_BLOCKED, STREAM_DATA_BLOCKED and STREAMS_BLOCKED are 0x14 to 0x17. They are parsed and
   say nothing, but a stream count above 2^60 is a fault.
   */
  lemma {:induction false} BlockedFormat(id: nat, v: nat, rest: Bytes)
    requires id < LIMIT && v < LIMIT
    ensures Parse([0x14] + Varints.Encode(v) + rest) == Parsed(Blocked, rest)
    ensures Parse([0x15] + Varints.Encode(id) + Varints.Encode(v) + rest) == Parsed(Blocked, rest)
    ensures var r := if v <= 0x1000_0000_0000_0000 then Parsed(Blocked, rest) else Fault(0x07);
            && Parse([0x16] + Varints.Encode(v) + rest) == r
            && Parse([0x17] + Varints.Encode(v) + rest) == r
  {
    hide Parse, Varints.Encode, Ints, ReadInt;
    SmallInt(0x14);
    SmallInt(0x15);
    SmallInt(0x16);
    SmallInt(0x17);
    OneIntBody(0x14, v, rest);
    OneIntBody(0x16, v, rest);
    OneIntBody(0x17, v, rest);
    var more := Varints.Encode(v) + rest;
    OneIntBody(0x15, id, more);
    assert [0x15] + Varints.Encode(id) + Varints.Encode(v) + rest == [0x15] + Varints.Encode(id) + more;
  }

  /** Frames that carry bytes: the length of the bytes comes before them. */
  function Sized(data: Bytes): Bytes
    requires |data| < LIMIT
  {
    Varints.Encode(|data|) + data
  }

  /**
   STREAM is 0x08 to 0x0f: 0x04 says that there is an offset, 0x02 that there is a length and
   0x01 that the stream ends. What is sent always has a length, and an offset unless it is zero.
   */
  lemma {:induction false} StreamFormat(id: StreamId, offset: nat, data: Bytes, rest: Bytes)
    requires Raw(id) < LIMIT && offset < LIMIT && |data| < LIMIT
    ensures var b := Varints.Encode(Raw(id)) + Varints.Encode(offset) + Sized(data);
            && (offset > 0 ==> FrameCodec.Encode(StreamData(id, offset, data, false)) == [0x0e] + b)
            && (offset > 0 ==> FrameCodec.Encode(StreamData(id, offset, data, true)) == [0x0f] + b)
            && Parse([0x0e] + b + rest) == Parsed(StreamData(id, offset, data, false), rest)
            && Parse([0x0f] + b + rest) == Parsed(StreamData(id, offset, data, true), rest)
    ensures var b := Varints.Encode(Raw(id)) + Sized(data);
            && FrameCodec.Encode(StreamData(id, 0, data, false)) == [0x0a] + b
            && FrameCodec.Encode(StreamData(id, 0, data, true)) == [0x0b] + b
            && Parse([0x0a] + b + rest) == Parsed(StreamData(id, 0, data, false), rest)
            && Parse([0x0b] + b + rest) == Parsed(StreamData(id, 0, data, true), rest)
    ensures var b := Varints.Encode(Raw(id)) + Varints.Encode(offset);
            && Parse([0x0c] + b + data) == Parsed(StreamData(id, offset, data, false), [])
            && Parse([0x0d] + b + data) == Parsed(StreamData(id, offset, data, true), [])
    ensures Parse([0x08] + Varints.Encode(Raw(id)) + data) == Parsed(StreamData(id, 0, data, false), [])
    ensures Parse([0x09] + Varints.Encode(Raw(id)) + data) == Parsed(StreamData(id, 0, data, true), [])
  {
    hide Parse, Varints.Encode, ReadStream, FrameCodec.Encode, Sized;
    if offset > 0 {
      StreamEncoded(id, offset, data, false);
      StreamEncoded(id, offset, data, true);
    }
    FirstEncoded(id, data, false);
    FirstEncoded(id, data, true);
    StreamRead(id, offset, data, rest, false);
    StreamRead(id, offset, data, rest, true);
    UnsizedRead(id, offset, data, false);
    UnsizedRead(id, offset, data, true);
  }

  lemma {:induction false} StreamEncoded(id: StreamId, offset: nat, data: Bytes, fin: bool)
    requires Raw(id) < LIMIT && 0 < offset < LIMIT && |data| < LIMIT
    ensures var b := Varints.Encode(Raw(id)) + Varints.Encode(offset) + Sized(data);
            FrameCodec.Encode(StreamData(id, offset, data, fin)) == [if fin then 0x0f else 0x0e] + b
  {
    hide Varints.Encode, Ints, Raw;
    var t := if fin then 0x0f else 0x0e;
    SmallInt(t);
    Ints4(t, Raw(id), offset, |data|);
    var raw, off, n := Varints.Encode(Raw(id)), Varints.Encode(offset), Varints.Encode(|data|);
    assert [t] + raw + off + n + data == [t] + (raw + off + (n + data));
  }

  lemma {:induction false} FirstEncoded(id: StreamId, data: Bytes, fin: bool)
    requires Raw(id) < LIMIT && |data| < LIMIT
    ensures var b := Varints.Encode(Raw(id)) + Sized(data);
            FrameCodec.Encode(StreamData(id, 0, data, fin)) == [if fin then 0x0b else 0x0a] + b
  {
    hide Varints.Encode, Ints, Raw;
    var t := if fin then 0x0b else 0x0a;
    SmallInt(t);
    Ints3(t, Raw(id), |data|);
    var raw, n := Varints.Encode(Raw(id)), Varints.Encode(|data|);
    assert [t] + raw + n + data == [t] + (raw + (n + data));
  }

  lemma {:induction false} StreamRead(id: StreamId, offset: nat, data: Bytes, rest: Bytes, fin: bool)
    requires Raw(id) < LIMIT && offset < LIMIT && |data| < LIMIT
    ensures var b := Varints.Encode(Raw(id)) + Varints.Encode(offset) + Sized(data);
            Parse([if fin then 0x0f else 0x0e] + b + rest) == Parsed(StreamData(id, offset, data, fin), rest)
    ensures var b := Varints.Encode(Raw(id)) + Sized(data);
            Parse([if fin then 0x0b else 0x0a] + b + rest) == Parsed(StreamData(id, 0, data, fin), rest)
  {
    hide Parse, Varints.Encode, Ints, ReadInt, ReadBytes, Sized, Raw, Split;
    var t, u := if fin then 0x0f else 0x0e, if fin then 0x0b else 0x0a;
    var raw, off, tail := Varints.Encode(Raw(id)), Varints.Encode(offset), Sized(data) + rest;
    SplitRaw(id, 0);
    TypeThenInt(t, Raw(id), off + tail);
    assert [t] + (raw + off + Sized(data)) + rest == [t] + raw + (off + tail);
    TypeThenInt(u, Raw(id), tail);
    assert [u] + (raw + Sized(data)) + rest == [u] + raw + tail;
    ReadIntEncoded(offset, tail);
    SizedRead(data, rest);
  }

  lemma {:induction false} UnsizedRead(id: StreamId, offset: nat, data: Bytes, fin: bool)
    requires Raw(id) < LIMIT && offset < LIMIT
    ensures var b := Varints.Encode(Raw(id)) + Varints.Encode(offset);
            Parse([if fin then 0x0d else 0x0c] + b + data) == Parsed(StreamData(id, offset, data, fin), [])
    ensures var b := Varints.Encode(Raw(id));
            Parse([if fin then 0x09 else 0x08] + b + data) == Parsed(StreamData(id, 0, data, fin), [])
  {
    hide Parse, Varints.Encode, Ints, ReadInt, ReadBytes, Raw, Split;
    var t, raw, off := if fin then 0x0d else 0x0c, Varints.Encode(Raw(id)), Varints.Encode(offset);
    SplitRaw(id, 0);
    TypeThenInt(t, Raw(id), off + data);
    assert [t] + (raw + off) + data == [t] + raw + (off + data);
    TypeThenInt(if fin then 0x09 else 0x08, Raw(id), data);
    ReadIntEncoded(offset, data);
  }

  lemma {:induction false} TypeThenInt(t: nat, v: nat, rest: Bytes)
    requires 0 < t < 0x40 && v < LIMIT
    ensures Parse([t] + Varints.Encode(v) + rest) == Judge(ReadBody(t, Varints.Encode(v) + rest))
    ensures ReadInt(Varints.Encode(v) + rest) == Got(v, rest)
  {
    hide Parse, Varints.Encode, ReadInt, ReadBody, Judge;
    SmallInt(t);
    OneIntBody(t, v, rest);
  }

  lemma {:induction false} SizedRead(data: Bytes, rest: Bytes)
    requires |data| < LIMIT
    ensures ReadInt(Sized(data) + rest) == Got(|data|, data + rest)
    ensures ReadBytes(data + rest, |data|) == Got(data, rest)
  {
    hide Varints.Encode, ReadInt;
    assert Sized(data) + rest == Varints.Encode(|data|) + (data + rest);
    ReadIntEncoded(|data|, data + rest);
    ReadBytesOf(data, rest);
  }

  lemma {:induction false} CloseEncoded(code: nat, frameType: nat, reason: Bytes)
    requires code < LIMIT && frameType < LIMIT && |reason| < LIMIT
    ensures FrameCodec.Encode(ConnectionClose(false, code, frameType, reason))
            == [0x1c] + Varints.Encode(code) + Varints.Encode(frameType) + Sized(reason)
    ensures FrameCodec.Encode(ConnectionClose(true, code, 0, reason)) == [0x1d] + Varints.Encode(code) + Sized(reason)
  {
    hide Varints.Encode, Ints;
    SmallInt(0x1c);
    SmallInt(0x1d);
    Ints4(0x1c, code, frameType, |reason|);
    Ints3(0x1d, code, |reason|);
    var c, t, n := Varints.Encode(code), Varints.Encode(frameType), Varints.Encode(|reason|);
    assert [0x1c] + c + t + n + reason == [0x1c] + c + t + (n + reason);
    assert [0x1d] + c + n + reason == [0x1d] + c + (n + reason);
  }

  /** CONNECTION_CLOSE is 0x1c from the transport, which names a frame type, and 0x1d from the application. */
  lemma {:induction false} CloseFormat(code: nat, frameType: nat, reason: Bytes, rest: Bytes)
    requires code < LIMIT && frameType < LIMIT && |reason| < LIMIT
    ensures var f := ConnectionClose(false, code, frameType, reason);
            var b := [0x1c] + Varints.Encode(code) + Varints.Encode(frameType) + Sized(reason);
            FrameCodec.Encode(f) == b && Parse(b + rest) == Parsed(f, rest)
    ensures var f := ConnectionClose(true, code, 0, reason);
            var b := [0x1d] + Varints.Encode(code) + Sized(reason);
            FrameCodec.Encode(f) == b && Parse(b + rest) == Parsed(f, rest)
  {
    hide Parse, Varints.Encode, FrameCodec.Encode, Sized;
    CloseEncoded(code, frameType, reason);
    FrameRoundTrip(ConnectionClose(false, code, frameType, reason), rest);
    FrameRoundTrip(ConnectionClose(true, code, 0, reason), rest);
  }

  lemma {:induction false} DatagramEncoded(data: Bytes)
    requires |data| < LIMIT
    ensures FrameCodec.Encode(Datagram(data)) == [0x31] + Sized(data)
  {
    hide Varints.Encode, Ints;
    SmallInt(0x31);
    Ints2(0x31, |data|);
    assert [0x31] + Varints.Encode(|data|) + data == [0x31] + (Varints.Encode(|data|) + data);
  }

  lemma {:induction false} DatagramToEnd(data: Bytes)
    ensures Parse([0x30] + data) == Parsed(Datagram(data), [])
  {
    hide Parse, Varints.Encode, ReadInt, ReadStream, ReadClose, ReadParams;
    SmallInt(0x30);
    assert [0x30] == [0x30] + [];
    IntsCons(0x30, []);
    ParseType(0x30, [], data);
    assert Ints([]) + data == data;
  }

  /** DATAGRAM is 0x31 with a length, which is how it is sent, and 0x30 to the end of the record. */
  lemma {:induction false} DatagramFormat(data: Bytes, rest: Bytes)
    requires |data| < LIMIT
    ensures FrameCodec.Encode(Datagram(data)) == [0x31] + Sized(data)
    ensures Parse([0x31] + Sized(data) + rest) == Parsed(Datagram(data), rest)
    ensures Parse([0x30] + data) == Parsed(Datagram(data), [])
  {
    hide Parse, Varints.Encode, FrameCodec.Encode, Sized;
    DatagramEncoded(data);
    DatagramToEnd(data);
    FrameRoundTrip(Datagram(data), rest);
  }

  /** QX_PING has two types, for the request and the response, and a sequence number. */
  lemma {:induction false} PingFormat(sequence: nat, rest: Bytes)
    requires sequence < LIMIT
    ensures var b := [0xf4, 0x8c, 0x67, 0x52, 0x9e, 0xf8, 0xc7, 0xbd] + Varints.Encode(sequence);
            && FrameCodec.Encode(Ping(false, sequence)) == b
            && Parse(b + rest) == Parsed(Ping(false, sequence), rest)
    ensures var b := [0xf4, 0x8c, 0x67, 0x52, 0x9e, 0xf8, 0xc7, 0xbe] + Varints.Encode(sequence);
            && FrameCodec.Encode(Ping(true, sequence)) == b
            && Parse(b + rest) == Parsed(Ping(true, sequence), rest)
  {
    hide Parse, Varints.Encode, Ints;
    LongTypes();
    Ints2(0x348c_6752_9ef8_c7bd, sequence);
    Ints2(0x348c_6752_9ef8_c7be, sequence);
    FrameRoundTrip(Ping(false, sequence), rest);
    FrameRoundTrip(Ping(true, sequence), rest);
  }

  /** QX_TRANSPORT_PARAMETERS holds the length of the parameters and then the parameters. */
  lemma {:induction false} ParametersFormat(p: Parameters, rest: Bytes)
    requires Encodable(TransportParameters(p))
    ensures var b := [0xff, 0x51, 0x53, 0x30, 0x0d, 0x0a, 0x0d, 0x0a] + Sized(EncodeParams(p));
            && FrameCodec.Encode(TransportParameters(p)) == b
            && Parse(b + rest) == Parsed(Received(TransportParameters(p)), rest)
  {
    hide Parse, Varints.Encode, Ints, EncodeParams;
    LongTypes();
    Ints2(0x3f51_5330_0d0a_0d0a, |EncodeParams(p)|);
    FrameRoundTrip(TransportParameters(p), rest);
  }

  /** The frame types there are. */
  predicate Known(t: nat) {
    t in {0x04, 0x05, 0x08, 0x09, 0x0a, 0x0b, 0x0c, 0x0d, 0x0e, 0x0f, 0x10, 0x11, 0x12, 0x13, 0x14, 0x15, 0x16, 0x17,
      0x1c, 0x1d, 0x30, 0x31, 0x3f51_5330_0d0a_0d0a, 0x348c_6752_9ef8_c7bd, 0x348c_6752_9ef8_c7be}
  }

  /** Any other type is a FRAME_ENCODING_ERROR, in whatever length it is written. */
  lemma {:induction false} UnknownType(b: Bytes)
    requires b != [] && b[0] != 0 && ReadInt(b).Got? && !Known(ReadInt(b).value)
    ensures Parse(b) == Fault(0x07)
  {
    hide ReadInt;
  }

  /** Zero bytes are padding: a record of nothing else holds no frame. */
  lemma {:induction false} PaddingFormat(n: nat, b: Bytes)
    ensures Parse(seq(n, _ => 0) + b) == Parse(b)
    ensures Parse(seq(n, _ => 0)) == OnlyPadding
  {
    ParsePadded(n, b);
    ParsePadded(n, []);
    assert seq(n, _ => 0) == Padding(n) && Padding(n) + [] == Padding(n);
    ParseEmpty();
  }

  // ------------------------------------------------------------------ cut short

  lemma {:induction false} IntExtends(b: Bytes, more: Bytes)
    requires ReadInt(b).Got?
    ensures ReadInt(b + more) == Got(ReadInt(b).value, ReadInt(b).rest + more)
  {
    var n := TaggedLength(b[0]);
    assert (b + more)[1..n] == b[1..n] && (b + more)[n..] == b[n..] + more;
  }

  lemma {:induction false} BytesExtend(b: Bytes, n: nat, more: Bytes)
    requires ReadBytes(b, n).Got?
    ensures ReadBytes(b + more, n) == Got(ReadBytes(b, n).value, ReadBytes(b, n).rest + more)
  {
    assert (b + more)[..n] == b[..n] && (b + more)[n..] == b[n..] + more;
  }

  /** Types whose frames do not reach to the end of the record, or past what was read of them. */
  predicate Delimited(t: nat) {
    Known(t) && t !in {0x08, 0x09, 0x0c, 0x0d, 0x30}
  }

  lemma {:induction false} StreamExtends(t: nat, b: Bytes, more: Bytes)
    requires t in {0x0a, 0x0b, 0x0e, 0x0f} && ReadStream(t, b).Got?
    ensures ReadStream(t, b + more) == Got(ReadStream(t, b).value, ReadStream(t, b).rest + more)
  {
    hide ReadInt, ReadBytes;
    IntExtends(b, more);
    var b1 := ReadInt(b).rest;
    var b2 := if t / 4 % 2 == 1 then ReadInt(b1).rest else b1;
    if t / 4 % 2 == 1 {
      IntExtends(b1, more);
    }
    IntExtends(b2, more);
    BytesExtend(ReadInt(b2).rest, ReadInt(b2).value, more);
  }

  lemma {:induction false} CloseExtends(t: nat, b: Bytes, more: Bytes)
    requires ReadClose(t, b).Got?
    ensures ReadClose(t, b + more) == Got(ReadClose(t, b).value, ReadClose(t, b).rest + more)
  {
    hide ReadInt, ReadBytes;
    IntExtends(b, more);
    var b1 := ReadInt(b).rest;
    var b2 := if t == TRANSPORT_CLOSE then ReadInt(b1).rest else b1;
    if t == TRANSPORT_CLOSE {
      IntExtends(b1, more);
    }
    IntExtends(b2, more);
    BytesExtend(ReadInt(b2).rest, ReadInt(b2).value, more);
  }

  lemma {:induction false} ParamsExtend(b: Bytes, more: Bytes)
    requires ReadParams(b).Got?
    ensures ReadParams(b + more) == Got(ReadParams(b).value, ReadParams(b).rest + more)
  {
    hide ReadInt, ReadBytes, ParseParams;
    IntExtends(b, more);
    BytesExtend(ReadInt(b).rest, ReadInt(b).value, more);
  }

  lemma {:induction false} BodyExtends(t: nat, b: Bytes, more: Bytes)
    requires Delimited(t) && ReadBody(t, b).Got?
    ensures ReadBody(t, b + more) == Got(ReadBody(t, b).value, ReadBody(t, b).rest + more)
  {
    hide ReadInt, ReadBytes, ReadStream, ReadClose, ReadParams;
    if IsStreamType(t) {
      StreamExtends(t, b, more);
    } else if t == 0x1c || t == 0x1d {
      CloseExtends(t, b, more);
    } else if t == 0x3f51_5330_0d0a_0d0a {
      ParamsExtend(b, more);
    } else {
      IntExtends(b, more);
      var b1 := ReadInt(b).rest;
      if t == 0x31 {
        BytesExtend(b1, ReadInt(b).value, more);
      } else if t in {0x04, 0x05, 0x11, 0x15} {
        IntExtends(b1, more);
        if t == 0x04 {
          IntExtends(ReadInt(b1).rest, more);
        }
      }
    }
  }

  /** The Type field that f is written with. */
  function TypeOf(f: Frame): nat
    requires Encodable(f)
  {
    match f
    case ResetStream(_, _, _) => 0x04
    case StopSending(_, _) => 0x05
    case StreamData(_, offset, _, fin) => 0x0a + (if offset > 0 then 0x04 else 0) + (if fin then 0x01 else 0)
    case MaxData(_) => 0x10
    case MaxStreamData(_, _) => 0x11
    case MaxStreams(dir, _) => if dir.Uni? then 0x13 else 0x12
    case ConnectionClose(application, _, _, _) => if application then 0x1d else 0x1c
    case Datagram(_) => 0x31
    case Ping(response, _) => if response then 0x348c_6752_9ef8_c7be else 0x348c_6752_9ef8_c7bd
    case TransportParameters(_) => 0x3f51_5330_0d0a_0d0a
  }

  lemma {:induction false} EncodedType(f: Frame)
    requires Encodable(f)
    ensures var e := FrameCodec.Encode(f);
            e != [] && e[0] != 0 && ReadInt(e).Got? && ReadInt(e).value == TypeOf(f)
  {
    hide ReadInt, EncodeParams, Varints.Encode, Ints, EncodableParams, FinalCheck;
    var e, t := FrameCodec.Encode(f), TypeOf(f);
    match f
    case ResetStream(id, code, finalSize) =>
      TypeFirst(e, [t, Raw(id), code, finalSize], []);
    case StopSending(id, code) =>
      TypeFirst(e, [t, Raw(id), code], []);
    case StreamData(id, offset, data, fin) =>
      if offset > 0 {
        TypeFirst(e, [t, Raw(id), offset, |data|], data);
      } else {
        TypeFirst(e, [t, Raw(id), |data|], data);
      }
    case MaxData(max) =>
      TypeFirst(e, [t, max], []);
    case MaxStreamData(id, max) =>
      TypeFirst(e, [t, Raw(id), max], []);
    case MaxStreams(dir, max) =>
      TypeFirst(e, [t, max], []);
    case ConnectionClose(application, code, frameType, reason) =>
      if application {
        TypeFirst(e, [t, code, |reason|], reason);
      } else {
        TypeFirst(e, [t, code, frameType, |reason|], reason);
      }
    case Datagram(data) =>
      TypeFirst(e, [t, |data|], data);
    case Ping(response, sequence) =>
      TypeFirst(e, [t, sequence], []);
    case TransportParameters(p) =>
      TypeFirst(e, [t, |EncodeParams(p)|], EncodeParams(p));
  }

  lemma {:induction false} TypeFirst(e: Bytes, vs: seq<nat>, rest: Bytes)
    requires vs != [] && vs[0] > 0 && forall v | v in vs :: v < LIMIT
    requires e == Ints(vs) + rest
    ensures e != [] && e[0] != 0 && ReadInt(e).Got? && ReadInt(e).value == vs[0]
  {
    hide ReadInt, Varints.Encode;
    var t, more := vs[0], vs[1..];
    assert t in vs && vs == [t] + more && forall v | v in more :: v in vs;
    IntsOf(t, more, rest);
    IntsCons(t, more);
    FirstByte(t);
    assert e[0] == Varints.Encode(t)[0];
  }

  lemma {:induction false} TypeKnown(f: Frame)
    requires Encodable(f)
    ensures Delimited(TypeOf(f))
  {
    hide EncodeParams, EncodableParams, FinalCheck;
  }

  /** No frame that is sent can be cut short unnoticed: every part of it is a FRAME_ENCODING_ERROR. */
  lemma {:induction false} CutShort(f: Frame, k: nat)
    requires Encodable(f) && 0 < k < |FrameCodec.Encode(f)|
    ensures Parse(FrameCodec.Encode(f)[..k]) == Fault(0x07)
  {
    hide ReadInt, ReadBody, FrameCodec.Encode, Encodable, TypeOf, Delimited;
    var e := FrameCodec.Encode(f);
    var b, more := e[..k], e[k..];
    assert e == b + more && e + [] == e;
    EncodedType(f);
    assert Delimited(TypeOf(f)) by { TypeKnown(f); }
    FrameRoundTrip(f, []);
    assert b[0] == e[0];
    if ReadInt(b).Got? {
      IntExtends(b, more);
      var t, b1 := ReadInt(b).value, ReadInt(b).rest;
      if ReadBody(t, b1).Got? {
        BodyExtends(t, b1, more);
        assert false;
      }
    }
  }
}
