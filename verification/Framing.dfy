/**
 Records on a transport: preceded by their size on a byte stream, or one per
 message. A byte stream may come in messages of any size, and be read in pieces
 of any size.
 */
module Framing {
  import opened Basics
  import opened Frames
  import opened ParamCodec
  import Formats
  import Varints

  // ------------------------------------------------------------- what is on the wire

  /** A record of the given frames, with its Size field. */
  function Framed(frames: seq<byte>): (r: seq<byte>)
    requires |frames| < Varints.LIMIT
    ensures |r| == Varints.Len(|frames|) + |frames|
  {
    Varints.Encode(|frames|) + frames
  }

  /** The Size field of a record up to the default size is one byte, or two with 0x40 in the first. */
  lemma {:induction false} RecordFormat(frames: seq<byte>)
    requires |frames| <= 16382
    ensures |frames| < 0x40 ==> Framed(frames) == [|frames|] + frames
    ensures |frames| >= 0x40 ==> Framed(frames) == [0x40 + |frames| / 0x100, |frames| % 0x100] + frames
  {
    hide Varints.Encode;
    if |frames| < 0x40 {
      Formats.SmallInt(|frames|);
    } else {
      Formats.MediumInt(|frames|);
    }
  }

  /** A record, one over the limit that was skipped, or the end of the transport, in the middle of a record or not. */
  datatype ReadResult = Record(frames: seq<byte>) | TooLarge(size: nat) | Ended

  /** The next record on a byte stream, and what follows it. */
  function NextRecord(s: seq<byte>, max: nat): (r: (ReadResult, seq<byte>))
    ensures !r.0.Ended? ==> |r.1| < |s|
  {
    match ReadInt(s)
    case Short => (Ended, [])
    case Got(size, rest) =>
      if size > |rest| then (Ended, [])
      else if size > max then (TooLarge(size), rest[size..])
      else (Record(rest[..size]), rest[size..])
  }

  /** Everything a reader gets, up to the end. */
  function ReadAll(s: seq<byte>, max: nat): seq<ReadResult>
    decreases |s|
  {
    var (r, rest) := NextRecord(s, max);
    if r.Ended? then [] else [r] + ReadAll(rest, max)
  }

  lemma {:induction false} ReadAllNext(s: seq<byte>, max: nat)
    ensures var (r, rest) := NextRecord(s, max); ReadAll(s, max) == if r.Ended? then [] else [r] + ReadAll(rest, max)
  {
  }

  function Wired(records: seq<seq<byte>>): seq<byte>
    requires forall r | r in records :: |r| < Varints.LIMIT
  {
    if records == [] then []
    else
      assert records[0] in records && forall r | r in records[1..] :: r in records;
      Framed(records[0]) + Wired(records[1..])
  }

  /** What a reader should get of a record. */
  function Delivered(record: seq<byte>, max: nat): ReadResult {
    if |record| > max then TooLarge(|record|) else Record(record)
  }

  function DeliveredAll(records: seq<seq<byte>>, max: nat): seq<ReadResult> {
    if records == [] then [] else [Delivered(records[0], max)] + DeliveredAll(records[1..], max)
  }

  lemma {:induction false} NextFramed(record: seq<byte>, rest: seq<byte>, max: nat)
    requires |record| < Varints.LIMIT
    ensures NextRecord(Framed(record) + rest, max) == (Delivered(record, max), rest)
  {
    hide ReadInt;
    assert Framed(record) + rest == Varints.Encode(|record|) + (record + rest);
    ReadIntEncoded(|record|, record + rest);
    assert (record + rest)[..|record|] == record && (record + rest)[|record|..] == rest;
  }

  /** Framing round trip: every record within the limit comes back, in order, and each one over it is reported once. */
  lemma {:induction false} FramingRoundTrip(records: seq<seq<byte>>, max: nat)
    requires forall r | r in records :: |r| < Varints.LIMIT
    ensures ReadAll(Wired(records), max) == DeliveredAll(records, max)
  {
    hide NextRecord, Delivered, Framed;
    if records == [] {
      assert NextRecord([], max).0.Ended? by { NothingLeft(max); }
    } else {
      assert records[0] in records && forall r | r in records[1..] :: r in records;
      NextFramed(records[0], Wired(records[1..]), max);
      FramingRoundTrip(records[1..], max);
      assert Delivered(records[0], max) != Ended by { NotEnded(records[0], max); }
    }
  }

  lemma {:induction false} NothingLeft(max: nat)
    ensures NextRecord([], max).0.Ended?
  {
  }

  lemma {:induction false} NotEnded(record: seq<byte>, max: nat)
    ensures Delivered(record, max) != Ended
  {
  }

  lemma {:induction false} ReadIntMore(s: seq<byte>, more: seq<byte>)
    requires ReadInt(s).Got?
    ensures ReadInt(s + more) == Got(ReadInt(s).value, ReadInt(s).rest + more)
  {
    hide Varints.Decode, ReadInt;
    VarintPieces(s);
    VarintPieces(s + more);
    var n := Varints.TaggedLength(s[0]);
    assert (s + more)[0] == s[0];
    DropMore(s, more, n);
  }

  lemma {:induction false} DropMore(s: seq<byte>, more: seq<byte>, n: nat)
    requires n <= |s|
    ensures (s + more)[n..] == s[n..] + more && (s + more)[..n] == s[..n]
  {
  }

  lemma {:induction false} NextMore(s: seq<byte>, more: seq<byte>, max: nat)
    requires !NextRecord(s, max).0.Ended?
    ensures NextRecord(s + more, max) == (NextRecord(s, max).0, NextRecord(s, max).1 + more)
  {
    hide ReadInt;
    ReadIntMore(s, more);
    var size, rest := ReadInt(s).value, ReadInt(s).rest;
    DropMore(rest, more, if size <= |rest| then size else 0);
  }

  /** A transport that ends early, wherever it does, delivers a beginning of what was sent, and nothing else. */
  lemma {:induction false} CutShort(s: seq<byte>, more: seq<byte>, max: nat)
    ensures ReadAll(s, max) <= ReadAll(s + more, max)
    decreases |s|
  {
    hide NextRecord;
    var (r, rest) := NextRecord(s, max);
    if !r.Ended? {
      NextMore(s, more, max);
      CutShort(rest, more, max);
    }
  }

  // ------------------------------------------------------------------ byte streams

  /** An integer is decided by its first byte and as many more as that says. */
  lemma {:induction false} VarintPieces(s: seq<byte>)
    ensures s == [] || |s| < Varints.TaggedLength(s[0]) <==> ReadInt(s).Short?
    ensures s != [] && |s| >= Varints.TaggedLength(s[0]) ==>
      var n := Varints.TaggedLength(s[0]);
      Varints.Decode(s[..n]).Some? && ReadInt(s) == Got(Varints.Decode(s[..n]).value.0, s[n..])
  {
    if s != [] && |s| >= Varints.TaggedLength(s[0]) {
      var n := Varints.TaggedLength(s[0]);
      assert s[..n][1..n] == s[1..n];
    }
  }

  function Flat(messages: seq<seq<byte>>): seq<byte> {
    if messages == [] then [] else messages[0] + Flat(messages[1..])
  }

  /** A message transport read as a byte stream. incoming is what the transport has yet to deliver. */
  class MessageReader {
    var incoming: seq<seq<byte>>
    var buf: seq<byte>

    ghost function Remaining(): seq<byte>
      reads this
    {
      buf + Flat(incoming)
    }

    constructor (messages: seq<seq<byte>>)
      ensures Remaining() == Flat(messages)
    {
      incoming, buf := messages, [];
    }

    /** Reads up to n bytes. It fails only at the end of the transport, and returns nothing only if n is zero. */
    method Read(n: nat) returns (data: seq<byte>, ended: bool)
      modifies this
      ensures data + Remaining() == old(Remaining()) && |data| <= n
      ensures ended ==> data == [] && old(Remaining()) == [] && Remaining() == []
      ensures !ended && n > 0 ==> data != []
    {
      while |buf| == 0
        invariant Remaining() == old(Remaining())
        decreases |incoming|, |buf| == 0
      {
        if incoming == [] {
          return [], true;
        }
        assert buf + (incoming[0] + Flat(incoming[1..])) == incoming[0] + Flat(incoming[1..]);
        buf, incoming := incoming[0], incoming[1..];
      }
      var k := if n <= |buf| then n else |buf|;
      data := buf[..k];
      assert buf == buf[..k] + buf[k..];
      buf := buf[k..];
      ended := false;
    }
  }

  /** A buffered reader on top, which reads pieces of at most size bytes. */
  class BufferedReader {
    const src: MessageReader
    const size: nat
    var ahead: seq<byte>

    ghost predicate Valid()
    {
      size > 0
    }

    ghost function Remaining(): seq<byte>
      reads this, src
    {
      ahead + src.Remaining()
    }

    constructor (src: MessageReader, size: nat)
      requires size > 0
      ensures Valid() && this.src == src && Remaining() == src.Remaining()
    {
      this.src, this.size := src, size;
      ahead := [];
      new;
      assert [] + src.Remaining() == src.Remaining();
    }

    /** Reads exactly n bytes, or as many as there are. */
    method ReadFull(n: nat) returns (data: seq<byte>)
      requires Valid()
      modifies this, src
      ensures Valid() && data + Remaining() == old(Remaining())
      ensures |data| == Min(n, |old(Remaining())|)
    {
      var ended := false;
      while |ahead| < n && !ended
        invariant Remaining() == old(Remaining())
        invariant ended ==> src.Remaining() == []
        decreases |src.Remaining()|, !ended
      {
        var piece;
        ghost var before := src.Remaining();
        piece, ended := src.Read(size);
        assert ahead + (piece + src.Remaining()) == ahead + piece + src.Remaining();
        ahead := ahead + piece;
      }
      var k := if n <= |ahead| then n else |ahead|;
      data := ahead[..k];
      assert ahead == ahead[..k] + ahead[k..];
      ahead := ahead[k..];
      assert data + (ahead + src.Remaining()) == data + ahead + src.Remaining();
    }

    /** Reads a variable-length integer; None if the stream ends first. */
    method ReadVarint() returns (v: Option<nat>)
      requires Valid()
      modifies this, src
      ensures Valid()
      ensures v.None? <==> ReadInt(old(Remaining())).Short?
      ensures v.Some? ==> ReadInt(old(Remaining())) == Got(v.value, Remaining())
    {
      hide ReadInt, Varints.Decode, MessageReader.Remaining;
      ghost var s := Remaining();
      VarintPieces(s);
      var first := ReadFull(1);
      if |first| == 0 {
        return None;
      }
      assert first[0] == s[0];
      var n := Varints.TaggedLength(first[0]);
      var more := ReadFull(n - 1);
      if |more| < n - 1 {
        return None;
      }
      assert s == first + (more + Remaining());
      assert first + more == s[..n] && Remaining() == s[n..];
      var d := Varints.Decode(first + more);
      return Some(d.value.0);
    }
  }

  /** Records on a byte stream, each preceded by its Size field. */
  class StreamTransport {
    const br: BufferedReader
    const max: nat
    /** The last record read; reused for the next. */
    var buf: array<byte>

    ghost predicate Valid() {
      br.Valid()
    }

    constructor (br: BufferedReader, max: nat)
      requires br.Valid()
      ensures Valid() && this.br == br && this.max == max && fresh(buf)
    {
      this.br, this.max := br, max;
      buf := new byte[0];
    }

    /** Reads the next record into buf. One over the limit is skipped, so that the stream stays aligned. */
    method ReadRecord() returns (r: ReadResult)
      requires Valid()
      modifies this, buf, br, br.src
      ensures Valid() && (fresh(buf) || buf == old(buf))
      ensures r == NextRecord(old(br.Remaining()), max).0
      ensures !r.Ended? ==> br.Remaining() == NextRecord(old(br.Remaining()), max).1
      ensures r.Record? ==> |r.frames| <= buf.Length && buf[..|r.frames|] == r.frames
    {
      var size := br.ReadVarint();
      if size.None? {
        return Ended;
      }
      ghost var rest := br.Remaining();
      if size.value > max {
        var skipped := br.ReadFull(size.value);
        if |skipped| < size.value {
          return Ended;
        }
        assert rest[size.value..] == br.Remaining();
        return TooLarge(size.value);
      }
      if buf.Length < size.value {
        buf := new byte[size.value];
      }
      var data := br.ReadFull(size.value);
      if |data| < size.value {
        return Ended;
      }
      assert rest[..size.value] == data && rest[size.value..] == br.Remaining();
      forall i | 0 <= i < size.value {
        buf[i] := data[i];
      }
      assert buf[..size.value] == data;
      return Record(data);
    }

    /** The read loop: whatever the division into messages and pieces, it gets what is on the wire. */
    method ReadToEnd() returns (results: seq<ReadResult>)
      requires Valid()
      modifies this, buf, br, br.src
      ensures results == ReadAll(old(br.Remaining()), max)
    {
      hide NextRecord, ReadAll, MessageReader.Remaining;
      results := [];
      var more := true;
      while more
        invariant Valid() && (fresh(buf) || buf == old(buf))
        invariant more ==> results + ReadAll(br.Remaining(), max) == ReadAll(old(br.Remaining()), max)
        invariant !more ==> results == ReadAll(old(br.Remaining()), max)
        decreases more, |br.Remaining()|
      {
        ghost var s, before := br.Remaining(), results;
        var r := ReadRecord();
        ReadAllNext(s, max);
        if r.Ended? {
          more := false;
        } else {
          results := results + [r];
          assert before + ([r] + ReadAll(br.Remaining(), max)) == results + ReadAll(br.Remaining(), max);
        }
      }
    }
  }

  /**
   Writes a record that was built in buf behind its headroom: the Size field goes
   into the headroom, right before the frames, and written is what the transport
   gets. The frames stay as they are.
   */
  method WriteRecord(buf: array<byte>, n: nat) returns (written: seq<byte>)
    requires RECORD_HEADROOM <= n <= buf.Length && n - RECORD_HEADROOM < Varints.LIMIT
    modifies buf
    ensures written == Framed(old(buf[RECORD_HEADROOM..n]))
    ensures buf[RECORD_HEADROOM..] == old(buf[RECORD_HEADROOM..])
  {
    var size := n - RECORD_HEADROOM;
    var field := Varints.Encode(size);
    var start := RECORD_HEADROOM - |field|;
    forall i | 0 <= i < |field| {
      buf[start + i] := field[i];
    }
    assert buf[start..RECORD_HEADROOM] == field;
    assert buf[RECORD_HEADROOM..] == old(buf[RECORD_HEADROOM..]);
    assert buf[RECORD_HEADROOM..n] == buf[RECORD_HEADROOM..][..n - RECORD_HEADROOM];
    assert old(buf[RECORD_HEADROOM..n]) == old(buf[RECORD_HEADROOM..])[..n - RECORD_HEADROOM];
    assert buf[start..n] == buf[start..RECORD_HEADROOM] + buf[RECORD_HEADROOM..n];
    written := buf[start..n];
  }

  /** One record per message, without its Size field. */
  class MessageTransport {
    var incoming: seq<seq<byte>>
    var outgoing: seq<seq<byte>>
    const max: nat

    constructor (messages: seq<seq<byte>>, max: nat)
      ensures incoming == messages && outgoing == [] && this.max == max
    {
      incoming, outgoing, this.max := messages, [], max;
    }

    method ReadRecord() returns (r: ReadResult)
      modifies this`incoming
      ensures old(incoming) == [] ==> r.Ended? && incoming == []
      ensures old(incoming) != [] ==> r == Delivered(old(incoming)[0], max) && incoming == old(incoming)[1..]
    {
      if incoming == [] {
        return Ended;
      }
      var p := incoming[0];
      incoming := incoming[1..];
      if |p| > max {
        return TooLarge(|p|);
      }
      return Record(p);
    }

    method WriteRecord(buf: array<byte>, n: nat)
      requires RECORD_HEADROOM <= n <= buf.Length
      modifies this`outgoing
      ensures outgoing == old(outgoing) + [buf[RECORD_HEADROOM..n]]
    {
      outgoing := outgoing + [buf[RECORD_HEADROOM..n]];
    }

    /** Messages that carry records deliver what a byte stream carrying the same records does. */
    method ReadToEnd() returns (results: seq<ReadResult>)
      requires forall p | p in incoming :: |p| < Varints.LIMIT
      modifies this`incoming
      ensures results == ReadAll(Wired(old(incoming)), max)
    {
      results := [];
      FramingRoundTrip(incoming, max);
      while incoming != []
        invariant results + DeliveredAll(incoming, max) == DeliveredAll(old(incoming), max)
        decreases |incoming|
      {
        hide Delivered;
        assert results + ([Delivered(incoming[0], max)] + DeliveredAll(incoming[1..], max))
            == results + [Delivered(incoming[0], max)] + DeliveredAll(incoming[1..], max);
        var r := ReadRecord();
        results := results + [r];
      }
    }
  }

  /**
   Records written to a message transport and read by its peer: every record within
   the peer's limit arrives as it was, in order, and each one over it is reported.
   */
  method MessageRoundTrip(records: seq<seq<byte>>, max: nat) returns (results: seq<ReadResult>)
    requires forall r | r in records :: |r| < Varints.LIMIT
    ensures results == DeliveredAll(records, max)
  {
    var sender := new MessageTransport([], max);
    for i := 0 to |records|
      invariant sender.outgoing == records[..i]
    {
      var n := RECORD_HEADROOM + |records[i]|;
      var buf := new byte[n](j => 0);
      forall j | 0 <= j < |records[i]| {
        buf[RECORD_HEADROOM + j] := records[i][j];
      }
      assert buf[RECORD_HEADROOM..n] == records[i];
      sender.WriteRecord(buf, n);
      assert records[..i + 1] == records[..i] + [records[i]];
    }
    assert records[..|records|] == records;
    var receiver := new MessageTransport(sender.outgoing, max);
    FramingRoundTrip(records, max);
    results := receiver.ReadToEnd();
  }
}
