/** The encoding of transport parameters. */
module ParamCodec {
  import opened Basics
  import opened Frames
  import Varints

  const MAX_IDLE_TIMEOUT: nat := 0x01
  const INITIAL_MAX_DATA: nat := 0x04
  const INITIAL_MAX_STREAM_DATA_BIDI_LOCAL: nat := 0x05
  const INITIAL_MAX_STREAM_DATA_BIDI_REMOTE: nat := 0x06
  const INITIAL_MAX_STREAM_DATA_UNI: nat := 0x07
  const INITIAL_MAX_STREAMS_BIDI: nat := 0x08
  const INITIAL_MAX_STREAMS_UNI: nat := 0x09
  const MAX_DATAGRAM_FRAME_SIZE: nat := 0x20
  const MAX_RECORD_SIZE: nat := 0x0571_c594_29cd_0845

  /** The parameters this implementation knows, in the order it sends them. */
  const IDS: seq<nat> := [
    MAX_IDLE_TIMEOUT, INITIAL_MAX_DATA, INITIAL_MAX_STREAM_DATA_BIDI_LOCAL, INITIAL_MAX_STREAM_DATA_BIDI_REMOTE,
    INITIAL_MAX_STREAM_DATA_UNI, INITIAL_MAX_STREAMS_BIDI, INITIAL_MAX_STREAMS_UNI, MAX_DATAGRAM_FRAME_SIZE,
        MAX_RECORD_SIZE]

  /** The parameters of QUIC version 1 that QMux forbids. */
  predicate Prohibited(id: nat) {
    id in {0x00, 0x02, 0x03, 0x0a, 0x0b, 0x0c, 0x0d, 0x0e, 0x0f, 0x10}
  }

  function GetField(p: Parameters, id: nat): nat
    requires id in IDS
  {
    if id == MAX_IDLE_TIMEOUT then p.maxIdleTimeout
    else if id == INITIAL_MAX_DATA then p.initialMaxData
    else if id == INITIAL_MAX_STREAM_DATA_BIDI_LOCAL then p.initialMaxStreamDataBidiLocal
    else if id == INITIAL_MAX_STREAM_DATA_BIDI_REMOTE then p.initialMaxStreamDataBidiRemote
    else if id == INITIAL_MAX_STREAM_DATA_UNI then p.initialMaxStreamDataUni
    else if id == INITIAL_MAX_STREAMS_BIDI then p.initialMaxStreamsBidi
    else if id == INITIAL_MAX_STREAMS_UNI then p.initialMaxStreamsUni
    else if id == MAX_DATAGRAM_FRAME_SIZE then p.maxDatagramFrameSize
    else p.maxRecordSize
  }

  function SetField(p: Parameters, id: nat, v: nat): Parameters
    requires id in IDS
  {
    if id == MAX_IDLE_TIMEOUT then p.(maxIdleTimeout := v)
    else if id == INITIAL_MAX_DATA then p.(initialMaxData := v)
    else if id == INITIAL_MAX_STREAM_DATA_BIDI_LOCAL then p.(initialMaxStreamDataBidiLocal := v)
    else if id == INITIAL_MAX_STREAM_DATA_BIDI_REMOTE then p.(initialMaxStreamDataBidiRemote := v)
    else if id == INITIAL_MAX_STREAM_DATA_UNI then p.(initialMaxStreamDataUni := v)
    else if id == INITIAL_MAX_STREAMS_BIDI then p.(initialMaxStreamsBidi := v)
    else if id == INITIAL_MAX_STREAMS_UNI then p.(initialMaxStreamsUni := v)
    else if id == MAX_DATAGRAM_FRAME_SIZE then p.(maxDatagramFrameSize := v)
    else p.(maxRecordSize := v)
  }

  /** Fields are independent of each other, and there are no others. */
  lemma {:induction false} FieldLaws(p: Parameters, q: Parameters, id: nat, other: nat, v: nat)
    requires id in IDS && other in IDS
    ensures GetField(SetField(p, id, v), other) == if other == id then v else GetField(p, other)
    ensures (forall i | i in IDS :: GetField(p, i) == GetField(q, i)) ==> p == q
  {
    if forall i | i in IDS :: GetField(p, i) == GetField(q, i) {
      forall k | 0 <= k < 9 ensures GetField(p, IDS[k]) == GetField(q, IDS[k]) {
        assert IDS[k] in IDS;
      }
      assert GetField(p, IDS[0]) == GetField(q, IDS[0]) && GetField(p, IDS[1]) == GetField(q, IDS[1]);
      assert GetField(p, IDS[2]) == GetField(q, IDS[2]) && GetField(p, IDS[3]) == GetField(q, IDS[3]);
      assert GetField(p, IDS[4]) == GetField(q, IDS[4]) && GetField(p, IDS[5]) == GetField(q, IDS[5]);
      assert GetField(p, IDS[6]) == GetField(q, IDS[6]) && GetField(p, IDS[7]) == GetField(q, IDS[7]);
      assert GetField(p, IDS[8]) == GetField(q, IDS[8]);
    }
  }

  // -------------------------------------------------------------- reading bytes

  /** Reading something off the front of a byte string: what was read and what is left, or that it was too short. */
  datatype Read<+T> = Short | Got(value: T, rest: seq<byte>) {
    predicate IsFailure() {
      Short?
    }
    function PropagateFailure<U>(): Read<U>
      requires Short?
    {
      Short
    }
    function Extract(): (T, seq<byte>)
      requires Got?
    {
      (value, rest)
    }
  }

  function ReadInt(b: seq<byte>): (r: Read<nat>)
    ensures r.Got? ==> |r.rest| < |b| && r.value < Varints.LIMIT
  {
    Varints.DecodeBound(b);
    match Varints.Decode(b)
    case None => Short
    case Some((v, n)) => Got(v, b[n..])
  }

  function ReadBytes(b: seq<byte>, n: nat): (r: Read<seq<byte>>)
    ensures r.Got? ==> |r.rest| <= |b|
  {
    if n > |b| then Short else Got(b[..n], b[n..])
  }

  lemma {:induction false} ReadIntEncoded(v: nat, rest: seq<byte>)
    requires v < Varints.LIMIT
    ensures ReadInt(Varints.Encode(v) + rest) == Got(v, rest)
  {
    Varints.RoundTrip(v, rest);
    assert (Varints.Encode(v) + rest)[Varints.Len(v)..] == rest;
  }

  lemma {:induction false} ReadBytesOf(p: seq<byte>, rest: seq<byte>)
    ensures ReadBytes(p + rest, |p|) == Got(p, rest)
  {
    assert (p + rest)[..|p|] == p && (p + rest)[|p|..] == rest;
  }

  // ---------------------------------------------------------------- the grammar

  /** One parameter: its identifier and its value, which need not be an integer. */
  datatype Param = Param(id: nat, value: seq<byte>)

  predicate EncodableParam(t: Param) {
    t.id < Varints.LIMIT && |t.value| < Varints.LIMIT
  }

  function EncodeParam(t: Param): seq<byte>
    requires EncodableParam(t)
  {
    Varints.Encode(t.id) + Varints.Encode(|t.value|) + t.value
  }

  function EncodeList(ts: seq<Param>): seq<byte>
    requires forall t | t in ts :: EncodableParam(t)
  {
    if ts == [] then [] else EncodeParam(ts[0]) + EncodeList(ts[1..])
  }

  function ReadParam(b: seq<byte>): (r: Read<Param>)
    ensures r.Got? ==> |r.rest| < |b|
  {
    var (id, b1) :- ReadInt(b);
    var (n, b2) :- ReadInt(b1);
    var (value, b3) :- ReadBytes(b2, n);
    Got(Param(id, value), b3)
  }

  lemma {:induction false} ReadParamEncoded(t: Param, rest: seq<byte>)
    requires EncodableParam(t)
    ensures ReadParam(EncodeParam(t) + rest) == Got(t, rest)
  {
    var n := Varints.Encode(|t.value|);
    assert EncodeParam(t) + rest == Varints.Encode(t.id) + (n + (t.value + rest));
    ReadIntEncoded(t.id, n + (t.value + rest));
    ReadIntEncoded(|t.value|, t.value + rest);
    ReadBytesOf(t.value, rest);
  }

  datatype ParamsResult = Refused | Accepted(params: Parameters)

  /** The integer that a whole value encodes. */
  function IntValue(value: seq<byte>): Option<nat> {
    match Varints.Decode(value)
    case None => None
    case Some((v, n)) => if n == |value| then Some(v) else None
  }

  /** A parameter no peer may send, or a known one whose value is no integer. */
  predicate BadParam(t: Param) {
    Prohibited(t.id) || (t.id in IDS && IntValue(t.value).None?)
  }

  function TakeParam(p: Parameters, t: Param): Parameters {
    if t.id in IDS && IntValue(t.value).Some? then SetField(p, t.id, IntValue(t.value).value) else p
  }

  function FinalCheck(p: Parameters): ParamsResult {
    if p.initialMaxStreamsBidi > MAX_STREAMS || p.initialMaxStreamsUni > MAX_STREAMS
        || p.maxRecordSize < DEFAULT_MAX_RECORD_SIZE
    then Refused else Accepted(p)
  }

  const DEFAULTS := NO_PARAMETERS.(maxRecordSize := DEFAULT_MAX_RECORD_SIZE)

  /**
   What the bytes say, after p was taken from the parameters in seen. Every failure is a
   TRANSPORT_PARAMETER_ERROR.
   */
  function ParseFrom(b: seq<byte>, seen: set<nat>, p: Parameters): ParamsResult
    decreases |b|
  {
    if b == [] then FinalCheck(p)
    else
      match ReadParam(b)
      case Short => Refused
      case Got(t, rest) =>
        if BadParam(t) || t.id in seen then Refused
        else ParseFrom(rest, seen + {t.id}, TakeParam(p, t))
  }

  function ParseParams(b: seq<byte>): ParamsResult {
    ParseFrom(b, {}, DEFAULTS)
  }

  // ------------------------------------------------------- the order is immaterial

  predicate Distinct(ts: seq<Param>) {
    forall i, j | 0 <= i < j < |ts| :: ts[i].id != ts[j].id
  }

  function TakeAll(p: Parameters, ts: seq<Param>): Parameters
    decreases ts
  {
    if ts == [] then p else TakeAll(TakeParam(p, ts[0]), ts[1..])
  }

  predicate AnyBad(ts: seq<Param>) {
    exists t | t in ts :: BadParam(t)
  }

  lemma {:induction false} AnyBadFirst(ts: seq<Param>)
    requires ts != []
    ensures AnyBad(ts) <==> BadParam(ts[0]) || AnyBad(ts[1..])
  {
    hide BadParam;
    assert forall t :: t in ts <==> t == ts[0] || t in ts[1..];
  }

  /** Parsing a list of distinct parameters takes them all, unless one is bad. */
  lemma {:induction false} ParseList(ts: seq<Param>, seen: set<nat>, p: Parameters)
    requires (forall t | t in ts :: EncodableParam(t) && t.id !in seen) && Distinct(ts)
    ensures ParseFrom(EncodeList(ts), seen, p) == if AnyBad(ts) then Refused else FinalCheck(TakeAll(p, ts))
    decreases ts
  {
    hide ReadParam, EncodeParam, BadParam, TakeParam, FinalCheck, EncodableParam, AnyBad;
    if ts != [] {
      assert forall t | t in ts[1..] :: t in ts;
      ReadParamEncoded(ts[0], EncodeList(ts[1..]));
      AnyBadFirst(ts);
      if !BadParam(ts[0]) {
        ParseList(ts[1..], seen + {ts[0].id}, TakeParam(p, ts[0]));
      }
    } else {
      assert !AnyBad(ts) by { NoneBad(); }
    }
  }

  lemma {:induction false} NoneBad()
    ensures !AnyBad([])
  {
  }

  lemma {:induction false} TakeParamField(p: Parameters, t: Param, id: nat)
    requires id in IDS
    ensures GetField(TakeParam(p, t), id) == if t.id == id
        && IntValue(t.value).Some? then IntValue(t.value).value else GetField(p, id)
  {
    if t.id in IDS && IntValue(t.value).Some? {
      FieldLaws(p, p, t.id, id, IntValue(t.value).value);
    }
  }

  /** What a field ends up as: its own parameter decides, wherever it stands. */
  lemma {:induction false} TakeAllField(p: Parameters, ts: seq<Param>, id: nat)
    requires Distinct(ts) && id in IDS
    ensures forall t | t in ts && t.id == id && IntValue(t.value).Some? ::
        GetField(TakeAll(p, ts), id) == IntValue(t.value).value
    ensures (forall t | t in ts && t.id == id :: IntValue(t.value).None?) ==>
        GetField(TakeAll(p, ts), id) == GetField(p, id)
    decreases ts
  {
    hide TakeParam, GetField, IntValue;
    if ts != [] {
      TakeAllField(TakeParam(p, ts[0]), ts[1..], id);
      TakeParamField(p, ts[0], id);
      assert forall t :: t in ts <==> t == ts[0] || t in ts[1..];
      if ts[0].id == id {
        assert forall t | t in ts[1..] :: t.id != id;
      }
    }
  }

  /** Permuting distinct parameters does not change what they mean. */
  lemma {:induction false} OrderFree(ts: seq<Param>, us: seq<Param>)
    requires (forall t | t in ts :: EncodableParam(t)) && Distinct(ts) && Distinct(us)
    requires forall t :: t in ts <==> t in us
    ensures forall t | t in us :: EncodableParam(t)
    ensures ParseParams(EncodeList(ts)) == ParseParams(EncodeList(us))
  {
    ParseList(ts, {}, DEFAULTS);
    ParseList(us, {}, DEFAULTS);
    assert AnyBad(ts) <==> AnyBad(us);
    var p, q := TakeAll(DEFAULTS, ts), TakeAll(DEFAULTS, us);
    forall id | id in IDS ensures GetField(p, id) == GetField(q, id) {
      TakeAllField(DEFAULTS, ts, id);
      TakeAllField(DEFAULTS, us, id);
      if t :| t in ts && t.id == id && IntValue(t.value).Some? {
        assert t in us;
      }
    }
    FieldLaws(p, q, MAX_IDLE_TIMEOUT, MAX_IDLE_TIMEOUT, 0);
  }

  // ------------------------------------------------------------------ round trip

  predicate EncodableParams(p: Parameters) {
    forall id | id in IDS :: GetField(p, id) < Varints.LIMIT
  }

  /** The parameters of p that are sent: those that are not zero. */
  function ParamList(p: Parameters, ids: seq<nat>): seq<Param>
    requires (forall id | id in ids :: id in IDS) && EncodableParams(p)
  {
    if ids == [] then []
    else
      (if GetField(p, ids[0]) == 0 then [] else [Param(ids[0], Varints.Encode(GetField(p, ids[0])))])
          + ParamList(p, ids[1..])
  }

  lemma {:induction false} ParamListMember(p: Parameters, ids: seq<nat>, t: Param)
    requires (forall id | id in ids :: id in IDS) && EncodableParams(p)
    ensures t in ParamList(p, ids) <==>
        && t.id in ids && GetField(p, t.id) != 0
        && t.value == Varints.Encode(GetField(p, t.id))
  {
    if ids != [] {
      ParamListMember(p, ids[1..], t);
      assert forall id | id in ids :: id == ids[0] || id in ids[1..];
    }
  }

  lemma {:induction false} ParamListDistinct(p: Parameters, ids: seq<nat>)
    requires (forall id | id in ids :: id in IDS) && EncodableParams(p)
    requires forall i, j | 0 <= i < j < |ids| :: ids[i] != ids[j]
    ensures Distinct(ParamList(p, ids))
  {
    if ids != [] {
      ParamListDistinct(p, ids[1..]);
      var tail := ParamList(p, ids[1..]);
      forall j | 0 <= j < |tail| ensures tail[j].id != ids[0] {
        ParamListMember(p, ids[1..], tail[j]);
      }
    }
  }

  lemma {:induction false} IdsDistinct()
    ensures forall i, j | 0 <= i < j < |IDS| :: IDS[i] != IDS[j]
    ensures forall id | id in IDS :: id < Varints.LIMIT && !Prohibited(id)
  {
  }

  function EncodeParams(p: Parameters): seq<byte>
    requires EncodableParams(p)
  {
    ListEncodable(p);
    EncodeList(ParamList(p, IDS))
  }

  lemma {:induction false} ListEncodable(p: Parameters)
    requires EncodableParams(p)
    ensures forall t | t in ParamList(p, IDS) ::
        && EncodableParam(t) && !BadParam(t) && t.id in IDS
        && IntValue(t.value) == Some(GetField(p, t.id))
  {
    IdsDistinct();
    forall t | t in ParamList(p, IDS) ensures EncodableParam(t) && !BadParam(t) && t.id in IDS
        && IntValue(t.value) == Some(GetField(p, t.id)) {
      ParamListMember(p, IDS, t);
      Varints.RoundTrip(GetField(p, t.id), []);
      assert t.value + [] == t.value;
    }
  }

  /** max_record_size zero stands for the default. */
  function Normal(p: Parameters): Parameters {
    if p.maxRecordSize == 0 then p.(maxRecordSize := DEFAULT_MAX_RECORD_SIZE) else p
  }

  /** What is sent comes back, with a zero max_record_size as the default. */
  lemma {:induction false} ParamsRoundTrip(p: Parameters)
    requires EncodableParams(p)
    ensures ParseParams(EncodeParams(p)) == FinalCheck(Normal(p))
  {
    var ts := ParamList(p, IDS);
    ListEncodable(p);
    IdsDistinct();
    ParamListDistinct(p, IDS);
    ParseList(ts, {}, DEFAULTS);
    var q := TakeAll(DEFAULTS, ts);
    forall id | id in IDS ensures GetField(q, id) == GetField(Normal(p), id) {
      TakeAllField(DEFAULTS, ts, id);
      ParamListMember(p, IDS, Param(id, Varints.Encode(GetField(p, id))));
      NormalField(p, id);
      forall t | t in ts && t.id == id ensures GetField(p, id) != 0 {
        ParamListMember(p, IDS, t);
      }
    }
    FieldLaws(q, Normal(p), MAX_IDLE_TIMEOUT, MAX_IDLE_TIMEOUT, 0);
  }

  lemma {:induction false} NormalField(p: Parameters, id: nat)
    requires id in IDS
    ensures GetField(Normal(p), id) == if GetField(p, id) == 0 then GetField(DEFAULTS, id) else GetField(p, id)
  {
  }
}
