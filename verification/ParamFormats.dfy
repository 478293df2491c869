/** The format of transport parameters, section 18 of RFC 9000, with the numbers written out. */
module ParamFormats {
  import opened Basics
  import opened Frames
  import opened ParamCodec
  import opened Formats
  import opened Varints

  /** One parameter as it is sent: nothing if it is zero, otherwise its identifier and the integer with its length. */
  function Field(id: Bytes, v: nat): Bytes
    requires v < LIMIT
  {
    if v == 0 then [] else id + Sized(Varints.Encode(v))
  }

  lemma {:induction false} ListedFrom(p: Parameters, k: nat)
    requires k <= 9 && EncodableParams(p)
    ensures forall id | id in IDS[k..] :: id in IDS
    ensures forall t | t in ParamList(p, IDS[k..]) :: EncodableParam(t)
  {
    hide Varints.Encode, GetField;
    IdsDistinct();
    assert forall id | id in IDS[k..] :: id in IDS;
    forall t | t in ParamList(p, IDS[k..]) ensures EncodableParam(t) {
      ParamListMember(p, IDS[k..], t);
    }
  }

  /** The encoding of the parameters from the k-th on. */
  function EncodedFrom(p: Parameters, k: nat): Bytes
    requires k <= 9 && EncodableParams(p)
  {
    ListedFrom(p, k);
    EncodeList(ParamList(p, IDS[k..]))
  }

  lemma {:induction false} FieldFirst(p: Parameters, k: nat)
    requires k < 9 && EncodableParams(p)
    ensures IDS[k] in IDS && IDS[k] < LIMIT && GetField(p, IDS[k]) < LIMIT
    ensures EncodedFrom(p, k) == Field(Varints.Encode(IDS[k]), GetField(p, IDS[k])) + EncodedFrom(p, k + 1)
  {
    hide Varints.Encode, GetField;
    IdsDistinct();
    ListedFrom(p, k);
    ListedFrom(p, k + 1);
    var ids := IDS[k..];
    assert ids[0] == IDS[k] && ids[1..] == IDS[k + 1..];
    var id, v, tail := ids[0], GetField(p, ids[0]), ParamList(p, ids[1..]);
    if v != 0 {
      var t := Param(id, Varints.Encode(v));
      assert ParamList(p, ids) == [t] + tail && ([t] + tail)[1..] == tail;
      assert EncodeParam(t) == Field(Varints.Encode(id), v);
    } else {
      assert ParamList(p, ids) == tail;
    }
  }

  lemma {:induction false} AllEncodable(p: Parameters)
    requires p.maxIdleTimeout < LIMIT && p.initialMaxData < LIMIT && p.initialMaxStreamDataBidiLocal < LIMIT
    requires p.initialMaxStreamDataBidiRemote < LIMIT && p.initialMaxStreamDataUni < LIMIT
    requires p.initialMaxStreamsBidi < LIMIT && p.initialMaxStreamsUni < LIMIT
    requires p.maxDatagramFrameSize < LIMIT && p.maxRecordSize < LIMIT
    ensures EncodableParams(p)
    ensures EncodeParams(p) == EncodedFrom(p, 0) && EncodedFrom(p, 9) == []
  {
    assert IDS[0..] == IDS && IDS[9..] == [];
  }

  lemma {:induction false} FirstFields(p: Parameters)
    requires EncodableParams(p)
    requires p.maxIdleTimeout < LIMIT && p.initialMaxData < LIMIT && p.initialMaxStreamDataBidiLocal < LIMIT
    requires p.initialMaxStreamDataBidiRemote < LIMIT
    ensures EncodedFrom(p, 0)
            == Field([0x01], p.maxIdleTimeout) + Field([0x04], p.initialMaxData)
               + Field([0x05], p.initialMaxStreamDataBidiLocal) + Field([0x06], p.initialMaxStreamDataBidiRemote)
               + EncodedFrom(p, 4)
  {
    hide Varints.Encode, Field, EncodedFrom, EncodableParams;
    SmallInt(0x01);
    SmallInt(0x04);
    SmallInt(0x05);
    SmallInt(0x06);
    FieldFirst(p, 0);
    FieldFirst(p, 1);
    FieldFirst(p, 2);
    FieldFirst(p, 3);
    assert IDS[0] == 0x01 && IDS[1] == 0x04 && IDS[2] == 0x05 && IDS[3] == 0x06;
  }

  lemma {:induction false} LastFields(p: Parameters)
    requires EncodableParams(p)
    requires p.initialMaxStreamDataUni < LIMIT && p.initialMaxStreamsBidi < LIMIT && p.initialMaxStreamsUni < LIMIT
    requires p.maxDatagramFrameSize < LIMIT && p.maxRecordSize < LIMIT
    ensures EncodedFrom(p, 4)
            == Field([0x07], p.initialMaxStreamDataUni) + Field([0x08], p.initialMaxStreamsBidi)
               + Field([0x09], p.initialMaxStreamsUni) + Field([0x20], p.maxDatagramFrameSize)
               + Field([0xc5, 0x71, 0xc5, 0x94, 0x29, 0xcd, 0x08, 0x45], p.maxRecordSize) + EncodedFrom(p, 9)
  {
    hide Varints.Encode, Field, EncodedFrom, EncodableParams;
    SmallInt(0x07);
    SmallInt(0x08);
    SmallInt(0x09);
    SmallInt(0x20);
    LongTypes();
    FieldFirst(p, 4);
    FieldFirst(p, 5);
    FieldFirst(p, 6);
    FieldFirst(p, 7);
    FieldFirst(p, 8);
    assert IDS[4] == 0x07 && IDS[5] == 0x08 && IDS[6] == 0x09 && IDS[7] == 0x20 && IDS[8] == 0x0571_c594_29cd_0845;
  }

  /** The parameters in the order in which they are sent, with their identifiers. */
  lemma {:induction false} ParameterFormat(p: Parameters)
    requires p.maxIdleTimeout < LIMIT && p.initialMaxData < LIMIT && p.initialMaxStreamDataBidiLocal < LIMIT
    requires p.initialMaxStreamDataBidiRemote < LIMIT && p.initialMaxStreamDataUni < LIMIT
    requires p.initialMaxStreamsBidi < LIMIT && p.initialMaxStreamsUni < LIMIT
    requires p.maxDatagramFrameSize < LIMIT && p.maxRecordSize < LIMIT
    ensures EncodableParams(p)
    ensures EncodeParams(p)
            == Field([0x01], p.maxIdleTimeout) + Field([0x04], p.initialMaxData)
               + Field([0x05], p.initialMaxStreamDataBidiLocal) + Field([0x06], p.initialMaxStreamDataBidiRemote)
               + Field([0x07], p.initialMaxStreamDataUni) + Field([0x08], p.initialMaxStreamsBidi)
               + Field([0x09], p.initialMaxStreamsUni) + Field([0x20], p.maxDatagramFrameSize)
               + Field([0xc5, 0x71, 0xc5, 0x94, 0x29, 0xcd, 0x08, 0x45], p.maxRecordSize)
  {
    hide Varints.Encode, Field, EncodedFrom, EncodableParams, EncodeParams;
    AllEncodable(p);
    FirstFields(p);
    LastFields(p);
  }

  /** The identifiers of the parameters that are known, and of those that may not be sent. */
  const KNOWN_IDS: set<nat> := {0x01, 0x04, 0x05, 0x06, 0x07, 0x08, 0x09, 0x20, 0x0571_c594_29cd_0845}
  const PROHIBITED_IDS: set<nat> := {0x00, 0x02, 0x03, 0x0a, 0x0b, 0x0c, 0x0d, 0x0e, 0x0f, 0x10}

  /** No identifier twice, none that may not be sent, and an integer for every one that is known. */
  ghost predicate WellFormed(ts: seq<Param>) {
    && (forall i, j | 0 <= i < j < |ts| :: ts[i].id != ts[j].id)
    && (forall t | t in ts :: t.id !in PROHIBITED_IDS)
    && (forall t | t in ts && t.id in KNOWN_IDS :: exists v: nat :: Varints.Decode(t.value) == Some((v, |t.value|)))
  }

  /** The integer that the list gives the parameter id, or what its absence stands for. */
  predicate Says(ts: seq<Param>, id: nat, absent: nat, v: nat) {
    && (forall t | t in ts && t.id == id :: Varints.Decode(t.value) == Some((v, |t.value|)))
    && ((forall t | t in ts :: t.id != id) ==> v == absent)
  }

  /** The fields of p are what the list says. */
  predicate SaysAll(ts: seq<Param>, p: Parameters) {
    && Says(ts, 0x01, 0, p.maxIdleTimeout)
    && Says(ts, 0x04, 0, p.initialMaxData)
    && Says(ts, 0x05, 0, p.initialMaxStreamDataBidiLocal)
    && Says(ts, 0x06, 0, p.initialMaxStreamDataBidiRemote)
    && Says(ts, 0x07, 0, p.initialMaxStreamDataUni)
    && Says(ts, 0x08, 0, p.initialMaxStreamsBidi)
    && Says(ts, 0x09, 0, p.initialMaxStreamsUni)
    && Says(ts, 0x20, 0, p.maxDatagramFrameSize)
    && Says(ts, 0x0571_c594_29cd_0845, 16382, p.maxRecordSize)
  }

  /**
   A list of parameters is accepted as p exactly if it is well formed, p is what it says, neither
   stream count is above 2^60 and the record size is not below 16382.
   */
  lemma {:induction false} ParametersExactly(ts: seq<Param>, p: Parameters)
    requires forall t | t in ts :: EncodableParam(t)
    ensures ParseParams(EncodeList(ts)) == Accepted(p) <==>
              && WellFormed(ts) && SaysAll(ts, p)
              && p.initialMaxStreamsBidi <= 0x1000_0000_0000_0000
              && p.initialMaxStreamsUni <= 0x1000_0000_0000_0000
              && p.maxRecordSize >= 16382
  {
    WellFormedMeans(ts);
    if WellFormed(ts) {
      hide WellFormed, SaysAll, ParseParams, EncodeList, TakeAll, EncodableParam;
      var q := TakeAll(DEFAULTS, ts);
      ParseWellFormed(ts);
      TakenSays(ts);
      SaysOnce(ts, p, q);
    } else {
      hide WellFormed, SaysAll, ParseFrom, EncodeList, EncodableParam, Distinct, AnyBad;
      Refusal(ts, {}, DEFAULTS);
    }
  }

  lemma {:induction false} WellFormedMeans(ts: seq<Param>)
    ensures WellFormed(ts) <==> Distinct(ts) && !AnyBad(ts)
  {
    hide Varints.Decode;
    if WellFormed(ts) {
      forall t | t in ts ensures !BadParam(t) {
        if t.id in IDS {
          assert t.id in KNOWN_IDS;
        }
      }
    } else if Distinct(ts) {
      if t :| t in ts && t.id in PROHIBITED_IDS {
        assert BadParam(t);
      } else {
        var t :| t in ts && t.id in KNOWN_IDS && !exists v: nat :: Varints.Decode(t.value) == Some((v, |t.value|));
        assert BadParam(t);
      }
    }
  }

  lemma {:induction false} ParseWellFormed(ts: seq<Param>)
    requires (forall t | t in ts :: EncodableParam(t)) && WellFormed(ts)
    ensures ParseParams(EncodeList(ts)) == FinalCheck(TakeAll(DEFAULTS, ts))
  {
    WellFormedMeans(ts);
    ParseList(ts, {}, DEFAULTS);
  }

  lemma {:induction false} TakenSays(ts: seq<Param>)
    requires WellFormed(ts)
    ensures SaysAll(ts, TakeAll(DEFAULTS, ts))
  {
    hide WellFormed, TakeAll, Says;
    TakenSaysOne(ts, 0);
    TakenSaysOne(ts, 1);
    TakenSaysOne(ts, 2);
    TakenSaysOne(ts, 3);
    TakenSaysOne(ts, 4);
    TakenSaysOne(ts, 5);
    TakenSaysOne(ts, 6);
    TakenSaysOne(ts, 7);
    TakenSaysOne(ts, 8);
  }

  lemma {:induction false} TakenSaysOne(ts: seq<Param>, k: nat)
    requires WellFormed(ts) && k < 9
    ensures IDS[k] in IDS
    ensures var id := IDS[k];
            Says(ts, id, GetField(DEFAULTS, id), GetField(TakeAll(DEFAULTS, ts), id))
  {
    hide Varints.Decode, GetField, TakeAll, Says;
    var id := IDS[k];
    TakeAllField(DEFAULTS, ts, id);
    var v := GetField(TakeAll(DEFAULTS, ts), id);
    forall t | t in ts && t.id == id ensures Varints.Decode(t.value) == Some((v, |t.value|)) {
      assert t.id in KNOWN_IDS;
      assert IntValue(t.value).Some?;
    }
    SaysOf(ts, id, GetField(DEFAULTS, id), v);
  }

  lemma {:induction false} SaysOf(ts: seq<Param>, id: nat, absent: nat, v: nat)
    requires forall t | t in ts && t.id == id :: Varints.Decode(t.value) == Some((v, |t.value|))
    requires (forall t | t in ts :: t.id != id) ==> v == absent
    ensures Says(ts, id, absent, v)
  {
  }

  lemma {:induction false} SaysOneOnly(ts: seq<Param>, id: nat, absent: nat, v: nat, w: nat)
    requires Says(ts, id, absent, v) && Says(ts, id, absent, w)
    ensures v == w
  {
    if t :| t in ts && t.id == id {
      assert Varints.Decode(t.value) == Some((v, |t.value|));
    }
  }

  /** A list says one thing only. */
  lemma {:induction false} SaysOnce(ts: seq<Param>, p: Parameters, q: Parameters)
    requires SaysAll(ts, q)
    ensures SaysAll(ts, p) <==> p == q
  {
    hide Says;
    if SaysAll(ts, p) {
      SaysOneOnly(ts, 0x01, 0, p.maxIdleTimeout, q.maxIdleTimeout);
      SaysOneOnly(ts, 0x04, 0, p.initialMaxData, q.initialMaxData);
      SaysOneOnly(ts, 0x05, 0, p.initialMaxStreamDataBidiLocal, q.initialMaxStreamDataBidiLocal);
      SaysOneOnly(ts, 0x06, 0, p.initialMaxStreamDataBidiRemote, q.initialMaxStreamDataBidiRemote);
      SaysOneOnly(ts, 0x07, 0, p.initialMaxStreamDataUni, q.initialMaxStreamDataUni);
      SaysOneOnly(ts, 0x08, 0, p.initialMaxStreamsBidi, q.initialMaxStreamsBidi);
      SaysOneOnly(ts, 0x09, 0, p.initialMaxStreamsUni, q.initialMaxStreamsUni);
      SaysOneOnly(ts, 0x20, 0, p.maxDatagramFrameSize, q.maxDatagramFrameSize);
      SaysOneOnly(ts, 0x0571_c594_29cd_0845, 16382, p.maxRecordSize, q.maxRecordSize);
    }
  }

  lemma {:induction false} Repeated(ts: seq<Param>) returns (u: Param)
    requires ts != [] && !Distinct(ts) && Distinct(ts[1..])
    ensures u in ts[1..] && u.id == ts[0].id
  {
    if forall t | t in ts[1..] :: t.id != ts[0].id {
      assert forall i | 0 < i < |ts| :: ts[i] == ts[1..][i - 1];
      assert false;
    }
    u :| u in ts[1..] && u.id == ts[0].id;
  }

  /** A repeated parameter is refused like a bad one, wherever it stands. */
  lemma {:induction false} Refusal(ts: seq<Param>, seen: set<nat>, p: Parameters)
    requires forall t | t in ts :: EncodableParam(t)
    requires !Distinct(ts) || AnyBad(ts) || exists t | t in ts :: t.id in seen
    ensures ParseFrom(EncodeList(ts), seen, p) == Refused
    decreases ts
  {
    hide ReadParam, EncodeParam, BadParam, TakeParam, FinalCheck, EncodableParam, AnyBad;
    if ts == [] {
      NoneBad();
      assert false;
    }
    var t, tail := ts[0], ts[1..];
    assert forall u :: u in ts <==> u == t || u in tail;
    ReadParamEncoded(t, EncodeList(tail));
    AnyBadFirst(ts);
    if !BadParam(t) && t.id !in seen {
      if !Distinct(ts) && Distinct(tail) {
        var u := Repeated(ts);
        assert u.id in seen + {t.id};
      }
      Refusal(tail, seen + {t.id}, TakeParam(p, t));
    }
  }
}
