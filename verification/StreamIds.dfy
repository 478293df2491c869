/**
 Stream identifiers. On the wire an identifier is one 62-bit integer whose two
 low bits say who opened the stream and of which kind it is; the rest is the
 index of the stream among those. The connection works with the parts.
 */
module StreamIds {
  import opened Basics

  datatype StreamId = StreamId(index: nat, dir: Dir, byServer: bool)

  /** The identifier of the index-th stream of a kind, as an endpoint numbers it. */
  function RawId(isServer: bool, index: nat, dir: Dir, local: bool): (raw: nat) {
    4 * index + (if dir.Uni? then 2 else 0) + (if local == isServer then 1 else 0)
  }

  predicate InitiatedLocally(isServer: bool, raw: nat) {
    (raw % 2 == 1) == isServer
  }

  function RawDir(raw: nat): Dir {
    if raw / 2 % 2 != 0 then Uni else Bidi
  }

  /** The parts of a raw identifier. */
  function Split(raw: nat): StreamId {
    StreamId(raw / 4, RawDir(raw), raw % 2 == 1)
  }

  function Raw(id: StreamId): nat {
    4 * id.index + (if id.dir.Uni? then 2 else 0) + (if id.byServer then 1 else 0)
  }

  predicate Local(isServer: bool, id: StreamId) {
    id.byServer == isServer
  }

  /** Raw and Split are inverse to each other: no two streams share an identifier. */
  lemma SplitRaw(id: StreamId, raw: nat)
    ensures Split(Raw(id)) == id
    ensures Raw(Split(raw)) == raw
  {
    assert Raw(id) / 4 == id.index;
    assert Raw(id) / 2 == 2 * id.index + (if id.dir.Uni? then 1 else 0);
    assert raw == 4 * (raw / 4) + raw % 4;
    assert raw / 2 == 2 * (raw / 4) + raw % 4 / 2;
  }

  /**
   Both roles agree on who opened each stream, and an endpoint's numbering is
   invertible: the identifier it gives the index-th stream names that stream,
   and only that one.
   */
  lemma RolesAgree(isServer: bool, index: nat, dir: Dir, local: bool)
    ensures Split(RawId(isServer, index, dir, local)) == StreamId(index, dir, local == isServer)
    ensures InitiatedLocally(isServer, RawId(isServer, index, dir, local)) == local
    ensures InitiatedLocally(!isServer, RawId(isServer, index, dir, local)) == !local
    ensures Local(isServer, Split(RawId(isServer, index, dir, local))) == local
  {
    var id := StreamId(index, dir, local == isServer);
    SplitRaw(id, 0);
    assert RawId(isServer, index, dir, local) == Raw(id);
    assert Raw(id) % 2 == (if id.byServer then 1 else 0);
  }
}
