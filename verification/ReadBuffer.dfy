/**
 The read buffer of a stream: a slice that is read from its front and appended to at
 its end, and whose read part is reclaimed in place only when data would not fit.
 */
module ReadBuffers {
  import opened Basics

  /** What a buffer holds, how much of it was read, and the capacity behind it. */
  datatype Slice = Slice(bytes: seq<byte>, off: nat, room: nat)

  predicate Ok(s: Slice) {
    (s.off == 0 || s.off < |s.bytes|) && |s.bytes| <= s.room
  }

  function Unread(s: Slice): seq<byte>
    requires s.off <= |s.bytes|
  {
    s.bytes[s.off..]
  }

  /** Room for n bytes more: what there is, or what is needed, or up to twice what there was. */
  predicate Grows(s: Slice, n: nat, room: nat) {
    if |s.bytes| + n <= s.room then room == s.room
    else |s.bytes| + n <= room <= Max(|s.bytes| + n, 2 * s.room)
  }

  function Compacted(s: Slice, n: nat): Slice
    requires s.off <= |s.bytes|
  {
    if s.off > 0 && |s.bytes| + n > s.room then Slice(s.bytes[s.off..], 0, s.room) else s
  }

  /** p is appended, after the read part was reclaimed if it has to be. */
  ghost predicate Buffers(s: Slice, p: seq<byte>, s': Slice)
    requires s.off <= |s.bytes|
  {
    var c := Compacted(s, |p|);
    Grows(c, |p|, s'.room) && s' == Slice(c.bytes + p, c.off, s'.room)
  }

  /** A first-in first-out queue, whenever it is compacted and however it grows. */
  lemma {:induction false} BuffersQueue(s: Slice, p: seq<byte>, s': Slice)
    requires Ok(s) && Buffers(s, p, s')
    ensures Ok(s') && Unread(s') == Unread(s) + p
  {
    var c := Compacted(s, |p|);
    assert Unread(c) == Unread(s);
    assert (c.bytes + p)[c.off..] == c.bytes[c.off..] + p;
  }

  /** Data within the window never takes more than two windows. */
  lemma {:induction false} BuffersBound(s: Slice, p: seq<byte>, s': Slice, window: nat)
    requires Ok(s) && Buffers(s, p, s') && s.room <= 2 * window && |Unread(s)| + |p| <= window
    ensures s'.room <= 2 * window
  {
  }

  /** The buffer as an array, with the bytes moved inside it. */
  class ReadBuffer {
    var data: array<byte>
    var len: nat
    var off: nat

    ghost predicate Valid()
      reads this, data
    {
      off <= len <= data.Length && Ok(Contents())
    }

    ghost function Contents(): Slice
      requires len <= data.Length
      reads this, data
    {
      Slice(data[..len], off, data.Length)
    }

    constructor ()
      ensures Valid() && fresh(data) && Contents() == Slice([], 0, 0)
    {
      data := new byte[0];
      len, off := 0, 0;
    }

    /** Moves what is unread to the front, byte by byte in the same array. */
    method MoveDown()
      requires off <= len <= data.Length
      modifies this`len, this`off, data
      ensures off <= len <= data.Length && Contents() == Slice(old(data[off..len]), 0, data.Length)
    {
      ghost var before := data[..];
      var from, n := off, len - off;
      for i := 0 to n
        invariant from + n <= data.Length && data[..i] == before[from..from + i] && data[i..] == before[i..]
      {
        assert data[from + i] == data[i..][from] == before[from + i];
        data[i] := data[from + i];
        assert before[from..from + i + 1] == before[from..from + i] + [before[from + i]];
        assert data[..i + 1] == data[..i] + [before[from + i]];
        assert data[i + 1..] == before[i + 1..];
      }
      len, off := n, 0;
    }

    /** Makes room for n bytes more, in an array of its own. */
    method Grow(n: nat)
      requires off <= len < len + n && len + n > data.Length >= len
      modifies this`data
      ensures fresh(data) && off <= len <= data.Length && data[..len] == old(data[..len])
      ensures len + n <= data.Length <= Max(len + n, 2 * old(data.Length))
    {
      assert len + n <= Max(len + n, 2 * data.Length);
      var room: nat :| len + n <= room <= Max(len + n, 2 * data.Length);
      var bigger := new byte[room];
      forall i | 0 <= i < len {
        bigger[i] := data[i];
      }
      assert bigger[..len] == data[..len];
      data := bigger;
    }

    /** Writes p behind what is there. */
    method Put(p: seq<byte>)
      requires off <= len <= len + |p| <= data.Length
      modifies this`len, data
      ensures len == old(len) + |p| <= data.Length && data[..len] == old(data[..len]) + p
    {
      forall i | 0 <= i < |p| {
        data[len + i] := p[i];
      }
      assert data[..len + |p|] == old(data[..len]) + p;
      len := len + |p|;
    }

    /** Appends p, reclaiming the read part first when it would not fit. */
    method Append(p: seq<byte>)
      requires Valid()
      modifies this, data
      ensures Valid() && (fresh(data) || data == old(data)) && Buffers(old(Contents()), p, Contents())
      ensures Unread(Contents()) == old(Unread(Contents())) + p
    {
      ghost var before := Contents();
      if off > 0 && len + |p| > data.Length {
        MoveDown();
        assert Contents().bytes == before.bytes[before.off..];
      }
      ghost var c := Contents();
      assert c == Compacted(before, |p|);
      if len + |p| > data.Length {
        Grow(|p|);
      }
      assert Grows(c, |p|, data.Length) && data[..len] == c.bytes;
      hide Grows, Compacted, Ok;
      Put(p);
      BuffersQueue(before, p, Contents());
    }

    /** Takes up to n bytes from the front; a buffer read to its end starts over. */
    method TakeOut(n: nat) returns (p: seq<byte>)
      requires Valid()
      modifies this`len, this`off
      ensures Valid() && |p| == Min(n, |old(Unread(Contents()))|)
      ensures p + Unread(Contents()) == old(Unread(Contents()))
    {
      var k := Min(n, len - off);
      p := data[off..off + k];
      assert data[off..len] == p + data[off + k..len];
      assert data[..len][off..] == data[off..len] && data[..len][off + k..] == data[off + k..len];
      off := off + k;
      if off == len {
        len, off := 0, 0;
      }
    }
  }
}
