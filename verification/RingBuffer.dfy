// The ring-buffer writer, against a reader that may take bytes at any moment. The reader is not in the
// repository; it is an environment that only moves read forward, circularly, up to write.
module RingBuffer {

  type Byte = b: int | 0 <= b < 256

  function Min(a: nat, b: nat): nat {
    if a < b then a else b
  }

  // Positions below 2 * size brought into the buffer.
  function Wrap(size: nat, x: nat): nat {
    if x >= size then x - size else x
  }

  // Bytes stored from read up to write.
  function Distance(size: nat, read: nat, write: nat): nat
    requires read < size && write < size
  {
    if write >= read then write - read else write + size - read
  }

  // What xrp_rb_write_some takes for the room it may fill in one go, from its snapshot of read.
  function Room(size: nat, read: nat, write: nat): nat
    requires read < size && write < size
  {
    if read > write then read - 1 - write else if read != 0 then size - write else size - 1 - write
  }

  // The position of the i-th stored byte.
  function Slot(size: nat, read: nat, i: nat): nat {
    Wrap(size, read + i)
  }

  // The bytes from read up to write, in order.
  ghost function Stored(data: seq<Byte>, read: nat, write: nat): (s: seq<Byte>)
    requires read < |data| && write < |data|
    ensures |s| == Distance(|data|, read, write)
    ensures forall i :: 0 <= i < |s| ==> s[i] == data[Slot(|data|, read, i)]
  {
    seq(Distance(|data|, read, write), i requires 0 <= i < Distance(|data|, read, write) => data[Slot(|data|, read, i)])
  }

  lemma StoredSame(d: seq<Byte>, d': seq<Byte>, read: nat, write: nat)
    requires |d'| == |d| && read < |d| && write < |d|
    requires forall i :: 0 <= i < Distance(|d|, read, write) ==> d'[Slot(|d|, read, i)] == d[Slot(|d|, read, i)]
    ensures Stored(d', read, write) == Stored(d, read, write)
  {
  }

  // Taking k bytes off the front.
  lemma StoredAdvance(d: seq<Byte>, read: nat, write: nat, k: nat)
    requires read < |d| && write < |d| && k <= Distance(|d|, read, write)
    ensures var read' := Wrap(|d|, read + k);
            && read' < |d| && (k == 0 ==> read' == read)
            && Distance(|d|, read', write) == Distance(|d|, read, write) - k
            && Stored(d, read, write) == Stored(d, read, write)[..k] + Stored(d, read', write)
  {
    var a, b := Stored(d, read, write), Stored(d, Wrap(|d|, read + k), write);
    forall i | 0 <= i < |b| ensures b[i] == a[k + i] {
      assert b[i] == d[Slot(|d|, Wrap(|d|, read + k), i)] && a[k + i] == d[Slot(|d|, read, k + i)];
    }
  }

  // Filling positions behind write, at most Room of them, adds their bytes at the end.
  lemma StoredExtend(d: seq<Byte>, read: nat, write: nat, n: nat, write': nat)
    requires read < |d| && write < |d| && Distance(|d|, read, write) + n < |d| && write + n <= |d|
    requires write' == if write + n == |d| then 0 else write + n
    ensures Distance(|d|, read, write') == Distance(|d|, read, write) + n
    ensures Stored(d, read, write') == Stored(d, read, write) + d[write..write + n]
  {
    var a, b := Stored(d, read, write'), Stored(d, read, write) + d[write..write + n];
    forall i | 0 <= i < |b| ensures a[i] == b[i] {
      assert a[i] == d[Slot(|d|, read, i)];
    }
  }

  class Ring {
    const size: nat
    const data: array<Byte>
    var read: nat
    var write: nat
    ghost var accepted: seq<Byte>  // every byte the writer has reported as written
    ghost var consumed: seq<Byte>  // every byte the reader has taken

    // What was accepted is what was consumed and what is stored, in order.
    ghost predicate Valid()
      reads this, data
    {
      && data.Length == size && read < size && write < size
      && accepted == consumed + Stored(data[..], read, write)
    }

    function Used(): nat
      requires read < size && write < size
      reads this
    {
      Distance(size, read, write)
    }

    // One slot always stays free, so that a full buffer does not look empty.
    function Free(): nat
      requires read < size && write < size
      reads this
    {
      size - 1 - Used()
    }

    constructor (size: nat)
      requires size > 0
      ensures Valid() && this.size == size && accepted == [] && read == write == 0 && fresh(data)
    {
      this.size := size;
      data := new Byte[size](_ => 0);
      read, write := 0, 0;
      accepted, consumed := [], [];
    }

    // The environment: the reader takes any number of stored bytes, none if it is idle.
    method ReaderMoves(idle: bool)
      requires Valid()
      modifies this`read, this`consumed
      ensures Valid() && old(consumed) <= consumed
      ensures Used() <= old(Used())
      ensures idle ==> read == old(read) && consumed == old(consumed)
    {
      hide Stored, Wrap, Distance;
      var k: nat := *;
      if k > Used() || idle {
        k := 0;
      }
      ghost var d := data[..];
      assert |d| == size;
      StoredAdvance(d, read, write, k);
      Reassociate(consumed, Stored(d, read, write)[..k], Stored(d, Wrap(size, read + k), write));
      consumed := consumed + Stored(d, read, write)[..k];
      read := Wrap(size, read + k);
    }

    // xrp_rb_write_some, with the reader moving between any two accesses to the buffer.
    method WriteSome(buf: seq<Byte>, idle: bool) returns (tail: nat)
      requires Valid()
      modifies this`read, this`write, this`accepted, this`consumed, data
      ensures Valid() && old(consumed) <= consumed
      ensures tail <= |buf| && accepted == old(accepted) + buf[..tail]
      ensures tail == 0 ==> buf == [] || old(Free()) == 0
      ensures tail <= size - 1
      ensures Free() >= old(Free()) - tail
      ensures idle ==> consumed == old(consumed) && read == old(read)
    {
      hide Stored, Wrap, Slot, Distance, Room;
      ReaderMoves(idle);
      var r := read;
      ReaderMoves(idle);
      var w := write;
      tail := Min(|buf|, Room(size, r, w));
      RoomFits(size, r, w);
      Copy(buf[..tail], r, w, idle);
      ReaderMoves(idle);
      Publish(buf[..tail]);
    }

    // Its end: the bytes behind write become stored.
    method Publish(bytes: seq<Byte>)
      requires Valid() && Used() + |bytes| < size && write + |bytes| <= size && data[write..write + |bytes|] == bytes
      modifies this`write, this`accepted
      ensures Valid() && accepted == old(accepted) + bytes && Used() == old(Used()) + |bytes|
    {
      hide Stored, Wrap, Slot, Distance, Room;
      var end := write + |bytes|;
      ghost var d := data[..];
      assert |d| == size && d[write..end] == bytes;
      StoredExtend(d, read, write, |bytes|, if end == size then 0 else end);
      Reassociate(consumed, Stored(d, read, write), bytes);
      write := end;
      if write == size {
        write := 0;
      }
      accepted := accepted + bytes;
    }

    // Its memcpy, byte by byte, with r the snapshot of read.
    method Copy(bytes: seq<Byte>, r: nat, w: nat, idle: bool)
      requires Valid() && r < size && write == w && Used() <= Distance(size, r, w) && |bytes| <= Room(size, r, w)
      requires w + Room(size, r, w) <= size
      modifies this`read, this`consumed, data
      ensures Valid() && old(consumed) <= consumed && Used() <= old(Used())
      ensures data[w..w + |bytes|] == bytes
      ensures idle ==> consumed == old(consumed) && read == old(read)
    {
      hide Stored, Wrap, Slot, Distance, Room;
      var i := 0;
      while i < |bytes|
        invariant Valid() && i <= |bytes| && old(consumed) <= consumed && Used() <= old(Used())
        invariant data[w..w + i] == bytes[..i]
        invariant idle ==> consumed == old(consumed) && read == old(read)
      {
        ReaderMoves(idle);
        ghost var before := data[..];
        assert |before| == size;
        FillKeepsStored(before, r, w, read, i, bytes[i]);
        data[w + i] := bytes[i];
        assert data[..] == before[w + i := bytes[i]];
        assert data[w..w + (i + 1)] == data[w..w + i] + [bytes[i]];
        i := i + 1;
      }
    }

    // xrp_rb_write: everything accepted is stored in order, at least what fitted at the start, and exactly
    // that if the reader is idle.
    method Write(buf: seq<Byte>, idle: bool) returns (total: nat)
      requires Valid()
      modifies this`read, this`write, this`accepted, this`consumed, data
      ensures Valid() && old(consumed) <= consumed
      ensures total <= |buf| && accepted == old(accepted) + buf[..total]
      ensures total >= Min(|buf|, old(Free()))
      ensures idle ==> total == Min(|buf|, old(Free())) && consumed == old(consumed)
    {
      total := 0;
      ghost var was := consumed;
      while total < |buf|
        invariant Valid() && was <= consumed
        invariant total <= |buf| && accepted == old(accepted) + buf[..total]
        invariant total + Free() >= old(Free())
        invariant idle ==> consumed == was && read == old(read) && total + Free() == old(Free())
      {
        var rest := buf[total..];
        ghost var free := Free();
        var n := WriteSome(rest, idle);
        if n == 0 {
          break;
        }
        assert buf[..total + n] == buf[..total] + rest[..n];
        total := total + n;
      }
    }
  }

  // Room stays within the buffer and leaves one slot free; there is none only if the buffer is full.
  lemma RoomFits(size: nat, r: nat, w: nat)
    requires r < size && w < size
    ensures w + Room(size, r, w) <= size && Distance(size, r, w) + Room(size, r, w) <= size - 1
    ensures Room(size, r, w) == 0 ==> Distance(size, r, w) == size - 1
    ensures Distance(size, r, w) <= size - 1
  {
  }

  // The byte the writer fills next is not one the reader has still to take, even if its snapshot r of read
  // is out of date.
  lemma FillKeepsStored(d: seq<Byte>, r: nat, w: nat, read: nat, i: nat, b: Byte)
    requires r < |d| && w < |d| && read < |d| && i < Room(|d|, r, w)
    requires Distance(|d|, read, w) <= Distance(|d|, r, w)
    ensures w + i < |d| && Stored(d[w + i := b], read, w) == Stored(d, read, w)
  {
    forall j | 0 <= j < Distance(|d|, read, w) ensures Slot(|d|, read, j) != w + i { }
    StoredSame(d, d[w + i := b], read, w);
  }

  lemma Reassociate(a: seq<Byte>, b: seq<Byte>, c: seq<Byte>)
    ensures a + (b + c) == (a + b) + c && a <= a + b
  {
  }
}
