// The pieces of the reference-counted objects that are updated in place, as objects: the count, the growing
// array of a buffer group and the mapping count of a buffer. What a method does to its object is given by a
// function of the value that the step system keeps for the object, and the step does the same.
module HostParts {
  import opened Bags
  import opened HostObjects
  import opened HostSteps

  // ---- what happens to the values ----

  // A released count, and whether the reference was the last.
  function AfterRelease(count: nat): (nat, bool)
    requires count > 0
  {
    (count - 1, count == 1)
  }

  // The record of a group at an index.
  function RecordAt(group: Body, i: nat): Option<Id>
    requires group.Slots?
  {
    if i < |group.slots| then Some(group.slots[i]) else None
  }

  function AfterAdd(group: Body, b: Id): Body
    requires group.Slots?
  {
    Slots(group.slots + [b])
  }

  // The group after a record is set, and the buffer whose reference is to be dropped.
  function AfterSet(group: Body, i: nat, b: Id): (Body, Id)
    requires group.Slots?
  {
    match RecordAt(group, i)
    case Some(before) => (Slots(group.slots[i := b]), before)
    case None => (group, b)
  }

  function AfterMap(mapping: Body, size: nat, offset: nat, length: nat): (Body, bool)
    requires mapping.Mappable?
  {
    if offset + length <= size then (Mappable(mapping.mapCount + 1), true) else (mapping, false)
  }

  function AfterUnmap(mapping: Body, size: nat, delta: int): (Body, bool)
    requires mapping.Mappable? && mapping.mapCount > 0
  {
    if 0 <= delta <= size then (Mappable(mapping.mapCount - 1), true) else (mapping, false)
  }

  // A record read back is the one last written there; setting one that is not in use changes none and gives
  // the caller's reference back.
  lemma RecordsKept(group: Body, i: nat, b: Id, j: nat)
    requires group.Slots?
    ensures RecordAt(AfterAdd(group, b), j) == if j == |group.slots| then Some(b) else RecordAt(group, j)
    ensures var (after, dropped) := AfterSet(group, i, b);
            && after.Slots?
            && RecordAt(after, j) == (if j == i && RecordAt(group, i).Some? then Some(b) else RecordAt(group, j))
            && multiset(after.slots) + multiset{dropped} == multiset(group.slots) + multiset{b}
  {
    if i < |group.slots| {
      assert group.slots == group.slots[..i] + [group.slots[i]] + group.slots[i + 1..];
      assert group.slots[i := b] == group.slots[..i] + [b] + group.slots[i + 1..];
    }
  }

  // ---- the objects ----

  // struct xrp_refcounted with its helpers
  class RefCounted {
    var count: nat

    constructor ()
      ensures count == 1
    {
      count := 1;
    }

    method Retain()
      modifies this
      ensures count == old(count) + 1
    {
      count := count + 1;
    }

    method LastRelease() returns (last: bool)
      requires count > 0
      modifies this
      ensures (count, last) == AfterRelease(old(count))
    {
      count := count - 1;
      last := count == 0;
    }
  }

  // struct xrp_buffer_group: records in use are those below count.
  class BufferGroup {
    var records: array<Id>
    var count: nat

    ghost predicate Valid()
      reads this
    {
      count <= records.Length
    }

    // The group as the step system sees it.
    ghost function Abs(): (group: Body)
      requires Valid()
      reads this, records
      ensures group.Slots?
    {
      Slots(records[..count])
    }

    constructor ()
      ensures Valid() && Abs() == Slots([]) && fresh(records)
    {
      records := new Id[0];
      count := 0;
    }

    // xrp_add_buffer_to_group; grown says whether realloc succeeds. The index of the new record, or -1.
    method Add(b: Id, grown: bool) returns (index: int)
      requires Valid()
      modifies this, records
      ensures Valid() && (records == old(records) || fresh(records))
      ensures index == -1 <==> old(count) == old(records.Length) && !grown
      ensures index != -1 ==> index == old(count) && Abs() == AfterAdd(old(Abs()), b)
      ensures index == -1 ==> Abs() == old(Abs())
      ensures records.Length == if index != -1 && old(count) == old(records.Length) then (old(records.Length) + 2) * 2
                                else old(records.Length)
    {
      if count == records.Length {
        if !grown {
          return -1;
        }
        var larger := new Id[(records.Length + 2) * 2](_ => b);
        forall k | 0 <= k < count { larger[k] := records[k]; }
        records := larger;
        assert records[..count] == old(records[..count]);
      }
      records[count] := b;
      index := count;
      count := count + 1;
    }

    // The locked part of xrp_set_buffer_in_group: the buffer whose reference is to be dropped.
    method Set(i: nat, b: Id) returns (dropped: Id, ok: bool)
      requires Valid()
      modifies records
      ensures Valid() && (ok <==> RecordAt(old(Abs()), i).Some?)
      ensures (Abs(), dropped) == AfterSet(old(Abs()), i, b)
    {
      ok := i < count;
      dropped := b;
      if ok {
        dropped := records[i];
        records[i] := b;
        assert records[..count] == old(records[..count])[i := b];
      }
    }

    // xrp_get_buffer_from_group
    method Get(i: nat) returns (b: Option<Id>)
      requires Valid()
      ensures b == RecordAt(Abs(), i)
    {
      b := if i < count then Some(records[i]) else None;
    }

    // The loop of xrp_release_buffer_group: one reference of each record is dropped, in order.
    method ReleaseRecords() returns (work: seq<Op>)
      requires Valid()
      ensures work == Releases(Abs().slots)
    {
      work := [];
      var i := 0;
      while i < count
        invariant i <= count && |work| == i && forall k :: 0 <= k < i ==> work[k] == Release(records[k])
      {
        work := work + [Release(records[i])];
        i := i + 1;
      }
      assert work == Releases(records[..count]);
    }
  }

  // The mapping count of struct xrp_buffer.
  class Mapping {
    const size: nat
    var mapCount: nat

    // The buffer as the step system sees it.
    ghost function Abs(): (mapping: Body)
      reads this
      ensures mapping.Mappable?
    {
      Mappable(mapCount)
    }

    // xrp_map_buffer: whether the range lies inside the buffer. Its test cannot overflow.
    method Map(offset: nat, length: nat) returns (ok: bool)
      modifies this
      ensures (Abs(), ok) == AfterMap(old(Abs()), size, offset, length)
      ensures ok <==> offset + length <= size
      ensures mapCount == old(mapCount) + if ok then 1 else 0
    {
      ok := offset <= size && length <= size - offset;
      if ok {
        mapCount := mapCount + 1;
      }
    }

    // xrp_unmap_buffer, for an address delta bytes behind the start of the buffer
    method Unmap(delta: int) returns (ok: bool)
      requires mapCount > 0
      modifies this
      ensures (Abs(), ok) == AfterUnmap(old(Abs()), size, delta)
      ensures ok <==> 0 <= delta <= size
      ensures mapCount == old(mapCount) - if ok then 1 else 0
    {
      ok := delta >= 0 && delta <= size;
      if ok {
        mapCount := mapCount - 1;
      }
    }
  }

  // ---- the steps do the same ----

  // The thread goes on with the work of the last release exactly if the helper reports it.
  lemma ReleaseIsLastRelease(s: State, t: Tid, id: Id, rest: seq<Op>, ok: bool)
    requires OpFaultless(s, t, Release(id))
    ensures var s' := ApplyOp(s, t, Release(id), rest, ok);
            var (count, last) := AfterRelease(s.heap[id].count);
            && id in s'.heap && s'.heap[id] == s.heap[id].(count := count)
            && Ops(s', t) == (if last then DeathOps(id, s.heap[id].body) else []) + rest
  {
    hide DeathOps;
    assert [] + rest == rest;
  }

  // Adding retains the buffer and does to the group what Add does.
  lemma AddSlotIsAdd(s: State, t: Tid, g: Id, b: Id)
    requires MayCall(s, AddSlot(g, b, true)) && CallFaultless(s, AddSlot(g, b, true))
    ensures var s' := ApplyCall(s, t, AddSlot(g, b, true));
            && s'.heap.Keys == s.heap.Keys
            && s'.heap[g].body == AfterAdd(s.heap[g].body, b)
            && (forall x <- s.heap :: s'.heap[x].count == s.heap[x].count + if x == b then 1 else 0)
  {
  }

  // Setting does to the group what Set does and leaves the thread to drop the buffer Set returns.
  lemma SetSlotIsSet(s: State, t: Tid, g: Id, i: nat, b: Id, ok: bool)
    requires OpFaultless(s, t, SetSlot(g, i, b))
    ensures var s' := ApplyOp(s, t, SetSlot(g, i, b), [], ok);
            var (group, dropped) := AfterSet(s.heap[g].body, i, b);
            g in s'.heap && s'.heap[g].body == group && Ops(s', t) == [Release(dropped)]
  {
  }

  // The client is given what Get returns.
  lemma GetSlotIsGet(s: State, t: Tid, g: Id, i: nat)
    requires MayCall(s, GetSlot(g, i)) && CallFaultless(s, GetSlot(g, i))
    ensures var s' := ApplyCall(s, t, GetSlot(g, i));
            var b := RecordAt(s.heap[g].body, i);
            && s'.handles == s.handles + (if b.Some? then multiset{b.value} else multiset{})
            && (b.Some? ==> b.value in s'.heap && s'.heap[b.value].count == s.heap[b.value].count + 1)
  {
  }

  // Mapping counts as Map counts, and takes a reference exactly if the range lies inside the buffer.
  lemma MapBufferIsMap(s: State, t: Tid, b: Id, offset: nat, length: nat)
    requires MayCall(s, MapBuffer(b, offset, length)) && CallFaultless(s, MapBuffer(b, offset, length))
    ensures var s' := ApplyCall(s, t, MapBuffer(b, offset, length));
            var (mapping, ok) := AfterMap(s.heap[b].body, b.size, offset, length);
            && b in s'.heap && s'.heap[b].body == mapping && (ok <==> offset + length <= b.size)
    ensures var s' := ApplyCall(s, t, MapBuffer(b, offset, length));
            var before := s.heap[b];
            if offset + length <= b.size then
              s' == s.(heap := s.heap[b := Cell(before.count + 1, Mappable(before.body.mapCount + 1))], maps := s.maps + multiset{b})
            else
              s' == s
  {
  }

  // Unmapping likewise, and leaves the thread to release the reference exactly if the address is one of the buffer
  // or its end.
  lemma UnmapBufferIsUnmap(s: State, t: Tid, b: Id, delta: int)
    requires MayCall(s, UnmapBuffer(b, delta)) && CallFaultless(s, UnmapBuffer(b, delta)) && Ops(s, t) == []
    ensures var s' := ApplyCall(s, t, UnmapBuffer(b, delta));
            var (mapping, ok) := AfterUnmap(s.heap[b].body, b.size, delta);
            && b in s'.heap && s'.heap[b].body == mapping && (ok <==> 0 <= delta <= b.size)
    ensures var s' := ApplyCall(s, t, UnmapBuffer(b, delta));
            var before := s.heap[b];
            if 0 <= delta <= b.size then
              && s'.heap == s.heap[b := Cell(before.count, Mappable(before.body.mapCount - 1))]
              && s'.maps == s.maps - multiset{b} && Ops(s', t) == [Release(b)]
            else
              s' == s
  {
  }

  // What has been mapped can be unmapped, whenever that is done: an address inside a range that was accepted is
  // accepted, and the reference that mapping took is given back.
  lemma MappedCanBeUnmapped(s: State, t: Tid, b: Id, offset: nat, length: nat, s': State, t': Tid, delta: int)
    requires MayCall(s, MapBuffer(b, offset, length)) && CallFaultless(s, MapBuffer(b, offset, length))
    requires ApplyCall(s, t, MapBuffer(b, offset, length)).maps[b] > s.maps[b] && offset <= delta <= offset + length
    requires MayCall(s', UnmapBuffer(b, delta)) && CallFaultless(s', UnmapBuffer(b, delta))
    ensures var s'' := ApplyCall(s', t', UnmapBuffer(b, delta));
            && s''.maps == s'.maps - multiset{b} && Ops(s'', t') == [Release(b)]
            && s''.heap[b].body.mapCount == s'.heap[b].body.mapCount - 1
  {
  }

  // The wait of xrp_wait goes on exactly while the status is pending; publishing wakes every waiter.
  lemma CompletionEndsWaits(s: State, t: Tid, e: Id, result: Status, rest: seq<Op>, ok: bool, w: Tid)
    requires OpFaultless(s, t, Complete(e, result)) && result != PENDING
    requires w != t && Ops(s, w) == [Wait(e)]
    ensures var s' := ApplyOp(s, t, Complete(e, result), rest, ok);
            && w !in s'.asleep && OpFaultless(s', w, Wait(e))
            && Ops(ApplyOp(s', w, Wait(e), [], true), w) == []
            && ApplyOp(s', w, Wait(e), [], true).handles == s'.handles + multiset{e}
  {
  }
}
