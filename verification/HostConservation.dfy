// Every step of the XRP host keeps reference counts equal to the number of owners. Each lemma follows one
// claim x through one step.
module HostConservation {
  import opened Bags
  import opened HostObjects
  import opened HostSteps
  import opened HostInvariant

  ghost function CellClaimsAt(s: State, id: Id, x: Claim): nat {
    if id in s.heap then CellClaims(id, s.heap[id], x) else 0
  }

  // How the tally moves when one object is written.
  lemma EditHeap(s: State, s': State, id: Id, c: Cell, x: Claim)
    requires s'.heap == s.heap[id := c] && s'.threads == s.threads
    ensures Tally(s', x) + CellClaimsAt(s, id, x) + ClientTally(s, x)
            == Tally(s, x) + CellClaims(id, c, x) + ClientTally(s', x)
  {
    SumPut(s.heap, (id, c) => CellClaims(id, c, x), id, c);
  }

  // How the tally moves when a thread's work changes.
  lemma EditThread(s: State, s': State, t: Tid, ops: seq<Op>, x: Claim)
    requires s'.heap == s.heap && s'.threads == s.threads[t := ops]
    ensures Tally(s', x) + OpsClaims(Ops(s, t), x) + ClientTally(s, x)
            == Tally(s, x) + OpsClaims(ops, x) + ClientTally(s', x)
  {
    SumPut(s.threads, (t: Tid, ops) => OpsClaims(ops, x), t, ops);
  }

  lemma Edit(s: State, s': State, id: Id, c: Cell, t: Tid, ops: seq<Op>, x: Claim)
    requires s'.heap == s.heap[id := c] && s'.threads == s.threads[t := ops]
    ensures Tally(s', x) + CellClaimsAt(s, id, x) + OpsClaims(Ops(s, t), x) + ClientTally(s, x)
            == Tally(s, x) + CellClaims(id, c, x) + OpsClaims(ops, x) + ClientTally(s', x)
  {
    var s1 := s.(heap := s'.heap);
    EditHeap(s, s1, id, c, x);
    EditThread(s1, s', t, ops, x);
  }

  // ---- client calls ----

  // A new object with one reference, which its creator gets as a handle.
  lemma NewBalances(s: State, id: Id, body: Body, x: Claim)
    requires Balanced(s, x) && id !in s.heap && !body.Signal?
    requires id.Dev? || (id.Buf? && id.device.None?) || (id.Grp? && body == Slots([]))
    ensures Balanced(Granted(Alloc(s, id, body), id), x)
  {
    hide Sum;
    EditHeap(s, Granted(Alloc(s, id, body), id), id, Cell(1, body), x);
  }

  lemma RetainBalances(s: State, id: Id, x: Claim)
    requires Balanced(s, x) && id in s.heap && s.heap[id].count > 0
    ensures Balanced(Granted(Retained(s, id), id), x)
  {
    hide Sum;
    EditHeap(s, Granted(Retained(s, id), id), id, Counted(s.heap[id], 1), x);
  }

  lemma MapBalances(s: State, t: Tid, b: Id, offset: nat, size: nat, x: Claim)
    requires MayCall(s, MapBuffer(b, offset, size)) && CallFaultless(s, MapBuffer(b, offset, size))
    requires Balanced(s, x) && s.heap[b].count > 0
    ensures Balanced(ApplyCall(s, t, MapBuffer(b, offset, size)), x)
  {
    hide Sum;
    var s' := ApplyCall(s, t, MapBuffer(b, offset, size));
    if s' != s {
      EditHeap(s, s', b, s'.heap[b], x);
    }
  }

  lemma AddSlotBalances(s: State, t: Tid, g: Id, b: Id, ok: bool, x: Claim)
    requires MayCall(s, AddSlot(g, b, ok)) && CallFaultless(s, AddSlot(g, b, ok))
    requires Balanced(s, x) && s.heap[g].count > 0 && s.heap[b].count > 0
    ensures Balanced(ApplyCall(s, t, AddSlot(g, b, ok)), x)
  {
    hide Sum;
    if ok {
      var s' := ApplyCall(s, t, AddSlot(g, b, ok));
      var s1 := Retained(s, b);
      EditHeap(s, s1, b, Counted(s.heap[b], 1), x);
      EditHeap(s1, s', g, s'.heap[g], x);
    }
  }

  // An idle client hands one of its references over to the call it starts.
  lemma HandOverBalances(s: State, t: Tid, id: Id, op: Op, x: Claim)
    requires Balanced(s, x) && Ops(s, t) == [] && id in s.handles && OpClaims(op, x) == One(Ref(id), x)
    ensures Balanced(Doing(s.(handles := s.handles - multiset{id}), t, [op]), x)
  {
    hide Sum;
    EditThread(s, Doing(s.(handles := s.handles - multiset{id}), t, [op]), t, [op], x);
    OpsCons(op, [], x);
  }

  lemma UnmapBalances(s: State, t: Tid, b: Id, delta: int, x: Claim)
    requires Balanced(s, x) && Ops(s, t) == []
    requires MayCall(s, UnmapBuffer(b, delta)) && CallFaultless(s, UnmapBuffer(b, delta))
    ensures Balanced(ApplyCall(s, t, UnmapBuffer(b, delta)), x)
  {
    hide Sum;
    var s' := ApplyCall(s, t, UnmapBuffer(b, delta));
    if s' != s {
      Edit(s, s', b, s'.heap[b], t, [Release(b)], x);
      OpsCons(Release(b), [], x);
    }
  }

  // A retain whose new reference belongs to the operation the thread goes on with.
  lemma RetainForOpBalances(s: State, t: Tid, id: Id, op: Op, x: Claim)
    requires Balanced(s, x) && Ops(s, t) == [] && id in s.heap && s.heap[id].count > 0
    requires OpClaims(op, x) == One(Ref(id), x)
    ensures Balanced(Doing(Retained(s, id), t, [op]), x)
  {
    hide Sum;
    Edit(s, Doing(Retained(s, id), t, [op]), id, Counted(s.heap[id], 1), t, [op], x);
    OpsCons(op, [], x);
  }

  lemma SetInGroupBalances(s: State, t: Tid, g: Id, i: nat, b: Id, x: Claim)
    requires MayCall(s, SetInGroup(g, i, b)) && CallFaultless(s, SetInGroup(g, i, b))
    requires Balanced(s, x) && Ops(s, t) == [] && s.heap[b].count > 0
    ensures Balanced(ApplyCall(s, t, SetInGroup(g, i, b)), x)
  {
    hide Sum;
    var s' := ApplyCall(s, t, SetInGroup(g, i, b));
    Edit(s, s', b, Counted(s.heap[b], 1), t, [SetSlot(g, i, b)], x);
    OpsCons(SetSlot(g, i, b), [], x);
  }

  // The tally is n short of what the counts promise.
  ghost predicate Short(s: State, x: Claim, n: nat) {
    Tally(s, x) + n == Expected(s, x)
  }

  // A new event holds its queue; its two references and its completion are still to be placed.
  lemma EventShort(s: State, s1: State, s2: State, q: Id, e: Id, x: Claim)
    requires Balanced(s, x) && q.Que? && q in s.heap && s.heap[q].count > 0
    requires e == Evt(s.next, q) && e !in s.heap
    requires s1 == Retained(s, q)
    requires s2 == s1.(heap := s1.heap[e := Cell(2, Signal(PENDING))])
    ensures Short(s2, x, 2 * One(Ref(e), x) + One(Owe(e), x))
  {
    hide Sum;
    EditHeap(s, s1, q, Counted(s.heap[q], 1), x);
    EditHeap(s1, s2, e, Cell(2, Signal(PENDING)), x);
  }

  lemma RetainShort(s: State, id: Id, x: Claim, n: nat)
    requires Short(s, x, n) && id in s.heap && s.heap[id].count > 0
    ensures Short(Retained(s, id), x, n + One(Ref(id), x))
  {
    hide Sum;
    EditHeap(s, Retained(s, id), id, Counted(s.heap[id], 1), x);
  }

  // The finished request and the call that will push it take everything that is still to be placed.
  lemma RequestBalances(s: State, s': State, t: Tid, r: Id, x: Claim)
    requires r.Req? && r !in s.heap && Ops(s, t) == [] && r.target in s.handles
    requires Short(s, x, RefTo(r.event, x) * 2 + RefTo(r.group, x) + (if r.event.Some? then One(Owe(r.event.value), x) else 0))
    requires s' == Doing(s.(next := s'.next, heap := s.heap[r := Cell(1, Fixed)],
                            handles := s.handles - multiset{r.target}), t, [Push(r)])
    ensures Balanced(s', x)
  {
    hide Sum;
    Edit(s, s', r, Cell(1, Fixed), t, [Push(r)], x);
    OpsCons(Push(r), [], x);
  }

  // xrp_enqueue_command prepares a request: the event holds the queue, the request holds event and group,
  // the call keeps the caller's reference to the queue and the new event's handle.
  lemma EnqueueBalances(s: State, t: Tid, q: Id, g: Option<Id>, wantEvent: bool, x: Claim)
    requires MayCall(s, Enqueue(q, g, wantEvent, true)) && CallFaultless(s, Enqueue(q, g, wantEvent, true))
    requires Balanced(s, x) && Ops(s, t) == [] && s.heap[q].count > 0 && (g.Some? ==> s.heap[g.value].count > 0)
    requires forall id <- s.heap :: id.n < s.next
    ensures Balanced(ApplyCall(s, t, Enqueue(q, g, wantEvent, true)), x)
  {
    hide Sum, Tally, Expected;
    var e := if wantEvent then Some(Evt(s.next, q)) else None;
    var r := Req(s.next + 1, q, e, g);
    var s' := ApplyCall(s, t, Enqueue(q, g, wantEvent, true));
    var s1 := if wantEvent then Retained(s, q) else s;
    var s2 := if wantEvent then s1.(heap := s1.heap[e.value := Cell(2, Signal(PENDING))]) else s1;
    var s3 := if g.Some? then Retained(s2, g.value) else s2;
    if wantEvent {
      EventShort(s, s1, s2, q, e.value, x);
    }
    var n := RefTo(e, x) * 2 + (if wantEvent then One(Owe(e.value), x) else 0);
    assert Short(s2, x, n);
    if g.Some? {
      RetainShort(s2, g.value, x, n);
    }
    RequestBalances(s3, s', t, r, x);
  }

  lemma Fresh(s: State)
    requires Inv(s)
    ensures forall id <- s.heap :: id.n < s.next
  {
    forall id <- s.heap ensures id.n < s.next { assert NameOk(s, id); }
  }

  lemma CallBalances(s: State, t: Tid, call: Call, x: Claim)
    requires Inv(s) && Ops(s, t) == [] && MayCall(s, call) && CallFaultless(s, call)
    ensures Balanced(ApplyCall(s, t, call), x)
  {
    hide Sum, Tally, Expected, CellClaims, OpsClaims, BodyFits, NamesOk, ThreadsOk, WorkersOk, SleepersOk;
    assert Balanced(s, x);
    match call {
      case OpenDevice => Fresh(s); NewBalances(s, Dev(s.next), Fixed, x);
      case NewHostBuffer(size) => Fresh(s); NewBalances(s, Buf(s.next, None, size), Mappable(0), x);
      case NewGroup => Fresh(s); NewBalances(s, Grp(s.next), Slots([]), x);
      case Retain(id) => HandleLive(s, id); RetainBalances(s, id, x);
      case MapBuffer(b, offset, size) => HandleLive(s, b); MapBalances(s, t, b, offset, size, x);
      case GetSlot(g, i) =>
        HandleLive(s, g);
        SlotsLive(s, g);
        if i < |s.heap[g].body.slots| { RetainBalances(s, s.heap[g].body.slots[i], x); }
      case AddSlot(g, b, ok) => HandleLive(s, g); HandleLive(s, b); AddSlotBalances(s, t, g, b, ok, x);
      case Drop(id) => HandOverBalances(s, t, id, Release(id), x);
      case UnmapBuffer(b, delta) => UnmapBalances(s, t, b, delta, x);
      case NewDeviceBuffer(d, size) => HandleLive(s, d); RetainForOpBalances(s, t, d, FinishBuffer(d, size), x);
      case NewQueue(d) => HandleLive(s, d); RetainForOpBalances(s, t, d, FinishQueue(d), x);
      case SetInGroup(g, i, b) => HandleLive(s, b); SetInGroupBalances(s, t, g, i, b, x);
      case Enqueue(q, g, wantEvent, ok) =>
        if ok {
          Fresh(s);
          HandleLive(s, q);
          if g.Some? { HandleLive(s, g.value); }
          EnqueueBalances(s, t, q, g, wantEvent, x);
        }
      case AwaitEvent(e) => HandOverBalances(s, t, e, Wait(e), x);
    }
  }

  // ---- operations ----

  lemma ReleaseBalances(s: State, t: Tid, id: Id, rest: seq<Op>, x: Claim)
    requires Balanced(s, x) && Ops(s, t) == [Release(id)] + rest && OpFaultless(s, t, Release(id)) && !id.Req?
    ensures Balanced(ApplyOp(s, t, Release(id), rest, true), x)
  {
    hide Sum;
    var s' := ApplyOp(s, t, Release(id), rest, true);
    var c := Counted(s.heap[id], -1);
    OpsCons(Release(id), rest, x);
    if c.count == 0 {
      DeathHandsOver(id, c.body, x);
      OpsConcat(DeathOps(id, c.body), rest, x);
    }
    Edit(s, s', id, c, t, s'.threads[t], x);
  }

  lemma FreeBalances(s: State, t: Tid, id: Id, rest: seq<Op>, x: Claim)
    requires Balanced(s, x) && Ops(s, t) == [Free(id)] + rest && OpFaultless(s, t, Free(id)) && !Pending(s, id)
    ensures Balanced(ApplyOp(s, t, Free(id), rest, true), x)
  {
    hide Sum;
    var s' := ApplyOp(s, t, Free(id), rest, true);
    OpsCons(Free(id), rest, x);
    SumRemove(s.heap, (id, c) => CellClaims(id, c, x), id);
    EditThread(s.(heap := s'.heap), s', t, rest, x);
  }

  lemma DestroyBalances(s: State, t: Tid, q: Id, joining: bool, rest: seq<Op>, x: Claim)
    requires Balanced(s, x) && Ops(s, t) == [Destroy(q, joining)] + rest && OpFaultless(s, t, Destroy(q, joining))
    ensures Balanced(ApplyOp(s, t, Destroy(q, joining), rest, true), x)
  {
    hide Sum;
    var s' := ApplyOp(s, t, Destroy(q, joining), rest, true);
    OpsCons(Destroy(q, joining), rest, x);
    if !joining {
      OpsCons(Destroy(q, true), rest, x);
      Edit(s, s', q, s'.heap[q], t, [Destroy(q, true)] + rest, x);
    } else {
      assert [Release(q.dev), Free(q)] + rest == [Release(q.dev)] + ([Free(q)] + rest);
      OpsCons(Release(q.dev), [Free(q)] + rest, x);
      OpsCons(Free(q), rest, x);
      EditThread(s, s', t, [Release(q.dev), Free(q)] + rest, x);
    }
  }

  lemma RunBalances(s: State, t: Tid, r: Id, read: seq<Id>, rest: seq<Op>, ok: bool, x: Claim)
    requires Balanced(s, x) && Ops(s, t) == [Run(r, Some(read))] + rest && OpFaultless(s, t, Run(r, Some(read)))
    requires s.heap[r].count == 1
    ensures Balanced(ApplyOp(s, t, Run(r, Some(read)), rest, ok), x)
  {
    hide Sum;
    var s' := ApplyOp(s, t, Run(r, Some(read)), rest, ok);
    var result := if ok then SUCCESS else FAILURE;
    OpsCons(Run(r, Some(read)), rest, x);
    RunHandsOver(r, result, x);
    OpsConcat(AfterRun(r, result), rest, x);
    Edit(s, s', r, s'.heap[r], t, AfterRun(r, result) + rest, x);
  }

  lemma ReadBalances(s: State, t: Tid, r: Id, rest: seq<Op>, ok: bool, x: Claim)
    requires Balanced(s, x) && Ops(s, t) == [Run(r, None)] + rest && OpFaultless(s, t, Run(r, None))
    ensures Balanced(ApplyOp(s, t, Run(r, None), rest, ok), x)
  {
    hide Sum;
    OpsCons(Run(r, None), rest, x);
    OpsCons(Run(r, Some(Records(s, r))), rest, x);
    EditThread(s, ApplyOp(s, t, Run(r, None), rest, ok), t, [Run(r, Some(Records(s, r)))] + rest, x);
  }

  lemma CompleteBalances(s: State, t: Tid, e: Id, result: Status, rest: seq<Op>, x: Claim)
    requires Balanced(s, x) && Ops(s, t) == [Complete(e, result)] + rest && result != PENDING
    requires OpFaultless(s, t, Complete(e, result)) && s.heap[e].body == Signal(PENDING)
    ensures Balanced(ApplyOp(s, t, Complete(e, result), rest, true), x)
  {
    hide Sum;
    var s' := ApplyOp(s, t, Complete(e, result), rest, true);
    OpsCons(Complete(e, result), rest, x);
    OpsCons(Release(e), rest, x);
    Edit(s, s', e, s'.heap[e], t, [Release(e)] + rest, x);
  }

  lemma PushBalances(s: State, t: Tid, r: Id, rest: seq<Op>, x: Claim)
    requires Balanced(s, x) && Ops(s, t) == [Push(r)] + rest && OpFaultless(s, t, Push(r))
    ensures Balanced(ApplyOp(s, t, Push(r), rest, true), x)
  {
    hide Sum;
    var s' := ApplyOp(s, t, Push(r), rest, true);
    OpsCons(Push(r), rest, x);
    Edit(s, s', r.target, s'.heap[r.target], t, rest, x);
  }

  lemma WaitBalances(s: State, t: Tid, e: Id, rest: seq<Op>, x: Claim)
    requires Balanced(s, x) && Ops(s, t) == [Wait(e)] + rest && OpFaultless(s, t, Wait(e))
    ensures Balanced(ApplyOp(s, t, Wait(e), rest, true), x)
  {
    hide Sum;
    if s.heap[e].body.status != PENDING {
      OpsCons(Wait(e), rest, x);
      EditThread(s, ApplyOp(s, t, Wait(e), rest, true), t, rest, x);
    }
  }

  // The group takes over the call's reference to b, the call the group's reference to the old buffer.
  lemma SwapSlotBalances(s: State, t: Tid, g: Id, i: nat, b: Id, rest: seq<Op>, x: Claim)
    requires Balanced(s, x) && Ops(s, t) == [SetSlot(g, i, b)] + rest && OpFaultless(s, t, SetSlot(g, i, b))
    requires s.heap[g].count > 0 && i < |s.heap[g].body.slots|
    ensures Balanced(ApplyOp(s, t, SetSlot(g, i, b), rest, true), x)
  {
    hide Sum;
    var s' := ApplyOp(s, t, SetSlot(g, i, b), rest, true);
    var slots := s.heap[g].body.slots;
    var c := s'.heap[g];
    OpsCons(SetSlot(g, i, b), rest, x);
    OpsCons(Release(slots[i]), rest, x);
    assert CellClaims(g, c, x) + One(Ref(slots[i]), x) == CellClaims(g, s.heap[g], x) + One(Ref(b), x);
    Edit(s, s', g, c, t, [Release(slots[i])] + rest, x);
  }

  lemma SetSlotBalances(s: State, t: Tid, g: Id, i: nat, b: Id, rest: seq<Op>, x: Claim)
    requires Balanced(s, x) && Ops(s, t) == [SetSlot(g, i, b)] + rest && OpFaultless(s, t, SetSlot(g, i, b))
    requires s.heap[g].count > 0
    ensures Balanced(ApplyOp(s, t, SetSlot(g, i, b), rest, true), x)
  {
    hide Sum;
    var s' := ApplyOp(s, t, SetSlot(g, i, b), rest, true);
    if i < |s.heap[g].body.slots| {
      SwapSlotBalances(s, t, g, i, b, rest, x);
    } else {
      OpsCons(SetSlot(g, i, b), rest, x);
      OpsCons(Release(b), rest, x);
      EditThread(s, s', t, [Release(b)] + rest, x);
    }
  }

  // A device reference taken before an allocation ends up in the new object, or is dropped again.
  lemma FinishBalances(s: State, t: Tid, op: Op, rest: seq<Op>, ok: bool, x: Claim)
    requires op.FinishBuffer? || op.FinishQueue?
    requires Balanced(s, x) && Ops(s, t) == [op] + rest && OpFaultless(s, t, op)
    requires forall id <- s.heap :: id.n < s.next
    ensures Balanced(ApplyOp(s, t, op, rest, ok), x)
  {
    hide Sum;
    var s' := ApplyOp(s, t, op, rest, ok);
    OpsCons(op, rest, x);
    if ok {
      var id := if op.FinishBuffer? then Buf(s.next, Some(op.d), op.size) else Que(s.next, op.d);
      Edit(s, s', id, s'.heap[id], t, rest, x);
    } else {
      OpsCons(Release(op.d), rest, x);
      EditThread(s, s', t, [Release(op.d)] + rest, x);
    }
  }

  lemma OpBalances(s: State, t: Tid, op: Op, rest: seq<Op>, ok: bool, x: Claim)
    requires Inv(s) && Ops(s, t) == [op] + rest && OpFaultless(s, t, op)
    ensures Balanced(ApplyOp(s, t, op, rest, ok), x)
  {
    hide Sum;
    assert op in Ops(s, t);
    assert OpOk(s, t, op);
    assert Balanced(s, x);
    match op {
      case Release(id) => ReleaseBalances(s, t, id, rest, x);
      case Free(id) =>
        if Pending(s, id) { PendingIsHeld(s, id); }
        FreeBalances(s, t, id, rest, x);
      case Destroy(q, joining) => DestroyBalances(s, t, q, joining, rest, x);
      case Run(r, read) =>
        OpRefLive(s, t, op, r);
        assert NameOk(s, r);
        if read.None? { ReadBalances(s, t, r, rest, ok, x); } else { RunBalances(s, t, r, read.value, rest, ok, x); }
      case Complete(e, result) =>
        OpTallied(s, t, op, Owe(e));
        assert Balanced(s, Owe(e));
        CompleteBalances(s, t, e, result, rest, x);
      case Push(r) => PushBalances(s, t, r, rest, x);
      case Wait(e) => WaitBalances(s, t, e, rest, x);
      case SetSlot(g, i, b) =>
        OpRefLive(s, t, op, g);
        SetSlotBalances(s, t, g, i, b, rest, x);
      case FinishBuffer(_, _) => Fresh(s); FinishBalances(s, t, op, rest, ok, x);
      case FinishQueue(_) => Fresh(s); FinishBalances(s, t, op, rest, ok, x);
    }
  }

  // ---- workers ----

  lemma WorkerIdle(s: State, q: Id)
    requires Inv(s) && q in s.workers && !s.workers[q].pc.Busy?
    ensures Ops(s, Worker(q)) == []
  {
    assert Worker(q) in s.threads ==> ThreadOk(s, Worker(q));
  }

  // The worker takes over the queue's reference to the oldest request.
  lemma DequeueBalances(s: State, s': State, q: Id, x: Claim)
    requires Balanced(s, x) && q.Que? && Live(s, q) && s.heap[q].body.pending != [] && Ops(s, Worker(q)) == []
    requires var fifo := s.heap[q].body;
             && s'.heap == s.heap[q := s.heap[q].(body := Fifo(fifo.pending[1..], fifo.exit))]
             && s'.threads == s.threads[Worker(q) := [Run(fifo.pending[0], None)]]
    requires s'.handles == s.handles && s'.maps == s.maps && s'.leaked == s.leaked
    ensures Balanced(s', x)
  {
    hide Sum;
    var pending := s.heap[q].body.pending;
    assert pending == [pending[0]] + pending[1..];
    OpsCons(Run(pending[0], None), [], x);
    Edit(s, s', q, s'.heap[q], Worker(q), [Run(pending[0], None)], x);
  }

  lemma TakeBalances(s: State, q: Id, x: Claim)
    requires Balanced(s, x) && Guard(s, Take(q)) && Faultless(s, Take(q)) && Ops(s, Worker(q)) == []
    ensures Balanced(Apply(s, Take(q)), x)
  {
    hide Sum, ApplyCall, ApplyOp, CellClaims, OpsClaims;
    if s.heap[q].body.pending != [] {
      DequeueBalances(s, Apply(s, Take(q)), q, x);
    }
  }

  lemma StepBalances(s: State, step: Step, x: Claim)
    requires Inv(s) && Guard(s, step) && Faultless(s, step)
    ensures Balanced(Apply(s, step), x)
  {
    hide Sum, ApplyCall, ApplyOp, OpsClaims, CellClaims;
    assert Balanced(s, x);
    match step {
      case Begin(t, call) => CallBalances(s, t, call, x);
      case Exec(t, ok) =>
        assert Ops(s, t) == [Ops(s, t)[0]] + Ops(s, t)[1..];
        OpBalances(s, t, Ops(s, t)[0], Ops(s, t)[1..], ok, x);
      case Take(q) => WorkerIdle(s, q); TakeBalances(s, q, x);
      case Return(q) =>
      case Wake(_) =>
    }
  }

  // Conservation: if every claim is accounted for, it still is after any step of any thread.
  lemma StepConserves(s: State, step: Step)
    requires Inv(s) && Guard(s, step) && Faultless(s, step)
    ensures Conserved(Apply(s, step))
  {
    hide Apply;
    forall x ensures Balanced(Apply(s, step), x) {
      StepBalances(s, step, x);
    }
  }
}
