// Every step of the XRP host keeps the structural half of the invariant.
module HostStructure {
  import opened Bags
  import opened HostObjects
  import opened HostSteps
  import opened HostInvariant
  import opened HostConservation

  // What no step undoes: names stay used, workers that have finished stay finished, exit stays set,
  // a completed event does not become pending again.
  ghost predicate Onward(s: State, s': State) {
    && s.next <= s'.next
    && (forall q <- s.workers :: q in s'.workers && WorkerOnward(s.workers[q], s'.workers[q]))
    && (forall id <- s.heap :: id in s'.heap ==> BodyOnward(s.heap[id].body, s'.heap[id].body))
    && (forall id <- s'.heap :: id in s.heap || id.n >= s.next)
  }

  ghost predicate WorkerOnward(w: WorkerState, w': WorkerState) {
    && (w.pc.Exited? ==> w' == w)
    && (w.pc.Busy? && w.quit ==> w' == w || w'.pc.Exited?)
    && (w.pc.Busy? && w'.pc.Busy? ==> w'.pc == w.pc)
  }

  ghost predicate BodyOnward(b: Body, b': Body) {
    && (b.Fifo? && b.exit ==> b'.Fifo? && b'.exit)
    && (b.Signal? && b.status != PENDING ==> b' == b)
    && (b'.Signal? ==> b.Signal?)
  }

  // An event that is pending now and had been created before was pending before.
  lemma PendingBefore(s: State, s': State, e: Id)
    requires Onward(s, s') && Pending(s', e) && e.n < s.next
    ensures Pending(s, e)
  {
  }

  // ---- threads ----

  lemma OpStays(s: State, s': State, t: Tid, op: Op)
    requires Onward(s, s') && OpOk(s, t, op) && !op.Run? && !op.Push?
    requires op.Destroy? ==> op.q in s'.heap
    requires op.Complete? ==> t.Worker? && t.q in s'.workers && s'.workers[t.q].pc.Busy?
    ensures OpOk(s', t, op)
  {
    match op {
      case Destroy(q, joining) =>
        if joining { assert BodyOnward(s.heap[q].body, s'.heap[q].body); }
      case Free(id) =>
        if id.Que? { assert WorkerOnward(s.workers[id], s'.workers[id]); }
      case Complete(_, _) => assert WorkerOnward(s.workers[t.q], s'.workers[t.q]);
      case _ =>
    }
  }

  // A queue about to be destroyed is still in memory.
  lemma DestroyedInMemory(s: State, t: Tid, op: Op)
    requires Conserved(s) && op in Ops(s, t) && op.Destroy?
    ensures op.q in s.heap
  {
    OpTallied(s, t, op, Kill(op.q));
    assert Balanced(s, Kill(op.q));
  }

  ghost predicate OthersIdle(s: State, s': State, t: Tid) {
    && (forall t2 <- s'.threads :: t2 != t ==> t2 in s.threads && s'.threads[t2] == s.threads[t2])
    && (forall t2 <- s.threads :: t2 in s'.threads)
    && (forall q <- s.workers :: t != Worker(q) ==> q in s'.workers && s'.workers[q] == s.workers[q])
  }

  // Only thread t has new work; everyone else's remains in order.
  lemma ThreadsStay(s: State, s': State, t: Tid)
    requires ThreadsOk(s) && Onward(s, s') && Conserved(s') && OthersIdle(s, s', t)
    requires t in s'.threads ==> ThreadOk(s', t)
    ensures ThreadsOk(s')
  {
    hide Balanced;
    forall t2 <- s'.threads ensures ThreadOk(s', t2) {
      if t2 != t {
        assert ThreadOk(s, t2);
        forall op <- s'.threads[t2] ensures OpOk(s', t2, op) {
          assert OpOk(s, t2, op);
          if op.Destroy? { DestroyedInMemory(s', t2, op); }
          if !op.Run? && !op.Push? { OpStays(s, s', t2, op); }
        }
      }
    }
  }

  // The rest of a thread's work after its first operation remains in order.
  lemma RestStays(s: State, s': State, t: Tid, op: Op, rest: seq<Op>)
    requires ThreadsOk(s) && Ops(s, t) == [op] + rest && Onward(s, s') && Conserved(s')
    requires forall o <- rest :: o in Ops(s', t)
    requires t.Worker? ==> t.q in s'.workers && s'.workers[t.q].pc.Busy?
    ensures forall o <- rest :: OpOk(s', t, o)
  {
    hide Balanced;
    assert ThreadOk(s, t);
    forall o <- rest ensures OpOk(s', t, o) {
      assert o in Ops(s, t) && OpOk(s, t, o);
      if o.Destroy? { DestroyedInMemory(s', t, o); }
      OpStays(s, s', t, o);
    }
  }

  // ---- workers ----

  lemma DoneWasPushed(s: State, q: Id, r: Id)
    requires q in s.workers && LogOk(s, q) && r in s.logs[q].done
    ensures ReqOk(s, q, r)
  {
    var i :| 0 <= i < |s.logs[q].done| && s.logs[q].done[i] == r;
    assert (s.logs[q].done + InFlight(s.workers[q]))[i] == s.logs[q].pushed[i];
  }

  lemma WorkerStays(s: State, s': State, q: Id)
    requires q in s.workers && WorkerOk(s, q) && LogOk(s, q) && Onward(s, s')
    requires s'.workers[q] == s.workers[q] && q in s'.logs && s'.logs[q] == s.logs[q]
    requires q in s'.heap ==> q in s.heap && s'.heap[q].body.Fifo?
                              && s'.heap[q].body.pending == s.heap[q].body.pending
                              && (s.heap[q].count == 0 ==> s'.heap[q].count == 0)
    requires q in s.heap && q !in s'.heap ==>
               && (s.workers[q].pc.Exited? || s.workers[q].quit)
               && (forall r <- s.heap[q].body.pending :: r.Req? && r.event.None?)
    requires Owing(s', q)
    ensures WorkerOk(s', q) && LogOk(s', q)
  {
    forall r <- s'.logs[q].done ensures r.Req? && (r.event.Some? ==> !Pending(s', r.event.value)) {
      DoneWasPushed(s, q, r);
      if r.event.Some? && Pending(s', r.event.value) {
        PendingBefore(s, s', r.event.value);
      }
    }
  }

  lemma BusyRequest(s: State, q: Id)
    requires q in s.workers && LogOk(s, q) && s.workers[q].pc.Busy?
    ensures ReqOk(s, q, s.workers[q].pc.rq)
  {
    var log := s.logs[q];
    assert (log.done + InFlight(s.workers[q]))[|log.done|] == log.pushed[|log.done|];
  }

  // A worker whose thread has not moved owes what it owed.
  lemma OwingStays(s: State, s': State, q: Id)
    requires q in s.workers && q in s'.workers && s'.workers[q] == s.workers[q]
    requires Onward(s, s') && WorkerOk(s, q) && LogOk(s, q) && Ops(s', Worker(q)) == Ops(s, Worker(q))
    ensures Owing(s', q)
  {
    if s.workers[q].pc.Busy? { BusyRequest(s, q); }
  }

  // Nor does an operation that completes and frees nothing change what its worker owes.
  lemma OwingStaysAfter(s: State, s': State, q: Id, op: Op, rest: seq<Op>, pre: seq<Op>)
    requires q in s.workers && q in s'.workers && s'.workers[q].pc == s.workers[q].pc
    requires s'.workers[q].quit ==> s.workers[q].quit || OpsClaims(pre, Kill(q)) > 0
    requires Onward(s, s') && WorkerOk(s, q) && LogOk(s, q)
    requires Ops(s, Worker(q)) == [op] + rest && Ops(s', Worker(q)) == pre + rest
    requires !op.Run? && (op.Complete? ==> !Pending(s', op.e))
    requires q in s'.heap ==> OpClaims(op, Kill(q)) <= OpsClaims(pre, Kill(q))
    ensures Owing(s', q)
  {
    if s.workers[q].pc.Busy? {
      BusyRequest(s, q);
      var r := s.workers[q].pc.rq;
      if r.event.Some? {
        OpsCons(op, rest, Owe(r.event.value));
        OpsConcat(pre, rest, Owe(r.event.value));
      }
    }
    OpsCons(op, rest, Kill(q));
    OpsConcat(pre, rest, Kill(q));
  }

  // Steps that touch no queue and no worker record.
  ghost predicate SameQueues(s: State, s': State) {
    && s'.workers == s.workers && s'.logs == s.logs
    && (forall q <- s.heap :: q.Que? ==>
          q in s'.heap && s'.heap[q].body == s.heap[q].body && (s.heap[q].count == 0 ==> s'.heap[q].count == 0))
    && (forall q <- s'.heap :: q.Que? ==> q in s.heap)
  }

  lemma WorkersStay(s: State, s': State, t: Tid)
    requires WorkersOk(s) && Onward(s, s') && SameQueues(s, s') && OthersIdle(s, s', t)
    requires t.Worker? && t.q in s.workers ==> Owing(s', t.q)
    ensures WorkersOk(s')
  {
    forall q <- s'.workers ensures WorkerOk(s', q) && LogOk(s', q) {
      assert WorkerOk(s, q) && LogOk(s, q);
      if t != Worker(q) { OwingStays(s, s', q); }
      WorkerStays(s, s', q);
    }
  }

  // ---- sleepers ----

  lemma SleepersStay(s: State, s': State, t: Tid)
    requires SleepersOk(s) && OthersIdle(s, s', t) && s'.asleep <= s.asleep
    requires t !in s'.asleep || SleeperOk(s', t)
    requires forall q <- s.heap :: Worker(q) in s'.asleep ==>
               q in s'.heap && s'.heap[q].body == s.heap[q].body && q in s.workers && q in s'.workers && s'.workers[q] == s.workers[q]
    requires forall t2 <- s'.asleep :: t2.Client? && t2 != t ==> Pending(s', Ops(s, t2)[0].e)
    ensures SleepersOk(s')
  {
    forall t2 <- s'.asleep ensures SleeperOk(s', t2) {
      assert SleeperOk(s, t2);
    }
  }

  // ---- client calls ----

  lemma AllNamed(s: State)
    requires NamesOk(s)
    ensures forall id <- s.heap :: WellNamed(id) && id.n < s.next
  {
    forall id <- s.heap ensures WellNamed(id) && id.n < s.next { assert NameOk(s, id); }
  }

  // What a client call changes: counts, new objects, a group's slots, its own references and its own work.
  ghost predicate CallShape(s: State, s': State, t: Tid) {
    && Onward(s, s') && SameQueues(s, s') && OthersIdle(s, s', t) && t.Client? && s'.asleep == s.asleep
    && (forall id <- s.heap :: id in s'.heap && (id.Evt? ==> s'.heap[id].body == s.heap[id].body))
  }

  lemma ShapeKeepsStructure(s: State, s': State, t: Tid)
    requires Inv(s) && CallShape(s, s', t) && Ops(s, t) == [] && Conserved(s')
    requires NamesOk(s')
    requires t in s'.threads ==> ThreadOk(s', t)
    ensures Structured(s')
  {
    hide Balanced;
    ThreadsStay(s, s', t);
    WorkersStay(s, s', t);
    forall t2 <- s.asleep ensures SleeperOk(s', t2) && t2 != t && (t2.Client? ==> Pending(s', Ops(s, t2)[0].e)) {
      assert SleeperOk(s, t2);
    }
    SleepersStay(s, s', t);
  }

  // A call that writes one object, without touching a queue's list or an event's status.
  ghost predicate Writes(s: State, s': State, t: Tid, id: Id) {
    && id in s.heap && id in s'.heap && s'.heap == s.heap[id := s'.heap[id]]
    && s'.next == s.next && s'.workers == s.workers && s'.leaked == s.leaked && s'.logs == s.logs
    && s'.asleep == s.asleep
    && (s'.threads == s.threads || (t in s'.threads && s'.threads == s.threads[t := s'.threads[t]]))
    && (forall x <- s'.handles :: x in s.handles || !x.Req?)
    && (forall x :: x != id || !id.Buf? ==> s'.maps[x] == s.maps[x])
    && BodyFits(id, s'.heap[id].body)
    && (id.Buf? ==> s'.heap[id].body == Mappable(s'.maps[id]))
    && (id.Que? || id.Evt? ==> s'.heap[id].body == s.heap[id].body)
    && s.heap[id].count > 0 && !id.Req?
  }

  lemma WriteNames(s: State, s': State, t: Tid, id: Id)
    requires NamesOk(s) && Writes(s, s', t, id)
    ensures NamesOk(s')
  {
    assert NameOk(s, id);
    forall x <- s'.heap ensures NameOk(s', x) { assert x in s.heap && NameOk(s, x); }
    forall x <- s'.maps ensures x.Buf? { assert x.Buf? || s'.maps[x] == s.maps[x]; }
  }

  lemma WriteShape(s: State, s': State, t: Tid, id: Id)
    requires t.Client? && Writes(s, s', t, id) && BodyFits(id, s.heap[id].body)
    ensures CallShape(s, s', t)
  {
  }

  lemma WriteKeepsStructure(s: State, s': State, t: Tid, id: Id)
    requires Inv(s) && t.Client? && Ops(s, t) == [] && Writes(s, s', t, id) && Conserved(s')
    requires t in s'.threads ==> ThreadOk(s', t)
    ensures Structured(s')
  {
    hide Balanced, ThreadsOk, WorkersOk, SleepersOk, ThreadOk;
    WriteNames(s, s', t, id);
    assert BodyFits(id, s.heap[id].body) by { assert NameOk(s, id); }
    WriteShape(s, s', t, id);
    hide CallShape, Writes, BodyFits;
    ShapeKeepsStructure(s, s', t);
  }

  // A new object nobody has mapped.
  lemma AddNames(s: State, s': State, id: Id)
    requires NamesOk(s) && Conserved(s) && id.n == s.next && WellNamed(id)
    requires id in s'.heap && s'.heap == s.heap[id := s'.heap[id]] && BodyFits(id, s'.heap[id].body)
    requires s'.next > s.next && s'.maps == s.maps && s'.leaked == s.leaked
    requires s.workers.Keys <= s'.workers.Keys
    requires forall x <- s'.handles :: x in s.handles || !x.Req?
    requires id.Buf? ==> s'.heap[id].body == Mappable(0)
    requires id.Que? ==> id in s'.workers && !s'.heap[id].body.exit
    requires !id.Req?
    ensures NamesOk(s')
  {
    AllNamed(s);
    assert Balanced(s, Ref(id));
    forall x <- s'.heap ensures NameOk(s', x) { if x != id { assert NameOk(s, x); } }
  }

  lemma NewShape(s: State, t: Tid, id: Id, body: Body)
    requires t.Client? && id.n == s.next && (id.Dev? || id.Grp? || id.Buf?)
    requires forall x <- s.heap :: x.n < s.next
    ensures CallShape(s, Granted(Alloc(s, id, body), id), t)
  {
  }

  lemma NewKeepsStructure(s: State, t: Tid, id: Id, body: Body)
    requires Inv(s) && t.Client? && Ops(s, t) == [] && id.n == s.next && WellNamed(id) && BodyFits(id, body)
    requires id.Dev? || id.Grp? || (id.Buf? && body == Mappable(0))
    requires Conserved(Granted(Alloc(s, id, body), id))
    ensures Structured(Granted(Alloc(s, id, body), id))
  {
    hide Balanced, ThreadsOk, WorkersOk, SleepersOk, ThreadOk, CallShape;
    var s' := Granted(Alloc(s, id, body), id);
    AllNamed(s);
    AddNames(s, s', id);
    IdleWork(s, s', t);
    NewShape(s, t, id, body);
    ShapeKeepsStructure(s, s', t);
  }

  // A thread with nothing to do has nothing to keep in order.
  lemma IdleWork(s: State, s': State, t: Tid)
    requires Ops(s, t) == [] && s'.threads == s.threads
    ensures t in s'.threads ==> ThreadOk(s', t)
  {
  }

  lemma GetSlotStructure(s: State, t: Tid, g: Id, i: nat)
    requires Inv(s) && t.Client? && Ops(s, t) == [] && MayCall(s, GetSlot(g, i)) && CallFaultless(s, GetSlot(g, i))
    requires Conserved(ApplyCall(s, t, GetSlot(g, i)))
    ensures Structured(ApplyCall(s, t, GetSlot(g, i)))
  {
    hide Balanced, ThreadsOk, WorkersOk, SleepersOk;
    HandleLive(s, g);
    SlotsLive(s, g);
    var slots := s.heap[g].body.slots;
    if i < |slots| {
      assert NameOk(s, slots[i]);
      IdleWork(s, Granted(Retained(s, slots[i]), slots[i]), t);
      WriteKeepsStructure(s, Granted(Retained(s, slots[i]), slots[i]), t, slots[i]);
    }
  }

  lemma AddSlotShape(s: State, t: Tid, g: Id, b: Id)
    requires t.Client? && MayCall(s, AddSlot(g, b, true)) && CallFaultless(s, AddSlot(g, b, true))
    ensures CallShape(s, ApplyCall(s, t, AddSlot(g, b, true)), t)
  {
  }

  lemma AddSlotStructure(s: State, t: Tid, g: Id, b: Id)
    requires Inv(s) && t.Client? && Ops(s, t) == []
    requires MayCall(s, AddSlot(g, b, true)) && CallFaultless(s, AddSlot(g, b, true))
    requires Conserved(ApplyCall(s, t, AddSlot(g, b, true)))
    ensures Structured(ApplyCall(s, t, AddSlot(g, b, true)))
  {
    hide Balanced, ThreadsOk, WorkersOk, SleepersOk;
    var s' := ApplyCall(s, t, AddSlot(g, b, true));
    var s1 := Retained(s, b);
    HandleLive(s, b);
    HandleLive(s, g);
    assert NameOk(s, b) && NameOk(s, g);
    WriteNames(s, s1, t, b);
    WriteNames(s1, s', t, g);
    IdleWork(s, s', t);
    AddSlotShape(s, t, g, b);
    hide NamesOk, CallShape, ThreadOk;
    ShapeKeepsStructure(s, s', t);
  }

  lemma MapStructure(s: State, t: Tid, b: Id, offset: nat, size: nat)
    requires Inv(s) && t.Client? && Ops(s, t) == []
    requires MayCall(s, MapBuffer(b, offset, size)) && CallFaultless(s, MapBuffer(b, offset, size))
    requires Conserved(ApplyCall(s, t, MapBuffer(b, offset, size)))
    ensures Structured(ApplyCall(s, t, MapBuffer(b, offset, size)))
  {
    hide Balanced, ThreadsOk, WorkersOk, SleepersOk;
    HandleLive(s, b);
    assert NameOk(s, b);
    if offset <= b.size && size <= b.size - offset {
      IdleWork(s, ApplyCall(s, t, MapBuffer(b, offset, size)), t);
      WriteKeepsStructure(s, ApplyCall(s, t, MapBuffer(b, offset, size)), t, b);
    }
  }

  lemma UnhideName(s: State, id: Id)
    requires NamesOk(s) && id in s.heap
    ensures NameOk(s, id)
  {
  }

  ghost function Unmapped(s: State, t: Tid, b: Id): State
    requires b in s.heap && s.heap[b].body.Mappable? && s.heap[b].body.mapCount > 0
  {
    var c := s.heap[b].(body := Mappable(s.heap[b].body.mapCount - 1));
    Doing(s.(heap := s.heap[b := c], maps := s.maps - multiset{b}), t, [Release(b)])
  }

  lemma UnmappedStructure(s: State, t: Tid, b: Id)
    requires Inv(s) && t.Client? && Ops(s, t) == [] && b in s.maps && b.Buf? && WellNamed(b)
    requires b in s.heap && s.heap[b].count > 0 && s.heap[b].body.Mappable? && s.heap[b].body.mapCount > 0
    requires Conserved(Unmapped(s, t, b))
    ensures Structured(Unmapped(s, t, b))
  {
    hide Balanced, ThreadsOk, WorkersOk, SleepersOk, NamesOk;
    UnhideName(s, b);
    WriteKeepsStructure(s, Unmapped(s, t, b), t, b);
  }

  lemma UnmapStructure(s: State, t: Tid, b: Id, delta: int)
    requires Inv(s) && t.Client? && Ops(s, t) == []
    requires MayCall(s, UnmapBuffer(b, delta)) && CallFaultless(s, UnmapBuffer(b, delta))
    requires Conserved(ApplyCall(s, t, UnmapBuffer(b, delta)))
    ensures Structured(ApplyCall(s, t, UnmapBuffer(b, delta)))
  {
    hide Conserved, ThreadsOk, WorkersOk, SleepersOk, NamesOk;
    HandleLive(s, b);
    UnhideName(s, b);
    if 0 <= delta <= b.size { UnmappedStructure(s, t, b); }
  }

  // Calls that take a reference along and go on with one operation.
  lemma RetainStructure(s: State, s': State, t: Tid, id: Id, op: Op)
    requires Inv(s) && t.Client? && Ops(s, t) == [] && id in s.heap && s.heap[id].count > 0 && !id.Req?
    requires s'.handles <= s.handles && s' == Doing(Retained(s, id).(handles := s'.handles), t, [op])
    requires op.FinishBuffer? || op.FinishQueue? || op.SetSlot?
    requires OpOk(s', t, op) && Conserved(s')
    ensures Structured(s')
  {
    hide Balanced, ThreadsOk, WorkersOk, SleepersOk;
    assert NameOk(s, id);
    WriteKeepsStructure(s, s', t, id);
  }

  lemma HandOverStructure(s: State, t: Tid, id: Id, op: Op)
    requires Inv(s) && t.Client? && Ops(s, t) == [] && id in s.handles
    requires (op == Release(id) && WellNamed(id)) || (op == Wait(id) && id.Evt?)
    requires !id.Req? && Conserved(Doing(s.(handles := s.handles - multiset{id}), t, [op]))
    ensures Structured(Doing(s.(handles := s.handles - multiset{id}), t, [op]))
  {
    hide Balanced, ThreadsOk, WorkersOk, SleepersOk;
    var s' := Doing(s.(handles := s.handles - multiset{id}), t, [op]);
    forall x <- s'.heap ensures NameOk(s', x) { assert NameOk(s, x); }
    AllNamed(s);
    ShapeKeepsStructure(s, s', t);
  }

  // The shape of the state after a request has been prepared.
  ghost predicate Prepared(s: State, s': State, t: Tid, r: Id) {
    && r.Req? && r.n == s.next + 1 && s'.next == s.next + 2
    && (r.event.Some? ==> r.event.value == Evt(s.next, r.target))
    && (forall x <- s.heap :: x in s'.heap && s'.heap[x].body == s.heap[x].body
                              && (s'.heap[x].count == s.heap[x].count || (s.heap[x].count > 0 && (x.Que? || x.Grp?))))
    && (forall x <- s'.heap :: x in s.heap || (x == r && s'.heap[x] == Cell(1, Fixed))
                               || (r.event == Some(x) && s'.heap[x] == Cell(2, Signal(PENDING))))
    && s'.workers == s.workers && s'.logs == s.logs && s'.asleep == s.asleep && s'.leaked == s.leaked
    && s'.maps == s.maps && s'.handles <= s.handles
    && s'.threads == s.threads[t := [Push(r)]]
  }

  lemma PrepareShape(s: State, t: Tid, q: Id, g: Option<Id>, wantEvent: bool)
    requires q in s.heap && q.Que? && (g.Some? ==> g.value in s.heap && g.value.Grp?)
    requires s.heap[q].count > 0 && (g.Some? ==> s.heap[g.value].count > 0)
    requires forall id <- s.heap :: id.n < s.next
    ensures Prepared(s, Prepare(s, t, q, g, wantEvent), t,
                     Req(s.next + 1, q, if wantEvent then Some(Evt(s.next, q)) else None, g))
  {
  }

  lemma PreparedNames(s: State, s': State, t: Tid, r: Id)
    requires Prepared(s, s', t, r) && NamesOk(s) && WellNamed(r)
    requires forall id: Id :: id.n >= s.next ==> s.maps[id] == 0
    ensures NamesOk(s')
  {
    forall x <- s'.heap ensures NameOk(s', x) { if x in s.heap { assert NameOk(s, x); } }
  }

  lemma PreparedShape(s: State, s': State, t: Tid, r: Id)
    requires Prepared(s, s', t, r) && t.Client? && (forall id <- s.heap :: id.n < s.next)
    ensures CallShape(s, s', t)
  {
  }

  lemma PreparedStructure(s: State, s': State, t: Tid, r: Id)
    requires Inv(s) && Prepared(s, s', t, r) && WellNamed(r) && t.Client? && Ops(s, t) == [] && Conserved(s')
    ensures Structured(s')
  {
    hide Balanced, NamesOk, ThreadsOk, WorkersOk, SleepersOk, CallShape;
    AllNamed(s);
    forall id | id in s.maps ensures id.n < s.next { HandleLive(s, id); }
    PreparedNames(s, s', t, r);
    PreparedShape(s, s', t, r);
    assert ThreadOk(s', t) by {
      assert s'.threads[t] == [Push(r)] && OpOk(s', t, Push(r));
    }
    hide Prepared, ThreadOk;
    ShapeKeepsStructure(s, s', t);
  }

  lemma EnqueueStructure(s: State, t: Tid, q: Id, g: Option<Id>, wantEvent: bool)
    requires Inv(s) && t.Client? && Ops(s, t) == []
    requires MayCall(s, Enqueue(q, g, wantEvent, true)) && CallFaultless(s, Enqueue(q, g, wantEvent, true))
    requires Conserved(ApplyCall(s, t, Enqueue(q, g, wantEvent, true)))
    ensures Structured(ApplyCall(s, t, Enqueue(q, g, wantEvent, true)))
  {
    hide Balanced, NamesOk, ThreadsOk, WorkersOk, SleepersOk, Prepare, Prepared;
    AllNamed(s);
    HandleLive(s, q);
    if g.Some? { HandleLive(s, g.value); }
    PrepareShape(s, t, q, g, wantEvent);
    PreparedStructure(s, ApplyCall(s, t, Enqueue(q, g, wantEvent, true)), t,
                      Req(s.next + 1, q, if wantEvent then Some(Evt(s.next, q)) else None, g));
  }

  lemma CreationStructure(s: State, t: Tid, call: Call)
    requires Inv(s) && Ops(s, t) == [] && t.Client? && MayCall(s, call) && CallFaultless(s, call)
    requires Conserved(ApplyCall(s, t, call)) && (call.OpenDevice? || call.NewHostBuffer? || call.NewGroup?)
    ensures Structured(ApplyCall(s, t, call))
  {
    hide Balanced, NameOk, ThreadsOk, WorkersOk, SleepersOk, Prepare;
    AllNamed(s);
    match call {
      case OpenDevice => NewKeepsStructure(s, t, Dev(s.next), Fixed);
      case NewHostBuffer(size) => NewKeepsStructure(s, t, Buf(s.next, None, size), Mappable(0));
      case NewGroup => NewKeepsStructure(s, t, Grp(s.next), Slots([]));
    }
  }

  lemma HandleStructure(s: State, t: Tid, call: Call)
    requires Inv(s) && Ops(s, t) == [] && t.Client? && MayCall(s, call) && CallFaultless(s, call)
    requires Conserved(ApplyCall(s, t, call)) && (call.Retain? || call.MapBuffer? || call.GetSlot? || call.AddSlot?)
    ensures Structured(ApplyCall(s, t, call))
  {
    hide Balanced, NameOk, ThreadsOk, WorkersOk, SleepersOk, Prepare, Live;
    match call {
      case Retain(id) => HandleLive(s, id); RetainKeepsStructure(s, t, id);
      case MapBuffer(b, offset, size) => MapStructure(s, t, b, offset, size);
      case GetSlot(g, i) => GetSlotStructure(s, t, g, i);
      case AddSlot(g, b, ok) => if ok { AddSlotStructure(s, t, g, b); }
    }
  }

  lemma DropStructure(s: State, t: Tid, call: Call)
    requires Inv(s) && Ops(s, t) == [] && t.Client? && MayCall(s, call) && CallFaultless(s, call)
    requires Conserved(ApplyCall(s, t, call)) && (call.Drop? || call.UnmapBuffer? || call.AwaitEvent?)
    ensures Structured(ApplyCall(s, t, call))
  {
    hide Balanced, NameOk, ThreadsOk, WorkersOk, SleepersOk, Prepare;
    AllNamed(s);
    match call {
      case Drop(id) => HandleLive(s, id); HandOverStructure(s, t, id, Release(id));
      case UnmapBuffer(b, delta) => UnmapStructure(s, t, b, delta);
      case AwaitEvent(e) => HandOverStructure(s, t, e, Wait(e));
    }
  }

  lemma DeviceStructure(s: State, t: Tid, call: Call)
    requires Inv(s) && Ops(s, t) == [] && t.Client? && MayCall(s, call) && CallFaultless(s, call)
    requires Conserved(ApplyCall(s, t, call)) && (call.NewDeviceBuffer? || call.NewQueue?)
    ensures Structured(ApplyCall(s, t, call))
  {
    hide Balanced, NameOk, ThreadsOk, WorkersOk, SleepersOk, Prepare;
    HandleLive(s, call.d);
    RetainStructure(s, ApplyCall(s, t, call), t, call.d,
                    if call.NewQueue? then FinishQueue(call.d) else FinishBuffer(call.d, call.size));
  }

  lemma SetStructure(s: State, t: Tid, call: Call)
    requires Inv(s) && Ops(s, t) == [] && t.Client? && MayCall(s, call) && CallFaultless(s, call)
    requires Conserved(ApplyCall(s, t, call)) && call.SetInGroup?
    ensures Structured(ApplyCall(s, t, call))
  {
    hide Balanced, NameOk, ThreadsOk, WorkersOk, SleepersOk, Prepare;
    AllNamed(s);
    HandleLive(s, call.b);
    RetainStructure(s, ApplyCall(s, t, call), t, call.b, SetSlot(call.g, call.i, call.b));
  }

  lemma EnqueueCallStructure(s: State, t: Tid, call: Call)
    requires Inv(s) && Ops(s, t) == [] && t.Client? && MayCall(s, call) && CallFaultless(s, call)
    requires Conserved(ApplyCall(s, t, call)) && call.Enqueue?
    ensures Structured(ApplyCall(s, t, call))
  {
    hide Balanced, NameOk, ThreadsOk, WorkersOk, SleepersOk, Prepare;
    if call.ok { EnqueueStructure(s, t, call.q, call.group, call.wantEvent); }
  }

  lemma CallKeepsStructure(s: State, t: Tid, call: Call)
    requires Inv(s) && Ops(s, t) == [] && t.Client? && MayCall(s, call) && CallFaultless(s, call)
    requires Conserved(ApplyCall(s, t, call))
    ensures Structured(ApplyCall(s, t, call))
  {
    hide Inv, MayCall, CallFaultless, Conserved, Structured, ApplyCall;
    match call {
      case Drop(_) => DropStructure(s, t, call);
      case UnmapBuffer(_, _) => DropStructure(s, t, call);
      case AwaitEvent(_) => DropStructure(s, t, call);
      case NewDeviceBuffer(_, _) => DeviceStructure(s, t, call);
      case NewQueue(_) => DeviceStructure(s, t, call);
      case SetInGroup(_, _, _) => SetStructure(s, t, call);
      case Enqueue(_, _, _, _) => EnqueueCallStructure(s, t, call);
      case _ =>
        if call.OpenDevice? || call.NewHostBuffer? || call.NewGroup? {
          CreationStructure(s, t, call);
        } else {
          HandleStructure(s, t, call);
        }
    }
  }

  lemma RetainKeepsStructure(s: State, t: Tid, id: Id)
    requires Inv(s) && t.Client? && Ops(s, t) == [] && id in s.handles
    requires id in s.heap && s.heap[id].count > 0 && Conserved(Granted(Retained(s, id), id))
    ensures Structured(Granted(Retained(s, id), id))
  {
    hide Balanced, ThreadsOk, WorkersOk, SleepersOk;
    assert NameOk(s, id);
    IdleWork(s, Granted(Retained(s, id), id), t);
    WriteKeepsStructure(s, Granted(Retained(s, id), id), t, id);
  }
}
