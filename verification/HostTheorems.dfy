// What the XRP host library promises, for every state of every run.
module HostTheorems {
  import opened Bags
  import opened HostObjects
  import opened HostSteps
  import opened HostInvariant
  import opened HostConservation
  import opened HostStructure
  import opened HostOperations
  import opened HostRuns

  ghost predicate Reachable(s: State) {
    exists run: seq<State>, i: nat :: IsRun(run) && i < |run| && run[i] == s
  }

  lemma ReachableInv(s: State)
    requires Reachable(s)
    ensures Inv(s)
  {
    hide Inv, IsRun;
    var run: seq<State>, i: nat :| IsRun(run) && i < |run| && run[i] == s;
    RunInvariant(run, i);
  }

  // ---- memory safety and conservation ----

  // Whatever interleaving led here, no thread's next step touches freed memory, drops a count below zero or
  // frees something still referenced.
  lemma NoMemoryFault(s: State, step: Step)
    requires Reachable(s) && Guard(s, step)
    ensures Faultless(s, step)
  {
    hide Inv, Guard, Faultless;
    ReachableInv(s);
    StepKeepsInvariant(s, step);
  }

  // All owners of an object: client handles and mappings, requests lost with a queue, fields of objects in
  // memory, and the work threads have still to do.
  ghost function Owners(s: State, id: Id): nat {
    s.handles[id] + s.maps[id] + s.leaked[id]
    + Sum(s.heap, (k, c) => CellClaims(k, c, Ref(id)))
    + Sum(s.threads, (t: Tid, ops) => OpsClaims(ops, Ref(id)))
  }

  // Reference conservation: the count is the number of owners, nothing owns an object that is not in memory,
  // and an object's count is zero exactly while one thread is on its way to free it.
  lemma ReferencesConserved(s: State, id: Id)
    requires Reachable(s)
    ensures Owners(s, id) == (if id in s.heap then s.heap[id].count else 0)
    ensures Sum(s.threads, (t: Tid, ops) => OpsClaims(ops, Kill(id))) == (if id in s.heap && s.heap[id].count == 0 then 1 else 0)
  {
    ReachableInv(s);
    assert Balanced(s, Ref(id));
    assert Balanced(s, Kill(id));
    NoCellKills(s.heap, id);
  }

  lemma NoCellKills(h: map<Id, Cell>, x: Id)
    ensures HeapTally(h, Kill(x)) == 0
  {
    if HeapTally(h, Kill(x)) > 0 {
      var k := SumSource(h, (id, c) => CellClaims(id, c, Kill(x)));
      assert false;
    }
  }

  // Object e stays, and if it is an event its status stays.
  ghost predicate Stays(s: State, s': State, e: Id) {
    e in s.heap ==> e in s'.heap && (e.Evt? ==> s'.heap[e].body == s.heap[e].body)
  }

  lemma PrepareStays(s: State, t: Tid, q: Id, g: Option<Id>, wantEvent: bool, e: Id)
    requires q in s.heap && (g.Some? ==> g.value in s.heap) && (e in s.heap ==> e.n < s.next)
    ensures Stays(s, Prepare(s, t, q, g, wantEvent), e)
  {
  }

  lemma CallEffects(s: State, t: Tid, call: Call, e: Id)
    requires MayCall(s, call) && CallFaultless(s, call) && (e in s.heap ==> e.n < s.next)
    ensures Stays(s, ApplyCall(s, t, call), e)
  {
    hide Prepare, BodyFits, Stays;
    if call.Enqueue? {
      if call.ok { PrepareStays(s, t, call.q, call.group, call.wantEvent, e); } else { StaysSelf(s, e); }
    } else {
      PlainCallEffects(s, t, call, e);
    }
  }

  lemma StaysSelf(s: State, e: Id)
    ensures Stays(s, s, e)
  {
  }

  // Calls that create an object or take references write no status.
  lemma PlainCallEffects(s: State, t: Tid, call: Call, e: Id)
    requires MayCall(s, call) && CallFaultless(s, call) && (e in s.heap ==> e.n < s.next) && !call.Enqueue?
    ensures Stays(s, ApplyCall(s, t, call), e)
  {
    hide ApplyCall;
    if call.OpenDevice? || call.NewHostBuffer? || call.NewGroup? || call.Retain? {
      CreationEffects(s, t, call, e);
    } else if call.MapBuffer? || call.GetSlot? || call.AddSlot? {
      BufferEffects(s, t, call, e);
    } else {
      HandOverEffects(s, t, call, e);
    }
  }

  lemma CreationEffects(s: State, t: Tid, call: Call, e: Id)
    requires MayCall(s, call) && CallFaultless(s, call) && (e in s.heap ==> e.n < s.next)
    requires call.OpenDevice? || call.NewHostBuffer? || call.NewGroup? || call.Retain?
    ensures Stays(s, ApplyCall(s, t, call), e)
  {
  }

  lemma BufferEffects(s: State, t: Tid, call: Call, e: Id)
    requires MayCall(s, call) && CallFaultless(s, call)
    requires call.MapBuffer? || call.GetSlot? || call.AddSlot?
    ensures Stays(s, ApplyCall(s, t, call), e)
  {
  }

  lemma HandOverEffects(s: State, t: Tid, call: Call, e: Id)
    requires MayCall(s, call) && CallFaultless(s, call)
    requires call.Drop? || call.UnmapBuffer? || call.NewDeviceBuffer? || call.NewQueue? || call.SetInGroup? || call.AwaitEvent?
    ensures Stays(s, ApplyCall(s, t, call), e)
  {
  }

  lemma CallLeaks(s: State, t: Tid, call: Call)
    requires MayCall(s, call) && CallFaultless(s, call)
    ensures ApplyCall(s, t, call).leaked == s.leaked
  {
    hide Prepare;
    if call.Enqueue? && call.ok { PrepareLeaks(s, t, call.q, call.group, call.wantEvent); }
  }

  lemma PrepareLeaks(s: State, t: Tid, q: Id, g: Option<Id>, wantEvent: bool)
    requires q in s.heap && (g.Some? ==> g.value in s.heap)
    ensures Prepare(s, t, q, g, wantEvent).leaked == s.leaked
  {
  }

  lemma WorkEffects(s: State, t: Tid, op: Op, rest: seq<Op>, ok: bool, e: Id)
    requires OpFaultless(s, t, op) && (e in s.heap ==> e.n < s.next)
             && (op.Release? || op.Free? || op.Destroy? || op.Run? || op.Complete?)
    ensures op == Free(e) || (op.Complete? && op.e == e) || Stays(s, ApplyOp(s, t, op, rest, ok), e)
    ensures op.Complete? && op.e == e ==> e in ApplyOp(s, t, op, rest, ok).heap
  {
  }

  lemma ClientEffects(s: State, t: Tid, op: Op, rest: seq<Op>, ok: bool, e: Id)
    requires OpFaultless(s, t, op) && (e in s.heap ==> e.n < s.next) && (op.Push? || op.Wait? || op.SetSlot?)
    ensures op == Free(e) || (op.Complete? && op.e == e) || Stays(s, ApplyOp(s, t, op, rest, ok), e)
    ensures op.Complete? && op.e == e ==> e in ApplyOp(s, t, op, rest, ok).heap
  {
  }

  lemma FinishEffects(s: State, t: Tid, op: Op, rest: seq<Op>, ok: bool, e: Id)
    requires OpFaultless(s, t, op) && (e in s.heap ==> e.n < s.next) && (op.FinishBuffer? || op.FinishQueue?)
    ensures op == Free(e) || (op.Complete? && op.e == e) || Stays(s, ApplyOp(s, t, op, rest, ok), e)
    ensures op.Complete? && op.e == e ==> e in ApplyOp(s, t, op, rest, ok).heap
  {
  }

  lemma OpEffects(s: State, t: Tid, op: Op, rest: seq<Op>, ok: bool, e: Id)
    requires OpFaultless(s, t, op) && (e in s.heap ==> e.n < s.next)
    ensures op == Free(e) || (op.Complete? && op.e == e) || Stays(s, ApplyOp(s, t, op, rest, ok), e)
    ensures op.Complete? && op.e == e ==> e in ApplyOp(s, t, op, rest, ok).heap
  {
    hide ApplyOp, OpFaultless, Stays;
    if op.FinishBuffer? || op.FinishQueue? { FinishEffects(s, t, op, rest, ok, e); }
    else if op.Push? || op.Wait? || op.SetSlot? { ClientEffects(s, t, op, rest, ok, e); }
    else { WorkEffects(s, t, op, rest, ok, e); }
  }

  lemma FreeRemoves(s: State, t: Tid, e: Id, rest: seq<Op>, ok: bool)
    requires OpFaultless(s, t, Free(e))
    ensures e !in ApplyOp(s, t, Free(e), rest, ok).heap
  {
  }

  lemma OpLeaks(s: State, t: Tid, op: Op, rest: seq<Op>, ok: bool)
    requires OpFaultless(s, t, op)
    ensures ApplyOp(s, t, op, rest, ok).leaked
            == s.leaked + (if op.Free? && op.id.Que? then multiset(s.heap[op.id].body.pending) else multiset{})
  {
  }

  // An object leaves memory only when its count is zero, at the hands of a thread that is to free it.
  lemma FreedAtZero(s: State, step: Step, id: Id)
    requires Reachable(s) && Guard(s, step) && Faultless(s, step)
    requires id in s.heap && id !in Apply(s, step).heap
    ensures s.heap[id].count == 0 && step.Exec? && Ops(s, step.t)[0] == Free(id)
  {
    hide Inv, ApplyCall, ApplyOp;
    ReachableInv(s);
    Fresh(s);
    match step {
      case Begin(t, call) => CallEffects(s, t, call, id);
      case Exec(t, ok) => OpEffects(s, t, Ops(s, t)[0], Ops(s, t)[1..], ok, id);
      case Take(_) =>
      case Return(_) =>
      case Wake(_) =>
    }
  }

  // ---- failed calls change no count ----

  // xrp_create_nsp_queue and xrp_create_buffer whose allocation fails: the device retained first is released
  // again, and everything is as before the call.
  lemma FailedCreateIsNeutral(s: State, t: Tid, call: Call)
    requires Inv(s) && Guard(s, Begin(t, call)) && (call.NewQueue? || call.NewDeviceBuffer?)
    ensures var s1 := Do(s, Begin(t, call));
            var s2 := Do(s1, Exec(t, false));
            Do(s2, Exec(t, true)) == s.(threads := s.threads[t := []])
  {
    hide Inv, Faultless;
    var d := call.d;
    HandleLive(s, d) by { InvConserved(s); }
    StepKeepsInvariant(s, Begin(t, call));
    var s1 := Do(s, Begin(t, call));
    NotAsleep(s1, t);
    StepKeepsInvariant(s1, Exec(t, false));
    var s2 := Do(s1, Exec(t, false));
    OnlyRelease(s, s1, t, Ops(s1, t)[0], d);
    ReleaseUndoes(s, s2, t, d);
  }

  lemma OnlyRelease(s: State, s1: State, t: Tid, op: Op, d: Id)
    requires s1.threads == s.threads[t := [op]]
    ensures Ops(s1, t)[1..] == [] && [Release(d)] + [] == [Release(d)]
    ensures s1.threads[t := [Release(d)]] == s.threads[t := [Release(d)]]
  {
  }

  // Releasing a reference that was only just taken restores the state.
  lemma ReleaseUndoes(s: State, s2: State, t: Tid, d: Id)
    requires Inv(s2) && d in s.heap && s.heap[d].count > 0 && t.Client? && s2 == Doing(Retained(s, d), t, [Release(d)])
    ensures Do(s2, Exec(t, true)) == s.(threads := s.threads[t := []])
  {
    hide Inv, Faultless;
    NotAsleep(s2, t);
    StepKeepsInvariant(s2, Exec(t, true));
    assert s2.heap[d := s.heap[d]] == s.heap;
    assert s2.threads[t := []] == s.threads[t := []];
  }

  // xrp_set_buffer_in_group with an index beyond the group likewise.
  lemma FailedSetIsNeutral(s: State, t: Tid, g: Id, i: nat, b: Id)
    requires Inv(s) && Guard(s, Begin(t, SetInGroup(g, i, b)))
    requires g in s.heap && s.heap[g].body.Slots? && |s.heap[g].body.slots| <= i
    ensures var s1 := Do(s, Begin(t, SetInGroup(g, i, b)));
            var s2 := Do(s1, Exec(t, true));
            Do(s2, Exec(t, true)) == s.(threads := s.threads[t := []])
  {
    hide Inv, Faultless;
    HandleLive(s, b) by { InvConserved(s); }
    StepKeepsInvariant(s, Begin(t, SetInGroup(g, i, b)));
    var s1 := Do(s, Begin(t, SetInGroup(g, i, b)));
    NotAsleep(s1, t);
    StepKeepsInvariant(s1, Exec(t, true));
    var s2 := Do(s1, Exec(t, true));
    OnlyRelease(s, s1, t, SetSlot(g, i, b), b);
    assert s2.handles == s.handles;
    ReleaseUndoes(s, s2, t, b);
  }

  // The state after a step, or the state itself when the step cannot be taken.
  ghost function Do(s: State, step: Step): State {
    if Guard(s, step) && Faultless(s, step) then Apply(s, step) else s
  }

  lemma InvConserved(s: State)
    requires Inv(s)
    ensures Conserved(s)
  {
  }

  // A client with work other than waiting is awake.
  lemma NotAsleep(s: State, t: Tid)
    requires Inv(s) && t.Client? && Ops(s, t) != [] && !Ops(s, t)[0].Wait?
    ensures t !in s.asleep
  {
    assert t in s.asleep ==> SleeperOk(s, t);
  }

  // ---- nobody waits in vain ----

  // Request r carries event e towards its completion.
  ghost predicate Carries(s: State, e: Id, r: Id) {
    && e.Evt? && r.Req? && r.event == Some(e) && r.target == e.queue
    && (|| (e.queue in s.heap && s.heap[e.queue].body.Fifo? && r in s.heap[e.queue].body.pending)
        || (exists t: Tid :: t.Client? && Ops(s, t) == [Push(r)])
        || Running(Ops(s, Worker(e.queue)), r))
  }

  // The worker of e's queue is about to publish the result of e.
  ghost predicate Completing(s: State, e: Id) {
    e.Evt? && OpsClaims(Ops(s, Worker(e.queue)), Owe(e)) > 0
  }

  ghost predicate QueueAlive(s: State, q: Id) {
    && q in s.heap && s.heap[q].count > 0 && s.heap[q].body.Fifo? && !s.heap[q].body.exit
    && q in s.workers && !s.workers[q].pc.Exited? && !s.workers[q].quit
  }

  // A live request is held by its queue, by the client pushing it or by the worker running it.
  lemma RequestHolder(s: State, r: Id, e: Id)
    requires Inv(s) && r.Req? && r in s.heap && s.heap[r].count > 0 && r.event == Some(e)
    ensures Carries(s, e, r)
  {
    hide Sum, WorkersOk, SleepersOk;
    assert NameOk(s, r);
    assert Balanced(s, Ref(r));
    if HeapTally(s.heap, Ref(r)) > 0 {
      var k := SumSource(s.heap, (id, c) => CellClaims(id, c, Ref(r))) by { HeapTallySum(s.heap, Ref(r)); }
      assert NameOk(s, k);
    } else if ThreadTally(s.threads, Ref(r)) > 0 {
      var t := SumSource(s.threads, (t: Tid, ops) => OpsClaims(ops, Ref(r))) by { ThreadTallySum(s.threads, Ref(r)); }
      var op := OpsSource(s.threads[t], Ref(r));
      assert ThreadOk(s, t) && OpOk(s, t, op);
      if op.Destroy? { UnhideWorker(s, op.q); }
    }
  }

  lemma HeapTallySum(h: map<Id, Cell>, x: Claim)
    ensures HeapTally(h, x) == Sum(h, (id, c) => CellClaims(id, c, x))
  {
  }

  lemma ThreadTallySum(threads: map<Tid, seq<Op>>, x: Claim)
    ensures ThreadTally(threads, x) == Sum(threads, (t: Tid, ops) => OpsClaims(ops, x))
  {
  }

  lemma PendingIsCarried(s: State, e: Id) returns (r: Id)
    requires Inv(s) && Pending(s, e) && e.Evt?
    ensures Carries(s, e, r) || Completing(s, e)
  {
    hide Sum, WorkersOk, SleepersOk, NamesOk;
    assert Balanced(s, Owe(e));
    r := e;
    if HeapTally(s.heap, Owe(e)) > 0 {
      r := SumSource(s.heap, (id, c) => CellClaims(id, c, Owe(e))) by { HeapTallySum(s.heap, Owe(e)); }
      RequestHolder(s, r, e);
    } else {
      var t := SumSource(s.threads, (t: Tid, ops) => OpsClaims(ops, Owe(e))) by { ThreadTallySum(s.threads, Owe(e)); }
      var op := OpsSource(s.threads[t], Owe(e));
      assert ThreadOk(s, t) && OpOk(s, t, op);
      OpsHold(Ops(s, t), op, Owe(e));
    }
  }

  // The queue of a pending event is alive: the event holds it.
  lemma PendingQueueAlive(s: State, e: Id)
    requires Inv(s) && Pending(s, e) && e.Evt?
    ensures QueueAlive(s, e.queue)
  {
    hide Sum, SleepersOk, ThreadsOk;
    var q := e.queue;
    PendingIsHeld(s, e);
    CellTallied(s, e, Ref(q));
    RefLive(s, q);
    assert NameOk(s, e) && NameOk(s, q);
    assert WorkerOk(s, q);
  }

  // No stranded waiter: as long as an event is pending, its queue is referenced and not told to exit, the
  // queue's worker is running, and its request is queued, being pushed, being run or being completed.
  lemma NoStrandedWaiter(s: State, e: Id)
    requires Reachable(s) && Pending(s, e)
    ensures e.Evt? && QueueAlive(s, e.queue)
    ensures Completing(s, e) || exists r :: Carries(s, e, r)
  {
    hide Sum, WorkersOk, SleepersOk, ThreadsOk;
    ReachableInv(s);
    assert NameOk(s, e);
    PendingQueueAlive(s, e);
    var r := PendingIsCarried(s, e);
  }

  lemma BusyWorkerMoves(s: State, q: Id) returns (step: Step)
    requires Inv(s) && q in s.workers && s.workers[q].pc.Busy?
    ensures Guard(s, step) && (step == Return(q) || step == Exec(Worker(q), true))
  {
    hide Conserved, NamesOk, WorkersOk;
    var t := Worker(q);
    if Ops(s, t) == [] {
      step := Return(q);
    } else {
      assert t !in s.asleep by { assert t in s.asleep ==> SleeperOk(s, t); }
      HeadOk(s, t);
      step := Exec(t, true);
    }
  }

  // Whoever sleeps without having been signalled has nothing to do yet: a worker's queue is empty and not
  // being destroyed although xrp_queue_push signals only an empty queue, a client's event is pending.
  lemma NoLostWakeup(s: State, t: Tid)
    requires Reachable(s) && t in s.asleep
    ensures t.Worker? ==> t.q in s.heap && s.heap[t.q].body == Fifo([], false)
    ensures t.Client? ==> Ops(s, t) != [] && Ops(s, t)[0].Wait? && Pending(s, Ops(s, t)[0].e)
  {
    ReachableInv(s);
    assert SleeperOk(s, t);
  }

  // A status leaves PENDING at most once: whatever step is taken, a completed event keeps its status.
  lemma StatusIsFinal(s: State, step: Step, e: Id)
    requires Reachable(s) && Guard(s, step) && Faultless(s, step) && e.Evt?
    requires e in s.heap && !Pending(s, e) && e in Apply(s, step).heap
    ensures Apply(s, step).heap[e].body == s.heap[e].body
  {
    hide Inv, IsRun, ApplyCall, ApplyOp;
    ReachableInv(s);
    Fresh(s);
    match step {
      case Begin(t, call) => CallEffects(s, t, call, e);
      case Exec(t, ok) =>
        OpEffects(s, t, Ops(s, t)[0], Ops(s, t)[1..], ok, e);
        if Ops(s, t)[0].Complete? { OwedEvent(s, t, Ops(s, t)[0].e, Ops(s, t)[0].result); }
        if Ops(s, t)[0] == Free(e) { FreeRemoves(s, t, e, Ops(s, t)[1..], ok); }
      case Take(q) => QueueIsQue(s, q);
      case Return(_) =>
      case Wake(_) =>
    }
  }

  lemma QueueIsQue(s: State, q: Id)
    requires Inv(s) && q in s.workers
    ensures q.Que?
  {
    assert WorkerOk(s, q);
  }

  // ---- first in, first out ----

  // Exactly once, in order: what has been pushed to a queue is what its worker has finished, then the
  // request it has in hand, then what is still queued. A request can only be left over if the worker
  // destroyed its own queue, and then it has no event.
  lemma ExactlyOnceFifo(s: State, q: Id)
    requires Reachable(s) && q in s.workers
    ensures q in s.logs
    ensures q in s.heap ==>
              && s.heap[q].body.Fifo?
              && s.logs[q].pushed == s.logs[q].done + InFlight(s.workers[q]) + s.heap[q].body.pending
    ensures q !in s.heap ==> exists lost: seq<Id> ::
              && s.logs[q].pushed == s.logs[q].done + InFlight(s.workers[q]) + lost
              && (forall r <- lost :: r.Req? && r.event.None?)
              && (lost != [] ==> s.workers[q].quit)
  {
    hide Conserved;
    ReachableInv(s);
    assert WorkerOk(s, q) && LogOk(s, q);
    var front := s.logs[q].done + InFlight(s.workers[q]);
    assert s.logs[q].pushed == front + s.logs[q].pushed[|front|..];
  }

  // When a later command's event is complete, so is that of every earlier command of the same queue.
  lemma CompletionInOrder(s: State, q: Id, i: nat, j: nat)
    requires Reachable(s) && q in s.workers && q in s.logs && i < j < |s.logs[q].pushed|
    requires var r := s.logs[q].pushed[j]; r.Req? && r.event.Some? && r.event.value in s.heap
                                           && !Pending(s, r.event.value)
    ensures var r := s.logs[q].pushed[i]; r.Req? && r.event.Some? ==> !Pending(s, r.event.value)
  {
    hide Inv, IsRun;
    ReachableInv(s);
    var r := s.logs[q].pushed[i];
    if r.Req? && r.event.Some? && Pending(s, r.event.value) {
      NotYetDone(s, q, i);
      StillQueued(s, q, j);
      assert false;
    }
  }

  // A request with a pending event is at the worker or still queued, on a queue that is alive.
  lemma NotYetDone(s: State, q: Id, i: nat)
    requires Inv(s) && q in s.workers && q in s.logs && i < |s.logs[q].pushed|
    requires var r := s.logs[q].pushed[i]; r.Req? && r.event.Some? && Pending(s, r.event.value)
    ensures |s.logs[q].done| <= i && q in s.heap && q.Que?
  {
    hide Sum, ThreadsOk, SleepersOk;
    assert WorkerOk(s, q) && LogOk(s, q);
    var r := s.logs[q].pushed[i];
    assert ReqOk(s, q, r);
    PendingQueueAlive(s, r.event.value);
    DonePrefix(s, q);
  }

  lemma DonePrefix(s: State, q: Id)
    requires q in s.workers && LogOk(s, q)
    ensures forall k :: 0 <= k < |s.logs[q].done| ==> s.logs[q].pushed[k] in s.logs[q].done
  {
    var front := s.logs[q].done + InFlight(s.workers[q]);
    forall k | 0 <= k < |s.logs[q].done| ensures s.logs[q].pushed[k] in s.logs[q].done {
      assert front[k] == s.logs[q].done[k];
    }
  }

  // Everything pushed after the request in hand is still queued, its event pending.
  lemma StillQueued(s: State, q: Id, j: nat)
    requires Inv(s) && q in s.workers && q in s.logs && |s.logs[q].done| < j < |s.logs[q].pushed|
    requires q in s.heap && q.Que?
    ensures var r := s.logs[q].pushed[j]; r.Req? && r.event.Some? ==> Pending(s, r.event.value)
  {
    hide Conserved, ThreadsOk, SleepersOk;
    assert WorkerOk(s, q) && LogOk(s, q);
    var r := s.logs[q].pushed[j];
    assert Untaken(s, q)[j - |s.logs[q].done + InFlight(s.workers[q])|] == r;
    if r.Req? && r.event.Some? { LaterIsPending(s, q, r); }
  }

  // The event of a request that is still queued is pending.
  lemma LaterIsPending(s: State, q: Id, r: Id)
    requires Inv(s) && q in s.heap && q.Que? && s.heap[q].body.Fifo? && r in s.heap[q].body.pending
    requires r.Req? && r.event.Some?
    ensures Pending(s, r.event.value)
  {
    hide Sum, ThreadsOk, WorkersOk, SleepersOk;
    CellTallied(s, q, Ref(r));
    RefLive(s, r);
    assert NameOk(s, r);
    CellTallied(s, r, Owe(r.event.value));
    assert Balanced(s, Owe(r.event.value));
  }

  // ---- destroying queues ----

  // A destroy from another thread gets past pthread_join only after every request was processed.
  lemma JoinAfterDrain(s: State, t: Tid, q: Id)
    requires Reachable(s) && Ops(s, t) != [] && Ops(s, t)[0] == Destroy(q, true) && t != Worker(q)
    requires Guard(s, Exec(t, true))
    ensures q in s.heap && s.heap[q].body == Fifo([], true) && q in s.logs && s.logs[q].done == s.logs[q].pushed
  {
    hide Sum, SleepersOk, IsRun;
    ReachableInv(s);
    HeadOk(s, t);
    OpKillLive(s, t, Destroy(q, true), q);
    assert WorkerOk(s, q) && LogOk(s, q);
    OpsHold(Ops(s, t), Destroy(q, true), Kill(q));
    OneKiller(s, q);
    if s.workers[q].quit { TwoKillers(s, t, Worker(q), q); }
    assert s.workers[q] == WorkerState(Exited, false);
  }

  // Two threads cannot both be about to free a queue.
  lemma TwoKillers(s: State, t1: Tid, t2: Tid, q: Id)
    requires t1 != t2
    requires OpsClaims(Ops(s, t1), Kill(q)) > 0 && OpsClaims(Ops(s, t2), Kill(q)) > 0
    ensures Tally(s, Kill(q)) >= 2
  {
    SumTwo(s.threads, (t: Tid, ops) => OpsClaims(ops, Kill(q)), t1, t2);
  }

  lemma OneKiller(s: State, q: Id)
    requires Conserved(s)
    ensures Tally(s, Kill(q)) <= 1
  {
    assert Balanced(s, Kill(q));
  }

  // Once a queue's memory is gone, its worker either has exited or is about to return from the very call
  // that destroyed the queue, and will exit then without looking at the queue.
  lemma WorkerOutlivesQueue(s: State, q: Id)
    requires Reachable(s) && q in s.workers && q !in s.heap
    ensures s.workers[q].pc.Exited? || (s.workers[q].pc.Busy? && s.workers[q].quit)
    ensures !Guard(s, Take(q))
    ensures Guard(s, Return(q)) && Faultless(s, Return(q)) ==> Apply(s, Return(q)).workers[q].pc.Exited?
  {
    hide Conserved;
    ReachableInv(s);
    assert WorkerOk(s, q);
  }

  // Any destroy finds only requests without an event in the queue.
  lemma DestroyFindsNoEvents(s: State, q: Id)
    requires Reachable(s) && q in s.heap && q.Que? && s.heap[q].count == 0
    ensures s.heap[q].body.Fifo? && forall r <- s.heap[q].body.pending :: r.Req? && r.event.None?
  {
    ReachableInv(s);
    DyingQueueHasNoEvents(s, q);
  }

  // Requests are lost exactly when a worker frees its own queue while something is still queued. This is
  // what "releasing non-empty queue" warns of.
  lemma LostExactlyBySelfDestroy(s: State, step: Step)
    requires Reachable(s) && Guard(s, step) && Faultless(s, step)
    ensures Apply(s, step).leaked != s.leaked <==>
            exists q: Id :: q.Que? && step.Exec? && step.t == Worker(q) && Ops(s, step.t)[0] == Free(q)
                            && q in s.heap && s.heap[q].body.Fifo? && s.heap[q].body.pending != []
  {
    hide Inv, IsRun, ApplyCall, ApplyOp;
    ReachableInv(s);
    match step {
      case Begin(t, call) => CallLeaks(s, t, call);
      case Exec(t, ok) =>
        OpLeaks(s, t, Ops(s, t)[0], Ops(s, t)[1..], ok);
        if Ops(s, t)[0].Free? && Ops(s, t)[0].id.Que? { FreeLoses(s, t, Ops(s, t)[0].id); }
      case Take(_) =>
      case Return(_) =>
      case Wake(_) =>
    }
  }

  lemma FreeLoses(s: State, t: Tid, q: Id)
    requires Inv(s) && Ops(s, t) != [] && Ops(s, t)[0] == Free(q) && q.Que?
    ensures Live(s, q) && (s.heap[q].body.pending != [] ==> t == Worker(q))
    ensures s.heap[q].body.pending != [] ==> s.leaked + multiset(s.heap[q].body.pending) != s.leaked
  {
    hide Sum, SleepersOk;
    OpKillLive(s, t, Free(q), q);
    HeadOk(s, t);
    assert WorkerOk(s, q) && LogOk(s, q);
    OpsHold(Ops(s, t), Free(q), Kill(q));
    OneKiller(s, q);
    var pending := s.heap[q].body.pending;
    if pending != [] {
      var r := pending[0];
      assert (s.leaked + multiset(pending))[r] > s.leaked[r];
      if t != Worker(q) { TwoKillers(s, t, Worker(q), q); }
    }
  }

  // ---- nothing is left behind ----

  // No thread has anything to do: clients are between calls, workers sleep or have exited.
  ghost predicate Quiet(s: State) {
    && (forall t: Tid :: Ops(s, t) == [])
    && (forall q <- s.workers :: s.workers[q].pc.Exited? || Worker(q) in s.asleep)
  }

  lemma QuietClaims(s: State, x: Claim)
    requires Quiet(s)
    ensures ThreadTally(s.threads, x) == 0
  {
    if ThreadTally(s.threads, x) > 0 {
      var t := SumSource(s.threads, (t: Tid, ops) => OpsClaims(ops, x));
      var ops := Ops(s, t);
      assert false;
    }
  }

  // In a quiet state every object is held by a client, was lost with a queue, or is a field of an object.
  lemma QuietOwner(s: State, id: Id) returns (k: Id)
    requires Inv(s) && Quiet(s) && id in s.heap && id !in s.handles && id !in s.maps && id !in s.leaked
    ensures k in s.heap && s.heap[k].count > 0 && FieldClaims(k, s.heap[k].body, Ref(id)) > 0
  {
    hide Sum, ThreadsOk;
    QuietClaims(s, Ref(id));
    QuietClaims(s, Kill(id));
    assert Balanced(s, Ref(id)) && Balanced(s, Kill(id));
    NoCellKills(s.heap, id);
    k := SumSource(s.heap, (k, c) => CellClaims(k, c, Ref(id))) by { HeapTallySum(s.heap, Ref(id)); }
    assert NameOk(s, k);
    if k.Que? { QuietQueueEmpty(s, k); }
  }

  lemma QuietQueueEmpty(s: State, q: Id)
    requires Inv(s) && Quiet(s) && q in s.heap && q.Que?
    ensures s.heap[q].body.Fifo? && s.heap[q].body.pending == []
  {
    hide Conserved, ThreadsOk;
    assert NameOk(s, q) && WorkerOk(s, q) && LogOk(s, q);
    if Worker(q) in s.asleep { assert SleeperOk(s, Worker(q)); }
  }

  ghost function Rank(id: Id): nat {
    match id
    case Req(_, _, _, _) => 0
    case Evt(_, _) => 1
    case Grp(_) => 1
    case Que(_, _) => 2
    case Buf(_, _, _) => 2
    case Dev(_) => 3
  }

  // References lead from lower to higher rank, so ownership has no cycles and ends at a client.
  lemma {:induction false} QuietRoot(s: State, id: Id) returns (root: Id)
    requires Inv(s) && Quiet(s) && id in s.heap
    ensures root in s.handles || root in s.maps || root in s.leaked
    decreases Rank(id)
  {
    if id in s.handles || id in s.maps || id in s.leaked {
      root := id;
    } else {
      var k := QuietOwner(s, id);
      assert NameOk(s, k);
      assert Rank(k) < Rank(id);
      root := QuietRoot(s, k);
    }
  }

  // Once all threads are quiet, clients that hold nothing leave nothing in memory, unless requests were
  // lost with a queue that its own worker destroyed.
  lemma NothingLeftBehind(s: State)
    requires Reachable(s) && Quiet(s)
    requires s.handles == multiset{} && s.maps == multiset{} && s.leaked == multiset{}
    ensures s.heap == map[]
  {
    ReachableInv(s);
    if s.heap != map[] {
      var id :| id in s.heap;
      var root := QuietRoot(s, id);
    }
  }
}
