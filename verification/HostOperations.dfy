// The operations of client and worker threads keep the structural half of the invariant.
module HostOperations {
  import opened Bags
  import opened HostObjects
  import opened HostSteps
  import opened HostInvariant
  import opened HostConservation
  import opened HostStructure

  // Thread t is about to perform op and will then go on with rest.
  ghost predicate At(s: State, t: Tid, op: Op, rest: seq<Op>) {
    Ops(s, t) == [op] + rest && t !in s.asleep
  }

  // The thread replaces op by pre.
  lemma WorkStays(s: State, s': State, t: Tid, op: Op, rest: seq<Op>, pre: seq<Op>)
    requires ThreadsOk(s) && Ops(s, t) == [op] + rest && Onward(s, s') && OthersIdle(s, s', t) && Conserved(s')
    requires t in s'.threads && s'.threads[t] == pre + rest && (forall o <- pre :: OpOk(s', t, o))
    requires t.Worker? ==> t.q in s'.workers && s'.workers[t.q].pc.Busy?
    ensures ThreadsOk(s')
  {
    hide Balanced;
    RestStays(s, s', t, op, rest);
    ThreadsStay(s, s', t);
  }

  // An operation that touches no queue, no worker and no event.
  lemma OpKeepsStructure(s: State, s': State, t: Tid, op: Op, rest: seq<Op>, pre: seq<Op>)
    requires Inv(s) && At(s, t, op, rest) && !op.Run? && !op.Complete?
    requires Onward(s, s') && SameQueues(s, s') && s'.asleep == s.asleep
    requires s'.threads == s.threads[t := pre + rest]
    requires forall e <- s.heap :: e.Evt? && Pending(s, e) ==> Pending(s', e)
    requires Conserved(s') && NamesOk(s') && (forall o <- pre :: OpOk(s', t, o))
    requires t.Worker? && t.q in s'.heap ==> OpClaims(op, Kill(t.q)) <= OpsClaims(pre, Kill(t.q))
    ensures Structured(s')
  {
    hide Balanced, NamesOk;
    assert ThreadOk(s, t);
    WorkStays(s, s', t, op, rest, pre);
    if t.Worker? {
      assert WorkerOk(s, t.q);
      OwingStaysAfter(s, s', t.q, op, rest, pre);
    }
    WorkersStay(s, s', t);
    SleepersUntouched(s, s', t);
  }

  lemma SleepersUntouched(s: State, s': State, t: Tid)
    requires Structured(s) && t !in s.asleep && OthersIdle(s, s', t) && SameQueues(s, s') && s'.asleep == s.asleep
    requires forall e <- s.heap :: e.Evt? && Pending(s, e) ==> Pending(s', e)
    ensures SleepersOk(s')
  {
    forall t2 <- s'.asleep ensures SleeperOk(s', t2) {
      assert SleeperOk(s, t2);
      if t2.Worker? {
        assert WorkerOk(s, t2.q);
      } else {
        assert ThreadOk(s, t2);
        assert OpOk(s, t2, Ops(s, t2)[0]);
      }
    }
  }

  lemma WriteNamesByOp(s: State, s': State, id: Id)
    requires NamesOk(s) && id in s.heap && id in s'.heap && s'.heap == s.heap[id := s'.heap[id]]
    requires s'.next == s.next && s.workers.Keys <= s'.workers.Keys && s'.maps == s.maps && s'.leaked == s.leaked
    requires forall x <- s'.handles :: x in s.handles || !x.Req?
    requires BodyFits(id, s'.heap[id].body)
    requires id.Buf? ==> s'.heap[id].body == s.heap[id].body
    requires id.Que? ==> (s'.heap[id].body.exit ==> s'.heap[id].count == 0)
    requires id.Req? ==> s'.heap[id].count <= 1
    ensures NamesOk(s')
  {
    assert NameOk(s, id);
    forall x <- s'.heap ensures NameOk(s', x) { assert x in s.heap && NameOk(s, x); }
  }

  // ---- release and free ----

  lemma DeathOpsOk(s: State, t: Tid, id: Id, body: Body)
    requires WellNamed(id) && !id.Req? && BodyFits(id, body) && Within(t, id) && (id.Que? ==> id in s.workers)
    ensures forall o <- DeathOps(id, body) :: OpOk(s, t, o)
  {
    if id.Grp? {
      forall o <- Releases(body.slots) ensures OpOk(s, t, o) {
        var i :| 0 <= i < |body.slots| && o == Release(body.slots[i]);
        assert body.slots[i] in body.slots;
      }
    }
  }

  lemma ReleaseShape(s: State, s': State, t: Tid, id: Id, rest: seq<Op>)
    requires OpFaultless(s, t, Release(id)) && s' == ApplyOp(s, t, Release(id), rest, true)
    ensures Onward(s, s') && SameQueues(s, s')
  {
  }

  lemma ReleaseNames(s: State, s': State, t: Tid, id: Id, rest: seq<Op>)
    requires NamesOk(s) && OpFaultless(s, t, Release(id)) && s' == ApplyOp(s, t, Release(id), rest, true)
    ensures NamesOk(s') && s'.asleep == s.asleep && WellNamed(id) && (id.Que? ==> id in s'.workers)
    ensures s'.threads == s.threads[t := (if s.heap[id].count == 1 then DeathOps(id, s.heap[id].body) else []) + rest]
    ensures forall e <- s.heap :: e.Evt? && Pending(s, e) ==> Pending(s', e)
  {
    hide DeathOps;
    assert NameOk(s, id);
    WriteNamesByOp(s, s', id);
    assert [] + rest == rest;
  }

  lemma ReleaseStructure(s: State, s': State, t: Tid, id: Id, rest: seq<Op>)
    requires Inv(s) && At(s, t, Release(id), rest) && OpFaultless(s, t, Release(id)) && OpOk(s, t, Release(id))
    requires s' == ApplyOp(s, t, Release(id), rest, true) && Conserved(s')
    ensures Structured(s')
  {
    hide Balanced, ThreadsOk, WorkersOk, SleepersOk, NamesOk, ApplyOp, DeathOps, Onward, SameQueues;
    var body := s.heap[id].body;
    ReleaseNames(s, s', t, id, rest);
    var pre := if s.heap[id].count == 1 then DeathOps(id, body) else [];
    DeathOpsOk(s', t, id, body);
    ReleaseShape(s, s', t, id, rest);
    OpKeepsStructure(s, s', t, Release(id), rest, pre);
  }

  // When the last reference to a queue is gone, none of the requests still in it has an event: its event
  // would hold the queue.
  lemma DyingQueueHasNoEvents(s: State, q: Id)
    requires Inv(s) && q in s.heap && q.Que? && s.heap[q].count == 0
    ensures s.heap[q].body.Fifo? && forall r <- s.heap[q].body.pending :: r.Req? && r.event.None?
  {
    hide Sum, ThreadsOk, WorkersOk, SleepersOk;
    assert NameOk(s, q);
    forall r <- s.heap[q].body.pending ensures r.Req? && r.event.None? {
      if r.event.Some? {
        CellTallied(s, q, Ref(r));
        RefLive(s, r);
        CellTallied(s, r, Ref(r.event.value));
        RefLive(s, r.event.value);
        CellTallied(s, r.event.value, Ref(q));
        RefLive(s, q);
        assert false;
      }
    }
  }

  lemma FreeNames(s: State, s': State, t: Tid, id: Id, rest: seq<Op>)
    requires Inv(s) && OpFaultless(s, t, Free(id)) && s' == ApplyOp(s, t, Free(id), rest, true)
    ensures NamesOk(s')
  {
    hide Balanced, ThreadsOk, WorkersOk, SleepersOk;
    if id.Que? { DyingQueueHasNoEvents(s, id); }
    forall x <- s'.heap ensures NameOk(s', x) { assert NameOk(s, x); }
  }

  lemma FreeKeepsPending(s: State, s': State, t: Tid, id: Id, rest: seq<Op>)
    requires Conserved(s) && OpFaultless(s, t, Free(id)) && s' == ApplyOp(s, t, Free(id), rest, true)
    ensures forall e <- s.heap :: e.Evt? && Pending(s, e) ==> Pending(s', e)
  {
    hide Balanced;
    forall e <- s.heap | e.Evt? && Pending(s, e) ensures Pending(s', e) { PendingIsHeld(s, e); }
  }

  lemma FreeStructure(s: State, s': State, t: Tid, id: Id, rest: seq<Op>)
    requires Inv(s) && At(s, t, Free(id), rest) && OpFaultless(s, t, Free(id)) && OpOk(s, t, Free(id))
    requires s' == ApplyOp(s, t, Free(id), rest, true) && Conserved(s')
    ensures Structured(s')
  {
    hide Balanced, NamesOk, ThreadOk, ThreadsOk, WorkersOk, SleepersOk;
    FreeNames(s, s', t, id, rest);
    FreeKeepsPending(s, s', t, id, rest);
    assert [] + rest == rest;
    if id.Que? {
      FreeQueueStructure(s, s', t, id, rest);
    } else {
      OpKeepsStructure(s, s', t, Free(id), rest, []);
    }
  }

  lemma FreeShape(s: State, s': State, t: Tid, id: Id, rest: seq<Op>)
    requires OpFaultless(s, t, Free(id)) && s' == ApplyOp(s, t, Free(id), rest, true)
    ensures Onward(s, s') && OthersIdle(s, s', t)
  {
  }

  lemma FreeQueueWorker(s: State, s': State, t: Tid, q: Id, rest: seq<Op>, p: Id)
    requires p in s.workers && WorkerOk(s, p) && LogOk(s, p) && q.Que? && Onward(s, s')
    requires At(s, t, Free(q), rest) && OpFaultless(s, t, Free(q)) && OpOk(s, t, Free(q))
    requires s' == ApplyOp(s, t, Free(q), rest, true)
    requires forall r <- s.heap[q].body.pending :: r.Req? && r.event.None?
    ensures WorkerOk(s', p) && LogOk(s', p)
  {
    hide Onward;
    assert [] + rest == rest;
    if t != Worker(p) { OwingStays(s, s', p); } else { OwingStaysAfter(s, s', p, Free(q), rest, []); }
    WorkerStays(s, s', p);
  }

  lemma FreeQueueWorkers(s: State, s': State, t: Tid, q: Id, rest: seq<Op>)
    requires Inv(s) && At(s, t, Free(q), rest) && OpFaultless(s, t, Free(q)) && OpOk(s, t, Free(q)) && q.Que?
    requires s' == ApplyOp(s, t, Free(q), rest, true) && Onward(s, s')
    ensures WorkersOk(s')
  {
    hide Balanced, NamesOk, ThreadsOk, SleepersOk, Onward;
    DyingQueueHasNoEvents(s, q);
    forall p <- s'.workers ensures WorkerOk(s', p) && LogOk(s', p) {
      assert WorkerOk(s, p) && LogOk(s, p);
      FreeQueueWorker(s, s', t, q, rest, p);
    }
  }

  // The memory of a queue goes when its worker has exited, or has been told by its own thread not to look.
  lemma FreeQueueStructure(s: State, s': State, t: Tid, q: Id, rest: seq<Op>)
    requires Inv(s) && At(s, t, Free(q), rest) && OpFaultless(s, t, Free(q)) && OpOk(s, t, Free(q)) && q.Que?
    requires s' == ApplyOp(s, t, Free(q), rest, true) && Conserved(s') && NamesOk(s')
    requires forall e <- s.heap :: e.Evt? && Pending(s, e) ==> Pending(s', e)
    ensures Structured(s')
  {
    hide Balanced, NamesOk, WorkersOk, SleepersOk, Onward, OthersIdle;
    FreeShape(s, s', t, q, rest);
    assert ThreadOk(s, t);
    assert [] + rest == rest;
    WorkStays(s, s', t, Free(q), rest, []);
    FreeQueueWorkers(s, s', t, q, rest);
    FreeSleepers(s, s', t, q, rest);
  }

  lemma FreeSleepers(s: State, s': State, t: Tid, q: Id, rest: seq<Op>)
    requires Structured(s) && At(s, t, Free(q), rest) && OpFaultless(s, t, Free(q)) && OpOk(s, t, Free(q)) && q.Que?
    requires s' == ApplyOp(s, t, Free(q), rest, true)
    requires forall e <- s.heap :: e.Evt? && Pending(s, e) ==> Pending(s', e)
    ensures SleepersOk(s')
  {
    hide NamesOk, WorkersOk;
    forall t2 <- s'.asleep ensures SleeperOk(s', t2) {
      assert SleeperOk(s, t2);
      if t2.Client? { assert ThreadOk(s, t2) && OpOk(s, t2, Ops(s, t2)[0]); }
    }
  }

  // ---- destroying a queue ----

  ghost predicate ExitSet(s: State, s': State, t: Tid, q: Id, rest: seq<Op>)
    requires q in s.heap && s.heap[q].body.Fifo?
  {
    s' == Doing(s.(heap := s.heap[q := s.heap[q].(body := Fifo(s.heap[q].body.pending, true))],
                   asleep := s.asleep - {Worker(q)}), t, [Destroy(q, true)] + rest)
  }

  lemma SetExitShape(s: State, s': State, t: Tid, q: Id, rest: seq<Op>)
    requires q in s.heap && s.heap[q].body.Fifo? && ExitSet(s, s', t, q, rest)
    ensures Onward(s, s') && OthersIdle(s, s', t)
  {
  }

  lemma SetExitNames(s: State, s': State, t: Tid, q: Id, rest: seq<Op>)
    requires NamesOk(s) && q in s.heap && s.heap[q].body.Fifo? && s.heap[q].count == 0 && ExitSet(s, s', t, q, rest)
    ensures NamesOk(s')
  {
    assert NameOk(s, q);
    WriteNamesByOp(s, s', q);
  }

  // xrp_queue_destroy, first locked region.
  lemma SetExitStructure(s: State, s': State, t: Tid, q: Id, rest: seq<Op>)
    requires Inv(s) && At(s, t, Destroy(q, false), rest) && q in s.heap && s.heap[q].body.Fifo?
    requires OpOk(s, t, Destroy(q, false)) && s.heap[q].count == 0
    requires ExitSet(s, s', t, q, rest) && Conserved(s')
    ensures Structured(s')
  {
    hide Balanced, NamesOk, WorkersOk, SleepersOk, Onward, OthersIdle;
    SetExitNames(s, s', t, q, rest);
    SetExitShape(s, s', t, q, rest);
    SetExitSleepers(s, s', t, q, rest);
    assert ThreadOk(s, t);
    WorkStays(s, s', t, Destroy(q, false), rest, [Destroy(q, true)]);
    QueueWriteWorkers(s, s', t, Destroy(q, false), rest, [Destroy(q, true)]);
  }

  lemma SetExitSleepers(s: State, s': State, t: Tid, q: Id, rest: seq<Op>)
    requires Structured(s) && At(s, t, Destroy(q, false), rest) && q in s.heap && s.heap[q].body.Fifo?
    requires ExitSet(s, s', t, q, rest)
    ensures SleepersOk(s')
  {
    hide NamesOk, WorkersOk;
    forall t2 <- s'.asleep ensures SleeperOk(s', t2) {
      assert SleeperOk(s, t2);
      if t2.Client? { assert ThreadOk(s, t2) && OpOk(s, t2, Ops(s, t2)[0]); }
    }
  }

  // Work that changes neither a worker record nor the list of any queue.
  lemma QueueWriteWorkers(s: State, s': State, t: Tid, op: Op, rest: seq<Op>, pre: seq<Op>)
    requires WorkersOk(s) && ThreadsOk(s) && Onward(s, s') && OthersIdle(s, s', t)
    requires Ops(s, t) == [op] + rest && Ops(s', t) == pre + rest && !op.Run?
    requires op.Complete? ==> !Pending(s', op.e)
    requires forall x :: OpClaims(op, Kill(x)) <= OpsClaims(pre, Kill(x))
    requires s'.workers == s.workers && s'.logs == s.logs && s'.heap.Keys == s.heap.Keys
    requires forall q <- s.heap :: q.Que? && s.heap[q].body.Fifo? ==>
               && s'.heap[q].body.Fifo? && s'.heap[q].body.pending == s.heap[q].body.pending
               && (s.heap[q].count == 0 ==> s'.heap[q].count == 0)
    ensures WorkersOk(s')
  {
    assert ThreadOk(s, t);
    forall p <- s'.workers ensures WorkerOk(s', p) && LogOk(s', p) {
      assert WorkerOk(s, p) && LogOk(s, p);
      if t != Worker(p) { OwingStays(s, s', p); } else { OwingStaysAfter(s, s', p, op, rest, pre); }
      WorkerStays(s, s', p);
    }
  }

  lemma SameNames(s: State, s': State)
    requires NamesOk(s) && s'.heap == s.heap && s'.handles == s.handles && s'.maps == s.maps && s'.leaked == s.leaked
    requires s.next <= s'.next && s.workers.Keys <= s'.workers.Keys
    ensures NamesOk(s')
  {
    forall x <- s'.heap ensures NameOk(s', x) { assert NameOk(s, x); }
  }

  // pthread_join by another thread: the worker has exited.
  lemma JoinStructure(s: State, s': State, t: Tid, q: Id, rest: seq<Op>)
    requires Inv(s) && At(s, t, Destroy(q, true), rest) && q in s.heap
    requires OpOk(s, t, Destroy(q, true)) && t != Worker(q) && s.workers[q].pc.Exited?
    requires s' == Doing(s, t, [Release(q.dev), Free(q)] + rest) && Conserved(s')
    ensures Structured(s')
  {
    hide Balanced, ThreadsOk, WorkersOk, SleepersOk;
    AllNamed(s);
    SameNames(s, s');
    hide NamesOk;
    var pre := [Release(q.dev), Free(q)];
    assert WellNamed(q);
    assert forall o <- pre :: OpOk(s', t, o);
    OpsCons(Release(q.dev), [Free(q)], Kill(q));
    assert t.Client?;
    OpKeepsStructure(s, s', t, Destroy(q, true), rest, pre);
  }

  // pthread_join of oneself fails: the worker is told not to look at its queue again.
  lemma SelfJoinShape(s: State, s': State, q: Id, ops: seq<Op>)
    requires q in s.workers && s.workers[q].pc.Busy?
    requires s' == Doing(s.(workers := s.workers[q := s.workers[q].(quit := true)]), Worker(q), ops)
    ensures OnlyWorker(s, s', q)
  {
  }

  lemma SelfJoinStructure(s: State, s': State, q: Id, rest: seq<Op>)
    requires Inv(s) && At(s, Worker(q), Destroy(q, true), rest) && q in s.heap && q in s.workers
    requires OpOk(s, Worker(q), Destroy(q, true)) && s.heap[q].count == 0
    requires s' == Doing(s.(workers := s.workers[q := s.workers[q].(quit := true)]), Worker(q),
                         [Release(q.dev), Free(q)] + rest)
    requires Conserved(s')
    ensures Structured(s')
  {
    hide Balanced, NamesOk, SleepersOk, Onward, OthersIdle;
    var t := Worker(q);
    var pre := [Release(q.dev), Free(q)];
    assert ThreadOk(s, t) && WorkerOk(s, q) && LogOk(s, q);
    SameNames(s, s');
    SelfJoinShape(s, s', q, pre + rest);
    WorkStays(s, s', t, Destroy(q, true), rest, pre);
    OpsCons(Release(q.dev), [Free(q)], Kill(q));
    OwingStaysAfter(s, s', q, Destroy(q, true), rest, pre);
    hide ThreadsOk, WorkersOk, Conserved;
    SelfJoinWorkers(s, s', q);
    SelfJoinSleepers(s, s', q);
  }

  ghost predicate OnlyWorker(s: State, s': State, q: Id) {
    && q in s.workers && q in s'.workers && s'.workers == s.workers[q := s'.workers[q]]
    && OthersIdle(s, s', Worker(q)) && Onward(s, s')
    && s'.heap.Keys == s.heap.Keys && s'.logs.Keys == s.logs.Keys
    && (forall p <- s.heap :: p != q ==> s'.heap[p] == s.heap[p])
    && (forall p <- s.logs :: p != q ==> s'.logs[p] == s.logs[p])
  }

  // A step of q's worker leaves the other workers as they are.
  lemma OtherWorkersStay(s: State, s': State, q: Id)
    requires WorkersOk(s) && OnlyWorker(s, s', q)
    requires WorkerOk(s', q) && LogOk(s', q)
    ensures WorkersOk(s')
  {
    forall p <- s'.workers ensures WorkerOk(s', p) && LogOk(s', p) {
      if p != q {
        assert WorkerOk(s, p) && LogOk(s, p);
        OwingStays(s, s', p);
        WorkerStays(s, s', p);
      }
    }
  }

  lemma OtherSleepersStay(s: State, s': State, q: Id)
    requires SleepersOk(s) && OnlyWorker(s, s', q) && q.Que?
    requires s'.asleep == s.asleep || s'.asleep == s.asleep + {Worker(q)}
    requires Worker(q) in s'.asleep ==> SleeperOk(s', Worker(q))
    requires q in s.heap ==> !s.heap[q].body.Signal?
    ensures SleepersOk(s')
  {
    forall t2 <- s'.asleep ensures SleeperOk(s', t2) {
      if t2 != Worker(q) { assert SleeperOk(s, t2); }
    }
  }

  lemma SelfJoinWorkers(s: State, s': State, q: Id)
    requires WorkersOk(s) && OnlyWorker(s, s', q) && s'.heap == s.heap && s'.logs == s.logs
    requires q in s.heap && s.heap[q].count == 0
    requires s.workers[q].pc.Busy? && s'.workers[q] == s.workers[q].(quit := true)
    requires Owing(s', q)
    ensures WorkersOk(s')
  {
    assert WorkerOk(s, q) && LogOk(s, q);
    OtherWorkersStay(s, s', q);
  }

  lemma SelfJoinSleepers(s: State, s': State, q: Id)
    requires SleepersOk(s) && NamesOk(s) && OnlyWorker(s, s', q) && q.Que? && s'.heap == s.heap && s'.asleep == s.asleep
    requires s.workers[q].pc.Busy?
    ensures SleepersOk(s')
  {
    assert Worker(q) in s.asleep ==> SleeperOk(s, Worker(q));
    assert q in s.heap ==> NameOk(s, q);
    OtherSleepersStay(s, s', q);
  }

  // ---- processing a request ----

  lemma AfterRunOk(s: State, t: Tid, r: Id, result: Status)
    requires r.Req? && WellNamed(r) && t == Worker(r.target) && result != PENDING
    requires t.q in s.workers && s.workers[t.q].pc == Busy(r)
    ensures forall o <- AfterRun(r, result) :: OpOk(s, t, o)
  {
  }

  lemma RunShape(s: State, s': State, t: Tid, r: Id, ops: seq<Op>)
    requires r in s.heap && r.Req?
    requires s' == Doing(s.(heap := s.heap[r := s.heap[r].(count := 0)]), t, ops)
    ensures Onward(s, s') && OthersIdle(s, s', t) && SameQueues(s, s')
    ensures forall e <- s.heap :: e.Evt? && Pending(s, e) ==> Pending(s', e)
  {
  }

  ghost predicate RunDone(s: State, s': State, t: Tid, r: Id, result: Status)
    requires r.Req?
  {
    && r in s.heap
    && s' == Doing(s.(heap := s.heap[r := s.heap[r].(count := 0)]), t, AfterRun(r, result))
  }

  lemma RunNames(s: State, s': State, t: Tid, r: Id, result: Status)
    requires NamesOk(s) && r.Req? && RunDone(s, s', t, r, result)
    ensures NamesOk(s')
  {
    hide AfterRun;
    assert NameOk(s, r);
    WriteNamesByOp(s, s', r);
  }

  lemma RunThreads(s: State, s': State, t: Tid, r: Id, read: seq<Id>, result: Status)
    requires ThreadsOk(s) && WorkersOk(s) && At(s, t, Run(r, Some(read)), []) && OpOk(s, t, Run(r, Some(read)))
             && result != PENDING
    requires RunDone(s, s', t, r, result) && Conserved(s') && Onward(s, s') && OthersIdle(s, s', t)
    ensures ThreadsOk(s')
  {
    hide Conserved, Onward, OthersIdle, AfterRun, NamesOk, ThreadsOk, WorkersOk;
    AfterRunOk(s', t, r, result);
    assert AfterRun(r, result) + [] == AfterRun(r, result);
    WorkStays(s, s', t, Run(r, Some(read)), [], AfterRun(r, result));
  }

  lemma RunStructure(s: State, s': State, t: Tid, r: Id, read: seq<Id>, result: Status)
    requires Inv(s) && At(s, t, Run(r, Some(read)), []) && OpOk(s, t, Run(r, Some(read))) && result != PENDING
             && Live(s, r)
    requires RunDone(s, s', t, r, result) && Conserved(s')
    ensures Structured(s')
  {
    hide Conserved, Onward, OthersIdle, SameQueues, SleepersOk, NamesOk, ThreadsOk, WorkersOk, AfterRun, Live;
    RunShape(s, s', t, r, AfterRun(r, result));
    RunNames(s, s', t, r, result);
    RunThreads(s, s', t, r, read, result);
    RunOwes(s, s', t, r, read, result);
    hide RunDone;
    WorkersStay(s, s', t);
    RunAsleep(s, s', t, r, read, result);
  }

  lemma RunAsleep(s: State, s': State, t: Tid, r: Id, read: seq<Id>, result: Status)
    requires Structured(s) && r.Req? && RunDone(s, s', t, r, result) && At(s, t, Run(r, Some(read)), [])
    requires OthersIdle(s, s', t) && SameQueues(s, s')
    requires forall e <- s.heap :: e.Evt? && Pending(s, e) ==> Pending(s', e)
    ensures SleepersOk(s')
  {
    hide Structured, OthersIdle, SameQueues, AfterRun;
    SleepersUntouched(s, s', t);
  }

  // The worker has taken on the completion of the request's event.
  lemma RunOwes(s: State, s': State, t: Tid, r: Id, read: seq<Id>, result: Status)
    requires Inv(s) && At(s, t, Run(r, Some(read)), []) && OpOk(s, t, Run(r, Some(read))) && Live(s, r)
             && RunDone(s, s', t, r, result)
    ensures t.Worker? && t.q in s'.workers && Owing(s', t.q)
  {
    hide Conserved, NamesOk, ThreadsOk, SleepersOk, AfterRun;
    if r.event.Some? { RunHandsOver(r, result, Owe(r.event.value)); }
    assert WorkerOk(s, t.q);
  }

  // Reading the group changes nothing but what the worker knows.
  lemma ReadStructure(s: State, s': State, t: Tid, r: Id)
    requires Inv(s) && At(s, t, Run(r, None), []) && OpOk(s, t, Run(r, None)) && OpFaultless(s, t, Run(r, None))
    requires s' == Doing(s, t, [Run(r, Some(Records(s, r)))]) && Conserved(s')
    ensures Structured(s')
  {
    hide Conserved, NamesOk, ThreadsOk, WorkersOk, SleepersOk;
    SameNames(s, s');
    ReadShape(s, s', t, [Run(r, Some(Records(s, r)))]);
    ReadOk(s, s', t, r);
    assert [Run(r, Some(Records(s, r)))] + [] == [Run(r, Some(Records(s, r)))];
    WorkStays(s, s', t, Run(r, None), [], [Run(r, Some(Records(s, r)))]);
    hide Onward, OthersIdle, SameQueues;
    WorkersStay(s, s', t);
    SleepersUntouched(s, s', t);
  }

  lemma ReadShape(s: State, s': State, t: Tid, ops: seq<Op>)
    requires s' == Doing(s, t, ops)
    ensures Onward(s, s') && OthersIdle(s, s', t) && SameQueues(s, s')
    ensures forall e <- s.heap :: e.Evt? && Pending(s, e) ==> Pending(s', e)
  {
  }

  lemma ReadOk(s: State, s': State, t: Tid, r: Id)
    requires WorkersOk(s) && At(s, t, Run(r, None), []) && OpOk(s, t, Run(r, None)) && OpFaultless(s, t, Run(r, None))
    requires s' == Doing(s, t, [Run(r, Some(Records(s, r)))])
    ensures OpOk(s', t, Run(r, Some(Records(s, r)))) && t.q in s'.workers && Owing(s', t.q)
  {
    assert WorkerOk(s, t.q);
  }

  ghost predicate Completed(s: State, s': State, t: Tid, e: Id, result: Status, rest: seq<Op>) {
    && e in s.heap
    && s' == Doing(s.(heap := s.heap[e := s.heap[e].(body := Signal(result))], asleep := s.asleep - Waiters(s, e)), t,
                   [Release(e)] + rest)
  }

  lemma CompleteShape(s: State, s': State, t: Tid, e: Id, result: Status, rest: seq<Op>)
    requires e.Evt? && Completed(s, s', t, e, result, rest) && Pending(s, e)
    ensures Onward(s, s') && OthersIdle(s, s', t) && SameQueues(s, s')
  {
  }

  lemma CompleteSleepers(s: State, s': State, t: Tid, e: Id, result: Status, rest: seq<Op>)
    requires Structured(s) && At(s, t, Complete(e, result), rest) && e.Evt? && Completed(s, s', t, e, result, rest)
    ensures SleepersOk(s')
  {
    hide NamesOk;
    forall t2 <- s'.asleep ensures SleeperOk(s', t2) {
      assert SleeperOk(s, t2);
      if t2.Worker? { assert WorkerOk(s, t2.q); } else { assert ThreadOk(s, t2) && OpOk(s, t2, Ops(s, t2)[0]); }
    }
  }

  lemma CompleteNames(s: State, s': State, t: Tid, e: Id, result: Status, rest: seq<Op>)
    requires NamesOk(s) && e.Evt? && Completed(s, s', t, e, result, rest)
    ensures NamesOk(s')
  {
    assert NameOk(s, e);
    WriteNamesByOp(s, s', e);
  }

  lemma CompleteStructure(s: State, s': State, t: Tid, e: Id, result: Status, rest: seq<Op>)
    requires Inv(s) && At(s, t, Complete(e, result), rest) && OpOk(s, t, Complete(e, result))
    requires Pending(s, e) && Completed(s, s', t, e, result, rest) && Conserved(s')
    ensures Structured(s')
  {
    hide Balanced, NamesOk, WorkersOk, Onward, OthersIdle, SameQueues, SleepersOk;
    AllNamed(s);
    CompleteNames(s, s', t, e, result, rest);
    CompleteShape(s, s', t, e, result, rest);
    CompleteSleepers(s, s', t, e, result, rest);
    assert ThreadOk(s, t);
    WorkStays(s, s', t, Complete(e, result), rest, [Release(e)]);
    UnhideWorker(s, t.q);
    OwingStaysAfter(s, s', t.q, Complete(e, result), rest, [Release(e)]);
    WorkersStay(s, s', t);
  }

  // ---- pushing a request ----

  ghost predicate Pushed(s: State, s': State, t: Tid, r: Id, rest: seq<Op>) {
    && r.Req? && r.target in s.heap && s.heap[r.target].body.Fifo? && r.target in s.logs
    && var q := r.target;
       var fifo := s.heap[q].body;
       s' == Doing(s.(heap := s.heap[q := s.heap[q].(body := Fifo(fifo.pending + [r], fifo.exit))],
               asleep := if fifo.pending == [] then s.asleep - {Worker(q)} else s.asleep,
               logs := s.logs[q := s.logs[q].(pushed := s.logs[q].pushed + [r])],
               handles := s.handles + multiset{q} + (if r.event.Some? then multiset{r.event.value} else multiset{})),
            t, rest)
  }

  lemma PushShape(s: State, s': State, t: Tid, r: Id, rest: seq<Op>)
    requires Pushed(s, s', t, r, rest)
    ensures Onward(s, s') && OthersIdle(s, s', t)
  {
  }

  lemma PushNames(s: State, s': State, t: Tid, r: Id, rest: seq<Op>)
    requires NamesOk(s) && Pushed(s, s', t, r, rest) && WellNamed(r)
    ensures NamesOk(s')
  {
    assert NameOk(s, r.target);
    WriteNamesByOp(s, s', r.target);
  }

  lemma PushSleepers(s: State, s': State, t: Tid, r: Id, rest: seq<Op>)
    requires Structured(s) && At(s, t, Push(r), rest) && Pushed(s, s', t, r, rest) && t.Client?
    ensures SleepersOk(s')
  {
    hide NamesOk, WorkersOk;
    forall t2 <- s'.asleep ensures SleeperOk(s', t2) {
      assert SleeperOk(s, t2);
      if t2.Client? { assert ThreadOk(s, t2) && OpOk(s, t2, Ops(s, t2)[0]); }
    }
  }

  lemma PushLog(s: State, s': State, t: Tid, r: Id, rest: seq<Op>)
    requires Pushed(s, s', t, r, rest) && ReqOk(s, r.target, r) && r.target in s.workers && t.Client?
    requires WorkerOk(s, r.target) && LogOk(s, r.target) && s.heap[r.target].count > 0
    ensures WorkerOk(s', r.target) && LogOk(s', r.target)
  {
    var q := r.target;
    assert (s.logs[q].pushed + [r])[|s.logs[q].done + InFlight(s.workers[q])|..] == Untaken(s, q) + [r];
    OwingStays(s, s', q);
  }

  lemma PushWorkers(s: State, s': State, t: Tid, r: Id, rest: seq<Op>)
    requires WorkersOk(s) && Onward(s, s') && Pushed(s, s', t, r, rest) && t.Client?
    requires r.target in s.workers ==> WorkerOk(s', r.target) && LogOk(s', r.target)
    ensures WorkersOk(s')
  {
    hide Onward;
    forall p <- s'.workers ensures WorkerOk(s', p) && LogOk(s', p) {
      if p != r.target {
        assert WorkerOk(s, p) && LogOk(s, p);
        OwingStays(s, s', p);
        WorkerStays(s, s', p);
      }
    }
  }

  lemma UnhideWorker(s: State, q: Id)
    requires WorkersOk(s) && q in s.workers
    ensures WorkerOk(s, q) && LogOk(s, q)
  {
  }

  lemma PushStructure(s: State, s': State, t: Tid, r: Id, rest: seq<Op>)
    requires Inv(s) && At(s, t, Push(r), rest) && OpOk(s, t, Push(r))
    requires Pushed(s, s', t, r, rest) && s.heap[r.target].count > 0 && Conserved(s')
    ensures Structured(s')
  {
    hide Balanced, NamesOk, ThreadsOk, WorkersOk, SleepersOk, Onward, OthersIdle;
    UnhideName(s, r.target);
    UnhideWorker(s, r.target);
    PushNames(s, s', t, r, rest);
    PushShape(s, s', t, r, rest);
    PushSleepers(s, s', t, r, rest);
    assert [] + rest == rest;
    WorkStays(s, s', t, Push(r), rest, []);
    PushLog(s, s', t, r, rest);
    PushWorkers(s, s', t, r, rest);
  }

  // ---- waiting ----

  lemma SleepThreads(s: State, s': State, t: Tid)
    requires ThreadsOk(s) && s' == s.(asleep := s.asleep + {t})
    ensures ThreadsOk(s')
  {
    forall t2 <- s'.threads ensures ThreadOk(s', t2) {
      assert ThreadOk(s, t2);
      forall op <- s'.threads[t2] ensures OpOk(s', t2, op) { assert OpOk(s, t2, op); }
    }
  }

  lemma SleepWorkers(s: State, s': State, t: Tid)
    requires WorkersOk(s) && s' == s.(asleep := s.asleep + {t})
    ensures WorkersOk(s')
  {
    forall q <- s'.workers ensures WorkerOk(s', q) && LogOk(s', q) {
      assert WorkerOk(s, q) && LogOk(s, q);
      OwingStays(s, s', q);
      WorkerStays(s, s', q);
    }
  }

  lemma SleepStructure(s: State, s': State, t: Tid, e: Id, rest: seq<Op>)
    requires Inv(s) && At(s, t, Wait(e), rest) && OpOk(s, t, Wait(e)) && Pending(s, e)
    requires s' == s.(asleep := s.asleep + {t})
    ensures Structured(s')
  {
    hide Conserved, NamesOk, ThreadsOk, WorkersOk;
    SameNames(s, s');
    SleepThreads(s, s', t);
    SleepWorkers(s, s', t);
    forall t2 <- s'.asleep ensures SleeperOk(s', t2) { if t2 != t { assert SleeperOk(s, t2); } }
  }

  lemma WokenShape(s: State, s': State, t: Tid, e: Id, rest: seq<Op>)
    requires NamesOk(s) && e.Evt? && s' == Doing(Granted(s, e), t, rest)
    ensures NamesOk(s') && Onward(s, s') && SameQueues(s, s')
  {
    forall x <- s'.heap ensures NameOk(s', x) { assert NameOk(s, x); }
  }

  lemma WokenStructure(s: State, s': State, t: Tid, e: Id, rest: seq<Op>)
    requires Inv(s) && At(s, t, Wait(e), rest) && OpOk(s, t, Wait(e))
    requires s' == Doing(Granted(s, e), t, rest) && Conserved(s')
    ensures Structured(s')
  {
    hide Balanced, NamesOk, ThreadsOk, WorkersOk, SleepersOk, Onward, SameQueues;
    WokenShape(s, s', t, e, rest);
    assert [] + rest == rest;
    OpKeepsStructure(s, s', t, Wait(e), rest, []);
  }

  // ---- groups and allocations ----

  // The call has its way with one slot, or leaves the group alone.
  ghost predicate SlotSet(s: State, s': State, t: Tid, g: Id, slots: seq<Id>, ops: seq<Op>)
    requires g in s.heap
  {
    s' == Doing(Granted(s, g).(heap := s.heap[g := s.heap[g].(body := Slots(slots))]), t, ops)
  }

  lemma SlotSetShape(s: State, s': State, t: Tid, g: Id, slots: seq<Id>, ops: seq<Op>)
    requires g in s.heap && g.Grp? && s.heap[g].body.Slots? && SlotSet(s, s', t, g, slots, ops)
    ensures Onward(s, s') && SameQueues(s, s')
    ensures forall e <- s.heap :: e.Evt? && Pending(s, e) ==> Pending(s', e)
  {
  }

  lemma SlotSetNames(s: State, s': State, t: Tid, g: Id, slots: seq<Id>, ops: seq<Op>)
    requires NamesOk(s) && g in s.heap && g.Grp? && SlotSet(s, s', t, g, slots, ops)
    requires forall b <- slots :: b.Buf? && WellNamed(b)
    ensures NamesOk(s')
  {
    WriteNamesByOp(s, s', g);
  }

  lemma SetSlotStructure(s: State, s': State, t: Tid, g: Id, i: nat, b: Id, rest: seq<Op>)
    requires Inv(s) && At(s, t, SetSlot(g, i, b), rest) && OpFaultless(s, t, SetSlot(g, i, b))
    requires OpOk(s, t, SetSlot(g, i, b)) && Conserved(s')
    requires s' == ApplyOp(s, t, SetSlot(g, i, b), rest, true)
    ensures Structured(s')
  {
    hide Balanced, NamesOk, ThreadsOk, WorkersOk, SleepersOk, Onward, SameQueues;
    var slots := s.heap[g].body.slots;
    var pre := if i < |slots| then [Release(slots[i])] else [Release(b)];
    var slots' := if i < |slots| then slots[i := b] else slots;
    assert i < |slots| ==> slots[i] in slots;
    assert s.heap[g := s.heap[g]] == s.heap;
    assert SlotSet(s, s', t, g, slots', pre + rest);
    hide ApplyOp;
    SlotSetShape(s, s', t, g, slots', pre + rest);
    SlotSetNames(s, s', t, g, slots', pre + rest);
    OpKeepsStructure(s, s', t, SetSlot(g, i, b), rest, pre);
  }

  lemma DropDeviceStructure(s: State, s': State, t: Tid, op: Op, d: Id, rest: seq<Op>)
    requires Inv(s) && At(s, t, op, rest) && (op.FinishBuffer? || op.FinishQueue?) && op.d == d && d.Dev?
    requires s' == Doing(s, t, [Release(d)] + rest) && Conserved(s')
    ensures Structured(s')
  {
    hide Balanced, ThreadsOk, WorkersOk, SleepersOk;
    SameNames(s, s');
    hide NamesOk;
    OpKeepsStructure(s, s', t, op, rest, [Release(d)]);
  }

  lemma NewBufferStructure(s: State, s': State, t: Tid, d: Id, size: nat, rest: seq<Op>)
    requires Inv(s) && At(s, t, FinishBuffer(d, size), rest) && d.Dev?
    requires var b := Buf(s.next, Some(d), size);
             s' == Doing(Granted(Alloc(s, b, Mappable(0)), b), t, rest)
    requires Conserved(s')
    ensures Structured(s')
  {
    hide Balanced, NamesOk, ThreadsOk, WorkersOk, SleepersOk, Onward, SameQueues;
    AllNamed(s);
    NewBufferShape(s, s', t, Buf(s.next, Some(d), size), rest);
    AddNames(s, s', Buf(s.next, Some(d), size));
    assert [] + rest == rest;
    OpKeepsStructure(s, s', t, FinishBuffer(d, size), rest, []);
  }

  lemma NewBufferShape(s: State, s': State, t: Tid, b: Id, rest: seq<Op>)
    requires s' == Doing(Granted(Alloc(s, b, Mappable(0)), b), t, rest) && b.Buf? && b.n == s.next
    requires forall id <- s.heap :: id.n < s.next
    ensures Onward(s, s') && SameQueues(s, s')
    ensures forall e <- s.heap :: e.Evt? && Pending(s, e) ==> Pending(s', e)
  {
  }

  ghost predicate QueueMade(s: State, s': State, t: Tid, q: Id, rest: seq<Op>) {
    && q.Que? && q.n == s.next
    && s' == Doing(Granted(Alloc(s, q, Fifo([], false)), q).(
                     workers := s.workers[q := WorkerState(Looping, false)], logs := s.logs[q := Log([], [])]), t, rest)
  }

  lemma NewQueueShape(s: State, s': State, t: Tid, q: Id, rest: seq<Op>)
    requires QueueMade(s, s', t, q, rest) && q !in s.workers && (forall id <- s.heap :: id.n < s.next)
    ensures Onward(s, s') && OthersIdle(s, s', t)
  {
  }

  lemma NewQueueWorkers(s: State, s': State, t: Tid, op: Op, q: Id, rest: seq<Op>)
    requires WorkersOk(s) && Onward(s, s') && QueueMade(s, s', t, q, rest) && t.Client? && WellNamed(q)
    requires q !in s.workers
    ensures WorkersOk(s')
  {
    hide Onward;
    forall p <- s'.workers ensures WorkerOk(s', p) && LogOk(s', p) {
      if p != q {
        assert WorkerOk(s, p) && LogOk(s, p);
        OwingStays(s, s', p);
        WorkerStays(s, s', p);
      }
    }
  }

  lemma NewQueueSleepers(s: State, s': State, t: Tid, d: Id, q: Id, rest: seq<Op>)
    requires Structured(s) && At(s, t, FinishQueue(d), rest) && QueueMade(s, s', t, q, rest)
    requires q !in s.workers && q !in s.heap
    ensures SleepersOk(s')
  {
    hide NamesOk, WorkersOk, ThreadsOk;
    forall t2 <- s'.asleep ensures SleeperOk(s', t2) { assert SleeperOk(s, t2); }
  }

  lemma NewQueueStructure(s: State, s': State, t: Tid, d: Id, rest: seq<Op>)
    requires Inv(s) && At(s, t, FinishQueue(d), rest) && d.Dev? && t.Client?
    requires QueueMade(s, s', t, Que(s.next, d), rest) && Conserved(s')
    ensures Structured(s')
  {
    hide Tally, SleepersOk, Onward, OthersIdle;
    var q := Que(s.next, d);
    assert q !in s.workers by { assert q in s.workers ==> WorkerOk(s, q); }
    AllNamed(s);
    AddNames(s, s', q);
    hide NamesOk, Balanced;
    NewQueueShape(s, s', t, q, rest);
    NewQueueSleepers(s, s', t, d, q, rest);
    assert [] + rest == rest;
    WorkStays(s, s', t, FinishQueue(d), rest, []);
    NewQueueWorkers(s, s', t, FinishQueue(d), q, rest);
  }

  // ---- all operations ----

  lemma KilledQueue(s: State, t: Tid, q: Id, joining: bool)
    requires Inv(s) && Destroy(q, joining) in Ops(s, t)
    ensures Live(s, q) && s.heap[q].count == 0
  {
    OpKillLive(s, t, Destroy(q, joining), q);
  }

  lemma OwedEvent(s: State, t: Tid, e: Id, result: Status)
    requires Inv(s) && Complete(e, result) in Ops(s, t)
    ensures Pending(s, e)
  {
    OpTallied(s, t, Complete(e, result), Owe(e));
    assert Balanced(s, Owe(e));
  }

  lemma LastStepsStructure(s: State, t: Tid, op: Op, rest: seq<Op>, ok: bool)
    requires Inv(s) && Guard(s, Exec(t, ok)) && Ops(s, t) == [op] + rest && OpFaultless(s, t, op) && OpOk(s, t, op)
    requires Conserved(ApplyOp(s, t, op, rest, ok)) && (op.Release? || op.Free? || op.Complete?)
    ensures Structured(ApplyOp(s, t, op, rest, ok))
  {
    hide Balanced, NamesOk, ThreadsOk, WorkersOk, SleepersOk;
    var s' := ApplyOp(s, t, op, rest, ok);
    match op {
      case Release(id) => ReleaseStructure(s, s', t, id, rest);
      case Free(id) => FreeStructure(s, s', t, id, rest);
      case Complete(e, result) => OwedEvent(s, t, e, result); CompleteStructure(s, s', t, e, result, rest);
    }
  }

  lemma DestroyStructure(s: State, t: Tid, op: Op, rest: seq<Op>, ok: bool)
    requires Inv(s) && Guard(s, Exec(t, ok)) && Ops(s, t) == [op] + rest && OpFaultless(s, t, op) && OpOk(s, t, op)
    requires Conserved(ApplyOp(s, t, op, rest, ok)) && op.Destroy?
    ensures Structured(ApplyOp(s, t, op, rest, ok))
  {
    hide Balanced, NamesOk, ThreadsOk, WorkersOk, SleepersOk;
    var s' := ApplyOp(s, t, op, rest, ok);
    KilledQueue(s, t, op.q, op.joining);
    if !op.joining {
      SetExitStructure(s, s', t, op.q, rest);
    } else if t == Worker(op.q) {
      SelfJoinStructure(s, s', op.q, rest);
    } else {
      JoinStructure(s, s', t, op.q, rest);
    }
  }

  lemma RunOpStructure(s: State, t: Tid, op: Op, rest: seq<Op>, ok: bool)
    requires Inv(s) && Guard(s, Exec(t, ok)) && Ops(s, t) == [op] + rest && OpFaultless(s, t, op) && OpOk(s, t, op)
    requires Conserved(ApplyOp(s, t, op, rest, ok)) && op.Run?
    ensures Structured(ApplyOp(s, t, op, rest, ok))
  {
    hide Balanced, NamesOk, ThreadsOk, WorkersOk, SleepersOk, AfterRun;
    var s' := ApplyOp(s, t, op, rest, ok);
    var result := if ok then SUCCESS else FAILURE;
    assert rest == [];
    if op.read.None? {
      assert [Run(op.r, Some(Records(s, op.r)))] + rest == [Run(op.r, Some(Records(s, op.r)))];
      ReadStructure(s, s', t, op.r);
    } else {
      assert AfterRun(op.r, result) + rest == AfterRun(op.r, result);
      RunStructure(s, s', t, op.r, op.read.value, result);
    }
  }

  lemma ClientOpStructure(s: State, t: Tid, op: Op, rest: seq<Op>, ok: bool)
    requires Inv(s) && Guard(s, Exec(t, ok)) && Ops(s, t) == [op] + rest && OpFaultless(s, t, op) && OpOk(s, t, op)
    requires Conserved(ApplyOp(s, t, op, rest, ok)) && (op.Push? || op.Wait? || op.SetSlot?)
    ensures Structured(ApplyOp(s, t, op, rest, ok))
  {
    hide Balanced, NamesOk, ThreadsOk, WorkersOk, SleepersOk;
    var s' := ApplyOp(s, t, op, rest, ok);
    match op {
      case Push(r) => OpRefLive(s, t, op, r.target); PushStructure(s, s', t, r, rest);
      case Wait(e) =>
        if s.heap[e].body.status == PENDING {
          SleepStructure(s, s', t, e, rest);
        } else {
          WokenStructure(s, s', t, e, rest);
        }
      case SetSlot(g, i, b) => SetSlotStructure(s, s', t, g, i, b, rest);
    }
  }

  lemma FinishOpStructure(s: State, t: Tid, op: Op, rest: seq<Op>, ok: bool)
    requires Inv(s) && Guard(s, Exec(t, ok)) && Ops(s, t) == [op] + rest && OpFaultless(s, t, op) && OpOk(s, t, op)
    requires Conserved(ApplyOp(s, t, op, rest, ok)) && (op.FinishBuffer? || op.FinishQueue?)
    ensures Structured(ApplyOp(s, t, op, rest, ok))
  {
    hide Balanced, NamesOk, ThreadsOk, WorkersOk, SleepersOk;
    var s' := ApplyOp(s, t, op, rest, ok);
    if !ok {
      DropDeviceStructure(s, s', t, op, op.d, rest);
    } else if op.FinishBuffer? {
      NewBufferStructure(s, s', t, op.d, op.size, rest);
    } else {
      NewQueueStructure(s, s', t, op.d, rest);
    }
  }

  lemma EveryOpKeepsStructure(s: State, t: Tid, op: Op, rest: seq<Op>, ok: bool)
    requires Inv(s) && Guard(s, Exec(t, ok)) && Ops(s, t) == [op] + rest && OpFaultless(s, t, op) && OpOk(s, t, op)
    requires Conserved(ApplyOp(s, t, op, rest, ok))
    ensures Structured(ApplyOp(s, t, op, rest, ok))
  {
    hide Inv, Guard, Conserved, Structured, ApplyOp, OpFaultless, OpOk;
    if op.Release? || op.Free? || op.Complete? { LastStepsStructure(s, t, op, rest, ok); }
    else if op.Destroy? { DestroyStructure(s, t, op, rest, ok); }
    else if op.Run? { RunOpStructure(s, t, op, rest, ok); }
    else if op.FinishBuffer? || op.FinishQueue? { FinishOpStructure(s, t, op, rest, ok); }
    else { ClientOpStructure(s, t, op, rest, ok); }
  }
}
