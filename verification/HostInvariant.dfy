// The invariant of the XRP host step system: claims are conserved, and threads, workers and queues keep
// the shape the code relies on.
module HostInvariant {
  import opened Bags
  import opened HostObjects
  import opened HostSteps

  // ---- conservation ----

  // How often claim x is held in the whole system.
  ghost function Tally(s: State, x: Claim): nat {
    HeapTally(s.heap, x) + ThreadTally(s.threads, x) + ClientTally(s, x)
  }

  ghost function HeapTally(h: map<Id, Cell>, x: Claim): nat {
    Sum(h, (id, c) => CellClaims(id, c, x))
  }

  ghost function ThreadTally(threads: map<Tid, seq<Op>>, x: Claim): nat {
    Sum(threads, (t: Tid, ops) => OpsClaims(ops, x))
  }

  ghost function ClientTally(s: State, x: Claim): nat {
    if x.Ref? then s.handles[x.id] + s.maps[x.id] + s.leaked[x.id] else 0
  }

  // What the tally has to be: the reference count is the number of owners; exactly the objects with count 0
  // are about to be freed, by one thread; exactly the pending events are owed a completion, by one party.
  ghost function Expected(s: State, x: Claim): nat {
    if x.id !in s.heap then 0 else
    match x
    case Ref(id) => s.heap[id].count
    case Kill(id) => if s.heap[id].count == 0 then 1 else 0
    case Owe(id) => if s.heap[id].body == Signal(PENDING) then 1 else 0
  }

  ghost predicate Balanced(s: State, x: Claim) {
    Tally(s, x) == Expected(s, x)
  }

  ghost predicate Conserved(s: State) {
    forall x: Claim :: Balanced(s, x)
  }

  // ---- structure ----

  ghost predicate NameOk(s: State, id: Id)
    requires id in s.heap
  {
    && WellNamed(id) && id.n < s.next && BodyFits(id, s.heap[id].body)
    && (id.Buf? ==> s.heap[id].body.mapCount == s.maps[id])
    && (id.Req? ==> s.heap[id].count <= 1)
    && (id.Que? ==> id in s.workers && (s.heap[id].body.exit ==> s.heap[id].count == 0))
  }

  ghost predicate NamesOk(s: State) {
    && (forall id <- s.heap :: NameOk(s, id))
    && (forall id <- s.handles :: !id.Req?)
    && (forall id <- s.maps :: id.Buf?)
    && (forall id <- s.leaked :: id.Req? && id.event.None?)
  }

  // A request of queue q whose names are all in use.
  ghost predicate ReqOk(s: State, q: Id, r: Id) {
    && r.Req? && WellNamed(r) && r.target == q && r.n < s.next
    && (r.event.Some? ==> r.event.value.n < s.next)
  }

  // A worker handles only its own queue and that queue's events.
  ghost predicate Within(t: Tid, id: Id) {
    t.Worker? ==> (id.Que? ==> id == t.q) && (id.Evt? ==> id.queue == t.q)
  }

  // The worker of q will not look at the queue again.
  ghost predicate Settled(s: State, t: Tid, q: Id) {
    q in s.workers && (s.workers[q].pc.Exited? || (t == Worker(q) && s.workers[q].quit && s.workers[q].pc.Busy?))
  }

  // Request r carries event e.
  predicate Carrying(r: Id, e: Id) {
    r.Req? && r.event == Some(e)
  }

  ghost predicate OpOk(s: State, t: Tid, op: Op) {
    match op
    case Release(id) => WellNamed(id) && !id.Req? && Within(t, id)
    case Free(id) => id.Que? ==> Settled(s, t, id)
    case Destroy(q, joining) =>
      && q.Que? && q in s.workers && Within(t, q)
      && (joining ==> q in s.heap && s.heap[q].body.Fifo? && s.heap[q].body.exit)
    case Run(r, read) =>
      && t.Worker? && ReqOk(s, t.q, r) && Ops(s, t) == [Run(r, read)]
      && (read.Some? ==> forall b <- read.value :: b.Buf? && WellNamed(b))
      && t.q in s.workers && s.workers[t.q] == WorkerState(Busy(r), false)
    case Complete(e, result) =>
      && e.Evt? && t == Worker(e.queue) && result != PENDING
      && t.q in s.workers && s.workers[t.q].pc.Busy? && Carrying(s.workers[t.q].pc.rq, e)
    case Push(r) => t.Client? && r.Req? && r.target.Que? && ReqOk(s, r.target, r) && Ops(s, t) == [Push(r)]
    case Wait(e) => t.Client? && e.Evt?
    case SetSlot(g, _, b) => t.Client? && g.Grp? && b.Buf? && WellNamed(b)
    case FinishBuffer(d, _) => t.Client? && d.Dev?
    case FinishQueue(d) => t.Client? && d.Dev?
  }

  ghost predicate ThreadOk(s: State, t: Tid)
    requires t in s.threads
  {
    && (forall op <- s.threads[t] :: OpOk(s, t, op))
    && (t.Worker? && s.threads[t] != [] ==> t.q in s.workers && s.workers[t.q].pc.Busy?)
  }

  ghost predicate ThreadsOk(s: State) {
    forall t <- s.threads :: ThreadOk(s, t)
  }

  function InFlight(w: WorkerState): seq<Id> {
    if w.pc.Busy? then [w.pc.rq] else []
  }

  ghost predicate Pending(s: State, e: Id) {
    e in s.heap && s.heap[e].body == Signal(PENDING)
  }

  // Requests pushed and not yet taken by the worker.
  ghost function Untaken(s: State, q: Id): seq<Id>
    requires q in s.workers && q in s.logs
    requires s.logs[q].done + InFlight(s.workers[q]) <= s.logs[q].pushed
  {
    s.logs[q].pushed[|s.logs[q].done + InFlight(s.workers[q])|..]
  }

  ghost predicate LogOk(s: State, q: Id)
    requires q in s.workers
  {
    && q in s.logs
    && s.logs[q].done + InFlight(s.workers[q]) <= s.logs[q].pushed
    && (q in s.heap ==> s.heap[q].body.Fifo? && s.heap[q].body.pending == Untaken(s, q))
    && (q !in s.heap ==> forall r <- Untaken(s, q) :: r.Req? && r.event.None?)
    && (s.workers[q] == WorkerState(Exited, false) ==> Untaken(s, q) == [])
    && (forall r <- s.logs[q].pushed :: ReqOk(s, q, r))
    && (forall r <- s.logs[q].done :: r.Req? && (r.event.Some? ==> !Pending(s, r.event.value)))
  }

  ghost predicate WorkerOk(s: State, q: Id)
    requires q in s.workers
  {
    var w := s.workers[q];
    && q.Que? && WellNamed(q) && q.n < s.next
    && (!w.pc.Exited? && !w.quit ==> q in s.heap)
    && ((w.pc.Exited? || w.quit) && q in s.heap ==> s.heap[q].count == 0)
    && (w.pc.Looping? ==> !w.quit)
    && Owing(s, q)
  }

  // While the event of the request in hand is pending, the worker of q still has the completion to do.
  // A worker that destroys its own queue frees it before its fn returns.
  ghost predicate Owing(s: State, q: Id)
    requires q in s.workers
  {
    var w := s.workers[q];
    && (w.pc.Busy? && w.pc.rq.Req? && w.pc.rq.event.Some? && Pending(s, w.pc.rq.event.value) ==>
          Running(Ops(s, Worker(q)), w.pc.rq) || OpsClaims(Ops(s, Worker(q)), Owe(w.pc.rq.event.value)) > 0)
    && (w.quit && q in s.heap ==> OpsClaims(Ops(s, Worker(q)), Kill(q)) > 0)
  }

  ghost predicate WorkersOk(s: State) {
    forall q <- s.workers :: WorkerOk(s, q) && LogOk(s, q)
  }

  // Whoever sleeps unsignalled has nothing to do.
  ghost predicate SleeperOk(s: State, t: Tid) {
    match t
    case Worker(q) =>
      && q in s.workers && s.workers[q].pc.Looping?
      && q in s.heap && s.heap[q].body == Fifo([], false)
    case Client(_) =>
      && Ops(s, t) != [] && Ops(s, t)[0].Wait? && Pending(s, Ops(s, t)[0].e)
  }

  ghost predicate SleepersOk(s: State) {
    forall t <- s.asleep :: SleeperOk(s, t)
  }

  ghost predicate Structured(s: State) {
    NamesOk(s) && ThreadsOk(s) && WorkersOk(s) && SleepersOk(s)
  }

  ghost predicate Inv(s: State) {
    Conserved(s) && Structured(s)
  }

  // ---- counting ----

  // A thread's operation that holds x is part of the tally.
  lemma OpTallied(s: State, t: Tid, op: Op, x: Claim)
    requires op in Ops(s, t)
    ensures Tally(s, x) >= OpClaims(op, x)
  {
    OpsHold(Ops(s, t), op, x);
    SumRemove(s.threads, (t: Tid, ops) => OpsClaims(ops, x), t);
  }

  lemma CellTallied(s: State, k: Id, x: Claim)
    requires k in s.heap
    ensures Tally(s, x) >= CellClaims(k, s.heap[k], x)
  {
    SumRemove(s.heap, (id, c) => CellClaims(id, c, x), k);
  }

  // Whoever owes the completion of an event also holds a reference to it.
  lemma PendingIsHeld(s: State, e: Id)
    requires Conserved(s) && Pending(s, e)
    ensures s.heap[e].count > 0
  {
    SumLe(s.heap, (id, c) => CellClaims(id, c, Owe(e)), (id, c) => CellClaims(id, c, Ref(e)));
    forall ops ensures OpsClaims(ops, Owe(e)) <= OpsClaims(ops, Ref(e)) {
      OwersHold(ops, e);
    }
    SumLe(s.threads, (t: Tid, ops) => OpsClaims(ops, Owe(e)), (t: Tid, ops) => OpsClaims(ops, Ref(e)));
    assert Balanced(s, Owe(e));
    assert Balanced(s, Ref(e));
  }

  lemma {:induction false} OwersHold(ops: seq<Op>, e: Id)
    ensures OpsClaims(ops, Owe(e)) <= OpsClaims(ops, Ref(e))
  {
    if ops != [] { OwersHold(ops[1..], e); }
  }

  // ---- no memory faults ----

  // Every reference held anywhere points to a live, countable object.
  lemma RefLive(s: State, id: Id)
    requires Conserved(s) && Tally(s, Ref(id)) > 0
    ensures id in s.heap && s.heap[id].count > 0
  {
    assert Balanced(s, Ref(id));
  }

  lemma HandleLive(s: State, id: Id)
    requires Conserved(s) && (id in s.handles || id in s.maps)
    ensures id in s.heap && s.heap[id].count > 0
  {
    RefLive(s, id);
  }

  lemma SlotsLive(s: State, g: Id)
    requires Inv(s) && g.Grp? && g in s.heap && s.heap[g].count > 0
    ensures BodyFits(g, s.heap[g].body)
    ensures forall b <- s.heap[g].body.slots :: Live(s, b) && s.heap[b].count > 0
  {
    assert NameOk(s, g);
    var slots := s.heap[g].body.slots;
    forall b | b in slots ensures Live(s, b) && s.heap[b].count > 0 {
      CellTallied(s, g, Ref(b));
      RefLive(s, b);
      assert NameOk(s, b);
    }
  }

  lemma CallIsFaultless(s: State, call: Call)
    requires Inv(s) && MayCall(s, call)
    ensures CallFaultless(s, call)
  {
    forall id | id in s.handles ensures Live(s, id) && s.heap[id].count > 0 {
      HandleLive(s, id);
      assert NameOk(s, id);
    }
    match call {
      case GetSlot(g, i) => SlotsLive(s, g);
      case UnmapBuffer(b, _) =>
        HandleLive(s, b);
        assert NameOk(s, b);
      case _ =>
    }
  }

  lemma OpRefLive(s: State, t: Tid, op: Op, id: Id)
    requires Inv(s) && op in Ops(s, t) && OpClaims(op, Ref(id)) > 0
    ensures Live(s, id) && s.heap[id].count > 0
  {
    OpTallied(s, t, op, Ref(id));
    RefLive(s, id);
    assert NameOk(s, id);
  }

  lemma OpKillLive(s: State, t: Tid, op: Op, id: Id)
    requires Inv(s) && op in Ops(s, t) && OpClaims(op, Kill(id)) > 0
    ensures Live(s, id) && s.heap[id].count == 0
  {
    OpTallied(s, t, op, Kill(id));
    assert Balanced(s, Kill(id));
    assert NameOk(s, id);
  }

  lemma RunIsFaultless(s: State, t: Tid, r: Id, read: Option<seq<Id>>)
    requires Inv(s) && Run(r, read) in Ops(s, t)
    ensures OpFaultless(s, t, Run(r, read))
  {
    assert OpOk(s, t, Run(r, read));
    OpRefLive(s, t, Run(r, read), r);
    assert WorkerOk(s, r.target) && NameOk(s, r.target);
    if r.group.Some? {
      var g := r.group.value;
      assert CellClaims(r, s.heap[r], Ref(g)) > 0;
      CellTallied(s, r, Ref(g));
      RefLive(s, g);
      assert NameOk(s, g);
      SlotsLive(s, g);
    }
  }

  lemma OpIsFaultless(s: State, t: Tid, op: Op)
    requires Inv(s) && op in Ops(s, t)
    ensures OpFaultless(s, t, op)
  {
    assert OpOk(s, t, op);
    match op {
      case Release(id) => OpRefLive(s, t, op, id);
      case Free(id) => OpKillLive(s, t, op, id);
      case Destroy(q, _) => OpKillLive(s, t, op, q);
      case Run(r, read) => RunIsFaultless(s, t, r, read);
      case Complete(e, _) =>
        OpTallied(s, t, op, Owe(e));
        assert Balanced(s, Owe(e));
        assert NameOk(s, e);
      case Push(r) =>
        OpRefLive(s, t, op, r);
        OpRefLive(s, t, op, r.target);
        assert NameOk(s, r.target) && LogOk(s, r.target);
      case Wait(e) => OpRefLive(s, t, op, e);
      case SetSlot(g, _, b) =>
        OpRefLive(s, t, op, g);
        OpRefLive(s, t, op, b);
      case FinishBuffer(d, _) => OpRefLive(s, t, op, d);
      case FinishQueue(d) => OpRefLive(s, t, op, d);
    }
  }

  // No step of a run can fault: everything it touches is allocated, no count goes below zero, nothing
  // that is still referenced is freed.
  lemma NoFault(s: State, step: Step)
    requires Inv(s) && Guard(s, step)
    ensures Faultless(s, step)
  {
    match step {
      case Begin(_, call) => CallIsFaultless(s, call);
      case Exec(t, _) => OpIsFaultless(s, t, Ops(s, t)[0]);
      case Take(q) => assert WorkerOk(s, q) && NameOk(s, q);
      case Return(q) => assert LogOk(s, q);
      case Wake(_) =>
    }
  }
}
