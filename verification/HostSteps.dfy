// The XRP host library as a step system: client threads, one worker thread per queue, and their locks.
// Every mutex-protected region and every atomic change of a reference count is one step. A retain made by
// a caller that already holds a reference is folded into the step it prepares.
module HostSteps {
  import opened Bags
  import opened HostObjects

  datatype Tid = Client(k: nat) | Worker(q: Id)

  // Where a worker is in xrp_queue_thread; quit is the local flag that sync_exit points to.
  datatype Pc = Looping | Busy(rq: Id) | Exited
  datatype WorkerState = WorkerState(pc: Pc, quit: bool)

  // History of one queue: every request ever pushed, and those whose processing has returned.
  datatype Log = Log(pushed: seq<Id>, done: seq<Id>)

  datatype State = State(
    next: nat,                     // names below next have been used
    heap: map<Id, Cell>,           // objects in memory
    handles: multiset<Id>,         // references held by clients
    maps: multiset<Id>,            // buffer mappings held by clients
    leaked: multiset<Id>,          // requests left in the memory of a freed queue
    threads: map<Tid, seq<Op>>,    // what each thread has still to do
    workers: map<Id, WorkerState>,
    asleep: set<Tid>,              // threads in xrp_cond_wait that nobody has signalled
    logs: map<Id, Log>)

  function Ops(s: State, t: Tid): seq<Op> {
    if t in s.threads then s.threads[t] else []
  }

  ghost predicate Init(s: State) {
    s == State(0, map[], multiset{}, multiset{}, multiset{}, map[], map[], {}, map[])
  }

  // The calls a client thread makes. ok is the outcome of the allocations inside the call.
  datatype Call =
    | OpenDevice
    | NewHostBuffer(size: nat)
    | NewGroup
    | Retain(id: Id)
    | MapBuffer(b: Id, offset: nat, size: nat)
    | GetSlot(g: Id, i: nat)
    | AddSlot(g: Id, b: Id, ok: bool)
    | Drop(id: Id)
    | UnmapBuffer(b: Id, delta: int)
    | NewDeviceBuffer(d: Id, size: nat)
    | NewQueue(d: Id)
    | SetInGroup(g: Id, i: nat, b: Id)
    | Enqueue(q: Id, group: Option<Id>, wantEvent: bool, ok: bool)
    | AwaitEvent(e: Id)

  datatype Step =
    | Begin(t: Tid, call: Call)   // an idle client thread makes a call
    | Exec(t: Tid, ok: bool)      // a thread performs its next operation
    | Take(q: Id)                 // a worker enters the locked loop of xrp_queue_process
    | Return(q: Id)               // a worker's fn has returned
    | Wake(t: Tid)                // a spurious wakeup

  // What the API demands of a client: it names only objects it holds a reference to.
  ghost predicate MayCall(s: State, call: Call) {
    match call
    case OpenDevice => true
    case NewHostBuffer(_) => true
    case NewGroup => true
    case Retain(id) => id in s.handles
    case MapBuffer(b, _, _) => b.Buf? && b in s.handles
    case GetSlot(g, _) => g.Grp? && g in s.handles
    case AddSlot(g, b, _) => g.Grp? && b.Buf? && g in s.handles && b in s.handles
    case Drop(id) => id in s.handles
    case UnmapBuffer(b, _) => b in s.maps
    case NewDeviceBuffer(d, _) => d.Dev? && d in s.handles
    case NewQueue(d) => d.Dev? && d in s.handles
    case SetInGroup(g, _, b) => g.Grp? && b.Buf? && g in s.handles && b in s.handles
    case Enqueue(q, g, _, _) => q.Que? && q in s.handles && (g.Some? ==> g.value.Grp? && g.value in s.handles)
    case AwaitEvent(e) => e.Evt? && e in s.handles
  }

  // A step can be taken: the thread is not asleep and not blocked in pthread_join.
  ghost predicate Guard(s: State, step: Step) {
    match step
    case Begin(t, call) => t.Client? && Ops(s, t) == [] && MayCall(s, call)
    case Exec(t, _) =>
      && Ops(s, t) != [] && t !in s.asleep
      && (Ops(s, t)[0].Destroy? && Ops(s, t)[0].joining && t != Worker(Ops(s, t)[0].q) ==>
            Ops(s, t)[0].q in s.workers && s.workers[Ops(s, t)[0].q].pc.Exited?)
    case Take(q) => q in s.workers && s.workers[q].pc.Looping? && Worker(q) !in s.asleep
    case Return(q) => q in s.workers && s.workers[q].pc.Busy? && Ops(s, Worker(q)) == []
    case Wake(t) => t in s.asleep
  }

  // ---- absence of memory faults ----

  // The object is in memory and has the layout the code expects.
  ghost predicate Live(s: State, id: Id) {
    id in s.heap && BodyFits(id, s.heap[id].body)
  }

  ghost predicate CallFaultless(s: State, call: Call) {
    match call
    case OpenDevice => true
    case NewHostBuffer(_) => true
    case NewGroup => true
    case Retain(id) => Live(s, id)
    case MapBuffer(b, _, _) => Live(s, b)
    case GetSlot(g, i) => g.Grp? && Live(s, g) && (i < |s.heap[g].body.slots| ==> Live(s, s.heap[g].body.slots[i]))
    case AddSlot(g, b, _) => Live(s, g) && Live(s, b)
    case Drop(id) => Live(s, id)
    case UnmapBuffer(b, _) => b.Buf? && Live(s, b) && s.heap[b].body.mapCount > 0
    case NewDeviceBuffer(d, _) => Live(s, d)
    case NewQueue(d) => Live(s, d)
    case SetInGroup(g, _, b) => Live(s, g) && Live(s, b)
    case Enqueue(q, g, _, _) => Live(s, q) && (g.Some? ==> Live(s, g.value))
    case AwaitEvent(e) => Live(s, e)
  }

  // The next operation of a thread touches only memory that is still allocated, never counts below
  // zero, never frees an object that is still referenced.
  ghost predicate OpFaultless(s: State, t: Tid, op: Op) {
    match op
    case Release(id) => Live(s, id) && s.heap[id].count > 0
    case Free(id) => Live(s, id) && s.heap[id].count == 0
    case Destroy(q, _) => q.Que? && Live(s, q) && (t == Worker(q) ==> q in s.workers)
    case Run(r, read) =>
      && r.Req? && Live(s, r) && r.target.Que? && Live(s, r.target)
      && (read.None? && r.group.Some? ==> (r.group.value.Grp? && Live(s, r.group.value) &&
           forall b <- s.heap[r.group.value].body.slots :: Live(s, b)))
    case Complete(e, _) => e.Evt? && Live(s, e)
    case Push(r) => r.Req? && r.target.Que? && Live(s, r.target) && Live(s, r) && r.target in s.logs
    case Wait(e) => e.Evt? && Live(s, e)
    case SetSlot(g, _, b) => g.Grp? && Live(s, g) && Live(s, b)
    case FinishBuffer(d, _) => d.Dev? && Live(s, d)
    case FinishQueue(d) => d.Dev? && Live(s, d)
  }

  ghost predicate Faultless(s: State, step: Step)
    requires Guard(s, step)
  {
    match step
    case Begin(_, call) => CallFaultless(s, call)
    case Exec(t, _) => OpFaultless(s, t, Ops(s, t)[0])
    case Take(q) => q.Que? && Live(s, q)
    case Return(q) => q in s.logs
    case Wake(_) => true
  }

  // ---- effects ----

  function Counted(c: Cell, delta: int): Cell
    requires c.count + delta >= 0
  {
    c.(count := c.count + delta)
  }

  // A newly allocated object with one reference.
  function Alloc(s: State, id: Id, body: Body): State {
    s.(next := s.next + 1, heap := s.heap[id := Cell(1, body)])
  }

  function Granted(s: State, id: Id): State {
    s.(handles := s.handles + multiset{id})
  }

  function Retained(s: State, id: Id): State
    requires id in s.heap
  {
    s.(heap := s.heap[id := Counted(s.heap[id], 1)])
  }

  function Doing(s: State, t: Tid, ops: seq<Op>): State {
    s.(threads := s.threads[t := ops])
  }

  // xrp_enqueue_command up to its push: a new event holds the queue, the request holds event and group,
  // and the call keeps the caller's reference to the queue until it returns.
  function Prepare(s: State, t: Tid, q: Id, g: Option<Id>, wantEvent: bool): State
    requires q in s.heap && (g.Some? ==> g.value in s.heap)
  {
    var e := if wantEvent then Some(Evt(s.next, q)) else None;
    var r := Req(s.next + 1, q, e, g);
    var s1 := if wantEvent then Retained(s, q) else s;
    var s2 := if wantEvent then s1.(heap := s1.heap[e.value := Cell(2, Signal(PENDING))]) else s1;
    var s3 := if g.Some? then Retained(s2, g.value) else s2;
    var s4 := s3.(next := s.next + 2, heap := s3.heap[r := Cell(1, Fixed)], handles := s.handles - multiset{q});
    Doing(s4, t, [Push(r)])
  }

  ghost function ApplyCall(s: State, t: Tid, call: Call): State
    requires MayCall(s, call) && CallFaultless(s, call)
  {
    match call
    case OpenDevice => Granted(Alloc(s, Dev(s.next), Fixed), Dev(s.next))
    case NewHostBuffer(size) =>
      Granted(Alloc(s, Buf(s.next, None, size), Mappable(0)), Buf(s.next, None, size))
    case NewGroup => Granted(Alloc(s, Grp(s.next), Slots([])), Grp(s.next))
    case Retain(id) => Granted(Retained(s, id), id)
    case MapBuffer(b, offset, size) =>
      if offset <= b.size && size <= b.size - offset then
        var c := Counted(s.heap[b], 1).(body := Mappable(s.heap[b].body.mapCount + 1));
        s.(heap := s.heap[b := c], maps := s.maps + multiset{b})
      else s
    case GetSlot(g, i) =>
      var slots := s.heap[g].body.slots;
      if i < |slots| then Granted(Retained(s, slots[i]), slots[i]) else s
    case AddSlot(g, b, ok) =>
      if !ok then s else
      var s1 := Retained(s, b);
      s1.(heap := s1.heap[g := s1.heap[g].(body := Slots(s.heap[g].body.slots + [b]))])
    case Drop(id) => Doing(s.(handles := s.handles - multiset{id}), t, [Release(id)])
    case UnmapBuffer(b, delta) =>
      if 0 <= delta <= b.size then
        var c := s.heap[b].(body := Mappable(s.heap[b].body.mapCount - 1));
        Doing(s.(heap := s.heap[b := c], maps := s.maps - multiset{b}), t, [Release(b)])
      else s
    case NewDeviceBuffer(d, size) => Doing(Retained(s, d), t, [FinishBuffer(d, size)])
    case NewQueue(d) => Doing(Retained(s, d), t, [FinishQueue(d)])
    case SetInGroup(g, i, b) =>
      Doing(Retained(s.(handles := s.handles - multiset{g}), b), t, [SetSlot(g, i, b)])
    case Enqueue(q, g, wantEvent, ok) =>
      if ok then Prepare(s, t, q, g, wantEvent) else s
    case AwaitEvent(e) => Doing(s.(handles := s.handles - multiset{e}), t, [Wait(e)])
  }

  // The buffers in the group of a request, as _xrp_run_command copies them under the group's mutex.
  function Records(s: State, r: Id): seq<Id> {
    if r.Req? && r.group.Some? && r.group.value in s.heap && s.heap[r.group.value].body.Slots?
    then s.heap[r.group.value].body.slots else []
  }

  // The one operation under way is the processing of request r.
  ghost predicate Running(ops: seq<Op>, r: Id) {
    |ops| == 1 && ops[0].Run? && ops[0].r == r
  }

  // The threads waiting for event e.
  ghost function Waiters(s: State, e: Id): set<Tid> {
    set t | t in s.asleep && Ops(s, t) != [] && Ops(s, t)[0] == Wait(e)
  }

  ghost function ApplyOp(s: State, t: Tid, op: Op, rest: seq<Op>, ok: bool): State
    requires OpFaultless(s, t, op)
  {
    match op
    case Release(id) =>
      var c := Counted(s.heap[id], -1);
      Doing(s.(heap := s.heap[id := c]), t, if c.count == 0 then DeathOps(id, c.body) + rest else rest)
    case Free(id) =>
      var lost := if id.Que? then multiset(s.heap[id].body.pending) else multiset{};
      Doing(s.(heap := s.heap - {id}, leaked := s.leaked + lost), t, rest)
    case Destroy(q, joining) =>
      if !joining then
        var c := s.heap[q].(body := Fifo(s.heap[q].body.pending, true));
        Doing(s.(heap := s.heap[q := c], asleep := s.asleep - {Worker(q)}), t, [Destroy(q, true)] + rest)
      else
        var s1 := if t == Worker(q) then s.(workers := s.workers[q := s.workers[q].(quit := true)]) else s;
        Doing(s1, t, [Release(q.dev), Free(q)] + rest)
    case Run(r, read) =>
      if read.None? then Doing(s, t, [Run(r, Some(Records(s, r)))] + rest) else
      Doing(s.(heap := s.heap[r := s.heap[r].(count := 0)]), t,
            AfterRun(r, if ok then SUCCESS else FAILURE) + rest)
    case Complete(e, result) =>
      Doing(s.(heap := s.heap[e := s.heap[e].(body := Signal(result))], asleep := s.asleep - Waiters(s, e)), t,
            [Release(e)] + rest)
    case Push(r) =>
      var q := r.target;
      var fifo := s.heap[q].body;
      Doing(s.(heap := s.heap[q := s.heap[q].(body := Fifo(fifo.pending + [r], fifo.exit))],
               asleep := if fifo.pending == [] then s.asleep - {Worker(q)} else s.asleep,
               logs := s.logs[q := s.logs[q].(pushed := s.logs[q].pushed + [r])],
               handles := s.handles + multiset{q} + (if r.event.Some? then multiset{r.event.value} else multiset{})),
            t, rest)
    case Wait(e) =>
      if s.heap[e].body.status == PENDING then s.(asleep := s.asleep + {t})
      else Doing(Granted(s, e), t, rest)
    case SetSlot(g, i, b) =>
      var slots := s.heap[g].body.slots;
      var s1 := Granted(s, g);
      if i < |slots| then
        Doing(s1.(heap := s.heap[g := s.heap[g].(body := Slots(slots[i := b]))]), t, [Release(slots[i])] + rest)
      else
        Doing(s1, t, [Release(b)] + rest)
    case FinishBuffer(d, size) =>
      if ok then
        var b := Buf(s.next, Some(d), size);
        Doing(Granted(Alloc(s, b, Mappable(0)), b), t, rest)
      else Doing(s, t, [Release(d)] + rest)
    case FinishQueue(d) =>
      if ok then
        var q := Que(s.next, d);
        var s1 := Granted(Alloc(s, q, Fifo([], false)), q);
        Doing(s1.(workers := s.workers[q := WorkerState(Looping, false)], logs := s.logs[q := Log([], [])]), t, rest)
      else Doing(s, t, [Release(d)] + rest)
  }

  ghost function Apply(s: State, step: Step): State
    requires Guard(s, step) && Faultless(s, step)
  {
    match step
    case Begin(t, call) => ApplyCall(s, t, call)
    case Exec(t, ok) => ApplyOp(s, t, Ops(s, t)[0], Ops(s, t)[1..], ok)
    case Take(q) =>
      var fifo := s.heap[q].body;
      if fifo.pending != [] then
        var r := fifo.pending[0];
        Doing(s.(heap := s.heap[q := s.heap[q].(body := Fifo(fifo.pending[1..], fifo.exit))],
                 workers := s.workers[q := WorkerState(Busy(r), false)]),
              Worker(q), [Run(r, None)])
      else if fifo.exit then
        s.(workers := s.workers[q := WorkerState(Exited, false)])
      else
        s.(asleep := s.asleep + {Worker(q)})
    case Return(q) =>
      var w := s.workers[q];
      s.(workers := s.workers[q := WorkerState(if w.quit then Exited else Looping, w.quit)],
         logs := s.logs[q := s.logs[q].(done := s.logs[q].done + [w.pc.rq])])
    case Wake(t) => s.(asleep := s.asleep - {t})
  }

  ghost predicate Next(s: State, s': State) {
    exists step :: Guard(s, step) && Faultless(s, step) && s' == Apply(s, step)
  }

  // A run from the empty state.
  ghost predicate IsRun(run: seq<State>) {
    && run != [] && Init(run[0])
    && (forall i :: 0 <= i < |run| - 1 ==> Next(run[i], run[i + 1]))
  }
}
