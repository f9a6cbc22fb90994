// Progress of the XRP host library: a distance to the completion of an event, or to the end of a queue's
// worker, that no step raises and that the steps of one thread lower. Under fair scheduling every pending
// event completes, every wait returns and every destroy of a queue gets past pthread_join.
module HostProgress {
  import opened Bags
  import opened HostObjects
  import opened HostSteps
  import opened HostInvariant
  import opened HostConservation
  import opened HostStructure
  import opened HostOperations
  import opened HostRuns
  import opened HostTheorems
  import opened HostLedger
  import opened HostFrames

  // ---- how much a worker has still to do with the request in hand ----

  ghost function Tot(ops: seq<Op>, f: Op -> nat): nat {
    if ops == [] then 0 else f(ops[0]) + Tot(ops[1..], f)
  }

  lemma {:induction false} TotConcat(a: seq<Op>, b: seq<Op>, f: Op -> nat)
    ensures Tot(a + b, f) == Tot(a, f) + Tot(b, f)
  {
    if a == [] {
      assert a + b == b;
    } else {
      TotConcat(a[1..], b, f);
      assert (a + b)[1..] == a[1..] + b;
    }
  }

  lemma TotOne(op: Op, f: Op -> nat)
    ensures Tot([op], f) == f(op) && Tot([], f) == 0
  {
    assert [op][1..] == [];
  }

  lemma TotTwo(a: Op, b: Op, f: Op -> nat)
    ensures Tot([a, b], f) == f(a) + f(b)
  {
    TotOne(b, f);
    assert [a, b][1..] == [b];
  }

  lemma {:induction false} TotZero(ops: seq<Op>, f: Op -> nat)
    requires forall op <- ops :: f(op) == 0
    ensures Tot(ops, f) == 0
  {
    if ops != [] { TotZero(ops[1..], f); }
  }

  function RunsOf(op: Op): nat {
    if op.Run? then (if op.read.None? then 2 else 1) else 0
  }

  // The last release of a group leaves any number of buffers to release.
  function GroupsOf(op: Op): nat {
    if op.Release? && op.id.Grp? then 1 else 0
  }

  // A bound on the steps an operation takes, groups aside.
  function WorkOf(op: Op): nat {
    match op
    case Release(Dev(_)) => 2
    case Release(Buf(_, _, _)) => 4
    case Release(Que(_, _)) => 6
    case Release(Evt(_, _)) => 8
    case Free(_) => 1
    case Destroy(_, joining) => if joining then 4 else 5
    case Complete(_, _) => 9
    case _ => 0
  }

  datatype Distance = Distance(unpushed: nat, ahead: nat, stage: nat, runs: nat, groups: nat, work: nat)

  predicate Less(a: Distance, b: Distance) {
    || a.unpushed < b.unpushed
    || (a.unpushed == b.unpushed && a.ahead < b.ahead)
    || (a.unpushed == b.unpushed && a.ahead == b.ahead && a.stage < b.stage)
    || (a.unpushed == b.unpushed && a.ahead == b.ahead && a.stage == b.stage && a.runs < b.runs)
    || (a.unpushed == b.unpushed && a.ahead == b.ahead && a.stage == b.stage && a.runs == b.runs && a.groups < b.groups)
    || (a.unpushed == b.unpushed && a.ahead == b.ahead && a.stage == b.stage && a.runs == b.runs && a.groups == b.groups
        && a.work < b.work)
  }

  function StageOf(pc: Pc): nat {
    match pc
    case Looping => 2
    case Busy(_) => 1
    case Exited => 0
  }

  ghost function Effort(unpushed: nat, ahead: nat, stage: nat, ops: seq<Op>): Distance {
    Distance(unpushed, ahead, stage, Tot(ops, RunsOf), Tot(ops, GroupsOf), Tot(ops, WorkOf))
  }

  // How far the worker of q is from having finished the first j requests pushed.
  ghost function Toward(s: State, q: Id, j: nat): Distance
    requires q in s.workers && q in s.logs
  {
    var done := |s.logs[q].done|;
    Effort(0, if done < j then j - done else 0, StageOf(s.workers[q].pc), Ops(s, Worker(q)))
  }

  // ---- a worker's operations get fewer ----

  // What replaces op is less than op.
  ghost predicate Shrinks(op: Op, pre: seq<Op>) {
    Less(Effort(0, 0, 0, pre), Distance(0, 0, 0, RunsOf(op), GroupsOf(op), WorkOf(op)))
  }

  lemma ReleasesShrink(id: Id, body: Body)
    requires id.Grp? && BodyFits(id, body)
    ensures Shrinks(Release(id), DeathOps(id, body))
  {
    TotZero(DeathOps(id, body), RunsOf);
    forall op <- DeathOps(id, body) ensures GroupsOf(op) == 0 {
      if op != Free(id) {
        var i :| 0 <= i < |body.slots| && Releases(body.slots)[i] == op;
        assert body.slots[i] in body.slots;
      }
    }
    TotZero(DeathOps(id, body), GroupsOf);
  }

  lemma DeathShrinks(id: Id, body: Body)
    requires WellNamed(id) && !id.Req? && BodyFits(id, body)
    ensures Shrinks(Release(id), DeathOps(id, body))
  {
    if id.Grp? {
      ReleasesShrink(id, body);
    } else {
      var ops := DeathOps(id, body);
      assert |ops| == 1 || |ops| == 2;
      assert ops == (if |ops| == 1 then [ops[0]] else [ops[0], ops[1]]);
      forall f: Op -> nat ensures Tot(ops, f) == f(ops[0]) + (if |ops| == 2 then f(ops[1]) else 0) {
        if |ops| == 1 { TotOne(ops[0], f); } else { TotTwo(ops[0], ops[1], f); }
      }
    }
  }

  lemma RunShrinks(r: Id, result: Status, read: seq<Id>)
    requires r.Req?
    ensures Shrinks(Run(r, Some(read)), AfterRun(r, result))
  {
    TotZero(AfterRun(r, result), RunsOf);
  }

  lemma SingleShrinks(op: Op, next: Op)
    requires (op.Destroy? && !op.joining && next == Destroy(op.q, true)) || (op.Complete? && op.e.Evt? && next == Release(op.e))
             || (op.Run? && op.read.None? && next.Run? && next.read.Some?)
    ensures Shrinks(op, [next])
  {
    TotOne(next, RunsOf);
    TotOne(next, GroupsOf);
    TotOne(next, WorkOf);
  }

  lemma JoinShrinks(q: Id)
    requires q.Que? && q.dev.Dev?
    ensures Shrinks(Destroy(q, true), [Release(q.dev), Free(q)])
  {
    TotTwo(Release(q.dev), Free(q), RunsOf);
    TotTwo(Release(q.dev), Free(q), GroupsOf);
    TotTwo(Release(q.dev), Free(q), WorkOf);
  }

  lemma NothingShrinks(op: Op)
    requires op.Free? || (op.Release? && !op.id.Req?)
    ensures Shrinks(op, [])
  {
    TotOne(op, RunsOf);
    TotOne(op, GroupsOf);
    TotOne(op, WorkOf);
  }

  lemma WorkShrinks(s: State, t: Tid, op: Op, ok: bool)
    requires OpFaultless(s, t, op) && OpOk(s, t, op) && t.Worker? && (op.Destroy? ==> WellNamed(op.q))
    ensures Shrinks(op, OpOps(s, t, op, ok))
  {
    hide Shrinks, DeathOps, AfterRun;
    match op {
      case Release(id) => if s.heap[id].count == 1 { DeathShrinks(id, s.heap[id].body); } else { NothingShrinks(op); }
      case Free(_) => NothingShrinks(op);
      case Destroy(q, joining) => if joining { JoinShrinks(q); } else { SingleShrinks(op, Destroy(q, true)); }
      case Run(r, read) =>
        if read.None? { SingleShrinks(op, Run(r, Some(Records(s, r)))); }
        else { RunShrinks(r, if ok then SUCCESS else FAILURE, read.value); }
      case Complete(e, _) => SingleShrinks(op, Release(e));
    }
  }

  lemma ShrinksInFront(op: Op, pre: seq<Op>, rest: seq<Op>, ahead: nat, stage: nat)
    requires Shrinks(op, pre)
    ensures Less(Effort(0, ahead, stage, pre + rest), Effort(0, ahead, stage, [op] + rest))
  {
    forall f: Op -> nat ensures Tot(pre + rest, f) == Tot(pre, f) + Tot(rest, f) && Tot([op] + rest, f) == f(op) + Tot(rest, f) {
      TotConcat(pre, rest, f);
      TotConcat([op], rest, f);
      TotOne(op, f);
    }
  }

  // ---- a worker's steps ----

  // The step is one of thread t's own; a spurious wakeup is not.
  predicate By(step: Step, t: Tid) {
    match step
    case Begin(u, _) => u == t
    case Exec(u, _) => u == t
    case Take(q) => t == Worker(q)
    case Return(q) => t == Worker(q)
    case Wake(_) => false
  }

  lemma WorkerOpFrame(s: State, q: Id, op: Op, rest: seq<Op>, ok: bool)
    requires OpFaultless(s, Worker(q), op) && q in s.workers && q in s.logs
    requires op.Release? || op.Free? || op.Destroy? || op.Run? || op.Complete?
    ensures var s' := ApplyOp(s, Worker(q), op, rest, ok);
            && q in s'.workers && q in s'.logs && s'.workers[q].pc == s.workers[q].pc && s'.logs[q] == s.logs[q]
  {
    hide DeathOps, AfterRun;
  }

  lemma ExecNearer(s: State, q: Id, ok: bool, j: nat)
    requires Inv(s) && Guard(s, Exec(Worker(q), ok)) && Faultless(s, Exec(Worker(q), ok)) && q in s.workers
             && q in s.logs
    ensures var s' := Apply(s, Exec(Worker(q), ok));
            && q in s'.workers && q in s'.logs && s'.logs[q] == s.logs[q]
            && Less(Toward(s', q, j), Toward(s, q, j))
  {
    hide Inv, ApplyOp, OpFaultless, Effort, Less, OpOps;
    var t := Worker(q);
    var op, rest := Ops(s, t)[0], Ops(s, t)[1..];
    OpShape(s, t, ok);
    WorkerHead(s, q);
    WorkShrinks(s, t, op, ok);
    WorkerOpFrame(s, q, op, rest, ok);
    var done := |s.logs[q].done|;
    ShrinksInFront(op, OpOps(s, t, op, ok), rest, if done < j then j - done else 0, StageOf(s.workers[q].pc));
    assert Ops(s, t) == [op] + rest;
  }

  lemma WorkerHead(s: State, q: Id)
    requires Inv(s) && Ops(s, Worker(q)) != []
    ensures var op := Ops(s, Worker(q))[0];
            OpOk(s, Worker(q), op) && (op.Destroy? ==> WellNamed(op.q))
            && (op.Release? || op.Free? || op.Destroy? || op.Run? || op.Complete?)
  {
    hide Conserved, NamesOk, SleepersOk;
    HeadOk(s, Worker(q));
    var op := Ops(s, Worker(q))[0];
    if op.Destroy? { assert WorkerOk(s, op.q); }
  }

  // Each step of the worker of q, unless it finds nothing to do, brings it nearer to having finished the
  // first j requests.
  lemma WorkerNearer(s: State, step: Step, q: Id, j: nat)
    requires Inv(s) && Guard(s, step) && Faultless(s, step) && q in s.workers && q in s.logs && By(step, Worker(q))
    requires step.Take? ==> Live(s, q) && s.heap[q].body != Fifo([], false)
    requires step.Return? ==> |s.logs[q].done| < j
    ensures var s' := Apply(s, step);
            && q in s'.workers && q in s'.logs && s'.logs[q].pushed == s.logs[q].pushed
            && Less(Toward(s', q, j), Toward(s, q, j))
  {
    hide Inv, ApplyOp, OpFaultless, ApplyCall, CallFaultless, MayCall;
    match step {
      case Exec(_, ok) => ExecNearer(s, q, ok, j);
      case Take(_) =>
      case Return(_) =>
    }
  }

  // ---- the steps of other threads ----

  ghost predicate OpApart(s: State, s': State, op: Op, q: Id) {
    && q in s.workers && q in s.logs && q in s'.workers && q in s'.logs && s'.workers[q] == s.workers[q]
    && s'.logs[q].done == s.logs[q].done && s.logs[q].pushed <= s'.logs[q].pushed
    && (s'.logs[q].pushed != s.logs[q].pushed ==> op.Push? && op.r.Req? && op.r.target == q)
  }

  lemma FreeApart(s: State, t: Tid, op: Op, rest: seq<Op>, ok: bool, q: Id)
    requires OpFaultless(s, t, op) && OpOk(s, t, op) && t != Worker(q) && q in s.workers && q in s.logs && q.n < s.next
    requires op.Release? || op.Free?
    ensures OpApart(s, ApplyOp(s, t, op, rest, ok), op, q)
  {
    hide DeathOps, AfterRun, BodyFits;
  }

  lemma DestroyApart(s: State, t: Tid, op: Op, rest: seq<Op>, ok: bool, q: Id)
    requires OpFaultless(s, t, op) && OpOk(s, t, op) && t != Worker(q) && q in s.workers && q in s.logs && q.n < s.next
    requires op.Destroy?
    ensures OpApart(s, ApplyOp(s, t, op, rest, ok), op, q)
  {
    hide DeathOps, AfterRun, BodyFits;
  }

  lemma RunApart(s: State, t: Tid, op: Op, rest: seq<Op>, ok: bool, q: Id)
    requires OpFaultless(s, t, op) && OpOk(s, t, op) && t != Worker(q) && q in s.workers && q in s.logs && q.n < s.next
    requires op.Run? || op.Complete?
    ensures OpApart(s, ApplyOp(s, t, op, rest, ok), op, q)
  {
    hide DeathOps, AfterRun, BodyFits;
  }

  lemma ClientApart(s: State, t: Tid, op: Op, rest: seq<Op>, ok: bool, q: Id)
    requires OpFaultless(s, t, op) && OpOk(s, t, op) && t != Worker(q) && q in s.workers && q in s.logs && q.n < s.next
    requires op.Push? || op.Wait? || op.SetSlot?
    ensures OpApart(s, ApplyOp(s, t, op, rest, ok), op, q)
  {
    hide DeathOps, AfterRun, BodyFits;
  }

  lemma FinishApart(s: State, t: Tid, op: Op, rest: seq<Op>, ok: bool, q: Id)
    requires OpFaultless(s, t, op) && OpOk(s, t, op) && t != Worker(q) && q in s.workers && q in s.logs && q.n < s.next
    requires op.FinishBuffer? || op.FinishQueue?
    ensures OpApart(s, ApplyOp(s, t, op, rest, ok), op, q)
  {
    hide DeathOps, AfterRun, BodyFits;
  }

  lemma OtherOpFrame(s: State, t: Tid, op: Op, rest: seq<Op>, ok: bool, q: Id)
    requires OpFaultless(s, t, op) && OpOk(s, t, op) && t != Worker(q) && q in s.workers && q in s.logs && q.n < s.next
    ensures OpApart(s, ApplyOp(s, t, op, rest, ok), op, q)
  {
    hide ApplyOp, OpFaultless, OpOk, OpApart;
    if op.Release? || op.Free? { FreeApart(s, t, op, rest, ok, q); }
    else if op.Destroy? { DestroyApart(s, t, op, rest, ok, q); }
    else if op.Run? || op.Complete? { RunApart(s, t, op, rest, ok, q); }
    else if op.FinishBuffer? || op.FinishQueue? { FinishApart(s, t, op, rest, ok, q); }
    else { ClientApart(s, t, op, rest, ok, q); }
  }

  // A call touches no worker, no log and no sleeper.
  ghost predicate CallApart(s: State, s': State) {
    s'.workers == s.workers && s'.logs == s.logs && s'.asleep == s.asleep
  }

  lemma CreationApart(s: State, t: Tid, call: Call)
    requires MayCall(s, call) && CallFaultless(s, call) && (call.OpenDevice? || call.NewHostBuffer? || call.NewGroup?)
    ensures CallApart(s, ApplyCall(s, t, call))
  {
    hide BodyFits;
  }

  lemma RetainApart(s: State, t: Tid, call: Call)
    requires MayCall(s, call) && CallFaultless(s, call) && (call.Retain? || call.GetSlot?)
    ensures CallApart(s, ApplyCall(s, t, call))
  {
    hide BodyFits;
  }

  lemma MapApart(s: State, t: Tid, call: Call)
    requires MayCall(s, call) && CallFaultless(s, call) && call.MapBuffer?
    ensures CallApart(s, ApplyCall(s, t, call))
  {
    hide BodyFits;
  }

  lemma UnmapApart(s: State, t: Tid, call: Call)
    requires MayCall(s, call) && CallFaultless(s, call) && call.UnmapBuffer?
    ensures CallApart(s, ApplyCall(s, t, call))
  {
    hide BodyFits, Live;
    if 0 <= call.delta <= call.b.size { }
  }

  lemma AddApart(s: State, t: Tid, call: Call)
    requires MayCall(s, call) && CallFaultless(s, call) && call.AddSlot?
    ensures CallApart(s, ApplyCall(s, t, call))
  {
    hide BodyFits;
  }

  lemma HandOverApart(s: State, t: Tid, call: Call)
    requires MayCall(s, call) && CallFaultless(s, call) && (call.Drop? || call.SetInGroup? || call.AwaitEvent?)
    ensures CallApart(s, ApplyCall(s, t, call))
  {
    hide BodyFits;
  }

  lemma NewApart(s: State, t: Tid, call: Call)
    requires MayCall(s, call) && CallFaultless(s, call) && (call.NewDeviceBuffer? || call.NewQueue?)
    ensures CallApart(s, ApplyCall(s, t, call))
  {
    hide BodyFits;
  }

  lemma PlainApart(s: State, t: Tid, call: Call)
    requires MayCall(s, call) && CallFaultless(s, call) && !call.Enqueue?
    ensures CallApart(s, ApplyCall(s, t, call))
  {
    hide ApplyCall, MayCall, CallFaultless, CallApart;
    if call.OpenDevice? || call.NewHostBuffer? || call.NewGroup? { CreationApart(s, t, call); }
    else if call.Retain? || call.GetSlot? { RetainApart(s, t, call); }
    else if call.MapBuffer? { MapApart(s, t, call); }
    else if call.UnmapBuffer? { UnmapApart(s, t, call); }
    else if call.AddSlot? { AddApart(s, t, call); }
    else if call.NewDeviceBuffer? || call.NewQueue? { NewApart(s, t, call); }
    else { HandOverApart(s, t, call); }
  }

  lemma PrepareApart(s: State, t: Tid, q: Id, g: Option<Id>, wantEvent: bool)
    requires q in s.heap && (g.Some? ==> g.value in s.heap)
    ensures CallApart(s, Prepare(s, t, q, g, wantEvent))
  {
  }

  lemma EveryCallApart(s: State, t: Tid, call: Call)
    requires MayCall(s, call) && CallFaultless(s, call)
    ensures CallApart(s, ApplyCall(s, t, call))
  {
    hide ApplyCall, MayCall, CallFaultless, CallApart, Prepare;
    if call.Enqueue? {
      EnqueueIsPrepare(s, t, call);
      if call.ok { PrepareApart(s, t, call.q, call.group, call.wantEvent); } else { ApartSelf(s); }
    } else {
      PlainApart(s, t, call);
    }
  }

  lemma ApartSelf(s: State)
    ensures CallApart(s, s)
  {
  }

  lemma CallThreads(s: State, t: Tid, call: Call, u: Tid)
    requires Guard(s, Begin(t, call)) && Faultless(s, Begin(t, call)) && u != t
    ensures Ops(ApplyCall(s, t, call), u) == Ops(s, u)
  {
    hide ApplyCall, MayCall, CallFaultless, Prepare, CallOps, Gain, Loss, Parked;
    if call.Enqueue? {
      EnqueueIsPrepare(s, t, call);
      if call.ok { HostLedger.PrepareShape(s, t, call.q, call.group, call.wantEvent); }
    } else {
      OtherCallMatches(s, t, call, Dev(0));
    }
  }

  // A thread's work is its own.
  lemma OpsUntouched(s: State, step: Step, t: Tid)
    requires Guard(s, step) && Faultless(s, step) && !By(step, t)
    ensures Ops(Apply(s, step), t) == Ops(s, t)
  {
    hide ApplyOp, ApplyCall, OpOps;
    match step {
      case Begin(u, call) => CallThreads(s, u, call, t);
      case Exec(u, ok) => OpShape(s, u, ok);
      case Take(_) =>
      case Return(_) =>
      case Wake(_) =>
    }
  }

  // Other threads leave the worker of q and what it has done alone, and push at the end.
  lemma OthersLeave(s: State, step: Step, q: Id)
    requires Inv(s) && Guard(s, step) && Faultless(s, step) && !By(step, Worker(q)) && q in s.workers
    ensures var s' := Apply(s, step);
            && q in s.logs && q in s'.workers && q in s'.logs && s'.workers[q] == s.workers[q]
            && s'.logs[q].done == s.logs[q].done && s.logs[q].pushed <= s'.logs[q].pushed
            && Ops(s', Worker(q)) == Ops(s, Worker(q))
            && (s'.logs[q].pushed != s.logs[q].pushed ==>
                  step.Exec? && Ops(s, step.t)[0].Push? && Ops(s, step.t)[0].r.target == q)
  {
    hide ApplyOp, ApplyCall, OpFaultless, CallFaultless, MayCall, Conserved, NamesOk, SleepersOk;
    OpsUntouched(s, step, Worker(q));
    assert WorkerOk(s, q) && LogOk(s, q);
    match step {
      case Begin(t, call) => EveryCallApart(s, t, call);
      case Exec(t, ok) =>
        HeadOk(s, t);
        OtherOpFrame(s, t, Ops(s, t)[0], Ops(s, t)[1..], ok, q);
      case Take(_) =>
      case Return(_) =>
      case Wake(_) =>
    }
  }

  // ---- what a thread may wait for ----

  // The completion of event e, or for thread t the end of the worker of the queue it destroys.
  datatype Goal = Completion(e: Id) | Joining(t: Tid, q: Id)

  ghost predicate Open(s: State, g: Goal) {
    match g
    case Completion(e) => Pending(s, e)
    case Joining(t, q) =>
      && t != Worker(q) && Ops(s, t) != [] && Ops(s, t)[0] == Destroy(q, true)
      && !(q in s.workers && s.workers[q].pc.Exited?)
  }

  // The first request that carries event e.
  function FirstFor(pushed: seq<Id>, e: Id): (i: nat)
    ensures i <= |pushed| && (i < |pushed| ==> Carrying(pushed[i], e))
  {
    if pushed == [] || Carrying(pushed[0], e) then 0 else 1 + FirstFor(pushed[1..], e)
  }

  lemma {:induction false} FirstStable(a: seq<Id>, b: seq<Id>, e: Id)
    requires a <= b
    ensures FirstFor(a, e) < |a| ==> FirstFor(b, e) == FirstFor(a, e)
  {
    if a != [] && !Carrying(a[0], e) { FirstStable(a[1..], b[1..], e); }
  }

  lemma {:induction false} FirstExists(pushed: seq<Id>, i: nat, e: Id)
    requires i < |pushed| && Carrying(pushed[i], e)
    ensures FirstFor(pushed, e) < |pushed|
  {
    if i > 0 && !Carrying(pushed[0], e) { FirstExists(pushed[1..], i - 1, e); }
  }

  ghost predicate Pushed(s: State, e: Id) {
    e.Evt? && e.queue in s.workers && e.queue in s.logs && FirstFor(s.logs[e.queue].pushed, e) < |s.logs[e.queue].pushed|
  }

  // How far the goal is; nothing counts before the request of an event has been pushed.
  ghost function DistanceTo(s: State, g: Goal): Distance {
    match g
    case Completion(e) =>
      if Pushed(s, e) then Toward(s, e.queue, FirstFor(s.logs[e.queue].pushed, e)) else Distance(1, 0, 0, 0, 0, 0)
    case Joining(_, q) =>
      if q in s.workers && q in s.logs then Toward(s, q, |s.logs[q].pushed|) else Distance(0, 0, 0, 0, 0, 0)
  }

  // Thread t is the one whose steps lead to the goal.
  ghost predicate Helper(s: State, g: Goal, t: Tid) {
    match g
    case Completion(e) =>
      e.Evt? && if Pushed(s, e) then t == Worker(e.queue)
                else t.Client? && |Ops(s, t)| == 1 && Ops(s, t)[0].Push? && Carrying(Ops(s, t)[0].r, e)
    case Joining(_, q) => t == Worker(q)
  }

  // ---- somebody can help ----

  lemma InHandIsPushed(s: State, q: Id, e: Id)
    requires Inv(s) && e.Evt? && e.queue == q && q in s.workers && s.workers[q].pc.Busy?
             && Carrying(s.workers[q].pc.rq, e)
    ensures Pushed(s, e)
  {
    hide Conserved, NamesOk, ThreadsOk, SleepersOk;
    assert LogOk(s, q);
    BusyRequest(s, q);
    FirstExists(s.logs[q].pushed, |s.logs[q].done|, e);
  }

  lemma QueuedIsPushed(s: State, q: Id, r: Id, e: Id)
    requires Inv(s) && e.Evt? && e.queue == q && Carrying(r, e)
    requires q in s.heap && s.heap[q].body.Fifo? && r in s.heap[q].body.pending
    ensures Pushed(s, e)
  {
    hide Conserved, ThreadsOk, SleepersOk;
    assert NameOk(s, q);
    assert WorkerOk(s, q) && LogOk(s, q);
    var i :| 0 <= i < |Untaken(s, q)| && Untaken(s, q)[i] == r;
    var front := |s.logs[q].done + InFlight(s.workers[q])|;
    assert s.logs[q].pushed[front + i] == r;
    FirstExists(s.logs[q].pushed, front + i, e);
  }

  lemma CompletionHasHelper(s: State, e: Id) returns (t: Tid)
    requires Reachable(s) && Pending(s, e)
    ensures Helper(s, Completion(e), t)
  {
    hide Conserved, NamesOk, WorkersOk, SleepersOk, Reachable, QueueAlive;
    ReachableInv(s);
    NoStrandedWaiter(s, e);
    var q := e.queue;
    var r := PendingIsCarried(s, e);
    t := Worker(q);
    if !Pushed(s, e) {
      if Completing(s, e) {
        var op := OpsSource(Ops(s, Worker(q)), Owe(e));
        assert ThreadOk(s, Worker(q)) && OpOk(s, Worker(q), op);
        InHandIsPushed(s, q, e);
      } else if Running(Ops(s, Worker(q)), r) {
        HeadOk(s, Worker(q));
        InHandIsPushed(s, q, e);
      } else if q in s.heap && s.heap[q].body.Fifo? && r in s.heap[q].body.pending {
        QueuedIsPushed(s, q, r, e);
      } else {
        t :| t.Client? && Ops(s, t) == [Push(r)];
      }
    }
  }

  // The thread can take a step of its own.
  ghost predicate Due(s: State, t: Tid) {
    Guard(s, Exec(t, true)) || (t.Worker? && (Guard(s, Take(t.q)) || Guard(s, Return(t.q))))
  }

  // A request whose event is pending is not done, and the worker has still to take it or has it in hand.
  lemma PushedIsAhead(s: State, e: Id)
    requires Inv(s) && Pending(s, e) && Pushed(s, e)
    ensures var q := e.queue; var j := FirstFor(s.logs[q].pushed, e);
            && |s.logs[q].done| <= j && Live(s, q) && s.heap[q].body.Fifo? && !s.workers[q].pc.Exited?
            && (s.workers[q].pc.Looping? ==> s.heap[q].body.pending != [])
            && (s.workers[q].pc.Busy? && Ops(s, Worker(q)) == [] ==> |s.logs[q].done| < j)
  {
    hide Conserved, NamesOk, ThreadsOk, SleepersOk, QueueAlive;
    var q := e.queue;
    var j := FirstFor(s.logs[q].pushed, e);
    NotYetDone(s, q, j);
    PendingQueueAlive(s, e);
    AliveQueue(s, q);
    assert WorkerOk(s, q) && LogOk(s, q);
    if s.workers[q].pc.Busy? && |s.logs[q].done| == j {
      assert s.logs[q].pushed[j] == (s.logs[q].done + InFlight(s.workers[q]))[j];
    }
  }

  lemma AliveQueue(s: State, q: Id)
    requires NamesOk(s) && QueueAlive(s, q)
    ensures Live(s, q) && s.heap[q].body.Fifo? && !s.workers[q].pc.Exited?
  {
    assert NameOk(s, q);
  }

  // A queue that another thread is destroying.
  lemma DestroyedQueue(s: State, t: Tid, q: Id)
    requires Inv(s) && Open(s, Joining(t, q))
    ensures q in s.workers && q in s.logs && Live(s, q) && s.heap[q].count == 0 && s.heap[q].body.Fifo?
            && s.heap[q].body.exit
    ensures !s.workers[q].pc.Exited? && t.Client?
    ensures s.workers[q].pc.Busy? ==> |s.logs[q].done| < |s.logs[q].pushed|
  {
    hide Conserved, NamesOk, SleepersOk;
    HeadOk(s, t);
    OpKillLive(s, t, Destroy(q, true), q);
    assert WorkerOk(s, q) && LogOk(s, q);
  }

  // The helper is neither asleep nor blocked.
  lemma HelperDue(s: State, g: Goal, t: Tid)
    requires Inv(s) && Open(s, g) && Helper(s, g, t)
    ensures Due(s, t)
  {
    hide Conserved, NamesOk, ThreadsOk, WorkersOk;
    assert t in s.asleep ==> SleeperOk(s, t);
    if t.Worker? {
      if g.Completion? { PushedIsAhead(s, g.e); } else { DestroyedQueue(s, g.t, g.q); }
      if s.workers[t.q].pc.Busy? { var step := BusyWorkerMoves(s, t.q); }
    }
  }

  // ---- no step leads away from a goal, a helper's leads nearer ----

  // Farther from the goal than before is nobody's step.
  ghost predicate NotFarther(s: State, s': State, g: Goal) {
    DistanceTo(s', g) == DistanceTo(s, g) || Less(DistanceTo(s', g), DistanceTo(s, g))
  }

  lemma PushPushes(s: State, t: Tid, ok: bool, e: Id)
    requires Inv(s) && Guard(s, Exec(t, ok)) && Faultless(s, Exec(t, ok)) && e.Evt? && t.Client?
    requires Ops(s, t)[0].Push? && Carrying(Ops(s, t)[0].r, e) && WellNamed(Ops(s, t)[0].r) && e.queue in s.workers
    ensures Pushed(Apply(s, Exec(t, ok)), e)
  {
    hide Inv;
    var q := e.queue;
    FirstExists(s.logs[q].pushed + [Ops(s, t)[0].r], |s.logs[q].pushed|, e);
  }

  lemma UnpushedNearer(s: State, step: Step, e: Id, t: Tid)
    requires Inv(s) && Guard(s, step) && Faultless(s, step) && Pending(s, e) && !Pushed(s, e)
    requires Helper(s, Completion(e), t) && By(step, t)
    ensures Pushed(Apply(s, step), e)
  {
    hide Conserved, NamesOk, WorkersOk, SleepersOk, Apply, Faultless;
    HeadOk(s, t);
    PendingQueueAlive(s, e);
    PushPushes(s, t, step.ok, e);
  }

  lemma CompletionNearer(s: State, step: Step, e: Id, t: Tid)
    requires Inv(s) && Guard(s, step) && Faultless(s, step) && Pending(s, e) && Helper(s, Completion(e), t)
    ensures var s' := Apply(s, step); var g := Completion(e);
            && NotFarther(s, s', g) && (By(step, t) ==> Less(DistanceTo(s', g), DistanceTo(s, g)))
            && (Pushed(s, e) ==> Pushed(s', e))
  {
    hide Inv, Apply, Faultless, Toward, Pending;
    var s' := Apply(s, step);
    if Pushed(s, e) {
      var q := e.queue;
      var j := FirstFor(s.logs[q].pushed, e);
      if By(step, Worker(q)) {
        PushedIsAhead(s, e);
        WorkerNearer(s, step, q, j);
      } else {
        OthersLeave(s, step, q);
        FirstStable(s.logs[q].pushed, s'.logs[q].pushed, e);
        TowardSame(s, s', q, j);
      }
    } else {
      if By(step, t) { UnpushedNearer(s, step, e, t); }
      PushedCounts(s', e);
    }
  }

  lemma PushedCounts(s: State, e: Id)
    ensures DistanceTo(s, Completion(e)).unpushed == if Pushed(s, e) then 0 else 1
  {
  }

  lemma TowardSame(s: State, s': State, q: Id, j: nat)
    requires q in s.workers && q in s.logs && q in s'.workers && q in s'.logs
    requires s'.workers[q] == s.workers[q] && s'.logs[q].done == s.logs[q].done
             && Ops(s', Worker(q)) == Ops(s, Worker(q))
    ensures Toward(s', q, j) == Toward(s, q, j)
  {
  }

  lemma JoiningNearer(s: State, step: Step, t: Tid, q: Id)
    requires Inv(s) && Guard(s, step) && Faultless(s, step) && Open(s, Joining(t, q))
    ensures var s' := Apply(s, step); var g := Joining(t, q);
            NotFarther(s, s', g) && (By(step, Worker(q)) ==> Less(DistanceTo(s', g), DistanceTo(s, g)))
  {
    hide Inv, Apply, Faultless, Toward;
    DestroyedQueue(s, t, q);
    if By(step, Worker(q)) {
      WorkerNearer(s, step, q, |s.logs[q].pushed|);
    } else {
      OthersLeave(s, step, q);
      if step.Exec? && Ops(s, step.t)[0].Push? { PushTarget(s, step.t); }
      TowardSame(s, Apply(s, step), q, |s.logs[q].pushed|);
    }
  }

  // A client pushes only to a queue it holds.
  lemma PushTarget(s: State, t: Tid)
    requires Inv(s) && Ops(s, t) != [] && Ops(s, t)[0].Push?
    ensures Ops(s, t)[0].r.Req? && var q := Ops(s, t)[0].r.target; q in s.heap && s.heap[q].count > 0
  {
    hide Conserved, NamesOk, WorkersOk, SleepersOk;
    HeadOk(s, t);
    OpRefLive(s, t, Ops(s, t)[0], Ops(s, t)[0].r.target);
  }

  // No step of any thread leads away from an open goal, and every step of its helper leads nearer.
  lemma Nearer(s: State, step: Step, g: Goal, t: Tid)
    requires Reachable(s) && Guard(s, step) && Faultless(s, step) && Open(s, g) && Helper(s, g, t)
    ensures NotFarther(s, Apply(s, step), g)
    ensures By(step, t) ==> Less(DistanceTo(Apply(s, step), g), DistanceTo(s, g))
  {
    hide Inv, Reachable, Apply, Guard, Faultless, NotFarther, DistanceTo;
    ReachableInv(s);
    match g {
      case Completion(e) => CompletionNearer(s, step, e, t);
      case Joining(u, q) => JoiningNearer(s, step, u, q);
    }
  }

  // Somebody can bring an open goal nearer now: no lost wakeup, no deadlock.
  lemma SomebodyHelps(s: State, g: Goal) returns (t: Tid)
    requires Reachable(s) && Open(s, g)
    ensures Helper(s, g, t) && Due(s, t)
  {
    hide Inv, Reachable, Due;
    ReachableInv(s);
    match g {
      case Completion(e) => t := CompletionHasHelper(s, e);
      case Joining(_, q) => t := Worker(q);
    }
    HelperDue(s, g, t);
  }

  // The helper stays the helper until it has moved.
  lemma HelperStays(s: State, step: Step, g: Goal, t: Tid)
    requires Reachable(s) && Guard(s, step) && Faultless(s, step) && Open(s, g) && Helper(s, g, t)
    requires !By(step, t) && DistanceTo(Apply(s, step), g) == DistanceTo(s, g)
    ensures Helper(Apply(s, step), g, t)
  {
    hide Inv, Reachable, Apply, Guard, Faultless, Less, Toward, By;
    ReachableInv(s);
    OpsUntouched(s, step, t);
    if g.Completion? {
      CompletionNearer(s, step, g.e, t);
      PushedCounts(s, g.e);
      PushedCounts(Apply(s, step), g.e);
    }
  }

  // ---- fair runs ----

  ghost predicate Goes(s: State, step: Step, s': State) {
    Guard(s, step) && Faultless(s, step) && s' == Apply(s, step)
  }

  ghost predicate GoesAt(run: nat -> State, steps: nat -> Step, i: nat) {
    Goes(run(i), steps(i), run(i + 1))
  }

  ghost predicate Endless(run: nat -> State, steps: nat -> Step) {
    Reachable(run(0)) && forall i: nat :: GoesAt(run, steps, i)
  }

  // A thread that from i on could always take a step of its own takes one.
  ghost predicate Served(run: nat -> State, steps: nat -> Step, t: Tid, i: nat) {
    (forall j: nat :: i <= j ==> Due(run(j), t)) ==> exists j: nat :: i <= j && By(steps(j), t)
  }

  ghost predicate Fair(run: nat -> State, steps: nat -> Step) {
    forall t: Tid, i: nat :: Served(run, steps, t, i)
  }

  lemma {:induction false} EndlessReachable(run: nat -> State, steps: nat -> Step, i: nat)
    requires Endless(run, steps)
    ensures Reachable(run(i)) && Goes(run(i), steps(i), run(i + 1))
  {
    hide Reachable, Guard, Faultless, Apply;
    assert GoesAt(run, steps, i);
    if i > 0 {
      EndlessReachable(run, steps, i - 1);
      assert GoesAt(run, steps, i - 1);
      HostLedger.Onward(run(i - 1), steps(i - 1));
    }
  }

  ghost predicate OpenFrom(run: nat -> State, g: Goal, i: nat) {
    forall j: nat :: i <= j ==> Open(run(j), g)
  }

  // While a goal is open the distance never grows.
  lemma {:induction false} NeverFarther(run: nat -> State, steps: nat -> Step, g: Goal, i: nat, j: nat)
    requires Endless(run, steps) && OpenFrom(run, g, i) && i <= j
    ensures NotFarther(run(i), run(j), g)
  {
    hide Reachable, Guard, Faultless, Apply, DistanceTo, Less, Open, Due, Helper, Endless;
    if i < j {
      NeverFarther(run, steps, g, i, j - 1);
      EndlessReachable(run, steps, j - 1);
      var t := SomebodyHelps(run(j - 1), g);
      Nearer(run(j - 1), steps(j - 1), g, t);
      NotFartherChain(run(i), run(j - 1), run(j), g);
    }
  }

  lemma NotFartherChain(a: State, b: State, c: State, g: Goal)
    requires NotFarther(a, b, g) && NotFarther(b, c, g)
    ensures NotFarther(a, c, g)
  {
  }

  // So from some moment on it stays the same: helpers cannot move for ever while the goal is open.
  lemma {:induction false} Settles(run: nat -> State, steps: nat -> Step, g: Goal, i: nat) returns (n: nat)
    requires Endless(run, steps) && OpenFrom(run, g, i)
    ensures i <= n && forall j: nat :: n <= j ==> DistanceTo(run(j), g) == DistanceTo(run(n), g)
    decreases DistanceTo(run(i), g).unpushed, DistanceTo(run(i), g).ahead, DistanceTo(run(i), g).stage,
              DistanceTo(run(i), g).runs, DistanceTo(run(i), g).groups, DistanceTo(run(i), g).work
  {
    hide Endless, DistanceTo, Open;
    if j: nat :| i <= j && DistanceTo(run(j), g) != DistanceTo(run(i), g) {
      NeverFarther(run, steps, g, i, j);
      n := Settles(run, steps, g, j);
    } else {
      n := i;
    }
  }

  lemma {:induction false} HelpsOn(run: nat -> State, steps: nat -> Step, g: Goal, t: Tid, n: nat, j: nat)
    requires Endless(run, steps) && OpenFrom(run, g, n) && Helper(run(n), g, t) && n <= j
    requires forall k: nat :: n <= k ==> DistanceTo(run(k), g) == DistanceTo(run(n), g)
    ensures Helper(run(j), g, t) && Due(run(j), t) && !By(steps(j), t)
  {
    hide Reachable, Guard, Faultless, Apply, DistanceTo, Open, Due, Helper, Endless;
    EndlessReachable(run, steps, j);
    if n < j {
      HelpsOn(run, steps, g, t, n, j - 1);
      EndlessReachable(run, steps, j - 1);
      HelperStays(run(j - 1), steps(j - 1), g, t);
    }
    ReachableInv(run(j)) by { hide Inv; }
    HelperDue(run(j), g, t) by { hide Inv; }
    Nearer(run(j), steps(j), g, t);
    assert DistanceTo(run(j + 1), g) == DistanceTo(run(j), g);
  }

  // If a goal stayed open, some thread would wait for ever to take the step it could take at any time.
  lemma StaysUnserved(run: nat -> State, steps: nat -> Step, g: Goal, i: nat) returns (t: Tid, n: nat)
    requires Endless(run, steps) && OpenFrom(run, g, i)
    ensures !Served(run, steps, t, n)
  {
    hide Endless, DistanceTo, Open, Due, Helper, By, Reachable;
    n := Settles(run, steps, g, i);
    EndlessReachable(run, steps, n);
    t := SomebodyHelps(run(n), g);
    forall k: nat | n <= k ensures Due(run(k), t) && !By(steps(k), t) { HelpsOn(run, steps, g, t, n, k); }
  }

  // In a fair run no goal stays open.
  lemma GoalReached(run: nat -> State, steps: nat -> Step, g: Goal, i: nat) returns (j: nat)
    requires Endless(run, steps) && Fair(run, steps)
    ensures i <= j && !Open(run(j), g)
  {
    hide Endless, Open, Served;
    if k: nat :| i <= k && !Open(run(k), g) {
      j := k;
    } else {
      var t, n := StaysUnserved(run, steps, g, i);
      assert false;
    }
  }

  // ---- what clients wait for ----

  // Every request with an event is completed, whatever else goes on.
  lemma EventCompletes(run: nat -> State, steps: nat -> Step, e: Id, i: nat) returns (j: nat)
    requires Endless(run, steps) && Fair(run, steps) && Pending(run(i), e)
    ensures i <= j && !Pending(run(j), e)
  {
    hide Endless, Fair;
    j := GoalReached(run, steps, Completion(e), i);
  }

  lemma ExitedStays(s: State, step: Step, q: Id)
    requires Reachable(s) && Guard(s, step) && Faultless(s, step) && q in s.workers && s.workers[q].pc.Exited?
    ensures q in Apply(s, step).workers && Apply(s, step).workers[q].pc.Exited?
  {
    hide Inv, Reachable, Apply, Faultless;
    ReachableInv(s);
    if By(step, Worker(q)) { ExitedWorkerRests(s, q); }
    OthersLeave(s, step, q);
  }

  lemma ExitedWorkerRests(s: State, q: Id)
    requires Inv(s) && q in s.workers && s.workers[q].pc.Exited?
    ensures Ops(s, Worker(q)) == []
  {
    hide Conserved, NamesOk, WorkersOk, SleepersOk;
    assert Worker(q) in s.threads ==> ThreadOk(s, Worker(q));
  }

  // The thread stands before op and nothing keeps it from going on.
  ghost predicate Ready(s: State, t: Tid, op: Op) {
    && Ops(s, t) != [] && Ops(s, t)[0] == op
    && match op
       case Destroy(q, joining) => q in s.workers && s.workers[q].pc.Exited?
       case Wait(e) => e.Evt? && e in s.heap && !Pending(s, e)
       case _ => false
  }

  lemma ReadyIsDue(s: State, t: Tid, op: Op)
    requires Reachable(s) && Ready(s, t, op)
    ensures Due(s, t) && t.Client?
    ensures Faultless(s, Exec(t, true))
  {
    hide Conserved, NamesOk, WorkersOk, Reachable;
    ReachableInv(s);
    HeadOk(s, t);
    if op.Destroy? { ExitedWorkerRests(s, op.q); }
    assert t in s.asleep ==> SleeperOk(s, t);
    NoMemoryFault(s, Exec(t, true));
  }

  lemma ReadyStays(s: State, step: Step, t: Tid, op: Op)
    requires Reachable(s) && Guard(s, step) && Faultless(s, step) && Ready(s, t, op) && !By(step, t)
    ensures Ready(Apply(s, step), t, op)
  {
    hide Inv, Reachable, Apply, Faultless, By;
    OpsUntouched(s, step, t);
    if op.Destroy? {
      ExitedStays(s, step, op.q);
    } else {
      WaitedStays(s, step, t, op.e);
    }
  }

  // An event somebody waits for stays in memory, and completed once it is.
  lemma WaitedStays(s: State, step: Step, t: Tid, e: Id)
    requires Reachable(s) && Guard(s, step) && Faultless(s, step) && Ready(s, t, Wait(e))
    ensures e in Apply(s, step).heap && !Pending(Apply(s, step), e)
  {
    hide Inv, Reachable, Apply, Guard, Faultless;
    ReachableInv(s);
    OpRefLive(s, t, Wait(e), e);
    if e !in Apply(s, step).heap { FreedAtZero(s, step, e); }
    StatusIsFinal(s, step, e);
  }

  // The first step thread t takes from i on.
  lemma {:induction false} FirstBy(steps: nat -> Step, t: Tid, i: nat, j: nat) returns (m: nat)
    requires i <= j && By(steps(j), t)
    ensures i <= m && By(steps(m), t) && forall k: nat :: i <= k < m ==> !By(steps(k), t)
    decreases j - i
  {
    hide By;
    if By(steps(i), t) {
      m := i;
    } else {
      m := FirstBy(steps, t, i + 1, j);
    }
  }

  lemma {:induction false} ReadyUntil(run: nat -> State, steps: nat -> Step, t: Tid, op: Op, i: nat, j: nat)
    requires Endless(run, steps) && Ready(run(i), t, op) && i <= j && forall k: nat :: i <= k < j ==> !By(steps(k), t)
    ensures Ready(run(j), t, op) && Reachable(run(j))
  {
    hide Reachable, Guard, Faultless, Apply, Ready, By, Endless;
    EndlessReachable(run, steps, j);
    if i < j {
      ReadyUntil(run, steps, t, op, i, j - 1);
      EndlessReachable(run, steps, j - 1);
      ReadyStays(run(j - 1), steps(j - 1), t, op);
    }
  }

  // A thread with nothing in its way goes on.
  lemma ReadyMoves(run: nat -> State, steps: nat -> Step, t: Tid, op: Op, i: nat) returns (j: nat)
    requires Endless(run, steps) && Fair(run, steps) && Ready(run(i), t, op)
    ensures i <= j && By(steps(j), t) && Ready(run(j), t, op) && Reachable(run(j))
    ensures forall k: nat :: i <= k < j ==> !By(steps(k), t)
  {
    hide Reachable, Ready, By, Endless, Due;
    assert Served(run, steps, t, i);
    if !(exists k: nat :: i <= k && By(steps(k), t)) {
      forall k: nat | i <= k ensures Due(run(k), t) {
        ReadyUntil(run, steps, t, op, i, k);
        ReadyIsDue(run(k), t, op);
      }
    }
    var k: nat :| i <= k && By(steps(k), t);
    j := FirstBy(steps, t, i, k);
    ReadyUntil(run, steps, t, op, i, j);
  }

  lemma {:induction false} OpsUntil(run: nat -> State, steps: nat -> Step, t: Tid, i: nat, j: nat)
    requires Endless(run, steps) && i <= j && forall k: nat :: i <= k < j ==> !By(steps(k), t)
    ensures Ops(run(j), t) == Ops(run(i), t)
  {
    hide Reachable, Guard, Faultless, Apply, By, Endless, Ops;
    if i < j {
      OpsUntil(run, steps, t, i, j - 1);
      EndlessReachable(run, steps, j - 1);
      OpsUntouched(run(j - 1), steps(j - 1), t);
    }
  }

  lemma NotJoining(s: State, t: Tid, q: Id)
    requires !Open(s, Joining(t, q)) && t != Worker(q) && Ops(s, t) != [] && Ops(s, t)[0] == Destroy(q, true)
    ensures Ready(s, t, Destroy(q, true))
  {
  }

  lemma DestroyerIsClient(s: State, t: Tid, q: Id)
    requires Reachable(s) && t != Worker(q) && Ops(s, t) != [] && Ops(s, t)[0] == Destroy(q, true)
    ensures t.Client?
  {
    hide Conserved, NamesOk, WorkersOk, SleepersOk, Reachable;
    ReachableInv(s);
    HeadOk(s, t);
  }

  // A thread that destroys a queue gets past pthread_join: the worker finishes what is queued and exits.
  lemma DestroyReturns(run: nat -> State, steps: nat -> Step, t: Tid, q: Id, i: nat) returns (j: nat)
    requires Endless(run, steps) && Fair(run, steps) && t != Worker(q)
    requires Ops(run(i), t) != [] && Ops(run(i), t)[0] == Destroy(q, true)
    ensures i <= j && steps(j).Exec? && steps(j).t == t && Ops(run(j), t) == Ops(run(i), t)
  {
    hide Reachable, Endless, Fair, Open, Ready, Faultless, Apply;
    if k: nat :| i <= k && By(steps(k), t) {
      j := k;
    } else {
      var k := GoalReached(run, steps, Joining(t, q), i);
      OpsUntil(run, steps, t, i, k);
      NotJoining(run(k), t, q);
      j := ReadyMoves(run, steps, t, Destroy(q, true), k);
    }
    j := FirstBy(steps, t, i, j);
    OpsUntil(run, steps, t, i, j);
    EndlessReachable(run, steps, j);
    DestroyerIsClient(run(j), t, q);
  }

  // A waiter whose event is pending goes on waiting.
  lemma WaiterStays(s: State, step: Step, t: Tid, e: Id)
    requires Guard(s, step) && Faultless(s, step) && Pending(s, e) && Ops(s, t) != [] && Ops(s, t)[0] == Wait(e)
    ensures Ops(Apply(s, step), t) == Ops(s, t) || step.Take? || step.Return?
  {
    hide ApplyCall;
    if !By(step, t) { OpsUntouched(s, step, t); }
  }

  lemma {:induction false} WaitsUntil(run: nat -> State, steps: nat -> Step, t: Tid, e: Id, i: nat, j: nat) returns (m: nat)
    requires Endless(run, steps) && t.Client? && Ops(run(i), t) != [] && Ops(run(i), t)[0] == Wait(e)
    requires i <= j && !Pending(run(j), e)
    ensures i <= m && !Pending(run(m), e) && Ops(run(m), t) == Ops(run(i), t)
    decreases j - i
  {
    hide Reachable, Guard, Faultless, Apply, Endless, Pending;
    if Pending(run(i), e) {
      EndlessReachable(run, steps, i);
      WaiterStays(run(i), steps(i), t, e);
      if !By(steps(i), t) { OpsUntouched(run(i), steps(i), t); }
      m := WaitsUntil(run, steps, t, e, i + 1, j);
    } else {
      m := i;
    }
  }

  lemma WaitsForEvent(s: State, t: Tid, e: Id)
    requires Reachable(s) && Ops(s, t) != [] && Ops(s, t)[0] == Wait(e)
    ensures t.Client? && (!Pending(s, e) ==> Ready(s, t, Wait(e)))
  {
    hide Conserved, NamesOk, WorkersOk, SleepersOk, Reachable;
    ReachableInv(s);
    HeadOk(s, t);
    OpRefLive(s, t, Wait(e), e);
  }

  // Every xrp_wait returns: at step j the waiter finds its event completed.
  lemma WaitReturns(run: nat -> State, steps: nat -> Step, t: Tid, e: Id, i: nat) returns (j: nat)
    requires Endless(run, steps) && Fair(run, steps) && Ops(run(i), t) != [] && Ops(run(i), t)[0] == Wait(e)
    ensures i <= j && steps(j).Exec? && steps(j).t == t && Ops(run(j), t) != [] && Ops(run(j), t)[0] == Wait(e)
    ensures !Pending(run(j), e) && Ops(run(j + 1), t) == Ops(run(j), t)[1..]
  {
    hide Reachable, Endless, Fair, Pending, Faultless, Apply;
    EndlessReachable(run, steps, i);
    WaitsForEvent(run(i), t, e);
    var k := i;
    if Pending(run(i), e) { k := EventCompletes(run, steps, e, i); }
    var m := WaitsUntil(run, steps, t, e, i, k);
    EndlessReachable(run, steps, m);
    WaitsForEvent(run(m), t, e);
    j := ReadyMoves(run, steps, t, Wait(e), m);
    EndlessReachable(run, steps, j);
    WaitEnds(run(j), steps(j), t, e);
  }

  lemma WaitEnds(s: State, step: Step, t: Tid, e: Id)
    requires Guard(s, step) && Faultless(s, step) && By(step, t) && Ready(s, t, Wait(e)) && t.Client?
    ensures step.Exec? && Ops(Apply(s, step), t) == Ops(s, t)[1..]
  {
    hide ApplyCall;
  }
}
