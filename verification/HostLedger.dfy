// What clients hold of the XRP host library changes only by what their calls return and give up.
module HostLedger {
  import opened Bags
  import opened HostObjects
  import opened HostSteps
  import opened HostInvariant
  import opened HostConservation
  import opened HostTheorems

  // References a client regains when its current call is over.
  ghost function ParkedIn(op: Op, id: Id): nat {
    match op
    case Push(r) =>
      if r.Req? then (if r.target == id then 1 else 0) + (if r.event == Some(id) then 1 else 0) else 0
    case Wait(e) => if e == id then 1 else 0
    case SetSlot(g, _, _) => if g == id then 1 else 0
    case _ => 0
  }

  ghost function Parked(ops: seq<Op>, id: Id): nat {
    if ops == [] then 0 else ParkedIn(ops[0], id) + Parked(ops[1..], id)
  }

  // How often clients hold id: as handles, or parked in calls under way.
  ghost function Holdings(s: State, id: Id): nat {
    s.handles[id] + Sum(s.threads, (t: Tid, ops) => Parked(ops, id))
  }

  // What a step returns to a client, and what a client gives up with it.
  ghost function Gain(s: State, step: Step): Option<Id>
    requires Guard(s, step) && Faultless(s, step)
  {
    match step
    case Begin(_, OpenDevice) => Some(Dev(s.next))
    case Begin(_, NewHostBuffer(size)) => Some(Buf(s.next, None, size))
    case Begin(_, NewGroup) => Some(Grp(s.next))
    case Begin(_, Retain(id)) => Some(id)
    case Begin(_, GetSlot(g, i)) =>
      if i < |s.heap[g].body.slots| then Some(s.heap[g].body.slots[i]) else None
    case Begin(_, Enqueue(q, _, wantEvent, ok)) => if ok && wantEvent then Some(Evt(s.next, q)) else None
    case Exec(t, ok) =>
      (match Ops(s, t)[0]
       case FinishBuffer(d, size) => if ok then Some(Buf(s.next, Some(d), size)) else None
       case FinishQueue(d) => if ok then Some(Que(s.next, d)) else None
       case _ => None)
    case _ => None
  }

  ghost function Loss(step: Step): Option<Id> {
    match step
    case Begin(_, Drop(id)) => Some(id)
    case _ => None
  }

  ghost function Count(o: Option<Id>, id: Id): nat {
    if o == Some(id) then 1 else 0
  }

  lemma ParkedPut(s: State, t: Tid, ops: seq<Op>, id: Id)
    ensures Sum(s.threads[t := ops], (t: Tid, ops) => Parked(ops, id)) + Parked(Ops(s, t), id)
            == Sum(s.threads, (t: Tid, ops) => Parked(ops, id)) + Parked(ops, id)
  {
    SumPut(s.threads, (t: Tid, ops) => Parked(ops, id), t, ops);
  }

  lemma ParkedOne(op: Op, id: Id)
    ensures Parked([op], id) == ParkedIn(op, id)
  {
    assert [op][1..] == [];
  }

  lemma ParkedCons(op: Op, rest: seq<Op>, id: Id)
    ensures Parked([op] + rest, id) == ParkedIn(op, id) + Parked(rest, id)
  {
    assert ([op] + rest)[1..] == rest;
  }

  lemma {:induction false} ParkedConcat(a: seq<Op>, b: seq<Op>, id: Id)
    ensures Parked(a + b, id) == Parked(a, id) + Parked(b, id)
  {
    if a == [] {
      assert a + b == b;
    } else {
      ParkedConcat(a[1..], b, id);
      assert (a + b)[1..] == a[1..] + b;
    }
  }

  // Work none of which parks anything, such as what follows a last release or a command.
  lemma {:induction false} NoneParked(ops: seq<Op>, id: Id)
    requires forall op <- ops :: ParkedIn(op, id) == 0
    ensures Parked(ops, id) == 0
  {
    if ops != [] { NoneParked(ops[1..], id); }
  }

  lemma PrepareShape(s: State, t: Tid, q: Id, g: Option<Id>, wantEvent: bool)
    requires q in s.heap && (g.Some? ==> g.value in s.heap)
    ensures var e := if wantEvent then Some(Evt(s.next, q)) else None;
            && Prepare(s, t, q, g, wantEvent).threads == s.threads[t := [Push(Req(s.next + 1, q, e, g))]]
            && Prepare(s, t, q, g, wantEvent).handles == s.handles - multiset{q}
  {
  }

  // The work a call leaves its thread with, if it does not end at once.
  ghost function CallOps(s: State, call: Call): Option<seq<Op>> {
    match call
    case Drop(id) => Some([Release(id)])
    case UnmapBuffer(b, delta) => if b.Buf? && 0 <= delta <= b.size then Some([Release(b)]) else None
    case NewDeviceBuffer(d, size) => Some([FinishBuffer(d, size)])
    case NewQueue(d) => Some([FinishQueue(d)])
    case SetInGroup(g, i, b) => Some([SetSlot(g, i, b)])
    case Enqueue(q, g, wantEvent, ok) =>
      if ok then Some([Push(Req(s.next + 1, q, if wantEvent then Some(Evt(s.next, q)) else None, g))]) else None
    case AwaitEvent(e) => Some([Wait(e)])
    case _ => None
  }

  // A call's effect on threads and handles, for one object.
  ghost predicate CallMatches(s: State, t: Tid, call: Call, id: Id)
    requires Guard(s, Begin(t, call)) && Faultless(s, Begin(t, call))
  {
    var s' := ApplyCall(s, t, call);
    var ops := CallOps(s, call);
    && s'.threads == (if ops.Some? then s.threads[t := ops.value] else s.threads)
    && s'.handles[id] + Count(Loss(Begin(t, call)), id) + (if ops.Some? then Parked(ops.value, id) else 0)
       == s.handles[id] + Count(Gain(s, Begin(t, call)), id)
  }

  lemma CreationMatches(s: State, t: Tid, call: Call, id: Id)
    requires Guard(s, Begin(t, call)) && Faultless(s, Begin(t, call))
    requires call.OpenDevice? || call.NewHostBuffer? || call.NewGroup?
    ensures CallMatches(s, t, call, id)
  {
    hide Live;
  }

  lemma RetainMatches(s: State, t: Tid, call: Call, id: Id)
    requires Guard(s, Begin(t, call)) && Faultless(s, Begin(t, call))
    requires call.Retain? || call.GetSlot?
    ensures CallMatches(s, t, call, id)
  {
    hide Live;
  }

  lemma KeepMatches(s: State, t: Tid, call: Call, id: Id)
    requires Guard(s, Begin(t, call)) && Faultless(s, Begin(t, call))
    requires call.MapBuffer? || call.AddSlot?
    ensures CallMatches(s, t, call, id)
  {
    hide Live;
  }

  lemma DropMatches(s: State, t: Tid, call: Call, id: Id)
    requires Guard(s, Begin(t, call)) && Faultless(s, Begin(t, call))
    requires call.Drop? || call.UnmapBuffer?
    ensures CallMatches(s, t, call, id)
  {
    hide Live;
    if CallOps(s, call).Some? { ParkedOne(CallOps(s, call).value[0], id); }
  }

  lemma NewMatches(s: State, t: Tid, call: Call, id: Id)
    requires Guard(s, Begin(t, call)) && Faultless(s, Begin(t, call))
    requires call.NewDeviceBuffer? || call.NewQueue?
    ensures CallMatches(s, t, call, id)
  {
    hide Live;
    if CallOps(s, call).Some? { ParkedOne(CallOps(s, call).value[0], id); }
  }

  lemma SlotMatches(s: State, t: Tid, call: Call, id: Id)
    requires Guard(s, Begin(t, call)) && Faultless(s, Begin(t, call))
    requires call.SetInGroup?
    ensures CallMatches(s, t, call, id)
  {
    hide Live;
    if CallOps(s, call).Some? { ParkedOne(CallOps(s, call).value[0], id); }
  }

  lemma AwaitMatches(s: State, t: Tid, call: Call, id: Id)
    requires Guard(s, Begin(t, call)) && Faultless(s, Begin(t, call))
    requires call.AwaitEvent?
    ensures CallMatches(s, t, call, id)
  {
    hide Live;
    if CallOps(s, call).Some? { ParkedOne(CallOps(s, call).value[0], id); }
  }

  // xrp_enqueue_command moves the client's queue handle into the push and creates the handle of the event.
  lemma PrepareMatches(s: State, t: Tid, q: Id, g: Option<Id>, wantEvent: bool, id: Id)
    requires q in s.heap && (g.Some? ==> g.value in s.heap) && q in s.handles
    ensures var e := if wantEvent then Some(Evt(s.next, q)) else None;
            Prepare(s, t, q, g, wantEvent).handles[id] + Parked([Push(Req(s.next + 1, q, e, g))], id)
            == s.handles[id] + Count(e, id)
  {
    hide Prepare, Parked;
    PrepareShape(s, t, q, g, wantEvent);
    ParkedOne(Push(Req(s.next + 1, q, if wantEvent then Some(Evt(s.next, q)) else None, g)), id);
    MinusOne(s.handles, q, id);
  }

  lemma EnqueueIsPrepare(s: State, t: Tid, call: Call)
    requires MayCall(s, call) && CallFaultless(s, call) && call.Enqueue?
    ensures call.q in s.heap && (call.group.Some? ==> call.group.value in s.heap) && call.q in s.handles
    ensures ApplyCall(s, t, call) == if call.ok then Prepare(s, t, call.q, call.group, call.wantEvent) else s
  {
  }

  lemma PrepareLedger(s: State, t: Tid, q: Id, g: Option<Id>, wantEvent: bool, id: Id)
    requires q in s.heap && (g.Some? ==> g.value in s.heap) && q in s.handles && Ops(s, t) == []
    ensures Holdings(Prepare(s, t, q, g, wantEvent), id)
            == Holdings(s, id) + Count(if wantEvent then Some(Evt(s.next, q)) else None, id)
  {
    hide Prepare, Parked, Sum;
    var e := if wantEvent then Some(Evt(s.next, q)) else None;
    PrepareShape(s, t, q, g, wantEvent);
    PrepareMatches(s, t, q, g, wantEvent, id);
    ParkedPut(s, t, [Push(Req(s.next + 1, q, e, g))], id);
    NoneParked([], id);
  }

  lemma EnqueueLedger(s: State, t: Tid, call: Call, id: Id)
    requires Guard(s, Begin(t, call)) && Faultless(s, Begin(t, call)) && call.Enqueue?
    ensures Holdings(ApplyCall(s, t, call), id) + Count(Loss(Begin(t, call)), id)
            == Holdings(s, id) + Count(Gain(s, Begin(t, call)), id)
  {
    hide Prepare, Parked, Sum, Holdings, Live;
    EnqueueIsPrepare(s, t, call);
    if call.ok { PrepareLedger(s, t, call.q, call.group, call.wantEvent, id); }
  }

  lemma MinusOne(handles: multiset<Id>, q: Id, id: Id)
    requires q in handles
    ensures (handles - multiset{q})[id] + (if q == id then 1 else 0) == handles[id]
  {
  }

  lemma CallLedger(s: State, t: Tid, call: Call, id: Id)
    requires Guard(s, Begin(t, call)) && Faultless(s, Begin(t, call))
    ensures Holdings(ApplyCall(s, t, call), id) + Count(Loss(Begin(t, call)), id)
            == Holdings(s, id) + Count(Gain(s, Begin(t, call)), id)
  {
    hide Sum, ApplyCall, CallOps, Gain, CallFaultless, MayCall, Loss;
    if call.Enqueue? {
      EnqueueLedger(s, t, call, id);
    } else {
      OtherCallMatches(s, t, call, id);
      if CallOps(s, call).Some? { ParkedPut(s, t, CallOps(s, call).value, id); }
    }
  }

  lemma OtherCallMatches(s: State, t: Tid, call: Call, id: Id)
    requires Guard(s, Begin(t, call)) && Faultless(s, Begin(t, call)) && !call.Enqueue?
    ensures CallMatches(s, t, call, id)
  {
    hide CallMatches, CallFaultless, MayCall;
    if call.OpenDevice? || call.NewHostBuffer? || call.NewGroup? { CreationMatches(s, t, call, id); }
    else if call.Retain? || call.GetSlot? { RetainMatches(s, t, call, id); }
    else if call.MapBuffer? || call.AddSlot? { KeepMatches(s, t, call, id); }
    else if call.Drop? || call.UnmapBuffer? { DropMatches(s, t, call, id); }
    else if call.NewDeviceBuffer? || call.NewQueue? { NewMatches(s, t, call, id); }
    else if call.SetInGroup? { SlotMatches(s, t, call, id); }
    else { AwaitMatches(s, t, call, id); }
  }

  // ---- operations ----

  // The work an operation leaves in its place.
  ghost function OpOps(s: State, t: Tid, op: Op, ok: bool): seq<Op>
    requires OpFaultless(s, t, op)
  {
    match op
    case Release(id) => if s.heap[id].count == 1 then DeathOps(id, s.heap[id].body) else []
    case Free(_) => []
    case Destroy(q, joining) => if joining then [Release(q.dev), Free(q)] else [Destroy(q, true)]
    case Run(r, read) =>
      if read.None? then [Run(r, Some(Records(s, r)))] else AfterRun(r, if ok then SUCCESS else FAILURE)
    case Complete(e, _) => [Release(e)]
    case Push(_) => []
    case Wait(e) => if s.heap[e].body.status == PENDING then [op] else []
    case SetSlot(g, i, b) => if i < |s.heap[g].body.slots| then [Release(s.heap[g].body.slots[i])] else [Release(b)]
    case FinishBuffer(d, _) => if ok then [] else [Release(d)]
    case FinishQueue(d) => if ok then [] else [Release(d)]
  }

  ghost predicate OpShaped(s: State, t: Tid, ok: bool)
    requires Guard(s, Exec(t, ok)) && Faultless(s, Exec(t, ok))
  {
    var op, rest := Ops(s, t)[0], Ops(s, t)[1..];
    ApplyOp(s, t, op, rest, ok).threads == s.threads[t := OpOps(s, t, op, ok) + rest]
  }

  lemma NothingMore(rest: seq<Op>)
    ensures [] + rest == rest
  {
  }

  lemma ReleaseShaped(s: State, t: Tid, ok: bool)
    requires Guard(s, Exec(t, ok)) && Faultless(s, Exec(t, ok)) && Ops(s, t)[0].Release?
    ensures OpShaped(s, t, ok)
  {
    hide BodyFits, DeathOps, AfterRun;
    NothingMore(Ops(s, t)[1..]);
  }

  lemma WorkShaped(s: State, t: Tid, ok: bool)
    requires Guard(s, Exec(t, ok)) && Faultless(s, Exec(t, ok))
             && (Ops(s, t)[0].Run? || Ops(s, t)[0].Destroy? || Ops(s, t)[0].Complete?)
    ensures OpShaped(s, t, ok)
  {
    hide BodyFits, DeathOps, AfterRun;
  }

  lemma DoneShaped(s: State, t: Tid, ok: bool)
    requires Guard(s, Exec(t, ok)) && Faultless(s, Exec(t, ok)) && (Ops(s, t)[0].Free? || Ops(s, t)[0].Push?)
    ensures OpShaped(s, t, ok)
  {
    hide BodyFits, DeathOps, AfterRun;
    NothingMore(Ops(s, t)[1..]);
  }

  lemma WaitShaped(s: State, t: Tid, ok: bool)
    requires Guard(s, Exec(t, ok)) && Faultless(s, Exec(t, ok)) && Ops(s, t)[0].Wait?
    ensures OpShaped(s, t, ok)
  {
    hide BodyFits, DeathOps, AfterRun;
    NothingMore(Ops(s, t)[1..]);
    assert [Ops(s, t)[0]] + Ops(s, t)[1..] == Ops(s, t);
    assert s.threads[t := Ops(s, t)] == s.threads;
  }

  lemma SetShaped(s: State, t: Tid, ok: bool)
    requires Guard(s, Exec(t, ok)) && Faultless(s, Exec(t, ok)) && Ops(s, t)[0].SetSlot?
    ensures OpShaped(s, t, ok)
  {
    hide BodyFits, DeathOps, AfterRun;
  }

  lemma FinishShaped(s: State, t: Tid, ok: bool)
    requires Guard(s, Exec(t, ok)) && Faultless(s, Exec(t, ok))
             && (Ops(s, t)[0].FinishBuffer? || Ops(s, t)[0].FinishQueue?)
    ensures OpShaped(s, t, ok)
  {
    hide BodyFits, DeathOps, AfterRun;
    NothingMore(Ops(s, t)[1..]);
  }

  lemma OpShape(s: State, t: Tid, ok: bool)
    requires Guard(s, Exec(t, ok)) && Faultless(s, Exec(t, ok))
    ensures OpShaped(s, t, ok)
  {
    hide OpShaped, OpFaultless;
    var op := Ops(s, t)[0];
    if op.Release? { ReleaseShaped(s, t, ok); }
    else if op.Run? || op.Destroy? || op.Complete? { WorkShaped(s, t, ok); }
    else if op.Free? || op.Push? { DoneShaped(s, t, ok); }
    else if op.Wait? { WaitShaped(s, t, ok); }
    else if op.SetSlot? { SetShaped(s, t, ok); }
    else { FinishShaped(s, t, ok); }
  }

  ghost predicate OpMatches(s: State, t: Tid, ok: bool, id: Id)
    requires Guard(s, Exec(t, ok)) && Faultless(s, Exec(t, ok))
  {
    var op := Ops(s, t)[0];
    ApplyOp(s, t, op, Ops(s, t)[1..], ok).handles[id] + Parked(OpOps(s, t, op, ok), id)
    == s.handles[id] + ParkedIn(op, id) + Count(Gain(s, Exec(t, ok)), id)
  }

  lemma ReleaseMatches(s: State, t: Tid, ok: bool, id: Id)
    requires Guard(s, Exec(t, ok)) && Faultless(s, Exec(t, ok)) && (Ops(s, t)[0].Release? || Ops(s, t)[0].Run?)
    ensures OpMatches(s, t, ok, id)
  {
    hide BodyFits, DeathOps, AfterRun, Parked;
    var op := Ops(s, t)[0];
    if op.Release? {
      DeathParksNone(op.id, s.heap[op.id].body, id);
    } else {
      RunParksNone(op.r, if ok then SUCCESS else FAILURE, id);
      ParkedOne(Run(op.r, Some(Records(s, op.r))), id);
    }
    NoneParked([], id);
  }

  lemma EndMatches(s: State, t: Tid, ok: bool, id: Id)
    requires Guard(s, Exec(t, ok)) && Faultless(s, Exec(t, ok))
    requires Ops(s, t)[0].Free? || Ops(s, t)[0].Destroy? || Ops(s, t)[0].Complete?
    ensures OpMatches(s, t, ok, id)
  {
    hide BodyFits, Parked;
    NoneParked(OpOps(s, t, Ops(s, t)[0], ok), id);
  }

  lemma PushMatches(s: State, t: Tid, ok: bool, id: Id)
    requires Guard(s, Exec(t, ok)) && Faultless(s, Exec(t, ok)) && Ops(s, t)[0].Push?
    ensures OpMatches(s, t, ok, id)
  {
    hide BodyFits;
  }

  lemma WaitMatches(s: State, t: Tid, ok: bool, id: Id)
    requires Guard(s, Exec(t, ok)) && Faultless(s, Exec(t, ok)) && Ops(s, t)[0].Wait?
    ensures OpMatches(s, t, ok, id)
  {
    hide BodyFits;
    ParkedOne(Ops(s, t)[0], id);
  }

  lemma SetMatches(s: State, t: Tid, ok: bool, id: Id)
    requires Guard(s, Exec(t, ok)) && Faultless(s, Exec(t, ok)) && Ops(s, t)[0].SetSlot?
    ensures OpMatches(s, t, ok, id)
  {
    hide BodyFits;
    ParkedOne(OpOps(s, t, Ops(s, t)[0], ok)[0], id);
  }

  lemma FinishMatches(s: State, t: Tid, ok: bool, id: Id)
    requires Guard(s, Exec(t, ok)) && Faultless(s, Exec(t, ok))
             && (Ops(s, t)[0].FinishBuffer? || Ops(s, t)[0].FinishQueue?)
    ensures OpMatches(s, t, ok, id)
  {
    hide BodyFits;
    var ops := OpOps(s, t, Ops(s, t)[0], ok);
    if ops != [] { ParkedOne(ops[0], id); }
  }

  lemma RunParksNone(r: Id, result: Status, id: Id)
    requires r.Req?
    ensures Parked(AfterRun(r, result), id) == 0
  {
    NoneParked(AfterRun(r, result), id);
  }

  lemma DeathParksNone(x: Id, body: Body, id: Id)
    ensures Parked(DeathOps(x, body), id) == 0
  {
    NoneParked(DeathOps(x, body), id);
  }

  lemma OpLedger(s: State, t: Tid, ok: bool, id: Id)
    requires Guard(s, Exec(t, ok)) && Faultless(s, Exec(t, ok))
    ensures Holdings(Apply(s, Exec(t, ok)), id) == Holdings(s, id) + Count(Gain(s, Exec(t, ok)), id)
  {
    hide Sum, ApplyOp, OpOps, Gain, OpFaultless, Parked, ParkedIn;
    var op := Ops(s, t)[0];
    OpShape(s, t, ok);
    if op.Release? || op.Run? { ReleaseMatches(s, t, ok, id); }
    else if op.Free? || op.Destroy? || op.Complete? { EndMatches(s, t, ok, id); }
    else if op.Push? { PushMatches(s, t, ok, id); }
    else if op.Wait? { WaitMatches(s, t, ok, id); }
    else if op.SetSlot? { SetMatches(s, t, ok, id); }
    else { FinishMatches(s, t, ok, id); }
    var rest := Ops(s, t)[1..];
    ParkedConcat(OpOps(s, t, op, ok), rest, id);
    ParkedCons(op, rest, id);
    assert Ops(s, t) == [op] + rest;
    ParkedPut(s, t, OpOps(s, t, op, ok) + rest, id);
  }

  // The ledger: no step of any thread changes what clients hold, except by what a call returns and what a
  // client drops.
  lemma HoldingsLedger(s: State, step: Step, id: Id)
    requires Reachable(s) && Guard(s, step) && Faultless(s, step)
    ensures Holdings(Apply(s, step), id) + Count(Loss(step), id) == Holdings(s, id) + Count(Gain(s, step), id)
  {
    hide Reachable, ApplyCall, ApplyOp, Sum, Live;
    match step {
      case Begin(t, call) => CallLedger(s, t, call, id);
      case Exec(t, ok) => OpLedger(s, t, ok, id);
      case Take(q) => TakeLedger(s, q, id);
      case Return(_) =>
      case Wake(_) =>
    }
  }

  lemma TakeLedger(s: State, q: Id, id: Id)
    requires Reachable(s) && Guard(s, Take(q)) && Faultless(s, Take(q))
    ensures Holdings(Apply(s, Take(q)), id) == Holdings(s, id)
  {
    hide Sum, Reachable, Inv, IsRun;
    ReachableInv(s);
    WorkerIdle(s, q);
    var fifo := s.heap[q].body;
    if fifo.pending != [] { ParkedPut(s, Worker(q), [Run(fifo.pending[0], None)], id); }
  }

  // ---- whole runs ----

  // A stretch of a run, with the steps taken.
  ghost predicate Stretch(run: seq<State>, steps: seq<Step>) {
    && |run| == |steps| + 1
    && (forall i :: 0 <= i < |steps| ==>
          && Guard(run[i], steps[i]) && Faultless(run[i], steps[i]) && run[i + 1] == Apply(run[i], steps[i]))
  }

  ghost function Single(o: Option<Id>): multiset<Id> {
    if o.Some? then multiset{o.value} else multiset{}
  }

  // Everything clients were given, and everything they gave up.
  ghost function Gains(run: seq<State>, steps: seq<Step>): multiset<Id>
    requires Stretch(run, steps)
  {
    if steps == [] then multiset{} else
      Gains(run[..|steps|], steps[..|steps| - 1]) + Single(Gain(run[|steps| - 1], steps[|steps| - 1]))
  }

  ghost function Losses(steps: seq<Step>): multiset<Id> {
    if steps == [] then multiset{} else Losses(steps[..|steps| - 1]) + Single(Loss(steps[|steps| - 1]))
  }

  lemma {:induction false} StretchLedger(run: seq<State>, steps: seq<Step>, id: Id)
    requires Stretch(run, steps) && Reachable(run[0])
    ensures Reachable(run[|steps|])
    ensures Holdings(run[|steps|], id) + Losses(steps)[id] == Holdings(run[0], id) + Gains(run, steps)[id]
    decreases |steps|
  {
    hide Reachable, Guard, Faultless, Apply, Gain, Loss, Holdings;
    if steps != [] {
      var n := |steps| - 1;
      StretchLedger(run[..n + 1], steps[..n], id);
      assert run[..n + 1][n] == run[n];
      HoldingsLedger(run[n], steps[n], id);
      Onward(run[n], steps[n]);
    }
  }

  lemma Onward(s: State, step: Step)
    requires Reachable(s) && Guard(s, step) && Faultless(s, step)
    ensures Reachable(Apply(s, step))
  {
    hide Guard, Faultless, Apply, Init;
    var run: seq<State>, i: nat :| IsRun(run) && i < |run| && run[i] == s;
    var longer := run[..i + 1] + [Apply(s, step)];
    forall k | 0 <= k < |longer| - 1 ensures Next(longer[k], longer[k + 1]) {
      if k < i { assert Next(run[k], run[k + 1]); }
    }
    assert IsRun(longer) && longer[i + 1] == Apply(s, step);
  }

  lemma QuietHoldings(s: State, id: Id)
    requires Quiet(s)
    ensures Holdings(s, id) == s.handles[id]
  {
    if Sum(s.threads, (t: Tid, ops) => Parked(ops, id)) > 0 {
      var t := SumSource(s.threads, (t: Tid, ops) => Parked(ops, id));
      var ops := Ops(s, t);
      assert false;
    }
  }
}
