// What clients hold determines the memory once all threads are quiet, so calls that give back what they were
// given leave no trace.
module HostNeutral {
  import opened Bags
  import opened HostObjects
  import opened HostSteps
  import opened HostInvariant
  import opened HostConservation
  import opened HostTheorems
  import opened HostLedger
  import opened HostFrames
  import opened HostProgress
  import opened HostLoss

  // ---- quiet states ----

  // In s' clients hold what they hold in s, and perhaps one buffer more; groups that exist in both states
  // have the same contents.
  ghost predicate Grown(s: State, s': State, extra: Option<Id>) {
    && s'.handles == s.handles + Single(extra) && s'.maps == s.maps && s'.leaked == s.leaked
    && (forall g <- s.heap :: SameContents(s, s', g))
    && (extra.Some? ==> extra.value.Buf? && extra.value !in s.heap && WellNamed(extra.value)
                        && (extra.value.device.Some? ==> extra.value.device.value in s.handles))
  }

  lemma QuietPositive(s: State, id: Id)
    requires Inv(s) && Quiet(s) && id in s.heap
    ensures s.heap[id].count > 0
  {
    hide Sum;
    QuietClaims(s, Kill(id));
    NoCellKills(s.heap, id);
    assert Balanced(s, Kill(id));
  }

  lemma SameFields(s: State, s': State, k: Id, x: Claim)
    requires SameContents(s, s', k) && k in s.heap && k in s'.heap
    ensures FieldClaims(k, s'.heap[k].body, x) == FieldClaims(k, s.heap[k].body, x)
  {
  }

  // If k is in both states then so is whatever it refers to.
  lemma FieldInBoth(s: State, s': State, k: Id, id: Id)
    requires Inv(s') && Quiet(s') && SameContents(s, s', k) && k in s.heap && k in s'.heap
    requires FieldClaims(k, s.heap[k].body, Ref(id)) > 0
    ensures id in s'.heap
  {
    hide Sum, Inv, Quiet, FieldClaims;
    InvConserved(s');
    QuietPositive(s', k);
    SameFields(s, s', k, Ref(id));
    CellTallied(s', k, Ref(id));
    RefLive(s', id);
  }

  lemma {:induction false} StillThere(s: State, s': State, extra: Option<Id>, id: Id)
    requires Inv(s) && Inv(s') && Quiet(s) && Quiet(s') && Grown(s, s', extra) && id in s.heap
    ensures id in s'.heap
    decreases Rank(id)
  {
    hide Sum, Inv, Quiet, FieldClaims, SameContents;
    if id in s.handles || id in s.maps || id in s.leaked {
      ClientOwns(s', id) by { InvConserved(s'); }
    } else {
      var k := QuietOwner(s, id);
      RankGrows(s, k, id);
      StillThere(s, s', extra, k);
      FieldInBoth(s, s', k, id);
    }
  }

  lemma {:induction false} WasThere(s: State, s': State, extra: Option<Id>, id: Id)
    requires Inv(s) && Inv(s') && Quiet(s) && Quiet(s') && Grown(s, s', extra) && id in s'.heap
    ensures id in s.heap || extra == Some(id)
    decreases Rank(id)
  {
    hide Sum, Inv, Quiet, FieldClaims, SameContents;
    if extra == Some(id) {
    } else if id in s'.handles || id in s'.maps || id in s'.leaked {
      ClientOwns(s, id) by { InvConserved(s); }
    } else {
      var k := QuietOwner(s', id);
      RankGrows(s', k, id);
      WasThere(s, s', extra, k);
      if extra == Some(k) {
        BufferField(k, s'.heap[k].body, id);
        ClientOwns(s, id) by { InvConserved(s); }
      } else {
        SameBack(s, s', k);
        FieldInBoth(s', s, k, id);
      }
    }
  }

  lemma SameBack(s: State, s': State, k: Id)
    requires SameContents(s, s', k) && k in s.heap
    ensures SameContents(s', s, k)
  {
  }

  lemma BufferField(b: Id, body: Body, id: Id)
    requires b.Buf? && FieldClaims(b, body, Ref(id)) > 0
    ensures b.device == Some(id)
  {
  }

  lemma ClientOwns(s: State, id: Id)
    requires Conserved(s) && (id in s.handles || id in s.maps || id in s.leaked)
    ensures id in s.heap
  {
    hide Sum;
    RefLive(s, id);
  }

  lemma RankGrows(s: State, k: Id, id: Id)
    requires Inv(s) && k in s.heap && FieldClaims(k, s.heap[k].body, Ref(id)) > 0
    ensures Rank(k) < Rank(id)
  {
    hide Conserved;
    assert NameOk(s, k);
  }

  lemma SameCells(s: State, s': State, k: Id, x: Claim)
    requires Inv(s) && Inv(s') && Quiet(s) && Quiet(s') && SameContents(s, s', k) && k in s.heap && k in s'.heap
    ensures CellClaims(k, s'.heap[k], x) == CellClaims(k, s.heap[k], x)
  {
    hide Inv, Quiet, SameContents, FieldClaims;
    QuietPositive(s, k);
    QuietPositive(s', k);
    SameFields(s, s', k, x);
    if k.Que? {
      QuietQueueEmpty(s, k);
      QuietQueueEmpty(s', k);
    }
  }

  // One reference if the extra buffer is in the memory of device id.
  ghost function OnDevice(extra: Option<Id>, id: Id): nat {
    if extra.Some? && extra.value.Buf? && extra.value.device == Some(id) then 1 else 0
  }

  // In quiet states the objects in memory and their counts depend on nothing but what clients hold: whatever
  // was created in between and given back again has left no trace, and a buffer that was not given back
  // leaves itself and a reference to its device.
  lemma QuietMemoryDetermined(s: State, s': State, extra: Option<Id>)
    requires Reachable(s) && Reachable(s') && Quiet(s) && Quiet(s') && Grown(s, s', extra)
    ensures s'.heap.Keys == s.heap.Keys + (if extra.Some? then {extra.value} else {})
    ensures forall id <- s.heap :: s'.heap[id].count == s.heap[id].count + OnDevice(extra, id)
    ensures extra.Some? ==> s'.heap[extra.value].count == 1
  {
    hide Sum, Inv, Reachable, Quiet, Grown, IsRun, OnDevice;
    ReachableInv(s);
    ReachableInv(s');
    forall id | id in s.heap ensures id in s'.heap { StillThere(s, s', extra, id); }
    if extra.Some? { ExtraThere(s, s', extra.value) by { InvConserved(s'); } }
    forall id | id in s'.heap ensures id in s.heap || extra == Some(id) { WasThere(s, s', extra, id); }
    forall id | id in s.heap ensures s'.heap[id].count == s.heap[id].count + OnDevice(extra, id) {
      CountGrows(s, s', extra, id);
    }
    if extra.Some? { CountGrows(s, s', extra, extra.value); }
  }

  lemma ExtraThere(s: State, s': State, b: Id)
    requires Conserved(s') && Grown(s, s', Some(b))
    ensures b in s'.heap && b !in s.heap
  {
    hide Sum;
    ClientOwns(s', b);
  }

  // The owners of id among the objects.
  lemma FieldsGrow(s: State, s': State, extra: Option<Id>, id: Id)
    requires Inv(s) && Inv(s') && Quiet(s) && Quiet(s') && Grown(s, s', extra)
    requires s'.heap.Keys == s.heap.Keys + (if extra.Some? then {extra.value} else {})
    ensures HeapTally(s'.heap, Ref(id)) == HeapTally(s.heap, Ref(id)) + OnDevice(extra, id)
  {
    hide Sum, Inv, Quiet, CellClaims, SameContents;
    var rest := if extra.Some? then s'.heap - {extra.value} else s'.heap;
    assert rest.Keys == s.heap.Keys;
    forall k | k in s.heap ensures CellClaims(k, s.heap[k], Ref(id)) == CellClaims(k, rest[k], Ref(id)) {
      SameCells(s, s', k, Ref(id));
    }
    SumSame(s.heap, rest, (k, c) => CellClaims(k, c, Ref(id)));
    if extra.Some? {
      SumRemove(s'.heap, (k, c) => CellClaims(k, c, Ref(id)), extra.value);
      QuietPositive(s', extra.value);
      BufferClaims(extra.value, s'.heap[extra.value], id);
    }
  }

  lemma BufferClaims(b: Id, c: Cell, id: Id)
    requires b.Buf? && c.count > 0
    ensures CellClaims(b, c, Ref(id)) == OnDevice(Some(b), id)
  {
  }

  lemma CountGrows(s: State, s': State, extra: Option<Id>, id: Id)
    requires Inv(s) && Inv(s') && Quiet(s) && Quiet(s') && Grown(s, s', extra) && id in s'.heap
    requires s'.heap.Keys == s.heap.Keys + (if extra.Some? then {extra.value} else {})
    ensures id in s.heap ==> s'.heap[id].count == s.heap[id].count + OnDevice(extra, id)
    ensures extra == Some(id) ==> s'.heap[id].count == 1
  {
    hide Sum, Inv, Quiet, CellClaims, HeapTally, ThreadTally, SameContents;
    InvConserved(s);
    InvConserved(s');
    assert Balanced(s, Ref(id)) && Balanced(s', Ref(id));
    QuietClaims(s, Ref(id));
    QuietClaims(s', Ref(id));
    FieldsGrow(s, s', extra, id);
    assert extra == Some(id) ==> id.Buf? && OnDevice(extra, id) == 0;
  }

  // ---- what tame calls leave alone ----

  // The call maps nothing, touches only groups made after name base, and asks for an event.
  predicate Tame(call: Call, base: nat) {
    match call
    case MapBuffer(_, _, _) => false
    case UnmapBuffer(_, _) => false
    case AddSlot(g, _, _) => g.n >= base
    case SetInGroup(g, _, _) => g.n >= base
    case Enqueue(_, _, wantEvent, _) => wantEvent
    case _ => true
  }

  predicate TameStep(step: Step, base: nat) {
    step.Begin? ==> Tame(step.call, base)
  }

  predicate Eventful(r: Id) {
    r.Req? && r.event.Some?
  }

  // What tame calls leave to do.
  predicate Gentle(op: Op, base: nat) {
    (op.Push? ==> Eventful(op.r)) && (op.SetSlot? ==> op.g.n >= base)
  }

  ghost predicate AllGentle(s: State, base: nat) {
    && (forall t: Tid :: forall op <- Ops(s, t) :: Gentle(op, base))
    && (forall q <- s.heap :: s.heap[q].body.Fifo? ==> forall r <- s.heap[q].body.pending :: Eventful(r))
  }

  lemma OpOpsGentle(s: State, t: Tid, op: Op, ok: bool, base: nat)
    requires OpFaultless(s, t, op) && Gentle(op, base)
    ensures forall o <- OpOps(s, t, op, ok) :: Gentle(o, base)
  {
    hide BodyFits;
  }

  lemma CallOpsGentle(s: State, call: Call, base: nat)
    requires Tame(call, base)
    ensures CallOps(s, call).Some? ==> forall o <- CallOps(s, call).value :: Gentle(o, base)
  {
  }

  // A call leaves its thread with CallOps to do.
  lemma CallLeaves(s: State, t: Tid, call: Call)
    requires Guard(s, Begin(t, call)) && Faultless(s, Begin(t, call))
    ensures ApplyCall(s, t, call).threads
            == (if CallOps(s, call).Some? then s.threads[t := CallOps(s, call).value] else s.threads)
  {
    hide ApplyCall, MayCall, CallFaultless, Prepare, Gain, Loss, Parked;
    if call.Enqueue? {
      EnqueueIsPrepare(s, t, call);
      if call.ok { HostLedger.PrepareShape(s, t, call.q, call.group, call.wantEvent); }
    } else {
      OtherCallMatches(s, t, call, Dev(0));
    }
  }

  lemma ThreadsGentle(s: State, step: Step, base: nat, u: Tid)
    requires Guard(s, step) && Faultless(s, step) && TameStep(step, base)
    requires forall op <- Ops(s, u) :: Gentle(op, base)
    ensures forall op <- Ops(Apply(s, step), u) :: Gentle(op, base)
  {
    hide ApplyOp, ApplyCall, OpOps, CallOps, MayCall, CallFaultless, OpFaultless, Gentle, Tame;
    match step {
      case Begin(t, call) =>
        CallLeaves(s, t, call);
        CallOpsGentle(s, call, base);
      case Exec(t, ok) =>
        OpShape(s, t, ok);
        if u == t { OpOpsGentle(s, t, Ops(s, t)[0], ok, base); }
      case Take(_) => RunGentle(base);
      case Return(_) =>
      case Wake(_) =>
    }
  }

  lemma RunGentle(base: nat)
    ensures forall r: Id, read: Option<seq<Id>> :: Gentle(Run(r, read), base)
  {
  }

  // Whatever is queued in s' was queued in s, or is the request pushed.
  ghost predicate QueueFrame(s: State, s': State, q: Id, pushed: Option<Id>) {
    q in s'.heap && s'.heap[q].body.Fifo? ==>
      forall r <- s'.heap[q].body.pending ::
        (q in s.heap && s.heap[q].body.Fifo? && r in s.heap[q].body.pending) || pushed == Some(r)
  }

  lemma CreationQueues(s: State, t: Tid, call: Call, q: Id)
    requires MayCall(s, call) && CallFaultless(s, call)
    requires call.OpenDevice? || call.NewHostBuffer? || call.NewGroup? || call.Retain? || call.GetSlot?
    ensures QueueFrame(s, ApplyCall(s, t, call), q, None)
  {
    hide BodyFits;
  }

  lemma BufferQueues(s: State, t: Tid, call: Call, q: Id)
    requires MayCall(s, call) && CallFaultless(s, call) && (call.MapBuffer? || call.AddSlot?)
    ensures QueueFrame(s, ApplyCall(s, t, call), q, None)
  {
    hide BodyFits;
  }

  lemma UnmapQueues(s: State, t: Tid, call: Call, q: Id)
    requires MayCall(s, call) && CallFaultless(s, call) && call.UnmapBuffer?
    ensures QueueFrame(s, ApplyCall(s, t, call), q, None)
  {
    hide BodyFits;
  }

  lemma HandOverQueues(s: State, t: Tid, call: Call, q: Id)
    requires MayCall(s, call) && CallFaultless(s, call)
    requires call.Drop? || call.NewDeviceBuffer? || call.NewQueue? || call.SetInGroup? || call.AwaitEvent?
    ensures QueueFrame(s, ApplyCall(s, t, call), q, None)
  {
    hide BodyFits;
  }

  lemma PrepareQueues(s: State, t: Tid, p: Id, g: Option<Id>, wantEvent: bool, q: Id)
    requires p in s.heap && (g.Some? ==> g.value in s.heap)
    ensures QueueFrame(s, Prepare(s, t, p, g, wantEvent), q, None)
  {
  }

  lemma CallQueues(s: State, t: Tid, call: Call, q: Id)
    requires MayCall(s, call) && CallFaultless(s, call)
    ensures QueueFrame(s, ApplyCall(s, t, call), q, None)
  {
    hide ApplyCall, MayCall, CallFaultless, Prepare, QueueFrame;
    if call.Enqueue? {
      EnqueueIsPrepare(s, t, call);
      if call.ok { PrepareQueues(s, t, call.q, call.group, call.wantEvent, q); } else { QueueSelf(s, q); }
    } else if call.OpenDevice? || call.NewHostBuffer? || call.NewGroup? || call.Retain? || call.GetSlot? {
      CreationQueues(s, t, call, q);
    } else if call.MapBuffer? || call.AddSlot? {
      BufferQueues(s, t, call, q);
    } else if call.UnmapBuffer? {
      UnmapQueues(s, t, call, q);
    } else {
      HandOverQueues(s, t, call, q);
    }
  }

  lemma QueueSelf(s: State, q: Id)
    ensures QueueFrame(s, s, q, None)
  {
  }

  lemma WorkQueues(s: State, t: Tid, op: Op, rest: seq<Op>, ok: bool, q: Id)
    requires OpFaultless(s, t, op) && (op.Release? || op.Free? || op.Run? || op.Complete?)
    ensures QueueFrame(s, ApplyOp(s, t, op, rest, ok), q, None)
  {
    hide BodyFits, DeathOps, AfterRun;
  }

  lemma OtherQueues(s: State, t: Tid, op: Op, rest: seq<Op>, ok: bool, q: Id)
    requires OpFaultless(s, t, op)
    requires op.Destroy? || op.Wait? || op.SetSlot? || op.FinishBuffer? || op.FinishQueue?
    ensures QueueFrame(s, ApplyOp(s, t, op, rest, ok), q, None)
  {
  }

  lemma PushQueues(s: State, t: Tid, op: Op, rest: seq<Op>, ok: bool, q: Id)
    requires OpFaultless(s, t, op) && op.Push?
    ensures QueueFrame(s, ApplyOp(s, t, op, rest, ok), q, Some(op.r))
  {
  }

  lemma OpQueues(s: State, t: Tid, op: Op, rest: seq<Op>, ok: bool, q: Id)
    requires OpFaultless(s, t, op)
    ensures QueueFrame(s, ApplyOp(s, t, op, rest, ok), q, if op.Push? then Some(op.r) else None)
  {
    hide ApplyOp, OpFaultless, QueueFrame;
    if op.Push? { PushQueues(s, t, op, rest, ok, q); }
    else if op.Release? || op.Free? || op.Run? || op.Complete? { WorkQueues(s, t, op, rest, ok, q); }
    else { OtherQueues(s, t, op, rest, ok, q); }
  }

  lemma QueuesGentle(s: State, step: Step, base: nat, q: Id)
    requires Guard(s, step) && Faultless(s, step) && AllGentle(s, base) && q in Apply(s, step).heap
    ensures Apply(s, step).heap[q].body.Fifo? ==> forall r <- Apply(s, step).heap[q].body.pending :: Eventful(r)
  {
    hide ApplyOp, ApplyCall, MayCall, CallFaultless, OpFaultless;
    match step {
      case Begin(t, call) => CallQueues(s, t, call, q);
      case Exec(t, ok) =>
        OpQueues(s, t, Ops(s, t)[0], Ops(s, t)[1..], ok, q);
        assert Gentle(Ops(s, t)[0], base);
      case Take(_) =>
      case Return(_) =>
      case Wake(_) =>
    }
  }

  lemma GentleStays(s: State, step: Step, base: nat)
    requires Guard(s, step) && Faultless(s, step) && TameStep(step, base) && AllGentle(s, base)
    ensures AllGentle(Apply(s, step), base)
  {
    hide Apply, Guard, Faultless, TameStep, Gentle;
    forall u: Tid ensures forall op <- Ops(Apply(s, step), u) :: Gentle(op, base) { ThreadsGentle(s, step, base, u); }
    forall q | q in Apply(s, step).heap && Apply(s, step).heap[q].body.Fifo?
      ensures forall r <- Apply(s, step).heap[q].body.pending :: Eventful(r)
    {
      QueuesGentle(s, step, base, q);
    }
  }

  // If every request wants an event, none is lost.
  lemma GentleLosesNothing(s: State, step: Step, base: nat)
    requires Reachable(s) && Guard(s, step) && Faultless(s, step) && AllGentle(s, base)
    ensures Apply(s, step).leaked == s.leaked
  {
    hide Inv, Reachable, Apply, Faultless;
    ReachableInv(s);
    forall r: Id ensures Apply(s, step).leaked[r] == s.leaked[r] {
      LeaksFrame(s, step, r);
      if step.Exec? && r.Req? && Ops(s, step.t)[0] == Free(r.target) && r.target.Que? {
        OpKillLive(s, step.t, Free(r.target), r.target);
        DestroyFindsNoEvents(s, r.target);
        assert forall x <- s.heap[r.target].body.pending :: Eventful(x);
      }
    }
  }

  // From state s to s' nothing is mapped, lost or put into a group that was there at the start.
  ghost predicate Untouched(s: State, s': State) {
    && s'.maps == s.maps && s'.leaked == s.leaked && s.next <= s'.next
    && (forall g <- s.heap :: SameContents(s, s', g))
  }

  lemma TameKeeps(s0: State, s: State, step: Step)
    requires Reachable(s0) && Reachable(s) && Guard(s, step) && Faultless(s, step)
    requires TameStep(step, s0.next) && AllGentle(s, s0.next) && Untouched(s0, s)
    ensures Untouched(s0, Apply(s, step))
  {
    hide Inv, Reachable, Apply, Faultless;
    ReachableInv(s);
    ReachableInv(s0);
    GentleLosesNothing(s, step, s0.next);
    StepFrame(s, step, Dev(0));
    assert step.Exec? ==> Gentle(Ops(s, step.t)[0], s0.next);
    forall g | g in s0.heap ensures SameContents(s0, Apply(s, step), g) {
      NamedBelow(s0, g);
      StepFrame(s, step, g);
    }
  }

  // Every call made during the stretch is tame.
  ghost predicate TameStretch(run: seq<State>, steps: seq<Step>) {
    Stretch(run, steps) && forall k :: 0 <= k < |steps| ==> TameStep(steps[k], run[0].next)
  }

  lemma QuietGentle(s: State)
    requires Inv(s) && Quiet(s)
    ensures AllGentle(s, s.next)
  {
    hide Conserved, ThreadsOk, WorkersOk, SleepersOk;
    forall q | q in s.heap && s.heap[q].body.Fifo? ensures s.heap[q].body.pending == [] {
      assert NameOk(s, q);
      QuietQueueEmpty(s, q);
    }
  }

  lemma {:induction false} TameRun(run: seq<State>, steps: seq<Step>, n: nat)
    requires TameStretch(run, steps) && Reachable(run[0]) && Quiet(run[0]) && n <= |steps|
    ensures Reachable(run[n]) && Untouched(run[0], run[n]) && AllGentle(run[n], run[0].next)
  {
    hide Inv, Reachable, Apply, Guard, Faultless, AllGentle, Untouched, Quiet, TameStep;
    if n == 0 {
      ReachableInv(run[0]);
      QuietGentle(run[0]);
      UntouchedSelf(run[0]);
    } else {
      TameRun(run, steps, n - 1);
      assert run[n - 1 + 1] == Apply(run[n - 1], steps[n - 1]);
      TameKeeps(run[0], run[n - 1], steps[n - 1]);
      GentleStays(run[n - 1], steps[n - 1], run[0].next);
      Onward(run[n - 1], steps[n - 1]);
    }
  }

  lemma UntouchedSelf(s: State)
    ensures Untouched(s, s)
  {
  }

  // Tame calls between two quiet states that give back all they were given but for one buffer, if any, leave
  // the memory as it was, but for that buffer and its reference to its device. Calls of any number of clients
  // and all their workers may be interleaved.
  lemma BalancedStretchLeavesNoTrace(run: seq<State>, steps: seq<Step>, extra: Option<Id>)
    requires TameStretch(run, steps) && Reachable(run[0]) && Quiet(run[0]) && Quiet(run[|steps|])
    requires Gains(run, steps) == Losses(steps) + Single(extra)
    requires extra.Some? ==> extra.value.Buf? && WellNamed(extra.value) && extra.value.n >= run[0].next
                             && (extra.value.device.Some? ==> extra.value.device.value in run[0].handles)
    ensures var s, s' := run[0], run[|steps|];
            && s'.heap.Keys == s.heap.Keys + (if extra.Some? then {extra.value} else {})
            && (forall id <- s.heap :: s'.heap[id].count == s.heap[id].count + OnDevice(extra, id))
            && (extra.Some? ==> s'.heap[extra.value].count == 1)
            && s'.handles == s.handles + Single(extra) && s'.maps == s.maps && s'.leaked == s.leaked
  {
    hide Reachable, Holdings, Quiet, Guard, Faultless, Apply, Gains, Losses, TameStep, Inv, SameContents, OnDevice;
    var s, s' := run[0], run[|steps|];
    forall id: Id ensures s'.handles[id] == s.handles[id] + Single(extra)[id] {
      StretchLedger(run, steps, id);
      QuietHoldings(s, id);
      QuietHoldings(s', id);
    }
    assert s'.handles == s.handles + Single(extra);
    TameRun(run, steps, |steps|);
    ReachableInv(s);
    if extra.Some? { NamedBelow(s, extra.value); }
    QuietMemoryDetermined(s, s', extra);
  }
}
