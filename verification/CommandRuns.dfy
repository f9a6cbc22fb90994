// What the calls of a client do in a run of the step system: the groups it fills and the queues it pushes to hold what
// its calls say. So the DSP is handed the buffers of a sprd_vdsp_send_command, in the caller's order, once.
module CommandRuns {
  import opened Bags
  import opened HostObjects
  import opened HostSteps
  import opened HostInvariant
  import opened HostConservation
  import opened HostTheorems
  import opened HostLedger
  import opened HostFrames
  import opened HostProgress
  import opened HostLoss
  import opened HostNeutral
  import opened HostTraces
  import opened SendCommand

  // ---- what the log says ----

  // The buffers added to group g, in order.
  function Adds(log: seq<Event>, g: Id): seq<Id> {
    if log == [] then [] else
      var e := log[|log| - 1];
      Adds(log[..|log| - 1], g)
      + (if e.Called? && e.call.AddSlot? && e.call.g == g && e.call.ok then [e.call.b] else [])
  }

  // What a request asks for: a group of buffers, and an event.
  datatype Asked = Asked(group: Option<Id>, event: bool)

  // The requests enqueued to queue q, in order.
  function Asks(log: seq<Event>, q: Id): seq<Asked> {
    if log == [] then [] else
      var e := log[|log| - 1];
      Asks(log[..|log| - 1], q)
      + (if e.Called? && e.call.Enqueue? && e.call.q == q && e.call.ok then [Asked(e.call.group, e.call.wantEvent)] else [])
  }

  lemma {:induction false} AddsConcat(a: seq<Event>, b: seq<Event>, g: Id)
    ensures Adds(a + b, g) == Adds(a, g) + Adds(b, g)
  {
    if b == [] {
      assert a + b == a;
    } else {
      AddsConcat(a, b[..|b| - 1], g);
      assert (a + b)[..|a + b| - 1] == a + b[..|b| - 1];
    }
  }

  lemma {:induction false} AsksConcat(a: seq<Event>, b: seq<Event>, q: Id)
    ensures Asks(a + b, q) == Asks(a, q) + Asks(b, q)
  {
    if b == [] {
      assert a + b == a;
    } else {
      AsksConcat(a, b[..|b| - 1], q);
      assert (a + b)[..|a + b| - 1] == a + b[..|b| - 1];
    }
  }

  // The call fills a group, sets one of its records, or enqueues.
  predicate Uses(call: Call, id: Id) {
    match call
    case AddSlot(g, _, _) => g == id
    case SetInGroup(g, _, _) => g == id
    case Enqueue(q, _, _, _) => q == id
    case _ => false
  }

  // Only t uses id, and it sets no record of it.
  ghost predicate Private(steps: seq<Step>, t: Tid, id: Id) {
    forall k :: 0 <= k < |steps| && steps[k].Begin? && Uses(steps[k].call, id) ==>
      steps[k].t == t && !steps[k].call.SetInGroup?
  }

  // ---- groups ----

  // No thread is about to set a record of g.
  ghost predicate NoSetter(s: State, g: Id) {
    forall u: Tid :: forall op <- Ops(s, u) :: !(op.SetSlot? && op.g == g)
  }

  ghost predicate GroupIs(s: State, g: Id, slots: seq<Id>) {
    && NoSetter(s, g) && (g in s.heap ==> s.heap[g].body == Slots(slots)) && (g.n >= s.next ==> slots == [])
  }

  lemma AddsOne(e: Event, g: Id)
    ensures Adds([e], g) == if e.Called? && e.call.AddSlot? && e.call.g == g && e.call.ok then [e.call.b] else []
    ensures Adds([], g) == []
  {
    assert [e][..0] == [];
  }

  // What a step of t does to a group by the log.
  lemma EventsAdd(s: State, step: Step, t: Tid, g: Id)
    requires Guard(s, step) && Faultless(s, step)
    ensures Adds(StepEvents(s, step, t), g)
            == if step.Begin? && step.t == t && step.call.AddSlot? && step.call.g == g && step.call.ok then [step.call.b] else []
  {
    hide Gain, Guard, Faultless, Adds;
    var called := if Acts(step, t) && step.Begin? then [Called(step.call)] else [];
    var got := if Acts(step, t) && Gain(s, step).Some? then [Got(Gain(s, step).value)] else [];
    assert StepEvents(s, step, t) == called + got;
    AddsConcat(called, got, g);
    AddsOne(Got(g), g);
    if called != [] { AddsOne(called[0], g); }
    if got != [] { AddsOne(got[0], g); }
  }

  lemma NoNewSetter(s: State, step: Step, g: Id)
    requires Inv(s) && Guard(s, step) && Faultless(s, step) && NoSetter(s, g)
    requires step.Begin? ==> !(step.call.SetInGroup? && step.call.g == g)
    ensures NoSetter(Apply(s, step), g)
  {
    hide Inv, ApplyCall, ApplyOp, OpFaultless, MayCall, CallFaultless, Gain;
    var s' := Apply(s, step);
    forall u: Tid ensures forall op <- Ops(s', u) :: !(op.SetSlot? && op.g == g) {
      if !By(step, u) {
        OpsUntouched(s, step, u);
      } else if step.Begin? {
        CallLeaves(s, u, step.call);
      } else if step.Exec? {
        OpShape(s, u, step.ok);
        NoSets(s, u, Ops(s, u)[0], step.ok, g);
      } else {
        WorkerSets(s, step, g);
      }
    }
  }

  lemma NoSets(s: State, t: Tid, op: Op, ok: bool, g: Id)
    requires OpFaultless(s, t, op)
    ensures forall o <- OpOps(s, t, op, ok) :: !o.SetSlot?
  {
    hide BodyFits;
  }

  lemma WorkerSets(s: State, step: Step, g: Id)
    requires Guard(s, step) && Faultless(s, step) && (step.Take? || step.Return?) && NoSetter(s, g)
    ensures forall op <- Ops(Apply(s, step), Worker(step.q)) :: !(op.SetSlot? && op.g == g)
  {
    assert forall op <- Ops(s, Worker(step.q)) :: !(op.SetSlot? && op.g == g);
  }

  lemma PrepareMakesNone(s: State, t: Tid, q: Id, h: Option<Id>, wantEvent: bool, g: Id)
    requires q in s.heap && (h.Some? ==> h.value in s.heap) && g.Grp? && g !in s.heap
    ensures g !in Prepare(s, t, q, h, wantEvent).heap
  {
  }

  lemma CreationMakes(s: State, t: Tid, call: Call, g: Id)
    requires MayCall(s, call) && CallFaultless(s, call) && g.Grp? && g !in s.heap && g in ApplyCall(s, t, call).heap
    requires call.OpenDevice? || call.NewHostBuffer? || call.NewGroup? || call.Retain? || call.GetSlot? || call.AddSlot?
    ensures ApplyCall(s, t, call).heap[g].body == Slots([])
  {
    hide BodyFits, Prepare;
  }

  lemma OthersMakeNone(s: State, t: Tid, call: Call, g: Id)
    requires MayCall(s, call) && CallFaultless(s, call) && g.Grp? && g !in s.heap
    requires call.MapBuffer? || call.UnmapBuffer? || call.Drop? || call.NewDeviceBuffer? || call.NewQueue? || call.SetInGroup?
             || call.AwaitEvent?
    ensures g !in ApplyCall(s, t, call).heap
  {
    hide BodyFits, Prepare;
  }

  lemma CallMakes(s: State, t: Tid, call: Call, g: Id)
    requires MayCall(s, call) && CallFaultless(s, call) && g.Grp? && g !in s.heap && g in ApplyCall(s, t, call).heap
    ensures ApplyCall(s, t, call).heap[g].body == Slots([])
  {
    hide ApplyCall, MayCall, CallFaultless, Prepare;
    if call.Enqueue? {
      EnqueueIsPrepare(s, t, call);
      if call.ok { PrepareMakesNone(s, t, call.q, call.group, call.wantEvent, g); }
    } else if call.OpenDevice? || call.NewHostBuffer? || call.NewGroup? || call.Retain? || call.GetSlot? || call.AddSlot? {
      CreationMakes(s, t, call, g);
    } else {
      OthersMakeNone(s, t, call, g);
    }
  }

  lemma OpMakesNone(s: State, t: Tid, op: Op, rest: seq<Op>, ok: bool, g: Id)
    requires OpFaultless(s, t, op) && g.Grp? && g !in s.heap
    ensures g !in ApplyOp(s, t, op, rest, ok).heap
  {
    hide DeathOps, AfterRun, BodyFits;
  }

  lemma WorkerMakesNone(s: State, step: Step, g: Id)
    requires Guard(s, step) && Faultless(s, step) && !step.Begin? && !step.Exec? && g.Grp? && g !in s.heap
    ensures g !in Apply(s, step).heap
  {
  }

  // A group that was not there before is empty.
  lemma NewGroupIsEmpty(s: State, step: Step, g: Id)
    requires Guard(s, step) && Faultless(s, step) && g.Grp? && g !in s.heap && g in Apply(s, step).heap
    ensures Apply(s, step).heap[g].body == Slots([])
  {
    hide ApplyCall, ApplyOp, MayCall, CallFaultless, OpFaultless;
    if step.Begin? {
      CallMakes(s, step.t, step.call, g);
    } else if step.Exec? {
      OpMakesNone(s, step.t, Ops(s, step.t)[0], Ops(s, step.t)[1..], step.ok, g);
    } else {
      WorkerMakesNone(s, step, g);
    }
  }

  lemma GroupStep(s: State, step: Step, t: Tid, g: Id, slots: seq<Id>)
    requires Inv(s) && Guard(s, step) && Faultless(s, step) && g.Grp? && GroupIs(s, g, slots)
    requires step.Begin? && Uses(step.call, g) ==> step.t == t && !step.call.SetInGroup?
    ensures GroupIs(Apply(s, step), g, slots + Adds(StepEvents(s, step, t), g))
  {
    hide Inv, ApplyCall, ApplyOp, OpFaultless, MayCall, StepEvents, Gain;
    var s' := Apply(s, step);
    EventsAdd(s, step, t, g);
    NoNewSetter(s, step, g);
    StepFrame(s, step, g);
    NamedBelow(s, g);
    assert slots + [] == slots;
    if step.Exec? { assert forall op <- Ops(s, step.t) :: !(op.SetSlot? && op.g == g); }
    if Rewrites(s, step, g) {
      AddSlotFrame(s, step.t, g, step.call.b, true, g);
    } else if g !in s.heap && g in s'.heap {
      NewGroupIsEmpty(s, step, g);
    }
  }

  // A group that a client makes, and nobody else uses, holds what the client's calls have added.
  lemma {:induction false} GroupIsAdds(run: seq<State>, steps: seq<Step>, t: Tid, g: Id)
    requires Stretch(run, steps) && Reachable(run[0]) && g.Grp? && g.n >= run[0].next && Private(steps, t, g)
    requires NoSetter(run[0], g)
    ensures Reachable(run[|steps|]) && GroupIs(run[|steps|], g, Adds(Trace(run, steps, t), g))
    decreases |steps|
  {
    hide Reachable, Guard, Faultless, Apply, GroupIs, StepEvents, Adds, NoSetter, Inv;
    if steps == [] {
      NewGroup0(run[0], g);
    } else {
      var n := |steps| - 1;
      GroupIsAdds(run[..n + 1], steps[..n], t, g);
      var s := run[n];
      assert run[n + 1] == Apply(s, steps[n]);
      ReachableInv(s);
      Onward(s, steps[n]);
      GroupStep(s, steps[n], t, g, Adds(Trace(run[..n + 1], steps[..n], t), g));
      AddsConcat(Trace(run[..n + 1], steps[..n], t), StepEvents(s, steps[n], t), g);
    }
  }

  lemma NewGroup0(s: State, g: Id)
    requires Reachable(s) && g.n >= s.next && NoSetter(s, g)
    ensures GroupIs(s, g, Adds([], g))
  {
    hide Reachable, Inv;
    ReachableInv(s);
    NamedBelow(s, g);
  }

  // ---- queues ----

  function AskedOf(r: Id): Asked
    requires r.Req?
  {
    Asked(r.group, r.event.Some?)
  }

  // What the requests in a list ask for.
  ghost function Requests(rs: seq<Id>): seq<Asked>
    requires forall r <- rs :: r.Req?
  {
    seq(|rs|, i requires 0 <= i < |rs| => AskedOf(rs[i]))
  }

  predicate Pushes(op: Op, q: Id) {
    op.Push? && op.r.Req? && op.r.target == q
  }

  // The requests to q that a thread is about to push.
  function Coming(ops: seq<Op>, q: Id): seq<Asked> {
    if ops == [] then [] else (if Pushes(ops[0], q) then [AskedOf(ops[0].r)] else []) + Coming(ops[1..], q)
  }

  // What has been pushed to q, and what t is about to push.
  ghost predicate QueueIs(s: State, t: Tid, q: Id, asked: seq<Asked>) {
    && (forall u: Tid :: u != t ==> forall op <- Ops(s, u) :: !Pushes(op, q))
    && (q !in s.workers ==> asked == [] && Coming(Ops(s, t), q) == [])
    && (q in s.workers ==>
          && q in s.logs && (forall r <- s.logs[q].pushed :: r.Req?)
          && Requests(s.logs[q].pushed) + Coming(Ops(s, t), q) == asked)
  }

  lemma {:induction false} ComingNone(ops: seq<Op>, rest: seq<Op>, q: Id)
    requires forall op <- ops :: !Pushes(op, q)
    ensures Coming(ops + rest, q) == Coming(rest, q)
  {
    if ops == [] {
      assert ops + rest == rest;
    } else {
      ComingNone(ops[1..], rest, q);
      assert (ops + rest)[1..] == ops[1..] + rest;
    }
  }

  lemma AsksOne(e: Event, q: Id)
    ensures Asks([e], q) == if e.Called? && e.call.Enqueue? && e.call.q == q && e.call.ok
                            then [Asked(e.call.group, e.call.wantEvent)] else []
    ensures Asks([], q) == []
  {
    assert [e][..0] == [];
  }

  lemma EventsAsk(s: State, step: Step, t: Tid, q: Id)
    requires Guard(s, step) && Faultless(s, step)
    ensures Asks(StepEvents(s, step, t), q)
            == if step.Begin? && step.t == t && step.call.Enqueue? && step.call.q == q && step.call.ok
               then [Asked(step.call.group, step.call.wantEvent)] else []
  {
    hide Gain, Guard, Faultless, Asks;
    var called := if Acts(step, t) && step.Begin? then [Called(step.call)] else [];
    var got := if Acts(step, t) && Gain(s, step).Some? then [Got(Gain(s, step).value)] else [];
    assert StepEvents(s, step, t) == called + got;
    AsksConcat(called, got, q);
    AsksOne(Got(q), q);
    if called != [] { AsksOne(called[0], q); }
    if got != [] { AsksOne(got[0], q); }
  }

  // What a step does to the list of requests ever pushed to q.
  ghost predicate Logged(s: State, step: Step, s': State, q: Id)
    requires Guard(s, step)
  {
    if step.Exec? && Pushes(Ops(s, step.t)[0], q) then
      q in s.logs && q in s'.logs && s'.logs[q].pushed == s.logs[q].pushed + [Ops(s, step.t)[0].r] && s'.workers == s.workers
    else
      && (q in s.workers ==> q in s'.workers && (q in s.logs ==> q in s'.logs && s'.logs[q].pushed == s.logs[q].pushed))
      && (q !in s.workers && q in s'.workers ==> q in s'.logs && s'.logs[q].pushed == [])
  }

  lemma MakingLogged(s: State, t: Tid, call: Call)
    requires MayCall(s, call) && CallFaultless(s, call) && (call.OpenDevice? || call.NewHostBuffer? || call.NewGroup?)
    ensures ApplyCall(s, t, call).logs == s.logs && ApplyCall(s, t, call).workers == s.workers
  {
    hide BodyFits, Prepare, Live;
  }

  lemma RetainLogged(s: State, t: Tid, call: Call)
    requires MayCall(s, call) && CallFaultless(s, call) && (call.Retain? || call.GetSlot?)
    ensures ApplyCall(s, t, call).logs == s.logs && ApplyCall(s, t, call).workers == s.workers
  {
    hide BodyFits, Prepare;
  }

  lemma AddLogged(s: State, t: Tid, call: Call)
    requires MayCall(s, call) && CallFaultless(s, call) && call.AddSlot?
    ensures ApplyCall(s, t, call).logs == s.logs && ApplyCall(s, t, call).workers == s.workers
  {
    hide BodyFits, Prepare;
  }

  lemma HandOverLogged(s: State, t: Tid, call: Call)
    requires MayCall(s, call) && CallFaultless(s, call) && (call.Drop? || call.AwaitEvent? || call.SetInGroup?)
    ensures ApplyCall(s, t, call).logs == s.logs && ApplyCall(s, t, call).workers == s.workers
  {
    hide BodyFits, Prepare, Live;
  }

  lemma BeginningLogged(s: State, t: Tid, call: Call)
    requires MayCall(s, call) && CallFaultless(s, call) && (call.NewDeviceBuffer? || call.NewQueue?)
    ensures ApplyCall(s, t, call).logs == s.logs && ApplyCall(s, t, call).workers == s.workers
  {
    hide BodyFits, Prepare;
  }

  lemma MapLogged(s: State, t: Tid, call: Call)
    requires MayCall(s, call) && CallFaultless(s, call) && call.MapBuffer?
    ensures ApplyCall(s, t, call).logs == s.logs && ApplyCall(s, t, call).workers == s.workers
  {
    hide BodyFits, Prepare;
  }

  lemma UnmapLogged(s: State, t: Tid, call: Call)
    requires MayCall(s, call) && CallFaultless(s, call) && call.UnmapBuffer?
    ensures ApplyCall(s, t, call).logs == s.logs && ApplyCall(s, t, call).workers == s.workers
  {
    hide BodyFits, Prepare;
  }

  lemma PrepareLogged(s: State, t: Tid, q: Id, g: Option<Id>, wantEvent: bool)
    requires q in s.heap && (g.Some? ==> g.value in s.heap)
    ensures Prepare(s, t, q, g, wantEvent).logs == s.logs && Prepare(s, t, q, g, wantEvent).workers == s.workers
  {
  }

  lemma CallLogged(s: State, t: Tid, call: Call)
    requires MayCall(s, call) && CallFaultless(s, call)
    ensures ApplyCall(s, t, call).logs == s.logs && ApplyCall(s, t, call).workers == s.workers
  {
    hide ApplyCall, MayCall, CallFaultless, Prepare;
    if call.Enqueue? {
      EnqueueIsPrepare(s, t, call);
      if call.ok { PrepareLogged(s, t, call.q, call.group, call.wantEvent); }
    } else if call.MapBuffer? {
      MapLogged(s, t, call);
    } else if call.UnmapBuffer? {
      UnmapLogged(s, t, call);
    } else if call.Drop? || call.AwaitEvent? || call.SetInGroup? {
      HandOverLogged(s, t, call);
    } else if call.NewDeviceBuffer? || call.NewQueue? {
      BeginningLogged(s, t, call);
    } else if call.Retain? || call.GetSlot? {
      RetainLogged(s, t, call);
    } else if call.AddSlot? {
      AddLogged(s, t, call);
    } else {
      MakingLogged(s, t, call);
    }
  }

  lemma ReleaseLogged(s: State, t: Tid, op: Op, rest: seq<Op>, ok: bool)
    requires OpFaultless(s, t, op) && (op.Release? || op.Free?)
    ensures var s' := ApplyOp(s, t, op, rest, ok); s'.logs == s.logs && s'.workers.Keys == s.workers.Keys
  {
    hide DeathOps, AfterRun, BodyFits, Waiters, Records;
  }

  lemma RunLogged(s: State, t: Tid, op: Op, rest: seq<Op>, ok: bool)
    requires OpFaultless(s, t, op) && (op.Run? || op.Complete?)
    ensures var s' := ApplyOp(s, t, op, rest, ok); s'.logs == s.logs && s'.workers.Keys == s.workers.Keys
  {
    hide DeathOps, AfterRun, BodyFits, Waiters, Records;
  }

  lemma DestroyLogged(s: State, t: Tid, op: Op, rest: seq<Op>, ok: bool)
    requires OpFaultless(s, t, op) && (op.Destroy?)
    ensures var s' := ApplyOp(s, t, op, rest, ok); s'.logs == s.logs && s'.workers.Keys == s.workers.Keys
  {
    hide DeathOps, AfterRun, BodyFits, Waiters, Records;
  }

  lemma ClientOpLogged(s: State, t: Tid, op: Op, rest: seq<Op>, ok: bool)
    requires OpFaultless(s, t, op) && (op.Wait? || op.SetSlot? || op.FinishBuffer?)
    ensures var s' := ApplyOp(s, t, op, rest, ok); s'.logs == s.logs && s'.workers.Keys == s.workers.Keys
  {
    hide DeathOps, AfterRun, BodyFits, Waiters, Records;
  }

  lemma QuietOpLogged(s: State, t: Tid, op: Op, rest: seq<Op>, ok: bool)
    requires OpFaultless(s, t, op) && !op.Push? && !op.FinishQueue?
    ensures var s' := ApplyOp(s, t, op, rest, ok); s'.logs == s.logs && s'.workers.Keys == s.workers.Keys
  {
    hide ApplyOp, OpFaultless;
    if op.Release? || op.Free? { ReleaseLogged(s, t, op, rest, ok); }
    else if op.Run? || op.Complete? { RunLogged(s, t, op, rest, ok); }
    else if op.Destroy? { DestroyLogged(s, t, op, rest, ok); }
    else { ClientOpLogged(s, t, op, rest, ok); }
  }

  lemma OpLogged(s: State, t: Tid, ok: bool, q: Id)
    requires Guard(s, Exec(t, ok)) && Faultless(s, Exec(t, ok)) && (q in s.workers ==> q.n < s.next)
    ensures Logged(s, Exec(t, ok), Apply(s, Exec(t, ok)), q)
  {
    var op, rest := Ops(s, t)[0], Ops(s, t)[1..];
    if !op.Push? && !op.FinishQueue? {
      hide ApplyOp, OpFaultless;
      QuietOpLogged(s, t, op, rest, ok);
      assert q in s.workers.Keys <==> q in Apply(s, Exec(t, ok)).workers.Keys;
    } else {
      hide DeathOps, AfterRun, BodyFits, Records, Waiters;
      WriteOpLogged(s, t, op, rest, ok, q);
    }
  }

  lemma WriteOpLogged(s: State, t: Tid, op: Op, rest: seq<Op>, ok: bool, q: Id)
    requires OpFaultless(s, t, op) && (op.Push? || op.FinishQueue?) && (q in s.workers ==> q.n < s.next)
    ensures var s' := ApplyOp(s, t, op, rest, ok);
            if Pushes(op, q) then
              q in s.logs && q in s'.logs && s'.logs[q].pushed == s.logs[q].pushed + [op.r] && s'.workers == s.workers
            else
              && (q in s.workers ==> q in s'.workers && (q in s.logs ==> q in s'.logs && s'.logs[q].pushed == s.logs[q].pushed))
              && (q !in s.workers && q in s'.workers ==> q in s'.logs && s'.logs[q].pushed == [])
  {
    hide BodyFits;
  }

  lemma WorkerLogged(s: State, step: Step, q: Id)
    requires Guard(s, step) && Faultless(s, step) && !step.Begin? && !step.Exec?
    ensures Logged(s, step, Apply(s, step), q)
  {
  }

  lemma WorkerNamed(s: State, q: Id)
    requires Inv(s) && q in s.workers
    ensures q.n < s.next
  {
    assert WorkerOk(s, q);
  }

  lemma StepLogged(s: State, step: Step, q: Id)
    requires Inv(s) && Guard(s, step) && Faultless(s, step)
    ensures Logged(s, step, Apply(s, step), q)
  {
    if q in s.workers { WorkerNamed(s, q); }
    hide Inv, ApplyCall, ApplyOp, MayCall, CallFaultless, OpFaultless;
    if step.Begin? {
      CallLogged(s, step.t, step.call);
    } else if step.Exec? {
      OpLogged(s, step.t, step.ok, q);
    } else {
      WorkerLogged(s, step, q);
    }
  }

  // What a thread is about to push after a step.
  lemma ComingAfter(s: State, step: Step, u: Tid, q: Id)
    requires Inv(s) && Guard(s, step) && Faultless(s, step)
    ensures var ops, ops' := Ops(s, u), Ops(Apply(s, step), u);
            if step.Begin? && step.t == u && step.call.Enqueue? && step.call.q == q && step.call.ok then
              ops == [] && Coming(ops', q) == [Asked(step.call.group, step.call.wantEvent)]
            else if step.Exec? && step.t == u && Pushes(ops[0], q) then
              ops' == ops[1..]
            else
              && Coming(ops', q) == Coming(ops, q)
              && ((forall op <- ops :: !Pushes(op, q)) ==> forall op <- ops' :: !Pushes(op, q))
  {
    hide Inv, ApplyCall, ApplyOp, OpFaultless, MayCall, CallFaultless, Gain, OpOps;
    if !By(step, u) {
      OpsUntouched(s, step, u);
    } else if step.Begin? {
      CallComes(s, u, step.call, q);
    } else if step.Exec? {
      OpShape(s, u, step.ok);
      OpComes(s, u, step.ok, q);
      ComingNone(OpOps(s, u, Ops(s, u)[0], step.ok), Ops(s, u)[1..], q);
    } else {
      WorkerComes(s, step, q);
    }
  }

  lemma CallComes(s: State, t: Tid, call: Call, q: Id)
    requires Guard(s, Begin(t, call)) && Faultless(s, Begin(t, call))
    ensures var ops' := Ops(ApplyCall(s, t, call), t);
            if call.Enqueue? && call.q == q && call.ok then Coming(ops', q) == [Asked(call.group, call.wantEvent)]
            else Coming(ops', q) == [] && forall op <- ops' :: !Pushes(op, q)
  {
    hide ApplyCall, MayCall, CallFaultless;
    CallLeaves(s, t, call);
    var ops := CallOps(s, call);
    if ops.Some? { assert |ops.value| == 1 && ops.value[1..] == []; }
  }

  lemma OpComes(s: State, t: Tid, ok: bool, q: Id)
    requires Guard(s, Exec(t, ok)) && Faultless(s, Exec(t, ok))
    ensures forall o <- OpOps(s, t, Ops(s, t)[0], ok) :: !o.Push?
    ensures Ops(s, t)[0].Push? ==> OpOps(s, t, Ops(s, t)[0], ok) == []
  {
    hide BodyFits;
  }

  lemma WorkerComes(s: State, step: Step, q: Id)
    requires Inv(s) && Guard(s, step) && Faultless(s, step) && (step.Take? || step.Return?)
    ensures var w := Worker(step.q); Coming(Ops(Apply(s, step), w), q) == Coming(Ops(s, w), q)
    ensures var w := Worker(step.q);
            (forall op <- Ops(s, w) :: !Pushes(op, q)) ==> forall op <- Ops(Apply(s, step), w) :: !Pushes(op, q)
  {
    hide Coming, Inv;
    var w := Worker(step.q);
    if step.Take? { WorkerIdle(s, step.q); }
    TakenOps(s, step);
    if Ops(Apply(s, step), w) != Ops(s, w) { RunComes(Ops(Apply(s, step), w)[0].r, q); }
  }

  lemma TakenOps(s: State, step: Step)
    requires Guard(s, step) && Faultless(s, step) && (step.Take? || step.Return?) && Ops(s, Worker(step.q)) == []
    ensures var ops, ops' := Ops(s, Worker(step.q)), Ops(Apply(s, step), Worker(step.q));
            ops' == ops || (ops == [] && |ops'| == 1 && ops'[0].Run? && ops'[0].read == None && ops' == [Run(ops'[0].r, None)])
  {
  }

  lemma RunComes(r: Id, q: Id)
    ensures Coming([Run(r, None)], q) == [] == Coming([], q)
  {
    assert [Run(r, None)][1..] == [];
  }

  lemma RequestsConcat(a: seq<Id>, r: Id)
    requires (forall x <- a :: x.Req?) && r.Req?
    ensures Requests(a + [r]) == Requests(a) + [AskedOf(r)]
  {
  }

  // An enqueue, or a push, to a queue that is there.
  lemma QueueThere(s: State, step: Step, q: Id)
    requires Inv(s) && Guard(s, step) && Faultless(s, step) && q.Que?
    requires (step.Begin? && step.call.Enqueue? && step.call.q == q) || (step.Exec? && Pushes(Ops(s, step.t)[0], q))
    ensures q in s.workers
  {
    hide WorkersOk, SleepersOk, Conserved, ThreadsOk;
    assert q in s.heap;
    assert NameOk(s, q);
  }

  lemma QueueStep(s: State, step: Step, t: Tid, q: Id, asked: seq<Asked>)
    requires Inv(s) && Guard(s, step) && Faultless(s, step) && q.Que? && QueueIs(s, t, q, asked)
    requires step.Begin? && Uses(step.call, q) ==> step.t == t
    ensures QueueIs(Apply(s, step), t, q, asked + Asks(StepEvents(s, step, t), q))
  {
    hide Inv, Apply, Faultless, StepEvents, Coming, Requests;
    var s' := Apply(s, step);
    EventsAsk(s, step, t, q);
    StepLogged(s, step, q);
    ComingAfter(s, step, t, q);
    NoComing(q);
    assert asked + [] == asked;
    forall u: Tid | u != t ensures forall op <- Ops(s', u) :: !Pushes(op, q) {
      assert forall op <- Ops(s, u) :: !Pushes(op, q);
      ComingAfter(s, step, u, q);
    }
    if step.Begin? && step.call.Enqueue? && step.call.q == q && step.call.ok {
      QueueThere(s, step, q);
    } else if step.Exec? && Pushes(Ops(s, step.t)[0], q) {
      QueueThere(s, step, q);
      var ops := Ops(s, step.t);
      assert ops[0] in ops;
      ComingFirst(ops, q);
      RequestsConcat(s.logs[q].pushed, ops[0].r);
    } else {
      NoRequests();
    }
  }

  lemma NoComing(q: Id)
    ensures Coming([], q) == []
  {
  }

  lemma NoRequests()
    ensures Requests([]) == []
  {
  }

  lemma ComingFirst(ops: seq<Op>, q: Id)
    requires ops != [] && Pushes(ops[0], q)
    ensures Coming(ops, q) == [AskedOf(ops[0].r)] + Coming(ops[1..], q)
  {
  }

  // To a queue that a client makes, and nobody else enqueues to, is pushed what the client's calls have asked for.
  lemma {:induction false} QueueIsAsks(run: seq<State>, steps: seq<Step>, t: Tid, q: Id)
    requires Stretch(run, steps) && Reachable(run[0]) && q.Que? && q.n >= run[0].next && Private(steps, t, q)
    requires forall u: Tid :: Ops(run[0], u) == []
    ensures Reachable(run[|steps|]) && QueueIs(run[|steps|], t, q, Asks(Trace(run, steps, t), q))
    decreases |steps|
  {
    hide Reachable, Guard, Faultless, Apply, QueueIs, StepEvents, Asks, Inv;
    if steps == [] {
      NewQueue0(run[0], t, q);
    } else {
      var n := |steps| - 1;
      QueueIsAsks(run[..n + 1], steps[..n], t, q);
      var s := run[n];
      assert run[n + 1] == Apply(s, steps[n]);
      ReachableInv(s);
      Onward(s, steps[n]);
      QueueStep(s, steps[n], t, q, Asks(Trace(run[..n + 1], steps[..n], t), q));
      AsksConcat(Trace(run[..n + 1], steps[..n], t), StepEvents(s, steps[n], t), q);
    }
  }

  lemma NewQueue0(s: State, t: Tid, q: Id)
    requires Reachable(s) && q.n >= s.next && forall u: Tid :: Ops(s, u) == []
    ensures QueueIs(s, t, q, Asks([], q))
  {
    hide Reachable, Inv;
    ReachableInv(s);
    if q in s.workers { WorkerNamed(s, q); }
  }

  // ---- the command ----

  // A command that got its memory, group and queue, with every buffer created and added and the request accepted.
  ghost predicate Accepted(specs: seq<BufferSpec>, a: Answers) {
    && a.memory && a.group.Some? && a.queue.Some? && a.event.Some?
    && forall j :: 0 <= j < |specs| ==> Well(a, j)
  }

  // The buffers created, in the caller's order.
  ghost predicate AreBuffers(slots: seq<Id>, specs: seq<BufferSpec>, a: Answers)
    requires Accepted(specs, a)
  {
    |slots| == |specs| && forall j :: 0 <= j < |specs| ==> slots[j] == BufOf(a, j)
  }

  lemma LogNext(log: seq<Event>, m: nat, id: Id)
    requires m < |log|
    ensures var e := log[m];
            Adds(log[..m + 1], id)
            == Adds(log[..m], id) + (if e.Called? && e.call.AddSlot? && e.call.g == id && e.call.ok then [e.call.b] else [])
    ensures var e := log[m];
            Asks(log[..m + 1], id)
            == Asks(log[..m], id) + (if e.Called? && e.call.Enqueue? && e.call.q == id && e.call.ok
                                     then [Asked(e.call.group, e.call.wantEvent)] else [])
  {
    assert log[..m + 1][..m] == log[..m];
  }

  lemma {:induction false} AddsUpTo(log: seq<Event>, d: Id, specs: seq<BufferSpec>, a: Answers, j: nat)
    requires Accepted(specs, a) && Whole(log, d, specs, a) && j <= |specs|
    ensures |Adds(log[..4 + 3 * j], a.group.value)| == j
    ensures forall i :: 0 <= i < j ==> Adds(log[..4 + 3 * j], a.group.value)[i] == BufOf(a, i)
  {
    hide Adds, Asks, BufOf, OnlyAt, EndsWith;
    var g := a.group.value;
    if j == 0 {
      LogNext(log, 0, g);
      LogNext(log, 1, g);
      LogNext(log, 2, g);
      LogNext(log, 3, g);
      NothingYet(log[..0], g);
    } else {
      AddsUpTo(log, d, specs, a, j - 1);
      assert AddedAt(log, 4 + 3 * (j - 1), d, g, specs[j - 1], BufOf(a, j - 1));
      LogNext(log, 1 + 3 * j, g);
      LogNext(log, 2 + 3 * j, g);
      LogNext(log, 3 + 3 * j, g);
    }
  }

  lemma NothingYet(log: seq<Event>, id: Id)
    requires log == []
    ensures Adds(log, id) == [] && Asks(log, id) == []
  {
  }

  // Behind the buffers nothing is added.
  lemma AddsNothing(log: seq<Event>, d: Id, specs: seq<BufferSpec>, a: Answers, m: nat)
    requires Accepted(specs, a) && Whole(log, d, specs, a) && 4 + 3 * |specs| <= m < |log|
    ensures log[m].Called? ==> !log[m].call.AddSlot?
  {
    var at := 8 + 3 * |specs|;
    if at < m < at + 1 + |specs| { assert log[at + 1 + (m - at - 1)] == Called(Drop(BufOf(a, m - at - 1))); }
  }

  lemma {:induction false} AddsOfCommand(log: seq<Event>, d: Id, specs: seq<BufferSpec>, a: Answers, m: nat)
    requires Accepted(specs, a) && Whole(log, d, specs, a) && 4 + 3 * |specs| <= m <= |log|
    ensures AreBuffers(Adds(log[..m], a.group.value), specs, a)
  {
    hide Adds, Asks, Whole;
    if m == 4 + 3 * |specs| {
      AddsUpTo(log, d, specs, a, |specs|);
    } else {
      AddsOfCommand(log, d, specs, a, m - 1);
      AddsNothing(log, d, specs, a, m - 1);
      LogNext(log, m - 1, a.group.value);
    }
  }

  lemma {:induction false} AsksOfCommand(log: seq<Event>, d: Id, specs: seq<BufferSpec>, a: Answers, m: nat)
    requires Accepted(specs, a) && Whole(log, d, specs, a) && m <= |log|
    ensures Asks(log[..m], a.queue.value) == if m > 4 + 3 * |specs| then [Asked(a.group, true)] else []
  {
    hide Adds, Asks, BeginsWith, EndsWith;
    if m == 0 {
      NothingYet(log[..0], a.queue.value);
    } else {
      AsksOfCommand(log, d, specs, a, m - 1);
      LogNext(log, m - 1, a.queue.value);
      assert EnqueuesAt(log, m - 1) ==> m - 1 == 4 + 3 * |specs|;
    }
  }

  lemma {:induction false} TracePrefix(run: seq<State>, steps: seq<Step>, t: Tid, k: nat)
    requires Stretch(run, steps) && k <= |steps|
    ensures Stretch(run[..k + 1], steps[..k])
    ensures Trace(run[..k + 1], steps[..k], t) <= Trace(run, steps, t)
    decreases |steps|
  {
    hide Guard, Faultless, Apply, StepEvents;
    var n := |steps| - 1;
    if k == |steps| {
      assert run[..k + 1] == run && steps[..k] == steps;
    } else {
      TracePrefix(run[..n + 1], steps[..n], t, k);
      assert run[..n + 1][..k + 1] == run[..k + 1] && steps[..n][..k] == steps[..k];
    }
  }

  // Group and queue of the command are new.
  lemma CommandNames(run: seq<State>, steps: seq<Step>, t: Tid, d: Id, specs: seq<BufferSpec>, a: Answers)
    requires Sends(run, steps, t, d, specs, a) && Reachable(run[0]) && Quiet(run[0]) && Accepted(specs, a)
    ensures Whole(Trace(run, steps, t), d, specs, a)
    ensures a.group.value.Grp? && a.queue.value.Que?
    ensures a.group.value.n >= run[0].next && a.queue.value.n >= run[0].next
  {
    hide Reachable, Guard, Faultless, Apply, CommandLog, Trace, Ops, Well;
    WholeLayout(d, specs, a);
    TraceFits(run, steps, t);
    var log := Trace(run, steps, t);
    assert log[1] == Got(a.group.value) && log[3] == Got(a.queue.value);
    CommandFresh(run, steps, t, d, specs, a, a.group.value);
    CommandFresh(run, steps, t, d, specs, a, a.queue.value);
  }

  // What the run looks like after k of its steps.
  lemma CommandSoFar(run: seq<State>, steps: seq<Step>, t: Tid, d: Id, specs: seq<BufferSpec>, a: Answers, k: nat)
    requires Sends(run, steps, t, d, specs, a) && Reachable(run[0]) && Quiet(run[0]) && Accepted(specs, a)
    requires Private(steps, t, a.group.value) && Private(steps, t, a.queue.value) && k <= |steps|
    ensures Stretch(run[..k + 1], steps[..k])
    ensures var log := Trace(run[..k + 1], steps[..k], t);
            && Reachable(run[k]) && QueueIs(run[k], t, a.queue.value, Asks(log, a.queue.value))
            && GroupIs(run[k], a.group.value, Adds(log, a.group.value))
            && Asks(log, a.queue.value) == (if |log| > 4 + 3 * |specs| then [Asked(a.group, true)] else [])
            && (|log| > 4 + 3 * |specs| ==> AreBuffers(Adds(log, a.group.value), specs, a))
  {
    hide Reachable, Guard, Faultless, Apply, CommandLog, Trace, Well, Whole, QueueIs, GroupIs, Adds, Asks, AreBuffers;
    var g, q := a.group.value, a.queue.value;
    CommandNames(run, steps, t, d, specs, a);
    TracePrefix(run, steps, t, k);
    var full, log := Trace(run, steps, t), Trace(run[..k + 1], steps[..k], t);
    assert log == full[..|log|];
    GroupIsAdds(run[..k + 1], steps[..k], t, g);
    QueueIsAsks(run[..k + 1], steps[..k], t, q);
    AsksOfCommand(full, d, specs, a, |log|);
    if |log| > 4 + 3 * |specs| { AddsOfCommand(full, d, specs, a, |log|); }
  }

  // Wherever a client makes the calls of a command in a run, and nobody else uses its group and queue, exactly one
  // request is pushed to the queue, and it asks for the group and an event.
  lemma CommandIsPushedOnce(run: seq<State>, steps: seq<Step>, t: Tid, d: Id, specs: seq<BufferSpec>, a: Answers)
    requires Sends(run, steps, t, d, specs, a) && Reachable(run[0]) && Quiet(run[0]) && Accepted(specs, a)
    requires Private(steps, t, a.group.value) && Private(steps, t, a.queue.value) && Ops(run[|steps|], t) == []
    ensures var q, s := a.queue.value, run[|steps|];
            && q in s.logs && |s.logs[q].pushed| == 1
            && (var r := s.logs[q].pushed[0]; r.Req? && r.target == q && r.group == a.group && r.event.Some?)
  {
    hide Reachable, Guard, Faultless, Apply, CommandLog, Trace, Well, GroupIs, Adds, Asks, AreBuffers, Inv, Coming;
    var q, n := a.queue.value, |steps|;
    CommandNames(run, steps, t, d, specs, a);
    CommandSoFar(run, steps, t, d, specs, a, n);
    assert run[..n + 1] == run && steps[..n] == steps;
    NoComing(q);
    OnlyRequest(run[n], q, a.group);
  }

  lemma OnlyRequest(s: State, q: Id, group: Option<Id>)
    requires Reachable(s) && q in s.workers && q in s.logs && (forall r <- s.logs[q].pushed :: r.Req?)
    requires Requests(s.logs[q].pushed) + [] == [Asked(group, true)]
    ensures |s.logs[q].pushed| == 1
    ensures var r := s.logs[q].pushed[0]; r.Req? && r.target == q && r.group == group && r.event.Some?
  {
    hide Reachable, Inv;
    var rs := s.logs[q].pushed;
    assert Requests(rs) == [Asked(group, true)];
    assert Requests(rs)[0] == AskedOf(rs[0]);
    PushedTarget(s, q, rs[0]);
  }

  lemma PushedTarget(s: State, q: Id, r: Id)
    requires Reachable(s) && q in s.workers && q in s.logs && r in s.logs[q].pushed
    ensures r.Req? && r.target == q
  {
    hide Reachable, Conserved, ThreadsOk, SleepersOk, NamesOk;
    ReachableInv(s);
    assert WorkerOk(s, q) && LogOk(s, q);
  }

  // The request that a worker has in hand has been pushed to its queue.
  lemma InHandPushed(s: State, u: Tid, r: Id)
    requires Reachable(s) && Ops(s, u) != [] && Ops(s, u)[0] == Run(r, None)
    ensures r.Req? && u == Worker(r.target) && r.target in s.workers && r.target in s.logs
            && r in s.logs[r.target].pushed
  {
    hide Reachable, Conserved, SleepersOk, NamesOk;
    ReachableInv(s);
    assert Ops(s, u)[0] in Ops(s, u);
    assert ThreadOk(s, u) && OpOk(s, u, Run(r, None));
    var q := r.target;
    assert WorkerOk(s, q) && LogOk(s, q);
    var front := s.logs[q].done + InFlight(s.workers[q]);
    assert front[|s.logs[q].done|] == r && front[|s.logs[q].done|] == s.logs[q].pushed[|s.logs[q].done|];
  }

  // What the worker takes to the DSP for that request are the caller's buffers, one for each, in order.
  lemma DspGetsTheBuffers(run: seq<State>, steps: seq<Step>, t: Tid, d: Id, specs: seq<BufferSpec>, a: Answers, k: nat, r: Id)
    requires Sends(run, steps, t, d, specs, a) && Reachable(run[0]) && Quiet(run[0]) && Accepted(specs, a)
    requires Private(steps, t, a.group.value) && Private(steps, t, a.queue.value)
    requires k < |steps| && steps[k].Exec? && Ops(run[k], steps[k].t)[0] == Run(r, None) && r.Req?
             && r.target == a.queue.value
    ensures r.group == a.group && AreBuffers(Records(run[k], r), specs, a)
  {
    hide Reachable, Apply, CommandLog, Trace, Well, Adds, Asks, AreBuffers, Inv, Coming;
    var g, q := a.group.value, a.queue.value;
    var s := run[k];
    CommandSoFar(run, steps, t, d, specs, a, k);
    InHandPushed(s, steps[k].t, r);
    InRequests(s.logs[q].pushed, r);
    assert AskedOf(r) in Asks(Trace(run[..k + 1], steps[..k], t), q);
    assert r.group == a.group;
    assert Live(s, g);
  }

  lemma InRequests(rs: seq<Id>, r: Id)
    requires (forall x <- rs :: x.Req?) && r in rs
    ensures AskedOf(r) in Requests(rs)
  {
    var i :| 0 <= i < |rs| && rs[i] == r;
    assert Requests(rs)[i] == AskedOf(r);
  }
}
