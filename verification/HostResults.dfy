// The status a waiter finds is that of its own command.
module HostResults {
  import opened Bags
  import opened HostObjects
  import opened HostSteps
  import opened HostInvariant
  import opened HostConservation
  import opened HostTheorems
  import opened HostLedger
  import opened HostProgress
  import HostFrames

  // Every completion of e that is under way publishes this result.
  ghost predicate Publishing(s: State, e: Id, result: Status) {
    forall u: Tid :: forall op <- Ops(s, u) :: op.Complete? && op.e == e ==> op.result == result
  }

  // The event has the result, or its worker is about to publish it.
  ghost predicate Reporting(s: State, e: Id, result: Status)
    requires e.Evt?
  {
    && Publishing(s, e, result) && e.n < s.next
    && (e in s.heap ==> s.heap[e].body == Signal(result)
                        || (Pending(s, e) && Complete(e, result) in Ops(s, Worker(e.queue))))
  }

  // A request with this event cannot be under way besides.
  lemma NoOtherRequest(s: State, t: Tid, r: Id, e: Id, result: Status)
    requires Inv(s) && e.Evt? && Reporting(s, e, result) && result != PENDING
    requires Ops(s, t) != [] && Ops(s, t)[0].Run? && Ops(s, t)[0].r == r && r.Req? && OpFaultless(s, t, Ops(s, t)[0])
    ensures r.event != Some(e)
  {
    hide Structured, OpFaultless, Publishing, Sum;
    assert Balanced(s, Owe(e));
    if r.event == Some(e) {
      RunHolds(s, t, r, e);
      CellTallied(s, r, Owe(e));
      assert e in s.heap;
      var w := Worker(e.queue);
      assert Pending(s, e) && Complete(e, result) in Ops(s, w);
      OpsHold(Ops(s, w), Complete(e, result), Owe(e));
      BothTallied(s, r, w, Owe(e));
      assert false;
    }
  }

  // A request in the hands of a worker holds its event's completion.
  lemma RunHolds(s: State, t: Tid, r: Id, e: Id)
    requires Inv(s) && Ops(s, t) != [] && Ops(s, t)[0].Run? && Ops(s, t)[0].r == r && r.Req? && r.event == Some(e)
    requires OpFaultless(s, t, Ops(s, t)[0])
    ensures r in s.heap && CellClaims(r, s.heap[r], Owe(e)) >= 1
  {
    hide Structured, OpFaultless;
    var op := Ops(s, t)[0];
    assert OpClaims(op, Ref(r)) == 1;
    OpTallied(s, t, op, Ref(r));
    RefLive(s, r);
  }

  lemma BothTallied(s: State, k: Id, t: Tid, x: Claim)
    requires k in s.heap && Ops(s, t) != []
    ensures Tally(s, x) >= CellClaims(k, s.heap[k], x) + OpsClaims(Ops(s, t), x)
  {
    SumRemove(s.heap, (id, c) => CellClaims(id, c, x), k);
    SumRemove(s.threads, (u: Tid, ops) => OpsClaims(ops, x), t);
  }

  // ---- one step ----

  lemma CallCompletes(s: State, t: Tid, call: Call)
    requires Guard(s, Begin(t, call)) && Faultless(s, Begin(t, call))
    ensures forall op <- Ops(ApplyCall(s, t, call), t) :: !op.Complete?
  {
    hide ApplyCall, MayCall, CallFaultless, Prepare, Gain, Loss, Parked;
    if call.Enqueue? {
      EnqueueIsPrepare(s, t, call);
      if call.ok { HostLedger.PrepareShape(s, t, call.q, call.group, call.wantEvent); }
    } else {
      OtherCallMatches(s, t, call, Dev(0));
    }
  }

  // Only the end of a command makes a completion due.
  lemma OpCompletes(s: State, t: Tid, op: Op, ok: bool, e: Id)
    requires OpFaultless(s, t, op)
    ensures forall o <- OpOps(s, t, op, ok) :: o.Complete? && o.e == e ==> op.Run? && op.r.Req? && op.r.event == Some(e)
  {
    hide BodyFits;
  }

  lemma PublishingStays(s: State, step: Step, e: Id, result: Status)
    requires Inv(s) && Guard(s, step) && Faultless(s, step) && e.Evt? && Reporting(s, e, result) && result != PENDING
    ensures Publishing(Apply(s, step), e, result)
  {
    hide Inv, ApplyCall, ApplyOp, OpFaultless, MayCall, CallFaultless, OpOps;
    var s' := Apply(s, step);
    forall u: Tid ensures forall op <- Ops(s', u) :: op.Complete? && op.e == e ==> op.result == result {
      assert forall op <- Ops(s, u) :: op.Complete? && op.e == e ==> op.result == result;
      if !By(step, u) {
        OpsUntouched(s, step, u);
      } else if step.Begin? {
        CallCompletes(s, u, step.call);
      } else if step.Exec? {
        var op := Ops(s, u)[0];
        OpShape(s, u, step.ok);
        OpCompletes(s, u, op, step.ok, e);
        if op.Run? && op.r.Req? { NoOtherRequest(s, u, op.r, e, result); }
      } else {
        WorkerCompletes(s, step);
      }
    }
  }

  lemma WorkerCompletes(s: State, step: Step)
    requires Guard(s, step) && Faultless(s, step) && (step.Take? || step.Return?)
    ensures forall op <- Ops(Apply(s, step), Worker(step.q)) :: op.Complete? ==> op in Ops(s, Worker(step.q))
  {
  }

  // The event stays as it is, is freed, or gets the result.
  lemma EventStep(s: State, step: Step, e: Id, result: Status)
    requires Inv(s) && Guard(s, step) && Faultless(s, step) && e.Evt? && e in s.heap && Publishing(s, e, result)
    ensures var s' := Apply(s, step);
            || e !in s'.heap || s'.heap[e].body == Signal(result)
            || (s'.heap[e].body == s.heap[e].body && !(step.Exec? && Ops(s, step.t)[0] == Complete(e, result)))
  {
    hide Inv, ApplyCall, ApplyOp, OpFaultless, MayCall, CallFaultless;
    Fresh(s);
    match step {
      case Begin(t, call) => CallEffects(s, t, call, e);
      case Exec(t, ok) =>
        var op := Ops(s, t)[0];
        assert op in Ops(s, t);
        OpEffects(s, t, op, Ops(s, t)[1..], ok, e);
        if op == Free(e) { FreeRemoves(s, t, e, Ops(s, t)[1..], ok); }
        if op.Complete? && op.e == e { CompleteSets(s, t, e, op.result, Ops(s, t)[1..], ok); }
      case Take(q) => QueueIsQue(s, q);
      case Return(_) =>
      case Wake(_) =>
    }
  }

  lemma CompleteSets(s: State, t: Tid, e: Id, result: Status, rest: seq<Op>, ok: bool)
    requires OpFaultless(s, t, Complete(e, result))
    ensures var s' := ApplyOp(s, t, Complete(e, result), rest, ok); e in s'.heap && s'.heap[e].body == Signal(result)
  {
  }

  // The completion stays to be done until it is done.
  lemma CompletionStays(s: State, step: Step, e: Id, result: Status)
    requires Inv(s) && Guard(s, step) && Faultless(s, step) && e.Evt? && Complete(e, result) in Ops(s, Worker(e.queue))
    ensures Complete(e, result) in Ops(Apply(s, step), Worker(e.queue))
            || (step.Exec? && Ops(s, step.t)[0] == Complete(e, result))
  {
    hide Inv, ApplyCall, ApplyOp, OpFaultless, MayCall, CallFaultless, OpOps;
    var w := Worker(e.queue);
    if !By(step, w) {
      OpsUntouched(s, step, w);
    } else if step.Exec? {
      OpShape(s, w, step.ok);
    } else if step.Take? {
      WorkerIdle(s, e.queue);
    }
  }

  lemma NextStays(s: State, step: Step)
    requires Inv(s) && Guard(s, step) && Faultless(s, step)
    ensures Apply(s, step).next >= s.next
  {
    HostFrames.StepFrame(s, step, Dev(0));
  }

  lemma NoneNamed(s: State, step: Step, e: Id)
    requires Inv(s) && Guard(s, step) && Faultless(s, step) && e.n < s.next && e !in s.heap
    ensures e !in Apply(s, step).heap
  {
    HostFrames.StepFrame(s, step, e);
  }

  lemma ReportStep(s: State, step: Step, e: Id, result: Status)
    requires Inv(s) && Guard(s, step) && Faultless(s, step) && e.Evt? && Reporting(s, e, result) && result != PENDING
    ensures Reporting(Apply(s, step), e, result)
  {
    hide Inv, Apply, Guard, Faultless, Publishing;
    PublishingStays(s, step, e, result);
    NextStays(s, step);
    if e in s.heap {
      EventStep(s, step, e, result);
      if s.heap[e].body != Signal(result) { CompletionStays(s, step, e, result); }
    } else {
      NoneNamed(s, step, e);
    }
  }

  // ---- the end of a command ----

  // While a request is with its worker its event is pending, and no completion of it is due elsewhere.
  lemma NoneDue(s: State, t: Tid, r: Id, e: Id)
    requires Inv(s) && Ops(s, t) != [] && Ops(s, t)[0].Run? && Ops(s, t)[0].r == r && r.Req? && r.event == Some(e)
    requires OpFaultless(s, t, Ops(s, t)[0])
    ensures Pending(s, e) && forall u: Tid :: forall op <- Ops(s, u) :: !(op.Complete? && op.e == e)
  {
    hide Structured, OpFaultless, Sum;
    RunHolds(s, t, r, e);
    CellTallied(s, r, Owe(e));
    assert Balanced(s, Owe(e));
    forall u: Tid ensures forall op <- Ops(s, u) :: !(op.Complete? && op.e == e) {
      forall op | op in Ops(s, u) ensures !(op.Complete? && op.e == e) {
        OpsHold(Ops(s, u), op, Owe(e));
        BothTallied(s, r, u, Owe(e));
      }
    }
  }

  lemma RunnerIs(s: State, t: Tid, r: Id, e: Id)
    requires Inv(s) && Ops(s, t) != [] && Ops(s, t)[0].Run? && Ops(s, t)[0].r == r && r.Req? && r.event == Some(e)
    ensures e.Evt? && t == Worker(e.queue) && e.n < s.next && Ops(s, t) == [Ops(s, t)[0]]
  {
    hide Conserved, NamesOk, WorkersOk, SleepersOk;
    assert Ops(s, t)[0] in Ops(s, t);
    assert ThreadOk(s, t) && OpOk(s, t, Ops(s, t)[0]);
  }

  lemma EndOps(r: Id, result: Status, e: Id)
    requires r.Req? && r.event == Some(e)
    ensures Complete(e, result) in AfterRun(r, result)
    ensures forall op <- AfterRun(r, result) :: op.Complete? ==> op == Complete(e, result)
  {
    var front := if r.group.Some? then [Release(r.group.value)] else [];
    assert AfterRun(r, result)[|front|] == Complete(e, result);
  }

  // The end of a command leaves its worker to publish how it ended.
  lemma CommandReports(s: State, t: Tid, r: Id, ok: bool, e: Id)
    requires Inv(s) && Guard(s, Exec(t, ok)) && Faultless(s, Exec(t, ok))
    requires Ops(s, t)[0].Run? && Ops(s, t)[0].r == r && Ops(s, t)[0].read.Some? && r.Req? && r.event == Some(e)
    ensures e.Evt? && Reporting(Apply(s, Exec(t, ok)), e, if ok then SUCCESS else FAILURE)
  {
    hide Inv, ApplyOp, AfterRun, OpFaultless;
    var s', result := Apply(s, Exec(t, ok)), if ok then SUCCESS else FAILURE;
    var op := Ops(s, t)[0];
    NoneDue(s, t, r, e);
    RunnerIs(s, t, r, e);
    EndOps(r, result, e);
    OpShape(s, t, ok);
    Fresh(s);
    OpEffects(s, t, op, [], ok, e);
    NextStays(s, Exec(t, ok));
    assert Ops(s', t) == AfterRun(r, result) + [] == AfterRun(r, result);
    forall u: Tid ensures forall o <- Ops(s', u) :: o.Complete? && o.e == e ==> o.result == result {
      if u != t { OpsUntouched(s, Exec(t, ok), u); }
    }
  }

  lemma {:induction false} ReportsOn(run: seq<State>, steps: seq<Step>, e: Id, result: Status)
    requires Stretch(run, steps) && Reachable(run[0]) && e.Evt? && Reporting(run[0], e, result) && result != PENDING
    ensures Reachable(run[|steps|]) && Reporting(run[|steps|], e, result)
    decreases |steps|
  {
    hide Reachable, Guard, Faultless, Apply, Reporting, Inv;
    if steps != [] {
      var n := |steps| - 1;
      ReportsOn(run[..n + 1], steps[..n], e, result);
      assert run[n + 1] == Apply(run[n], steps[n]);
      ReachableInv(run[n]);
      Onward(run[n], steps[n]);
      ReportStep(run[n], steps[n], e, result);
    }
  }

  // Whoever finds the event of a command completed, however much later, finds the status the command ended with.
  lemma StatusIsTheCommands(run: seq<State>, steps: seq<Step>, t: Tid, r: Id, ok: bool, e: Id)
    requires Stretch(run, steps) && Reachable(run[0]) && steps != [] && steps[0] == Exec(t, ok)
    requires Ops(run[0], t)[0].Run? && Ops(run[0], t)[0].r == r && Ops(run[0], t)[0].read.Some?
    requires r.Req? && r.event == Some(e)
    ensures e in run[|steps|].heap && !Pending(run[|steps|], e) ==>
              run[|steps|].heap[e].body == Signal(if ok then SUCCESS else FAILURE)
  {
    hide Reachable, Faultless, Apply, Inv;
    assert Guard(run[0], steps[0]) && Faultless(run[0], steps[0]) && run[0 + 1] == Apply(run[0], steps[0]);
    ReachableInv(run[0]);
    Onward(run[0], steps[0]);
    CommandReports(run[0], t, r, ok, e);
    LaterStretch(run, steps);
    ReportsOn(run[1..], steps[1..], e, if ok then SUCCESS else FAILURE);
  }

  lemma LaterStretch(run: seq<State>, steps: seq<Step>)
    requires Stretch(run, steps) && steps != []
    ensures Stretch(run[1..], steps[1..])
  {
    hide Guard, Faultless, Apply;
    forall i | 0 <= i < |steps[1..]|
      ensures Guard(run[1..][i], steps[1..][i]) && Faultless(run[1..][i], steps[1..][i])
              && run[1..][i + 1] == Apply(run[1..][i], steps[1..][i])
    {
      assert Guard(run[i + 1], steps[i + 1]) && run[i + 1 + 1] == Apply(run[i + 1], steps[i + 1]);
    }
  }
}
