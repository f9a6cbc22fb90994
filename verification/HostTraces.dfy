// What one client sees of a run of the XRP host library: the calls it makes and the references it is given.
module HostTraces {
  import opened Bags
  import opened HostObjects
  import opened HostSteps
  import opened HostInvariant
  import opened HostTheorems
  import opened HostLedger
  import opened HostFrames
  import opened HostProgress
  import opened HostNeutral

  datatype Event = Called(call: Call) | Got(id: Id)

  predicate Acts(step: Step, t: Tid) {
    (step.Begin? || step.Exec?) && step.t == t
  }

  ghost function StepEvents(s: State, step: Step, t: Tid): seq<Event>
    requires Guard(s, step) && Faultless(s, step)
  {
    if !Acts(step, t) then [] else
      (if step.Begin? then [Called(step.call)] else [])
      + (if Gain(s, step).Some? then [Got(Gain(s, step).value)] else [])
  }

  // The calls of thread t during a stretch, and what it was given.
  ghost function Trace(run: seq<State>, steps: seq<Step>, t: Tid): seq<Event>
    requires Stretch(run, steps)
  {
    if steps == [] then [] else
      var n := |steps| - 1;
      Trace(run[..n + 1], steps[..n], t) + StepEvents(run[n], steps[n], t)
  }

  // ---- accounts ----

  // How often the log says that id was given to the client, or given up by it.
  function Given(log: seq<Event>, id: Id): nat {
    if log == [] then 0 else (if log[0] == Got(id) then 1 else 0) + Given(log[1..], id)
  }

  function GivenUp(log: seq<Event>, id: Id): nat {
    if log == [] then 0 else (if log[0] == Called(Drop(id)) then 1 else 0) + GivenUp(log[1..], id)
  }

  lemma {:induction false} LogConcat(a: seq<Event>, b: seq<Event>, id: Id)
    ensures Given(a + b, id) == Given(a, id) + Given(b, id) && GivenUp(a + b, id) == GivenUp(a, id) + GivenUp(b, id)
  {
    if a == [] {
      assert a + b == b;
    } else {
      LogConcat(a[1..], b, id);
      assert (a + b)[1..] == a[1..] + b;
    }
  }

  lemma LogOne(e: Event, id: Id)
    ensures Given([e], id) == if e == Got(id) then 1 else 0
    ensures GivenUp([e], id) == if e == Called(Drop(id)) then 1 else 0
  {
    assert [e][1..] == [];
  }

  // How often the clients other than t were given id, and gave it up.
  ghost function OthersGiven(run: seq<State>, steps: seq<Step>, t: Tid, id: Id): nat
    requires Stretch(run, steps)
  {
    if steps == [] then 0 else
      var n := |steps| - 1;
      OthersGiven(run[..n + 1], steps[..n], t, id) + (if Acts(steps[n], t) then 0 else Count(Gain(run[n], steps[n]), id))
  }

  ghost function OthersGivenUp(steps: seq<Step>, t: Tid, id: Id): nat {
    if steps == [] then 0 else
      var n := |steps| - 1;
      OthersGivenUp(steps[..n], t, id) + (if Acts(steps[n], t) then 0 else Count(Loss(steps[n]), id))
  }

  lemma StepAccounts(s: State, step: Step, t: Tid, id: Id)
    requires Guard(s, step) && Faultless(s, step)
    ensures Given(StepEvents(s, step, t), id) == if Acts(step, t) then Count(Gain(s, step), id) else 0
    ensures GivenUp(StepEvents(s, step, t), id) == if Acts(step, t) then Count(Loss(step), id) else 0
  {
    hide Gain, Guard, Faultless;
    var called := if Acts(step, t) && step.Begin? then [Called(step.call)] else [];
    var got := if Acts(step, t) && Gain(s, step).Some? then [Got(Gain(s, step).value)] else [];
    assert StepEvents(s, step, t) == called + got;
    LogConcat(called, got, id);
    if called != [] { LogOne(called[0], id); }
    if got != [] { LogOne(got[0], id); }
  }

  lemma SingleCount(m: multiset<Id>, o: Option<Id>, id: Id)
    ensures (m + Single(o))[id] == m[id] + Count(o, id)
  {
  }

  // What clients are given is what t is given and what the others are given.
  lemma {:induction false} TraceAccounts(run: seq<State>, steps: seq<Step>, t: Tid, id: Id)
    requires Stretch(run, steps)
    ensures Gains(run, steps)[id] == Given(Trace(run, steps, t), id) + OthersGiven(run, steps, t, id)
    ensures Losses(steps)[id] == GivenUp(Trace(run, steps, t), id) + OthersGivenUp(steps, t, id)
    decreases |steps|
  {
    hide Gain, Loss, Guard, Faultless, Apply, StepEvents, Given, GivenUp, Acts, Count, Single;
    if steps == [] {
      NoneGiven(id);
    } else {
      var n := |steps| - 1;
      TraceAccounts(run[..n + 1], steps[..n], t, id);
      StepAccounts(run[n], steps[n], t, id);
      LogConcat(Trace(run[..n + 1], steps[..n], t), StepEvents(run[n], steps[n], t), id);
      SingleCount(Gains(run[..n + 1], steps[..n]), Gain(run[n], steps[n]), id);
      SingleCount(Losses(steps[..n]), Loss(steps[n]), id);
    }
  }

  lemma NoneGiven(id: Id)
    ensures Given([], id) == 0 && GivenUp([], id) == 0
  {
  }

  // ---- calls ----

  lemma {:induction false} CallsTraced(run: seq<State>, steps: seq<Step>, t: Tid, k: nat)
    requires Stretch(run, steps) && k < |steps| && steps[k].Begin? && steps[k].t == t
    ensures Called(steps[k].call) in Trace(run, steps, t)
    decreases |steps|
  {
    hide Gain, Guard, Faultless, Apply;
    var n := |steps| - 1;
    if k < n {
      CallsTraced(run[..n + 1], steps[..n], t, k);
    } else {
      assert Called(steps[k].call) in StepEvents(run[n], steps[n], t);
    }
  }

  // ---- what a client is given is new and fits its call ----

  // The call may return an object that existed before.
  predicate MayReturnOld(call: Call) {
    call.Retain? || call.GetSlot?
  }

  lemma GainIsNew(s: State, step: Step)
    requires Guard(s, step) && Faultless(s, step) && Gain(s, step).Some? && (step.Begin? ==> !MayReturnOld(step.call))
    ensures Gain(s, step).value.n == s.next
  {
  }

  lemma {:induction false} NextGrows(run: seq<State>, steps: seq<Step>, n: nat)
    requires Stretch(run, steps) && Reachable(run[0]) && n <= |steps|
    ensures Reachable(run[n]) && run[0].next <= run[n].next
  {
    hide Inv, Reachable, Guard, Faultless, Apply;
    if n > 0 {
      NextGrows(run, steps, n - 1);
      assert run[n - 1 + 1] == Apply(run[n - 1], steps[n - 1]);
      ReachableInv(run[n - 1]);
      StepFrame(run[n - 1], steps[n - 1], Dev(0));
      Onward(run[n - 1], steps[n - 1]);
    }
  }

  lemma {:induction false} TraceFresh(run: seq<State>, steps: seq<Step>, t: Tid, id: Id)
    requires Stretch(run, steps) && Reachable(run[0]) && Got(id) in Trace(run, steps, t)
    requires forall e <- Trace(run, steps, t) :: e.Called? ==> !MayReturnOld(e.call)
    ensures id.n >= run[0].next
    decreases |steps|
  {
    hide Reachable, Guard, Faultless, Apply, Gain, MayReturnOld;
    var n := |steps| - 1;
    var before := Trace(run[..n + 1], steps[..n], t);
    if Got(id) in before {
      forall e | e in before ensures e in Trace(run, steps, t) { }
      TraceFresh(run[..n + 1], steps[..n], t, id);
    } else {
      assert Got(id) in StepEvents(run[n], steps[n], t);
      if steps[n].Begin? { assert Called(steps[n].call) in Trace(run, steps, t) by { CallsTraced(run, steps, t, n); } }
      GainIsNew(run[n], steps[n]);
      NextGrows(run, steps, n);
    }
  }

  // What a creating call returns, if it returns anything.
  predicate Fits(call: Call, id: Id) {
    match call
    case NewHostBuffer(size) => id == Buf(id.n, None, size)
    case NewDeviceBuffer(d, size) => id == Buf(id.n, Some(d), size)
    case NewQueue(d) => id == Que(id.n, d)
    case NewGroup => id == Grp(id.n)
    case Enqueue(q, _, _, _) => id == Evt(id.n, q)
    case _ => true
  }

  // Everything given follows the call it fits.
  predicate AllFit(log: seq<Event>) {
    forall i :: 0 <= i < |log| && log[i].Got? ==> i > 0 && log[i - 1].Called? && Fits(log[i - 1].call, log[i].id)
  }

  // The call a thread is in while it has this operation to do.
  function CallOf(op: Op): Option<Call> {
    match op
    case FinishBuffer(d, size) => Some(NewDeviceBuffer(d, size))
    case FinishQueue(d) => Some(NewQueue(d))
    case _ => None
  }

  // A creation under way is all its thread has to do, and the last call it made.
  ghost predicate Creating(ops: seq<Op>, log: seq<Event>) {
    forall op <- ops :: CallOf(op).Some? ==> |ops| == 1 && log != [] && log[|log| - 1] == Called(CallOf(op).value)
  }

  lemma OpOpsCreateNothing(s: State, t: Tid, op: Op, ok: bool)
    requires OpFaultless(s, t, op)
    ensures forall o <- OpOps(s, t, op, ok) :: CallOf(o).None?
  {
    hide BodyFits;
    assert op.Wait? ==> CallOf(op).None?;
  }

  lemma ExecFits(s: State, t: Tid, ok: bool, log: seq<Event>)
    requires Guard(s, Exec(t, ok)) && Faultless(s, Exec(t, ok)) && Creating(Ops(s, t), log) && AllFit(log)
    ensures AllFit(log + StepEvents(s, Exec(t, ok), t))
    ensures Creating(Ops(Apply(s, Exec(t, ok)), t), log + StepEvents(s, Exec(t, ok), t))
  {
    hide ApplyOp, OpOps, OpFaultless;
    var op := Ops(s, t)[0];
    OpShape(s, t, ok);
    OpOpsCreateNothing(s, t, op, ok);
    assert CallOf(op).None? ==> StepEvents(s, Exec(t, ok), t) == [];
    assert log + [] == log;
  }

  lemma BeginFits(s: State, t: Tid, call: Call, log: seq<Event>)
    requires Guard(s, Begin(t, call)) && Faultless(s, Begin(t, call)) && AllFit(log)
    ensures AllFit(log + StepEvents(s, Begin(t, call), t))
    ensures Creating(Ops(Apply(s, Begin(t, call)), t), log + StepEvents(s, Begin(t, call), t))
  {
    hide ApplyCall, CallFaultless, MayCall;
    CallLeaves(s, t, call);
    var got := Gain(s, Begin(t, call));
    assert StepEvents(s, Begin(t, call), t) == [Called(call)] + (if got.Some? then [Got(got.value)] else []);
    assert got.Some? ==> Fits(call, got.value);
  }

  lemma {:induction false} TraceFits(run: seq<State>, steps: seq<Step>, t: Tid)
    requires Stretch(run, steps) && Ops(run[0], t) == [] && t.Client?
    ensures AllFit(Trace(run, steps, t)) && Creating(Ops(run[|steps|], t), Trace(run, steps, t))
    decreases |steps|
  {
    hide Guard, Faultless, Apply, Gain, AllFit, Creating, StepEvents, Ops;
    if steps == [] {
      NothingFits();
    } else {
      var n := |steps| - 1;
      var log := Trace(run[..n + 1], steps[..n], t);
      TraceFits(run[..n + 1], steps[..n], t);
      assert run[..n + 1][n] == run[n];
      assert run[n + 1] == Apply(run[n], steps[n]);
      if !By(steps[n], t) {
        OpsUntouched(run[n], steps[n], t);
        NoEvents(run[n], steps[n], t);
        assert log + [] == log;
      } else if steps[n].Begin? {
        BeginFits(run[n], t, steps[n].call, log);
      } else {
        ExecFits(run[n], t, steps[n].ok, log);
      }
    }
  }

  lemma NothingFits()
    ensures AllFit([]) && Creating([], [])
  {
  }

  lemma NoEvents(s: State, step: Step, t: Tid)
    requires Guard(s, step) && Faultless(s, step) && !By(step, t)
    ensures StepEvents(s, step, t) == []
  {
  }
}
