// The invariant of the XRP host over all runs.
module HostRuns {
  import opened Bags
  import opened HostObjects
  import opened HostSteps
  import opened HostInvariant
  import opened HostConservation
  import opened HostStructure
  import opened HostOperations

  // ---- the worker's own steps ----

  ghost predicate Taken(s: State, s': State, q: Id) {
    && q in s.heap && s.heap[q].body.Fifo? && s.heap[q].body.pending != []
    && var fifo := s.heap[q].body;
       s' == Doing(s.(heap := s.heap[q := s.heap[q].(body := Fifo(fifo.pending[1..], fifo.exit))],
                      workers := s.workers[q := WorkerState(Busy(fifo.pending[0]), false)]),
                   Worker(q), [Run(fifo.pending[0], None)])
  }

  lemma TakenShape(s: State, s': State, q: Id)
    requires Taken(s, s', q) && q in s.workers && s.workers[q].pc.Looping?
    ensures OnlyWorker(s, s', q)
  {
  }

  lemma TakenNames(s: State, s': State, q: Id)
    requires NamesOk(s) && Taken(s, s', q) && q.Que?
    ensures NamesOk(s')
  {
    assert NameOk(s, q);
    WriteNamesByOp(s, s', q);
  }

  lemma TakenLog(s: State, s': State, q: Id)
    requires Taken(s, s', q) && q in s.workers && s.workers[q].pc.Looping? && Ops(s, Worker(q)) == []
    requires WorkerOk(s, q) && LogOk(s, q) && OnlyWorker(s, s', q) && s'.logs == s.logs
    ensures WorkerOk(s', q) && LogOk(s', q)
    ensures ReqOk(s', q, s.heap[q].body.pending[0])
  {
    var r := s.heap[q].body.pending[0];
    var log := s.logs[q];
    assert Untaken(s, q)[0] == log.pushed[|log.done|];
    assert log.done + [r] == log.pushed[..|log.done| + 1];
    assert log.pushed[|log.done| + 1..] == Untaken(s, q)[1..];
  }

  lemma TakenStructure(s: State, s': State, q: Id)
    requires Inv(s) && q in s.workers && s.workers[q].pc.Looping? && Worker(q) !in s.asleep && q.Que?
    requires Taken(s, s', q) && Conserved(s')
    ensures Structured(s')
  {
    hide Balanced, NamesOk, SleepersOk, Onward, OthersIdle;
    assert Ops(s, Worker(q)) == [] by { WorkerIdle(s, q); }
    TakenNames(s, s', q);
    TakenShape(s, s', q);
    assert WorkerOk(s, q) && LogOk(s, q);
    TakenLog(s, s', q);
    OtherWorkersStay(s, s', q);
    hide WorkersOk;
    assert ThreadOk(s', Worker(q)) by { assert OpOk(s', Worker(q), Run(s.heap[q].body.pending[0], None)); }
    ThreadsStay(s, s', Worker(q));
    OtherSleepersStay(s, s', q);
  }

  lemma ExitShape(s: State, s': State, q: Id)
    requires q in s.workers && s.workers[q].pc.Looping?
    requires s' == s.(workers := s.workers[q := WorkerState(Exited, false)])
    ensures OnlyWorker(s, s', q)
  {
  }

  lemma ExitStructure(s: State, s': State, q: Id)
    requires Inv(s) && q in s.workers && s.workers[q].pc.Looping? && Worker(q) !in s.asleep && q.Que?
    requires Live(s, q) && s.heap[q].body == Fifo([], true)
    requires s' == s.(workers := s.workers[q := WorkerState(Exited, false)]) && Conserved(s')
    ensures Structured(s')
  {
    hide Balanced, NamesOk, SleepersOk, Onward, OthersIdle;
    assert Ops(s, Worker(q)) == [] by { WorkerIdle(s, q); }
    assert NameOk(s, q) by { UnhideName(s, q); }
    SameNames(s, s');
    ExitShape(s, s', q);
    assert WorkerOk(s, q) && LogOk(s, q);
    OtherWorkersStay(s, s', q);
    ThreadsStay(s, s', Worker(q));
    OtherSleepersStay(s, s', q);
  }

  lemma DozeStructure(s: State, s': State, q: Id)
    requires Inv(s) && q in s.workers && s.workers[q].pc.Looping? && q.Que?
    requires Live(s, q) && s.heap[q].body == Fifo([], false)
    requires s' == s.(asleep := s.asleep + {Worker(q)})
    ensures Structured(s')
  {
    hide Conserved, NamesOk, ThreadsOk, WorkersOk;
    SameNames(s, s');
    SleepThreads(s, s', Worker(q));
    SleepWorkers(s, s', Worker(q));
    forall t2 <- s'.asleep ensures SleeperOk(s', t2) { if t2 != Worker(q) { assert SleeperOk(s, t2); } }
  }

  ghost predicate Returned(s: State, s': State, q: Id) {
    && q in s.workers && s.workers[q].pc.Busy? && q in s.logs
    && var w := s.workers[q];
       s' == s.(workers := s.workers[q := WorkerState(if w.quit then Exited else Looping, w.quit)],
                logs := s.logs[q := s.logs[q].(done := s.logs[q].done + [w.pc.rq])])
  }

  lemma ReturnedLog(s: State, s': State, q: Id)
    requires Returned(s, s', q) && WorkerOk(s, q) && LogOk(s, q) && Ops(s, Worker(q)) == []
    ensures WorkerOk(s', q) && LogOk(s', q)
  {
    BusyRequest(s, q);
    assert s'.logs[q].done + InFlight(s'.workers[q]) == s.logs[q].done + InFlight(s.workers[q]);
  }

  lemma ReturnedShape(s: State, s': State, q: Id)
    requires Returned(s, s', q)
    ensures OnlyWorker(s, s', q)
  {
  }

  lemma ReturnedStructure(s: State, s': State, q: Id)
    requires Inv(s) && Returned(s, s', q) && Ops(s, Worker(q)) == [] && Conserved(s')
    ensures Structured(s')
  {
    hide Balanced, NamesOk, SleepersOk, Onward, OthersIdle;
    SameNames(s, s');
    assert WorkerOk(s, q) && LogOk(s, q);
    ReturnedShape(s, s', q);
    ReturnedLog(s, s', q);
    OtherWorkersStay(s, s', q);
    ThreadsStay(s, s', Worker(q));
    ReturnedSleepers(s, s', q);
  }

  lemma ReturnedSleepers(s: State, s': State, q: Id)
    requires SleepersOk(s) && Returned(s, s', q)
    ensures SleepersOk(s')
  {
    forall t2 <- s'.asleep ensures SleeperOk(s', t2) { assert SleeperOk(s, t2); }
  }

  lemma WakeStructure(s: State, s': State, t: Tid)
    requires Structured(s) && s' == s.(asleep := s.asleep - {t})
    ensures Structured(s')
  {
    hide NamesOk, ThreadsOk, WorkersOk;
    SameNames(s, s');
    WakeRest(s, s', t);
    forall t2 <- s'.asleep ensures SleeperOk(s', t2) { assert SleeperOk(s, t2); }
  }

  lemma WakeRest(s: State, s': State, t: Tid)
    requires ThreadsOk(s) && WorkersOk(s) && s' == s.(asleep := s.asleep - {t})
    ensures ThreadsOk(s') && WorkersOk(s')
  {
    forall t2 <- s'.threads ensures ThreadOk(s', t2) {
      assert ThreadOk(s, t2);
      forall op <- s'.threads[t2] ensures OpOk(s', t2, op) { assert OpOk(s, t2, op); }
    }
    forall q <- s'.workers ensures WorkerOk(s', q) && LogOk(s', q) {
      assert WorkerOk(s, q) && LogOk(s, q);
      OwingStays(s, s', q);
      WorkerStays(s, s', q);
    }
  }

  // ---- every step, every run ----

  lemma StepKeepsStructure(s: State, step: Step)
    requires Inv(s) && Guard(s, step) && Faultless(s, step) && Conserved(Apply(s, step))
    ensures Structured(Apply(s, step))
  {
    hide Conserved, NamesOk, ThreadsOk, WorkersOk, SleepersOk, ApplyCall, ApplyOp;
    var s' := Apply(s, step);
    match step {
      case Begin(t, call) => CallKeepsStructure(s, t, call);
      case Exec(t, ok) =>
        assert Ops(s, t) == [Ops(s, t)[0]] + Ops(s, t)[1..];
        HeadOk(s, t);
        EveryOpKeepsStructure(s, t, Ops(s, t)[0], Ops(s, t)[1..], ok);
      case Take(q) =>
        if s.heap[q].body.pending != [] {
          TakenStructure(s, s', q);
        } else if s.heap[q].body.exit {
          ExitStructure(s, s', q);
        } else {
          DozeStructure(s, s', q);
        }
      case Return(q) => ReturnedStructure(s, s', q);
      case Wake(t) => WakeStructure(s, s', t);
    }
  }

  lemma HeadOk(s: State, t: Tid)
    requires ThreadsOk(s) && Ops(s, t) != []
    ensures OpOk(s, t, Ops(s, t)[0])
  {
    assert ThreadOk(s, t);
  }

  // Every step a thread can take is free of memory faults and keeps the invariant.
  lemma StepKeepsInvariant(s: State, step: Step)
    requires Inv(s) && Guard(s, step)
    ensures Faultless(s, step) && Inv(Apply(s, step))
  {
    hide Conserved, Structured, Apply, Guard, Faultless;
    NoFault(s, step);
    StepConserves(s, step);
    StepKeepsStructure(s, step);
  }

  lemma InitInvariant(s: State)
    requires Init(s)
    ensures Inv(s)
  {
    forall x ensures Balanced(s, x) {
    }
  }

  // Safety over whole runs.
  lemma {:induction false} RunInvariant(run: seq<State>, i: nat)
    requires IsRun(run) && i < |run|
    ensures Inv(run[i])
  {
    hide Inv, Init, Apply, Guard, Faultless;
    if i == 0 {
      InitInvariant(run[0]);
    } else {
      RunInvariant(run, i - 1);
      assert Next(run[i - 1], run[i - 1 + 1]);
      var step :| Guard(run[i - 1], step) && Faultless(run[i - 1], step) && run[i] == Apply(run[i - 1], step);
      StepKeepsInvariant(run[i - 1], step);
    }
  }
}
