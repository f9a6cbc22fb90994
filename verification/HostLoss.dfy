// Requests that are lost: those still queued when a queue's own worker frees it. Which they are, what keeps a
// request from being lost, and a run in which it happens.
module HostLoss {
  import opened Bags
  import opened HostObjects
  import opened HostSteps
  import opened HostInvariant
  import opened HostTheorems
  import opened HostLedger
  import opened HostFrames
  import opened HostProgress

  // ---- which requests are lost ----

  // Requests pushed to q that its worker has neither finished nor in hand.
  ghost function NotTaken(s: State, q: Id): seq<Id> {
    if q in s.workers && q in s.logs && s.logs[q].done + InFlight(s.workers[q]) <= s.logs[q].pushed then Untaken(s, q)
    else []
  }

  // r has been lost as often as it was still queued when its queue was freed.
  ghost predicate LostOk(s: State, r: Id) {
    s.leaked[r] == if r.Req? && r.target in s.workers && r.target !in s.heap then multiset(NotTaken(s, r.target))[r] else 0
  }

  lemma LeaksFrame(s: State, step: Step, r: Id)
    requires Inv(s) && Guard(s, step) && Faultless(s, step)
    ensures var s' := Apply(s, step);
            if step.Exec? && r.Req? && Ops(s, step.t)[0] == Free(r.target) && r.target.Que?
            then Live(s, r.target) && s'.leaked[r] == s.leaked[r] + multiset(s.heap[r.target].body.pending)[r]
            else s'.leaked[r] == s.leaked[r]
  {
    hide Inv, ApplyOp, ApplyCall, MayCall, CallFaultless;
    match step {
      case Begin(t, call) => CallLeaks(s, t, call);
      case Exec(t, ok) =>
        var op := Ops(s, t)[0];
        OpLeaks(s, t, op, Ops(s, t)[1..], ok);
        if op.Free? && op.id.Que? { PendingTargets(s, op.id, r); }
      case Take(_) =>
      case Return(_) =>
      case Wake(_) =>
    }
  }

  lemma PendingTargets(s: State, q: Id, r: Id)
    requires Live(s, q) && q.Que?
    ensures multiset(s.heap[q].body.pending)[r] > 0 ==> r.Req? && r.target == q
  {
  }

  lemma QueueOfWorker(s: State, q: Id)
    requires Inv(s)
    ensures q in s.heap && q.Que? ==> q in s.workers
    ensures q in s.workers ==> q.Que? && q.n < s.next && q in s.logs
    ensures q in s.workers ==>
              s.logs[q].done + InFlight(s.workers[q]) <= s.logs[q].pushed && NotTaken(s, q) == Untaken(s, q)
    ensures q in s.workers && q in s.heap ==> s.heap[q].body.Fifo? && s.heap[q].body.pending == NotTaken(s, q)
  {
    hide Conserved, ThreadsOk, SleepersOk;
    if q in s.heap { assert NameOk(s, q); }
    if q in s.workers { assert WorkerOk(s, q) && LogOk(s, q); }
  }

  // Once the queue is gone nothing is taken from it or pushed to it.
  lemma GoneIsFrozen(s: State, step: Step, q: Id)
    requires Reachable(s) && Guard(s, step) && Faultless(s, step) && q in s.workers
    requires q !in s.heap || (step.Exec? && Ops(s, step.t)[0] == Free(q))
    ensures NotTaken(Apply(s, step), q) == NotTaken(s, q) && q in Apply(s, step).workers
  {
    hide Inv, Reachable, Apply, Faultless;
    ReachableInv(s);
    QueueOfWorker(s, q);
    if By(step, Worker(q)) {
      WorkerFrozen(s, step, q);
    } else {
      OthersLeave(s, step, q);
      if step.Exec? && Ops(s, step.t)[0].Push? { PushTarget(s, step.t); }
    }
  }

  lemma WorkerFrozen(s: State, step: Step, q: Id)
    requires Reachable(s) && Guard(s, step) && Faultless(s, step) && q in s.workers && q in s.logs
             && By(step, Worker(q))
    requires q !in s.heap || (step.Exec? && Ops(s, step.t)[0] == Free(q))
    ensures NotTaken(Apply(s, step), q) == NotTaken(s, q) && q in Apply(s, step).workers
  {
    hide Inv, Reachable, ApplyOp, ApplyCall, OpFaultless;
    ReachableInv(s);
    if q !in s.heap { WorkerOutlivesQueue(s, q); }
    if step.Exec? {
      WorkerHead(s, q);
      WorkerOpFrame(s, q, Ops(s, step.t)[0], Ops(s, step.t)[1..], step.ok);
    }
  }

  // A worker starts with its queue.
  lemma WorkersStart(s: State, step: Step, q: Id)
    requires Guard(s, step) && Faultless(s, step)
    ensures q in Apply(s, step).workers ==> q in s.workers || q in Apply(s, step).heap
  {
    hide ApplyOp, ApplyCall, MayCall, CallFaultless, OpFaultless;
    match step {
      case Begin(t, call) => EveryCallApart(s, t, call);
      case Exec(t, ok) => OpStarts(s, t, Ops(s, t)[0], Ops(s, t)[1..], ok, q);
      case Take(_) =>
      case Return(_) =>
      case Wake(_) =>
    }
  }

  lemma OpStarts(s: State, t: Tid, op: Op, rest: seq<Op>, ok: bool, q: Id)
    requires OpFaultless(s, t, op)
    ensures var s' := ApplyOp(s, t, op, rest, ok); q in s'.workers ==> q in s.workers || q in s'.heap
  {
    hide DeathOps, AfterRun, BodyFits;
  }

  lemma FreeingRemoves(s: State, t: Tid, ok: bool, q: Id)
    requires Guard(s, Exec(t, ok)) && Faultless(s, Exec(t, ok)) && Ops(s, t)[0] == Free(q)
    ensures q in s.heap && q !in Apply(s, Exec(t, ok)).heap
  {
    FreeRemoves(s, t, q, Ops(s, t)[1..], ok);
  }

  lemma StepLoses(s: State, step: Step, r: Id)
    requires Reachable(s) && Guard(s, step) && Faultless(s, step) && LostOk(s, r)
    ensures LostOk(Apply(s, step), r)
  {
    hide Inv, Reachable, Apply, NotTaken, Faultless;
    ReachableInv(s);
    LeaksFrame(s, step, r);
    if r.Req? {
      var q := r.target;
      var s' := Apply(s, step);
      Onward(s, step);
      ReachableInv(s');
      QueueOfWorker(s, q);
      QueueOfWorker(s', q);
      StepFrame(s, step, q);
      WorkersStart(s, step, q);
      if step.Exec? && Ops(s, step.t)[0] == Free(q) { FreeingRemoves(s, step.t, step.ok, q); }
      if q in s.workers && (q !in s.heap || q !in s'.heap) {
        if q in s.heap { FreedAtZero(s, step, q); }
        GoneIsFrozen(s, step, q);
      }
    }
  }

  lemma {:induction false} RunLoses(run: seq<State>, i: nat, r: Id)
    requires IsRun(run) && i < |run|
    ensures LostOk(run[i], r)
  {
    hide Inv, Apply, Guard, Faultless, NotTaken;
    if i > 0 {
      RunLoses(run, i - 1, r);
      assert Next(run[i - 1], run[i - 1 + 1]);
      var step :| Guard(run[i - 1], step) && Faultless(run[i - 1], step) && run[i] == Apply(run[i - 1], step);
      StepLoses(run[i - 1], step, r);
    }
  }

  // The requests lost are exactly those that were still queued, neither done nor in hand, when their queue
  // was freed.
  lemma LostExactly(s: State, r: Id)
    requires Reachable(s)
    ensures LostOk(s, r)
  {
    hide LostOk, IsRun;
    var run: seq<State>, i: nat :| IsRun(run) && i < |run| && run[i] == s;
    RunLoses(run, i, r);
  }

  // ---- what keeps a request from being lost ----

  // A lost request has no event, and no client holds its queue any more.
  lemma LostIsUnattended(s: State, r: Id)
    requires Reachable(s) && r in s.leaked
    ensures r.Req? && r.event.None? && r.target !in s.handles && r.target !in s.heap
    ensures r.target in s.logs && r in s.logs[r.target].pushed
  {
    hide Reachable, Conserved, ThreadsOk, WorkersOk, SleepersOk;
    LostExactly(s, r);
    ReachableInv(s);
    assert r in NotTaken(s, r.target);
    if r.target in s.handles { HandleIsLive(s, r.target); }
  }

  lemma HandleIsLive(s: State, id: Id)
    requires Inv(s) && id in s.handles
    ensures id in s.heap
  {
    HandleLive(s, id);
  }

  // So a queue to which only requests with an event are pushed never loses one,
  lemma EventfulQueueLosesNothing(s: State, q: Id, r: Id)
    requires Reachable(s) && q in s.logs && forall x <- s.logs[q].pushed :: x.Req? ==> x.event.Some?
    requires r.Req? && r.target == q
    ensures r !in s.leaked
  {
    hide Reachable;
    if r in s.leaked { LostIsUnattended(s, r); }
  }

  // and neither does a queue that a client holds.
  lemma HeldQueueLosesNothing(s: State, q: Id, r: Id)
    requires Reachable(s) && q in s.handles && r.Req? && r.target == q
    ensures r !in s.leaked
  {
    hide Reachable;
    if r in s.leaked { LostIsUnattended(s, r); }
  }

  lemma DoneGrows(s: State, step: Step, q: Id)
    requires Reachable(s) && Guard(s, step) && Faultless(s, step) && q in s.workers
    ensures var s' := Apply(s, step);
            && q in s.logs && q in s'.workers && q in s'.logs
            && |s.logs[q].done| <= |s'.logs[q].done| && s.logs[q].pushed <= s'.logs[q].pushed
  {
    hide Inv, Reachable, ApplyOp, ApplyCall, OpFaultless, MayCall, CallFaultless;
    ReachableInv(s);
    QueueOfWorker(s, q);
    if !By(step, Worker(q)) {
      OthersLeave(s, step, q);
    } else if step.Exec? {
      WorkerHead(s, q);
      WorkerOpFrame(s, q, Ops(s, step.t)[0], Ops(s, step.t)[1..], step.ok);
    }
  }

  lemma {:induction false} DoneStays(run: seq<State>, steps: seq<Step>, q: Id, k: nat, j: nat)
    requires Stretch(run, steps) && Reachable(run[0]) && k <= j <= |steps| && q in run[k].workers && Reachable(run[k])
    ensures Reachable(run[j]) && q in run[k].logs && q in run[j].workers && q in run[j].logs
    ensures |run[k].logs[q].done| <= |run[j].logs[q].done|
  {
    hide Reachable, Guard, Faultless, Apply, Inv;
    if k < j {
      DoneStays(run, steps, q, k, j - 1);
      assert run[j - 1 + 1] == Apply(run[j - 1], steps[j - 1]);
      Onward(run[j - 1], steps[j - 1]);
      DoneGrows(run[j - 1], steps[j - 1], q);
    } else {
      ReachableInv(run[j]);
      QueueOfWorker(run[j], q);
    }
  }

  lemma {:induction false} StretchReachable(run: seq<State>, steps: seq<Step>, j: nat)
    requires Stretch(run, steps) && Reachable(run[0]) && j <= |steps|
    ensures Reachable(run[j])
  {
    hide Reachable, Guard, Faultless, Apply;
    if j > 0 {
      StretchReachable(run, steps, j - 1);
      assert run[j - 1 + 1] == Apply(run[j - 1], steps[j - 1]);
      Onward(run[j - 1], steps[j - 1]);
    }
  }

  // A client that keeps its reference to a queue until the first n requests are done loses none of them, event
  // or not, whatever happens to the queue later.
  lemma KeptUntilDoneIsNotLost(run: seq<State>, steps: seq<Step>, q: Id, n: nat, k: nat, j: nat, r: Id)
    requires Stretch(run, steps) && Reachable(run[0]) && k <= |steps| && j <= |steps|
    requires forall i :: 0 <= i <= k ==> q in run[i].handles
    requires q in run[k].workers && q in run[k].logs && |run[k].logs[q].done| >= n
    requires r.Req? && r.target == q
    ensures j <= k ==> r !in run[j].leaked
    ensures j > k ==> q in run[j].logs && n <= |run[j].logs[q].pushed|
                      && run[j].leaked[r] <= multiset(run[j].logs[q].pushed[n..])[r]
  {
    hide Reachable, Guard, Faultless, Apply, Inv;
    StretchReachable(run, steps, j);
    if j <= k {
      HeldQueueLosesNothing(run[j], q, r);
    } else {
      StretchReachable(run, steps, k);
      DoneStays(run, steps, q, k, j);
      LostExactly(run[j], r);
      ReachableInv(run[j]);
      QueueOfWorker(run[j], q);
      LaterOnly(run[j], q, n, r);
    }
  }

  lemma LaterOnly(s: State, q: Id, n: nat, r: Id)
    requires q in s.workers && q in s.logs && n <= |s.logs[q].done|
    requires s.logs[q].done + InFlight(s.workers[q]) <= s.logs[q].pushed
    ensures n <= |s.logs[q].pushed| && multiset(NotTaken(s, q))[r] <= multiset(s.logs[q].pushed[n..])[r]
  {
    var pushed := s.logs[q].pushed;
    var m := |s.logs[q].done + InFlight(s.workers[q])|;
    assert pushed[n..] == pushed[n..m] + pushed[m..];
  }

  // ---- a run that loses a request ----

  const D := Dev(0)
  const Q := Que(1, D)
  const E := Evt(2, Q)
  const R1 := Req(3, Q, Some(E), None)
  const R2 := Req(5, Q, None, None)

  // What the run looks at: the objects, and what the client and the worker have to do.
  ghost predicate Seen(s: State, next: nat, heap: map<Id, Cell>, handles: multiset<Id>, client: seq<Op>, worker: seq<Op>,
                       w: WorkerState)
  {
    && s.next == next && s.heap == heap && s.handles == handles && Ops(s, Client(0)) == client && Ops(s, Worker(Q)) == worker
    && s.asleep == {} && Q in s.workers && s.workers[Q] == w && Reachable(s)
  }

  lemma Moves(s: State, step: Step)
    requires Reachable(s) && Guard(s, step)
    ensures Faultless(s, step) && Reachable(Apply(s, step))
  {
    hide Reachable, Guard, Faultless, Apply;
    NoMemoryFault(s, step);
    Onward(s, step);
  }

  const Idle := WorkerState(Looping, false)
  const Running := WorkerState(Busy(R1), false)

  lemma Started() returns (s: State)
    ensures s == State(0, map[], multiset{}, multiset{}, multiset{}, map[], map[], {}, map[]) && Reachable(s)
  {
    s := State(0, map[], multiset{}, multiset{}, multiset{}, map[], map[], {}, map[]);
    assert IsRun([s]) && [s][0] == s;
  }

  lemma Created() returns (s: State)
    ensures Seen(s, 2, map[D := Cell(2, Fixed), Q := Cell(1, Fifo([], false))], multiset{D, Q}, [], [], Idle)
  {
    hide Reachable;
    var s0 := Started();
    Moves(s0, Begin(Client(0), OpenDevice));
    var s1 := Apply(s0, Begin(Client(0), OpenDevice));
    Moves(s1, Begin(Client(0), NewQueue(D)));
    var s2 := Apply(s1, Begin(Client(0), NewQueue(D)));
    assert Ops(s2, Client(0)) == [FinishQueue(D)];
    Moves(s2, Exec(Client(0), true));
    s := Apply(s2, Exec(Client(0), true));
  }

  // The objects while the first request is under way.
  ghost function Objects(queueCount: nat, pending: seq<Id>, eventCount: nat): map<Id, Cell> {
    map[D := Cell(2, Fixed), Q := Cell(queueCount, Fifo(pending, false)), E := Cell(eventCount, Signal(PENDING)),
        R1 := Cell(1, Fixed)]
  }

  lemma FirstEnqueued(s0: State) returns (s: State)
    requires Seen(s0, 2, map[D := Cell(2, Fixed), Q := Cell(1, Fifo([], false))], multiset{D, Q}, [], [], Idle)
    ensures Seen(s, 4, Objects(2, [], 2), multiset{D}, [Push(R1)], [], Idle)
  {
    hide Reachable;
    Moves(s0, Begin(Client(0), Enqueue(Q, None, true, true)));
    s := Apply(s0, Begin(Client(0), Enqueue(Q, None, true, true)));
    assert s.heap == Objects(2, [], 2);
  }

  lemma FirstPushed(s0: State) returns (s: State)
    requires Seen(s0, 4, Objects(2, [], 2), multiset{D}, [Push(R1)], [], Idle)
    ensures Seen(s, 4, Objects(2, [R1], 2), multiset{D, Q, E}, [], [], Idle)
  {
    hide Reachable;
    Moves(s0, Exec(Client(0), true));
    s := Apply(s0, Exec(Client(0), true));
    assert [] + [R1] == [R1];
    assert s.heap == Objects(2, [R1], 2);
  }

  lemma Taken(s0: State) returns (s: State)
    requires Seen(s0, 4, Objects(2, [R1], 2), multiset{D, Q, E}, [], [], Idle)
    ensures Seen(s, 4, Objects(2, [], 2), multiset{D, Q, E}, [], [Run(R1, None)], Running)
  {
    hide Reachable;
    Moves(s0, Take(Q));
    s := Apply(s0, Take(Q));
    assert [R1][1..] == [];
    assert s.heap == Objects(2, [], 2);
  }

  lemma SecondEnqueued(s0: State) returns (s: State)
    requires Seen(s0, 4, Objects(2, [], 2), multiset{D, Q, E}, [], [Run(R1, None)], Running)
    ensures Seen(s, 6, Objects(2, [], 2)[R2 := Cell(1, Fixed)], multiset{D, E}, [Push(R2)], [Run(R1, None)], Running)
  {
    hide Reachable;
    Moves(s0, Begin(Client(0), Enqueue(Q, None, false, true)));
    s := Apply(s0, Begin(Client(0), Enqueue(Q, None, false, true)));
  }

  lemma SecondPushed(s0: State) returns (s: State)
    requires Seen(s0, 6, Objects(2, [], 2)[R2 := Cell(1, Fixed)], multiset{D, E}, [Push(R2)], [Run(R1, None)], Running)
    ensures Seen(s, 6, Objects(2, [R2], 2)[R2 := Cell(1, Fixed)], multiset{D, Q, E}, [], [Run(R1, None)], Running)
  {
    hide Reachable;
    Moves(s0, Exec(Client(0), true));
    s := Apply(s0, Exec(Client(0), true));
    assert [] + [R2] == [R2];
    assert s.heap == Objects(2, [R2], 2)[R2 := Cell(1, Fixed)];
  }

  lemma EventDropped(s0: State) returns (s: State)
    requires Seen(s0, 6, Objects(2, [R2], 2)[R2 := Cell(1, Fixed)], multiset{D, Q, E}, [], [Run(R1, None)], Running)
    ensures Seen(s, 6, Objects(2, [R2], 1)[R2 := Cell(1, Fixed)], multiset{D, Q}, [], [Run(R1, None)], Running)
  {
    hide Reachable;
    Moves(s0, Begin(Client(0), Drop(E)));
    var s1 := Apply(s0, Begin(Client(0), Drop(E)));
    Moves(s1, Exec(Client(0), true));
    s := Apply(s1, Exec(Client(0), true));
    assert s.heap == Objects(2, [R2], 1)[R2 := Cell(1, Fixed)];
  }

  lemma QueueDropped(s0: State) returns (s: State)
    requires Seen(s0, 6, Objects(2, [R2], 1)[R2 := Cell(1, Fixed)], multiset{D, Q}, [], [Run(R1, None)], Running)
    ensures Seen(s, 6, Objects(1, [R2], 1)[R2 := Cell(1, Fixed)], multiset{D}, [], [Run(R1, None)], Running)
  {
    hide Reachable;
    Moves(s0, Begin(Client(0), Drop(Q)));
    var s1 := Apply(s0, Begin(Client(0), Drop(Q)));
    Moves(s1, Exec(Client(0), true));
    s := Apply(s1, Exec(Client(0), true));
    assert s.heap == Objects(1, [R2], 1)[R2 := Cell(1, Fixed)];
  }

  // The worker completes the event, whose last reference holds the last reference to the queue.
  lemma Completed(s0: State) returns (s: State)
    requires Seen(s0, 6, Objects(1, [R2], 1)[R2 := Cell(1, Fixed)], multiset{D}, [], [Run(R1, None)], Running)
    ensures Seen(s, 6, map[D := Cell(2, Fixed), Q := Cell(0, Fifo([R2], false)), E := Cell(0, Signal(SUCCESS)), R1 := Cell(0, Fixed),
                           R2 := Cell(1, Fixed)], multiset{D}, [], [Destroy(Q, false), Free(E), Free(R1)], Running)
  {
    hide Reachable;
    var w := Worker(Q);
    Moves(s0, Exec(w, true));
    var sr := Apply(s0, Exec(w, true));
    assert Ops(sr, w) == [Run(R1, Some([]))];
    Moves(sr, Exec(w, true));
    var s1 := Apply(sr, Exec(w, true));
    assert Ops(s1, w) == [Complete(E, SUCCESS), Free(R1)];
    Moves(s1, Exec(w, true));
    var s2 := Apply(s1, Exec(w, true));
    assert Ops(s2, w) == [Release(E), Free(R1)];
    Moves(s2, Exec(w, true));
    var s3 := Apply(s2, Exec(w, true));
    assert Ops(s3, w) == [Release(Q), Free(E), Free(R1)];
    Moves(s3, Exec(w, true));
    s := Apply(s3, Exec(w, true));
  }

  lemma SelfDestroyed(s0: State) returns (s: State)
    requires Seen(s0, 6, map[D := Cell(2, Fixed), Q := Cell(0, Fifo([R2], false)), E := Cell(0, Signal(SUCCESS)), R1 := Cell(0, Fixed),
                             R2 := Cell(1, Fixed)], multiset{D}, [], [Destroy(Q, false), Free(E), Free(R1)], Running)
    ensures Reachable(s) && Ops(s, Worker(Q)) == [Free(Q), Free(E), Free(R1)] && s.asleep == {}
    ensures Q in s.heap && s.heap[Q] == Cell(0, Fifo([R2], true))
  {
    hide Reachable;
    var w := Worker(Q);
    Moves(s0, Exec(w, true));
    var s1 := Apply(s0, Exec(w, true));
    assert Ops(s1, w) == [Destroy(Q, true), Free(E), Free(R1)];
    Moves(s1, Exec(w, true));
    var s2 := Apply(s1, Exec(w, true));
    assert Ops(s2, w) == [Release(D), Free(Q), Free(E), Free(R1)];
    Moves(s2, Exec(w, true));
    s := Apply(s2, Exec(w, true));
  }

  // The worker's next step gives back the memory of its queue, and with it the request.
  lemma LossHappens() returns (s: State, step: Step)
    ensures Reachable(s) && Guard(s, step) && Faultless(s, step)
    ensures R2 in Apply(s, step).leaked && s.leaked[R2] < Apply(s, step).leaked[R2]
  {
    hide Reachable, Seen;
    s := Created();
    s := FirstEnqueued(s);
    s := FirstPushed(s);
    s := Taken(s);
    s := SecondEnqueued(s);
    s := SecondPushed(s);
    s := EventDropped(s);
    s := QueueDropped(s);
    s := Completed(s);
    s := SelfDestroyed(s);
    step := Exec(Worker(Q), true);
    Moves(s, step);
  }
}
