// The buffers of a command at the DSP. The worker copies the records of a request's group under the group's
// mutex and lets go of it before the command runs, so that a record may be replaced while its buffer is in use.
module HostCommand {
  import opened Bags
  import opened HostObjects
  import opened HostSteps
  import opened HostInvariant
  import opened HostTheorems
  import opened HostLedger
  import opened HostFrames
  import opened HostLoss

  // The worker of q has read these buffers from the group of r and waits for the DSP.
  ghost predicate AtDsp(s: State, q: Id, r: Id, bufs: seq<Id>) {
    Ops(s, Worker(q)) == [Run(r, Some(bufs))]
  }

  // Allocated, with an owner.
  ghost predicate Usable(s: State, b: Id) {
    b in s.heap && s.heap[b].count > 0
  }

  // Owners of b other than the records of the group of r.
  ghost function OtherOwners(s: State, r: Id, b: Id): int {
    Owners(s, b) - multiset(Records(s, r))[b]
  }

  // What the worker takes to the DSP are the records at that moment, every one of them in use.
  lemma ReadTakesRecords(s: State, q: Id, r: Id, ok: bool)
    requires Reachable(s) && Ops(s, Worker(q)) == [Run(r, None)] && Guard(s, Exec(Worker(q), ok))
    ensures Faultless(s, Exec(Worker(q), ok))
    ensures var s' := Apply(s, Exec(Worker(q), ok));
            && AtDsp(s', q, r, Records(s, r)) && Records(s', r) == Records(s, r)
            && forall b <- Records(s, r) :: Usable(s', b)
  {
    hide Inv, Reachable;
    NoMemoryFault(s, Exec(Worker(q), ok));
    GroupHeld(s, q, r, None);
    forall b | b in Records(s, r) ensures Usable(s, b) { RecordUsable(s, r, b); }
  }

  // The group of the request a worker has in hand is alive.
  lemma GroupHeld(s: State, q: Id, r: Id, read: Option<seq<Id>>)
    requires Reachable(s) && Ops(s, Worker(q)) == [Run(r, read)]
    ensures r.Req?
    ensures r.group.Some? ==> var g := r.group.value; g.Grp? && Live(s, g) && s.heap[g].count > 0
  {
    hide Sum, Reachable, WorkersOk, SleepersOk, IsRun;
    ReachableInv(s);
    var op := Run(r, read);
    assert op in Ops(s, Worker(q));
    assert ThreadOk(s, Worker(q)) && OpOk(s, Worker(q), op);
    OpRefLive(s, Worker(q), op, r);
    if r.group.Some? {
      var g := r.group.value;
      assert CellClaims(r, s.heap[r], Ref(g)) > 0;
      CellTallied(s, r, Ref(g));
      RefLive(s, g);
      assert NameOk(s, g);
    }
  }

  lemma RecordUsable(s: State, r: Id, b: Id)
    requires Reachable(s) && r.Req?
             && (r.group.Some? ==> r.group.value.Grp? && Live(s, r.group.value) && s.heap[r.group.value].count > 0)
    requires b in Records(s, r)
    ensures Usable(s, b)
  {
    hide Reachable, IsRun;
    ReachableInv(s);
    SlotsLive(s, r.group.value);
  }

  lemma CommandSafeOne(s: State, q: Id, r: Id, bufs: seq<Id>, b: Id)
    requires Reachable(s) && AtDsp(s, q, r, bufs)
    ensures Usable(s, b) <==> b in Records(s, r) || OtherOwners(s, r, b) > 0
  {
    hide Reachable, Owners;
    GroupHeld(s, q, r, Some(bufs));
    ReferencesConserved(s, b);
    if b in Records(s, r) { RecordUsable(s, r, b); }
  }

  // While a command is at the DSP, its buffers are all in use exactly if each is still a record of the group
  // or has an owner besides it.
  lemma CommandSafeExactly(s: State, q: Id, r: Id, bufs: seq<Id>)
    requires Reachable(s) && AtDsp(s, q, r, bufs)
    ensures (forall b <- bufs :: Usable(s, b)) <==> (forall b <- bufs :: b in Records(s, r) || OtherOwners(s, r, b) > 0)
  {
    hide Reachable, OtherOwners, Usable;
    forall b | b in bufs ensures Usable(s, b) <==> b in Records(s, r) || OtherOwners(s, r, b) > 0 {
      CommandSafeOne(s, q, r, bufs, b);
    }
  }

  // The records of the group are among the owners, so what OtherOwners counts is never negative.
  lemma OtherOwnersSign(s: State, q: Id, r: Id, bufs: seq<Id>, b: Id)
    requires Reachable(s) && AtDsp(s, q, r, bufs)
    ensures OtherOwners(s, r, b) >= 0
  {
    hide Reachable, Inv;
    GroupHeld(s, q, r, Some(bufs));
    if r.group.Some? {
      SumRemove(s.heap, (k, c) => CellClaims(k, c, Ref(b)), r.group.value);
    }
  }

  // A buffer in use goes out of use exactly when a thread drops its last reference.
  lemma LastReleaseExactly(s: State, step: Step, b: Id)
    requires Reachable(s) && Guard(s, step) && Faultless(s, step) && Usable(s, b) && b.Buf?
    ensures !Usable(Apply(s, step), b) <==> step.Exec? && Ops(s, step.t)[0] == Release(b) && s.heap[b].count == 1
  {
    hide Inv, Reachable, ApplyOp, ApplyCall, DeathOps;
    ReachableInv(s);
    StepFrame(s, step, b);
    if Lowers(s, step, b) { LowersCount(s, step, b); }
  }

  lemma LowersCount(s: State, step: Step, b: Id)
    requires Inv(s) && Guard(s, step) && Faultless(s, step) && Usable(s, b) && b.Buf? && Lowers(s, step, b)
    ensures Ops(s, step.t)[0] == Release(b) && b in Apply(s, step).heap
            && Apply(s, step).heap[b].count == s.heap[b].count - 1
  {
    hide Inv, ApplyOp;
    NamedBelow(s, b);
    var op := Ops(s, step.t)[0];
    if op.Release? { ReleaseFrame(s, step.t, op, Ops(s, step.t)[1..], step.ok, b); }
  }

  // ---- until the command ends ----

  // The step puts another buffer into record i of group g.
  ghost predicate Replaces(s: State, step: Step, g: Id, i: nat)
    requires Guard(s, step)
  {
    step.Exec? && Ops(s, step.t)[0].SetSlot? && Ops(s, step.t)[0].g == g && Ops(s, step.t)[0].i == i
  }

  lemma SetSlotWrites(s: State, t: Tid, op: Op, rest: seq<Op>, ok: bool)
    requires OpFaultless(s, t, op) && op.SetSlot?
    ensures var slots := s.heap[op.g].body.slots;
            var s' := ApplyOp(s, t, op, rest, ok);
            op.g in s'.heap && s'.heap[op.g].body == Slots(if op.i < |slots| then slots[op.i := op.b] else slots)
  {
  }

  lemma RecordStays(s: State, step: Step, g: Id, i: nat)
    requires Inv(s) && Guard(s, step) && Faultless(s, step) && g.Grp? && Live(s, g) && Live(Apply(s, step), g)
    requires i < |s.heap[g].body.slots| && !Replaces(s, step, g, i)
    ensures var slots := Apply(s, step).heap[g].body.slots;
            i < |slots| && slots[i] == s.heap[g].body.slots[i]
  {
    hide Inv, ApplyOp, ApplyCall, OpFaultless, CallFaultless, MayCall;
    StepFrame(s, step, g);
    if Rewrites(s, step, g) {
      NamedBelow(s, g);
      if step.Begin? { AddSlotFrame(s, step.t, g, step.call.b, true, g); }
      else { SetSlotWrites(s, step.t, Ops(s, step.t)[0], Ops(s, step.t)[1..], step.ok); }
    }
  }

  // Record i is not replaced during the stretch.
  ghost predicate Kept(run: seq<State>, steps: seq<Step>, g: Id, i: nat)
    requires Stretch(run, steps)
  {
    forall k :: 0 <= k < |steps| ==> !Replaces(run[k], steps[k], g, i)
  }

  lemma {:induction false} KeptRecord(run: seq<State>, steps: seq<Step>, q: Id, r: Id, bufs: seq<Id>, n: nat, i: nat)
    requires Stretch(run, steps) && Reachable(run[0]) && n <= |steps|
    requires forall k :: 0 <= k <= |steps| ==> AtDsp(run[k], q, r, bufs)
    requires i < |Records(run[0], r)| && r.Req? && r.group.Some? && Kept(run, steps, r.group.value, i)
    ensures Reachable(run[n]) && i < |Records(run[n], r)| && Records(run[n], r)[i] == Records(run[0], r)[i]
  {
    hide Reachable, Inv, Guard, Faultless, Apply, AtDsp, Replaces;
    if n > 0 {
      KeptRecord(run, steps, q, r, bufs, n - 1, i);
      assert run[n - 1 + 1] == Apply(run[n - 1], steps[n - 1]);
      Onward(run[n - 1], steps[n - 1]);
      ReachableInv(run[n - 1]);
      Held(run[n - 1], q, r, bufs);
      Held(run[n], q, r, bufs);
      RecordStays(run[n - 1], steps[n - 1], r.group.value, i);
    }
  }

  lemma Held(s: State, q: Id, r: Id, bufs: seq<Id>)
    requires Reachable(s) && AtDsp(s, q, r, bufs) && r.Req? && r.group.Some?
    ensures var g := r.group.value; g.Grp? && Live(s, g) && Records(s, r) == s.heap[g].body.slots
  {
    hide Reachable;
    GroupHeld(s, q, r, Some(bufs));
  }

  // From the moment the records are read until the command ends: a buffer of the command goes out of use only
  // if every record that held it has been replaced in the meantime and no other owner is left; if that has
  // happened and it is in no record now, it is out of use.
  lemma CommandBuffers(run: seq<State>, steps: seq<Step>, q: Id, r: Id, b: Id)
    requires Stretch(run, steps) && Reachable(run[0])
    requires forall k :: 0 <= k <= |steps| ==> AtDsp(run[k], q, r, Records(run[0], r))
    requires b in Records(run[0], r)
    ensures Reachable(run[|steps|]) && r.Req? && r.group.Some?
    ensures var s' := run[|steps|];
            !Usable(s', b) <==> b !in Records(s', r) && OtherOwners(s', r, b) == 0
    ensures !Usable(run[|steps|], b) ==>
              forall i :: 0 <= i < |Records(run[0], r)| && Records(run[0], r)[i] == b ==> !Kept(run, steps, r.group.value, i)
  {
    hide Reachable, Guard, Faultless, Apply, Owners, Kept, OtherOwners;
    var bufs := Records(run[0], r);
    var s' := run[|steps|];
    StretchLedger(run, steps, b);
    CommandSafeOne(s', q, r, bufs, b);
    OtherOwnersSign(s', q, r, bufs, b);
    forall i | 0 <= i < |bufs| && bufs[i] == b && Kept(run, steps, r.group.value, i) ensures Usable(s', b) {
      KeptRecord(run, steps, q, r, bufs, |steps|, i);
      assert b in Records(s', r);
    }
  }

  // In particular a command whose group nobody sets a record of keeps all its buffers.
  lemma UntouchedGroupIsSafe(run: seq<State>, steps: seq<Step>, q: Id, r: Id)
    requires Stretch(run, steps) && Reachable(run[0])
    requires forall k :: 0 <= k <= |steps| ==> AtDsp(run[k], q, r, Records(run[0], r))
    requires r.Req? && r.group.Some? && forall i: nat :: Kept(run, steps, r.group.value, i)
    ensures forall b <- Records(run[0], r) :: Usable(run[|steps|], b)
  {
    hide Reachable, Guard, Faultless, Apply, Kept, OtherOwners, Usable;
    forall b | b in Records(run[0], r) ensures Usable(run[|steps|], b) {
      CommandBuffers(run, steps, q, r, b);
      var i: nat :| i < |Records(run[0], r)| && Records(run[0], r)[i] == b;
      assert Kept(run, steps, r.group.value, i);
    }
  }

  // No call under way keeps a buffer to give back later: what clients hold of it are its handles.
  lemma BufferHandles(s: State, b: Id)
    requires Inv(s) && b.Buf?
    ensures Holdings(s, b) == s.handles[b]
  {
    hide Inv, OpOk;
    InvThreads(s);
    if Sum(s.threads, (t: Tid, ops) => Parked(ops, b)) > 0 {
      var t := SumSource(s.threads, (t: Tid, ops) => Parked(ops, b));
      forall op | op in s.threads[t] ensures ParkedIn(op, b) == 0 { NotParkedIn(s, t, op, b); }
      NoneParked(s.threads[t], b);
      assert false;
    }
  }

  lemma InvThreads(s: State)
    requires Inv(s)
    ensures ThreadsOk(s)
  {
  }

  lemma NotParkedIn(s: State, t: Tid, op: Op, b: Id)
    requires ThreadsOk(s) && t in s.threads && op in s.threads[t] && b.Buf?
    ensures ParkedIn(op, b) == 0
  {
    assert ThreadOk(s, t) && OpOk(s, t, op);
  }

  // Whatever records are set: a buffer of which clients drop fewer handles than they have stays in use.
  lemma HeldBufferStays(run: seq<State>, steps: seq<Step>, b: Id)
    requires Stretch(run, steps) && Reachable(run[0]) && b.Buf? && Losses(steps)[b] < run[0].handles[b]
    ensures Reachable(run[|steps|]) && b in run[|steps|].handles && Usable(run[|steps|], b)
  {
    hide Reachable, Guard, Faultless, Apply, Holdings, Losses, Gains, Inv;
    StretchLedger(run, steps, b);
    ReachableInv(run[0]);
    ReachableInv(run[|steps|]);
    BufferHandles(run[0], b);
    BufferHandles(run[|steps|], b);
    HeldUsable(run[|steps|], b);
  }

  lemma HeldUsable(s: State, b: Id)
    requires Inv(s) && b in s.handles
    ensures Usable(s, b)
  {
    HandleLive(s, b);
  }

  // So a command keeps all its buffers if of each of them clients keep a handle until it ends, or nobody replaces
  // a record that holds it.
  lemma KeptBuffersAreSafe(run: seq<State>, steps: seq<Step>, q: Id, r: Id)
    requires Stretch(run, steps) && Reachable(run[0])
    requires forall k :: 0 <= k <= |steps| ==> AtDsp(run[k], q, r, Records(run[0], r))
    requires r.Req? && r.group.Some?
    requires forall b <- Records(run[0], r) ::
               || Losses(steps)[b] < run[0].handles[b]
               || exists i :: 0 <= i < |Records(run[0], r)| && Records(run[0], r)[i] == b && Kept(run, steps, r.group.value, i)
    ensures forall b <- Records(run[0], r) :: Usable(run[|steps|], b)
  {
    hide Reachable, Guard, Faultless, Apply, Kept, OtherOwners, Usable, Losses;
    forall b | b in Records(run[0], r) ensures Usable(run[|steps|], b) {
      if Losses(steps)[b] < run[0].handles[b] {
        RecordIsBuffer(run[0], q, r, b);
        HeldBufferStays(run, steps, b);
      } else {
        CommandBuffers(run, steps, q, r, b);
      }
    }
  }

  lemma RecordIsBuffer(s: State, q: Id, r: Id, b: Id)
    requires Reachable(s) && AtDsp(s, q, r, Records(s, r)) && b in Records(s, r)
    ensures b.Buf?
  {
    hide Reachable, Inv;
    ReachableInv(s);
    InvThreads(s);
    assert ThreadOk(s, Worker(q)) && OpOk(s, Worker(q), Run(r, Some(Records(s, r))));
  }

  // ---- a run in which a command loses its buffer ----

  const G := Grp(2)
  const A := Buf(3, None, 1)
  const B := Buf(4, None, 1)
  const R := Req(6, Q, None, Some(G))
  const InHand := WorkerState(Busy(R), false)

  // Device, queue and group, and the two buffers.
  ghost function Objects(queueBody: Body, groupCount: nat, slots: seq<Id>, a: nat): map<Id, Cell> {
    map[D := Cell(2, Fixed), Q := Cell(1, queueBody), G := Cell(groupCount, Slots(slots)), A := Cell(a, Mappable(0))]
  }

  ghost function InUse(queueBody: Body, slots: seq<Id>, b: nat): map<Id, Cell> {
    Objects(queueBody, 2, slots, 1)[B := Cell(b, Mappable(0))][R := Cell(1, Fixed)]
  }

  lemma GroupMade(s0: State) returns (s: State)
    requires Seen(s0, 2, map[D := Cell(2, Fixed), Q := Cell(1, Fifo([], false))], multiset{D, Q}, [], [], Idle)
    ensures Seen(s, 4, Objects(Fifo([], false), 1, [], 1), multiset{D, Q, G, A}, [], [], Idle)
  {
    hide Reachable;
    Moves(s0, Begin(Client(0), NewGroup));
    var s1 := Apply(s0, Begin(Client(0), NewGroup));
    Moves(s1, Begin(Client(0), NewHostBuffer(1)));
    s := Apply(s1, Begin(Client(0), NewHostBuffer(1)));
    assert s.heap == Objects(Fifo([], false), 1, [], 1);
  }

  lemma Added(s0: State) returns (s: State)
    requires Seen(s0, 4, Objects(Fifo([], false), 1, [], 1), multiset{D, Q, G, A}, [], [], Idle)
    ensures Seen(s, 4, Objects(Fifo([], false), 1, [A], 2), multiset{D, Q, G, A}, [], [], Idle)
  {
    hide Reachable;
    Moves(s0, Begin(Client(0), AddSlot(G, A, true)));
    s := Apply(s0, Begin(Client(0), AddSlot(G, A, true)));
    assert [] + [A] == [A];
    assert s.heap == Objects(Fifo([], false), 1, [A], 2);
  }

  // The record of the group is now the only owner of A.
  lemma OnlyRecord(s0: State) returns (s: State)
    requires Seen(s0, 4, Objects(Fifo([], false), 1, [A], 2), multiset{D, Q, G, A}, [], [], Idle)
    ensures Seen(s, 4, Objects(Fifo([], false), 1, [A], 1), multiset{D, Q, G}, [], [], Idle)
  {
    hide Reachable;
    Moves(s0, Begin(Client(0), Drop(A)));
    var s1 := Apply(s0, Begin(Client(0), Drop(A)));
    Moves(s1, Exec(Client(0), true));
    s := Apply(s1, Exec(Client(0), true));
    assert s.heap == Objects(Fifo([], false), 1, [A], 1);
  }

  // A second buffer, and a command with the group.
  lemma Enqueued(s0: State) returns (s: State)
    requires Seen(s0, 4, Objects(Fifo([], false), 1, [A], 1), multiset{D, Q, G}, [], [], Idle)
    ensures Seen(s, 7, InUse(Fifo([], false), [A], 1), multiset{D, G, B}, [Push(R)], [], Idle)
  {
    hide Reachable;
    Moves(s0, Begin(Client(0), NewHostBuffer(1)));
    var s1 := Apply(s0, Begin(Client(0), NewHostBuffer(1)));
    Moves(s1, Begin(Client(0), Enqueue(Q, Some(G), false, true)));
    s := Apply(s1, Begin(Client(0), Enqueue(Q, Some(G), false, true)));
    assert s.heap == InUse(Fifo([], false), [A], 1);
  }

  lemma Queued(s0: State) returns (s: State)
    requires Seen(s0, 7, InUse(Fifo([], false), [A], 1), multiset{D, G, B}, [Push(R)], [], Idle)
    ensures Seen(s, 7, InUse(Fifo([R], false), [A], 1), multiset{D, Q, G, B}, [], [], Idle)
  {
    hide Reachable;
    Moves(s0, Exec(Client(0), true));
    s := Apply(s0, Exec(Client(0), true));
    assert [] + [R] == [R];
    assert s.heap == InUse(Fifo([R], false), [A], 1);
  }

  lemma Running(s0: State) returns (s: State)
    requires Seen(s0, 7, InUse(Fifo([R], false), [A], 1), multiset{D, Q, G, B}, [], [], Idle)
    ensures Seen(s, 7, InUse(Fifo([], false), [A], 1), multiset{D, Q, G, B}, [], [Run(R, Some([A]))], InHand)
  {
    hide Reachable;
    Moves(s0, Take(Q));
    var s1 := Apply(s0, Take(Q));
    assert [R][1..] == [];
    Moves(s1, Exec(Worker(Q), true));
    s := Apply(s1, Exec(Worker(Q), true));
    assert s.heap == InUse(Fifo([], false), [A], 1);
  }

  // The client puts B in the place of A.
  lemma Replaced(s0: State) returns (s: State)
    requires Seen(s0, 7, InUse(Fifo([], false), [A], 1), multiset{D, Q, G, B}, [], [Run(R, Some([A]))], InHand)
    ensures Seen(s, 7, InUse(Fifo([], false), [B], 2), multiset{D, Q, G, B}, [Release(A)], [Run(R, Some([A]))], InHand)
  {
    hide Reachable;
    var c := Client(0);
    Moves(s0, Begin(c, SetInGroup(G, 0, B)));
    var s1 := Apply(s0, Begin(c, SetInGroup(G, 0, B)));
    assert Ops(s1, c) == [SetSlot(G, 0, B)];
    Moves(s1, Exec(c, true));
    s := Apply(s1, Exec(c, true));
    assert [A][0 := B] == [B];
    assert s.heap == InUse(Fifo([], false), [B], 2);
  }

  lemma Freed(s0: State) returns (s: State)
    requires Seen(s0, 7, InUse(Fifo([], false), [B], 2), multiset{D, Q, G, B}, [Release(A)], [Run(R, Some([A]))],
                  InHand)
    ensures Reachable(s) && AtDsp(s, Q, R, [A]) && A !in s.heap
  {
    hide Reachable;
    var c := Client(0);
    Moves(s0, Exec(c, true));
    var s1 := Apply(s0, Exec(c, true));
    assert Ops(s1, c) == [Free(A)];
    Moves(s1, Exec(c, true));
    s := Apply(s1, Exec(c, true));
  }

  // The command of R is at the DSP with a buffer that is no longer allocated.
  lemma BufferLost() returns (s: State)
    ensures Reachable(s) && AtDsp(s, Q, R, [A]) && A !in s.heap
  {
    hide Reachable, Seen;
    s := Created();
    s := GroupMade(s);
    s := Added(s);
    s := OnlyRecord(s);
    s := Enqueued(s);
    s := Queued(s);
    s := Running(s);
    s := Replaced(s);
    s := Freed(s);
  }
}
