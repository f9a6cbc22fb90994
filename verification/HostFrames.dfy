// What a step of the XRP host library leaves alone: counts, group contents, mappings and names.
module HostFrames {
  import opened Bags
  import opened HostObjects
  import opened HostSteps
  import opened HostInvariant
  import opened HostConservation
  import opened HostRuns
  import opened HostTheorems

  // Object x is still there with at least its count.
  ghost predicate NotLess(s: State, s': State, x: Id) {
    x in s.heap ==> x in s'.heap && s'.heap[x].count >= s.heap[x].count
  }

  // A group still there has the same contents.
  ghost predicate SameContents(s: State, s': State, x: Id) {
    x in s.heap && x.Grp? && x in s'.heap ==> s'.heap[x].body == s.heap[x].body
  }

  // Whatever is new has a name not used before.
  ghost predicate NewNamed(s: State, s': State, x: Id) {
    x in s'.heap && x !in s.heap ==> x.n >= s.next
  }

  ghost predicate Framed(s: State, s': State, x: Id) {
    NotLess(s, s', x) && SameContents(s, s', x) && NewNamed(s, s', x) && s'.maps == s.maps && s.next <= s'.next
  }

  // ---- calls ----

  lemma CreationFrame(s: State, t: Tid, call: Call, x: Id)
    requires MayCall(s, call) && CallFaultless(s, call) && (x in s.heap ==> x.n < s.next)
    requires call.OpenDevice? || call.NewHostBuffer? || call.NewGroup? || call.Retain? || call.GetSlot?
    ensures Framed(s, ApplyCall(s, t, call), x)
  {
  }

  lemma HandOverFrame(s: State, t: Tid, call: Call, x: Id)
    requires MayCall(s, call) && CallFaultless(s, call) && (x in s.heap ==> x.n < s.next)
    requires call.Drop? || call.NewDeviceBuffer? || call.NewQueue? || call.SetInGroup? || call.AwaitEvent?
    ensures Framed(s, ApplyCall(s, t, call), x)
  {
  }

  lemma PrepareFrame(s: State, t: Tid, q: Id, g: Option<Id>, wantEvent: bool, x: Id)
    requires q in s.heap && (g.Some? ==> g.value in s.heap) && (x in s.heap ==> x.n < s.next)
    ensures Framed(s, Prepare(s, t, q, g, wantEvent), x)
  {
  }

  lemma EnqueueFrame(s: State, t: Tid, call: Call, x: Id)
    requires MayCall(s, call) && CallFaultless(s, call) && (x in s.heap ==> x.n < s.next) && call.Enqueue?
    ensures Framed(s, ApplyCall(s, t, call), x)
  {
    hide Prepare, Framed, BodyFits;
    if call.ok { PrepareFrame(s, t, call.q, call.group, call.wantEvent, x); } else { FrameSelf(s, x); }
  }

  lemma FrameSelf(s: State, x: Id)
    ensures Framed(s, s, x)
  {
  }

  lemma AddSlotFrame(s: State, t: Tid, g: Id, b: Id, ok: bool, x: Id)
    requires MayCall(s, AddSlot(g, b, ok)) && CallFaultless(s, AddSlot(g, b, ok)) && (x in s.heap ==> x.n < s.next)
    ensures var s' := ApplyCall(s, t, AddSlot(g, b, ok));
            && NotLess(s, s', x) && NewNamed(s, s', x) && s'.maps == s.maps && s'.next == s.next
            && (x != g ==> SameContents(s, s', x))
            && (ok ==> g in s'.heap && s'.heap[g].body == Slots(s.heap[g].body.slots + [b]))
            && (!ok ==> s' == s)
  {
  }

  lemma MapFrame(s: State, t: Tid, call: Call, x: Id)
    requires MayCall(s, call) && CallFaultless(s, call) && (x in s.heap ==> x.n < s.next)
    requires call.MapBuffer? || call.UnmapBuffer?
    ensures var s' := ApplyCall(s, t, call);
            NotLess(s, s', x) && SameContents(s, s', x) && NewNamed(s, s', x) && s'.next == s.next
  {
  }

  // The calls that write neither mappings nor the contents of a group.
  ghost predicate Keeping(call: Call) {
    !call.MapBuffer? && !call.UnmapBuffer? && !(call.AddSlot? && call.ok)
  }

  lemma CallFrame(s: State, t: Tid, call: Call, x: Id)
    requires MayCall(s, call) && CallFaultless(s, call) && (x in s.heap ==> x.n < s.next) && Keeping(call)
    ensures Framed(s, ApplyCall(s, t, call), x)
  {
    hide ApplyCall, MayCall, CallFaultless, Framed;
    if call.Enqueue? { EnqueueFrame(s, t, call, x); }
    else if call.AddSlot? { AddSlotFrame(s, t, call.g, call.b, call.ok, x); FrameSelf(s, x); }
    else if call.OpenDevice? || call.NewHostBuffer? || call.NewGroup? || call.Retain? || call.GetSlot? {
      CreationFrame(s, t, call, x);
    } else {
      HandOverFrame(s, t, call, x);
    }
  }

  // ---- operations ----

  lemma WriteFrame(s: State, t: Tid, op: Op, rest: seq<Op>, ok: bool, x: Id)
    requires OpFaultless(s, t, op) && (x in s.heap ==> x.n < s.next)
    requires op.Destroy? || op.Complete? || op.Push? || op.Wait? || (op.Run? && op.read.None?)
    ensures Framed(s, ApplyOp(s, t, op, rest, ok), x)
  {
  }

  lemma ReleaseFrame(s: State, t: Tid, op: Op, rest: seq<Op>, ok: bool, x: Id)
    requires OpFaultless(s, t, op) && (x in s.heap ==> x.n < s.next) && op.Release?
    ensures var s' := ApplyOp(s, t, op, rest, ok);
            && (x != op.id ==> Framed(s, s', x))
            && SameContents(s, s', x) && NewNamed(s, s', x) && s'.maps == s.maps && s.next <= s'.next
            && op.id in s'.heap && s'.heap[op.id].count == s.heap[op.id].count - 1
  {
    hide DeathOps;
  }

  lemma RunFrame(s: State, t: Tid, op: Op, rest: seq<Op>, ok: bool, x: Id)
    requires OpFaultless(s, t, op) && (x in s.heap ==> x.n < s.next) && op.Run? && op.read.Some?
    ensures var s' := ApplyOp(s, t, op, rest, ok);
            && (x != op.r ==> Framed(s, s', x))
            && SameContents(s, s', x) && NewNamed(s, s', x) && s'.maps == s.maps && s.next <= s'.next
            && op.r in s'.heap && s'.heap[op.r].count == 0
  {
    hide AfterRun;
  }

  lemma FreeFrame(s: State, t: Tid, op: Op, rest: seq<Op>, ok: bool, x: Id)
    requires OpFaultless(s, t, op) && (x in s.heap ==> x.n < s.next) && op.Free?
    ensures var s' := ApplyOp(s, t, op, rest, ok);
            && (x != op.id ==> Framed(s, s', x))
            && SameContents(s, s', x) && NewNamed(s, s', x) && s'.maps == s.maps && s.next <= s'.next
            && op.id !in s'.heap
  {
  }

  lemma SetSlotFrame(s: State, t: Tid, op: Op, rest: seq<Op>, ok: bool, x: Id)
    requires OpFaultless(s, t, op) && (x in s.heap ==> x.n < s.next) && op.SetSlot?
    ensures var s' := ApplyOp(s, t, op, rest, ok);
            && NotLess(s, s', x) && NewNamed(s, s', x) && s'.maps == s.maps && s.next <= s'.next
            && (x != op.g ==> SameContents(s, s', x))
  {
  }

  lemma FinishFrame(s: State, t: Tid, op: Op, rest: seq<Op>, ok: bool, x: Id)
    requires OpFaultless(s, t, op) && (x in s.heap ==> x.n < s.next) && (op.FinishBuffer? || op.FinishQueue?)
    ensures Framed(s, ApplyOp(s, t, op, rest, ok), x)
  {
  }

  // Everything but the count that a release lowers, the object that a free removes and the group that a
  // set writes.
  lemma OpFrame(s: State, t: Tid, op: Op, rest: seq<Op>, ok: bool, x: Id)
    requires OpFaultless(s, t, op) && (x in s.heap ==> x.n < s.next)
    ensures var s' := ApplyOp(s, t, op, rest, ok);
            && (op == Release(x) || op == Free(x) || (op.Run? && op.r == x) || NotLess(s, s', x))
            && ((op.SetSlot? && op.g == x) || SameContents(s, s', x))
            && NewNamed(s, s', x) && s'.maps == s.maps && s.next <= s'.next
  {
    hide ApplyOp, OpFaultless;
    if op.Release? { ReleaseFrame(s, t, op, rest, ok, x); }
    else if op.Free? { FreeFrame(s, t, op, rest, ok, x); }
    else if op.SetSlot? { SetSlotFrame(s, t, op, rest, ok, x); }
    else if op.FinishBuffer? || op.FinishQueue? { FinishFrame(s, t, op, rest, ok, x); }
    else if op.Run? && op.read.Some? { RunFrame(s, t, op, rest, ok, x); }
    else { WriteFrame(s, t, op, rest, ok, x); }
  }

  // ---- steps ----

  // The step writes the contents of group g.
  ghost predicate Rewrites(s: State, step: Step, g: Id)
    requires Guard(s, step)
  {
    match step
    case Begin(_, AddSlot(g', _, ok)) => ok && g' == g
    case Exec(t, _) => Ops(s, t)[0].SetSlot? && Ops(s, t)[0].g == g
    case _ => false
  }

  ghost predicate Remaps(step: Step) {
    step.Begin? && (step.call.MapBuffer? || step.call.UnmapBuffer?)
  }

  // The step takes the last step towards x leaving memory, or lowers its count.
  ghost predicate Lowers(s: State, step: Step, x: Id)
    requires Guard(s, step)
  {
    step.Exec? && (var op := Ops(s, step.t)[0]; op == Release(x) || op == Free(x) || (op.Run? && op.r == x))
  }

  lemma StepFrame(s: State, step: Step, x: Id)
    requires Inv(s) && Guard(s, step) && Faultless(s, step)
    ensures var s' := Apply(s, step);
            && (Lowers(s, step, x) || NotLess(s, s', x))
            && (Rewrites(s, step, x) || SameContents(s, s', x))
            && (Remaps(step) || s'.maps == s.maps)
            && NewNamed(s, s', x) && s.next <= s'.next
  {
    hide Inv, ApplyCall, ApplyOp, MayCall, CallFaultless, OpFaultless;
    NamedBelow(s, x);
    match step {
      case Begin(t, call) =>
        if call.MapBuffer? || call.UnmapBuffer? { MapFrame(s, t, call, x); }
        else if call.AddSlot? { AddSlotFrame(s, t, call.g, call.b, call.ok, x); FrameSelf(s, x); }
        else { CallFrame(s, t, call, x); }
      case Exec(t, ok) => OpFrame(s, t, Ops(s, t)[0], Ops(s, t)[1..], ok, x);
      case Take(q) => QueueIsQue(s, q);
      case Return(_) =>
      case Wake(_) =>
    }
  }

  lemma NamedBelow(s: State, x: Id)
    requires Inv(s)
    ensures x in s.heap ==> x.n < s.next
  {
    Fresh(s);
  }
}
