// The reference-counted objects of the XRP host library and the work its threads still have to do.
//
// An object's name records the fields its creator sets once and nobody writes again: the device of a
// queue or device buffer, the queue of an event, the event and the group of a request.
module HostObjects {
  import opened Bags

  datatype Id =
    | Dev(n: nat)
    | Buf(n: nat, device: Option<Id>, size: nat)
    | Grp(n: nat)
    | Que(n: nat, dev: Id)
    | Evt(n: nat, queue: Id)
    | Req(n: nat, target: Id, event: Option<Id>, group: Option<Id>)

  predicate WellNamed(id: Id) {
    match id
    case Dev(_) => true
    case Buf(_, d, _) => d.Some? ==> d.value.Dev?
    case Grp(_) => true
    case Que(_, d) => d.Dev?
    case Evt(_, q) => q.Que? && q.dev.Dev?
    case Req(_, q, e, g) =>
      && q.Que? && q.dev.Dev?
      && (e.Some? ==> e.value.Evt? && e.value.queue == q)
      && (g.Some? ==> g.value.Grp?)
  }

  datatype Status = PENDING | SUCCESS | FAILURE

  // The fields that are written after creation.
  datatype Body =
    | Fixed
    | Mappable(mapCount: nat)
    | Slots(slots: seq<Id>)
    | Fifo(pending: seq<Id>, exit: bool)
    | Signal(status: Status)

  // An object in memory. Count 0 means that its last reference is gone and its release is under way.
  datatype Cell = Cell(count: nat, body: Body)

  ghost predicate BodyFits(id: Id, body: Body) {
    match id
    case Dev(_) => body.Fixed?
    case Buf(_, _, _) => body.Mappable?
    case Grp(_) => body.Slots? && (forall b <- body.slots :: b.Buf? && WellNamed(b))
    case Que(_, _) => body.Fifo? && (forall r <- body.pending :: r.Req? && r.target == id && WellNamed(r))
    case Evt(_, _) => body.Signal?
    case Req(_, _, _, _) => body.Fixed?
  }

  // What a thread has still to do before its current call returns, innermost operation first.
  datatype Op =
    | Release(id: Id)                 // drop one reference
    | Free(id: Id)                    // give the memory back
    | Destroy(q: Id, joining: bool)   // xrp_queue_destroy: set exit, then join the worker
    | Run(r: Id, read: Option<seq<Id>>) // worker: read the group of a dequeued request, then run its command
    | Complete(e: Id, result: Status) // worker: publish the result, wake the waiters, release the event
    | Push(r: Id)                     // client: append the finished request to its queue
    | Wait(e: Id)                     // client: sleep while the event is pending
    | SetSlot(g: Id, i: nat, b: Id)   // client: locked part of xrp_set_buffer_in_group
    | FinishBuffer(d: Id, size: nat)  // client: device retained, ion memory not yet allocated
    | FinishQueue(d: Id)              // client: device retained, queue not yet allocated

  // A claim on an object: one reference, the duty to free it, or the duty to complete it.
  datatype Claim = Ref(id: Id) | Kill(id: Id) | Owe(id: Id)

  ghost function One(held: Claim, x: Claim): nat {
    if held == x then 1 else 0
  }

  ghost function RefTo(target: Option<Id>, x: Claim): nat {
    if target.Some? then One(Ref(target.value), x) else 0
  }

  ghost function RefsTo(ids: seq<Id>, x: Claim): nat {
    if x.Ref? then multiset(ids)[x.id] else 0
  }

  // How often an object holds claim x. A dying object has handed its fields over to the thread releasing
  // it; only a queue keeps its unprocessed requests.
  ghost function CellClaims(id: Id, c: Cell, x: Claim): nat {
    (if c.count == 0 then 0 else FieldClaims(id, c.body, x))
    + (if id.Que? && c.body.Fifo? then RefsTo(c.body.pending, x) else 0)
  }

  ghost function FieldClaims(id: Id, body: Body, x: Claim): nat {
    match id
    case Dev(_) => 0
    case Buf(_, d, _) => RefTo(d, x)
    case Grp(_) => if body.Slots? then RefsTo(body.slots, x) else 0
    case Que(_, d) => One(Ref(d), x)
    case Evt(_, q) => One(Ref(q), x)
    case Req(_, _, e, g) => RefTo(e, x) + RefTo(g, x) + (if e.Some? then One(Owe(e.value), x) else 0)
  }

  // How often a thread holds claim x on behalf of an operation it has still to perform.
  ghost function OpClaims(op: Op, x: Claim): nat {
    match op
    case Release(id) => One(Ref(id), x)
    case Free(id) => One(Kill(id), x)
    case Destroy(q, _) => One(Kill(q), x) + (if q.Que? then One(Ref(q.dev), x) else 0)
    case Run(r, _) => One(Ref(r), x)
    case Complete(e, _) => One(Owe(e), x) + One(Ref(e), x)
    case Push(r) => if r.Req? then One(Ref(r), x) + One(Ref(r.target), x) + RefTo(r.event, x) else 0
    case Wait(e) => One(Ref(e), x)
    case SetSlot(g, _, b) => One(Ref(g), x) + One(Ref(b), x)
    case FinishBuffer(d, _) => One(Ref(d), x)
    case FinishQueue(d) => One(Ref(d), x)
  }

  ghost function OpsClaims(ops: seq<Op>, x: Claim): nat
  {
    if ops == [] then 0 else OpClaims(ops[0], x) + OpsClaims(ops[1..], x)
  }

  function Releases(ids: seq<Id>): (ops: seq<Op>)
    ensures |ops| == |ids| && forall i :: 0 <= i < |ids| ==> ops[i] == Release(ids[i])
  {
    if ids == [] then [] else [Release(ids[0])] + Releases(ids[1..])
  }

  // What the thread that drops the last reference has to do: xrp_release_device, _buffer, _buffer_group,
  // _queue and _event.
  function DeathOps(id: Id, body: Body): seq<Op> {
    match id
    case Dev(_) => [Free(id)]
    case Buf(_, d, _) => (if d.Some? then [Release(d.value)] else []) + [Free(id)]
    case Grp(_) => (if body.Slots? then Releases(body.slots) else []) + [Free(id)]
    case Que(_, _) => [Destroy(id, false)]
    case Evt(_, q) => [Release(q), Free(id)]
    case Req(_, _, _, _) => [Free(id)]
  }

  // The rest of xrp_request_process once the command has run.
  function AfterRun(r: Id, result: Status): seq<Op>
    requires r.Req?
  {
    (if r.group.Some? then [Release(r.group.value)] else [])
    + (if r.event.Some? then [Complete(r.event.value, result)] else [])
    + [Free(r)]
  }

  // ---- counting lemmas ----

  lemma OpsCons(op: Op, rest: seq<Op>, x: Claim)
    ensures OpsClaims([op] + rest, x) == OpClaims(op, x) + OpsClaims(rest, x)
  {
    assert ([op] + rest)[1..] == rest;
  }

  lemma {:induction false} OpsConcat(a: seq<Op>, b: seq<Op>, x: Claim)
    ensures OpsClaims(a + b, x) == OpsClaims(a, x) + OpsClaims(b, x)
  {
    if a == [] {
      assert a + b == b;
    } else {
      OpsConcat(a[1..], b, x);
      assert (a + b)[1..] == a[1..] + b;
    }
  }

  lemma {:induction false} ReleasesClaims(ids: seq<Id>, x: Claim)
    ensures OpsClaims(Releases(ids), x) == RefsTo(ids, x)
  {
    if ids != [] {
      ReleasesClaims(ids[1..], x);
      OpsCons(Release(ids[0]), Releases(ids[1..]), x);
      assert ids == [ids[0]] + ids[1..];
    }
  }

  lemma {:induction false} OpsHold(ops: seq<Op>, op: Op, x: Claim)
    requires op in ops
    ensures OpClaims(op, x) <= OpsClaims(ops, x)
  {
    if ops[0] != op {
      OpsHold(ops[1..], op, x);
    }
  }

  lemma {:induction false} OpsSource(ops: seq<Op>, x: Claim) returns (op: Op)
    requires OpsClaims(ops, x) > 0
    ensures op in ops && OpClaims(op, x) > 0
  {
    if OpClaims(ops[0], x) > 0 {
      op := ops[0];
    } else {
      op := OpsSource(ops[1..], x);
    }
  }

  // The last release hands every claim of the dying object over to the thread, which also takes on
  // the duty to free it.
  lemma DeathHandsOver(id: Id, body: Body, x: Claim)
    requires BodyFits(id, body) && !id.Req?
    ensures OpsClaims(DeathOps(id, body), x) == FieldClaims(id, body, x) + One(Kill(id), x)
  {
    if id.Buf? && id.device.Some? {
      OpsCons(Release(id.device.value), [Free(id)], x);
    } else if id.Grp? {
      ReleasesClaims(body.slots, x);
      OpsConcat(Releases(body.slots), [Free(id)], x);
    } else if id.Evt? {
      assert DeathOps(id, body) == [Release(id.queue)] + [Free(id)];
      OpsCons(Release(id.queue), [Free(id)], x);
    }
  }

  // A request whose command has run hands its group, its event and the duty to complete the event over
  // to the worker.
  lemma RunHandsOver(r: Id, result: Status, x: Claim)
    requires r.Req?
    ensures OpsClaims(AfterRun(r, result), x) == FieldClaims(r, Fixed, x) + One(Kill(r), x)
  {
    var a := if r.group.Some? then [Release(r.group.value)] else [];
    var b := if r.event.Some? then [Complete(r.event.value, result)] else [];
    OpsConcat(a, b, x);
    OpsConcat(a + b, [Free(r)], x);
  }
}
