// The linked list of a request queue: head, tail and next pointers refine the FIFO of the step system.
module QueueList {
  import opened Bags
  import opened HostObjects
  import opened HostSteps

  class QueueItem {
    const id: Id
    var next: QueueItem?

    constructor (id: Id)
      ensures this.id == id && next == null
    {
      this.id := id;
      next := null;
    }
  }

  ghost function Ids(items: seq<QueueItem>): (ids: seq<Id>)
    ensures |ids| == |items| && forall i :: 0 <= i < |items| ==> ids[i] == items[i].id
  {
    seq(|items|, i requires 0 <= i < |items| => items[i].id)
  }

  lemma IdsNone()
    ensures Ids([]) == []
  {
  }

  lemma IdsFirst(first: QueueItem, rest: seq<QueueItem>)
    ensures Ids([first] + rest) == [first.id] + Ids(rest)
    ensures (Ids([first] + rest))[1..] == Ids(rest)
  {
  }

  // One pass of the locked loop of xrp_queue_process.
  datatype Outcome = Got(rq: QueueItem) | Stop | Sleep

  ghost predicate Linked(items: seq<QueueItem>)
    reads items
  {
    && (forall i, j :: 0 <= i < |items| && j == i + 1 && j < |items| ==> items[i].next == items[j])
    && (items != [] ==> items[|items| - 1].next == null)
    && (forall i, j :: 0 <= i < j < |items| ==> items[i] != items[j])
  }

  lemma LinkedTail(items: seq<QueueItem>)
    requires Linked(items) && items != []
    ensures Linked(items[1..])
    ensures items[0].next == (if |items| == 1 then null else items[1])
  {
  }

  class RequestQueue {
    var head: QueueItem?
    var tail: QueueItem?
    var exit: bool
    ghost var items: seq<QueueItem>

    ghost predicate Valid()
      reads this, items
    {
      && head == (if items == [] then null else items[0])
      && tail == (if items == [] then null else items[|items| - 1])
      && Linked(items)
    }

    // The queue as the step system sees it.
    ghost function Abs(): Body
      reads this
    {
      Fifo(Ids(items), exit)
    }

    constructor ()
      ensures Valid() && items == [] && Abs() == Fifo([], false)
    {
      head, tail, exit := null, null, false;
      items := [];
    }

    // _xrp_dequeue_request
    method Dequeue() returns (rq: QueueItem?)
      requires Valid()
      modifies this
      ensures Valid() && exit == old(exit)
      ensures rq == null ==> old(items) == [] && items == []
      ensures rq != null ==> old(items) == [rq] + items && rq !in items
    {
      rq := head;
      if rq == null {
        return;
      }
      LinkedTail(items);
      if rq == tail {
        tail := null;
      }
      head := rq.next;
      items := items[1..];
    }

    // xrp_queue_push; broadcast says whether the condition variable is signalled.
    method Push(rq: QueueItem) returns (broadcast: bool)
      requires Valid() && rq !in items
      modifies this, rq, items
      ensures Valid() && items == old(items) + [rq]
      ensures Abs() == AfterPush(old(Abs()), rq.id)
      ensures broadcast <==> old(Abs()).pending == []
    {
      rq.next := null;
      broadcast := tail == null;
      if tail != null {
        tail.next := rq;
      } else {
        head := rq;
      }
      tail := rq;
      items := items + [rq];
      assert items[|items| - 1] == rq;
    }

    // The first locked part of xrp_queue_destroy.
    method RequestExit()
      requires Valid()
      modifies this`exit
      ensures Valid() && items == old(items) && Abs() == AfterExit(old(Abs()))
    {
      exit := true;
    }

    // xrp_queue_process: exit is looked at only when the list is empty.
    method Poll() returns (o: Outcome)
      requires Valid()
      modifies this
      ensures Valid() && Abs() == AfterTake(old(Abs()))
      ensures o.Got? ==> old(items) == [o.rq] + items && o.rq !in items
      ensures o.Got? <==> old(Abs()).pending != []
      ensures o.Got? ==> old(Abs()).pending == [o.rq.id] + Abs().pending
      ensures o.Stop? <==> old(Abs()) == Fifo([], true)
    {
      hide Ids;
      IdsNone();
      var rq := Dequeue();
      if rq != null {
        IdsFirst(rq, items);
        o := Got(rq);
      } else if exit {
        o := Stop;
      } else {
        o := Sleep;
      }
    }

    // xrp_queue_thread once exit is set and nobody pushes any more: it handles what is queued, in order,
    // and stops. handled stands for the calls of fn.
    method Drain() returns (handled: seq<Id>)
      requires Valid() && exit
      modifies this
      ensures Valid() && Abs() == Fifo([], true)
      ensures handled == old(Abs()).pending
    {
      handled := [];
      var running := true;
      ghost var all := Abs().pending;
      assert [] + all == all;
      while running
        invariant Valid() && exit
        invariant handled + Abs().pending == all
        invariant !running ==> items == []
        decreases running, |items|
      {
        ghost var before := Abs().pending;
        var o := Poll();
        match o {
          case Got(rq) =>
            Regroup(handled, before, rq.id, Abs().pending);
            handled := handled + [rq.id];
          case Stop => running := false;
          case Sleep =>
        }
      }
      assert Abs().pending == [];
    }
  }

  lemma Regroup(handled: seq<Id>, before: seq<Id>, id: Id, after: seq<Id>)
    requires before == [id] + after
    ensures handled + before == (handled + [id]) + after
  {
  }

  // ---- the same on the step system's value of a queue ----

  ghost function AfterPush(fifo: Body, r: Id): Body
    requires fifo.Fifo?
  {
    Fifo(fifo.pending + [r], fifo.exit)
  }

  ghost function AfterExit(fifo: Body): Body
    requires fifo.Fifo?
  {
    Fifo(fifo.pending, true)
  }

  ghost function AfterTake(fifo: Body): Body
    requires fifo.Fifo?
  {
    if fifo.pending == [] then fifo else Fifo(fifo.pending[1..], fifo.exit)
  }

  // What Poll's outcome does to the worker.
  ghost predicate TookAs(s: State, s': State, q: Id)
    requires q in s.heap && s.heap[q].body.Fifo? && q in s'.workers
  {
    var pending := s.heap[q].body.pending;
    if pending != [] then s'.workers[q] == WorkerState(Busy(pending[0]), false) && Ops(s', Worker(q)) == [Run(pending[0], None)]
    else if s.heap[q].body.exit then s'.workers[q].pc.Exited?
    else Worker(q) in s'.asleep
  }

  // The steps of the step system that touch a queue change it as the list's methods change the list.
  lemma TakeIsPoll(s: State, q: Id)
    requires Guard(s, Take(q)) && Faultless(s, Take(q))
    ensures q in Apply(s, Take(q)).heap && Apply(s, Take(q)).heap[q].body == AfterTake(s.heap[q].body)
    ensures TookAs(s, Apply(s, Take(q)), q)
  {
    assert Live(s, q);
  }

  lemma PushIsPush(s: State, t: Tid, r: Id, rest: seq<Op>, ok: bool)
    requires OpFaultless(s, t, Push(r))
    ensures var s' := ApplyOp(s, t, Push(r), rest, ok); var q := r.target;
            && q in s'.heap && s'.heap[q].body == AfterPush(s.heap[q].body, r)
            && s'.asleep == (if s.heap[q].body.pending == [] then s.asleep - {Worker(q)} else s.asleep)
  {
    assert Live(s, r.target);
  }

  lemma DestroyIsExit(s: State, t: Tid, q: Id, rest: seq<Op>, ok: bool)
    requires OpFaultless(s, t, Destroy(q, false))
    ensures var s' := ApplyOp(s, t, Destroy(q, false), rest, ok);
            q in s'.heap && s'.heap[q].body == AfterExit(s.heap[q].body) && Worker(q) !in s'.asleep
  {
    assert Live(s, q);
  }
}
