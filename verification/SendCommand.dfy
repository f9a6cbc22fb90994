// sprd_vdsp_send_command as a client of the XRP host library: which calls it makes, and that they leave no
// trace in memory but for a buffer that could not be added to the group.
module SendCommand {
  import opened Bags
  import opened HostObjects
  import opened HostSteps
  import opened HostInvariant
  import opened HostTheorems
  import opened HostLedger
  import HostFrames
  import opened HostNeutral
  import opened HostTraces

  // size and ion descriptor of a caller's buffer; descriptor -1 asks for device memory.
  datatype BufferSpec = BufferSpec(size: nat, fd: int)

  // How the creation of a buffer ends: NoMemory before, Refused after the device was retained.
  datatype Made = Created(id: Id) | NoMemory | Refused

  // What the library answers to the calls of one command; create and add by number of the buffer. memory is
  // the array of buffers, event the event of the command, result its status.
  datatype Answers = Answers(memory: bool, group: Option<Id>, queue: Option<Id>, create: nat -> Made, add: nat -> bool,
                             event: Option<Id>, result: bool)

  // ---- the calls of a command ----

  predicate Well(a: Answers, i: nat) {
    a.create(i).Created? && a.add(i)
  }

  // How many of the first n buffers are created and added before the first failure.
  function WellUpTo(a: Answers, n: nat): (m: nat)
    ensures m <= n && (m < n ==> !Well(a, m)) && (forall j :: 0 <= j < m ==> Well(a, j))
  {
    if n == 0 then 0 else
      var m := WellUpTo(a, n - 1);
      if m == n - 1 && Well(a, n - 1) then n else m
  }

  function BufOf(a: Answers, i: nat): Id
    requires Well(a, i)
  {
    a.create(i).id
  }

  function BufferCall(d: Id, spec: BufferSpec): Call {
    if spec.fd != -1 then NewHostBuffer(spec.size) else NewDeviceBuffer(d, spec.size)
  }

  // xrp_create_buffer; a buffer of the host is only ever refused for lack of memory.
  function BufferLog(d: Id, spec: BufferSpec, made: Made): seq<Event> {
    if made.Created? then [Called(BufferCall(d, spec)), Got(made.id)]
    else if made.Refused? && spec.fd == -1 then [Called(BufferCall(d, spec))]
    else []
  }

  // The first i buffers are created and added.
  function AddedLog(d: Id, g: Id, specs: seq<BufferSpec>, a: Answers, i: nat): seq<Event>
    requires i <= |specs| && forall j :: 0 <= j < i ==> Well(a, j)
  {
    if i == 0 then [] else
      AddedLog(d, g, specs, a, i - 1) + BufferLog(d, specs[i - 1], a.create(i - 1))
      + [Called(AddSlot(g, BufOf(a, i - 1), true))]
  }

  function Bufs(a: Answers, i: nat): (bufs: seq<Id>)
    requires forall j :: 0 <= j < i ==> Well(a, j)
    ensures |bufs| == i
  {
    if i == 0 then [] else Bufs(a, i - 1) + [BufOf(a, i - 1)]
  }

  // A buffer that cannot be created, or cannot be added.
  function FailLog(d: Id, g: Id, spec: BufferSpec, made: Made): seq<Event> {
    BufferLog(d, spec, made) + (if made.Created? then [Called(AddSlot(g, made.id, false))] else [])
  }

  // The loop over the buffers.
  function FillLog(d: Id, g: Id, specs: seq<BufferSpec>, a: Answers): seq<Event> {
    var m := WellUpTo(a, |specs|);
    AddedLog(d, g, specs, a, m) + (if m < |specs| then FailLog(d, g, specs[m], a.create(m)) else [])
  }

  // xrp_run_command_sync: enqueue, wait, release the event.
  function SyncLog(q: Id, g: Id, event: Option<Id>): seq<Event> {
    [Called(Enqueue(q, Some(g), true, event.Some?))]
    + (if event.Some? then [Got(event.value), Called(AwaitEvent(event.value)), Called(Drop(event.value))] else [])
  }

  function DropLog(ids: seq<Id>): seq<Event> {
    if ids == [] then [] else DropLog(ids[..|ids| - 1]) + [Called(Drop(ids[|ids| - 1]))]
  }

  // The releases that end every path: the group, the buffers, the queue.
  function GiveBackLog(g: Id, bufs: seq<Id>, q: Id): seq<Event> {
    [Called(Drop(g))] + DropLog(bufs) + [Called(Drop(q))]
  }

  function QueuedLog(d: Id, g: Id, q: Id, specs: seq<BufferSpec>, a: Answers): seq<Event> {
    var m := WellUpTo(a, |specs|);
    FillLog(d, g, specs, a) + (if m == |specs| then SyncLog(q, g, a.event) else []) + GiveBackLog(g, Bufs(a, m), q)
  }

  // All of sprd_vdsp_send_command on device d.
  function CommandLog(d: Id, specs: seq<BufferSpec>, a: Answers): seq<Event> {
    if !a.memory || a.group.None? then []
    else if a.queue.None? then [Called(NewGroup), Got(a.group.value), Called(NewQueue(d)), Called(Drop(a.group.value))]
    else [Called(NewGroup), Got(a.group.value), Called(NewQueue(d)), Got(a.queue.value)]
         + QueuedLog(d, a.group.value, a.queue.value, specs, a)
  }

  // The buffer that is created but neither added to the group nor released.
  function Stuck(specs: seq<BufferSpec>, a: Answers): Option<Id> {
    var m := WellUpTo(a, |specs|);
    if a.memory && a.group.Some? && a.queue.Some? && m < |specs| && a.create(m).Created? then Some(a.create(m).id) else None
  }

  // ---- where the calls of a command are ----

  // From position at on a buffer is created as specified and added to the group.
  predicate AddedAt(log: seq<Event>, at: nat, d: Id, g: Id, spec: BufferSpec, b: Id) {
    && at + 3 <= |log| && log[at + 1] == Got(b) && log[at + 2] == Called(AddSlot(g, b, true))
    && log[at] == Called(if spec.fd == -1 then NewDeviceBuffer(d, spec.size) else NewHostBuffer(spec.size))
  }

  // The log begins with a new group and a new queue, and the first m buffers created and added in order.
  predicate BeginsWith(log: seq<Event>, d: Id, g: Id, q: Id, specs: seq<BufferSpec>, a: Answers, m: nat) {
    && m <= |specs| && |log| >= 4 + 3 * m && (forall j :: 0 <= j < m ==> Well(a, j))
    && log[0] == Called(NewGroup) && log[1] == Got(g) && log[2] == Called(NewQueue(d)) && log[3] == Got(q)
    && (forall j :: 0 <= j < m ==> AddedAt(log, 4 + 3 * j, d, g, specs[j], BufOf(a, j)))
  }

  // It ends from position at on with the release of the group, the first m buffers in order, and the queue.
  predicate EndsWith(log: seq<Event>, at: nat, g: Id, q: Id, a: Answers, m: nat) {
    && |log| == at + m + 2 && (forall j :: 0 <= j < m ==> Well(a, j))
    && log[at] == Called(Drop(g)) && log[at + m + 1] == Called(Drop(q))
    && (forall j :: 0 <= j < m ==> log[at + 1 + j] == Called(Drop(BufOf(a, j))))
  }

  predicate EnqueuesAt(log: seq<Event>, k: nat) {
    k < |log| && log[k].Called? && log[k].call.Enqueue?
  }

  lemma AddedShift(pre: seq<Event>, log: seq<Event>, post: seq<Event>, at: nat, d: Id, g: Id, spec: BufferSpec, b: Id)
    requires AddedAt(log, at, d, g, spec, b)
    ensures AddedAt(pre + log + post, |pre| + at, d, g, spec, b)
  {
  }

  // Enqueues only at position k, if at all.
  ghost predicate OnlyAt(log: seq<Event>, k: int) {
    forall j: nat :: EnqueuesAt(log, j) ==> j == k
  }

  ghost predicate Nowhere(log: seq<Event>) {
    OnlyAt(log, -1)
  }

  lemma OnlyConcat(a: seq<Event>, b: seq<Event>, k: int)
    ensures Nowhere(a) && OnlyAt(b, k) ==> OnlyAt(a + b, if k < 0 then -1 else |a| + k)
    ensures OnlyAt(a, k) && Nowhere(b) ==> OnlyAt(a + b, k)
  {
    forall j: nat ensures EnqueuesAt(a + b, j) ==> EnqueuesAt(a, j) || (j >= |a| && EnqueuesAt(b, j - |a|)) { }
  }

  lemma {:induction false} AddedPlaces(d: Id, g: Id, specs: seq<BufferSpec>, a: Answers, i: nat)
    requires i <= |specs| && forall j :: 0 <= j < i ==> Well(a, j)
    ensures |AddedLog(d, g, specs, a, i)| == 3 * i && Nowhere(AddedLog(d, g, specs, a, i))
    ensures forall j :: 0 <= j < i ==> AddedAt(AddedLog(d, g, specs, a, i), 3 * j, d, g, specs[j], BufOf(a, j))
  {
    hide AddedAt, Nowhere, OnlyAt;
    if i == 0 {
      NowhereEmpty();
    } else {
      AddedPlaces(d, g, specs, a, i - 1);
      var before := AddedLog(d, g, specs, a, i - 1);
      var last := BufferLog(d, specs[i - 1], a.create(i - 1)) + [Called(AddSlot(g, BufOf(a, i - 1), true))];
      assert AddedLog(d, g, specs, a, i) == [] + before + last;
      assert before + last == [] + before + last;
      LastAdded(before, d, g, specs[i - 1], a, i - 1);
      OnlyConcat(before, last, -1);
      NowhereIs(before);
      NowhereIs(last);
      NowhereIs(before + last);
      forall j | 0 <= j < i ensures AddedAt([] + before + last, 3 * j, d, g, specs[j], BufOf(a, j)) {
        if j < i - 1 { AddedShift([], before, last, 3 * j, d, g, specs[j], BufOf(a, j)); }
      }
    }
  }

  lemma LastAdded(before: seq<Event>, d: Id, g: Id, spec: BufferSpec, a: Answers, i: nat)
    requires Well(a, i)
    ensures var last := BufferLog(d, spec, a.create(i)) + [Called(AddSlot(g, BufOf(a, i), true))];
            |last| == 3 && Nowhere(last) && AddedAt([] + before + last, |before|, d, g, spec, BufOf(a, i))
  {
  }

  lemma {:induction false} DropPlaces(ids: seq<Id>)
    ensures |DropLog(ids)| == |ids| && forall j :: 0 <= j < |ids| ==> DropLog(ids)[j] == Called(Drop(ids[j]))
  {
    if ids != [] { DropPlaces(ids[..|ids| - 1]); }
  }

  lemma {:induction false} BufsAre(a: Answers, i: nat)
    requires forall j :: 0 <= j < i ==> Well(a, j)
    ensures forall j :: 0 <= j < i ==> Bufs(a, i)[j] == BufOf(a, j)
  {
    if i > 0 { BufsAre(a, i - 1); }
  }

  // The calls up to the last buffer added are at the start of the log.
  lemma Begins(rest: seq<Event>, d: Id, g: Id, q: Id, specs: seq<BufferSpec>, a: Answers, m: nat)
    requires m <= |specs| && forall j :: 0 <= j < m ==> Well(a, j)
    ensures var front := [Called(NewGroup), Got(g), Called(NewQueue(d)), Got(q)];
            var start := front + AddedLog(d, g, specs, a, m);
            |start| == 4 + 3 * m && Nowhere(start) && BeginsWith(start + rest, d, g, q, specs, a, m)
  {
    hide AddedLog, AddedAt, Nowhere, BufOf, Well;
    AddedPlaces(d, g, specs, a, m);
    var front := [Called(NewGroup), Got(g), Called(NewQueue(d)), Got(q)];
    var added := AddedLog(d, g, specs, a, m);
    FrontNowhere(d, g, q);
    OnlyConcat(front, added, -1);
    NowhereIs(front + added);
    forall j | 0 <= j < m ensures AddedAt(front + added + rest, 4 + 3 * j, d, g, specs[j], BufOf(a, j)) {
      AddedShift(front, added, rest, 3 * j, d, g, specs[j], BufOf(a, j));
    }
  }

  lemma NowhereEmpty()
    ensures Nowhere([])
  {
  }

  lemma NowhereIs(log: seq<Event>)
    ensures Nowhere(log) <==> OnlyAt(log, -1)
  {
  }

  lemma FrontNowhere(d: Id, g: Id, q: Id)
    ensures Nowhere([Called(NewGroup), Got(g), Called(NewQueue(d)), Got(q)])
  {
  }

  // The releases are at the end.
  lemma Ends(start: seq<Event>, g: Id, q: Id, a: Answers, m: nat)
    requires forall j :: 0 <= j < m ==> Well(a, j)
    ensures EndsWith(start + GiveBackLog(g, Bufs(a, m), q), |start|, g, q, a, m)
            && Nowhere(GiveBackLog(g, Bufs(a, m), q))
  {
    hide DropLog, Bufs, BufOf, Well;
    DropPlaces(Bufs(a, m));
    BufsAre(a, m);
  }

  // From position at on: the buffer is created but cannot be added, or the device refuses it, or nothing is called.
  predicate FailsAt(log: seq<Event>, at: nat, next: nat, d: Id, g: Id, spec: BufferSpec, made: Made) {
    at <= next <= |log| &&
    match made
    case Created(b) =>
      && next == at + 3 && log[at + 1] == Got(b) && log[at + 2] == Called(AddSlot(g, b, false))
      && log[at] == Called(if spec.fd == -1 then NewDeviceBuffer(d, spec.size) else NewHostBuffer(spec.size))
    case Refused =>
      if spec.fd == -1 then next == at + 1 && log[at] == Called(NewDeviceBuffer(d, spec.size)) else next == at
    case NoMemory => next == at
  }

  lemma Fails(start: seq<Event>, back: seq<Event>, d: Id, g: Id, spec: BufferSpec, made: Made)
    ensures var fail := FailLog(d, g, spec, made);
            Nowhere(fail) && FailsAt(start + fail + back, |start|, |start| + |fail|, d, g, spec, made)
  {
  }

  // The calls of a command all of whose buffers are created and added: it is enqueued once with the group and, if that
  // succeeds, waited for, before anything is released.
  ghost predicate Whole(log: seq<Event>, d: Id, specs: seq<BufferSpec>, a: Answers)
    requires a.group.Some? && a.queue.Some?
  {
    var g, q, n, e := a.group.value, a.queue.value, |specs|, a.event;
    && BeginsWith(log, d, g, q, specs, a, n) && |log| > 4 + 3 * n
    && log[4 + 3 * n] == Called(Enqueue(q, Some(g), true, e.Some?)) && OnlyAt(log, 4 + 3 * n)
    && EndsWith(log, (if e.Some? then 8 else 5) + 3 * n, g, q, a, n)
    && (e.Some? ==> log[5 + 3 * n] == Got(e.value) && log[6 + 3 * n] == Called(AwaitEvent(e.value))
                    && log[7 + 3 * n] == Called(Drop(e.value)))
  }

  // Those of a command whose buffer m is the first that is not created or not added: it is not enqueued.
  ghost predicate Failed(log: seq<Event>, d: Id, specs: seq<BufferSpec>, a: Answers, m: nat)
    requires a.group.Some? && a.queue.Some? && m < |specs|
  {
    var g, q := a.group.value, a.queue.value;
    && |log| >= m + 2 && BeginsWith(log, d, g, q, specs, a, m) && EndsWith(log, |log| - m - 2, g, q, a, m)
    && FailsAt(log, 4 + 3 * m, |log| - m - 2, d, g, specs[m], a.create(m)) && Nowhere(log)
  }

  // What a log to which the calls of a command are added says of it.
  ghost predicate Describes(before: seq<Event>, log: seq<Event>, d: Id, specs: seq<BufferSpec>, a: Answers) {
    && |before| <= |log|
    && (!a.memory || a.group.None? ==> log == before)
    && (a.memory && a.group.Some? && a.queue.None? ==>
          log == before + [Called(NewGroup), Got(a.group.value), Called(NewQueue(d)), Called(Drop(a.group.value))])
    && (a.memory && a.group.Some? && a.queue.Some? ==>
          && ((forall i :: 0 <= i < |specs| ==> Well(a, i)) ==> Whole(log[|before|..], d, specs, a))
          && (forall m: nat :: m < |specs| && !Well(a, m) && (forall j :: 0 <= j < m ==> Well(a, j)) ==>
                Failed(log[|before|..], d, specs, a, m)))
  }

  lemma FailedLayout(d: Id, specs: seq<BufferSpec>, a: Answers, m: nat)
    requires a.memory && a.group.Some? && a.queue.Some? && m < |specs|
    requires (forall j :: 0 <= j < m ==> Well(a, j)) && !Well(a, m)
    ensures Failed(CommandLog(d, specs, a), d, specs, a, m)
  {
    hide AddedLog, Well, WellUpTo, Bufs, FailLog, GiveBackLog, BeginsWith, EndsWith, OnlyAt, Nowhere, FailsAt;
    var g, q := a.group.value, a.queue.value;
    WellStops(a, |specs|, m);
    var start := [Called(NewGroup), Got(g), Called(NewQueue(d)), Got(q)] + AddedLog(d, g, specs, a, m);
    var fail, back := FailLog(d, g, specs[m], a.create(m)), GiveBackLog(g, Bufs(a, m), q);
    assert CommandLog(d, specs, a) == start + (fail + back) == (start + fail) + back;
    Begins(fail + back, d, g, q, specs, a, m);
    Ends(start + fail, g, q, a, m);
    EndsLength(start + fail, g, q, a, m);
    Fails(start, back, d, g, specs[m], a.create(m));
    NowhereIs(start);
    NowhereIs(fail);
    NowhereIs(back);
    NowhereIs(start + fail);
    NowhereIs(start + fail + back);
    OnlyConcat(start, fail, -1);
    OnlyConcat(start + fail, back, -1);
  }

  lemma EndsLength(start: seq<Event>, g: Id, q: Id, a: Answers, m: nat)
    requires forall j :: 0 <= j < m ==> Well(a, j)
    ensures |GiveBackLog(g, Bufs(a, m), q)| == m + 2
  {
    DropPlaces(Bufs(a, m));
  }

  lemma WholeLayout(d: Id, specs: seq<BufferSpec>, a: Answers)
    requires a.memory && a.group.Some? && a.queue.Some? && forall j :: 0 <= j < |specs| ==> Well(a, j)
    ensures Whole(CommandLog(d, specs, a), d, specs, a)
  {
    hide AddedLog, Well, WellUpTo, Bufs, FailLog, GiveBackLog, BeginsWith, EndsWith, OnlyAt, Nowhere, SyncLog;
    var g, q, n := a.group.value, a.queue.value, |specs|;
    WellStops(a, n, n);
    var start := [Called(NewGroup), Got(g), Called(NewQueue(d)), Got(q)] + AddedLog(d, g, specs, a, n);
    var sync, back := SyncLog(q, g, a.event), GiveBackLog(g, Bufs(a, n), q);
    assert CommandLog(d, specs, a) == start + (sync + back) == (start + sync) + back;
    Begins(sync + back, d, g, q, specs, a, n);
    Ends(start + sync, g, q, a, n);
    SyncPlaces(q, g, a.event);
    NowhereIs(start);
    NowhereIs(back);
    OnlyConcat(start, sync, 0);
    OnlyConcat(start + sync, back, 4 + 3 * n);
  }

  lemma SyncPlaces(q: Id, g: Id, e: Option<Id>)
    ensures var log := SyncLog(q, g, e);
            && |log| == (if e.Some? then 4 else 1) && log[0] == Called(Enqueue(q, Some(g), true, e.Some?)) && OnlyAt(log, 0)
            && (e.Some? ==> log[1] == Got(e.value) && log[2] == Called(AwaitEvent(e.value)) && log[3] == Called(Drop(e.value)))
  {
  }

  // ---- the function itself ----

  // A client's account with the XRP host library: the calls it has made with what they returned, and the
  // references it holds.
  class Account {
    const initially: multiset<Id>
    var log: seq<Event>
    var held: multiset<Id>

    ghost predicate Valid()
      reads this
    {
      forall id: Id :: held[id] + GivenUp(log, id) == initially[id] + Given(log, id)
    }

    constructor (initially: multiset<Id>)
      ensures Valid() && held == initially && log == []
    {
      this.initially := initially;
      log, held := [], initially;
    }

    // The library returns a reference.
    method Receive(id: Id)
      requires Valid()
      modifies this
      ensures Valid() && log == old(log) + [Got(id)] && held == old(held) + multiset{id}
    {
      LogEnds(log, Got(id));
      log, held := log + [Got(id)], held + multiset{id};
    }

    // A call by which the client gives up nothing.
    method Make(call: Call)
      requires Valid() && !call.Drop?
      modifies this`log
      ensures Valid() && log == old(log) + [Called(call)]
    {
      LogEnds(log, Called(call));
      log := log + [Called(call)];
    }

    // Releasing a reference takes holding one.
    method Release(id: Id)
      requires Valid() && id in held
      modifies this
      ensures Valid() && log == old(log) + [Called(Drop(id))] && held == old(held) - multiset{id}
    {
      LogEnds(log, Called(Drop(id)));
      log, held := log + [Called(Drop(id))], held - multiset{id};
    }

    method CreateBufferGroup(answer: Option<Id>)
      requires Valid()
      modifies this
      ensures Valid() && held == old(held) + Single(answer)
      ensures log == old(log) + (if answer.Some? then [Called(NewGroup), Got(answer.value)] else [])
    {
      if answer.Some? {
        Make(NewGroup);
        Receive(answer.value);
      }
    }

    method CreateQueue(device: Id, answer: Option<Id>)
      requires Valid() && device in held
      modifies this
      ensures Valid() && held == old(held) + Single(answer)
      ensures log == old(log) + [Called(NewQueue(device))] + (if answer.Some? then [Got(answer.value)] else [])
    {
      Make(NewQueue(device));
      if answer.Some? { Receive(answer.value); }
    }

    method CreateBuffer(device: Id, spec: BufferSpec, made: Made)
      requires Valid() && device in held
      modifies this
      ensures Valid() && held == old(held) + (if made.Created? then multiset{made.id} else multiset{})
      ensures log == old(log) + BufferLog(device, spec, made)
    {
      if made.Created? || (made.Refused? && spec.fd == -1) { Make(BufferCall(device, spec)); }
      if made.Created? { Receive(made.id); }
    }

    // The group takes a reference of its own; what the client holds does not change.
    method AddBufferToGroup(g: Id, b: Id, ok: bool)
      requires Valid() && g in held && b in held
      modifies this`log
      ensures Valid() && log == old(log) + [Called(AddSlot(g, b, ok))]
    {
      Make(AddSlot(g, b, ok));
    }

    method RunCommandSync(q: Id, g: Id, event: Option<Id>)
      requires Valid() && q in held && g in held
      modifies this
      ensures Valid() && held == old(held) && log == old(log) + SyncLog(q, g, event)
      ensures event.None? ==> log == old(log) + [Called(Enqueue(q, Some(g), true, false))]
      ensures event.Some? ==> log == old(log) + [Called(Enqueue(q, Some(g), true, true)), Got(event.value),
                                                 Called(AwaitEvent(event.value)), Called(Drop(event.value))]
    {
      hide Valid, SyncLog;
      SyncIs(log, q, g, event);
      if event.Some? { PutTake(held, event.value); }
      Make(Enqueue(q, Some(g), true, event.Some?));
      if event.Some? {
        Receive(event.value);
        Make(AwaitEvent(event.value));
        Release(event.value);
      }
    }
  }

  lemma SyncIs(log: seq<Event>, q: Id, g: Id, event: Option<Id>)
    ensures var first := Called(Enqueue(q, Some(g), true, event.Some?));
            if event.None? then log + [first] == log + SyncLog(q, g, event)
            else
              && log + [first] + [Got(event.value)] + [Called(AwaitEvent(event.value))] + [Called(Drop(event.value))]
                 == log + SyncLog(q, g, event)
              && SyncLog(q, g, event)
                 == [first, Got(event.value), Called(AwaitEvent(event.value)), Called(Drop(event.value))]
  {
  }

  lemma LogEnds(log: seq<Event>, e: Event)
    ensures forall id: Id :: Given(log + [e], id) == Given(log, id) + (if e == Got(id) then 1 else 0)
    ensures forall id: Id :: GivenUp(log + [e], id) == GivenUp(log, id) + (if e == Called(Drop(id)) then 1 else 0)
  {
    forall id: Id
      ensures Given(log + [e], id) == Given(log, id) + (if e == Got(id) then 1 else 0)
      ensures GivenUp(log + [e], id) == GivenUp(log, id) + (if e == Called(Drop(id)) then 1 else 0)
    {
      LogConcat(log, [e], id);
      LogOne(e, id);
    }
  }

  // leaked is the buffer that was created but neither added to the group nor released. Everything else is
  // given back on every path.
  method SendCommand(account: Account, device: Id, buffers: seq<BufferSpec>, a: Answers)
    returns (ok: bool, leaked: Option<Id>)
    requires account.Valid() && device in account.held
    modifies account
    ensures account.Valid() && account.log == old(account.log) + CommandLog(device, buffers, a)
    ensures account.held == old(account.held) + Single(leaked) && leaked == Stuck(buffers, a)
    ensures ok <==> a.memory && a.group.Some? && a.queue.Some? && (forall i :: 0 <= i < |buffers| ==> Well(a, i))
                    && a.event.Some? && a.result
    ensures Describes(old(account.log), account.log, device, buffers, a)
  {
    hide Stock, Single, Well, Account.Valid, CommandLog, QueuedLog, FillLog, SyncLog, GiveBackLog, Bufs, Describes;
    ghost var base, log := account.held, account.log;
    Described(log, device, buffers, a);
    NoneLeft(base);
    CommandStarts(log, device, buffers, a);
    if !a.memory || a.group.None? {
      return false, None;
    }
    var group := a.group.value;
    account.CreateBufferGroup(a.group);
    OneLeft(base, group);
    account.CreateQueue(device, a.queue);
    if a.queue.None? {
      PutTake(base, group);
      account.Release(group);
      return false, None;
    }
    var queue := a.queue.value;
    StockStart(base, group, queue);
    var bufs, all;
    bufs, all, leaked := FillGroup(account, base, group, queue, device, buffers, a);
    if all {
      NoneLeft(base);
      StockHolds(base, group, bufs, queue);
      account.RunCommandSync(queue, group, a.event);
    }
    GiveBack(account, base + Single(leaked), group, bufs, queue);
    CommandEnds(log, device, buffers, a);
    ok := all && a.event.Some? && a.result;
  }

  lemma Described(before: seq<Event>, d: Id, specs: seq<BufferSpec>, a: Answers)
    ensures Describes(before, before + CommandLog(d, specs, a), d, specs, a)
  {
    hide Whole, Failed, Well, QueuedLog;
    var log := CommandLog(d, specs, a);
    assert (before + log)[|before|..] == log;
    if a.memory && a.group.Some? && a.queue.Some? {
      hide CommandLog;
      if forall i :: 0 <= i < |specs| ==> Well(a, i) { WholeLayout(d, specs, a); }
      forall m: nat | m < |specs| && !Well(a, m) && (forall j :: 0 <= j < m ==> Well(a, j)) ensures Failed(log, d, specs, a, m) {
        FailedLayout(d, specs, a, m);
      }
    }
  }

  // The calls up to the creation of the queue.
  lemma CommandStarts(log: seq<Event>, d: Id, specs: seq<BufferSpec>, a: Answers)
    ensures !a.memory || a.group.None? ==> log + CommandLog(d, specs, a) == log && Stuck(specs, a) == None
    ensures a.memory && a.group.Some? && a.queue.None? ==>
              && log + [Called(NewGroup), Got(a.group.value)] + [Called(NewQueue(d))] + [] + [Called(Drop(a.group.value))]
                 == log + CommandLog(d, specs, a)
              && Stuck(specs, a) == None
  {
  }

  lemma CommandEnds(log: seq<Event>, d: Id, specs: seq<BufferSpec>, a: Answers)
    requires a.memory && a.group.Some? && a.queue.Some?
    ensures var g, q, m := a.group.value, a.queue.value, WellUpTo(a, |specs|);
            var start := log + [Called(NewGroup), Got(g)] + [Called(NewQueue(d))] + [Got(q)] + FillLog(d, g, specs, a);
            && (m == |specs| ==> start + SyncLog(q, g, a.event) + GiveBackLog(g, Bufs(a, m), q) == log + CommandLog(d, specs, a))
            && (m < |specs| ==> start + GiveBackLog(g, Bufs(a, m), q) == log + CommandLog(d, specs, a))
  {
    hide FillLog, SyncLog, GiveBackLog, Bufs, WellUpTo;
    var g, q, m := a.group.value, a.queue.value, WellUpTo(a, |specs|);
    var front := [Called(NewGroup), Got(g)] + [Called(NewQueue(d))] + [Got(q)];
    assert front == [Called(NewGroup), Got(g), Called(NewQueue(d)), Got(q)];
    Regroup(log, [Called(NewGroup), Got(g)], [Called(NewQueue(d))], [Got(q)]);
    Regroup(log + front, FillLog(d, g, specs, a), if m == |specs| then SyncLog(q, g, a.event) else [], GiveBackLog(g, Bufs(a, m), q));
    Regroup(log, front, QueuedLog(d, g, q, specs, a), []);
  }

  lemma Regroup(log: seq<Event>, a: seq<Event>, b: seq<Event>, c: seq<Event>)
    ensures log + a + b + c == log + (a + b + c)
    ensures b == [] ==> log + a + c == log + (a + b + c)
    ensures c == [] ==> log + a + b == log + (a + b)
  {
  }

  lemma NoneLeft(m: multiset<Id>)
    ensures m + Single(None) == m
  {
  }

  lemma OneLeft(m: multiset<Id>, b: Id)
    ensures m + Single(Some(b)) == m + multiset{b}
  {
  }

  lemma PutTake(m: multiset<Id>, id: Id)
    ensures id in m + multiset{id} && (m + multiset{id}) - multiset{id} == m
  {
  }

  // Its loop over the buffers, up to the first failure.
  method FillGroup(account: Account, ghost base: multiset<Id>, group: Id, queue: Id, device: Id,
                   buffers: seq<BufferSpec>, a: Answers)
    returns (bufs: seq<Id>, all: bool, stuck: Option<Id>)
    requires account.Valid() && account.held == Stock(base, group, [], queue) && device in base
    modifies account
    ensures account.Valid() && account.held == Stock(base + Single(stuck), group, bufs, queue)
    ensures account.log == old(account.log) + FillLog(device, group, buffers, a)
    ensures var m := WellUpTo(a, |buffers|);
            && bufs == Bufs(a, m) && (all <==> m == |buffers|)
            && stuck == if m < |buffers| && a.create(m).Created? then Some(a.create(m).id) else None
  {
    hide Stock, Single, Account.Valid, BufferLog, AddedLog, FillLog;
    ghost var log := account.log;
    bufs, stuck := [], None;
    NoneLeft(base);
    NothingAdded(log, device, group, buffers, a);
    var i := 0;
    while i < |buffers|
      invariant i <= |buffers| && account.Valid() && forall j :: 0 <= j < i ==> Well(a, j)
      invariant bufs == Bufs(a, i) && account.held == Stock(base, group, bufs, queue)
      invariant account.log == log + AddedLog(device, group, buffers, a, i)
    {
      StockHolds(base, group, bufs, queue);
      account.CreateBuffer(device, buffers[i], a.create(i));
      if !Well(a, i) {
        WellStops(a, |buffers|, i);
        FillFails(log, device, group, buffers, a);
      }
      if !a.create(i).Created? {
        return bufs, false, None;
      }
      var b := a.create(i).id;
      StockNext(base, group, bufs, queue, b);
      account.AddBufferToGroup(group, b, a.add(i));
      if !a.add(i) {
        OneLeft(base, b);
        return bufs, false, Some(b);
      }
      AddedNext(log, device, group, buffers, a, i);
      bufs := bufs + [b];
      i := i + 1;
    }
    all := true;
    WellStops(a, |buffers|, |buffers|);
    FillEnds(device, group, buffers, a);
  }

  lemma NothingAdded(log: seq<Event>, d: Id, g: Id, specs: seq<BufferSpec>, a: Answers)
    ensures log + AddedLog(d, g, specs, a, 0) == log
  {
  }

  lemma AddedNext(log: seq<Event>, d: Id, g: Id, specs: seq<BufferSpec>, a: Answers, i: nat)
    requires i < |specs| && (forall j :: 0 <= j < i ==> Well(a, j)) && Well(a, i)
    ensures log + AddedLog(d, g, specs, a, i) + BufferLog(d, specs[i], a.create(i)) + [Called(AddSlot(g, BufOf(a, i), true))]
            == log + AddedLog(d, g, specs, a, i + 1)
  {
    hide BufferLog;
  }

  lemma FillFails(log: seq<Event>, d: Id, g: Id, specs: seq<BufferSpec>, a: Answers)
    requires WellUpTo(a, |specs|) < |specs|
    ensures var m := WellUpTo(a, |specs|);
            var made := a.create(m);
            var start := log + AddedLog(d, g, specs, a, m) + BufferLog(d, specs[m], made);
            log + FillLog(d, g, specs, a) == if made.Created? then start + [Called(AddSlot(g, made.id, false))] else start
  {
    hide BufferLog, AddedLog, WellUpTo;
  }

  lemma FillEnds(d: Id, g: Id, specs: seq<BufferSpec>, a: Answers)
    requires WellUpTo(a, |specs|) == |specs|
    ensures FillLog(d, g, specs, a) == AddedLog(d, g, specs, a, |specs|)
  {
  }

  // The first failure is where the loop stops.
  lemma WellStops(a: Answers, n: nat, i: nat)
    requires i <= n && (forall j :: 0 <= j < i ==> Well(a, j)) && (i < n ==> !Well(a, i))
    ensures WellUpTo(a, n) == i
  {
  }

  // What the client holds besides rest while a command is prepared.
  ghost function Stock(rest: multiset<Id>, group: Id, bufs: seq<Id>, queue: Id): multiset<Id> {
    rest + multiset{group} + multiset{queue} + multiset(bufs)
  }

  lemma StockStart(rest: multiset<Id>, group: Id, queue: Id)
    ensures rest + multiset{group} + Single(Some(queue)) == Stock(rest, group, [], queue)
  {
  }

  lemma StockHolds(rest: multiset<Id>, group: Id, bufs: seq<Id>, queue: Id)
    ensures group in Stock(rest, group, bufs, queue) && queue in Stock(rest, group, bufs, queue)
    ensures forall id <- rest :: id in Stock(rest, group, bufs, queue)
  {
  }

  lemma StockNext(rest: multiset<Id>, group: Id, bufs: seq<Id>, queue: Id, b: Id)
    ensures Stock(rest, group, bufs, queue) + multiset{b} == Stock(rest, group, bufs + [b], queue)
    ensures Stock(rest, group, bufs, queue) + multiset{b} == Stock(rest + multiset{b}, group, bufs, queue)
    ensures group in Stock(rest, group, bufs + [b], queue) && b in Stock(rest, group, bufs + [b], queue)
  {
  }

  // The releases that end every path: the group, the buffers in bufs, the queue.
  method GiveBack(account: Account, ghost rest: multiset<Id>, group: Id, bufs: seq<Id>, queue: Id)
    requires account.Valid() && account.held == Stock(rest, group, bufs, queue)
    modifies account
    ensures account.Valid() && account.held == rest
    ensures account.log == old(account.log) + GiveBackLog(group, bufs, queue)
  {
    hide Stock, Left, Account.Valid, DropLog, GiveBackLog;
    ghost var start := account.log + [Called(Drop(group))];
    StockHolds(rest, group, bufs, queue);
    GroupFirst(rest, group, bufs, queue);
    GiveBackShape(account.log, group, bufs, queue);
    account.Release(group);
    NoDrops(start, bufs);
    var j := 0;
    while j < |bufs|
      invariant j <= |bufs| && account.Valid()
      invariant account.held == Left(rest, bufs[j..], queue)
      invariant account.log == start + DropLog(bufs[..j])
    {
      BufferNext(rest, bufs, j, queue);
      DropNext(start, bufs, j);
      account.Release(bufs[j]);
      j := j + 1;
    }
    assert bufs[j..] == [] && bufs[..j] == bufs;
    QueueLast(rest, queue);
    account.Release(queue);
  }

  lemma GiveBackShape(log: seq<Event>, g: Id, bufs: seq<Id>, q: Id)
    ensures log + [Called(Drop(g))] + DropLog(bufs) + [Called(Drop(q))] == log + GiveBackLog(g, bufs, q)
  {
    hide DropLog;
  }

  lemma NoDrops(log: seq<Event>, bufs: seq<Id>)
    ensures log + DropLog(bufs[..0]) == log
  {
  }

  lemma DropNext(log: seq<Event>, bufs: seq<Id>, j: nat)
    requires j < |bufs|
    ensures log + DropLog(bufs[..j]) + [Called(Drop(bufs[j]))] == log + DropLog(bufs[..j + 1])
  {
    assert bufs[..j + 1][..j] == bufs[..j];
  }

  ghost function Left(rest: multiset<Id>, bufs: seq<Id>, queue: Id): multiset<Id> {
    rest + multiset{queue} + multiset(bufs)
  }

  lemma GroupFirst(rest: multiset<Id>, group: Id, bufs: seq<Id>, queue: Id)
    ensures Stock(rest, group, bufs, queue) - multiset{group} == Left(rest, bufs[0..], queue) && bufs[0..] == bufs
  {
    assert bufs[0..] == bufs;
  }

  lemma BufferNext(rest: multiset<Id>, bufs: seq<Id>, j: nat, queue: Id)
    requires j < |bufs|
    ensures bufs[j] in Left(rest, bufs[j..], queue)
    ensures Left(rest, bufs[j..], queue) - multiset{bufs[j]} == Left(rest, bufs[j + 1..], queue)
  {
    assert bufs[j..] == [bufs[j]] + bufs[j + 1..];
  }

  lemma QueueLast(rest: multiset<Id>, queue: Id)
    ensures queue in Left(rest, [], queue) && Left(rest, [], queue) - multiset{queue} == rest
  {
  }

  // ---- what the calls of a command amount to ----

  lemma Counted(log: seq<Event>, id: Id)
    ensures |log| == 1 ==> Given(log, id) == (if log[0] == Got(id) then 1 else 0)
                           && GivenUp(log, id) == (if log[0] == Called(Drop(id)) then 1 else 0)
    ensures |log| == 2 ==> Given(log, id) == Given([log[0]], id) + Given([log[1]], id)
                           && GivenUp(log, id) == GivenUp([log[0]], id) + GivenUp([log[1]], id)
  {
    if |log| == 1 { LogOne(log[0], id); assert log == [log[0]]; }
    if |log| == 2 { LogConcat([log[0]], [log[1]], id); assert log == [log[0]] + [log[1]]; }
  }

  lemma BufferBalance(d: Id, spec: BufferSpec, made: Made, id: Id)
    ensures Given(BufferLog(d, spec, made), id) == if made == Created(id) then 1 else 0
    ensures GivenUp(BufferLog(d, spec, made), id) == 0
  {
    Counted([Called(BufferCall(d, spec))], id);
    if made.Created? {
      Counted([Got(made.id)], id);
      Counted(BufferLog(d, spec, made), id);
    }
  }

  lemma {:induction false} AddedBalance(d: Id, g: Id, specs: seq<BufferSpec>, a: Answers, i: nat, id: Id)
    requires i <= |specs| && forall j :: 0 <= j < i ==> Well(a, j)
    ensures Given(AddedLog(d, g, specs, a, i), id) == multiset(Bufs(a, i))[id]
    ensures GivenUp(AddedLog(d, g, specs, a, i), id) == 0
  {
    hide BufferLog, Given, GivenUp;
    if i == 0 {
      NoneGiven(id);
    } else {
      AddedBalance(d, g, specs, a, i - 1, id);
      var last := [Called(AddSlot(g, BufOf(a, i - 1), true))];
      LogConcat(AddedLog(d, g, specs, a, i - 1), BufferLog(d, specs[i - 1], a.create(i - 1)), id);
      LogConcat(AddedLog(d, g, specs, a, i - 1) + BufferLog(d, specs[i - 1], a.create(i - 1)), last, id);
      BufferBalance(d, specs[i - 1], a.create(i - 1), id);
      Counted(last, id);
    }
  }

  lemma FailBalance(d: Id, g: Id, spec: BufferSpec, made: Made, id: Id)
    ensures Given(FailLog(d, g, spec, made), id) == if made == Created(id) then 1 else 0
    ensures GivenUp(FailLog(d, g, spec, made), id) == 0
  {
    hide BufferLog, Given, GivenUp;
    BufferBalance(d, spec, made, id);
    NoneGiven(id);
    if made.Created? { Counted([Called(AddSlot(g, made.id, false))], id); }
    LogConcat(BufferLog(d, spec, made), if made.Created? then [Called(AddSlot(g, made.id, false))] else [], id);
  }

  // The loop keeps the buffers added, and one more if that could not be added.
  lemma FillBalance(d: Id, g: Id, specs: seq<BufferSpec>, a: Answers, id: Id)
    ensures var m := WellUpTo(a, |specs|);
            && Given(FillLog(d, g, specs, a), id)
               == multiset(Bufs(a, m))[id] + (if m < |specs| && a.create(m) == Created(id) then 1 else 0)
            && GivenUp(FillLog(d, g, specs, a), id) == 0
  {
    hide AddedLog, FailLog, Given, GivenUp, WellUpTo, Bufs;
    var m := WellUpTo(a, |specs|);
    AddedBalance(d, g, specs, a, m, id);
    NoneGiven(id);
    if m < |specs| { FailBalance(d, g, specs[m], a.create(m), id); }
    LogConcat(AddedLog(d, g, specs, a, m), if m < |specs| then FailLog(d, g, specs[m], a.create(m)) else [], id);
  }

  lemma SyncBalance(q: Id, g: Id, event: Option<Id>, id: Id)
    ensures Given(SyncLog(q, g, event), id) == GivenUp(SyncLog(q, g, event), id)
  {
    hide Given, GivenUp;
    var first := [Called(Enqueue(q, Some(g), true, event.Some?))];
    Counted(first, id);
    NoneGiven(id);
    if event.Some? {
      var e := event.value;
      Counted([Got(e)], id);
      Counted([Called(AwaitEvent(e))], id);
      Counted([Called(Drop(e))], id);
      Counted([Got(e), Called(AwaitEvent(e))], id);
      LogConcat([Got(e), Called(AwaitEvent(e))], [Called(Drop(e))], id);
      assert [Got(e), Called(AwaitEvent(e)), Called(Drop(e))] == [Got(e), Called(AwaitEvent(e))] + [Called(Drop(e))];
      LogConcat(first, [Got(e), Called(AwaitEvent(e)), Called(Drop(e))], id);
    } else {
      assert first + [] == first;
    }
  }

  lemma {:induction false} DropBalance(ids: seq<Id>, id: Id)
    ensures Given(DropLog(ids), id) == 0 && GivenUp(DropLog(ids), id) == multiset(ids)[id]
  {
    hide Given, GivenUp;
    if ids == [] {
      NoneGiven(id);
    } else {
      var n := |ids| - 1;
      DropBalance(ids[..n], id);
      LogConcat(DropLog(ids[..n]), [Called(Drop(ids[n]))], id);
      Counted([Called(Drop(ids[n]))], id);
      assert ids == ids[..n] + [ids[n]];
    }
  }

  lemma GiveBackBalance(g: Id, bufs: seq<Id>, q: Id, id: Id)
    ensures Given(GiveBackLog(g, bufs, q), id) == 0
    ensures GivenUp(GiveBackLog(g, bufs, q), id) == multiset(bufs)[id] + (if g == id then 1 else 0) + (if q == id then 1 else 0)
  {
    hide Given, GivenUp, DropLog;
    DropBalance(bufs, id);
    Counted([Called(Drop(g))], id);
    Counted([Called(Drop(q))], id);
    LogConcat([Called(Drop(g))], DropLog(bufs), id);
    LogConcat([Called(Drop(g))] + DropLog(bufs), [Called(Drop(q))], id);
  }

  lemma QueuedBalance(d: Id, g: Id, q: Id, specs: seq<BufferSpec>, a: Answers, id: Id)
    ensures var m := WellUpTo(a, |specs|); var log := QueuedLog(d, g, q, specs, a);
            Given(log, id) + (if g == id then 1 else 0) + (if q == id then 1 else 0)
            == GivenUp(log, id) + (if m < |specs| && a.create(m) == Created(id) then 1 else 0)
  {
    hide Given, GivenUp, FillLog, SyncLog, GiveBackLog, WellUpTo, Bufs;
    var m := WellUpTo(a, |specs|);
    var sync := if m == |specs| then SyncLog(q, g, a.event) else [];
    FillBalance(d, g, specs, a, id);
    SyncBalance(q, g, a.event, id);
    NoneGiven(id);
    GiveBackBalance(g, Bufs(a, m), q, id);
    LogConcat(FillLog(d, g, specs, a), sync, id);
    LogConcat(FillLog(d, g, specs, a) + sync, GiveBackLog(g, Bufs(a, m), q), id);
  }

  // A command gives up all it is given, but for the buffer that it could not add.
  lemma CommandBalance(d: Id, specs: seq<BufferSpec>, a: Answers, id: Id)
    ensures Given(CommandLog(d, specs, a), id) == GivenUp(CommandLog(d, specs, a), id) + Count(Stuck(specs, a), id)
  {
    hide Given, GivenUp, QueuedLog, WellUpTo;
    NoneGiven(id);
    if a.memory && a.group.Some? {
      var g := a.group.value;
      var start := [Called(NewGroup), Got(g)];
      Counted([Called(NewGroup)], id);
      Counted([Got(g)], id);
      Counted([Called(NewQueue(d))], id);
      Counted([Called(Drop(g))], id);
      Counted(start, id);
      if a.queue.None? {
        Counted([Called(NewQueue(d)), Called(Drop(g))], id);
        LogConcat(start, [Called(NewQueue(d)), Called(Drop(g))], id);
        assert CommandLog(d, specs, a) == start + [Called(NewQueue(d)), Called(Drop(g))];
      } else {
        var q := a.queue.value;
        Counted([Got(q)], id);
        Counted([Called(NewQueue(d)), Got(q)], id);
        QueuedBalance(d, g, q, specs, a, id);
        LogConcat(start, [Called(NewQueue(d)), Got(q)], id);
        LogConcat(start + [Called(NewQueue(d)), Got(q)], QueuedLog(d, g, q, specs, a), id);
        assert CommandLog(d, specs, a) == start + [Called(NewQueue(d)), Got(q)] + QueuedLog(d, g, q, specs, a);
      }
    }
  }

  // ---- which calls a command makes ----

  // Group g is the only one the call touches, every request has an event, and nothing old is returned.
  predicate OfCommand(e: Event, g: Id) {
    e.Called? ==>
      match e.call
      case Retain(_) => false
      case GetSlot(_, _) => false
      case MapBuffer(_, _, _) => false
      case UnmapBuffer(_, _) => false
      case SetInGroup(_, _, _) => false
      case AddSlot(h, _, _) => h == g
      case Enqueue(_, _, wantEvent, _) => wantEvent
      case _ => true
  }

  lemma {:induction false} AddedCalls(d: Id, g: Id, specs: seq<BufferSpec>, a: Answers, i: nat)
    requires i <= |specs| && forall j :: 0 <= j < i ==> Well(a, j)
    ensures forall e <- AddedLog(d, g, specs, a, i) :: OfCommand(e, g)
  {
    if i > 0 { AddedCalls(d, g, specs, a, i - 1); }
  }

  lemma {:induction false} DropCalls(ids: seq<Id>, g: Id)
    ensures forall e <- DropLog(ids) :: OfCommand(e, g)
  {
    if ids != [] { DropCalls(ids[..|ids| - 1], g); }
  }

  lemma FillCalls(d: Id, g: Id, specs: seq<BufferSpec>, a: Answers)
    ensures forall e <- FillLog(d, g, specs, a) :: OfCommand(e, g)
  {
    hide AddedLog, WellUpTo;
    AddedCalls(d, g, specs, a, WellUpTo(a, |specs|));
  }

  lemma QueuedCalls(d: Id, g: Id, q: Id, specs: seq<BufferSpec>, a: Answers)
    ensures forall e <- QueuedLog(d, g, q, specs, a) :: OfCommand(e, g)
  {
    hide FillLog, DropLog, WellUpTo, Bufs;
    FillCalls(d, g, specs, a);
    DropCalls(Bufs(a, WellUpTo(a, |specs|)), g);
  }

  lemma CommandCalls(d: Id, specs: seq<BufferSpec>, a: Answers, g: Id)
    requires a.group.Some? ==> g == a.group.value
    ensures forall e <- CommandLog(d, specs, a) :: OfCommand(e, g)
    ensures CommandLog(d, specs, a) != [] ==> Got(g) in CommandLog(d, specs, a)
  {
    hide QueuedLog;
    if a.group.Some? && a.queue.Some? { QueuedCalls(d, g, a.queue.value, specs, a); }
    var log := CommandLog(d, specs, a);
    if log != [] { assert log[1] == Got(g); }
  }

  // The buffer that could not be added comes right after the call that created it.
  lemma StuckEvent(d: Id, specs: seq<BufferSpec>, a: Answers) returns (i: nat)
    requires Stuck(specs, a).Some?
    ensures var log := CommandLog(d, specs, a);
            && 0 < i < |log| && log[i] == Got(Stuck(specs, a).value)
            && log[i - 1] == Called(BufferCall(d, specs[WellUpTo(a, |specs|)]))
  {
    hide AddedLog, WellUpTo, SyncLog, GiveBackLog, Bufs;
    var m := WellUpTo(a, |specs|);
    var added := AddedLog(d, a.group.value, specs, a, m);
    i := 4 + |added| + 1;
    var queued := QueuedLog(d, a.group.value, a.queue.value, specs, a);
    assert queued[|added|] == Called(BufferCall(d, specs[m])) && queued[|added| + 1] == Got(a.create(m).id);
  }

  // ---- a command leaves no trace ----

  // During the stretch client t makes the calls of one command on a device it holds and no others. The other
  // clients give back what they are given and make only tame calls.
  ghost predicate Sends(run: seq<State>, steps: seq<Step>, t: Tid, d: Id, specs: seq<BufferSpec>, a: Answers) {
    && Stretch(run, steps) && t.Client? && d.Dev? && d in run[0].handles
    && Trace(run, steps, t) == CommandLog(d, specs, a)
    && (forall id: Id :: OthersGiven(run, steps, t, id) == OthersGivenUp(steps, t, id))
    && (forall k :: 0 <= k < |steps| && steps[k].Begin? && steps[k].t != t ==> Tame(steps[k].call, run[0].next))
  }

  lemma SendsTame(run: seq<State>, steps: seq<Step>, t: Tid, d: Id, specs: seq<BufferSpec>, a: Answers)
    requires Sends(run, steps, t, d, specs, a) && Reachable(run[0])
    ensures TameStretch(run, steps)
  {
    hide Reachable, Guard, Faultless, Apply, CommandLog, Trace;
    var g := if a.group.Some? then a.group.value else Dev(0);
    CommandCalls(d, specs, a, g);
    forall k | 0 <= k < |steps| ensures TameStep(steps[k], run[0].next) {
      if steps[k].Begin? && steps[k].t == t {
        CallsTraced(run, steps, t, k);
        CommandFresh(run, steps, t, d, specs, a, g);
        assert OfCommand(Called(steps[k].call), g);
      }
    }
  }

  // What the client is given during a command is new.
  lemma CommandFresh(run: seq<State>, steps: seq<Step>, t: Tid, d: Id, specs: seq<BufferSpec>, a: Answers, id: Id)
    requires Sends(run, steps, t, d, specs, a) && Reachable(run[0]) && Got(id) in Trace(run, steps, t)
    ensures id.n >= run[0].next
  {
    hide Reachable, Guard, Faultless, Apply, CommandLog, Trace;
    var g := if a.group.Some? then a.group.value else Dev(0);
    CommandCalls(d, specs, a, g);
    forall e | e in Trace(run, steps, t) && e.Called? ensures !MayReturnOld(e.call) { assert OfCommand(e, g); }
    TraceFresh(run, steps, t, id);
  }

  // The buffer left over is the one asked for.
  lemma StuckFits(run: seq<State>, steps: seq<Step>, t: Tid, d: Id, specs: seq<BufferSpec>, a: Answers)
    requires Sends(run, steps, t, d, specs, a) && Reachable(run[0]) && Quiet(run[0]) && Stuck(specs, a).Some?
    ensures var b, spec := Stuck(specs, a).value, specs[WellUpTo(a, |specs|)];
            b.n >= run[0].next && b == Buf(b.n, if spec.fd == -1 then Some(d) else None, spec.size)
  {
    hide Reachable, Guard, Faultless, Apply, CommandLog, Trace, WellUpTo, Ops;
    var i := StuckEvent(d, specs, a);
    TraceFits(run, steps, t);
    CommandFresh(run, steps, t, d, specs, a, Stuck(specs, a).value);
  }

  // sprd_vdsp_send_command is neutral. Once all threads are quiet again, for any number of buffers, any answers
  // of the library and any interleaving with workers and other clients, the same objects are in memory with
  // the same counts, the device among them; except that a buffer that could be created but not added to the
  // group is left over with one reference, and holds a reference to the device if it is in device memory.
  lemma CommandIsNeutral(run: seq<State>, steps: seq<Step>, t: Tid, d: Id, specs: seq<BufferSpec>, a: Answers)
    requires Sends(run, steps, t, d, specs, a) && Reachable(run[0]) && Quiet(run[0]) && Quiet(run[|steps|])
    ensures var s, s' := run[0], run[|steps|];
            if Stuck(specs, a).None? then
              && s'.heap.Keys == s.heap.Keys
              && (forall id <- s.heap :: s'.heap[id].count == s.heap[id].count)
            else
              var b, inDevice := Stuck(specs, a).value, specs[WellUpTo(a, |specs|)].fd == -1;
              && b !in s.heap && s'.heap.Keys == s.heap.Keys + {b} && s'.heap[b].count == 1
              && (forall id <- s.heap ::
                    s'.heap[id].count == s.heap[id].count + if id == d && inDevice then 1 else 0)
  {
    hide Reachable, Guard, Faultless, Apply, CommandLog, Trace, WellUpTo, Quiet, Inv, TameStretch, Gains, Losses;
    var extra := Stuck(specs, a);
    SendsTame(run, steps, t, d, specs, a);
    if extra.Some? {
      StuckFits(run, steps, t, d, specs, a);
      ReachableInv(run[0]);
      HostFrames.NamedBelow(run[0], extra.value);
    }
    forall id: Id ensures Gains(run, steps)[id] == (Losses(steps) + Single(extra))[id] {
      TraceAccounts(run, steps, t, id);
      CommandBalance(d, specs, a, id);
      SingleCount(Losses(steps), extra, id);
    }
    assert Gains(run, steps) == Losses(steps) + Single(extra);
    BalancedStretchLeavesNoTrace(run, steps, extra);
  }
}
