// What the VDSP service promises. Statements about counts, sessions and libraries are for clean runs, those in
// which no call of a dead client changes the table under its waiting death handler (ServiceLate says what
// happens otherwise); statements about calls in flight, locks and the dead are for all runs, as are those about
// the device in ServiceDevice.
module ServiceTheorems {
  import opened Bags
  import opened ServiceTables
  import opened ServiceCore
  import opened ServiceSteps
  import opened ServiceInvariant
  import opened ServiceDevice

  // ---- opens, device and sessions ----

  // mopen_count is the sum of the clients' counts. While a death handler waits it is that sum less the dead
  // client's count plus one. The device is open exactly when some client is left.
  lemma OpensConserved(s: State)
    requires CleanReachable(s)
    ensures Dying(s).None? ==> s.core.opens == TotalOpen(s.core.table)
    ensures Dying(s).Some? ==> s.core.opens == TotalOpen(s.core.table) - OpenNum(s.core.table, Dying(s).value) + 1
    ensures s.core.device.Some? <==> s.core.opens > 0
    ensures s.core.device.Some? <==> s.core.table != []
    ensures s.core.device.None? ==> s.core.kind == MAXTYPE
  {
    hide CleanReachable, Inv;
    CleanInv(s);
    UnfoldInv(s);
    OpensSign(s.core, Dying(s));
  }

  // All opens of a client that are still in force asked for the type the device has.
  lemma SessionsHaveTheDevicesType(s: State, c: Client, kind: WorkType)
    requires CleanReachable(s) && kind in Sess(s, c)
    ensures kind == s.core.kind && s.core.device.Some? && Known(s.core.table, c)
    ensures |Sess(s, c)| == OpenNum(s.core.table, c)
  {
    hide CleanReachable, Base, CallsOk, LibrariesOk, PhasesOk;
    CleanInv(s);
    assert SessionOk(s, c);
    OpensSign(s.core, Dying(s));
    OpensTotalled(s.core.table, c, Dying(s));
  }

  // ---- calls in flight ----

  // mworking counts the calls in flight and, for ever, each send that ended on a map failure.
  lemma WorkingExact(s: State)
    requires Reachable(s)
    ensures s.core.working == InFlight(s.threads) + s.lost
  {
    hide Reachable, InFlight, LocksOk, DeadOk, Unique;
    ReachableBase(s);
  }

  // The regions of ServiceClass that need a table without double entries can be run in any state.
  lemma TableIsUnique(s: State)
    requires Reachable(s)
    ensures Unique(s.core.table)
  {
    hide Reachable, WorkingOk, LocksOk, DeadOk, Unique;
    ReachableBase(s);
  }

  // closeXrpDevice releases the device exactly when the client has an open, one is counted, no call is in flight
  // and no send was ever lost to a map failure. In clean runs the one that is counted is then the only one.
  lemma CloseReleasesExactly(s: State, step: Step)
    requires Reachable(s) && Guard(s, step) && step.Close? && s.core.device.Some?
    ensures Apply(s, step).core.device.None? <==>
              && OpenNum(s.core.table, At(s, step.t).req.c) > 0 && s.core.opens == 1
              && InFlight(s.threads) == 0 && s.lost == 0
    ensures CleanReachable(s) && !Breaks(s, step) ==>
              (OpenNum(s.core.table, At(s, step.t).req.c) > 0 && s.core.opens == 1 && s.core.working == 0 <==>
               OpenNum(s.core.table, At(s, step.t).req.c) == 1 && TotalOpen(s.core.table) == 1 && s.core.working == 0)
  {
    hide Reachable, CleanReachable, InFlight, OpenNum, DecOpen, Survivors, OneLess, Breaks;
    WorkingExact(s);
    if CleanReachable(s) && !Breaks(s, step) { CleanLastOpen(s, step); }
  }

  lemma CleanLastOpen(s: State, step: Step)
    requires CleanReachable(s) && Guard(s, step) && step.Close? && !Breaks(s, step)
    ensures var n := OpenNum(s.core.table, At(s, step.t).req.c);
            n > 0 && s.core.opens == 1 && s.core.working == 0 <==> n == 1 && TotalOpen(s.core.table) == 1 && s.core.working == 0
  {
    hide TableOk, CleanReachable, Inv, InFlight;
    CleanInv(s);
    UnfoldInv(s);
    var c := At(s, step.t).req.c;
    OpensSign(s.core, Dying(s));
    CoreTable(s.core, Dying(s));
    OpensTotalled(s.core.table, c, Dying(s));
    if Dying(s).Some? && Dying(s).value != c { TwoOpen(s.core.table, c, Dying(s).value, Dying(s)); }
  }

  // Two clients' opens both count.
  lemma TwoOpen(t: Table, c: Client, d: Client, dying: Option<Client>)
    requires TableOk(t, dying) && c != d
    ensures OpenNum(t, c) + OpenNum(t, d) <= TotalOpen(t)
    ensures Known(t, d) ==> OpenNum(t, d) >= 1
  {
    WithoutLaws(t, c, d, dying, dying);
    OpensTotalled(Without(t, c), d, dying);
    OpensTotalled(t, d, dying);
  }

  // ---- a send lost to a map failure ----

  // A run that goes on from any state, with the steps taken.
  ghost predicate GoesOn(run: seq<State>, steps: seq<Step>) {
    && |run| == |steps| + 1
    && (forall k :: 0 <= k < |steps| ==> Guard(run[k], steps[k]) && run[k + 1] == Apply(run[k], steps[k]))
  }

  ghost predicate Clean(run: seq<State>, steps: seq<Step>, n: nat)
    requires |run| == |steps| + 1 && n <= |steps|
  {
    CleanReachable(run[0]) && forall k :: 0 <= k < n ==> !Breaks(run[k], steps[k])
  }

  // After the first such send a death handler that waits for calls in flight waits for ever, and the device is
  // never released again, whatever the clients do. As long as the run is clean no other device takes its place.
  lemma {:induction false} LostWedges(run: seq<State>, steps: seq<Step>, n: nat)
    requires GoesOn(run, steps) && n < |run| && Reachable(run[0]) && run[0].lost > 0
    ensures Base(run[n]) && DeviceSane(run[n]) && run[n].lost > 0
    ensures Dying(run[0]).Some? ==> Dying(run[n]) == Dying(run[0])
    ensures (forall k :: 0 <= k < n ==> !Swaps(run[k], steps[k])) ==> run[n].core.device == run[0].core.device
    ensures Clean(run, steps, n) ==>
              Inv(run[n]) && (run[0].core.device.Some? ==> run[n].core.device == run[0].core.device)
  {
    hide Inv, Base, DeviceSane, Apply, Guard, Reachable, CleanReachable, Breaks, Swaps, Dying;
    if n == 0 {
      ReachableBase(run[0]);
      ReachableDevice(run[0]);
      if CleanReachable(run[0]) { CleanInv(run[0]); }
    } else {
      LostWedges(run, steps, n - 1);
      assert run[n - 1 + 1] == Apply(run[n - 1], steps[n - 1]);
      StaysLost(run[n - 1], steps[n - 1]);
      if Clean(run, steps, n) {
        assert Clean(run, steps, n - 1);
        CleanStepKeeps(run[n - 1], steps[n - 1]);
        InvShut(run[n - 1], steps[n - 1]);
      }
    }
  }

  lemma InvShut(s: State, step: Step)
    requires Inv(s)
    ensures s.core.device.Some? ==> !Swaps(s, step)
  {
    hide Inv, Base, CallsOk, LibrariesOk, PhasesOk, SessionsOk;
    UnfoldInv(s);
  }

  lemma StaysLost(s: State, step: Step)
    requires Base(s) && DeviceSane(s) && Guard(s, step) && s.lost > 0
    ensures var s' := Apply(s, step);
            && Base(s') && DeviceSane(s') && s'.lost > 0 && (s'.core.device != s.core.device ==> Swaps(s, step))
            && (Dying(s).Some? ==> Dying(s') == Dying(s))
  {
    hide Base, DeviceSane, InFlight, LocksOk, Apply, Guard, Dying, Swaps;
    BaseKeeps(s, step);
    StepDevice(s, step);
    BaseWorking(s);
    LostGrows(s, step);
    if !IsDeath(step) { CallDying(s, step); } else {
      DeathDying(s, step);
      if step.DeathResume? { BusyWaits(s, step); }
    }
  }

  lemma LostGrows(s: State, step: Step)
    requires Guard(s, step)
    ensures Apply(s, step).lost >= s.lost
  {
    hide DeathBegun, DeathResumed, LoadBegun, UnloadBegun, LoadDone, Opened, Closed, SoleLibs, Survivors;
  }

  lemma BusyWaits(s: State, step: Step)
    requires Guard(s, step) && step.DeathResume? && s.core.working != 0
    ensures At(Apply(s, step), step.t) != Idle
  {
  }

  // ---- libraries ----

  // A library that some client has loaded is in the DSP, under any interleaving of loads, unloads, closes
  // and deaths; in particular the library of every client with a load of its own.
  lemma LoadedIsResident(s: State, c: Client, name: string)
    requires CleanReachable(s)
    ensures TotalLoad(s.core.table, name) > 0 ==> name in s.resident
    ensures LoadNum(LoadsOf(s.core.table, c), name) > 0 ==> name in s.resident
  {
    hide CleanReachable, Inv, TotalLoad, LoadNum;
    CleanInv(s);
    UnfoldInv(s);
    assert Counted(s, name) ==> name in s.resident;
    CoreTable(s.core, Dying(s));
    LoadsTotalled(s.core.table, c, name, Dying(s));
  }

  // ---- the death of a client ----

  predicate HandlerStep(step: Step) {
    step.DeathLoadLock? || step.DeathHintLock? || step.DeathEnter? || step.DeathRelock? || step.DeathResume?
  }

  lemma WithoutSpares(t: Table, c: Client, d: Client)
    requires Unique(t) && d != c
    ensures SameFor(t, Without(t, c), d)
  {
    if Known(t, c) { RemovedFind(t, c, d); }
  }

  lemma SameForChain(t: Table, t': Table, t'': Table, d: Client)
    requires SameFor(t, t', d) && SameFor(t', t'', d)
    ensures SameFor(t, t'', d)
  {
  }

  lemma SameSelf(t: Table, d: Client)
    ensures SameFor(t, t, d)
  {
  }

  lemma DecOpenSpares(t: Table, c: Client, d: Client)
    requires Unique(t) && d != c
    ensures SameFor(t, DecOpen(t, c), d)
  {
    if Known(t, c) && OpenNum(t, c) != 1 {
      FindStays(t, DecOpen(t, c), d);
    } else {
      WithoutSpares(t, c, d);
    }
  }

  lemma {:induction false} DecTimesSpares(t: Table, c: Client, n: int, d: Client)
    requires Unique(t) && d != c
    ensures SameFor(t, DecTimes(t, c, n), d)
    decreases n
  {
    hide Unique, SameFor, DecOpen;
    if n > 0 {
      UniqueDecOpen(t, c);
      DecOpenSpares(t, c, d);
      DecTimesSpares(DecOpen(t, c), c, n - 1, d);
      SameForChain(t, DecOpen(t, c), DecTimes(t, c, n), d);
    } else {
      SameSelf(t, d);
    }
  }

  lemma {:induction false} RoundsSpare(k: Core, c: Client, left: nat, d: Client)
    requires Unique(k.table) && d != c
    ensures SameFor(k.table, Rounds(k, c, left).0.table, d)
    decreases left
  {
    hide Unique, SameFor, OpenNum, DecTimes, Without;
    var count := OpenNum(k.table, c);
    SameSelf(k.table, d);
    if left == 0 {
      WithoutSpares(k.table, c, d);
    } else if count <= 0 {
      RoundsSpare(k, c, left - 1, d);
    } else {
      var k' := GivenBack(k.(opens := k.opens - count), c, count);
      UniqueDecTimes(k.table, c, count);
      DecTimesSpares(k.table, c, count, d);
      RoundsSpare(k', c, left - 1, d);
      SameForChain(k.table, k'.table, Rounds(k', c, left - 1).0.table, d);
    }
  }

  lemma OutcomeSpares(s: State, step: Step, d: Client)
    requires Guard(s, step) && IsDeath(step) && Unique(s.core.table) && d != At(s, step.t).c
    ensures SameFor(s.core.table, DeathOutcome(s, step).0.table, d)
  {
    hide Unique, SameFor, OpenNum, DecTimes, Rounds, LoadsOf, Zeroed, SetLoads;
    var t, c := s.core.table, At(s, step.t).c;
    SameSelf(t, d);
    if step.DeathEnter? {
      UniqueLoadsOf(t, c);
      UniqueIncDec(LoadsOf(t, c), "");
      UniqueSetLoads(t, c, Zeroed(LoadsOf(t, c)));
      SilencedSpares(t, c, d);
      var k := s.core.(table := Silenced(t, c));
      var left := if OpenNum(k.table, c) > 0 then OpenNum(k.table, c) else 0;
      RoundsSpare(k, c, left, d);
      SameForChain(t, k.table, Rounds(k, c, left).0.table, d);
    } else {
      var p := At(s, step.t).pause;
      var k := GivenBack(s.core.(opens := s.core.opens - 1), c, p.count);
      UniqueDecTimes(t, c, p.count);
      DecTimesSpares(t, c, p.count, d);
      RoundsSpare(k, c, p.left, d);
      SameForChain(t, k.table, Rounds(k, c, p.left).0.table, d);
    }
  }

  lemma SilencedSpares(t: Table, c: Client, d: Client)
    requires d != c
    ensures SameFor(t, Silenced(t, c), d)
  {
    if Known(t, c) { FindStays(t, Silenced(t, c), d); }
  }

  // No step of a death handler touches the entry of another client.
  lemma HandlerSparesOthers(s: State, step: Step, d: Client)
    requires Reachable(s) && Guard(s, step) && HandlerStep(step)
    requires !step.DeathLoadLock? ==> d != At(s, step.t).c
    ensures SameFor(s.core.table, Apply(s, step).core.table, d) && Sess(Apply(s, step), d) == Sess(s, d)
  {
    hide Reachable, SameFor, DeathBegun, DeathResumed, DeathOutcome, SoleLibs, Survivors, Unique;
    TableIsUnique(s);
    SameSelf(s.core.table, d);
    if IsDeath(step) {
      OutcomeSpares(s, step, d);
      OutcomeShape(s, step);
    }
  }

  // When a handler finishes, its client has no entry and no open left and the handler holds no lock. In clean runs
  // the counts are then those of the remaining clients and the device is closed exactly if there are none.
  lemma HandlerCleansUp(s: State, step: Step, c: Client)
    requires Reachable(s) && Guard(s, step) && IsDeath(step) && At(s, step.t).c == c
    requires At(Apply(s, step), step.t).Idle?
    ensures var s' := Apply(s, step);
            && !Known(s'.core.table, c) && Sess(s', c) == multiset{} && c in s'.dead
            && s'.loadOwner == None && s'.hintOwner == None
    ensures CleanReachable(s) ==>
              && Apply(s, step).core.table == Without(s.core.table, c)
              && Apply(s, step).core.opens == TotalOpen(Apply(s, step).core.table)
              && (Apply(s, step).core.device.None? <==> Apply(s, step).core.table == [])
  {
    hide Inv, Apply, Reachable, CleanReachable, DeathOutcome, Without, Known, Unique, WorkingOk, LocksOk;
    ReachableBase(s);
    DeathEntries(s, step, c);
    OutcomeShape(s, step);
    DeathDying(s, step);
    OwnsLocks(s, step.t);
    StepShape(s, step);
    assert At(Apply(s, step), step.t) == Idle;
    if CleanReachable(s) { CleanHandler(s, step, c); }
  }

  lemma CleanHandler(s: State, step: Step, c: Client)
    requires CleanReachable(s) && Guard(s, step) && IsDeath(step) && At(s, step.t).c == c
    requires At(Apply(s, step), step.t).Idle?
    ensures var s' := Apply(s, step);
            && s'.core.table == Without(s.core.table, c) && s'.core.opens == TotalOpen(s'.core.table)
            && (s'.core.device.None? <==> s'.core.table == [])
  {
    hide Inv, CoreOk, Apply, CleanReachable, DeathOutcome, Without, Known, Unique, WorkingOk, LibrariesOk, CallsOk,
         PhasesOk, SessionsOk;
    CleanInv(s);
    UnfoldInv(s);
    var s' := Apply(s, step);
    DeathKeeps(s, step);
    UnfoldInv(s');
    OutcomeShape(s, step);
    OutcomeTable(s, step);
    DeathDying(s, step);
    assert DeathOutcome(s, step).1.None?;
    InvOpens(s');
  }

  lemma InvOpens(s: State)
    requires CoreOk(s.core, None)
    ensures s.core.opens == TotalOpen(s.core.table) && (s.core.device.None? <==> s.core.table == [])
  {
    OpensSign(s.core, None);
  }

  // A dead client never gets an entry again, and no call of it is admitted.
  lemma DeadStaysGone(s: State, c: Client)
    requires Reachable(s) && c in s.dead && Dying(s) != Some(c)
    ensures !Known(s.core.table, c) && !MayWork(s.core, c) && Closed(s.core, c) == (s.core, -3)
  {
    hide Reachable, WorkingOk, LocksOk, Unique;
    ReachableBase(s);
  }

  // ---- two death handlers ----

  // One handler waits for calls in flight and needs mLoadLock to go on; the other has it and needs
  // mPowerHintLock.
  ghost predicate Deadlock(s: State, t1: Tid, t2: Tid) {
    At(s, t1).DeathWindow? && At(s, t2).DeathWantsHint?
  }

  lemma DeadlockStays(s: State, step: Step, t1: Tid, t2: Tid)
    requires LocksOk(s) && Guard(s, step) && Deadlock(s, t1, t2)
    ensures At(Apply(s, step), t1) == At(s, t1) && At(Apply(s, step), t2) == At(s, t2)
  {
    hide LocksOk, Opened, Closed, LoadBegun, UnloadBegun, LoadDone, DeathBegun, DeathResumed, SoleLibs, Survivors;
    OwnsLocks(s, t1);
    OwnsLocks(s, t2);
    if !step.Die? { OwnsLocks(s, step.t); }
  }

  // The run goes on, with any steps.
  ghost predicate Onward(run: seq<State>) {
    forall i :: 0 <= i < |run| - 1 ==> Next(run[i], run[i + 1])
  }

  // Once there, neither handler ever moves again.
  lemma {:induction false} DeadlockIsForever(run: seq<State>, i: nat, t1: Tid, t2: Tid)
    requires Onward(run) && i < |run| && Reachable(run[0]) && Deadlock(run[0], t1, t2)
    ensures Base(run[i]) && At(run[i], t1) == At(run[0], t1) && At(run[i], t2) == At(run[0], t2)
  {
    hide Base, Apply, Guard, Reachable, At;
    if i == 0 {
      ReachableBase(run[0]);
    } else {
      DeadlockIsForever(run, i - 1, t1, t2);
      assert Next(run[i - 1], run[i - 1 + 1]);
      var step :| Guard(run[i - 1], step) && run[i] == Apply(run[i - 1], step);
      BaseKeeps(run[i - 1], step);
      BaseLocks(run[i - 1]);
      DeadlockStays(run[i - 1], step, t1, t2);
    }
  }

  lemma BaseLocks(s: State)
    requires Base(s)
    ensures LocksOk(s)
  {
  }

  // The step that takes a thread on from its phase, locks permitting.
  function Onwards(s: State, t: Tid): Step {
    match At(s, t)
    case Idle => Arrive(t, RClose(0))
    case Wants(ROpen(_, _)) => Open(t, 1, true)
    case Wants(RClose(_)) => Close(t, {})
    case Wants(RSend(_)) => SendEnter(t)
    case Wants(RLoad(_, _)) => LoadLock(t)
    case Wants(RUnload(_, _)) => UnloadLock(t)
    case Wants(RHint(_)) => HintLock(t)
    case Sending(_, _) => SendLeave(t)
    case LoadHeld(_, _) => LoadEnter(t)
    case Loading(_, _, _) => DspLoad(t, true)
    case Loaded(_, _, _, _) => LoadLeave(t)
    case UnloadHeld(_, _) => UnloadEnter(t)
    case Unloading(_, _, _) => DspUnload(t, true)
    case Unloaded(_, _, _) => UnloadLeave(t)
    case HintHeld(_) => HintEnter(t)
    case Hinting(_, _) => HintLeave(t)
    case DeathWantsHint(_) => DeathHintLock(t)
    case DeathWantsMain(_) => DeathEnter(t, {}, {})
    case DeathWindow(_, _) => DeathRelock(t)
    case DeathRelocked(_, _) => DeathResume(t, {})
  }

  // The thread that keeps t from going on, if any; else t.
  function Blocker(s: State, t: Tid): Tid {
    match At(s, t)
    case Wants(RLoad(_, _)) => if s.loadOwner.Some? then s.loadOwner.value else t
    case Wants(RUnload(_, _)) => if s.loadOwner.Some? then s.loadOwner.value else t
    case Wants(RHint(_)) => if s.hintOwner.Some? then s.hintOwner.value else t
    case DeathWantsHint(_) => if s.hintOwner.Some? then s.hintOwner.value else t
    case DeathWindow(_, _) => if s.loadOwner.Some? then s.loadOwner.value else t
    case _ => t
  }

  lemma UnblockedMoves(s: State, t: Tid)
    requires LocksOk(s) && !At(s, t).Idle?
    ensures !At(s, Blocker(s, t)).Idle? && (Blocker(s, t) == t ==> Guard(s, Onwards(s, t)))
  {
    OwnsLocks(s, t);
    OwnsLocks(s, Blocker(s, t));
  }

  // There is no other deadlock: unless two handlers block each other, some thread inside a call can go on, and
  // it is at most two locks away from any thread that cannot.
  lemma NoOtherDeadlock(s: State, t: Tid) returns (u: Tid)
    requires Reachable(s) && !At(s, t).Idle?
    requires forall t1: Tid, t2: Tid :: !Deadlock(s, t1, t2)
    ensures !At(s, u).Idle? && Guard(s, Onwards(s, u)) && u == Blocker(s, Blocker(s, t))
  {
    hide Reachable, LocksOk, Base, Onwards;
    ReachableBase(s);
    BaseLocks(s);
    var v := Blocker(s, t);
    u := Blocker(s, v);
    UnblockedMoves(s, t);
    UnblockedMoves(s, v);
    UnblockedMoves(s, u);
    OwnsLocks(s, t);
    OwnsLocks(s, v);
    OwnsLocks(s, u);
    OwnsLocks(s, Blocker(s, u));
    assert !Deadlock(s, u, v) && !Deadlock(s, v, u) && !Deadlock(s, v, t) && !Deadlock(s, t, v);
    assert !Deadlock(s, u, Blocker(s, u)) && !Deadlock(s, Blocker(s, u), u);
  }
}
