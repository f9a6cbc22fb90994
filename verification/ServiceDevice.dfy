// The device under the calls in flight, in all runs, calls of dead clients included: what changes it, when a call is
// admitted without one, and what a failed open leaves behind.
module ServiceDevice {
  import opened Bags
  import opened ServiceTables
  import opened ServiceCore
  import opened ServiceSteps
  import opened ServiceInvariant
  import opened ServiceLate

  // ---- what every step keeps ----

  ghost predicate EntriesOpen(t: Table) {
    forall i :: 0 <= i < |t| ==> t[i].opens >= 1
  }

  ghost predicate DeviceSane(s: State) {
    DeviceOk(s) && (s.core.device.None? ==> s.core.kind == MAXTYPE) && EntriesOpen(s.core.table)
  }

  lemma EntriesLaws(t: Table, c: Client, loads: seq<LoadLib>)
    requires EntriesOpen(t)
    ensures EntriesOpen(AddOpen(t, c)) && EntriesOpen(DecOpen(t, c)) && EntriesOpen(Without(t, c))
            && EntriesOpen(SetLoads(t, c, loads))
  {
    if Known(t, c) {
      var r := Removed(t, Find(t, c));
      forall k | 0 <= k < |r| ensures r[k].opens >= 1 { RemovedAt(t, Find(t, c), k); }
    }
  }

  lemma {:induction false} DecTimesEntries(t: Table, c: Client, n: int)
    requires EntriesOpen(t)
    ensures EntriesOpen(DecTimes(t, c, n))
    decreases n
  {
    hide EntriesOpen, DecOpen;
    if n > 0 {
      EntriesLaws(t, c, []);
      DecTimesEntries(DecOpen(t, c), c, n - 1);
    }
  }

  // The device and its type stay, or the device is released while no call is in flight.
  ghost predicate KeptOrReleased(k: Core, k': Core) {
    || (k'.device == k.device && k'.kind == k.kind)
    || (k.working == 0 && k'.device == None && k'.kind == MAXTYPE)
  }

  lemma {:induction false} RoundsDevice(k: Core, c: Client, left: nat)
    requires EntriesOpen(k.table)
    ensures EntriesOpen(Rounds(k, c, left).0.table) && KeptOrReleased(k, Rounds(k, c, left).0)
    decreases left
  {
    hide EntriesOpen, DecTimes, Without, OpenNum;
    var count := OpenNum(k.table, c);
    if left == 0 {
      EntriesLaws(k.table, c, []);
    } else if count <= 0 {
      RoundsDevice(k, c, left - 1);
    } else {
      DecTimesEntries(k.table, c, count);
      BackWorking(k.(opens := k.opens - count), c, count);
      RoundsDevice(GivenBack(k.(opens := k.opens - count), c, count), c, left - 1);
    }
  }

  lemma DeathDevice(s: State, step: Step)
    requires Guard(s, step) && IsDeath(step) && EntriesOpen(s.core.table)
    ensures var k := DeathOutcome(s, step).0; EntriesOpen(k.table) && KeptOrReleased(s.core, k)
  {
    hide EntriesOpen, DecTimes, Without, OpenNum, Rounds, SetLoads, Zeroed, LoadsOf;
    var t, c := s.core.table, At(s, step.t).c;
    if step.DeathEnter? {
      EntriesLaws(t, c, Zeroed(LoadsOf(t, c)));
      var k := s.core.(table := Silenced(t, c));
      RoundsDevice(k, c, if OpenNum(k.table, c) > 0 then OpenNum(k.table, c) else 0);
    } else {
      var p := At(s, step.t).pause;
      DecTimesEntries(t, c, p.count);
      RoundsDevice(GivenBack(s.core.(opens := s.core.opens - 1), c, p.count), c, p.left);
    }
  }

  // The open finds no opens counted and gets past linkToDeath, and there is a device to lose or to gain: the
  // branch that opens the device does not look whether one is open.
  predicate Swaps(s: State, step: Step) {
    && step.Open? && At(s, step.t).Wants? && At(s, step.t).req.ROpen? && s.core.opens == 0
    && (Known(s.core.table, At(s, step.t).req.c) || step.link == 0)
    && (s.core.device.Some? || step.opens)
  }

  lemma OpenDevice(s: State, step: Step)
    requires DeviceSane(s) && Guard(s, step) && step.Open?
    ensures DeviceSane(Apply(s, step))
    ensures Apply(s, step).core.device != s.core.device <==> Swaps(s, step)
    ensures Swaps(s, step) ==> Apply(s, step).core.device == if step.opens then Some(s.devices) else None
  {
    hide EntriesOpen, AddOpen, DecOpen, Known;
    var t, c := s.core.table, At(s, step.t).req.c;
    EntriesLaws(t, c, []);
    EntriesLaws(AddOpen(t, c), c, []);
  }

  lemma CallDevice(s: State, step: Step)
    requires DeviceSane(s) && Guard(s, step) && !step.Open? && !IsDeath(step)
    ensures DeviceSane(Apply(s, step)) && KeptOrReleased(s.core, Apply(s, step).core)
    ensures !step.Close? ==> Apply(s, step).core.device == s.core.device
  {
    hide EntriesOpen, DecOpen, Known, OpenNum, IncLib, DecLib, LoadsOf, SetLoads, TotalLoad, HasLib, Survivors,
         OneLess;
    var t := s.core.table;
    if step.Close? {
      EntriesLaws(t, At(s, step.t).req.c, []);
    } else if step.LoadEnter? || step.LoadLeave? || step.UnloadEnter? {
      var p := At(s, step.t);
      EntriesLaws(t, p.c, IncLib(LoadsOf(t, p.c), p.name));
      EntriesLaws(t, p.c, DecLib(LoadsOf(t, p.c), p.name));
    }
  }

  // Every step keeps the entries open and the type with the device, and changes the device only by such an open
  // or by a close or a death handler while no call is in flight.
  lemma StepDevice(s: State, step: Step)
    requires DeviceSane(s) && Guard(s, step)
    ensures DeviceSane(Apply(s, step))
    ensures Swaps(s, step) ==> Apply(s, step).core.device != s.core.device
                               && Apply(s, step).core.device == if step.opens then Some(s.devices) else None
    ensures Apply(s, step).core.device != s.core.device ==>
              Swaps(s, step) || ((step.Close? || IsDeath(step)) && s.core.working == 0)
  {
    hide EntriesOpen, Apply, Guard, DeathOutcome;
    if step.Open? {
      OpenDevice(s, step);
    } else if IsDeath(step) {
      DeathDevice(s, step);
      OutcomeShape(s, step);
    } else {
      CallDevice(s, step);
    }
  }

  lemma {:induction false} RunDevice(run: seq<State>, i: nat)
    requires IsRun(run) && i < |run|
    ensures DeviceSane(run[i])
  {
    hide DeviceSane, Apply, Guard;
    if i == 0 {
      InitDevice(run[0]);
    } else {
      RunDevice(run, i - 1);
      assert Next(run[i - 1], run[i - 1 + 1]);
      var step :| Guard(run[i - 1], step) && run[i] == Apply(run[i - 1], step);
      StepDevice(run[i - 1], step);
    }
  }

  lemma InitDevice(s: State)
    requires Init(s)
    ensures DeviceSane(s)
  {
  }

  lemma ReachableDevice(s: State)
    requires Reachable(s)
    ensures DeviceSane(s)
  {
    hide DeviceSane, IsRun;
    var run: seq<State>, i: nat :| IsRun(run) && i < |run| && run[i] == s;
    RunDevice(run, i);
  }

  // ---- the device under a call ----

  // While a call is in flight the device changes exactly by an open that finds no opens counted and gets past
  // linkToDeath: then it is the newly opened one, or none. It is never released under a call. In clean runs no
  // open finds that, and the call goes on with the device it was admitted on.
  lemma DeviceHeld(s: State, step: Step, t: Tid)
    requires Reachable(s) && Guard(s, step) && Working(At(s, t))
    ensures Apply(s, step).core.device != s.core.device <==> Swaps(s, step)
    ensures Swaps(s, step) ==> Apply(s, step).core.device == if step.opens then Some(s.devices) else None
    ensures CleanReachable(s) ==> !Swaps(s, step) && s.core.device.Some? && At(s, t).dev == s.core.device
  {
    hide Reachable, CleanReachable, DeviceSane, Inv, Base, WorkingOk, Apply, Guard, Swaps;
    ReachableBase(s);
    ReachableDevice(s);
    BaseWorking(s);
    InFlightPositive(s, t);
    StepDevice(s, step);
    if CleanReachable(s) { CleanCall(s, step, t); }
  }

  lemma BaseWorking(s: State)
    requires Base(s)
    ensures WorkingOk(s) && LocksOk(s)
  {
  }

  lemma CleanCall(s: State, step: Step, t: Tid)
    requires CleanReachable(s) && Working(At(s, t))
    ensures !Swaps(s, step) && s.core.device.Some? && At(s, t).dev == s.core.device
  {
    hide CleanReachable, Inv, CoreOk, Known;
    CleanInv(s);
    UnfoldInv(s);
    OpenHasDevice(s);
  }

  // ---- the device a call is admitted on ----

  // The region lets a call through that goes on outside mLock. It looks at mopen_count and at the client's
  // entry, not at the device.
  predicate Admits(s: State, step: Step) {
    match step
    case SendEnter(t) => At(s, t).Wants? && MayWork(s.core, At(s, t).req.c)
    case LoadEnter(t) => At(s, t).LoadHeld? && MayWork(s.core, At(s, t).c) && TotalLoad(s.core.table, At(s, t).name) == 0
    case UnloadEnter(t) =>
      && At(s, t).UnloadHeld? && MayWork(s.core, At(s, t).c) && HasLib(LoadsOf(s.core.table, At(s, t).c), At(s, t).name)
      && TotalLoad(DecLoad(s.core.table, At(s, t).c, At(s, t).name), At(s, t).name) == 0
    case HintEnter(t) => At(s, t).HintHeld? && MayWork(s.core, At(s, t).c)
    case _ => false
  }

  // It does so although no device is open.
  predicate AdmitsBlind(s: State, step: Step) {
    Admits(s, step) && s.core.device.None?
  }

  ghost predicate Busy(s: State) {
    exists t: Tid :: Working(At(s, t))
  }

  // A call is admitted on the device there is, or none, and keeps it from region to region.
  lemma AdmittedOn(s: State, step: Step)
    requires Guard(s, step) && !step.Die?
    ensures var p, p' := At(s, step.t), At(Apply(s, step), step.t);
            && (Admits(s, step) ==> !Working(p) && Working(p') && p'.dev == s.core.device)
            && (Working(p') ==> Admits(s, step) || (Working(p) && p'.dev == p.dev))
            && (step.Open? || step.Close? || IsDeath(step) ==> !Working(p) && !Working(p'))
  {
    hide TotalLoad, OpenNum, AddLoad, DecLoad, HasLib, LoadDone, Opened, Closed, DeathBegun, DeathResumed, SoleLibs,
         Survivors, LoadsOf;
  }

  // A call in flight is left without the device it was admitted on, or admitted without one.
  ghost predicate Unseats(s: State, step: Step) {
    AdmitsBlind(s, step) || (Swaps(s, step) && Busy(s))
  }

  // Where every call in flight runs on the device that is open, a step keeps that exactly if it neither admits a
  // call with no device open nor opens a device under a call.
  lemma CallsKeptExactly(s: State, step: Step)
    requires Base(s) && DeviceSane(s) && CallsOk(s) && Guard(s, step)
    ensures CallsOk(Apply(s, step)) <==> !Unseats(s, step)
  {
    hide Apply, Guard, DeviceSane, WorkingOk, LocksOk, DeadOk, Unique, Admits, Swaps;
    var s' := Apply(s, step);
    StepDevice(s, step);
    if step.Die? {
      DieKeepsCalls(s, step);
    } else {
      StepShape(s, step);
      AdmittedOn(s, step);
      forall u: Tid ensures u != step.t ==> At(s', u) == At(s, u) { if u != step.t { OthersStay(s, s', step.t, At(s', step.t), u); } }
      forall u: Tid ensures Working(At(s, u)) ==> s.core.working > 0 { if Working(At(s, u)) { InFlightPositive(s, u); } }
      if Swaps(s, step) {
        SwapsOpens(s, step);
        if u: Tid :| Working(At(s, u)) { assert Working(At(s', u)) && At(s', u).dev == s.core.device; }
      } else if AdmitsBlind(s, step) {
        assert Working(At(s', step.t)) && At(s', step.t).dev == None;
      }
    }
  }

  lemma SwapsOpens(s: State, step: Step)
    ensures Swaps(s, step) ==> step.Open? && !Admits(s, step)
  {
  }

  lemma OthersStay(s: State, s': State, t: Tid, p: Phase, u: Tid)
    requires ThreadStep(s, s', t, p) && u != t
    ensures At(s', u) == At(s, u)
  {
  }

  lemma DieKeepsCalls(s: State, step: Step)
    requires Guard(s, step) && step.Die?
    ensures (CallsOk(Apply(s, step)) <==> CallsOk(s)) && !Admits(s, step) && !Swaps(s, step)
  {
    var s' := Apply(s, step);
    forall u: Tid ensures At(s', u) == At(s, u) { }
  }

  lemma {:induction false} HeldPrefix(run: seq<State>, steps: seq<Step>, n: nat)
    requires Taken(run, steps) && n <= |steps| && forall k :: 0 <= k < n ==> !Unseats(run[k], steps[k])
    ensures Base(run[n]) && DeviceSane(run[n]) && CallsOk(run[n])
  {
    hide Base, DeviceSane, CallsOk, Guard, Apply, Unseats;
    if n == 0 {
      InitBase(run[0]);
      InitDevice(run[0]);
      InitCalls(run[0]);
    } else {
      HeldPrefix(run, steps, n - 1);
      assert run[n - 1 + 1] == Apply(run[n - 1], steps[n - 1]);
      BaseKeeps(run[n - 1], steps[n - 1]);
      StepDevice(run[n - 1], steps[n - 1]);
      CallsKeptExactly(run[n - 1], steps[n - 1]);
    }
  }

  lemma InitCalls(s: State)
    requires Init(s)
    ensures CallsOk(s)
  {
  }

  lemma {:induction false} FirstUnseated(run: seq<State>, steps: seq<Step>, n: nat) returns (k: nat)
    requires Taken(run, steps) && n < |steps| && Unseats(run[n], steps[n])
    ensures k < |steps| && !CallsOk(run[k + 1])
  {
    hide Base, DeviceSane, CallsOk, Guard, Apply, Unseats;
    if m: nat :| m < n && Unseats(run[m], steps[m]) {
      k := FirstUnseated(run, steps, m);
    } else {
      k := n;
      HeldPrefix(run, steps, n);
      assert run[n + 1] == Apply(run[n], steps[n]);
      CallsKeptExactly(run[n], steps[n]);
    }
  }

  // Over whole runs: in every state every call in flight has the device it was admitted on, and that device is open,
  // exactly if no call is admitted while no device is open and no open finds no opens counted under a call.
  lemma CallsHeldExactly(run: seq<State>, steps: seq<Step>)
    requires Taken(run, steps)
    ensures (forall i :: 0 <= i < |run| ==> CallsOk(run[i])) <==>
              (forall k :: 0 <= k < |steps| ==> !Unseats(run[k], steps[k]))
  {
    hide CallsOk, Guard, Apply, Unseats;
    if n: nat :| n < |steps| && Unseats(run[n], steps[n]) {
      var k := FirstUnseated(run, steps, n);
    } else {
      forall i: nat | i < |run| ensures CallsOk(run[i]) { HeldPrefix(run, steps, i); }
    }
  }

  // ---- a failed open ----

  // An open that reports an error leaves all counts, the device, its type and the sessions as they were exactly if
  // it did not find a device open with no opens counted; such a device it forgets.
  lemma FailedOpenRestores(s: State, step: Step)
    requires Reachable(s) && Guard(s, step) && step.Open?
    requires var req := At(s, step.t).req;
             Opened(s.core, req.c, req.kind, step.link, if step.opens then Some(s.devices) else None).1 != 0
    ensures Apply(s, step) == Go(s.(devices := s.devices + 1), step.t, Idle) <==> !Swaps(s, step)
    ensures Swaps(s, step) ==>
              Apply(s, step) == Go(s.(devices := s.devices + 1, core := s.core.(device := None, kind := MAXTYPE)), step.t, Idle)
    ensures CleanReachable(s) ==> !Swaps(s, step)
  {
    hide Reachable, CleanReachable, AddOpen, DecOpen, Known, Inv, CoreOk;
    ReachableDevice(s);
    var c := At(s, step.t).req.c;
    EntryOpen(s.core.table, c);
    ReopenBack(s.core.table, c);
    if CleanReachable(s) { CleanShut(s); }
  }

  lemma EntryOpen(t: Table, c: Client)
    requires EntriesOpen(t)
    ensures Known(t, c) ==> OpenNum(t, c) >= 1
  {
  }

  lemma CleanShut(s: State)
    requires CleanReachable(s)
    ensures s.core.opens == 0 ==> s.core.device.None?
  {
    hide CleanReachable, Inv, Base, CallsOk, LibrariesOk, PhasesOk, SessionsOk;
    CleanInv(s);
    UnfoldInv(s);
  }
}
