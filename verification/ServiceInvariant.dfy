// The invariants of the VDSP service step system: one that every step keeps, and one that every step keeps
// exactly if it is not a region of a dead client that changes the table under its waiting handler.
module ServiceInvariant {
  import opened Bags
  import opened ServiceTables
  import opened ServiceCore
  import opened ServiceSteps

  // Calls in flight.
  ghost function InFlight(threads: map<Tid, Phase>): nat {
    Sum(threads, (t: Tid, p: Phase) => if Working(p) then 1 else 0)
  }

  ghost predicate WorkingOk(s: State) {
    s.core.working == InFlight(s.threads) + s.lost
  }

  ghost predicate LocksOk(s: State) {
    && (forall t: Tid :: HoldsLoad(At(s, t)) <==> s.loadOwner == Some(t))
    && (forall t: Tid :: HoldsHint(At(s, t)) <==> s.hintOwner == Some(t))
  }

  ghost predicate DeadOk(s: State) {
    && (Dying(s).Some? ==> Dying(s).value in s.dead)
    && (forall t: Tid :: InHandler(At(s, t)) ==> At(s, t).c in s.gone)
    && (forall c <- s.dead :: c in s.gone && (Dying(s) == Some(c) || !Known(s.core.table, c)))
  }

  predicate InHandler(p: Phase) {
    p.DeathWantsHint? || p.DeathWantsMain? || p.DeathWindow? || p.DeathRelocked?
  }

  // What no step of any thread, and no call of a dead client, undoes.
  ghost predicate Base(s: State) {
    WorkingOk(s) && LocksOk(s) && Unique(s.core.table) && DeadOk(s)
  }

  // Every call in flight was admitted on the device that is open now.
  ghost predicate CallsOk(s: State) {
    forall t: Tid :: Working(At(s, t)) ==> At(s, t).dev == s.core.device && s.core.device.Some?
  }

  ghost predicate Counted(s: State, name: string) {
    TotalLoad(s.core.table, name) > 0
  }

  ghost predicate LibrariesOk(s: State) {
    forall name: string :: Counted(s, name) ==> name in s.resident
  }

  ghost predicate PhaseOk(s: State, p: Phase) {
    && (p.Loaded? && p.ok ==> p.name in s.resident)
    && (p.Unloading? ==> !Counted(s, p.name))
    && (Waits(p) ==> p.pause.count == OpenNum(s.core.table, p.c))
  }

  ghost predicate PhasesOk(s: State) {
    forall t: Tid :: PhaseOk(s, At(s, t))
  }

  ghost predicate SessionOk(s: State, c: Client) {
    |Sess(s, c)| == OpenNum(s.core.table, c) && forall k <- Sess(s, c) :: k == s.core.kind
  }

  ghost predicate SessionsOk(s: State) {
    forall c: Client :: SessionOk(s, c)
  }

  ghost predicate DeviceOk(s: State) {
    s.core.device.Some? ==> s.core.device.value < s.devices
  }

  ghost predicate Inv(s: State) {
    && Base(s) && CoreOk(s.core, Dying(s)) && CallsOk(s) && LibrariesOk(s) && PhasesOk(s) && SessionsOk(s) && DeviceOk(s)
  }

  lemma UnfoldInv(s: State)
    requires Inv(s)
    ensures Base(s) && WorkingOk(s) && LocksOk(s) && DeadOk(s) && Unique(s.core.table)
    ensures CoreOk(s.core, Dying(s)) && CallsOk(s) && LibrariesOk(s) && PhasesOk(s) && SessionsOk(s) && DeviceOk(s)
  {
  }

  lemma FoldInv(s: State)
    requires Base(s) && CoreOk(s.core, Dying(s)) && CallsOk(s) && LibrariesOk(s) && PhasesOk(s) && SessionsOk(s)
             && DeviceOk(s)
    ensures Inv(s)
  {
  }

  lemma InFlightPut(threads: map<Tid, Phase>, t: Tid, p: Phase)
    ensures InFlight(threads[t := p]) + (if t in threads && Working(threads[t]) then 1 else 0)
            == InFlight(threads) + (if Working(p) then 1 else 0)
  {
    SumPut(threads, (t: Tid, p: Phase) => if Working(p) then 1 else 0, t, p);
  }

  // A call in flight counts.
  lemma InFlightPositive(s: State, t: Tid)
    requires WorkingOk(s) && Working(At(s, t))
    ensures s.core.working > 0
  {
    SumRemove(s.threads, (t: Tid, p: Phase) => if Working(p) then 1 else 0, t);
  }

  lemma OwnsLocks(s: State, t: Tid)
    requires LocksOk(s)
    ensures HoldsLoad(At(s, t)) <==> s.loadOwner == Some(t)
    ensures HoldsHint(At(s, t)) <==> s.hintOwner == Some(t)
  {
  }

  // ---- the half that every step keeps ----

  // Thread t goes to phase p, taking and releasing its locks and entering and leaving mworking accordingly.
  ghost predicate ThreadStep(s: State, s': State, t: Tid, p: Phase) {
    && s'.threads == s.threads[t := p]
    && s'.loadOwner == (if HoldsLoad(p) then Some(t) else if s.loadOwner == Some(t) then None else s.loadOwner)
    && (HoldsLoad(p) ==> s.loadOwner == None || s.loadOwner == Some(t))
    && s'.hintOwner == (if HoldsHint(p) then Some(t) else if s.hintOwner == Some(t) then None else s.hintOwner)
    && (HoldsHint(p) ==> s.hintOwner == None || s.hintOwner == Some(t))
    && s'.core.working - s'.lost == s.core.working - s.lost
        + (if Working(p) then 1 else 0) - (if Working(At(s, t)) then 1 else 0)
  }

  lemma ThreadStepKeeps(s: State, s': State, t: Tid, p: Phase)
    requires WorkingOk(s) && LocksOk(s) && ThreadStep(s, s', t, p)
    ensures WorkingOk(s') && LocksOk(s')
  {
    hide InFlight;
    InFlightPut(s.threads, t, p);
    forall u: Tid ensures At(s', u) == (if u == t then p else At(s, u)) { }
  }

  lemma RoundsWorking(k: Core, c: Client, left: nat)
    ensures Rounds(k, c, left).0.working == k.working
    decreases left
  {
    if left > 0 && OpenNum(k.table, c) > 0 {
      RoundsWorking(GivenBack(k.(opens := k.opens - OpenNum(k.table, c)), c, OpenNum(k.table, c)), c, left - 1);
    } else if left > 0 {
      RoundsWorking(k, c, left - 1);
    }
  }

  predicate IsDeath(step: Step) {
    step.DeathEnter? || step.DeathResume?
  }

  lemma DeathShape(s: State, step: Step)
    requires LocksOk(s) && Guard(s, step) && IsDeath(step)
    ensures ThreadStep(s, Apply(s, step), step.t, At(Apply(s, step), step.t))
  {
    hide Rounds, GivenBack, Silenced, SoleLibs;
    OwnsLocks(s, step.t);
    var c := At(s, step.t).c;
    if step.DeathEnter? {
      var k := s.core.(table := Silenced(s.core.table, c));
      RoundsWorking(k, c, if OpenNum(k.table, c) > 0 then OpenNum(k.table, c) else 0);
    } else {
      var p := At(s, step.t).pause;
      RoundsWorking(GivenBack(s.core.(opens := s.core.opens - 1), c, p.count), c, p.left);
      BackWorking(s.core.(opens := s.core.opens - 1), c, p.count);
    }
  }

  lemma BackWorking(k: Core, c: Client, count: int)
    ensures GivenBack(k, c, count).working == k.working
  {
  }

  predicate IsRegion(step: Step) {
    step.Open? || step.Close? || step.LoadEnter? || step.LoadLeave? || step.UnloadEnter?
  }

  lemma SessionShape(s: State, step: Step)
    requires LocksOk(s) && Guard(s, step) && (step.Open? || step.Close?)
    ensures ThreadStep(s, Apply(s, step), step.t, At(Apply(s, step), step.t))
  {
    hide AddOpen, DecOpen, OpenNum, Known, Survivors, LocksOk, OneLess, NoMore;
    OwnsLocks(s, step.t);
  }

  lemma LoadShape(s: State, step: Step)
    requires LocksOk(s) && Guard(s, step) && (step.LoadEnter? || step.LoadLeave? || step.UnloadEnter?)
    ensures ThreadStep(s, Apply(s, step), step.t, At(Apply(s, step), step.t))
  {
    hide AddLoad, DecLoad, TotalLoad, OpenNum, HasLib, LoadsOf, LocksOk, OneMore, OneFewer;
    OwnsLocks(s, step.t);
  }

  lemma CallShape(s: State, step: Step)
    requires LocksOk(s) && Guard(s, step) && !step.Die? && !IsDeath(step) && !IsRegion(step)
    ensures ThreadStep(s, Apply(s, step), step.t, At(Apply(s, step), step.t))
  {
    hide OpenNum, LocksOk, AfterOpen, AfterClose, AfterLoadEnter, AfterUnloadEnter, AfterDeath, AfterDeathEnter,
         LoadDone, DeathResumed, OneMore;
    OwnsLocks(s, step.t);
  }

  lemma StepShape(s: State, step: Step)
    requires LocksOk(s) && Guard(s, step) && !step.Die?
    ensures ThreadStep(s, Apply(s, step), step.t, At(Apply(s, step), step.t))
  {
    hide Apply, Guard, LocksOk, ThreadStep, At;
    if IsDeath(step) { DeathShape(s, step); } else if step.Open? || step.Close? { SessionShape(s, step); }
    else if IsRegion(step) { LoadShape(s, step); } else { CallShape(s, step); }
  }

  // ---- entries stay apart, and only an open adds one ----

  lemma {:induction false} RoundsEntries(k: Core, c: Client, left: nat, d: Client)
    requires Unique(k.table)
    ensures var (k', pause) := Rounds(k, c, left);
            && Unique(k'.table) && (Known(k'.table, d) ==> Known(k.table, d))
            && (pause.None? ==> !Known(k'.table, c))
    decreases left
  {
    hide Unique, Known, OpenNum, DecTimes, Without;
    var count := OpenNum(k.table, c);
    if left == 0 {
      UniqueWithout(k.table, c);
      WithoutFrom(k.table, c, d);
      WithoutFrom(k.table, c, c);
    } else if count <= 0 {
      RoundsEntries(k, c, left - 1, d);
    } else {
      UniqueDecTimes(k.table, c, count);
      DecTimesFrom(k.table, c, count, d);
      RoundsEntries(GivenBack(k.(opens := k.opens - count), c, count), c, left - 1, d);
    }
  }

  lemma DeathEntries(s: State, step: Step, d: Client)
    requires Guard(s, step) && IsDeath(step) && Unique(s.core.table)
    ensures var s' := Apply(s, step);
            && Unique(s'.core.table) && (Known(s'.core.table, d) ==> Known(s.core.table, d))
            && (At(s', step.t) == Idle ==> !Known(s'.core.table, At(s, step.t).c))
  {
    hide Unique, Known, OpenNum, DecTimes, Rounds, SetLoads, Zeroed, LoadsOf, SoleLibs;
    var c := At(s, step.t).c;
    var t := s.core.table;
    if step.DeathEnter? {
      UniqueLoadsOf(t, c);
      UniqueIncDec(LoadsOf(t, c), "");
      UniqueSetLoads(t, c, Zeroed(LoadsOf(t, c)));
      SetLoadsFrom(t, c, Zeroed(LoadsOf(t, c)), d);
      var k := s.core.(table := Silenced(t, c));
      assert At(Apply(s, step), step.t) == Idle ==> DeathBegun(s.core, c).1.None?;
      RoundsEntries(k, c, if OpenNum(k.table, c) > 0 then OpenNum(k.table, c) else 0, d);
    } else {
      var p := At(s, step.t).pause;
      UniqueDecTimes(t, c, p.count);
      DecTimesFrom(t, c, p.count, d);
      assert At(Apply(s, step), step.t) == Idle ==> DeathResumed(s.core, c, p).1.None?;
      RoundsEntries(GivenBack(s.core.(opens := s.core.opens - 1), c, p.count), c, p.left, d);
    }
  }

  lemma UndoneOpen(t: Table, c: Client)
    requires Unique(t)
    ensures Unique(DecOpen(AddOpen(t, c), c)) && Unique(AddOpen(t, c))
  {
    hide Unique;
    UniqueAddOpen(t, c);
    UniqueDecOpen(AddOpen(t, c), c);
  }

  lemma OpenEntries(s: State, step: Step, d: Client)
    requires Guard(s, step) && step.Open? && Unique(s.core.table)
    ensures var s' := Apply(s, step); var c := At(s, step.t).req.c;
            && Unique(s'.core.table)
            && (Known(s'.core.table, d) ==> Known(s.core.table, d) || (d == c && step.link == 0))
  {
    hide Unique, Known, AddOpen, DecOpen;
    var c := At(s, step.t).req.c;
    UndoneOpen(s.core.table, c);
    AddOpenFrom(s.core.table, c, d);
    UniqueAddOpen(s.core.table, c);
    DecOpenFrom(AddOpen(s.core.table, c), c, d);
  }

  lemma CloseEntries(s: State, step: Step, d: Client)
    requires Guard(s, step) && step.Close? && Unique(s.core.table)
    ensures var s' := Apply(s, step);
            Unique(s'.core.table) && (Known(s'.core.table, d) ==> Known(s.core.table, d))
  {
    hide Unique, Known, OpenNum, DecOpen, Survivors, OneLess, NoMore;
    UniqueDecOpen(s.core.table, At(s, step.t).req.c);
    DecOpenFrom(s.core.table, At(s, step.t).req.c, d);
  }

  lemma LoadEntries(s: State, step: Step, d: Client)
    requires Guard(s, step) && (step.LoadEnter? || step.LoadLeave? || step.UnloadEnter?) && Unique(s.core.table)
    ensures var s' := Apply(s, step);
            Unique(s'.core.table) && (Known(s'.core.table, d) ==> Known(s.core.table, d))
  {
    hide Unique, Known, OpenNum, HasLib, IncLib, DecLib, LoadsOf, SetLoads, TotalLoad, OneMore, OneFewer;
    var t := s.core.table;
    var p := At(s, step.t);
    var loads := LoadsOf(t, p.c);
    UniqueLoadsOf(t, p.c);
    UniqueIncDec(loads, p.name);
    UniqueSetLoads(t, p.c, IncLib(loads, p.name));
    UniqueSetLoads(t, p.c, DecLib(loads, p.name));
    SetLoadsFrom(t, p.c, IncLib(loads, p.name), d);
    SetLoadsFrom(t, p.c, DecLib(loads, p.name), d);
  }

  lemma CallEntries(s: State, step: Step, d: Client)
    requires Guard(s, step) && !step.Die? && !IsDeath(step) && !step.Open? && Unique(s.core.table)
    ensures var s' := Apply(s, step);
            Unique(s'.core.table) && (Known(s'.core.table, d) ==> Known(s.core.table, d))
  {
    hide Unique, Known, AfterOpen, AfterClose, AfterLoadEnter, AfterUnloadEnter, LoadDone, AfterDeath,
         AfterDeathEnter;
    if step.Close? {
      CloseEntries(s, step, d);
    } else if step.LoadEnter? || step.LoadLeave? || step.UnloadEnter? {
      LoadEntries(s, step, d);
    }
  }

  // ---- death handlers ----

  lemma RegionRest(s: State, step: Step)
    requires Guard(s, step) && IsRegion(step)
    ensures var s' := Apply(s, step);
            && s'.threads == s.threads[step.t := At(s', step.t)] && !InHandler(At(s', step.t))
            && s'.hintOwner == s.hintOwner && s'.dead == s.dead && s'.gone == s.gone
  {
    hide LoadBegun, UnloadBegun, LoadDone, Opened, Closed, Survivors, OneLess, NoMore, OneMore, OneFewer, AfterDeath,
         AfterDeathEnter, DeathResumed;
  }

  lemma HandlerGone(s: State, step: Step, u: Tid)
    requires LocksOk(s) && Guard(s, step) && DeadOk(s)
    ensures InHandler(At(Apply(s, step), u)) ==> At(Apply(s, step), u).c in Apply(s, step).gone
  {
    hide Apply, Guard, LocksOk, Dying, Known;
    assert InHandler(At(s, u)) ==> At(s, u).c in s.gone;
    if IsRegion(step) { RegionRest(s, step); } else { NewHandlerGone(s, step, u); }
  }

  lemma NewHandlerGone(s: State, step: Step, u: Tid)
    requires Guard(s, step) && !IsRegion(step)
    requires forall t: Tid :: InHandler(At(s, t)) ==> At(s, t).c in s.gone
    ensures InHandler(At(Apply(s, step), u)) ==> At(Apply(s, step), u).c in Apply(s, step).gone
  {
    hide AfterOpen, AfterClose, AfterLoadEnter, AfterUnloadEnter, LoadDone, DeathBegun, DeathResumed, SoleLibs,
         Survivors, NoMore, OneMore, MayWork;
    assert InHandler(At(s, u)) ==> At(s, u).c in s.gone;
    if !step.Die? { assert InHandler(At(s, step.t)) ==> At(s, step.t).c in s.gone; }
  }

  lemma CallDying(s: State, step: Step)
    requires LocksOk(s) && Guard(s, step) && !IsDeath(step)
    ensures Dying(Apply(s, step)) == Dying(s) && Apply(s, step).dead == s.dead && s.gone <= Apply(s, step).gone
  {
    hide Apply, Guard, LocksOk;
    if step.Die? {
      DieDying(s, step);
    } else {
      OwnsLocks(s, step.t);
      if s.hintOwner.Some? { OwnsLocks(s, s.hintOwner.value); }
      if IsRegion(step) { RegionDying(s, step); } else { PlainDying(s, step); }
    }
  }

  lemma DieDying(s: State, step: Step)
    requires Guard(s, step) && step.Die?
    ensures Dying(Apply(s, step)) == Dying(s) && Apply(s, step).dead == s.dead && s.gone <= Apply(s, step).gone
  {
  }

  lemma RegionDying(s: State, step: Step)
    requires Guard(s, step) && IsRegion(step) && (HoldsHint(At(s, step.t)) <==> s.hintOwner == Some(step.t))
    ensures Dying(Apply(s, step)) == Dying(s) && Apply(s, step).dead == s.dead && s.gone <= Apply(s, step).gone
  {
    hide Apply;
    RegionRest(s, step);
  }

  lemma PlainDying(s: State, step: Step)
    requires Guard(s, step) && !IsDeath(step) && !IsRegion(step) && !step.Die?
    requires HoldsHint(At(s, step.t)) <==> s.hintOwner == Some(step.t)
    requires s.hintOwner.Some? ==> HoldsHint(At(s, s.hintOwner.value))
    ensures Dying(Apply(s, step)) == Dying(s) && Apply(s, step).dead == s.dead && s.gone <= Apply(s, step).gone
  {
    hide AfterOpen, AfterClose, AfterLoadEnter, AfterUnloadEnter, LoadDone, AfterDeath, AfterDeathEnter, DeathResumed,
         OneMore, MayWork;
  }

  lemma DeathDying(s: State, step: Step)
    requires LocksOk(s) && Guard(s, step) && IsDeath(step)
    ensures var s' := Apply(s, step); var c := At(s, step.t).c;
            && Dying(s') == (if At(s', step.t) == Idle then None else Some(c))
            && Dying(s) == (if step.DeathEnter? then None else Some(c))
            && s'.dead == s.dead + (if step.DeathEnter? then {c} else {}) && s'.gone == s.gone
  {
    hide DeathBegun, DeathResumed, SoleLibs, Survivors;
    OwnsLocks(s, step.t);
  }

  // Every step keeps the books on calls in flight, the locks, and who is dead.
  lemma BaseKeeps(s: State, step: Step)
    requires Base(s) && Guard(s, step)
    ensures Base(Apply(s, step))
  {
    hide Apply, Guard, LocksOk, WorkingOk, Unique, Known, ThreadStep, Dying;
    var s' := Apply(s, step);
    if step.Die? {
      DieKeeps(s, step);
    } else {
      StepShape(s, step);
      ThreadStepKeeps(s, s', step.t, At(s', step.t));
      if IsDeath(step) { DeathEntries(s, step, 0); DeathDying(s, step); }
      else if step.Open? { OpenEntries(s, step, 0); CallDying(s, step); }
      else { CallEntries(s, step, 0); CallDying(s, step); }
    }
    forall u: Tid ensures InHandler(At(s', u)) ==> At(s', u).c in s'.gone { HandlerGone(s, step, u); }
    forall d | d in s'.dead ensures d in s'.gone && (Dying(s') == Some(d) || !Known(s'.core.table, d)) {
      DeadStays(s, step, d);
    }
    DyingDead(s, step);
  }

  lemma DieKeeps(s: State, step: Step)
    requires Base(s) && Guard(s, step) && step.Die?
    ensures var s' := Apply(s, step); WorkingOk(s') && LocksOk(s') && Unique(s'.core.table)
  {
    var s' := Apply(s, step);
    forall u: Tid ensures At(s', u) == At(s, u) { }
  }

  lemma DyingDead(s: State, step: Step)
    requires Base(s) && Guard(s, step)
    ensures Dying(Apply(s, step)).Some? ==> Dying(Apply(s, step)).value in Apply(s, step).dead
  {
    hide Apply, Guard, WorkingOk, Unique, Known, Dying, LocksOk;
    if IsDeath(step) {
      DeathDying(s, step);
    } else {
      CallDying(s, step);
    }
  }

  lemma DeadStays(s: State, step: Step, d: Client)
    requires Base(s) && Guard(s, step) && d in Apply(s, step).dead
    ensures var s' := Apply(s, step); d in s'.gone && (Dying(s') == Some(d) || !Known(s'.core.table, d))
  {
    hide Apply, WorkingOk, Unique, Known, Dying, LocksOk;
    if IsDeath(step) {
      DeathDying(s, step);
      DeathEntries(s, step, d);
      assert InHandler(At(s, step.t));
    } else {
      CallDying(s, step);
      if step.Open? { OpenEntries(s, step, d); } else if !step.Die? { CallEntries(s, step, d); } else { DieTable(s, step); }
    }
  }

  lemma DieTable(s: State, step: Step)
    requires Guard(s, step) && step.Die?
    ensures Apply(s, step).core == s.core
  {
  }

  lemma InitBase(s: State)
    requires Init(s)
    ensures Base(s)
  {
    hide InFlight, LocksOk, Unique, Known;
    NoneInFlight();
    InitLocks(s);
    InitUnique();
  }

  lemma InitLocks(s: State)
    requires Init(s)
    ensures LocksOk(s) && (forall t: Tid :: At(s, t) == Idle)
  {
  }

  lemma InitUnique()
    ensures Unique([])
  {
  }

  lemma NoneInFlight()
    ensures InFlight(map[]) == 0
  {
    SumEmpty((t: Tid, p: Phase) => if Working(p) then 1 else 0);
  }

  lemma {:induction false} RunBase(run: seq<State>, i: nat)
    requires IsRun(run) && i < |run|
    ensures Base(run[i])
  {
    hide Base, Apply, Guard;
    if i == 0 {
      InitBase(run[0]);
    } else {
      RunBase(run, i - 1);
      assert Next(run[i - 1], run[i - 1 + 1]);
      var step :| Guard(run[i - 1], step) && run[i] == Apply(run[i - 1], step);
      BaseKeeps(run[i - 1], step);
    }
  }

  lemma ReachableBase(s: State)
    requires Reachable(s)
    ensures Base(s)
  {
    hide Base, IsRun;
    var run: seq<State>, i: nat :| IsRun(run) && i < |run| && run[i] == s;
    RunBase(run, i);
  }

  // ---- the half that clean steps keep ----

  lemma CallsKept(s: State, s': State, t: Tid, p: Phase)
    requires WorkingOk(s) && CallsOk(s) && s'.threads == s.threads[t := p]
    requires Working(p) ==> p.dev == s'.core.device && s'.core.device.Some?
    requires s'.core.device == s.core.device || s.core.working == 0 || s.core.device.None?
    ensures CallsOk(s')
  {
    hide InFlight;
    forall u: Tid ensures At(s', u) == (if u == t then p else At(s, u)) { }
    forall u: Tid | Working(At(s, u)) ensures s.core.working > 0 { InFlightPositive(s, u); }
  }

  // Only the owner of mLoadLock changes load records or what the DSP holds, unless no call is in flight.
  lemma PhasesKept(s: State, s': State, t: Tid, p: Phase)
    requires LocksOk(s) && WorkingOk(s) && PhasesOk(s) && s'.threads == s.threads[t := p] && PhaseOk(s', p)
    requires s.loadOwner == Some(t) || s.core.working == 0
             || (s.resident <= s'.resident && forall n: string :: Counted(s', n) ==> Counted(s, n))
    requires Dying(s).Some? && !Waits(At(s, t)) ==>
               OpenNum(s'.core.table, Dying(s).value) == OpenNum(s.core.table, Dying(s).value)
    ensures PhasesOk(s')
  {
    hide TotalLoad, InFlight, OpenNum;
    forall u: Tid ensures PhaseOk(s', At(s', u)) {
      assert PhaseOk(s, At(s, u));
      OwnsLocks(s, u);
      OwnsLocks(s, t);
      if Working(At(s, u)) { InFlightPositive(s, u); }
    }
  }

  // What is left to show of a step of thread t once its base is known to be kept.
  lemma StepFolds(s: State, step: Step)
    requires Inv(s) && Guard(s, step) && !step.Die?
    requires var s' := Apply(s, step); var p := At(s', step.t);
             && CoreOk(s'.core, Dying(s')) && LibrariesOk(s') && SessionsOk(s') && DeviceOk(s') && PhaseOk(s', p)
             && (Working(p) ==> p.dev == s'.core.device && s'.core.device.Some?)
             && (s'.core.device == s.core.device || s.core.working == 0 || s.core.device.None?)
             && (s.loadOwner == Some(step.t) || s.core.working == 0
                 || (s.resident <= s'.resident && forall n: string :: Counted(s', n) ==> Counted(s, n)))
             && (Dying(s).Some? && !Waits(At(s, step.t)) ==>
                   OpenNum(s'.core.table, Dying(s).value) == OpenNum(s.core.table, Dying(s).value))
    ensures Inv(Apply(s, step))
  {
    hide Inv, Apply, Guard, CoreOk, LibrariesOk, SessionsOk, Base, WorkingOk, LocksOk, PhasesOk, CallsOk, PhaseOk,
         Counted, Dying;
    UnfoldInv(s);
    BaseKeeps(s, step);
    var s' := Apply(s, step);
    var p := At(s', step.t);
    StepShape(s, step);
    CallsKept(s, s', step.t, p);
    PhasesKept(s, s', step.t, p);
    FoldInv(s');
  }

  // ---- opening and closing ----

  // No sessions while the device is closed.
  lemma ClosedNoSessions(s: State, c: Client)
    requires Inv(s) && s.core.device.None?
    ensures Sess(s, c) == multiset{} && OpenNum(s.core.table, c) == 0
  {
    hide Base, CallsOk, LibrariesOk, PhasesOk, TableOk, TotalOpen;
    OpensSign(s.core, Dying(s));
    assert SessionOk(s, c);
    NoElements(Sess(s, c));
  }

  lemma NoElements(m: multiset<WorkType>)
    requires |m| == 0
    ensures m == multiset{}
  {
  }

  lemma OpenSessions(s: State, step: Step, d: Client)
    requires Inv(s) && Guard(s, step) && step.Open?
    ensures SessionOk(Apply(s, step), d)
  {
    hide CoreOk, Opened, Known, OpenNum, LoadsOf, Base, CallsOk, LibrariesOk, PhasesOk, TotalLoad;
    var dev := if step.opens then Some(s.devices) else None;
    var req := At(s, step.t).req;
    OpenedOk(s.core, req.c, req.kind, step.link, dev, Dying(s), d);
    OpenedOk(s.core, req.c, req.kind, step.link, dev, Dying(s), req.c);
    assert SessionOk(s, d);
    if s.core.device.None? { ClosedNoSessions(s, d); }
  }

  lemma OpenKeeps(s: State, step: Step)
    requires Inv(s) && Guard(s, step) && step.Open? && !Breaks(s, step)
    ensures Inv(Apply(s, step))
  {
    hide Inv, CoreOk, Opened, Known, TotalLoad, OpenNum, LoadsOf, WorkingOk, LocksOk, CallsOk, PhasesOk, SessionOk,
         Base, Sess, LibrariesOk;
    UnfoldInv(s);
    var s' := Apply(s, step);
    var req := At(s, step.t).req;
    var dev := if step.opens then Some(s.devices) else None;
    CallDying(s, step);
    OpenedOk(s.core, req.c, req.kind, step.link, dev, Dying(s), req.c);
    if Dying(s).Some? { OpenedOk(s.core, req.c, req.kind, step.link, dev, Dying(s), Dying(s).value); }
    forall d: Client ensures SessionOk(s', d) { OpenSessions(s, step, d); }
    forall n: string ensures Counted(s', n) == Counted(s, n) { OpenedLoads(s.core, req.c, req.kind, step.link, dev, Dying(s), n); }
    LibrariesStay(s, s');
    StepFolds(s, step);
  }

  lemma LibrariesStay(s: State, s': State)
    requires LibrariesOk(s) && forall n: string :: Counted(s', n) ==> Counted(s, n)
    requires s.resident <= s'.resident || forall n: string :: !Counted(s', n)
    ensures LibrariesOk(s')
  {
    hide Counted;
  }

  lemma CloseSessions(s: State, step: Step, d: Client)
    requires Inv(s) && Guard(s, step) && step.Close? && !Breaks(s, step)
    ensures SessionOk(Apply(s, step), d)
  {
    hide Inv, CoreOk, Closed, Known, OpenNum, LoadsOf, Base, WorkingOk, LocksOk, CallsOk, LibrariesOk, PhasesOk,
         TotalLoad, Survivors;
    UnfoldInv(s);
    var c := At(s, step.t).req.c;
    ClosedOk(s.core, c, Dying(s), d);
    ClosedOk(s.core, c, Dying(s), c);
    assert SessionOk(s, d);
    var (k, ret) := Closed(s.core, c);
    if d == c && ret == 0 {
      OneLessLaws(Sess(s, c)) by { OpensTotalled(k.table, c, Dying(s)) by { CoreTable(k, Dying(s)); } }
    }
    if k.device != s.core.device {
      NoOpens(d);
      NoElements(Sess(Apply(s, step), d));
    }
  }

  lemma NoOpens(c: Client)
    ensures OpenNum([], c) == 0
  {
  }

  lemma OneLessLaws(m: multiset<WorkType>)
    requires |m| > 0
    ensures |OneLess(m)| == |m| - 1 && OneLess(m) <= m
  {
    assert (forall k :: k !in m) ==> m == multiset{};
  }

  lemma NoLoads(name: string)
    ensures TotalLoad([], name) == 0
  {
  }

  lemma CloseKeeps(s: State, step: Step)
    requires Inv(s) && Guard(s, step) && step.Close? && !Breaks(s, step)
    ensures Inv(Apply(s, step))
  {
    hide Inv, CoreOk, Closed, Known, TotalLoad, OpenNum, LoadsOf, WorkingOk, LocksOk, CallsOk, PhasesOk, SessionOk,
         Base, Sess, LibrariesOk;
    UnfoldInv(s);
    var s' := Apply(s, step);
    var c := At(s, step.t).req.c;
    CallDying(s, step);
    ClosedOk(s.core, c, Dying(s), c);
    if Dying(s).Some? { ClosedOk(s.core, c, Dying(s), Dying(s).value); }
    forall d: Client ensures SessionOk(s', d) { CloseSessions(s, step, d); }
    forall n: string ensures Counted(s', n) ==> Counted(s, n) && s'.core.device == s.core.device {
      ClosedLoads(s.core, c, Dying(s), n);
      NoLoads(n);
    }
    LibrariesStay(s, s');
    StepFolds(s, step);
  }

  // ---- loading and unloading ----

  lemma SessionsStay(s: State, s': State)
    requires SessionsOk(s) && s'.sessions == s.sessions && s'.core.kind == s.core.kind
    requires forall d: Client :: OpenNum(s'.core.table, d) == OpenNum(s.core.table, d)
    ensures SessionsOk(s')
  {
    hide OpenNum;
    forall d: Client ensures SessionOk(s', d) { assert SessionOk(s, d); }
  }

  lemma OpenHasDevice(s: State)
    requires CoreOk(s.core, Dying(s))
    ensures s.core.opens != 0 ==> s.core.device.Some?
  {
    OpensSign(s.core, Dying(s));
  }

  // The step records a load of p.name, which is in the DSP.
  lemma AddsLoad(s: State, step: Step)
    requires Inv(s) && Guard(s, step) && (step.LoadEnter? || step.LoadLeave?)
    requires var p := At(s, step.t); p.name in s.resident && Apply(s, step).core.table == AddLoad(s.core.table, p.c, p.name)
    ensures var s' := Apply(s, step); CoreOk(s'.core, Dying(s)) && LibrariesOk(s') && SessionsOk(s')
    ensures forall d: Client :: OpenNum(Apply(s, step).core.table, d) == OpenNum(s.core.table, d)
  {
    hide Inv, CoreOk, TotalLoad, OpenNum, Known, AddLoad, Base, WorkingOk, LocksOk, CallsOk, PhasesOk, SessionsOk,
         LoadsOf, HasLib;
    UnfoldInv(s);
    var s' := Apply(s, step);
    var p := At(s, step.t);
    AddLoadOk(s.core, p.c, p.name, Dying(s), p.c);
    CoreApart(s'.core, s.core.(table := AddLoad(s.core.table, p.c, p.name)), Dying(s));
    forall d: Client ensures OpenNum(s'.core.table, d) == OpenNum(s.core.table, d) { AddLoadOk(s.core, p.c, p.name, Dying(s), d); }
    forall n: string | Counted(s', n) ensures n in s'.resident {
      AddLoadTotal(s.core.table, p.c, p.name, Dying(s), n) by { CoreTable(s.core, Dying(s)); }
      assert n == p.name || Counted(s, n);
    }
    SessionsStay(s, s');
  }

  // mworking is no part of it.
  lemma CoreApart(k: Core, k': Core, dying: Option<Client>)
    requires k' == k.(working := k'.working)
    ensures CoreOk(k, dying) <==> CoreOk(k', dying)
  {
  }

  lemma LoadEnterKeeps(s: State, step: Step)
    requires Inv(s) && Guard(s, step) && step.LoadEnter?
    ensures Inv(Apply(s, step))
  {
    hide Inv, CoreOk, TotalLoad, OpenNum, Known, AddLoad, Base, WorkingOk, LocksOk, CallsOk, PhasesOk, SessionsOk,
         LibrariesOk;
    UnfoldInv(s);
    var s' := Apply(s, step);
    var p := At(s, step.t);
    CallDying(s, step);
    OwnsLocks(s, step.t);
    OpenHasDevice(s);
    if LoadBegun(s.core, p.c, p.name).1.Done? {
      TotalLoadSign(s.core.table, p.name, Dying(s)) by { CoreTable(s.core, Dying(s)); }
      CountedResident(s, p.name);
      AddsLoad(s, step);
    } else {
      SameTable(s, s');
    }
    StepFolds(s, step);
  }

  lemma CountedResident(s: State, name: string)
    requires LibrariesOk(s) && TotalLoad(s.core.table, name) > 0
    ensures name in s.resident
  {
    assert Counted(s, name);
  }

  // A step that leaves the table alone and takes nothing that counts out of the DSP.
  lemma SameTable(s: State, s': State)
    requires CoreOk(s.core, Dying(s)) && LibrariesOk(s) && SessionsOk(s) && s'.sessions == s.sessions
    requires s'.core == s.core.(working := s'.core.working)
    requires forall name <- s.resident :: name in s'.resident || !Counted(s, name)
    ensures CoreOk(s'.core, Dying(s)) && LibrariesOk(s') && SessionsOk(s')
    ensures forall n: string :: Counted(s', n) <==> Counted(s, n)
  {
    hide CoreOk, TotalLoad, OpenNum;
    CoreApart(s.core, s'.core, Dying(s));
    SessionsStay(s, s');
    forall n: string ensures Counted(s', n) <==> Counted(s, n) { }
  }

  lemma LoadLeaveKeeps(s: State, step: Step)
    requires Inv(s) && Guard(s, step) && step.LoadLeave?
    ensures Inv(Apply(s, step))
  {
    hide Inv, CoreOk, TotalLoad, OpenNum, Known, AddLoad, Base, WorkingOk, LocksOk, CallsOk, SessionsOk, LibrariesOk;
    UnfoldInv(s);
    var s' := Apply(s, step);
    var p := At(s, step.t);
    CallDying(s, step);
    OwnsLocks(s, step.t);
    assert PhaseOk(s, p);
    if p.ok { AddsLoad(s, step); } else { SameTable(s, s'); }
    StepFolds(s, step);
  }

  // The step takes a load off a record that was not zero.
  lemma DropsLoad(s: State, step: Step)
    requires Inv(s) && Guard(s, step) && step.UnloadEnter? && !Breaks(s, step)
    requires var p := At(s, step.t); HasLib(LoadsOf(s.core.table, p.c), p.name)
                                     && Apply(s, step).core.table == DecLoad(s.core.table, p.c, p.name)
    ensures var s' := Apply(s, step); CoreOk(s'.core, Dying(s)) && LibrariesOk(s') && SessionsOk(s')
    ensures forall d: Client :: OpenNum(Apply(s, step).core.table, d) == OpenNum(s.core.table, d)
  {
    hide Inv, CoreOk, TotalLoad, OpenNum, Known, DecLoad, Base, WorkingOk, LocksOk, CallsOk, PhasesOk, SessionsOk,
         LoadsOf, HasLib, LoadNum;
    UnfoldInv(s);
    var s' := Apply(s, step);
    var p := At(s, step.t);
    DecLoadOk(s.core, p.c, p.name, Dying(s), p.c);
    LateSign(s, p.c, p.name);
    CoreApart(s'.core, s.core.(table := DecLoad(s.core.table, p.c, p.name)), Dying(s));
    forall d: Client ensures OpenNum(s'.core.table, d) == OpenNum(s.core.table, d) { DecLoadOk(s.core, p.c, p.name, Dying(s), d); }
    forall n: string | Counted(s', n) ensures n in s'.resident {
      DecLoadTotal(s.core.table, p.c, p.name, Dying(s), n) by { CoreTable(s.core, Dying(s)); }
      assert Counted(s, n);
    }
    SessionsStay(s, s');
  }

  // Load records are never negative.
  lemma LateSign(s: State, c: Client, name: string)
    requires CoreOk(s.core, Dying(s))
    ensures LoadNum(LoadsOf(s.core.table, c), name) >= 0
  {
    CoreTable(s.core, Dying(s));
    EntryLoadsOk(s.core.table, c, Dying(s));
    LoadNumSign(LoadsOf(s.core.table, c), name, Dying(s) == Some(c));
  }

  lemma UnloadEnterKeeps(s: State, step: Step)
    requires Inv(s) && Guard(s, step) && step.UnloadEnter? && !Breaks(s, step)
    ensures Inv(Apply(s, step))
  {
    hide Inv, CoreOk, TotalLoad, OpenNum, Known, DecLoad, Base, WorkingOk, LocksOk, CallsOk, PhasesOk, SessionsOk,
         LibrariesOk, LoadsOf, HasLib;
    UnfoldInv(s);
    var s' := Apply(s, step);
    var p := At(s, step.t);
    CallDying(s, step);
    OwnsLocks(s, step.t);
    OpenHasDevice(s);
    if UnloadBegun(s.core, p.c, p.name).1.Refused? { SameTable(s, s'); } else { DropsLoad(s, step); }
    StepFolds(s, step);
  }

  // ---- steps that change neither table nor sessions ----

  predicate IsPlain(step: Step) {
    !step.Die? && !IsRegion(step) && !IsDeath(step)
  }

  // What such a step of thread t leaves behind.
  ghost predicate Plainly(s: State, step: Step, s': State, p: Phase) {
    && s'.core == s.core.(working := s'.core.working) && s'.sessions == s.sessions && s'.devices == s.devices
    && s'.loaded == s.loaded
    && (s.resident <= s'.resident || (step.DspUnload? && s.loadOwner == Some(step.t)))
    && (forall name <- s.resident :: name in s'.resident || !Counted(s, name))
    && PhaseOk(s', p) && (Working(p) ==> p.dev == s'.core.device && s'.core.device.Some?)
  }

  lemma DspPhase(s: State, step: Step)
    requires Inv(s) && Guard(s, step) && (step.DspLoad? || step.DspUnload? || step.UnloadLeave?)
    ensures Plainly(s, step, Apply(s, step), At(Apply(s, step), step.t))
  {
    hide Inv, CoreOk, TotalLoad, OpenNum, Known, Base, WorkingOk, LocksOk, SessionsOk, LibrariesOk, DeadOk, AfterOpen,
         AfterClose, AfterLoadEnter, AfterUnloadEnter, AfterDeathEnter, AfterDeath, LoadDone, DeathResumed;
    UnfoldInv(s);
    OwnsLocks(s, step.t);
    assert PhaseOk(s, At(s, step.t));
  }

  lemma EntryPhase(s: State, step: Step)
    requires Inv(s) && Guard(s, step) && (step.SendEnter? || step.HintEnter?)
    ensures Plainly(s, step, Apply(s, step), At(Apply(s, step), step.t))
  {
    hide Inv, CoreOk, TotalLoad, OpenNum, Known, Base, WorkingOk, LocksOk, SessionsOk, LibrariesOk, DeadOk, AfterOpen,
         AfterClose, AfterLoadEnter, AfterUnloadEnter, AfterDeathEnter, AfterDeath, LoadDone, DeathResumed, CallsOk,
         PhasesOk;
    UnfoldInv(s);
    OpenHasDevice(s);
  }

  lemma PlainPhase(s: State, step: Step)
    requires Inv(s) && Guard(s, step) && IsPlain(step)
    ensures Plainly(s, step, Apply(s, step), At(Apply(s, step), step.t))
  {
    hide Inv, CoreOk, TotalLoad, OpenNum, Known, Base, WorkingOk, LocksOk, SessionsOk, LibrariesOk, DeadOk, AfterOpen,
         AfterClose, AfterLoadEnter, AfterUnloadEnter, AfterDeathEnter, AfterDeath, LoadDone, DeathResumed, CallsOk,
         AfterSendEnter, AfterHintEnter;
    if step.DspLoad? || step.DspUnload? || step.UnloadLeave? {
      DspPhase(s, step);
    } else if step.SendEnter? || step.HintEnter? {
      EntryPhase(s, step);
    } else {
      UnfoldInv(s);
      assert PhaseOk(s, At(s, step.t));
    }
  }

  lemma PlainKeeps(s: State, step: Step)
    requires Inv(s) && Guard(s, step) && IsPlain(step)
    ensures Inv(Apply(s, step))
  {
    hide Inv, Apply, Guard, CoreOk, Counted, Base, WorkingOk, LocksOk, SessionsOk, LibrariesOk, DeadOk, CallsOk,
         PhasesOk, PhaseOk;
    UnfoldInv(s);
    PlainPhase(s, step);
    CallDying(s, step);
    SameTable(s, Apply(s, step));
    StepFolds(s, step);
  }

  lemma DieKeepsInv(s: State, step: Step)
    requires Inv(s) && Guard(s, step) && step.Die?
    ensures Inv(Apply(s, step))
  {
    hide CoreOk, TotalLoad, OpenNum, InFlight, Base;
    UnfoldInv(s);
    BaseKeeps(s, step);
    var s' := Apply(s, step);
    forall u: Tid ensures At(s', u) == At(s, u) { }
    SameTable(s, s');
    forall u: Tid ensures PhaseOk(s', At(s', u)) { assert PhaseOk(s, At(s, u)); }
  }

  // ---- the death handler ----

  // What a region of the handler of c does, as far as client d and library n can see.
  ghost predicate DeathFacts(k: Core, k': Core, c: Client, pause: Option<Pause>, d: Client) {
    && CoreOk(k', if pause.Some? then Some(c) else None) && k'.working == k.working
    && (pause.Some? ==> pause.value.count == OpenNum(k'.table, c) == OpenNum(k.table, c))
    && (pause.None? ==> !Known(k'.table, c))
    && (d != c ==> SameFor(k.table, k'.table, d))
    && (k'.device == k.device || (k'.device.None? && k'.working == 0 && k'.table == []))
    && (k'.device == k.device ==> k'.kind == k.kind)
  }

  // The core and the pause that a step of a handler ends with.
  function DeathOutcome(s: State, step: Step): (Core, Option<Pause>)
    requires (step.DeathEnter? && At(s, step.t).DeathWantsMain?) || (step.DeathResume? && At(s, step.t).DeathRelocked?)
  {
    if step.DeathEnter? then DeathBegun(s.core, At(s, step.t).c)
    else DeathResumed(s.core, At(s, step.t).c, At(s, step.t).pause)
  }

  lemma OutcomeFacts(s: State, step: Step, d: Client)
    requires Inv(s) && Guard(s, step) && IsDeath(step)
    ensures var (k, pause) := DeathOutcome(s, step); DeathFacts(s.core, k, At(s, step.t).c, pause, d)
  {
    hide Inv, CoreOk, OpenNum, Known, SameFor, DeathBegun, DeathResumed, LoadsOf, Base, CallsOk, LibrariesOk,
         SessionsOk, LocksOk, WorkingOk, Silenced, Without;
    UnfoldInv(s);
    var c := At(s, step.t).c;
    DeathDying(s, step);
    assert PhaseOk(s, At(s, step.t));
    if step.DeathEnter? { DeathBegunOk(s.core, c, d); } else { DeathResumedOk(s.core, c, At(s, step.t).pause, d); }
  }

  // Where the handler's step leaves the state.
  lemma OutcomeShape(s: State, step: Step)
    requires Guard(s, step) && IsDeath(step)
    ensures var (k, pause) := DeathOutcome(s, step); var s' := Apply(s, step); var c := At(s, step.t).c;
            && s'.core == k && s'.devices == s.devices
            && At(s', step.t) == (if pause.Some? then DeathWindow(c, pause.value) else Idle)
            && s'.sessions == (if pause.Some? then s.sessions else s.sessions[c := multiset{}])
            && s'.resident == Survivors(s, k, step.kept)
                              - (if step.DeathEnter? then SoleLibs(s.core.table, c) * step.dropped else {})
  {
    hide DeathBegun, DeathResumed, SoleLibs;
  }

  lemma DeathSessions(s: State, step: Step, d: Client)
    requires Inv(s) && Guard(s, step) && IsDeath(step)
    ensures SessionOk(Apply(s, step), d)
  {
    hide Inv, Apply, CoreOk, Find, LoadsOf, DeathOutcome, Base, CallsOk, LibrariesOk, PhasesOk, LocksOk, WorkingOk,
         Survivors, SoleLibs;
    UnfoldInv(s);
    var c := At(s, step.t).c;
    OutcomeFacts(s, step, d);
    OutcomeShape(s, step);
    assert SessionOk(s, d);
    var k := DeathOutcome(s, step).0;
    if k.device != s.core.device {
      NoOpens(d);
      if d != c { NoElements(Sess(s, d)); }
    }
  }

  lemma DeathLibraries(s: State, step: Step, n: string)
    requires Inv(s) && Guard(s, step) && IsDeath(step) && Counted(Apply(s, step), n)
    ensures n in Apply(s, step).resident
  {
    hide Inv, Apply, CoreOk, Known, OpenNum, LoadsOf, DeathOutcome, Base, CallsOk, PhasesOk, LocksOk, WorkingOk,
         SoleLibs, TotalLoad, SameFor, Without, Silenced, LibrariesOk, Dying;
    UnfoldInv(s);
    var c := At(s, step.t).c;
    OutcomeFacts(s, step, c);
    OutcomeShape(s, step);
    OutcomeTable(s, step);
    NoLoads(n);
    DeathDying(s, step);
    CoreTable(s.core, Dying(s));
    var t := s.core.table;
    var k := DeathOutcome(s, step).0;
    assert k.table != [] && k.device == s.core.device;
    if step.DeathEnter? { NotSole(t, c, n); } else { BuriedTotal(t, c, n); }
    assert TotalLoad(t, n) > 0;
    CountedResident(s, n);
  }

  lemma OutcomeTable(s: State, step: Step)
    requires Inv(s) && Guard(s, step) && IsDeath(step)
    ensures var (k, pause) := DeathOutcome(s, step); var c := At(s, step.t).c;
            && (pause.None? ==> k.table == Without(s.core.table, c))
            && (pause.Some? && step.DeathEnter? ==> k.table == Silenced(s.core.table, c))
            && (pause.Some? && step.DeathResume? ==> k.table == s.core.table)
  {
    hide Inv, CoreOk, OpenNum, Known, SameFor, DeathBegun, DeathResumed, LoadsOf, Base, CallsOk, LibrariesOk,
         SessionsOk, LocksOk, WorkingOk, Silenced, Without;
    UnfoldInv(s);
    var c := At(s, step.t).c;
    DeathDying(s, step);
    assert PhaseOk(s, At(s, step.t));
    if step.DeathEnter? {
      DeathBegunOk(s.core, c, c);
    } else {
      assert At(s, step.t).DeathRelocked?;
      DeathResumedOk(s.core, c, At(s, step.t).pause, c);
    }
  }

  // What still counts without client c was not only c's.
  lemma NotSole(t: Table, c: Client, n: string)
    requires TableOk(t, None)
    ensures TotalLoad(Silenced(t, c), n) == TotalLoad(Without(t, c), n) <= TotalLoad(t, n)
    ensures TotalLoad(Without(t, c), n) > 0 ==> n !in SoleLibs(t, c)
  {
    SilencedTotal(t, c, n);
    WithoutLoads(t, c, n);
    LoadsTotalled(t, c, n, None);
  }

  lemma DeathKeeps(s: State, step: Step)
    requires Inv(s) && Guard(s, step) && IsDeath(step)
    ensures Inv(Apply(s, step))
  {
    hide Inv, Apply, CoreOk, Known, OpenNum, DeathOutcome, Base, CallsOk, PhasesOk, LocksOk, WorkingOk, SoleLibs,
         TotalLoad, SameFor, SessionOk, Survivors, Counted;
    UnfoldInv(s);
    var s' := Apply(s, step);
    forall d: Client ensures SessionOk(s', d) { DeathSessions(s, step, d); }
    forall n: string | Counted(s', n) ensures n in s'.resident { DeathLibraries(s, step, n); }
    OutcomeFacts(s, step, At(s, step.t).c);
    OutcomeShape(s, step);
    DeathDying(s, step);
    OwnsLocks(s, step.t);
    StepFolds(s, step);
  }

  // ---- all steps ----

  lemma CleanStepKeeps(s: State, step: Step)
    requires Inv(s) && Guard(s, step) && !Breaks(s, step)
    ensures Inv(Apply(s, step))
  {
    hide Inv, Apply, Guard, Breaks;
    match step {
      case Die(_) => DieKeepsInv(s, step);
      case Open(_, _, _) => OpenKeeps(s, step);
      case Close(_, _) => CloseKeeps(s, step);
      case LoadEnter(_) => LoadEnterKeeps(s, step);
      case LoadLeave(_) => LoadLeaveKeeps(s, step);
      case UnloadEnter(_) => UnloadEnterKeeps(s, step);
      case DeathEnter(_, _, _) => DeathKeeps(s, step);
      case DeathResume(_, _) => DeathKeeps(s, step);
      case _ => PlainKeeps(s, step);
    }
  }

  lemma InitKeeps(s: State)
    requires Init(s)
    ensures Inv(s)
  {
    hide CoreOk, Base, LocksOk, CallsOk, LibrariesOk, PhasesOk, SessionsOk;
    InitBase(s);
    InitCore();
    InitThreads(s);
    InitLibraries(s);
    InitSessions(s);
    FoldInv(s);
  }

  lemma InitThreads(s: State)
    requires Init(s)
    ensures CallsOk(s) && PhasesOk(s)
  {
    hide PhaseOk;
    forall t: Tid ensures At(s, t) == Idle { }
    IdleOk(s);
  }

  lemma IdleOk(s: State)
    ensures PhaseOk(s, Idle)
  {
  }

  lemma InitLibraries(s: State)
    requires Init(s)
    ensures LibrariesOk(s)
  {
    hide TotalLoad;
    forall n: string ensures !Counted(s, n) { NoLoads(n); }
  }

  lemma InitSessions(s: State)
    requires Init(s)
    ensures SessionsOk(s)
  {
    hide OpenNum;
    forall c: Client ensures SessionOk(s, c) { NoOpens(c); }
  }

  lemma InitCore()
    ensures CoreOk(Fresh(), None)
  {
  }

  lemma {:induction false} CleanRunKeeps(run: seq<State>, i: nat)
    requires IsCleanRun(run) && i < |run|
    ensures Inv(run[i])
  {
    hide Inv, Apply, Guard, Breaks;
    if i == 0 {
      InitKeeps(run[0]);
    } else {
      CleanRunKeeps(run, i - 1);
      assert CleanNext(run[i - 1], run[i - 1 + 1]);
      var step :| Guard(run[i - 1], step) && !Breaks(run[i - 1], step) && run[i] == Apply(run[i - 1], step);
      CleanStepKeeps(run[i - 1], step);
    }
  }

  lemma CleanInv(s: State)
    requires CleanReachable(s)
    ensures Inv(s)
  {
    hide Inv, IsCleanRun;
    var run: seq<State>, i: nat :| IsCleanRun(run) && i < |run| && run[i] == s;
    CleanRunKeeps(run, i);
  }
}
