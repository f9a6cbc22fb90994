// When the DSP holds exactly the libraries somebody has loaded. A clean step leaves a library in the DSP that no
// client has loaded exactly if it is one of a few: a close or a death handler that erases the only load records of a
// library that stays in the DSP, a load recorded for a client without an entry, an unload that fails.
module ServiceTidy {
  import opened Bags
  import opened ServiceTables
  import opened ServiceCore
  import opened ServiceSteps
  import opened ServiceInvariant
  import opened ServiceLate

  // The owner of mLoadLock is between telling the DSP about this library and recording it, or the reverse.
  ghost predicate Between(s: State, name: string) {
    && s.loadOwner.Some?
    && (var p := At(s, s.loadOwner.value); ((p.Loaded? && p.ok) || p.Unloading?) && p.name == name)
  }

  ghost predicate Accounted(s: State) {
    forall name: string :: name in s.resident ==> Counted(s, name) || Between(s, name)
  }

  // What only client c has loaded goes with its entry.
  ghost predicate TakesAlong(s: State, step: Step, c: Client)
    requires Guard(s, step)
  {
    forall name <- SoleLibs(s.core.table, c) :: name in Apply(s, step).resident ==> Between(s, name)
  }

  // The step erases the load records of its client, or sets them to zero.
  ghost predicate Erases(s: State, step: Step)
    requires Guard(s, step)
  {
    match step
    case Close(t, _) => OpenNum(s.core.table, At(s, t).req.c) == 1 && Closed(s.core, At(s, t).req.c).1 == 0
    case DeathEnter(_, _, _) => true
    case DeathResume(_, _) => s.core.working == 0
    case _ => false
  }

  ghost predicate Tidy(s: State, step: Step)
    requires Guard(s, step)
  {
    match step
    case Close(t, _) => Erases(s, step) ==> TakesAlong(s, step, At(s, t).req.c)
    case LoadLeave(t) => At(s, t).ok ==> Known(s.core.table, At(s, t).c) || Counted(s, At(s, t).name)
    case DspUnload(t, ok) => ok || At(s, t).name !in s.resident
    case DeathEnter(t, _, _) => TakesAlong(s, step, At(s, t).c)
    case DeathResume(t, _) => Erases(s, step) ==> TakesAlong(s, step, At(s, t).c)
    case _ => true
  }

  lemma BetweenStays(s: State, step: Step, name: string)
    requires Base(s) && Guard(s, step) && !step.Die? && s.loadOwner != Some(step.t)
             && Apply(s, step).loadOwner == s.loadOwner
    ensures Between(Apply(s, step), name) <==> Between(s, name)
  {
    hide Apply, Guard, WorkingOk, Unique, DeadOk, LocksOk;
    StepShape(s, step);
    if s.loadOwner.Some? { OtherPhase(s, Apply(s, step), step.t, At(Apply(s, step), step.t), s.loadOwner.value); }
  }

  lemma OtherPhase(s: State, s': State, t: Tid, p: Phase, u: Tid)
    requires ThreadStep(s, s', t, p) && u != t
    ensures At(s', u) == At(s, u)
  {
  }

  // What counts, but not without client c, is c's alone.
  lemma SoleOtherwise(t: Table, c: Client, name: string, dying: Option<Client>)
    requires TableOk(t, dying)
    ensures TotalLoad(t, name) > 0 && TotalLoad(Without(t, c), name) <= 0 ==> name in SoleLibs(t, c)
    ensures name in SoleLibs(t, c) ==> TotalLoad(Without(t, c), name) == 0
  {
    hide TotalLoad, Without, TableOk;
    WithoutLoads(t, c, name);
    WithoutLaws(t, c, c, dying, dying);
    TotalLoadSign(Without(t, c), name, dying);
    if LoadNum(LoadsOf(t, c), name) > 0 {
      var l := LoadsOf(t, c)[FindLib(LoadsOf(t, c), name)];
      assert l in LoadsOf(t, c) && l.name == name;
    }
  }

  // ---- opening and closing ----

  lemma OpenTidy(s: State, step: Step)
    requires Inv(s) && Accounted(s) && Guard(s, step) && step.Open?
    ensures Accounted(Apply(s, step))
  {
    hide CoreOk, Opened, Known, TotalLoad, Inv, Base, LocksOk, WorkingOk, CallsOk, LibrariesOk, PhasesOk, SessionsOk;
    UnfoldInv(s);
    OwnsLocks(s, step.t);
    var s' := Apply(s, step);
    var req := At(s, step.t).req;
    var dev := if step.opens then Some(s.devices) else None;
    forall n: string | n in s'.resident ensures Counted(s', n) || Between(s', n) {
      OpenedLoads(s.core, req.c, req.kind, step.link, dev, Dying(s), n);
      BetweenStays(s, step, n);
      assert Counted(s, n) || Between(s, n);
    }
  }

  // What a close that goes through does to the totals.
  lemma ClosedTotal(k: Core, c: Client, dying: Option<Client>, name: string)
    requires CoreOk(k, dying)
    ensures TotalLoad(Closed(k, c).0.table, name)
            == TotalLoad(if OpenNum(k.table, c) == 1 && Closed(k, c).1 == 0 then Without(k.table, c) else k.table, name)
  {
    hide CoreOk, TotalLoad, Without, Find;
    if OpenNum(k.table, c) != 1 { ClosedLoads(k, c, dying, name); }
  }

  lemma CloseTidyFor(s: State, step: Step, n: string)
    requires Inv(s) && Accounted(s) && Guard(s, step) && step.Close? && n in Apply(s, step).resident
    ensures var s' := Apply(s, step); var c := At(s, step.t).req.c;
            && (Counted(s', n) || Between(s', n) <==>
                  (Erases(s, step) && n in SoleLibs(s.core.table, c) ==> Between(s, n)))
  {
    hide CoreOk, Closed, Known, OpenNum, TotalLoad, Inv, Base, LocksOk, WorkingOk, CallsOk, LibrariesOk, PhasesOk,
         SessionsOk, OneLess, Without, SoleLibs;
    UnfoldInv(s);
    OwnsLocks(s, step.t);
    var c := At(s, step.t).req.c;
    BetweenStays(s, step, n);
    ClosedTotal(s.core, c, Dying(s), n);
    CoreTable(s.core, Dying(s));
    SoleOtherwise(s.core.table, c, n, Dying(s));
    assert Counted(s, n) || Between(s, n);
  }

  lemma CloseTidy(s: State, step: Step)
    requires Inv(s) && Accounted(s) && Guard(s, step) && step.Close?
    ensures Accounted(Apply(s, step)) <==> Tidy(s, step)
  {
    hide Inv, Apply, Closed, OpenNum, Counted, Between, SoleLibs;
    forall n: string | n in Apply(s, step).resident
      ensures var s' := Apply(s, step); var c := At(s, step.t).req.c;
              && (Counted(s', n) || Between(s', n) <==>
                    (Erases(s, step) && n in SoleLibs(s.core.table, c) ==> Between(s, n)))
    {
      CloseTidyFor(s, step, n);
    }
  }

  // ---- loading and unloading ----

  lemma LoadEnterTidy(s: State, step: Step)
    requires Inv(s) && Accounted(s) && Guard(s, step) && step.LoadEnter?
    ensures Accounted(Apply(s, step))
  {
    hide CoreOk, Known, OpenNum, TotalLoad, Inv, AddLoad, Base, LocksOk, WorkingOk, CallsOk, LibrariesOk, PhasesOk,
         SessionsOk;
    UnfoldInv(s);
    OwnsLocks(s, step.t);
    var s' := Apply(s, step);
    var p := At(s, step.t);
    CoreTable(s.core, Dying(s));
    forall n: string | n in s'.resident ensures Counted(s', n) {
      AddLoadTotal(s.core.table, p.c, p.name, Dying(s), n);
      assert Counted(s, n) || Between(s, n);
    }
  }

  lemma LoadLeaveTidy(s: State, step: Step)
    requires Inv(s) && Accounted(s) && Guard(s, step) && step.LoadLeave?
    ensures Accounted(Apply(s, step)) <==> Tidy(s, step)
  {
    hide CoreOk, Known, OpenNum, TotalLoad, Inv, AddLoad, Base, LocksOk, WorkingOk, CallsOk, LibrariesOk, PhasesOk,
         SessionsOk;
    UnfoldInv(s);
    OwnsLocks(s, step.t);
    var s' := Apply(s, step);
    var p := At(s, step.t);
    assert PhaseOk(s, p);
    CoreTable(s.core, Dying(s));
    AddLoadTotal(s.core.table, p.c, p.name, Dying(s), p.name);
    TotalLoadSign(s.core.table, p.name, Dying(s));
    forall n: string | n in s'.resident && n != p.name ensures Counted(s', n) {
      AddLoadTotal(s.core.table, p.c, p.name, Dying(s), n);
      assert Counted(s, n) || Between(s, n);
    }
    assert s'.resident == s.resident && s'.loadOwner == None;
    assert p.name in s.resident ==> Counted(s, p.name) || Between(s, p.name);
    assert p.name in s.resident && Accounted(s') ==> Counted(s', p.name);
  }

  lemma UnloadTidy(s: State, step: Step)
    requires Inv(s) && Accounted(s) && Guard(s, step) && step.UnloadEnter? && !Breaks(s, step)
    ensures Accounted(Apply(s, step))
  {
    hide CoreOk, Known, OpenNum, TotalLoad, LoadsOf, LoadNum, Inv, DecLoad, HasLib, Base, LocksOk, WorkingOk, CallsOk,
         LibrariesOk, PhasesOk, SessionsOk;
    UnfoldInv(s);
    OwnsLocks(s, step.t);
    var s' := Apply(s, step);
    var p := At(s, step.t);
    CoreTable(s.core, Dying(s));
    forall n: string ensures n in s.resident ==> Counted(s, n) { assert n in s.resident ==> Counted(s, n) || Between(s, n); }
    if UnloadBegun(s.core, p.c, p.name).1 != Refused {
      forall n: string ensures Counted(s, n) && n != p.name ==> Counted(s', n) {
        DecLoadTotal(s.core.table, p.c, p.name, Dying(s), n);
      }
      DecLoadTotal(s.core.table, p.c, p.name, Dying(s), p.name);
      DecLoadOk(s.core, p.c, p.name, Dying(s), p.c);
      LateSign(s, p.c, p.name);
      TotalLoadSign(s'.core.table, p.name, Dying(s)) by { CoreTable(s.core.(table := s'.core.table), Dying(s)); }
    }
  }

  lemma UnloadedTidy(s: State, step: Step)
    requires Inv(s) && Accounted(s) && Guard(s, step) && step.DspUnload?
    ensures Accounted(Apply(s, step)) <==> Tidy(s, step)
  {
    hide CoreOk, TotalLoad, Inv, Base, LocksOk, WorkingOk, CallsOk, LibrariesOk, PhasesOk, SessionsOk, Dying;
    UnfoldInv(s);
    OwnsLocks(s, step.t);
    var s' := Apply(s, step);
    var p := At(s, step.t);
    assert PhaseOk(s, p);
    forall n: string ensures Counted(s', n) == Counted(s, n) && !Between(s', n) { }
    forall n: string ensures n in s.resident && n != p.name ==> Counted(s, n) {
      assert n in s.resident ==> Counted(s, n) || Between(s, n);
    }
    assert p.name in s'.resident <==> p.name in s.resident && !step.ok;
    assert Accounted(s') ==> p.name !in s'.resident;
  }

  // ---- the death handler ----

  lemma DeathTidyFor(s: State, step: Step, n: string)
    requires Inv(s) && Accounted(s) && Guard(s, step) && IsDeath(step) && n in Apply(s, step).resident
    ensures (Counted(Apply(s, step), n) || Between(Apply(s, step), n)) <==>
              (Erases(s, step) && n in SoleLibs(s.core.table, At(s, step.t).c) ==> Between(s, n))
  {
    hide Inv, Apply, CoreOk, Known, OpenNum, LoadsOf, LoadNum, DeathOutcome, Base, CallsOk, PhasesOk, LocksOk,
         WorkingOk, SoleLibs, TotalLoad, SameFor, Without, Silenced, LibrariesOk, SessionsOk, Dying;
    UnfoldInv(s);
    var c := At(s, step.t).c;
    OutcomeShape(s, step);
    OutcomeTable(s, step);
    DeathDying(s, step);
    CoreTable(s.core, Dying(s));
    OwnsLocks(s, step.t);
    StepShape(s, step);
    HandlerNotBetween(s, step, n);
    assert Counted(s, n) || Between(s, n);
    SoleOtherwise(s.core.table, c, n, Dying(s));
    if step.DeathEnter? { NotSole(s.core.table, c, n); } else { ResumedPause(s, step); }
    assert DeathOutcome(s, step).1.None? || DeathOutcome(s, step).1.Some?;
  }

  lemma HandlerNotBetween(s: State, step: Step, n: string)
    requires LocksOk(s) && Guard(s, step) && IsDeath(step)
    ensures !Between(s, n) && Apply(s, step).loadOwner == None
  {
    hide DeathBegun, DeathResumed, SoleLibs, Survivors;
    OwnsLocks(s, step.t);
  }

  lemma ResumedPause(s: State, step: Step)
    requires Inv(s) && Guard(s, step) && step.DeathResume?
    ensures DeathOutcome(s, step).1.Some? <==> s.core.working != 0
  {
    hide Inv, CoreOk, OpenNum, Known, SameFor, DeathResumed, Base, CallsOk, LibrariesOk, SessionsOk, LocksOk,
         WorkingOk;
    UnfoldInv(s);
    DeathDying(s, step);
    assert PhaseOk(s, At(s, step.t));
    DeathResumedOk(s.core, At(s, step.t).c, At(s, step.t).pause, At(s, step.t).c);
  }

  lemma DeathTidy(s: State, step: Step)
    requires Inv(s) && Accounted(s) && Guard(s, step) && IsDeath(step)
    ensures Accounted(Apply(s, step)) <==> Tidy(s, step)
  {
    hide Inv, Apply, Counted, Between, SoleLibs;
    forall n: string | n in Apply(s, step).resident
      ensures (Counted(Apply(s, step), n) || Between(Apply(s, step), n)) <==>
                (Erases(s, step) && n in SoleLibs(s.core.table, At(s, step.t).c) ==> Between(s, n))
    {
      DeathTidyFor(s, step, n);
    }
  }

  // ---- the other steps ----

  lemma PlainTidy(s: State, step: Step)
    requires Inv(s) && Accounted(s) && Guard(s, step) && IsPlain(step) && !step.DspUnload?
    ensures Accounted(Apply(s, step))
  {
    hide CoreOk, TotalLoad, OpenNum, Inv, Base, LocksOk, WorkingOk, CallsOk, LibrariesOk, PhasesOk, SessionsOk,
         AfterOpen, AfterClose, AfterLoadEnter, AfterUnloadEnter, AfterDeathEnter, AfterDeath, LoadDone, DeathResumed;
    UnfoldInv(s);
    OwnsLocks(s, step.t);
    PlainPhase(s, step);
    var s' := Apply(s, step);
    forall n: string | n in s'.resident ensures Counted(s', n) || Between(s', n) {
      assert n in s.resident ==> Counted(s, n) || Between(s, n);
      if s.loadOwner != Some(step.t) && s'.loadOwner == s.loadOwner { BetweenStays(s, step, n); }
    }
  }

  lemma DieTidy(s: State, step: Step)
    requires Accounted(s) && Guard(s, step) && step.Die?
    ensures Accounted(Apply(s, step))
  {
    hide TotalLoad;
    var s' := Apply(s, step);
    assert s'.core == s.core && s'.threads == s.threads;
    forall n: string | n in s'.resident ensures Counted(s', n) || Between(s', n) { assert Counted(s, n) || Between(s, n); }
  }

  // A clean step leaves every library in the DSP accounted for exactly if it is tidy.
  lemma TidyStepExactly(s: State, step: Step)
    requires Inv(s) && Accounted(s) && Guard(s, step) && !Breaks(s, step)
    ensures Accounted(Apply(s, step)) <==> Tidy(s, step)
  {
    hide Inv, Apply, Guard, Accounted, Breaks, TakesAlong, Counted;
    match step {
      case Die(_) => DieTidy(s, step);
      case Open(_, _, _) => OpenTidy(s, step);
      case Close(_, _) => CloseTidy(s, step);
      case LoadEnter(_) => LoadEnterTidy(s, step);
      case LoadLeave(_) => LoadLeaveTidy(s, step);
      case UnloadEnter(_) => UnloadTidy(s, step);
      case DspUnload(_, _) => UnloadedTidy(s, step);
      case DeathEnter(_, _, _) => DeathTidy(s, step);
      case DeathResume(_, _) => DeathTidy(s, step);
      case _ => PlainTidy(s, step);
    }
  }

  // ---- runs ----

  ghost predicate CleanSteps(run: seq<State>, steps: seq<Step>) {
    Taken(run, steps) && forall k :: 0 <= k < |steps| ==> !Breaks(run[k], steps[k])
  }

  ghost predicate TidyRun(run: seq<State>, steps: seq<Step>) {
    CleanSteps(run, steps) && forall k :: 0 <= k < |steps| ==> Tidy(run[k], steps[k])
  }

  ghost predicate TidyReachable(s: State) {
    exists run: seq<State>, steps: seq<Step> :: TidyRun(run, steps) && run[|steps|] == s
  }

  lemma InitAccounted(s: State)
    requires Init(s)
    ensures Accounted(s)
  {
    hide Counted, Between;
  }

  lemma {:induction false} TidyPrefix(run: seq<State>, steps: seq<Step>, n: nat)
    requires CleanSteps(run, steps) && n <= |steps| && forall k :: 0 <= k < n ==> Tidy(run[k], steps[k])
    ensures Accounted(run[n])
  {
    hide Inv, Guard, Apply, Breaks, Tidy, Accounted;
    if n == 0 {
      InitAccounted(run[0]);
    } else {
      TidyPrefix(run, steps, n - 1);
      CleanPrefix(run, steps, n - 1);
      assert run[n - 1 + 1] == Apply(run[n - 1], steps[n - 1]);
      TidyStepExactly(run[n - 1], steps[n - 1]);
    }
  }

  lemma {:induction false} FirstUntidy(run: seq<State>, steps: seq<Step>, n: nat) returns (k: nat)
    requires CleanSteps(run, steps) && n < |steps| && !Tidy(run[n], steps[n])
    ensures k < |steps| && !Accounted(run[k + 1])
  {
    hide Inv, Guard, Apply, Breaks, Tidy, Accounted;
    if m: nat :| m < n && !Tidy(run[m], steps[m]) {
      k := FirstUntidy(run, steps, m);
    } else {
      k := n;
      TidyPrefix(run, steps, n);
      CleanPrefix(run, steps, n);
      assert run[n + 1] == Apply(run[n], steps[n]);
      TidyStepExactly(run[n], steps[n]);
    }
  }

  // Over clean runs: every library in the DSP is accounted for in every state, exactly if every step is tidy.
  lemma AccountedExactly(run: seq<State>, steps: seq<Step>)
    requires CleanSteps(run, steps)
    ensures (forall i :: 0 <= i < |run| ==> Accounted(run[i])) <==>
              (forall k :: 0 <= k < |steps| ==> Tidy(run[k], steps[k]))
  {
    hide Guard, Apply, Breaks, Tidy, Accounted;
    if n: nat :| n < |steps| && !Tidy(run[n], steps[n]) {
      var k := FirstUntidy(run, steps, n);
    } else {
      forall i: nat | i < |run| ensures Accounted(run[i]) { TidyPrefix(run, steps, i); }
    }
  }

  // In such a run, whenever mLoadLock is free a library is in the DSP exactly if some client has it loaded.
  lemma ResidentExactlyLoaded(run: seq<State>, steps: seq<Step>, i: nat, name: string)
    requires TidyRun(run, steps) && i < |run| && run[i].loadOwner.None?
    ensures name in run[i].resident <==> TotalLoad(run[i].core.table, name) > 0
  {
    hide TotalLoad, Inv, Tidy, Guard, Apply, Breaks;
    TidyPrefix(run, steps, i);
    CleanPrefix(run, steps, i);
    UnfoldInv(run[i]);
    assert name in run[i].resident ==> Counted(run[i], name) || Between(run[i], name);
    assert Counted(run[i], name) ==> name in run[i].resident;
  }
}
