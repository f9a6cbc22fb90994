// Calls of a dead client that are still inside the server while its death handler waits. The open counts stay
// conserved and the load records sound exactly in the runs in which no such call changes the table; and each of
// the ways in which one does can happen.
module ServiceLate {
  import opened Bags
  import opened ServiceTables
  import opened ServiceCore
  import opened ServiceSteps
  import opened ServiceInvariant

  // mopen_count is the sum of the clients' counts, or while the handler of c waits that sum less c's count
  // plus one.
  ghost predicate OpensConserved(s: State) {
    match Dying(s)
    case None => s.core.opens == TotalOpen(s.core.table)
    case Some(c) => Known(s.core.table, c) && s.core.opens == TotalOpen(s.core.table) - OpenNum(s.core.table, c) + 1
  }

  // No client has loaded a library less often than never.
  ghost predicate RecordsSound(s: State) {
    forall c: Client, name: string :: LoadNum(LoadsOf(s.core.table, c), name) >= 0
  }

  // What a client has loaded is in the DSP.
  ghost predicate LoadsResident(s: State) {
    forall c: Client, name: string :: LoadNum(LoadsOf(s.core.table, c), name) > 0 ==> name in s.resident
  }

  ghost predicate Sound(s: State) {
    OpensConserved(s) && RecordsSound(s) && LoadsResident(s)
  }

  lemma InvIsSound(s: State)
    requires Inv(s)
    ensures Sound(s)
  {
    hide Inv, Base, LoadNum, LoadsOf, Known;
    UnfoldInv(s);
    forall c: Client, name: string ensures LoadNum(LoadsOf(s.core.table, c), name) >= 0 {
      LateSign(s, c, name);
    }
    forall c: Client, name: string | LoadNum(LoadsOf(s.core.table, c), name) > 0 ensures name in s.resident {
      LoadIsResident(s, c, name);
    }
  }

  lemma LoadIsResident(s: State, c: Client, name: string)
    requires Inv(s) && LoadNum(LoadsOf(s.core.table, c), name) > 0
    ensures name in s.resident
  {
    hide Inv, LoadNum, LoadsOf, TotalLoad, LibrariesOk;
    UnfoldInv(s);
    LoadsTotalled(s.core.table, c, name, Dying(s)) by { CoreTable(s.core, Dying(s)); }
    CountedResident(s, name);
  }

  lemma LateOpenBreaks(s: State, step: Step)
    requires Inv(s) && Guard(s, step) && step.Open? && Breaks(s, step)
    ensures !OpensConserved(Apply(s, step))
  {
    hide Inv, Base, CallsOk, LibrariesOk, PhasesOk, SessionsOk, Known, AddOpen, DecOpen, TotalOpen, OpenNum, TableOk;
    UnfoldInv(s);
    var c := At(s, step.t).req.c;
    CallDying(s, step);
    CoreTable(s.core, Dying(s));
    OpensSign(s.core, Dying(s));
    AddOpenLaws(s.core.table, c, c, Dying(s));
  }

  lemma LateCloseBreaks(s: State, step: Step)
    requires Inv(s) && Guard(s, step) && step.Close? && Breaks(s, step)
    ensures !OpensConserved(Apply(s, step))
  {
    hide Inv, Base, CallsOk, LibrariesOk, PhasesOk, SessionsOk, Known, DecOpen, TotalOpen, OpenNum, TableOk,
         Survivors, OneLess;
    UnfoldInv(s);
    var c := At(s, step.t).req.c;
    CallDying(s, step);
    CoreTable(s.core, Dying(s));
    OpensTotalled(s.core.table, c, Dying(s));
    CloseDec(s.core, c, Dying(s), c);
  }

  lemma LateUnloadBreaks(s: State, step: Step)
    requires Inv(s) && Guard(s, step) && step.UnloadEnter? && Breaks(s, step)
    ensures !RecordsSound(Apply(s, step))
  {
    hide Inv, Base, CallsOk, LibrariesOk, PhasesOk, SessionsOk, LoadNum, TotalLoad, DecLib;
    UnfoldInv(s);
    var p := At(s, step.t);
    var t := s.core.table;
    LateUnloadEnters(s, step);
    EntryLoadsOk(t, p.c, Dying(s)) by { CoreTable(s.core, Dying(s)); }
    DecLibLaws(LoadsOf(t, p.c), p.name, p.name, Dying(s) == Some(p.c));
    FindStays(t, DecLoad(t, p.c, p.name), p.c);
    assert LoadNum(LoadsOf(Apply(s, step).core.table, p.c), p.name) == -1;
  }

  // Such an unload is not refused.
  lemma LateUnloadEnters(s: State, step: Step)
    requires Inv(s) && Guard(s, step) && step.UnloadEnter? && Breaks(s, step)
    ensures var p := At(s, step.t);
            Known(s.core.table, p.c) && UnloadBegun(s.core, p.c, p.name).1 != Refused
            && Apply(s, step).core.table == DecLoad(s.core.table, p.c, p.name)
  {
    hide Inv, Base, CallsOk, LibrariesOk, PhasesOk, SessionsOk, DecLoad, TotalLoad, TotalOpen, TableOk, LoadNum,
         HasLib;
    UnfoldInv(s);
    CoreTable(s.core, Dying(s));
    OpensSign(s.core, Dying(s));
    OpensTotalled(s.core.table, At(s, step.t).c, Dying(s));
  }

  // From a state that keeps the invariant, a step keeps it exactly if it is not such a call; one that is
  // breaks conservation at once.
  lemma StepKeepsExactly(s: State, step: Step)
    requires Inv(s) && Guard(s, step)
    ensures !Breaks(s, step) ==> Inv(Apply(s, step)) && Sound(Apply(s, step))
    ensures Breaks(s, step) ==> !Sound(Apply(s, step))
  {
    hide Inv, Apply, Guard, Breaks, OpensConserved, RecordsSound, LoadsResident;
    if !Breaks(s, step) {
      CleanStepKeeps(s, step);
      InvIsSound(Apply(s, step));
    } else if step.Open? {
      LateOpenBreaks(s, step);
    } else if step.Close? {
      LateCloseBreaks(s, step);
    } else if step.UnloadEnter? {
      LateUnloadBreaks(s, step);
    } else {
      OnlyThree(s, step);
    }
  }

  lemma OnlyThree(s: State, step: Step)
    ensures Breaks(s, step) ==> step.Open? || step.Close? || step.UnloadEnter?
  {
  }

  // A run from a fresh service, with the steps taken.
  ghost predicate Taken(run: seq<State>, steps: seq<Step>) {
    && |run| == |steps| + 1 && Init(run[0])
    && (forall k :: 0 <= k < |steps| ==> Guard(run[k], steps[k]) && run[k + 1] == Apply(run[k], steps[k]))
  }

  lemma {:induction false} CleanPrefix(run: seq<State>, steps: seq<Step>, n: nat)
    requires Taken(run, steps) && n <= |steps| && forall k :: 0 <= k < n ==> !Breaks(run[k], steps[k])
    ensures Inv(run[n])
  {
    hide Inv, Guard, Apply, Breaks, Sound;
    if n == 0 {
      InitKeeps(run[0]);
    } else {
      CleanPrefix(run, steps, n - 1);
      assert run[n - 1 + 1] == Apply(run[n - 1], steps[n - 1]);
      StepKeepsExactly(run[n - 1], steps[n - 1]);
    }
  }

  lemma {:induction false} FirstBreak(run: seq<State>, steps: seq<Step>, n: nat) returns (k: nat)
    requires Taken(run, steps) && n < |steps| && Breaks(run[n], steps[n])
    ensures k < |steps| && Inv(run[k]) && Breaks(run[k], steps[k])
  {
    hide Inv, Guard, Apply, Breaks;
    if m: nat :| m < n && Breaks(run[m], steps[m]) {
      k := FirstBreak(run, steps, m);
    } else {
      k := n;
      CleanPrefix(run, steps, n);
    }
  }

  // Over whole runs: opens are conserved, load records sound and loaded libraries in the DSP in every state,
  // exactly if no call of a dead client changes the table while its handler waits.
  lemma SoundExactly(run: seq<State>, steps: seq<Step>)
    requires Taken(run, steps)
    ensures (forall i :: 0 <= i < |run| ==> Sound(run[i])) <==>
              (forall k :: 0 <= k < |steps| ==> !Breaks(run[k], steps[k]))
  {
    hide Inv, Guard, Apply, Breaks, Sound;
    if n: nat :| n < |steps| && Breaks(run[n], steps[n]) {
      var k := FirstBreak(run, steps, n);
      StepKeepsExactly(run[k], steps[k]);
      assert run[k + 1] == Apply(run[k], steps[k]);
    } else {
      forall i: nat | i < |run| ensures Sound(run[i]) {
        CleanPrefix(run, steps, i);
        InvIsSound(run[i]);
      }
    }
  }

  // ---- what a late unload does ----

  // It tells the DSP to drop a library that another client has loaded exactly if the others have loaded it
  // once; if they have not loaded it, the next of them to load it will not have the DSP told.
  lemma LateUnloadEvicts(s: State, step: Step, d: Client)
    requires CleanReachable(s) && Guard(s, step) && step.UnloadEnter? && Breaks(s, step)
    ensures var p := At(s, step.t); var s' := Apply(s, step);
            && (At(s', step.t).Unloading? <==> TotalLoad(s.core.table, p.name) == 1)
            && (TotalLoad(s.core.table, p.name) == 0 && MayWork(s'.core, d) ==> LoadBegun(s'.core, d, p.name).1 == Done)
  {
    hide Inv, Base, CallsOk, LibrariesOk, PhasesOk, SessionsOk, DecLoad, TotalLoad, AddLoad, CleanReachable, LoadNum,
         HasLib;
    CleanInv(s);
    UnfoldInv(s);
    var p := At(s, step.t);
    LateUnloadEnters(s, step);
    CoreTable(s.core, Dying(s));
    DecLoadTotal(s.core.table, p.c, p.name, Dying(s), p.name);
  }
}
