// What clients have loaded, by the results of their calls: the load records of the service agree with the loads that
// returned 0 less the unloads that went through, in all clean runs in which no load ends after its client's last
// close.
module ServiceAccounts {
  import opened Bags
  import opened ServiceTables
  import opened ServiceCore
  import opened ServiceSteps
  import opened ServiceInvariant
  import opened ServiceLate
  import opened ServiceTheorems
  import opened ServiceTidy

  // How often the service says that client c has loaded the library.
  function Recorded(s: State, c: Client, name: string): int {
    LoadNum(LoadsOf(s.core.table, c), name)
  }

  ghost predicate AccountsOk(s: State) {
    forall c: Client, name: string :: Recorded(s, c, name) == Account(s, c)[name]
  }

  // Some client has the library loaded.
  ghost predicate LoadedBySome(s: State, name: string) {
    exists d: Client :: Recorded(s, d, name) > 0
  }

  // The step changes the count of this library for client c by delta, and no other.
  ghost predicate Moves(s: State, s': State, c: Client, name: string, delta: int) {
    forall d: Client, n: string :: Recorded(s', d, n) == Recorded(s, d, n) + (if d == c && n == name then delta else 0)
  }

  // ---- totals ----

  lemma {:induction false} TotalSource(t: Table, name: string) returns (i: nat)
    requires TotalLoad(t, name) > 0
    ensures i < |t| && LoadNum(t[i].loads, name) > 0
  {
    if LoadNum(t[0].loads, name) > 0 {
      i := 0;
    } else {
      i := TotalSource(t[1..], name);
      i := i + 1;
    }
  }

  // A total is positive exactly if some client's count is.
  lemma TotalIsSome(s: State, name: string)
    requires Inv(s)
    ensures TotalLoad(s.core.table, name) >= 0
    ensures TotalLoad(s.core.table, name) > 0 <==> LoadedBySome(s, name)
  {
    hide Inv, Base, TotalLoad, TableOk, LoadNum;
    UnfoldInv(s);
    var t := s.core.table;
    CoreTable(s.core, Dying(s));
    TotalLoadSign(t, name, Dying(s));
    if TotalLoad(t, name) > 0 {
      var i := TotalSource(t, name);
      EntryFound(t, i, Dying(s));
      assert Recorded(s, t[i].client, name) > 0;
    }
    if d: Client :| Recorded(s, d, name) > 0 {
      LoadsTotalled(t, d, name, Dying(s));
    }
  }

  lemma EntryFound(t: Table, i: nat, dying: Option<Client>)
    requires TableOk(t, dying) && i < |t|
    ensures LoadsOf(t, t[i].client) == t[i].loads
  {
    FindUnique(t, t[i].client, i);
  }

  // ---- what a record does to the counts ----

  lemma Added(s: State, c: Client, name: string, d: Client, n: string)
    requires Inv(s)
    ensures LoadNum(LoadsOf(AddLoad(s.core.table, c, name), d), n)
            == Recorded(s, d, n) + (if d == c && n == name && Known(s.core.table, c) then 1 else 0)
  {
    hide Inv, Base, TableOk, IncLib, LoadNum, Find;
    UnfoldInv(s);
    var t := s.core.table;
    CoreTable(s.core, Dying(s));
    EntryLoadsOk(t, c, Dying(s));
    IncLibLaws(LoadsOf(t, c), name, n, Dying(s) == Some(c));
    SetLoadsLaws(t, c, IncLib(LoadsOf(t, c), name), d, Dying(s), Dying(s));
  }

  lemma Lowered(s: State, c: Client, name: string, d: Client, n: string)
    requires Inv(s) && HasLib(LoadsOf(s.core.table, c), name) && Recorded(s, c, name) >= 1
    ensures LoadNum(LoadsOf(DecLoad(s.core.table, c, name), d), n)
            == Recorded(s, d, n) - (if d == c && n == name then 1 else 0)
  {
    hide Inv, Base, TableOk, DecLib, LoadNum, Find;
    UnfoldInv(s);
    var t := s.core.table;
    CoreTable(s.core, Dying(s));
    EntryLoadsOk(t, c, Dying(s));
    DecLibLaws(LoadsOf(t, c), name, n, Dying(s) == Some(c));
    SetLoadsLaws(t, c, DecLib(LoadsOf(t, c), name), d, Dying(s), Dying(s));
  }

  // ---- loading ----

  // The accounts of all clients change by this.
  ghost predicate Books(s: State, s': State, c: Client, name: string, delta: int) {
    forall d: Client, n: string :: Account(s', d)[n] == Account(s, d)[n] + (if d == c && n == name then delta else 0)
  }

  // A load of a client with the device open ends at once, without error, exactly if some client has the library
  // loaded, and then puts its client's count up by one; otherwise it goes on to the DSP. A client without is refused.
  lemma LoadCall(s: State, step: Step)
    requires Inv(s) && Guard(s, step) && step.LoadEnter?
    ensures var p := At(s, step.t); var s' := Apply(s, step);
            var open, again := OpenNum(s.core.table, p.c) > 0, LoadedBySome(s, p.name);
            && At(s', step.t) == (if open && !again then Loading(p.c, p.name, s.core.device) else Idle)
            && Moves(s, s', p.c, p.name, if open && again then 1 else 0)
            && Books(s, s', p.c, p.name, if open && again then 1 else 0)
  {
    hide Inv, CoreOk, TotalLoad, AddLoad, LoadNum, LoadsOf, LoadedBySome, Base, CallsOk, LibrariesOk, PhasesOk,
         SessionsOk, OpenNum, Known, LocksOk, WorkingOk, DeadOk, Unique;
    UnfoldInv(s);
    var p := At(s, step.t);
    TotalIsSome(s, p.name);
    OpenCounts(s, p.c);
    forall d: Client, n: string
      ensures LoadNum(LoadsOf(AddLoad(s.core.table, p.c, p.name), d), n)
              == Recorded(s, d, n) + (if d == p.c && n == p.name && Known(s.core.table, p.c) then 1 else 0)
    {
      Added(s, p.c, p.name, d, n);
    }
  }

  lemma OpenCounts(s: State, c: Client)
    requires CoreOk(s.core, Dying(s))
    ensures OpenNum(s.core.table, c) >= 0 && (OpenNum(s.core.table, c) > 0 <==> Known(s.core.table, c))
    ensures OpenNum(s.core.table, c) > 0 ==> s.core.opens > 0
  {
    CoreTable(s.core, Dying(s));
    OpensSign(s.core, Dying(s));
    OpensTotalled(s.core.table, c, Dying(s));
  }

  // A load that the DSP has done puts the count up by one, unless its client has no entry any more; one that the DSP
  // has refused puts up none.
  lemma LoadEnd(s: State, step: Step)
    requires Inv(s) && Guard(s, step) && step.LoadLeave?
    ensures var p := At(s, step.t); var s' := Apply(s, step);
            && At(s', step.t) == Idle
            && Moves(s, s', p.c, p.name, if p.ok && Known(s.core.table, p.c) then 1 else 0)
            && Books(s, s', p.c, p.name, if p.ok then 1 else 0)
  {
    hide Inv, CoreOk, AddLoad, LoadNum, LoadsOf, Known;
    var p := At(s, step.t);
    forall d: Client, n: string
      ensures LoadNum(LoadsOf(AddLoad(s.core.table, p.c, p.name), d), n)
              == Recorded(s, d, n) + (if d == p.c && n == p.name && Known(s.core.table, p.c) then 1 else 0)
    {
      Added(s, p.c, p.name, d, n);
    }
  }

  // An unload goes through exactly if its client has the library loaded, and then takes its count down by one; it
  // goes on to the DSP exactly if then nobody has it loaded.
  lemma UnloadCall(s: State, step: Step)
    requires Inv(s) && Guard(s, step) && step.UnloadEnter? && !Breaks(s, step)
    ensures var p := At(s, step.t); var s' := Apply(s, step);
            var has := Recorded(s, p.c, p.name) > 0;
            && At(s', step.t) == (if has && !LoadedBySome(s', p.name) then Unloading(p.c, p.name, s.core.device) else Idle)
            && Moves(s, s', p.c, p.name, if has then -1 else 0)
            && s'.loaded == if has then OneFewer(s, p.c, p.name) else s.loaded
  {
    hide Inv, CoreOk, TotalLoad, DecLoad, LoadNum, LoadedBySome, Base, CallsOk, LibrariesOk, PhasesOk, SessionsOk,
         HasLib, LoadsOf, OneFewer;
    UnfoldInv(s);
    var p := At(s, step.t);
    var s' := Apply(s, step);
    OpenCounts(s, p.c);
    HasIsRecorded(s, step);
    UnloadEnterKeeps(s, step);
    TotalIsSome(s', p.name);
    if Recorded(s, p.c, p.name) > 0 {
      forall d: Client, n: string
        ensures LoadNum(LoadsOf(DecLoad(s.core.table, p.c, p.name), d), n)
                == Recorded(s, d, n) - (if d == p.c && n == p.name then 1 else 0)
      {
        Lowered(s, p.c, p.name, d, n);
      }
    }
  }

  lemma HasIsRecorded(s: State, step: Step)
    requires Inv(s) && Guard(s, step) && step.UnloadEnter? && !Breaks(s, step)
    ensures var p := At(s, step.t);
            && (HasLib(LoadsOf(s.core.table, p.c), p.name) <==> Recorded(s, p.c, p.name) > 0)
            && (Recorded(s, p.c, p.name) > 0 ==> Known(s.core.table, p.c))
  {
    hide Inv, CoreOk, Base, CallsOk, LibrariesOk, PhasesOk, SessionsOk, Find;
    UnfoldInv(s);
    var p := At(s, step.t);
    CoreTable(s.core, Dying(s));
    EntryLoadsOk(s.core.table, p.c, Dying(s));
    LoadNumSign(LoadsOf(s.core.table, p.c), p.name, Dying(s) == Some(p.c));
    FindNoLib(p.name);
  }

  // ---- the other steps ----

  // The step ends everything client c has loaded, if erases, and changes nothing else.
  ghost predicate Clears(s: State, s': State, c: Client, erases: bool) {
    && (forall d: Client, n: string :: Recorded(s', d, n) == if d == c && erases then 0 else Recorded(s, d, n))
    && (forall d: Client :: Account(s', d) == if d == c && erases then multiset{} else Account(s, d))
  }

  lemma OpenClears(s: State, step: Step)
    requires Inv(s) && Guard(s, step) && step.Open?
    ensures Clears(s, Apply(s, step), At(s, step.t).req.c, false)
  {
    hide Inv, CoreOk, Opened, LoadNum, LoadsOf, Known, OpenNum, Base;
    UnfoldInv(s);
    var req := At(s, step.t).req;
    forall d: Client ensures LoadsOf(Apply(s, step).core.table, d) == LoadsOf(s.core.table, d) {
      OpenedOk(s.core, req.c, req.kind, step.link, if step.opens then Some(s.devices) else None, Dying(s), d);
    }
  }

  lemma CloseRecords(s: State, step: Step, d: Client, n: string)
    requires Inv(s) && Guard(s, step) && step.Close?
    ensures Recorded(Apply(s, step), d, n) == if d == At(s, step.t).req.c && Erases(s, step) then 0 else Recorded(s, d, n)
  {
    hide Inv, CoreOk, LoadNum, LoadsOf, Known, OpenNum, Base, DecOpen, Survivors, OneLess, TableOk, TotalOpen,
         CallsOk, LibrariesOk, PhasesOk, SessionsOk;
    UnfoldInv(s);
    var c := At(s, step.t).req.c;
    CoreTable(s.core, Dying(s));
    OpenCounts(s, c);
    FindNoLib(n);
    if Known(s.core.table, c) { DecOpenLaws(s.core.table, c, d, Dying(s)); }
  }

  lemma CloseAccount(s: State, step: Step, d: Client)
    requires Inv(s) && Guard(s, step) && step.Close?
    ensures Account(Apply(s, step), d) == if d == At(s, step.t).req.c && Erases(s, step) then multiset{} else Account(s, d)
  {
    hide Inv, Closed, OpenNum, Survivors, OneLess, Base, CoreOk, CallsOk, LibrariesOk, PhasesOk;
    UnfoldInv(s);
    assert SessionOk(s, At(s, step.t).req.c);
  }

  lemma CloseClears(s: State, step: Step)
    requires Inv(s) && Guard(s, step) && step.Close?
    ensures Clears(s, Apply(s, step), At(s, step.t).req.c, Erases(s, step))
  {
    hide Inv, Apply, Recorded, Account, Erases;
    forall d: Client, n: string
      ensures Recorded(Apply(s, step), d, n) == if d == At(s, step.t).req.c && Erases(s, step) then 0 else Recorded(s, d, n)
    {
      CloseRecords(s, step, d, n);
    }
    forall d: Client
      ensures Account(Apply(s, step), d) == if d == At(s, step.t).req.c && Erases(s, step) then multiset{} else Account(s, d)
    {
      CloseAccount(s, step, d);
    }
  }

  lemma ZeroedNone(loads: seq<LoadLib>, n: string)
    ensures LoadNum(Zeroed(loads), n) == 0 && LoadNum([], n) == 0
  {
  }

  lemma SilencedFor(t: Table, c: Client, d: Client, n: string)
    requires TableOk(t, None)
    ensures LoadNum(LoadsOf(Silenced(t, c), d), n) == if d == c then 0 else LoadNum(LoadsOf(t, d), n)
  {
    hide TableOk, LoadNum;
    EntryLoadsOk(t, c, None);
    ZeroedLaws(LoadsOf(t, c), n);
    ZeroedNone(LoadsOf(t, c), n);
    SetLoadsLaws(t, c, Zeroed(LoadsOf(t, c)), d, None, Some(c));
  }

  lemma DeathTable(s: State, step: Step, d: Client, n: string)
    requires Inv(s) && Guard(s, step) && IsDeath(step)
    ensures Recorded(Apply(s, step), d, n) == if d == At(s, step.t).c && Erases(s, step) then 0 else Recorded(s, d, n)
  {
    hide Inv, Apply, CoreOk, LoadNum, LoadsOf, DeathOutcome, Without, Silenced, TableOk, Base, Dying, CallsOk,
         LibrariesOk, PhasesOk, SessionsOk, LocksOk, WorkingOk, DeadOk, Unique;
    UnfoldInv(s);
    var c := At(s, step.t).c;
    OutcomeShape(s, step);
    OutcomeTable(s, step);
    DeathDying(s, step);
    CoreTable(s.core, Dying(s));
    WithoutLaws(s.core.table, c, d, Dying(s), None);
    ZeroedNone([], n);
    assert DeathOutcome(s, step).1.None? || DeathOutcome(s, step).1.Some?;
    if step.DeathEnter? { SilencedFor(s.core.table, c, d, n); } else { ResumedPause(s, step); }
  }

  lemma DeathAccount(s: State, step: Step)
    requires Guard(s, step) && IsDeath(step)
    ensures var c := At(s, step.t).c; var pause := DeathOutcome(s, step).1;
            forall d: Client :: Account(Apply(s, step), d)
                                == if d == c && (step.DeathEnter? || pause.None?) then multiset{} else Account(s, d)
  {
    hide DeathBegun, DeathResumed, SoleLibs, Survivors;
  }

  lemma DeathClears(s: State, step: Step)
    requires Inv(s) && Guard(s, step) && IsDeath(step)
    ensures Clears(s, Apply(s, step), At(s, step.t).c, Erases(s, step))
  {
    hide Inv, Apply, Recorded, DeathOutcome, Account;
    DeathAccount(s, step);
    if step.DeathResume? { ResumedPause(s, step); }
    forall d: Client, n: string
      ensures Recorded(Apply(s, step), d, n) == if d == At(s, step.t).c && Erases(s, step) then 0 else Recorded(s, d, n)
    {
      DeathTable(s, step, d, n);
    }
  }

  lemma DieClears(s: State, step: Step)
    requires Guard(s, step) && step.Die?
    ensures Clears(s, Apply(s, step), step.c, false)
  {
  }

  lemma PlainClears(s: State, step: Step)
    requires Inv(s) && Guard(s, step) && IsPlain(step)
    ensures Clears(s, Apply(s, step), 0, false)
  {
    hide Inv, Apply, Guard, LoadNum, LoadsOf, PhaseOk, Counted;
    PlainPhase(s, step);
  }

  // ---- all steps and runs ----

  // A load of a client whose last close came first: it returns 0 and is not recorded.
  predicate Unrecorded(s: State, step: Step) {
    step.LoadLeave? && At(s, step.t).Loaded? && At(s, step.t).ok && !Known(s.core.table, At(s, step.t).c)
  }

  lemma ClearsKeep(s: State, s': State, c: Client, erases: bool)
    requires AccountsOk(s) && Clears(s, s', c, erases)
    ensures AccountsOk(s')
  {
    hide Recorded, Account;
  }

  lemma MovesKeep(s: State, s': State, c: Client, name: string, delta: int, booked: int)
    requires AccountsOk(s) && Moves(s, s', c, name, delta) && Books(s, s', c, name, booked)
    ensures AccountsOk(s') <==> delta == booked
  {
    hide Recorded, Account;
    assert Recorded(s', c, name) == Account(s', c)[name] <==> delta == booked;
  }

  // An unload that goes through takes one off an account that has one.
  lemma UnloadBooks(s: State, s': State, c: Client, name: string, has: bool)
    requires AccountsOk(s) && has == (Recorded(s, c, name) > 0)
    requires s'.loaded == if has then OneFewer(s, c, name) else s.loaded
    ensures Books(s, s', c, name, if has then -1 else 0)
  {
    hide Recorded;
    assert Recorded(s, c, name) == Account(s, c)[name];
  }

  // A clean step keeps all accounts exactly unless it is such a load.
  lemma AccountsKeptExactly(s: State, step: Step)
    requires Inv(s) && AccountsOk(s) && Guard(s, step) && !Breaks(s, step)
    ensures AccountsOk(Apply(s, step)) <==> !Unrecorded(s, step)
  {
    hide Inv, Apply, Breaks, AccountsOk, Clears, Moves, Books, Erases, Recorded, Account, LoadedBySome;
    var s' := Apply(s, step);
    match step {
      case Die(c) =>
        DieClears(s, step);
        ClearsKeep(s, s', c, false);
      case Open(t, _, _) =>
        OpenClears(s, step);
        ClearsKeep(s, s', At(s, t).req.c, false);
      case Close(t, _) =>
        CloseClears(s, step);
        ClearsKeep(s, s', At(s, t).req.c, Erases(s, step));
      case LoadEnter(t) =>
        LoadCall(s, step);
        var p := At(s, t);
        var n := if OpenNum(s.core.table, p.c) > 0 && LoadedBySome(s, p.name) then 1 else 0;
        MovesKeep(s, s', p.c, p.name, n, n);
      case LoadLeave(t) =>
        LoadEnd(s, step);
        var p := At(s, t);
        MovesKeep(s, s', p.c, p.name, if p.ok && Known(s.core.table, p.c) then 1 else 0, if p.ok then 1 else 0);
      case UnloadEnter(t) =>
        UnloadCall(s, step);
        var p := At(s, t);
        var has := Recorded(s, p.c, p.name) > 0;
        UnloadBooks(s, s', p.c, p.name, has);
        MovesKeep(s, s', p.c, p.name, if has then -1 else 0, if has then -1 else 0);
      case DeathEnter(t, _, _) =>
        DeathClears(s, step);
        ClearsKeep(s, s', At(s, t).c, Erases(s, step));
      case DeathResume(t, _) =>
        DeathClears(s, step);
        ClearsKeep(s, s', At(s, t).c, Erases(s, step));
      case _ =>
        PlainClears(s, step);
        ClearsKeep(s, s', 0, false);
    }
  }

  lemma InitAccounts(s: State)
    requires Init(s)
    ensures AccountsOk(s)
  {
  }

  lemma {:induction false} AccountsPrefix(run: seq<State>, steps: seq<Step>, n: nat)
    requires CleanSteps(run, steps) && n <= |steps| && forall k :: 0 <= k < n ==> !Unrecorded(run[k], steps[k])
    ensures AccountsOk(run[n])
  {
    hide Inv, Guard, Apply, Breaks, Unrecorded, AccountsOk;
    if n == 0 {
      InitAccounts(run[0]);
    } else {
      AccountsPrefix(run, steps, n - 1);
      CleanPrefix(run, steps, n - 1);
      assert run[n - 1 + 1] == Apply(run[n - 1], steps[n - 1]);
      AccountsKeptExactly(run[n - 1], steps[n - 1]);
    }
  }

  lemma {:induction false} FirstUnrecorded(run: seq<State>, steps: seq<Step>, n: nat) returns (k: nat)
    requires CleanSteps(run, steps) && n < |steps| && Unrecorded(run[n], steps[n])
    ensures k < |steps| && !AccountsOk(run[k + 1])
  {
    hide Inv, Guard, Apply, Breaks, Unrecorded, AccountsOk;
    if m: nat :| m < n && Unrecorded(run[m], steps[m]) {
      k := FirstUnrecorded(run, steps, m);
    } else {
      k := n;
      AccountsPrefix(run, steps, n);
      CleanPrefix(run, steps, n);
      assert run[n + 1] == Apply(run[n], steps[n]);
      AccountsKeptExactly(run[n], steps[n]);
    }
  }

  // Over clean runs: in every state every client has each library recorded as often as its loads have returned 0
  // less its unloads that went through, exactly if no load ends after its client's last close.
  lemma AccountsExactly(run: seq<State>, steps: seq<Step>)
    requires CleanSteps(run, steps)
    ensures (forall i :: 0 <= i < |run| ==> AccountsOk(run[i])) <==>
              (forall k :: 0 <= k < |steps| ==> !Unrecorded(run[k], steps[k]))
  {
    hide Guard, Apply, Breaks, Unrecorded, AccountsOk;
    if n: nat :| n < |steps| && Unrecorded(run[n], steps[n]) {
      var k := FirstUnrecorded(run, steps, n);
    } else {
      forall i: nat | i < |run| ensures AccountsOk(run[i]) { AccountsPrefix(run, steps, i); }
    }
  }

  // So in such a run what a client has loaded, by its own calls, is in the DSP.
  lemma LoadedByAccount(run: seq<State>, steps: seq<Step>, i: nat, c: Client, name: string)
    requires CleanSteps(run, steps) && (forall k :: 0 <= k < |steps| ==> !Unrecorded(run[k], steps[k])) && i < |run|
    ensures Account(run[i], c)[name] > 0 ==> name in run[i].resident
  {
    hide Inv, Guard, Apply, Breaks, Unrecorded, Account;
    AccountsPrefix(run, steps, i);
    CleanPrefix(run, steps, i);
    assert Recorded(run[i], c, name) == Account(run[i], c)[name];
    if Recorded(run[i], c, name) > 0 { LoadIsResident(run[i], c, name); }
  }
}
