// Runs of the VDSP service that end badly: two death handlers that block each other, a send lost to a map
// failure, and the calls of a dead client that change the table, the libraries or the device under its waiting
// handler.
module ServiceRuns {
  import opened Bags
  import opened ServiceTables
  import opened ServiceCore
  import opened ServiceSteps
  import opened ServiceInvariant
  import opened ServiceLate
  import opened ServiceDevice
  import opened ServiceTheorems
  import opened ServiceTidy
  import opened ServiceAccounts

  lemma Extends(s: State, step: Step)
    requires Reachable(s) && Guard(s, step)
    ensures Reachable(Apply(s, step))
  {
    hide Guard, Apply;
    var run: seq<State>, i: nat :| IsRun(run) && i < |run| && run[i] == s;
    var longer := run[..i + 1] + [Apply(s, step)];
    forall k | 0 <= k < |longer| - 1 ensures Next(longer[k], longer[k + 1]) {
      if k < i { assert Next(run[k], run[k + 1]); }
    }
    assert IsRun(longer) && longer[i + 1] == Apply(s, step);
  }

  lemma TidyExtends(s: State, step: Step)
    requires TidyReachable(s) && Guard(s, step) && !Breaks(s, step) && Tidy(s, step)
    ensures TidyReachable(Apply(s, step))
  {
    hide Guard, Apply, Breaks, Tidy;
    var run: seq<State>, steps: seq<Step> :| TidyRun(run, steps) && run[|steps|] == s;
    var longer, more := run + [Apply(s, step)], steps + [step];
    forall k | 0 <= k < |more| ensures Guard(longer[k], more[k]) && longer[k + 1] == Apply(longer[k], more[k])
                                       && !Breaks(longer[k], more[k]) && Tidy(longer[k], more[k])
    {
      if k < |steps| { assert longer[k] == run[k] && more[k] == steps[k]; }
    }
    assert TidyRun(longer, more) && longer[|more|] == Apply(s, step);
  }

  // A step that the late-load run takes.
  lemma Goes(s: State, step: Step)
    requires Reachable(s) && TidyReachable(s) && Guard(s, step) && !Breaks(s, step) && Tidy(s, step)
    ensures Reachable(Apply(s, step)) && TidyReachable(Apply(s, step))
  {
    hide Reachable, TidyReachable, Guard, Apply, Breaks, Tidy;
    Extends(s, step);
    TidyExtends(s, step);
  }

  lemma Started() returns (s: State)
    ensures Reachable(s) && TidyReachable(s) && Init(s)
  {
    s := State(Fresh(), map[], None, None, {}, 0, {}, {}, {}, map[], map[], 0);
    assert IsRun([s]) && [s][0] == s;
    var none: seq<Step> := [];
    assert TidyRun([s], none) && [s][|none|] == s;
  }

  // ---- tables of one and two clients ----

  lemma OneEntry(e: ClientInfo, c: Client, name: string)
    ensures Find([e], c) == (if e.client == c then 0 else 1) && TotalLoad([e], name) == LoadNum(e.loads, name)
  {
    assert [e][1..] == [];
  }

  lemma TwoEntries(e: ClientInfo, f: ClientInfo, c: Client, name: string)
    requires e.client != f.client
    ensures Find([e, f], c) == if e.client == c then 0 else if f.client == c then 1 else 2
    ensures TotalLoad([e, f], name) == LoadNum(e.loads, name) + LoadNum(f.loads, name)
  {
    assert [e, f][1..] == [f];
    OneEntry(f, c, name);
  }

  lemma OneLib(l: LoadLib, name: string)
    ensures FindLib([l], name) == (if l.name == name then 0 else 1)
    ensures LoadNum([l], name) == (if l.name == name then l.count else 0) && LoadNum([], name) == 0
  {
    assert [l][1..] == [];
  }

  // ---- a client with one open and a send in flight ----

  lemma FirstOpen(c: Client) returns (s: State)
    ensures Reachable(s) && TidyReachable(s) && s.core == Core([ClientInfo(c, 1, [])], 1, 0, Some(0), 0)
            && s.devices == 1
    ensures s.threads == map[0 := Idle] && s.loadOwner == None && s.hintOwner == None && s.resident == {} && s.lost == 0
    ensures s.gone == {} && s.notified == {}
  {
    hide Reachable, TidyReachable;
    var s0 := Started();
    Goes(s0, Arrive(0, ROpen(c, 0)));
    var s1 := Apply(s0, Arrive(0, ROpen(c, 0)));
    Goes(s1, Open(0, 0, true));
    s := Apply(s1, Open(0, 0, true));
    assert [] + [ClientInfo(c, 1, [])] == [ClientInfo(c, 1, [])];
  }

  lemma FirstSend(c: Client) returns (s: State)
    ensures Reachable(s) && s.core == Core([ClientInfo(c, 1, [])], 1, 1, Some(0), 0)
    ensures s.threads == map[0 := Idle, 1 := Sending(c, Some(0))] && s.loadOwner == None && s.hintOwner == None
    ensures s.gone == {} && s.notified == {} && s.lost == 0
  {
    hide Reachable;
    var s0 := FirstOpen(c);
    OneEntry(ClientInfo(c, 1, []), c, "");
    Extends(s0, Arrive(1, RSend(c)));
    var s1 := Apply(s0, Arrive(1, RSend(c)));
    Extends(s1, SendEnter(1));
    s := Apply(s1, SendEnter(1));
  }

  // A send whose buffer cannot be mapped is enough to wedge the service.
  lemma LostHappens(c: Client) returns (s: State)
    ensures Reachable(s) && s.lost > 0 && s.core.device.Some? && InFlight(s.threads) == 0 && s.core.working > 0
  {
    hide Reachable, InFlight;
    var s0 := FirstSend(c);
    Extends(s0, SendMapFails(1));
    s := Apply(s0, SendMapFails(1));
    WorkingExact(s);
  }

  // ---- two handlers ----

  // The deadlock can happen: client c dies while its own send runs, and another client dies meanwhile.
  lemma DeadlockHappens(c: Client, d: Client) returns (s: State, t1: Tid, t2: Tid)
    requires c != d
    ensures Reachable(s) && Deadlock(s, t1, t2)
  {
    hide Reachable;
    var s0 := FirstSend(c);
    s := DyingWaits(s0, c);
    Extends(s, Die(d));
    var s1 := Apply(s, Die(d));
    Extends(s1, DeathLoadLock(3, d));
    s := Apply(s1, DeathLoadLock(3, d));
    t1, t2 := 2, 3;
  }

  lemma DyingLocks(s: State, c: Client) returns (s': State)
    requires Reachable(s) && s.core == Core([ClientInfo(c, 1, [])], 1, 1, Some(0), 0) && s.gone == {}
             && s.notified == {}
    requires s.threads == map[0 := Idle, 1 := Sending(c, Some(0))] && s.loadOwner == None && s.hintOwner == None
    ensures Reachable(s') && s'.core == s.core && s'.gone == {c} && s'.notified == {c}
    ensures s'.threads == map[0 := Idle, 1 := Sending(c, Some(0)), 2 := DeathWantsMain(c)]
  {
    hide Reachable;
    Extends(s, Die(c));
    var s0 := Apply(s, Die(c));
    Extends(s0, DeathLoadLock(2, c));
    var s1 := Apply(s0, DeathLoadLock(2, c));
    Extends(s1, DeathHintLock(2));
    s' := Apply(s1, DeathHintLock(2));
  }

  lemma DyingWaits(s: State, c: Client) returns (s': State)
    requires Reachable(s) && s.core == Core([ClientInfo(c, 1, [])], 1, 1, Some(0), 0) && s.gone == {}
             && s.notified == {}
    requires s.threads == map[0 := Idle, 1 := Sending(c, Some(0))] && s.loadOwner == None && s.hintOwner == None
    ensures Reachable(s') && At(s', 2).DeathWindow? && At(s', 3).Idle? && s'.loadOwner == None
    ensures s'.gone == {c} && s'.notified == {c}
  {
    hide Reachable;
    var s2 := DyingLocks(s, c);
    Extends(s2, DeathEnter(2, {}, {}));
    s' := Apply(s2, DeathEnter(2, {}, {}));
    OneEntry(ClientInfo(c, 1, []), c, "");
    assert Zeroed([]) == [] && [ClientInfo(c, 1, [])][0 := ClientInfo(c, 1, [])] == [ClientInfo(c, 1, [])];
  }

  // ---- a handler waits while calls of its client are still in the server ----

  const C: Client := 0
  const D: Client := 1
  const L := "L"
  const M := "M"
  const OnFirst := Some(0)

  // The fields the runs look at.
  ghost predicate Seen(s: State, core: Core, threads: map<Tid, Phase>, load: Option<Tid>, hint: Option<Tid>,
                       resident: set<string>,
                       gone: set<Client>)
  {
    && Reachable(s) && s.core == core && s.threads == threads && s.loadOwner == load && s.hintOwner == hint
    && s.resident == resident && s.gone == gone && s.notified <= gone
  }

  // Client C with one open and these load records, and n calls in flight.
  function Alone(loads: seq<LoadLib>, n: int): Core {
    Core([ClientInfo(C, 1, loads)], 1, n, OnFirst, 0)
  }

  function Both(loads: seq<LoadLib>, others: seq<LoadLib>, n: int): Core {
    Core([ClientInfo(C, 1, loads), ClientInfo(D, 1, others)], 2, n, OnFirst, 0)
  }

  lemma LoadBegins() returns (s: State)
    ensures TidyReachable(s)
            && Seen(s, Alone([], 1), map[0 := Idle, 1 := Loading(C, L, OnFirst)], Some(1), None, {}, {})
  {
    hide Reachable, TidyReachable;
    var s0 := FirstOpen(C);
    Goes(s0, Arrive(1, RLoad(C, L)));
    var s1 := Apply(s0, Arrive(1, RLoad(C, L)));
    Goes(s1, LoadLock(1));
    var s2 := Apply(s1, LoadLock(1));
    OneEntry(ClientInfo(C, 1, []), C, L);
    OneLib(LoadLib(L, 1), L);
    Goes(s2, LoadEnter(1));
    s := Apply(s2, LoadEnter(1));
  }

  lemma LoadEnds(s0: State) returns (s: State)
    requires TidyReachable(s0)
             && Seen(s0, Alone([], 1), map[0 := Idle, 1 := Loading(C, L, OnFirst)], Some(1), None, {}, {})
    ensures TidyReachable(s) && Seen(s, Alone([LoadLib(L, 1)], 0), map[0 := Idle, 1 := Idle], None, None, {L}, {})
  {
    hide Reachable, TidyReachable;
    Goes(s0, DspLoad(1, true));
    var s1 := Apply(s0, DspLoad(1, true));
    OneEntry(ClientInfo(C, 1, []), C, L);
    OneLib(LoadLib(L, 1), L);
    assert [] + [LoadLib(L, 1)] == [LoadLib(L, 1)];
    assert [ClientInfo(C, 1, [])][0 := ClientInfo(C, 1, [LoadLib(L, 1)])] == [ClientInfo(C, 1, [LoadLib(L, 1)])];
    Goes(s1, LoadLeave(1));
    s := Apply(s1, LoadLeave(1));
  }

  lemma SendBegins(s0: State) returns (s: State)
    requires TidyReachable(s0) && Seen(s0, Alone([LoadLib(L, 1)], 0), map[0 := Idle, 1 := Idle], None, None, {L}, {})
    ensures TidyReachable(s)
            && Seen(s, Alone([LoadLib(L, 1)], 1), map[0 := Idle, 1 := Idle, 2 := Sending(C, OnFirst)], None, None,
                    {L}, {})
  {
    hide Reachable, TidyReachable;
    Goes(s0, Arrive(2, RSend(C)));
    var s1 := Apply(s0, Arrive(2, RSend(C)));
    OneEntry(ClientInfo(C, 1, [LoadLib(L, 1)]), C, L);
    Goes(s1, SendEnter(2));
    s := Apply(s1, SendEnter(2));
  }

  // The calls of C that will be late.
  function Calls(handler: Phase, send: Phase): map<Tid, Phase> {
    map[0 := Idle, 1 := Idle, 2 := send, 3 := Wants(RUnload(C, L)), 4 := Wants(RLoad(C, M)), 5 := Wants(ROpen(C, 0)),
        6 := Wants(RClose(C)), 7 := handler]
  }

  lemma UnloadAndLoadArrive(s0: State) returns (s: State)
    requires TidyReachable(s0)
             && Seen(s0, Alone([LoadLib(L, 1)], 1), map[0 := Idle, 1 := Idle, 2 := Sending(C, OnFirst)], None, None,
                     {L}, {})
    ensures TidyReachable(s)
            && Seen(s, Alone([LoadLib(L, 1)], 1),
                    map[0 := Idle, 1 := Idle, 2 := Sending(C, OnFirst), 3 := Wants(RUnload(C, L)),
                                                   4 := Wants(RLoad(C, M))], None, None, {L}, {})
  {
    hide Reachable, TidyReachable;
    Goes(s0, Arrive(3, RUnload(C, L)));
    s := Apply(s0, Arrive(3, RUnload(C, L)));
    Goes(s, Arrive(4, RLoad(C, M)));
    s := Apply(s, Arrive(4, RLoad(C, M)));
  }

  lemma CallsArrive(s0: State) returns (s: State)
    requires TidyReachable(s0)
             && Seen(s0, Alone([LoadLib(L, 1)], 1),
                     map[0 := Idle, 1 := Idle, 2 := Sending(C, OnFirst), 3 := Wants(RUnload(C, L)),
                                                     4 := Wants(RLoad(C, M))], None, None, {L}, {})
    ensures TidyReachable(s)
            && Seen(s, Alone([LoadLib(L, 1)], 1), Calls(DeathWantsHint(C), Sending(C, OnFirst)), Some(7), None, {L},
                    {C})
  {
    hide Reachable, TidyReachable;
    Goes(s0, Arrive(5, ROpen(C, 0)));
    s := Apply(s0, Arrive(5, ROpen(C, 0)));
    Goes(s, Arrive(6, RClose(C)));
    s := Apply(s, Arrive(6, RClose(C)));
    Goes(s, Die(C));
    s := Apply(s, Die(C));
    Goes(s, DeathLoadLock(7, C));
    s := Apply(s, DeathLoadLock(7, C));
  }

  const Paused := DeathWindow(C, Pause(1, 0))
  const Resuming := DeathRelocked(C, Pause(1, 0))

  lemma SoleOnly()
    ensures L in SoleLibs([ClientInfo(C, 1, [LoadLib(L, 1)])], C)
    ensures forall n :: n in SoleLibs([ClientInfo(C, 1, [LoadLib(L, 1)])], C) ==> n == L
  {
    var t := [ClientInfo(C, 1, [LoadLib(L, 1)])];
    OneEntry(t[0], C, L);
    assert Without(t, C) == [];
    assert LoadLib(L, 1) in LoadsOf(t, C);
  }

  // The handler has taken L out of the DSP and waits for the send.
  lemma HandlerWaits(s0: State) returns (s: State)
    requires TidyReachable(s0)
             && Seen(s0, Alone([LoadLib(L, 1)], 1), Calls(DeathWantsHint(C), Sending(C, OnFirst)), Some(7), None, {L},
                     {C})
    ensures TidyReachable(s)
            && Seen(s, Alone([LoadLib(L, 0)], 1), Calls(Paused, Sending(C, OnFirst)), None, Some(7), {}, {C})
  {
    hide Reachable, TidyReachable, SoleLibs;
    Goes(s0, DeathHintLock(7));
    var s1 := Apply(s0, DeathHintLock(7));
    Goes(s1, DeathEnter(7, {L}, {}));
    s := Apply(s1, DeathEnter(7, {L}, {}));
    OneEntry(ClientInfo(C, 1, [LoadLib(L, 1)]), C, L);
    OneEntry(ClientInfo(C, 1, [LoadLib(L, 0)]), C, L);
    SoleOnly();
    assert Zeroed([LoadLib(L, 1)]) == [LoadLib(L, 0)];
    assert [ClientInfo(C, 1, [LoadLib(L, 1)])][0 := ClientInfo(C, 1, [LoadLib(L, 0)])] == [ClientInfo(C, 1, [LoadLib(L, 0)])];
    assert {L} - {L} == {};
  }

  lemma Window() returns (s: State)
    ensures TidyReachable(s)
            && Seen(s, Alone([LoadLib(L, 0)], 1), Calls(Paused, Sending(C, OnFirst)), None, Some(7), {}, {C})
  {
    hide Seen, TidyReachable;
    s := LoadBegins();
    s := LoadEnds(s);
    s := SendBegins(s);
    s := UnloadAndLoadArrive(s);
    s := CallsArrive(s);
    s := HandlerWaits(s);
  }

  // ---- a late open ----

  // The handler locks again.
  lemma HandlerRelocks(s0: State, core: Core, threads: map<Tid, Phase>) returns (s: State)
    requires Seen(s0, core, threads, None, Some(7), {}, {C}) && 7 in threads && threads[7] == Paused
    ensures Seen(s, core, threads[7 := Resuming], Some(7), Some(7), {}, {C})
  {
    hide Reachable;
    Extends(s0, DeathRelock(7));
    s := Apply(s0, DeathRelock(7));
  }

  // The send leaves.
  lemma SendEnds(s0: State, core: Core, threads: map<Tid, Phase>) returns (s: State)
    requires Seen(s0, core, threads, None, Some(7), {}, {C}) && 2 in threads && threads[2] == Sending(C, OnFirst)
    ensures Seen(s, core.(working := core.working - 1), threads[2 := Idle], None, Some(7), {}, {C})
  {
    hide Reachable;
    Extends(s0, SendLeave(2));
    s := Apply(s0, SendLeave(2));
  }

  lemma LateOpen(s0: State) returns (s: State)
    requires Seen(s0, Alone([LoadLib(L, 0)], 1), Calls(Paused, Sending(C, OnFirst)), None, Some(7), {}, {C})
    ensures Seen(s, Core([ClientInfo(C, 2, [LoadLib(L, 0)])], 2, 1, OnFirst, 0),
                 Calls(Paused, Sending(C, OnFirst))[5 := Idle], None, Some(7), {}, {C})
  {
    hide Reachable;
    OneEntry(ClientInfo(C, 1, [LoadLib(L, 0)]), C, L);
    Extends(s0, Open(5, 1, true));
    s := Apply(s0, Open(5, 1, true));
    assert [ClientInfo(C, 1, [LoadLib(L, 0)])][0 := ClientInfo(C, 2, [LoadLib(L, 0)])] == [ClientInfo(C, 2, [LoadLib(L, 0)])];
  }

  lemma LateOpenRelocked() returns (s: State)
    ensures Seen(s, Core([ClientInfo(C, 2, [LoadLib(L, 0)])], 2, 0, OnFirst, 0),
                 Calls(Paused, Sending(C, OnFirst))[5 := Idle][2 := Idle][7 := Resuming], Some(7), Some(7), {}, {C})
  {
    hide Seen;
    s := Window();
    s := LateOpen(s);
    var k := Core([ClientInfo(C, 2, [LoadLib(L, 0)])], 2, 1, OnFirst, 0);
    s := SendEnds(s, k, Calls(Paused, Sending(C, OnFirst))[5 := Idle]);
    s := HandlerRelocks(s, k.(working := 0), Calls(Paused, Sending(C, OnFirst))[5 := Idle][2 := Idle]);
  }

  // A late open leaves the device open with no client.
  lemma LateOpenHappens() returns (s: State)
    ensures Reachable(s) && Dying(s) == None && s.core.opens == 1 && s.core.device.Some? && s.core.table == []
  {
    hide Reachable;
    var s0 := LateOpenRelocked();
    OneEntry(ClientInfo(C, 2, [LoadLib(L, 0)]), C, L);
    OneEntry(ClientInfo(C, 1, [LoadLib(L, 0)]), C, L);
    Extends(s0, DeathResume(7, {}));
    s := Apply(s0, DeathResume(7, {}));
  }

  // ---- a late close ----

  lemma LateClose(s0: State) returns (s: State)
    requires Seen(s0, Alone([LoadLib(L, 0)], 0), Calls(Paused, Idle), None, Some(7), {}, {C})
    ensures Seen(s, Fresh(), Calls(Paused, Idle)[6 := Idle], None, Some(7), {}, {C})
  {
    hide Reachable;
    OneEntry(ClientInfo(C, 1, [LoadLib(L, 0)]), C, L);
    Extends(s0, Close(6, {}));
    s := Apply(s0, Close(6, {}));
    assert [ClientInfo(C, 1, [LoadLib(L, 0)])][..0] + [ClientInfo(C, 1, [LoadLib(L, 0)])][1..] == [];
  }

  lemma LateCloseRelocked() returns (s: State)
    ensures Seen(s, Fresh(), Calls(Paused, Idle)[6 := Idle][7 := Resuming], Some(7), Some(7), {}, {C})
  {
    hide Seen;
    s := Window();
    s := SendEnds(s, Alone([LoadLib(L, 0)], 1), Calls(Paused, Sending(C, OnFirst)));
    assert Calls(Paused, Sending(C, OnFirst))[2 := Idle] == Calls(Paused, Idle);
    s := LateClose(s);
    s := HandlerRelocks(s, Fresh(), Calls(Paused, Idle)[6 := Idle]);
  }

  // A late close releases the device under the handler, which takes its open off once more.
  lemma LateCloseHappens() returns (s: State)
    ensures Reachable(s) && Dying(s) == None && s.core.opens == -1 && s.core.device.None? && s.core.table == []
  {
    hide Reachable;
    var s0 := LateCloseRelocked();
    Extends(s0, DeathResume(7, {}));
    s := Apply(s0, DeathResume(7, {}));
    assert DecTimes([], C, 1) == [] by { assert DecOpen([], C) == [] && DecTimes([], C, 0) == []; }
  }

  // ---- another client opens meanwhile ----

  lemma OtherOpens(s0: State) returns (s: State)
    requires TidyReachable(s0)
             && Seen(s0, Alone([LoadLib(L, 0)], 1), Calls(Paused, Sending(C, OnFirst)), None, Some(7), {}, {C})
    ensures TidyReachable(s)
            && Seen(s, Both([LoadLib(L, 0)], [], 1), Calls(Paused, Sending(C, OnFirst))[8 := Idle], None, Some(7), {},
                    {C})
  {
    hide Reachable, TidyReachable;
    Goes(s0, Arrive(8, ROpen(D, 0)));
    var s1 := Apply(s0, Arrive(8, ROpen(D, 0)));
    OneEntry(ClientInfo(C, 1, [LoadLib(L, 0)]), D, L);
    Goes(s1, Open(8, 0, true));
    s := Apply(s1, Open(8, 0, true));
    assert [ClientInfo(C, 1, [LoadLib(L, 0)])] + [ClientInfo(D, 1, [])] == [ClientInfo(C, 1, [LoadLib(L, 0)]), ClientInfo(D, 1, [])];
  }

  // ---- a late load ----

  lemma LateLoadBegins(s0: State) returns (s: State)
    requires TidyReachable(s0)
             && Seen(s0, Both([LoadLib(L, 0)], [], 1), Calls(Paused, Sending(C, OnFirst))[8 := Idle], None, Some(7),
                     {}, {C})
    ensures TidyReachable(s)
            && Seen(s, Both([LoadLib(L, 0)], [], 2),
                    Calls(Paused, Sending(C, OnFirst))[8 := Idle][4 := Loading(C, M, OnFirst)],
                 Some(4), Some(7), {}, {C})
  {
    hide Reachable, TidyReachable;
    Goes(s0, LoadLock(4));
    var s1 := Apply(s0, LoadLock(4));
    TwoEntries(ClientInfo(C, 1, [LoadLib(L, 0)]), ClientInfo(D, 1, []), C, M);
    OneLib(LoadLib(L, 0), M);
    Goes(s1, LoadEnter(4));
    s := Apply(s1, LoadEnter(4));
  }

  lemma LateLoadEnds(s0: State) returns (s: State)
    requires TidyReachable(s0)
             && Seen(s0, Both([LoadLib(L, 0)], [], 2),
                     Calls(Paused, Sending(C, OnFirst))[8 := Idle][4 := Loading(C, M, OnFirst)],
                  Some(4), Some(7), {}, {C})
    ensures TidyReachable(s)
            && Seen(s, Both([LoadLib(L, 0), LoadLib(M, 1)], [], 1),
                    Calls(Paused, Sending(C, OnFirst))[8 := Idle][4 := Idle],
                 None, Some(7), {M}, {C})
  {
    hide Reachable, TidyReachable;
    Goes(s0, DspLoad(4, true));
    var s1 := Apply(s0, DspLoad(4, true));
    var c, d := ClientInfo(C, 1, [LoadLib(L, 0)]), ClientInfo(D, 1, []);
    var c' := ClientInfo(C, 1, [LoadLib(L, 0), LoadLib(M, 1)]);
    TwoEntries(c, d, C, M);
    OneLib(LoadLib(L, 0), M);
    assert [LoadLib(L, 0)] + [LoadLib(M, 1)] == [LoadLib(L, 0), LoadLib(M, 1)];
    assert [c, d][0 := c'] == [c', d];
    Goes(s1, LoadLeave(4));
    s := Apply(s1, LoadLeave(4));
  }

  lemma LateLoadResumes(s0: State) returns (s: State)
    requires TidyReachable(s0)
             && Seen(s0, Both([LoadLib(L, 0), LoadLib(M, 1)], [], 1),
                     Calls(Paused, Sending(C, OnFirst))[8 := Idle][4 := Idle],
                  None, Some(7), {M}, {C})
    ensures TidyReachable(s)
            && Seen(s, Both([LoadLib(L, 0), LoadLib(M, 1)], [], 0), Calls(Resuming, Idle)[8 := Idle][4 := Idle],
                 Some(7), Some(7), {M}, {C})
  {
    hide Reachable, TidyReachable;
    Goes(s0, SendLeave(2));
    var s1 := Apply(s0, SendLeave(2));
    Goes(s1, DeathRelock(7));
    s := Apply(s1, DeathRelock(7));
  }

  // A late load leaves a library in the DSP that no client has loaded. All steps before are clean and tidy; the one
  // that is not tidy is the end of the handler.
  lemma LateLoadHappens() returns (s: State, step: Step)
    ensures Reachable(s) && TidyReachable(s) && Guard(s, step) && step.DeathResume? && !Breaks(s, step)
            && !Tidy(s, step)
    ensures var s' := Apply(s, step);
            && Dying(s') == None && s'.loadOwner == None
            && M in s'.resident && s'.core.table == [ClientInfo(D, 1, [])] && TotalLoad(s'.core.table, M) == 0
  {
    hide Reachable, TidyReachable;
    s := Window();
    s := OtherOpens(s);
    s := LateLoadBegins(s);
    s := LateLoadEnds(s);
    s := LateLoadResumes(s);
    step := DeathResume(7, {});
    var c, d := ClientInfo(C, 1, [LoadLib(L, 0), LoadLib(M, 1)]), ClientInfo(D, 1, []);
    TwoEntries(c, d, C, M);
    OneEntry(d, C, M);
    OneLib(LoadLib(L, 0), M);
    assert [c, d][..0] + [c, d][1..] == [d];
    assert DecTimes([c, d], C, 1) == [d] by { assert DecOpen([c, d], C) == [d] && DecTimes([d], C, 0) == [d]; }
    assert Without([c, d], C) == [d] && LoadsOf([c, d], C)[1] == LoadLib(M, 1);
    assert M in SoleLibs([c, d], C) && M in Apply(s, step).resident;
  }

  // ---- a late unload ----

  lemma OtherLoadBegins(s0: State) returns (s: State)
    requires Seen(s0, Both([LoadLib(L, 0)], [], 1), Calls(Paused, Sending(C, OnFirst))[8 := Idle], None, Some(7), {},
                  {C})
    ensures Seen(s, Both([LoadLib(L, 0)], [], 2), Calls(Paused, Sending(C, OnFirst))[8 := Loading(D, L, OnFirst)],
                 Some(8), Some(7), {}, {C})
  {
    hide Reachable;
    Extends(s0, Arrive(8, RLoad(D, L)));
    var s1 := Apply(s0, Arrive(8, RLoad(D, L)));
    Extends(s1, LoadLock(8));
    var s2 := Apply(s1, LoadLock(8));
    TwoEntries(ClientInfo(C, 1, [LoadLib(L, 0)]), ClientInfo(D, 1, []), D, L);
    OneLib(LoadLib(L, 0), L);
    Extends(s2, LoadEnter(8));
    s := Apply(s2, LoadEnter(8));
  }

  lemma OtherLoadEnds(s0: State) returns (s: State)
    requires Seen(s0, Both([LoadLib(L, 0)], [], 2), Calls(Paused, Sending(C, OnFirst))[8 := Loading(D, L, OnFirst)],
                  Some(8), Some(7), {}, {C})
    ensures Seen(s, Both([LoadLib(L, 0)], [LoadLib(L, 1)], 1), Calls(Paused, Sending(C, OnFirst))[8 := Idle],
                 None, Some(7), {L}, {C})
  {
    hide Reachable;
    Extends(s0, DspLoad(8, true));
    var s1 := Apply(s0, DspLoad(8, true));
    var c, d, d' := ClientInfo(C, 1, [LoadLib(L, 0)]), ClientInfo(D, 1, []), ClientInfo(D, 1, [LoadLib(L, 1)]);
    TwoEntries(c, d, D, L);
    OneLib(LoadLib(L, 1), L);
    assert [] + [LoadLib(L, 1)] == [LoadLib(L, 1)];
    assert [c, d][1 := d'] == [c, d'];
    Extends(s1, LoadLeave(8));
    s := Apply(s1, LoadLeave(8));
  }

  lemma LateUnload(s0: State) returns (s: State)
    requires Seen(s0, Both([LoadLib(L, 0)], [LoadLib(L, 1)], 1), Calls(Paused, Sending(C, OnFirst))[8 := Idle],
                  None, Some(7), {L}, {C})
    ensures Seen(s, Both([LoadLib(L, -1)], [LoadLib(L, 1)], 2),
                 Calls(Paused, Sending(C, OnFirst))[8 := Idle][3 := Unloading(C, L, OnFirst)], Some(3), Some(7), {L}, {C})
  {
    hide Reachable;
    Extends(s0, UnloadLock(3));
    var s1 := Apply(s0, UnloadLock(3));
    var c, c', d := ClientInfo(C, 1, [LoadLib(L, 0)]), ClientInfo(C, 1, [LoadLib(L, -1)]), ClientInfo(D, 1, [LoadLib(L, 1)]);
    TwoEntries(c, d, C, L);
    TwoEntries(c', d, C, L);
    OneLib(LoadLib(L, 0), L);
    OneLib(LoadLib(L, -1), L);
    OneLib(LoadLib(L, 1), L);
    assert [LoadLib(L, 0)][0 := LoadLib(L, -1)] == [LoadLib(L, -1)];
    assert [c, d][0 := c'] == [c', d];
    Extends(s1, UnloadEnter(3));
    s := Apply(s1, UnloadEnter(3));
  }

  // A late unload takes a library out of the DSP that another client has loaded.
  lemma LateUnloadHappens() returns (s: State)
    ensures Reachable(s) && LoadNum(LoadsOf(s.core.table, D), L) == 1 && L !in s.resident
  {
    hide Reachable;
    var s0 := Window();
    s0 := OtherOpens(s0);
    s0 := OtherLoadBegins(s0);
    s0 := OtherLoadEnds(s0);
    s0 := LateUnload(s0);
    Extends(s0, DspUnload(3, true));
    s := Apply(s0, DspUnload(3, true));
    TwoEntries(ClientInfo(C, 1, [LoadLib(L, -1)]), ClientInfo(D, 1, [LoadLib(L, 1)]), D, L);
    OneLib(LoadLib(L, 1), L);
  }

  // ---- a load that ends after its client's last close ----

  lemma OtherOpensMeanwhile(s0: State) returns (s: State)
    requires TidyReachable(s0)
             && Seen(s0, Alone([], 1), map[0 := Idle, 1 := Loading(C, L, OnFirst)], Some(1), None, {}, {})
    ensures TidyReachable(s)
            && Seen(s, Both([], [], 1), map[0 := Idle, 1 := Loading(C, L, OnFirst), 2 := Idle], Some(1), None, {}, {})
  {
    hide Reachable, TidyReachable;
    Goes(s0, Arrive(2, ROpen(D, 0)));
    var s1 := Apply(s0, Arrive(2, ROpen(D, 0)));
    OneEntry(ClientInfo(C, 1, []), D, L);
    Goes(s1, Open(2, 0, true));
    s := Apply(s1, Open(2, 0, true));
    assert [ClientInfo(C, 1, [])] + [ClientInfo(D, 1, [])] == [ClientInfo(C, 1, []), ClientInfo(D, 1, [])];
    assert s.threads == map[0 := Idle, 1 := Loading(C, L, OnFirst), 2 := Idle];
  }

  lemma ClosesWhileLoading(s0: State) returns (s: State)
    requires TidyReachable(s0)
             && Seen(s0, Both([], [], 1), map[0 := Idle, 1 := Loading(C, L, OnFirst), 2 := Idle], Some(1), None, {}, {})
    ensures TidyReachable(s)
            && Seen(s, Core([ClientInfo(D, 1, [])], 1, 1, OnFirst, 0),
                    map[0 := Idle, 1 := Loading(C, L, OnFirst), 2 := Idle], Some(1), None, {}, {})
  {
    hide Reachable, TidyReachable;
    var c, d := ClientInfo(C, 1, []), ClientInfo(D, 1, []);
    TwoEntries(c, d, C, L);
    Goes(s0, Arrive(2, RClose(C)));
    var s1 := Apply(s0, Arrive(2, RClose(C)));
    assert SoleLibs(s1.core.table, C) == {};
    Goes(s1, Close(2, {}));
    s := Apply(s1, Close(2, {}));
    assert [c, d][..0] + [c, d][1..] == [d];
    assert s.threads == map[0 := Idle, 1 := Loading(C, L, OnFirst), 2 := Idle];
  }

  // A client may close while its load is at the DSP. The load then returns 0 and leaves a library in the DSP that is
  // recorded for nobody.
  lemma UnrecordedHappens() returns (s: State, step: Step)
    ensures Reachable(s) && TidyReachable(s) && Guard(s, step) && !Breaks(s, step) && Unrecorded(s, step)
            && !Tidy(s, step)
    ensures var s' := Apply(s, step);
            s'.loadOwner == None && L in s'.resident && TotalLoad(s'.core.table, L) == 0
  {
    hide Reachable, TidyReachable;
    var s0 := LoadBegins();
    s0 := OtherOpensMeanwhile(s0);
    s0 := ClosesWhileLoading(s0);
    OneEntry(ClientInfo(D, 1, []), C, L);
    OneLib(LoadLib(L, 0), L);
    Goes(s0, DspLoad(1, true));
    s := Apply(s0, DspLoad(1, true));
    step := LoadLeave(1);
  }

  // ---- late closes that leave too few opens counted ----

  const E: Client := 2

  function Only(c: Client, opens: int): seq<ClientInfo> {
    [ClientInfo(c, opens, [])]
  }

  function Pair(opens: int, others: int): seq<ClientInfo> {
    [ClientInfo(C, opens, []), ClientInfo(D, others, [])]
  }

  lemma SecondOpen() returns (s: State)
    ensures Seen(s, Core(Only(C, 2), 2, 0, OnFirst, 0), map[0 := Idle], None, None, {}, {})
  {
    hide Reachable, TidyReachable;
    var s0 := FirstOpen(C);
    OneEntry(ClientInfo(C, 1, []), C, "");
    Extends(s0, Arrive(0, ROpen(C, 0)));
    var s1 := Apply(s0, Arrive(0, ROpen(C, 0)));
    Extends(s1, Open(0, 0, true));
    s := Apply(s1, Open(0, 0, true));
    assert Only(C, 1)[0 := ClientInfo(C, 2, [])] == Only(C, 2);
  }

  lemma FirstSendOfTwo(s0: State) returns (s: State)
    requires Seen(s0, Core(Only(C, 2), 2, 0, OnFirst, 0), map[0 := Idle], None, None, {}, {})
    ensures Seen(s, Core(Only(C, 2), 2, 1, OnFirst, 0), map[0 := Idle, 1 := Sending(C, OnFirst)], None, None, {}, {})
  {
    hide Reachable;
    OneEntry(ClientInfo(C, 2, []), C, "");
    Extends(s0, Arrive(1, RSend(C)));
    var s1 := Apply(s0, Arrive(1, RSend(C)));
    Extends(s1, SendEnter(1));
    s := Apply(s1, SendEnter(1));
  }

  // Two closes of C that wait for mLock, its handler and its send.
  function Closes(close: Phase, again: Phase, handler: Phase, send: Phase): map<Tid, Phase> {
    map[0 := Idle, 1 := send, 2 := close, 3 := again, 4 := handler]
  }

  lemma ClosesArrive(s0: State) returns (s: State)
    requires Seen(s0, Core(Only(C, 2), 2, 1, OnFirst, 0), map[0 := Idle, 1 := Sending(C, OnFirst)], None, None, {}, {})
    ensures Seen(s, Core(Only(C, 2), 2, 1, OnFirst, 0),
                 Closes(Wants(RClose(C)), Wants(RClose(C)), DeathWantsHint(C), Sending(C, OnFirst)), Some(4), None, {}, {C})
  {
    hide Reachable;
    Extends(s0, Arrive(2, RClose(C)));
    s := Apply(s0, Arrive(2, RClose(C)));
    Extends(s, Arrive(3, RClose(C)));
    s := Apply(s, Arrive(3, RClose(C)));
    Extends(s, Die(C));
    s := Apply(s, Die(C));
    Extends(s, DeathLoadLock(4, C));
    s := Apply(s, DeathLoadLock(4, C));
  }

  const Sleeping := DeathWindow(C, Pause(2, 1))

  lemma TwoOpensWait(s0: State) returns (s: State)
    requires Seen(s0, Core(Only(C, 2), 2, 1, OnFirst, 0),
                  Closes(Wants(RClose(C)), Wants(RClose(C)), DeathWantsHint(C), Sending(C, OnFirst)), Some(4), None, {}, {C})
    ensures Seen(s, Core(Only(C, 2), 1, 1, OnFirst, 0),
                 Closes(Wants(RClose(C)), Wants(RClose(C)), Sleeping, Sending(C, OnFirst)), None, Some(4), {}, {C})
  {
    hide Reachable, SoleLibs;
    Extends(s0, DeathHintLock(4));
    var s1 := Apply(s0, DeathHintLock(4));
    Extends(s1, DeathEnter(4, {}, {}));
    s := Apply(s1, DeathEnter(4, {}, {}));
    OneEntry(ClientInfo(C, 2, []), C, "");
    assert Only(C, 2)[0 := ClientInfo(C, 2, [])] == Only(C, 2);
  }

  // D opens the device.
  lemma FirstOfOther(s0: State, threads: map<Tid, Phase>) returns (s: State)
    requires Seen(s0, Core(Only(C, 2), 1, 1, OnFirst, 0), threads, None, Some(4), {}, {C}) && 5 !in threads
    ensures Seen(s, Core(Pair(2, 1), 2, 1, OnFirst, 0), threads[5 := Idle], None, Some(4), {}, {C})
  {
    hide Reachable;
    Extends(s0, Arrive(5, ROpen(D, 0)));
    var s1 := Apply(s0, Arrive(5, ROpen(D, 0)));
    OneEntry(ClientInfo(C, 2, []), D, "");
    Extends(s1, Open(5, 0, true));
    s := Apply(s1, Open(5, 0, true));
    assert Only(C, 2) + Only(D, 1) == Pair(2, 1);
  }

  // D opens it once more.
  lemma MoreOfOther(s0: State, threads: map<Tid, Phase>, opens: int, others: int) returns (s: State)
    requires Seen(s0, Core(Pair(2, others), opens, 1, OnFirst, 0), threads, None, Some(4), {}, {C}) && opens != 0
    requires 5 in threads && threads[5] == Idle
    ensures Seen(s, Core(Pair(2, others + 1), opens + 1, 1, OnFirst, 0), threads, None, Some(4), {}, {C})
  {
    hide Reachable;
    Extends(s0, Arrive(5, ROpen(D, 0)));
    var s1 := Apply(s0, Arrive(5, ROpen(D, 0)));
    TwoEntries(ClientInfo(C, 2, []), ClientInfo(D, others, []), D, "");
    Extends(s1, Open(5, 0, true));
    s := Apply(s1, Open(5, 0, true));
    assert Pair(2, others)[1 := ClientInfo(D, others + 1, [])] == Pair(2, others + 1);
    assert s.threads == threads;
  }

  // The core after both closes: the second releases the device if D has one open only.
  function BothClosed(others: int): Core {
    if others == 1 then Core(Only(D, 1), 0, 0, None, MAXTYPE) else Core(Only(D, others), others - 1, 0, OnFirst, 0)
  }

  lemma FirstClose(s0: State, others: int) returns (s: State)
    requires Seen(s0, Core(Pair(2, others), others + 1, 1, OnFirst, 0),
                  Closes(Wants(RClose(C)), Wants(RClose(C)), Sleeping, Sending(C, OnFirst))[5 := Idle], None, Some(4), {}, {C})
    requires others >= 1
    ensures Seen(s, Core(Pair(1, others), others, 0, OnFirst, 0),
                 Closes(Idle, Wants(RClose(C)), Sleeping, Idle)[5 := Idle], None, Some(4), {}, {C})
  {
    hide Reachable;
    TwoEntries(ClientInfo(C, 2, []), ClientInfo(D, others, []), C, "");
    Extends(s0, Close(2, {}));
    var s1 := Apply(s0, Close(2, {}));
    assert Pair(2, others)[0 := ClientInfo(C, 1, [])] == Pair(1, others);
    Extends(s1, SendLeave(1));
    s := Apply(s1, SendLeave(1));
    assert s.threads == Closes(Idle, Wants(RClose(C)), Sleeping, Idle)[5 := Idle];
  }

  lemma SecondClose(s0: State, others: int) returns (s: State)
    requires Seen(s0, Core(Pair(1, others), others, 0, OnFirst, 0),
                  Closes(Idle, Wants(RClose(C)), Sleeping, Idle)[5 := Idle], None, Some(4), {}, {C})
    requires others >= 1
    ensures Seen(s, BothClosed(others), Closes(Idle, Idle, DeathRelocked(C, Pause(2, 1)), Idle)[5 := Idle], Some(4),
                 Some(4), {}, {C})
  {
    hide Reachable;
    TwoEntries(ClientInfo(C, 1, []), ClientInfo(D, others, []), C, "");
    Extends(s0, Close(3, {}));
    var s1 := Apply(s0, Close(3, {}));
    assert Pair(1, others)[..0] + Pair(1, others)[1..] == Only(D, others);
    Extends(s1, DeathRelock(4));
    s := Apply(s1, DeathRelock(4));
    assert s.threads == Closes(Idle, Idle, DeathRelocked(C, Pause(2, 1)), Idle)[5 := Idle];
  }

  lemma NothingBack(others: int)
    ensures DecTimes(Only(D, others), C, 2) == Only(D, others) && Without(Only(D, others), C) == Only(D, others)
    ensures OpenNum(Only(D, others), C) == 0
  {
    OneEntry(ClientInfo(D, others, []), C, "");
    assert DecOpen(Only(D, others), C) == Only(D, others);
    assert DecTimes(Only(D, others), C, 1) == DecTimes(Only(D, others), C, 0);
  }

  // The handler takes its open off although the closes have taken both.
  lemma TakenTwice(s0: State, others: int) returns (s: State)
    requires Seen(s0, BothClosed(others), Closes(Idle, Idle, DeathRelocked(C, Pause(2, 1)), Idle)[5 := Idle], Some(4),
                  Some(4),
                  {}, {C})
    requires others == 1 || others == 3
    ensures Seen(s, BothClosed(others).(opens := others - 2), Closes(Idle, Idle, Idle, Idle)[5 := Idle], None, None,
                 {}, {C})
  {
    hide Reachable;
    NothingBack(others);
    var k := BothClosed(others).(opens := others - 2);
    assert Rounds(k, C, 0) == (k, None);
    assert Rounds(k, C, 1) == (k, None);
    Extends(s0, DeathResume(4, {}));
    s := Apply(s0, DeathResume(4, {}));
    assert s.threads == Closes(Idle, Idle, Idle, Idle)[5 := Idle];
  }

  // The handler of C sleeps with two closes under way.
  lemma LateWindow() returns (s: State)
    ensures Seen(s, Core(Pair(2, 1), 2, 1, OnFirst, 0),
                 Closes(Wants(RClose(C)), Wants(RClose(C)), Sleeping, Sending(C, OnFirst))[5 := Idle], None, Some(4), {}, {C})
  {
    hide Seen;
    s := SecondOpen();
    s := FirstSendOfTwo(s);
    s := ClosesArrive(s);
    s := TwoOpensWait(s);
    s := FirstOfOther(s, Closes(Wants(RClose(C)), Wants(RClose(C)), Sleeping, Sending(C, OnFirst)));
  }

  // A client's send goes to the DSP with no device open: mopen_count is -1, which is not 0.
  lemma BlindSendHappens() returns (s: State, step: Step)
    ensures Reachable(s) && Guard(s, step) && AdmitsBlind(s, step) && Dying(s) == None && s.core.opens == -1
    ensures At(Apply(s, step), 5) == Sending(D, None) && Apply(s, step).core.device == None
  {
    hide Reachable;
    var s0 := LateWindow();
    s0 := FirstClose(s0, 1);
    s0 := SecondClose(s0, 1);
    s0 := TakenTwice(s0, 1);
    OneEntry(ClientInfo(D, 1, []), D, "");
    Extends(s0, Arrive(5, RSend(D)));
    s := Apply(s0, Arrive(5, RSend(D)));
    step := SendEnter(5);
  }

  // ---- a device opened under a call ----

  lemma OtherDies(s0: State) returns (s: State)
    requires Seen(s0, Core(Only(D, 3), 1, 0, OnFirst, 0), Closes(Idle, Idle, Idle, Idle)[5 := Idle], None, None, {},
                  {C})
    ensures Seen(s, Core(Only(D, 3), 1, 0, OnFirst, 0), Closes(Idle, Idle, Idle, Idle)[5 := DeathWantsMain(D)],
                 Some(5), Some(5),
                 {}, {C, D})
  {
    hide Reachable;
    Extends(s0, Die(D));
    var s1 := Apply(s0, Die(D));
    Extends(s1, DeathLoadLock(5, D));
    var s2 := Apply(s1, DeathLoadLock(5, D));
    Extends(s2, DeathHintLock(5));
    s := Apply(s2, DeathHintLock(5));
    assert s.threads == Closes(Idle, Idle, Idle, Idle)[5 := DeathWantsMain(D)];
    assert {C} + {D} == {C, D};
  }

  lemma AllBack()
    ensures DecTimes(Only(D, 3), D, 3) == []
  {
    OneEntry(ClientInfo(D, 3, []), D, "");
    OneEntry(ClientInfo(D, 2, []), D, "");
    OneEntry(ClientInfo(D, 1, []), D, "");
    assert Only(D, 3)[0 := ClientInfo(D, 2, [])] == Only(D, 2) && Only(D, 2)[0 := ClientInfo(D, 1, [])] == Only(D, 1);
    assert DecTimes([], D, 0) == [];
    assert DecTimes(Only(D, 1), D, 1) == [];
    assert DecTimes(Only(D, 2), D, 2) == [];
  }

  // Its handler takes off more opens than are counted and leaves the device open.
  lemma OtherBuried(s0: State) returns (s: State)
    requires Seen(s0, Core(Only(D, 3), 1, 0, OnFirst, 0), Closes(Idle, Idle, Idle, Idle)[5 := DeathWantsMain(D)],
                  Some(5), Some(5),
                  {}, {C, D})
    ensures Seen(s, Core([], -2, 0, OnFirst, 0), Closes(Idle, Idle, Idle, Idle)[5 := Idle], None, None, {}, {C, D})
  {
    hide Reachable, SoleLibs, DecTimes;
    OneEntry(ClientInfo(D, 3, []), D, "");
    AllBack();
    var k := Core([], -2, 0, OnFirst, 0);
    RoundsEnd(k, D, 2);
    assert Only(D, 3)[0 := ClientInfo(D, 3, [])] == Only(D, 3);
    Extends(s0, DeathEnter(5, {}, {}));
    s := Apply(s0, DeathEnter(5, {}, {}));
    assert s.threads == Closes(Idle, Idle, Idle, Idle)[5 := Idle];
  }

  lemma ThirdOpens(s0: State) returns (s: State)
    requires Seen(s0, Core([], -2, 0, OnFirst, 0), Closes(Idle, Idle, Idle, Idle)[5 := Idle], None, None, {}, {C, D})
    ensures Seen(s, Core(Only(E, 1), -1, 0, OnFirst, 0), Closes(Idle, Idle, Idle, Idle)[5 := Idle], None, None, {}, {C, D})
  {
    hide Reachable;
    Extends(s0, Arrive(5, ROpen(E, 0)));
    var s1 := Apply(s0, Arrive(5, ROpen(E, 0)));
    Extends(s1, Open(5, 0, true));
    s := Apply(s1, Open(5, 0, true));
    assert [] + Only(E, 1) == Only(E, 1);
    assert s.threads == Closes(Idle, Idle, Idle, Idle)[5 := Idle];
  }

  lemma ThirdSends(s0: State) returns (s: State)
    requires Seen(s0, Core(Only(E, 1), -1, 0, OnFirst, 0), Closes(Idle, Idle, Idle, Idle)[5 := Idle], None, None, {}, {C, D})
    ensures Seen(s, Core(Only(E, 1), -1, 1, OnFirst, 0), Closes(Idle, Idle, Idle, Idle)[5 := Sending(E, OnFirst)], None, None, {},
                 {C, D})
  {
    hide Reachable;
    OneEntry(ClientInfo(E, 1, []), E, "");
    Extends(s0, Arrive(5, RSend(E)));
    var s1 := Apply(s0, Arrive(5, RSend(E)));
    Extends(s1, SendEnter(5));
    s := Apply(s1, SendEnter(5));
    assert s.threads == Closes(Idle, Idle, Idle, Idle)[5 := Sending(E, OnFirst)];
  }

  // A client's second and third open: the third finds no opens counted and replaces the device under its send.
  lemma SwapHappens() returns (s: State, step: Step)
    ensures Reachable(s) && Guard(s, step) && Swaps(s, step) && At(s, 5) == Sending(E, s.core.device)
            && s.core.device.Some?
    ensures Apply(s, step).core.device.Some? && Apply(s, step).core.device != s.core.device
  {
    hide Reachable, Closed, Opened;
    var s0 := LateWindow();
    var waiting := Closes(Wants(RClose(C)), Wants(RClose(C)), Sleeping, Sending(C, OnFirst))[5 := Idle];
    s0 := MoreOfOther(s0, waiting, 2, 1);
    s0 := MoreOfOther(s0, waiting, 3, 2);
    s0 := FirstClose(s0, 3);
    s0 := SecondClose(s0, 3);
    s0 := TakenTwice(s0, 3);
    s0 := OtherDies(s0);
    s0 := OtherBuried(s0);
    s0 := ThirdOpens(s0);
    s0 := ThirdSends(s0);
    s, step := UncountedOpens(s0);
  }

  lemma UncountedOpens(s0: State) returns (s: State, step: Step)
    requires Seen(s0, Core(Only(E, 1), -1, 1, OnFirst, 0), Closes(Idle, Idle, Idle, Idle)[5 := Sending(E, OnFirst)],
                  None, None, {},
                  {C, D})
    ensures Reachable(s) && Guard(s, step) && Swaps(s, step) && At(s, 5) == Sending(E, s.core.device)
            && s.core.device.Some?
    ensures Apply(s, step).core.device.Some? && Apply(s, step).core.device != s.core.device
  {
    hide Reachable;
    OneEntry(ClientInfo(E, 1, []), E, "");
    OneEntry(ClientInfo(E, 2, []), E, "");
    Extends(s0, Arrive(6, ROpen(E, 0)));
    var s1 := Apply(s0, Arrive(6, ROpen(E, 0)));
    Extends(s1, Open(6, 0, true));
    var s2 := Apply(s1, Open(6, 0, true));
    assert Only(E, 1)[0 := ClientInfo(E, 2, [])] == Only(E, 2);
    Extends(s2, Arrive(6, ROpen(E, 0)));
    s := Apply(s2, Arrive(6, ROpen(E, 0)));
    step := Open(6, 0, true);
    DeviceHeld(s, step, 5);
  }
}
