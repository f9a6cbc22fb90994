// The fields of BnVdspService that mLock protects, and what each region under mLock does to them.
module ServiceCore {
  import opened Bags
  import opened ServiceTables

  type WorkType = int
  const MAXTYPE: WorkType := 2

  // opens is mopen_count, working is mworking. A device is named by the number of the opening it came from.
  datatype Core = Core(table: Table, opens: int, working: int, device: Option<nat>, kind: WorkType)

  function Fresh(): Core {
    Core([], 0, 0, None, MAXTYPE)
  }

  // openXrpDevice. link is what linkToDeath returns for a new client; dev is the device if it and ion open.
  function Opened(k: Core, c: Client, kind: WorkType, link: int, dev: Option<nat>): (Core, int) {
    if !Known(k.table, c) && link != 0 then (k, link) else
    var t := AddOpen(k.table, c);
    if k.opens == 0 then
      if dev.Some? then (Core(t, k.opens + 1, k.working, dev, kind), 0)
      else (k.(table := DecOpen(t, c), device := None, kind := MAXTYPE), -1)
    else if k.kind == kind then (k.(table := t, opens := k.opens + 1), 0)
    else (k.(table := DecOpen(t, c)), -2)
  }

  // closeXrpDevice
  function Closed(k: Core, c: Client): (Core, int) {
    if OpenNum(k.table, c) <= 0 then (k, -3)
    else if k.opens - 1 != 0 then (k.(table := DecOpen(k.table, c), opens := k.opens - 1), 0)
    else if k.working != 0 then (k, -2)
    else (k.(table := DecOpen(k.table, c), opens := 0, device := None, kind := MAXTYPE), 0)
  }

  predicate MayWork(k: Core, c: Client) {
    k.opens != 0 && OpenNum(k.table, c) != 0
  }

  function Entered(k: Core): Core {
    k.(working := k.working + 1)
  }

  function Left(k: Core): Core {
    k.(working := k.working - 1)
  }

  // How the first region of a library call ends: an error, a call to the DSP still to make, or all done.
  datatype Way = Refused | Calls | Done

  // loadXrpLibrary up to the call of the DSP, or to its end if the library is loaded already.
  function LoadBegun(k: Core, c: Client, name: string): (Core, Way) {
    if !MayWork(k, c) then (k, Refused)
    else if TotalLoad(k.table, name) == 0 then (Entered(k), Calls)
    else (k.(table := AddLoad(k.table, c, name)), Done)
  }

  // loadXrpLibrary after the DSP has answered.
  function LoadDone(k: Core, c: Client, name: string, ok: bool): Core {
    Left(if ok then k.(table := AddLoad(k.table, c, name)) else k)
  }

  // unloadXrpLibrary up to the call of the DSP, or to its end if other loads remain.
  function UnloadBegun(k: Core, c: Client, name: string): (Core, Way) {
    if !MayWork(k, c) || !HasLib(LoadsOf(k.table, c), name) then (k, Refused)
    else
      var k' := k.(table := DecLoad(k.table, c, name));
      if TotalLoad(k'.table, name) == 0 then (Entered(k'), Calls) else (k', Done)
  }

  // What closeXrpDevice_NoLock remembers while it waits: the opens it found, and how often binderDied will
  // still call it.
  datatype Pause = Pause(count: int, left: nat)

  // The end of closeXrpDevice_NoLock: release the device if no open is left, then give back count opens.
  function GivenBack(k: Core, c: Client, count: int): Core {
    var k' := if k.opens == 0 then k.(device := None, kind := MAXTYPE) else k;
    k'.(table := DecTimes(k.table, c, count))
  }

  // The loop of binderDied with left turns to go, then ClearClientInfo; or up to where closeXrpDevice_NoLock
  // has to wait for calls in flight.
  function Rounds(k: Core, c: Client, left: nat): (Core, Option<Pause>)
    decreases left
  {
    if left == 0 then (k.(table := Without(k.table, c)), None) else
    var count := OpenNum(k.table, c);
    var k' := k.(opens := k.opens - count);
    if count <= 0 then Rounds(k, c, left - 1)
    else if k'.opens == 0 && k.working != 0 then (k'.(opens := k'.opens + 1), Some(Pause(count, left - 1)))
    else Rounds(GivenBack(k', c, count), c, left - 1)
  }

  // binderDied from taking mLock to its end, or to the first unlock of closeXrpDevice_NoLock.
  function DeathBegun(k: Core, c: Client): (Core, Option<Pause>) {
    var k' := k.(table := Silenced(k.table, c));
    Rounds(k', c, if OpenNum(k'.table, c) > 0 then OpenNum(k'.table, c) else 0)
  }

  // binderDied after it has slept and locked again.
  function DeathResumed(k: Core, c: Client, p: Pause): (Core, Option<Pause>) {
    if k.working != 0 then (k, Some(p)) else Rounds(GivenBack(k.(opens := k.opens - 1), c, p.count), c, p.left)
  }

  // ---- what the regions keep ----

  // dying is the client whose death handler is waiting with mLock and mLoadLock released.
  ghost predicate CoreOk(k: Core, dying: Option<Client>) {
    && TableOk(k.table, dying)
    && (dying.Some? ==> Known(k.table, dying.value))
    && k.opens == TotalOpen(k.table) - (if dying.Some? then OpenNum(k.table, dying.value) - 1 else 0)
    && (k.device.Some? <==> k.opens > 0)
    && (k.device.None? ==> k.kind == MAXTYPE)
  }

  // Client d's entry is the same in both tables.
  ghost predicate SameFor(t: Table, t': Table, d: Client) {
    OpenNum(t', d) == OpenNum(t, d) && LoadsOf(t', d) == LoadsOf(t, d) && (Known(t', d) <==> Known(t, d))
  }

  // Opens are never negative, and zero exactly when no client is left.
  lemma OpensSign(k: Core, dying: Option<Client>)
    requires CoreOk(k, dying)
    ensures k.opens >= 0 && (k.opens == 0 <==> k.table == []) && (dying.Some? ==> k.opens >= 1)
  {
    TotalOpenSign(k.table, dying);
    if dying.Some? { OpensTotalled(k.table, dying.value, dying); }
  }

  // A failed open leaves the table as it was: what AddOpen did, DecOpen undoes.
  lemma ReopenBack(t: Table, c: Client)
    requires Known(t, c) ==> OpenNum(t, c) != 0
    ensures DecOpen(AddOpen(t, c), c) == t
  {
    if Known(t, c) {
      var e := t[Find(t, c)];
      FindStays(t, AddOpen(t, c), c);
      assert AddOpen(t, c)[Find(t, c) := e] == t;
    } else {
      FindUnique(AddOpen(t, c), c, |t|);
      assert Removed(t + [ClientInfo(c, 1, [])], |t|) == t;
    }
  }

  lemma ReopenUndone(t: Table, c: Client, dying: Option<Client>)
    requires TableOk(t, dying)
    ensures DecOpen(AddOpen(t, c), c) == t
  {
    if Known(t, c) { assert EntryOk(t[Find(t, c)], dying); }
    ReopenBack(t, c);
  }

  // A late open, one of the client whose handler waits, is what the conservation of opens does not survive.
  lemma OpenedOk(k: Core, c: Client, kind: WorkType, link: int, dev: Option<nat>, dying: Option<Client>, d: Client)
    requires CoreOk(k, dying)
    ensures var (k', ret) := Opened(k, c, kind, link, dev);
            && (CoreOk(k', dying) <==> dying != Some(c) || ret != 0) && k'.working == k.working
            && (ret != 0 ==> k' == k)
            && (d != c ==> SameFor(k.table, k'.table, d))
            && LoadsOf(k'.table, d) == LoadsOf(k.table, d)
            && (ret == 0 ==> OpenNum(k'.table, c) == OpenNum(k.table, c) + 1 && k'.kind == kind)
            && (ret == 0 ==> (Known(k'.table, c)))
            && (k.device.Some? ==> k'.device == k.device && k'.kind == k.kind)
            && (k.device.None? ==> k'.device == if ret == 0 then dev else None)
            && (ret == 0 && k.device.None? ==> dev.Some?)
            && (!Known(k.table, c) && link != 0 ==> ret != 0)
            && (dying == Some(c) ==> (ret == 0 <==> kind == k.kind))
            && ret == (if !Known(k.table, c) && link != 0 then link
                       else if k.device.None? && dev.None? then -1
                       else if k.device.Some? && k.kind != kind then -2
                       else 0)
  {
    hide TableOk, TotalOpen, Find;
    OpensSign(k, dying);
    ReopenUndone(k.table, c, dying);
    AddOpenLaws(k.table, c, d, dying);
    AddOpenLaws(k.table, c, c, dying);
    if dying.Some? { AddOpenLaws(k.table, c, dying.value, dying); }
  }

  lemma OpenedLoads(k: Core, c: Client, kind: WorkType, link: int, dev: Option<nat>, dying: Option<Client>, name: string)
    requires CoreOk(k, dying)
    ensures TotalLoad(Opened(k, c, kind, link, dev).0.table, name) == TotalLoad(k.table, name)
  {
    ReopenUndone(k.table, c, dying);
    AddOpenLoads(k.table, c, name);
  }

  // A late close likewise, unless it is refused.
  lemma ClosedOk(k: Core, c: Client, dying: Option<Client>, d: Client)
    requires CoreOk(k, dying)
    ensures var (k', ret) := Closed(k, c);
            && (CoreOk(k', dying) <==> dying != Some(c) || ret != 0) && k'.working == k.working
            && (ret != 0 ==> k' == k)
            && (d != c ==> SameFor(k.table, k'.table, d))
            && (ret == 0 ==> OpenNum(k'.table, c) == OpenNum(k.table, c) - 1 && Known(k.table, c))
            && (k.device.Some? && k'.device != k.device ==>
                  k.working == 0 && k'.device.None? && (dying != Some(c) ==> k'.table == []))
            && (k.device.None? ==> k' == k)
            && (k'.device == k.device ==> k'.kind == k.kind)
            && (dying == Some(c) ==> (ret != 0 <==> k.opens == 1 && k.working != 0))
            && ret == (if !Known(k.table, c) then -3 else if k.opens == 1 && k.working != 0 then -2 else 0)
  {
    hide TableOk, TotalOpen, Find;
    OpensSign(k, dying);
    OpensTotalled(k.table, c, dying) by { CoreTable(k, dying); }
    if Known(k.table, c) {
      CloseDec(k, c, dying, d);
      CloseDec(k, c, dying, c);
      if dying.Some? { CloseDec(k, c, dying, dying.value); }
      if Closed(k, c).1 == 0 && dying != Some(c) { OpensSign(Closed(k, c).0, dying); }
    }
  }

  lemma CoreTable(k: Core, dying: Option<Client>)
    requires CoreOk(k, dying)
    ensures TableOk(k.table, dying)
  {
  }

  lemma CloseDec(k: Core, c: Client, dying: Option<Client>, d: Client)
    requires CoreOk(k, dying) && Known(k.table, c)
    ensures var t, t' := k.table, DecOpen(k.table, c);
            && (dying != Some(c) ==> TableOk(t', dying)) && TotalOpen(t') == TotalOpen(t) - 1
            && OpenNum(t', d) == OpenNum(t, d) - (if d == c then 1 else 0)
            && (d != c ==> SameFor(t, t', d))
            && (Known(t', c) <==> OpenNum(t, c) != 1)
  {
    hide TableOk, TotalOpen, Find;
    CoreTable(k, dying);
    DecOpenLaws(k.table, c, d, dying);
    DecOpenKnown(k.table, c, d, dying);
  }

  lemma DecOpenKnown(t: Table, c: Client, d: Client, dying: Option<Client>)
    requires TableOk(t, dying) && Known(t, c)
    ensures d != c ==> (Known(DecOpen(t, c), d) <==> Known(t, d))
    ensures Known(DecOpen(t, c), c) <==> OpenNum(t, c) != 1
  {
    if OpenNum(t, c) == 1 {
      WithoutLaws(t, c, d, dying, dying);
      WithoutLaws(t, c, c, dying, dying);
    } else {
      FindStays(t, DecOpen(t, c), d);
      FindStays(t, DecOpen(t, c), c);
    }
  }

  lemma ClosedLoads(k: Core, c: Client, dying: Option<Client>, name: string)
    requires CoreOk(k, dying)
    ensures 0 <= TotalLoad(Closed(k, c).0.table, name) <= TotalLoad(k.table, name)
    ensures OpenNum(k.table, c) != 1 || LoadsOf(k.table, c) == [] ==>
              TotalLoad(Closed(k, c).0.table, name) == TotalLoad(k.table, name)
  {
    hide TableOk, TotalOpen, Find, CoreOk, TotalLoad;
    CoreTable(k, dying);
    TotalLoadSign(k.table, name, dying);
    LoadsTotalled(k.table, c, name, dying);
    OpensTotalled(k.table, c, dying);
    if Known(k.table, c) {
      DecOpenLoads(k.table, c, name);
      DecOpenLaws(k.table, c, c, dying);
      TotalLoadSign(DecOpen(k.table, c), name, if OpenNum(k.table, c) == 1 && dying == Some(c) then None else dying);
    }
    FindNoLib(name);
  }

  // ---- loading and unloading ----

  // Rewriting the load records of one client touches no count of opens.
  lemma LoadsChanged(k: Core, c: Client, loads: seq<LoadLib>, dying: Option<Client>, d: Client)
    requires CoreOk(k, dying) && LoadsOk(loads, dying == Some(c))
    ensures var k' := k.(table := SetLoads(k.table, c, loads));
            && CoreOk(k', dying) && OpenNum(k'.table, d) == OpenNum(k.table, d)
            && (Known(k'.table, d) <==> Known(k.table, d)) && (d != c ==> SameFor(k.table, k'.table, d))
  {
    hide TableOk, TotalOpen, Find, LoadsOk;
    SetLoadsLaws(k.table, c, loads, d, dying, dying);
    if dying.Some? { SetLoadsLaws(k.table, c, loads, dying.value, dying, dying); }
  }

  lemma EntryLoadsOk(t: Table, c: Client, dying: Option<Client>)
    requires TableOk(t, dying)
    ensures LoadsOk(LoadsOf(t, c), dying == Some(c))
  {
    if Known(t, c) { assert EntryOk(t[Find(t, c)], dying); }
  }

  lemma AddLoadOk(k: Core, c: Client, name: string, dying: Option<Client>, d: Client)
    requires CoreOk(k, dying)
    ensures var k' := k.(table := AddLoad(k.table, c, name));
            && CoreOk(k', dying) && OpenNum(k'.table, d) == OpenNum(k.table, d)
            && (Known(k'.table, d) <==> Known(k.table, d)) && (d != c ==> SameFor(k.table, k'.table, d))
  {
    EntryLoadsOk(k.table, c, dying);
    IncLibLaws(LoadsOf(k.table, c), name, name, dying == Some(c));
    LoadsChanged(k, c, IncLib(LoadsOf(k.table, c), name), dying, d);
  }

  lemma AddLoadTotal(t: Table, c: Client, name: string, dying: Option<Client>, other: string)
    requires TableOk(t, dying)
    ensures TotalLoad(AddLoad(t, c, name), other)
            == TotalLoad(t, other) + (if other == name && Known(t, c) then 1 else 0)
  {
    EntryLoadsOk(t, c, dying);
    IncLibLaws(LoadsOf(t, c), name, other, dying == Some(c));
    if Known(t, c) { SetLoadsTotal(t, c, IncLib(LoadsOf(t, c), name), other); }
  }

  // A late unload of a library whose record the handler has set to zero leaves the count at -1.
  lemma DecLoadOk(k: Core, c: Client, name: string, dying: Option<Client>, d: Client)
    requires CoreOk(k, dying) && HasLib(LoadsOf(k.table, c), name)
    ensures var k' := k.(table := DecLoad(k.table, c, name));
            && (CoreOk(k', dying) <==> LoadNum(LoadsOf(k.table, c), name) >= 1)
            && OpenNum(k'.table, d) == OpenNum(k.table, d)
            && (Known(k'.table, d) <==> Known(k.table, d)) && (d != c ==> SameFor(k.table, k'.table, d))
    ensures dying != Some(c) ==> LoadNum(LoadsOf(k.table, c), name) >= 1
  {
    var loads := LoadsOf(k.table, c);
    EntryLoadsOk(k.table, c, dying);
    DecLibLaws(loads, name, name, dying == Some(c));
    LoadNumSign(loads, name, dying == Some(c));
    if LoadNum(loads, name) >= 1 {
      LoadsChanged(k, c, DecLib(loads, name), dying, d);
    } else {
      FindStays(k.table, DecLoad(k.table, c, name), d);
      var i := Find(k.table, c);
      assert !EntryOk(DecLoad(k.table, c, name)[i], dying);
    }
  }

  lemma DecLoadTotal(t: Table, c: Client, name: string, dying: Option<Client>, other: string)
    requires TableOk(t, dying) && HasLib(LoadsOf(t, c), name)
    ensures TotalLoad(DecLoad(t, c, name), other) == TotalLoad(t, other) - (if other == name then 1 else 0)
  {
    EntryLoadsOk(t, c, dying);
    DecLibLaws(LoadsOf(t, c), name, other, dying == Some(c));
    SetLoadsTotal(t, c, DecLib(LoadsOf(t, c), name), other);
  }

  // ---- the death of a client ----

  // Zeroing a client's records and erasing its entry both take its loads out of the total.
  lemma SilencedTotal(t: Table, c: Client, name: string)
    requires TableOk(t, None)
    ensures TotalLoad(Silenced(t, c), name) == TotalLoad(Without(t, c), name)
  {
    EntryLoadsOk(t, c, None);
    ZeroedLaws(LoadsOf(t, c), name);
    WithoutLoads(t, c, name);
    if Known(t, c) {
      SetLoadsTotal(t, c, Zeroed(LoadsOf(t, c)), name);
    } else {
      FindNoLib(name);
    }
  }

  lemma FindNoLib(name: string)
    ensures LoadNum([], name) == 0
  {
  }

  lemma SilencedOk(t: Table, c: Client, d: Client)
    requires TableOk(t, None)
    ensures TableOk(Silenced(t, c), Some(c)) && TotalOpen(Silenced(t, c)) == TotalOpen(t)
    ensures OpenNum(Silenced(t, c), d) == OpenNum(t, d) && (Known(Silenced(t, c), d) <==> Known(t, d))
    ensures d != c ==> SameFor(t, Silenced(t, c), d)
    ensures Without(Silenced(t, c), c) == Without(t, c)
  {
    EntryLoadsOk(t, c, None);
    ZeroedLaws(LoadsOf(t, c), "");
    SetLoadsLaws(t, c, Zeroed(LoadsOf(t, c)), d, None, Some(c));
    FindStays(t, Silenced(t, c), c);
  }

  // The effect of a handler that need not wait, its opens taken off the count: every open of c is given back.
  function Buried(k: Core, c: Client): Core {
    if k.opens == 0 then Core(Without(k.table, c), 0, k.working, None, MAXTYPE)
    else k.(table := Without(k.table, c))
  }

  // Once the client has no entry the remaining turns of the loop and ClearClientInfo change nothing.
  lemma {:induction false} RoundsEnd(k: Core, c: Client, left: nat)
    requires !Known(k.table, c)
    ensures Rounds(k, c, left) == (k, None)
  {
    if left > 0 { RoundsEnd(k, c, left - 1); }
  }

  // If a client's opens are what was found, the first turn gives all of them back.
  lemma GivenBackBuries(k: Core, c: Client, left: nat, dying: Option<Client>)
    requires TableOk(k.table, dying)
    ensures Rounds(GivenBack(k, c, OpenNum(k.table, c)), c, left) == (Buried(k, c), None)
  {
    DecTimesErases(k.table, c, dying);
    WithoutLaws(k.table, c, c, dying, dying);
    assert GivenBack(k, c, OpenNum(k.table, c)) == Buried(k, c);
    RoundsEnd(Buried(k, c), c, left);
  }

  lemma BuriedOk(k: Core, c: Client, dying: Option<Client>, d: Client)
    requires TableOk(k.table, dying) && Known(k.table, c) && (dying == Some(c) || dying == None)
    requires k.opens == TotalOpen(k.table) - OpenNum(k.table, c)
    requires k.device.Some?
    ensures var k' := Buried(k, c);
            && CoreOk(k', None) && !Known(k'.table, c) && (d != c ==> SameFor(k.table, k'.table, d))
            && k'.table == Without(k.table, c) && k'.working == k.working
            && (k'.device == k.device || (k'.device.None? && k'.table == []))
            && (k'.device == k.device ==> k'.kind == k.kind)
  {
    hide Find;
    WithoutLaws(k.table, c, d, dying, None);
    WithoutLaws(k.table, c, c, dying, None);
    TotalOpenSign(Without(k.table, c), None);
  }

  lemma DeathBegunOk(k: Core, c: Client, d: Client)
    requires CoreOk(k, None)
    ensures var (k', p) := DeathBegun(k, c);
            && CoreOk(k', if p.Some? then Some(c) else None) && k'.working == k.working
            && (p.Some? ==> k.working != 0) && (p.None? ==> !Known(k'.table, c))
            && (p.Some? ==> Known(k'.table, c) && p.value.count == OpenNum(k'.table, c) == OpenNum(k.table, c))
            && (d != c ==> SameFor(k.table, k'.table, d))
            && (k'.device == k.device || (k'.device.None? && k'.working == 0 && k'.table == []))
            && (k'.device == k.device ==> k'.kind == k.kind)
            && k'.table == (if p.Some? then Silenced(k.table, c) else Without(k.table, c))
  {
    hide Find, TableOk, TotalOpen, Without, Silenced, GivenBack;
    OpensTotalled(k.table, c, None);
    SilencedOk(k.table, c, d);
    SilencedOk(k.table, c, c);
    var n := OpenNum(k.table, c);
    var k1 := k.(table := Silenced(k.table, c), opens := k.opens - n);
    if n <= 0 {
      UnknownWithout(k.table, c);
    } else if !(k1.opens == 0 && k.working != 0) {
      OpensSign(k, None);
      BuriedOk(k1, c, Some(c), d);
      GivenBackBuries(k1, c, n - 1, Some(c));
    }
  }

  lemma UnknownWithout(t: Table, c: Client)
    requires !Known(t, c)
    ensures Without(t, c) == t
  {
  }

  lemma DeathResumedOk(k: Core, c: Client, p: Pause, d: Client)
    requires CoreOk(k, Some(c)) && p.count == OpenNum(k.table, c)
    ensures var (k', p') := DeathResumed(k, c, p);
            && CoreOk(k', if p'.Some? then Some(c) else None) && k'.working == k.working
            && (p'.Some? <==> k.working != 0) && (p'.Some? ==> k' == k && p'.value == p) && (p'.None? ==> !Known(k'.table, c))
            && (d != c ==> SameFor(k.table, k'.table, d))
            && (k'.device == k.device || (k'.device.None? && k'.working == 0 && k'.table == []))
            && (k'.device == k.device ==> k'.kind == k.kind)
            && k'.table == (if p'.Some? then k.table else Without(k.table, c))
  {
    hide Find, TableOk, TotalOpen, Without, Buried, GivenBack;
    OpensSign(k, Some(c));
    if k.working == 0 {
      var k1 := k.(opens := k.opens - 1);
      BuriedOk(k1, c, Some(c), d);
      GivenBackBuries(k1, c, p.left, Some(c));
      BuriedTable(k1, c);
    }
  }

  lemma BuriedTable(k: Core, c: Client)
    ensures Buried(k, c).table == Without(k.table, c)
  {
  }

  // A table without its dying client has no more loads, and the same if the client loaded nothing late.
  lemma BuriedTotal(t: Table, c: Client, name: string)
    requires TableOk(t, Some(c))
    ensures 0 <= TotalLoad(Without(t, c), name) <= TotalLoad(t, name)
    ensures LoadNum(LoadsOf(t, c), name) == 0 ==> TotalLoad(Without(t, c), name) == TotalLoad(t, name)
  {
    EntryLoadsOk(t, c, Some(c));
    LoadNumSign(LoadsOf(t, c), name, true);
    WithoutLoads(t, c, name);
    WithoutLaws(t, c, c, Some(c), None);
    TotalLoadSign(Without(t, c), name, None);
  }
}
