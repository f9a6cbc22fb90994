// The client table of the VDSP service: which client has the device open how often and has loaded which
// library how often.
module ServiceTables {
  import opened Bags

  type Client = nat

  datatype LoadLib = LoadLib(name: string, count: int)

  datatype ClientInfo = ClientInfo(client: Client, opens: int, loads: seq<LoadLib>)

  type Table = seq<ClientInfo>

  // ---- what the table means ----

  // The first entry of c, or the length of the table.
  function Find(t: Table, c: Client): (i: nat)
    ensures i <= |t| && (i < |t| ==> t[i].client == c) && (forall j :: 0 <= j < i ==> t[j].client != c)
  {
    if t == [] || t[0].client == c then 0 else 1 + Find(t[1..], c)
  }

  predicate Known(t: Table, c: Client) {
    Find(t, c) < |t|
  }

  function OpenNum(t: Table, c: Client): int {
    if Known(t, c) then t[Find(t, c)].opens else 0
  }

  function LoadsOf(t: Table, c: Client): seq<LoadLib> {
    if Known(t, c) then t[Find(t, c)].loads else []
  }

  function FindLib(loads: seq<LoadLib>, name: string): (i: nat)
    ensures i <= |loads| && (i < |loads| ==> loads[i].name == name)
    ensures forall j :: 0 <= j < i ==> loads[j].name != name
  {
    if loads == [] || loads[0].name == name then 0 else 1 + FindLib(loads[1..], name)
  }

  predicate HasLib(loads: seq<LoadLib>, name: string) {
    FindLib(loads, name) < |loads|
  }

  function LoadNum(loads: seq<LoadLib>, name: string): int {
    if HasLib(loads, name) then loads[FindLib(loads, name)].count else 0
  }

  function TotalOpen(t: Table): int {
    if t == [] then 0 else t[0].opens + TotalOpen(t[1..])
  }

  function TotalLoad(t: Table, name: string): int {
    if t == [] then 0 else LoadNum(t[0].loads, name) + TotalLoad(t[1..], name)
  }

  // Each library is recorded once, with a positive count. The death handler sets the counts to zero, and
  // calls of the dead client that are still under way start from there.
  ghost predicate LoadsOk(loads: seq<LoadLib>, late: bool) {
    && (forall i :: 0 <= i < |loads| ==> loads[i].count >= if late then 0 else 1)
    && (forall i, j :: 0 <= i < j < |loads| ==> loads[i].name != loads[j].name)
  }

  ghost predicate EntryOk(e: ClientInfo, dying: Option<Client>) {
    e.opens >= 1 && LoadsOk(e.loads, dying == Some(e.client))
  }

  // One entry per client, each with the device open.
  ghost predicate TableOk(t: Table, dying: Option<Client>) {
    && (forall i :: 0 <= i < |t| ==> EntryOk(t[i], dying))
    && (forall i, j :: 0 <= i < j < |t| ==> t[i].client != t[j].client)
  }

  // ---- how the service changes it ----

  function Removed<T>(s: seq<T>, i: nat): seq<T>
    requires i < |s|
  {
    s[..i] + s[i + 1..]
  }

  function AddOpen(t: Table, c: Client): Table {
    if Known(t, c) then t[Find(t, c) := t[Find(t, c)].(opens := OpenNum(t, c) + 1)] else t + [ClientInfo(c, 1, [])]
  }

  function Without(t: Table, c: Client): Table {
    if Known(t, c) then Removed(t, Find(t, c)) else t
  }

  // DecClientOpenNumber: the last close erases the entry with its load records.
  function DecOpen(t: Table, c: Client): Table {
    if !Known(t, c) then t
    else if OpenNum(t, c) == 1 then Without(t, c)
    else t[Find(t, c) := t[Find(t, c)].(opens := OpenNum(t, c) - 1)]
  }

  // n closes in a row.
  function DecTimes(t: Table, c: Client, n: int): Table
    decreases n
  {
    if n <= 0 then t else DecTimes(DecOpen(t, c), c, n - 1)
  }

  function SetLoads(t: Table, c: Client, loads: seq<LoadLib>): Table {
    if Known(t, c) then t[Find(t, c) := t[Find(t, c)].(loads := loads)] else t
  }

  function IncLib(loads: seq<LoadLib>, name: string): seq<LoadLib> {
    if HasLib(loads, name) then loads[FindLib(loads, name) := LoadLib(name, LoadNum(loads, name) + 1)]
    else loads + [LoadLib(name, 1)]
  }

  function DecLib(loads: seq<LoadLib>, name: string): seq<LoadLib> {
    if !HasLib(loads, name) then loads
    else if LoadNum(loads, name) == 1 then Removed(loads, FindLib(loads, name))
    else loads[FindLib(loads, name) := LoadLib(name, LoadNum(loads, name) - 1)]
  }

  function AddLoad(t: Table, c: Client, name: string): Table {
    SetLoads(t, c, IncLib(LoadsOf(t, c), name))
  }

  function DecLoad(t: Table, c: Client, name: string): Table {
    SetLoads(t, c, DecLib(LoadsOf(t, c), name))
  }

  function Zeroed(loads: seq<LoadLib>): (z: seq<LoadLib>)
    ensures |z| == |loads| && forall i :: 0 <= i < |loads| ==> z[i] == loads[i].(count := 0)
  {
    if loads == [] then [] else [loads[0].(count := 0)] + Zeroed(loads[1..])
  }

  // The table after unloadLibraryLoadByClient.
  function Silenced(t: Table, c: Client): Table {
    SetLoads(t, c, Zeroed(LoadsOf(t, c)))
  }

  // The libraries that client c has loaded and nobody else.
  ghost function SoleLibs(t: Table, c: Client): set<string> {
    set l <- LoadsOf(t, c) | TotalLoad(Without(t, c), l.name) == 0 :: l.name
  }

  // ---- laws of find and of the two sums ----

  lemma FindUnique(t: Table, c: Client, i: nat)
    requires i < |t| && t[i].client == c && forall j :: 0 <= j < i ==> t[j].client != c
    ensures Find(t, c) == i
  {
  }

  lemma FindNone(t: Table, c: Client)
    requires forall j :: 0 <= j < |t| ==> t[j].client != c
    ensures !Known(t, c)
  {
  }

  lemma {:induction false} TotalOpenUpdate(t: Table, i: nat, e: ClientInfo)
    requires i < |t|
    ensures TotalOpen(t[i := e]) == TotalOpen(t) - t[i].opens + e.opens
  {
    if i > 0 {
      TotalOpenUpdate(t[1..], i - 1, e);
      assert t[i := e][1..] == t[1..][i - 1 := e];
    }
  }

  lemma {:induction false} TotalOpenRemoved(t: Table, i: nat)
    requires i < |t|
    ensures TotalOpen(Removed(t, i)) == TotalOpen(t) - t[i].opens
  {
    if i > 0 {
      TotalOpenRemoved(t[1..], i - 1);
      assert Removed(t, i)[1..] == Removed(t[1..], i - 1);
    } else {
      assert Removed(t, 0) == t[1..];
    }
  }

  lemma {:induction false} TotalOpenAppend(t: Table, e: ClientInfo)
    ensures TotalOpen(t + [e]) == TotalOpen(t) + e.opens
  {
    if t != [] {
      TotalOpenAppend(t[1..], e);
      assert (t + [e])[1..] == t[1..] + [e];
    }
  }

  lemma {:induction false} TotalLoadUpdate(t: Table, i: nat, e: ClientInfo, name: string)
    requires i < |t|
    ensures TotalLoad(t[i := e], name) == TotalLoad(t, name) - LoadNum(t[i].loads, name) + LoadNum(e.loads, name)
  {
    if i > 0 {
      TotalLoadUpdate(t[1..], i - 1, e, name);
      assert t[i := e][1..] == t[1..][i - 1 := e];
    }
  }

  lemma {:induction false} TotalLoadRemoved(t: Table, i: nat, name: string)
    requires i < |t|
    ensures TotalLoad(Removed(t, i), name) == TotalLoad(t, name) - LoadNum(t[i].loads, name)
  {
    if i > 0 {
      TotalLoadRemoved(t[1..], i - 1, name);
      assert Removed(t, i)[1..] == Removed(t[1..], i - 1);
    } else {
      assert Removed(t, 0) == t[1..];
    }
  }

  lemma {:induction false} TotalLoadAppend(t: Table, e: ClientInfo, name: string)
    ensures TotalLoad(t + [e], name) == TotalLoad(t, name) + LoadNum(e.loads, name)
  {
    if t != [] {
      TotalLoadAppend(t[1..], e, name);
      assert (t + [e])[1..] == t[1..] + [e];
    }
  }

  // ---- laws of the load records of one client ----

  lemma LoadNumSign(loads: seq<LoadLib>, name: string, late: bool)
    requires LoadsOk(loads, late)
    ensures LoadNum(loads, name) >= 0
    ensures LoadNum(loads, name) > 0 ==> HasLib(loads, name)
    ensures HasLib(loads, name) && !late ==> LoadNum(loads, name) > 0
  {
  }

  lemma FindLibUnique(loads: seq<LoadLib>, name: string, i: nat)
    requires i < |loads| && loads[i].name == name && forall j :: 0 <= j < i ==> loads[j].name != name
    ensures FindLib(loads, name) == i
  {
  }

  lemma IncLibLaws(loads: seq<LoadLib>, name: string, other: string, late: bool)
    requires LoadsOk(loads, late)
    ensures LoadsOk(IncLib(loads, name), late)
    ensures LoadNum(IncLib(loads, name), other) == LoadNum(loads, other) + (if other == name then 1 else 0)
  {
    var j := FindLib(loads, other);
    if j < |loads| || other == name {
      FindLibUnique(IncLib(loads, name), other, j);
    }
  }

  // Taking one off a record that the death handler has set to zero is what leaves the records in disorder.
  lemma DecLibLaws(loads: seq<LoadLib>, name: string, other: string, late: bool)
    requires LoadsOk(loads, late) && HasLib(loads, name)
    ensures LoadsOk(DecLib(loads, name), late) <==> LoadNum(loads, name) >= 1
    ensures LoadNum(DecLib(loads, name), other) == LoadNum(loads, other) - (if other == name then 1 else 0)
  {
    var i := FindLib(loads, name);
    if LoadNum(loads, name) == 1 {
      hide Removed, LoadsOk;
      RemovedLib(loads, i, other, late);
    } else {
      LoweredLib(loads, i, other, late);
    }
  }

  lemma LoweredLib(loads: seq<LoadLib>, i: nat, other: string, late: bool)
    requires LoadsOk(loads, late) && i < |loads| && loads[i].count != 1
    ensures var after := loads[i := LoadLib(loads[i].name, loads[i].count - 1)];
            && (LoadsOk(after, late) <==> loads[i].count >= 1)
            && LoadNum(after, other) == LoadNum(loads, other) - (if other == loads[i].name then 1 else 0)
  {
    var after := loads[i := LoadLib(loads[i].name, loads[i].count - 1)];
    assert after[i].count == loads[i].count - 1;
    var j := FindLib(loads, other);
    if j < |loads| { FindLibUnique(after, other, j); }
  }

  lemma RemovedLib(loads: seq<LoadLib>, i: nat, other: string, late: bool)
    requires LoadsOk(loads, late) && i < |loads|
    ensures LoadsOk(Removed(loads, i), late)
    ensures LoadNum(Removed(loads, i), other) == if other == loads[i].name then 0 else LoadNum(loads, other)
  {
    hide Removed;
    var after := Removed(loads, i);
    RemovedLength(loads, i);
    forall k | 0 <= k < |after| ensures after[k] == loads[if k < i then k else k + 1] { RemovedAt(loads, i, k); }
    var j := FindLib(loads, other);
    if j < i {
      FindLibUnique(after, other, j);
    } else if i < j < |loads| {
      FindLibUnique(after, other, j - 1);
    }
  }

  lemma ZeroedLaws(loads: seq<LoadLib>, name: string)
    requires LoadsOk(loads, false)
    ensures LoadsOk(Zeroed(loads), true) && LoadNum(Zeroed(loads), name) == 0
  {
  }

  // ---- laws of the table ----

  lemma FindStays(t: Table, t': Table, d: Client)
    requires |t'| == |t| && forall i :: 0 <= i < |t| ==> t'[i].client == t[i].client
    ensures Find(t', d) == Find(t, d)
  {
    if Find(t, d) < |t| { FindUnique(t', d, Find(t, d)); }
  }

  lemma AddOpenLaws(t: Table, c: Client, d: Client, dying: Option<Client>)
    requires TableOk(t, dying)
    ensures TableOk(AddOpen(t, c), dying) && TotalOpen(AddOpen(t, c)) == TotalOpen(t) + 1
    ensures OpenNum(AddOpen(t, c), d) == OpenNum(t, d) + (if d == c then 1 else 0)
    ensures LoadsOf(AddOpen(t, c), d) == LoadsOf(t, d)
    ensures Known(AddOpen(t, c), d) <==> d == c || Known(t, d)
  {
    hide EntryOk, TotalOpen;
    if Known(t, c) {
      ReopenLaws(t, c, d, dying);
    } else {
      NewEntryLaws(t, c, d, dying);
    }
  }

  lemma ReopenLaws(t: Table, c: Client, d: Client, dying: Option<Client>)
    requires TableOk(t, dying) && Known(t, c)
    ensures var t' := t[Find(t, c) := t[Find(t, c)].(opens := OpenNum(t, c) + 1)];
            && TableOk(t', dying) && TotalOpen(t') == TotalOpen(t) + 1
            && OpenNum(t', d) == OpenNum(t, d) + (if d == c then 1 else 0)
            && LoadsOf(t', d) == LoadsOf(t, d) && (Known(t', d) <==> Known(t, d))
  {
    var e := t[Find(t, c)].(opens := OpenNum(t, c) + 1);
    TotalOpenUpdate(t, Find(t, c), e);
    FindStays(t, t[Find(t, c) := e], d);
  }

  lemma NewEntryLaws(t: Table, c: Client, d: Client, dying: Option<Client>)
    requires TableOk(t, dying) && !Known(t, c)
    ensures var t' := t + [ClientInfo(c, 1, [])];
            && TableOk(t', dying) && TotalOpen(t') == TotalOpen(t) + 1
            && OpenNum(t', d) == OpenNum(t, d) + (if d == c then 1 else 0)
            && LoadsOf(t', d) == LoadsOf(t, d) && (Known(t', d) <==> d == c || Known(t, d))
  {
    var e := ClientInfo(c, 1, []);
    TotalOpenAppend(t, e);
    if Known(t, d) {
      FindUnique(t + [e], d, Find(t, d));
    } else if d == c {
      FindUnique(t + [e], c, |t|);
    } else {
      FindNone(t + [e], d);
    }
  }

  lemma AddOpenLoads(t: Table, c: Client, name: string)
    ensures TotalLoad(AddOpen(t, c), name) == TotalLoad(t, name)
  {
    if Known(t, c) {
      TotalLoadUpdate(t, Find(t, c), t[Find(t, c)].(opens := OpenNum(t, c) + 1), name);
    } else {
      TotalLoadAppend(t, ClientInfo(c, 1, []), name);
    }
  }

  lemma RemovedAt<T>(s: seq<T>, i: nat, k: nat)
    requires i < |s| && k < |s| - 1
    ensures Removed(s, i)[k] == s[if k < i then k else k + 1]
  {
  }

  lemma RemovedOk(t: Table, i: nat, dying: Option<Client>, dying': Option<Client>)
    requires TableOk(t, dying) && i < |t|
    requires dying' == dying || (dying == Some(t[i].client) && dying' == None)
    ensures TableOk(Removed(t, i), dying')
  {
    hide Removed;
    RemovedLength(t, i);
    forall k | 0 <= k < |t| - 1 ensures EntryOk(Removed(t, i)[k], dying') {
      RemovedAt(t, i, k);
      var j := if k < i then k else k + 1;
      assert EntryOk(t[j], dying) && t[j].client != t[i].client;
    }
    forall k, l | 0 <= k < l < |t| - 1 ensures Removed(t, i)[k].client != Removed(t, i)[l].client {
      RemovedAt(t, i, k);
      RemovedAt(t, i, l);
    }
  }

  lemma RemovedLength<T>(s: seq<T>, i: nat)
    requires i < |s|
    ensures |Removed(s, i)| == |s| - 1
  {
  }

  lemma RemovedFind(t: Table, c: Client, d: Client)
    requires Known(t, c) && forall i, j :: 0 <= i < j < |t| ==> t[i].client != t[j].client
    ensures var t' := Removed(t, Find(t, c));
            if d == c then !Known(t', d)
            else if Known(t, d) then Known(t', d) && t'[Find(t', d)] == t[Find(t, d)]
            else !Known(t', d)
  {
    hide Removed, EntryOk;
    var i, j := Find(t, c), Find(t, d);
    var after := Removed(t, i);
    RemovedLength(t, i);
    forall k | 0 <= k < |after| ensures after[k] == t[if k < i then k else k + 1] { RemovedAt(t, i, k); }
    if j < i {
      FindUnique(after, d, j);
    } else if i < j < |t| {
      FindUnique(after, d, j - 1);
    } else {
      FindNone(after, d);
    }
  }

  lemma WithoutLaws(t: Table, c: Client, d: Client, dying: Option<Client>, dying': Option<Client>)
    requires TableOk(t, dying) && (dying' == dying || (dying == Some(c) && dying' == None))
    ensures TableOk(Without(t, c), dying') && TotalOpen(Without(t, c)) == TotalOpen(t) - OpenNum(t, c)
    ensures OpenNum(Without(t, c), d) == (if d == c then 0 else OpenNum(t, d))
    ensures LoadsOf(Without(t, c), d) == (if d == c then [] else LoadsOf(t, d))
    ensures Known(Without(t, c), d) <==> d != c && Known(t, d)
  {
    if Known(t, c) {
      hide Removed, TotalOpen, EntryOk;
      RemovedOk(t, Find(t, c), dying, dying');
      RemovedFind(t, c, d);
      TotalOpenRemoved(t, Find(t, c));
    } else if dying == Some(c) {
      forall k | 0 <= k < |t| ensures t[k].client != c { }
    }
  }

  lemma WithoutLoads(t: Table, c: Client, name: string)
    ensures TotalLoad(Without(t, c), name) == TotalLoad(t, name) - LoadNum(LoadsOf(t, c), name)
  {
    if Known(t, c) { TotalLoadRemoved(t, Find(t, c), name); }
  }

  lemma DecOpenLaws(t: Table, c: Client, d: Client, dying: Option<Client>)
    requires TableOk(t, dying) && Known(t, c)
    ensures TableOk(DecOpen(t, c), if OpenNum(t, c) == 1 && dying == Some(c) then None else dying)
    ensures TotalOpen(DecOpen(t, c)) == TotalOpen(t) - 1
    ensures OpenNum(DecOpen(t, c), d) == OpenNum(t, d) - (if d == c then 1 else 0)
    ensures LoadsOf(DecOpen(t, c), d) == (if d == c && OpenNum(t, c) == 1 then [] else LoadsOf(t, d))
  {
    if OpenNum(t, c) == 1 {
      WithoutLaws(t, c, d, dying, if dying == Some(c) then None else dying);
    } else {
      var i := Find(t, c);
      TotalOpenUpdate(t, i, t[i].(opens := OpenNum(t, c) - 1));
      FindStays(t, DecOpen(t, c), d);
    }
  }

  lemma DecOpenLoads(t: Table, c: Client, name: string)
    requires Known(t, c)
    ensures TotalLoad(DecOpen(t, c), name)
            == TotalLoad(t, name) - (if OpenNum(t, c) == 1 then LoadNum(LoadsOf(t, c), name) else 0)
  {
    if OpenNum(t, c) == 1 {
      WithoutLoads(t, c, name);
    } else {
      TotalLoadUpdate(t, Find(t, c), t[Find(t, c)].(opens := OpenNum(t, c) - 1), name);
    }
  }

  lemma SetLoadsLaws(t: Table, c: Client, loads: seq<LoadLib>, d: Client, dying: Option<Client>, dying': Option<Client>)
    requires TableOk(t, dying) && LoadsOk(loads, dying' == Some(c))
    requires dying' == dying || (dying == None && dying' == Some(c))
    ensures TableOk(SetLoads(t, c, loads), dying') && TotalOpen(SetLoads(t, c, loads)) == TotalOpen(t)
    ensures OpenNum(SetLoads(t, c, loads), d) == OpenNum(t, d)
    ensures LoadsOf(SetLoads(t, c, loads), d) == (if d == c && Known(t, c) then loads else LoadsOf(t, d))
    ensures Known(SetLoads(t, c, loads), d) <==> Known(t, d)
  {
    if Known(t, c) {
      var i := Find(t, c);
      TotalOpenUpdate(t, i, t[i].(loads := loads));
      FindStays(t, SetLoads(t, c, loads), d);
    } else {
      forall k | 0 <= k < |t| ensures t[k].client != c { }
    }
  }

  lemma SetLoadsTotal(t: Table, c: Client, loads: seq<LoadLib>, name: string)
    requires Known(t, c)
    ensures TotalLoad(SetLoads(t, c, loads), name)
            == TotalLoad(t, name) - LoadNum(LoadsOf(t, c), name) + LoadNum(loads, name)
  {
    TotalLoadUpdate(t, Find(t, c), t[Find(t, c)].(loads := loads), name);
  }

  lemma {:induction false} TotalLoadSign(t: Table, name: string, dying: Option<Client>)
    requires TableOk(t, dying)
    ensures TotalLoad(t, name) >= 0
  {
    if t != [] {
      assert EntryOk(t[0], dying);
      LoadNumSign(t[0].loads, name, dying == Some(t[0].client));
      TotalLoadSign(t[1..], name, dying);
    }
  }

  // A client's own loads are part of the total.
  lemma LoadsTotalled(t: Table, c: Client, name: string, dying: Option<Client>)
    requires TableOk(t, dying)
    ensures 0 <= LoadNum(LoadsOf(t, c), name) <= TotalLoad(t, name)
  {
    if Known(t, c) {
      assert EntryOk(t[Find(t, c)], dying);
      LoadNumSign(LoadsOf(t, c), name, dying == Some(c));
    }
    WithoutLoads(t, c, name);
    WithoutLaws(t, c, c, dying, dying);
    TotalLoadSign(Without(t, c), name, dying);
  }

  lemma {:induction false} TotalOpenSign(t: Table, dying: Option<Client>)
    requires TableOk(t, dying)
    ensures TotalOpen(t) >= |t|
  {
    if t != [] {
      assert EntryOk(t[0], dying);
      TotalOpenSign(t[1..], dying);
    }
  }

  // A client's own opens are part of the total.
  lemma OpensTotalled(t: Table, c: Client, dying: Option<Client>)
    requires TableOk(t, dying)
    ensures 0 <= OpenNum(t, c) <= TotalOpen(t) && (OpenNum(t, c) == 0 <==> !Known(t, c))
  {
    if Known(t, c) { assert EntryOk(t[Find(t, c)], dying); }
    WithoutLaws(t, c, c, dying, dying);
    TotalOpenSign(Without(t, c), dying);
  }

  // As many closes as a client has opens erase its entry.
  lemma {:induction false} DecTimesErases(t: Table, c: Client, dying: Option<Client>)
    requires TableOk(t, dying)
    ensures DecTimes(t, c, OpenNum(t, c)) == Without(t, c)
    decreases OpenNum(t, c)
  {
    OpensTotalled(t, c, dying);
    if OpenNum(t, c) > 1 {
      var t' := DecOpen(t, c);
      DecOpenLaws(t, c, c, dying);
      DecTimesErases(t', c, dying);
      FindStays(t, t', c);
      assert Without(t', c) == Without(t, c);
    } else if OpenNum(t, c) == 1 {
      assert DecTimes(Without(t, c), c, 0) == Without(t, c);
    }
  }

  // ---- no client has two entries ----

  // No client has two entries and no client has two records of one library.
  ghost predicate Unique(t: Table) {
    && (forall i, j :: 0 <= i < j < |t| ==> t[i].client != t[j].client)
    && (forall i :: 0 <= i < |t| ==> UniqueLibs(t[i].loads))
  }

  ghost predicate UniqueLibs(loads: seq<LoadLib>) {
    forall i, j :: 0 <= i < j < |loads| ==> loads[i].name != loads[j].name
  }

  lemma UniqueNames(loads: seq<LoadLib>, loads': seq<LoadLib>)
    requires UniqueLibs(loads) && |loads'| == |loads| && forall i :: 0 <= i < |loads| ==>
               loads'[i].name == loads[i].name
    ensures UniqueLibs(loads')
  {
  }

  lemma UniqueRemoved(loads: seq<LoadLib>, i: nat)
    requires UniqueLibs(loads) && i < |loads|
    ensures UniqueLibs(Removed(loads, i))
  {
    hide Removed;
    RemovedLength(loads, i);
    forall k | 0 <= k < |loads| - 1 ensures Removed(loads, i)[k] == loads[if k < i then k else k + 1] { RemovedAt(loads, i, k); }
  }

  lemma UniqueIncDec(loads: seq<LoadLib>, name: string)
    requires UniqueLibs(loads)
    ensures UniqueLibs(IncLib(loads, name)) && UniqueLibs(DecLib(loads, name)) && UniqueLibs(Zeroed(loads))
  {
    hide Removed;
    UniqueNames(loads, Zeroed(loads));
    if HasLib(loads, name) {
      UniqueNames(loads, IncLib(loads, name));
      UniqueRemoved(loads, FindLib(loads, name));
      if LoadNum(loads, name) != 1 { UniqueNames(loads, DecLib(loads, name)); }
    }
  }

  // Every change of the table keeps its entries and records apart.
  lemma UniqueSetLoads(t: Table, c: Client, loads: seq<LoadLib>)
    requires Unique(t) && UniqueLibs(loads)
    ensures Unique(SetLoads(t, c, loads))
  {
  }

  lemma UniqueLoadsOf(t: Table, c: Client)
    requires Unique(t)
    ensures UniqueLibs(LoadsOf(t, c))
  {
  }

  lemma UniqueAddOpen(t: Table, c: Client)
    requires Unique(t)
    ensures Unique(AddOpen(t, c))
  {
  }

  lemma UniqueWithout(t: Table, c: Client)
    requires Unique(t)
    ensures Unique(Without(t, c))
  {
    hide Removed;
    if Known(t, c) {
      var i := Find(t, c);
      RemovedLength(t, i);
      forall k | 0 <= k < |t| - 1 ensures Removed(t, i)[k] == t[if k < i then k else k + 1] { RemovedAt(t, i, k); }
    }
  }

  lemma UniqueDecOpen(t: Table, c: Client)
    requires Unique(t)
    ensures Unique(DecOpen(t, c))
  {
    hide Without;
    UniqueWithout(t, c);
  }

  lemma {:induction false} UniqueDecTimes(t: Table, c: Client, n: int)
    requires Unique(t)
    ensures Unique(DecTimes(t, c, n))
    decreases n
  {
    hide Unique, DecOpen;
    if n > 0 {
      UniqueDecOpen(t, c);
      UniqueDecTimes(DecOpen(t, c), c, n - 1);
    }
  }

  // ---- nobody is added but by an open ----

  lemma RemovedFrom(t: Table, i: nat, d: Client)
    requires i < |t|
    ensures Known(Removed(t, i), d) ==> Known(t, d)
  {
    hide Removed;
    RemovedLength(t, i);
    forall j | 0 <= j < |t| - 1 ensures Removed(t, i)[j] == t[if j < i then j else j + 1] { RemovedAt(t, i, j); }
    if Known(Removed(t, i), d) {
      var j := Find(Removed(t, i), d);
      assert t[if j < i then j else j + 1].client == d;
    }
  }

  lemma WithoutFrom(t: Table, c: Client, d: Client)
    requires Unique(t)
    ensures Known(Without(t, c), d) ==> Known(t, d) && d != c
  {
    if Known(t, c) {
      RemovedFrom(t, Find(t, c), d);
      FindNone(Removed(t, Find(t, c)), c);
    }
  }

  lemma DecOpenFrom(t: Table, c: Client, d: Client)
    requires Unique(t)
    ensures Known(DecOpen(t, c), d) ==> Known(t, d)
  {
    if Known(t, c) && OpenNum(t, c) != 1 {
      FindStays(t, DecOpen(t, c), d);
    } else {
      WithoutFrom(t, c, d);
    }
  }

  lemma {:induction false} DecTimesFrom(t: Table, c: Client, n: int, d: Client)
    requires Unique(t)
    ensures Known(DecTimes(t, c, n), d) ==> Known(t, d)
    decreases n
  {
    hide Unique, Known, DecOpen;
    if n > 0 {
      UniqueDecOpen(t, c);
      DecTimesFrom(DecOpen(t, c), c, n - 1, d);
      DecOpenFrom(t, c, d);
    }
  }

  lemma SetLoadsFrom(t: Table, c: Client, loads: seq<LoadLib>, d: Client)
    ensures Known(SetLoads(t, c, loads), d) <==> Known(t, d)
  {
    if Known(t, c) { FindStays(t, SetLoads(t, c, loads), d); }
  }

  lemma AddOpenFrom(t: Table, c: Client, d: Client)
    ensures Known(AddOpen(t, c), d) ==> Known(t, d) || d == c
  {
    if Known(t, c) {
      FindStays(t, AddOpen(t, c), d);
    } else if Known(AddOpen(t, c), d) && d != c {
      assert Find(AddOpen(t, c), d) < |t|;
    }
  }
}
