// BnVdspService as an object: each region of its methods that runs under mLock, with the loops over the
// client table, does what the functions of ServiceCore say.
module ServiceClass {
  import opened Bags
  import opened ServiceTables
  import opened ServiceCore

  class BnVdspService {
    var clientInfo: seq<ClientInfo>
    var openCount: int
    var working: int
    var device: Option<nat>
    var kind: WorkType

    ghost function Abs(): Core
      reads this
    {
      Core(clientInfo, openCount, working, device, kind)
    }

    constructor ()
      ensures Abs() == Fresh()
    {
      clientInfo, openCount, working, device, kind := [], 0, 0, None, MAXTYPE;
    }

    // ---- the table ----

    method GetClientOpenNum(c: Client) returns (n: int)
      ensures n == OpenNum(clientInfo, c)
    {
      var i := 0;
      while i < |clientInfo|
        invariant i <= |clientInfo| && forall j :: 0 <= j < i ==> clientInfo[j].client != c
      {
        if clientInfo[i].client == c {
          FindUnique(clientInfo, c, i);
          return clientInfo[i].opens;
        }
        i := i + 1;
      }
      n := 0;
    }

    method AddClientOpenNumber(c: Client, link: int) returns (ret: int)
      modifies this`clientInfo
      ensures ret == (if Known(old(clientInfo), c) then 0 else link)
      ensures clientInfo == (if ret == 0 then AddOpen(old(clientInfo), c) else old(clientInfo))
    {
      var i := 0;
      while i < |clientInfo|
        invariant i <= |clientInfo| && forall j :: 0 <= j < i ==> clientInfo[j].client != c
        invariant clientInfo == old(clientInfo)
      {
        if clientInfo[i].client == c {
          FindUnique(clientInfo, c, i);
          clientInfo := clientInfo[i := clientInfo[i].(opens := clientInfo[i].opens + 1)];
          return 0;
        }
        i := i + 1;
      }
      ret := link;
      if ret == 0 {
        clientInfo := clientInfo + [ClientInfo(c, 1, [])];
      }
    }

    method DecClientOpenNumber(c: Client) returns (ret: int)
      modifies this`clientInfo
      ensures clientInfo == DecOpen(old(clientInfo), c)
      ensures ret == (if Known(old(clientInfo), c) then 0 else -1)
    {
      var i := 0;
      while i < |clientInfo|
        invariant i <= |clientInfo| && forall j :: 0 <= j < i ==> clientInfo[j].client != c
        invariant clientInfo == old(clientInfo)
      {
        if clientInfo[i].client == c {
          FindUnique(clientInfo, c, i);
          var left := clientInfo[i].opens - 1;
          if left == 0 {
            clientInfo := clientInfo[..i] + clientInfo[i + 1..];
          } else {
            clientInfo := clientInfo[i := clientInfo[i].(opens := left)];
          }
          return 0;
        }
        i := i + 1;
      }
      ret := -1;
    }

    method ClearClientInfo(c: Client) returns (ret: int)
      modifies this`clientInfo
      ensures clientInfo == Without(old(clientInfo), c)
      ensures ret == (if Known(old(clientInfo), c) then 0 else -1)
    {
      var i := 0;
      while i < |clientInfo|
        invariant i <= |clientInfo| && forall j :: 0 <= j < i ==> clientInfo[j].client != c
        invariant clientInfo == old(clientInfo)
      {
        if clientInfo[i].client == c {
          FindUnique(clientInfo, c, i);
          clientInfo := clientInfo[..i] + clientInfo[i + 1..];
          return 0;
        }
        i := i + 1;
      }
      ret := -1;
    }

    method GetLoadNumTotalByName(name: string) returns (total: int)
      ensures total == TotalLoad(clientInfo, name)
    {
      total := 0;
      var i := 0;
      while i < |clientInfo|
        invariant i <= |clientInfo| && total == TotalLoad(clientInfo[..i], name)
      {
        var loads := clientInfo[i].loads;
        assert clientInfo[..i + 1] == clientInfo[..i] + [clientInfo[i]];
        TotalLoadAppend(clientInfo[..i], clientInfo[i], name);
        var j := 0;
        while j < |loads| && loads[j].name != name
          invariant j <= |loads| && forall l :: 0 <= l < j ==> loads[l].name != name
        {
          j := j + 1;
        }
        if j < |loads| {
          FindLibUnique(loads, name, j);
          total := total + loads[j].count;
        }
        i := i + 1;
      }
      assert clientInfo[..i] == clientInfo;
    }

    method AddClientLoadNumByName(name: string, c: Client) returns (ret: int)
      modifies this`clientInfo
      ensures clientInfo == AddLoad(old(clientInfo), c, name)
      ensures ret == (if Known(old(clientInfo), c) then 0 else -1)
    {
      var i := 0;
      while i < |clientInfo|
        invariant i <= |clientInfo| && forall j :: 0 <= j < i ==> clientInfo[j].client != c
        invariant clientInfo == old(clientInfo)
      {
        if clientInfo[i].client == c {
          FindUnique(clientInfo, c, i);
          var loads := clientInfo[i].loads;
          var j := 0;
          while j < |loads| && loads[j].name != name
            invariant j <= |loads| && forall l :: 0 <= l < j ==> loads[l].name != name
          {
            j := j + 1;
          }
          if j < |loads| {
            FindLibUnique(loads, name, j);
            loads := loads[j := loads[j].(count := loads[j].count + 1)];
          } else {
            loads := loads + [LoadLib(name, 1)];
          }
          clientInfo := clientInfo[i := clientInfo[i].(loads := loads)];
          return 0;
        }
        i := i + 1;
      }
      ret := -1;
    }

    method DecClientLoadNumByName(name: string, c: Client) returns (ret: int)
      requires Unique(clientInfo)
      modifies this`clientInfo
      ensures clientInfo == DecLoad(old(clientInfo), c, name)
      ensures ret == (if HasLib(LoadsOf(old(clientInfo), c), name) then 0 else -1)
    {
      var i := 0;
      while i < |clientInfo|
        invariant i <= |clientInfo| && clientInfo == old(clientInfo)
        invariant forall j :: 0 <= j < i && clientInfo[j].client == c ==> !HasLib(clientInfo[j].loads, name)
      {
        if clientInfo[i].client == c {
          FindUnique(clientInfo, c, i);
          var loads := clientInfo[i].loads;
          var j := 0;
          while j < |loads| && loads[j].name != name
            invariant j <= |loads| && forall l :: 0 <= l < j ==> loads[l].name != name
          {
            j := j + 1;
          }
          if j < |loads| {
            FindLibUnique(loads, name, j);
            var left := loads[j].count - 1;
            if left == 0 {
              loads := loads[..j] + loads[j + 1..];
            } else {
              loads := loads[j := loads[j].(count := left)];
            }
            clientInfo := clientInfo[i := clientInfo[i].(loads := loads)];
            return 0;
          }
        }
        i := i + 1;
      }
      NothingToDecrease(clientInfo, c, name);
      ret := -1;
    }

    // ---- opening, closing and single calls ----

    // link: what linkToDeath answers; dev: the new device if both devices can be opened.
    method OpenXrpDevice(c: Client, workType: WorkType, link: int, dev: Option<nat>) returns (ret: int)
      modifies this
      ensures (Abs(), ret) == Opened(old(Abs()), c, workType, link, dev)
    {
      ret := AddClientOpenNumber(c, link);
      if ret != 0 {
        return;
      }
      if openCount == 0 {
        device := dev;
        kind := workType;
        if device.Some? {
          openCount := openCount + 1;
        } else {
          kind := MAXTYPE;
          var _ := DecClientOpenNumber(c);
          return -1;
        }
      } else if kind == workType {
        openCount := openCount + 1;
      } else {
        var _ := DecClientOpenNumber(c);
        return -2;
      }
    }

    method CloseXrpDevice(c: Client) returns (ret: int)
      modifies this
      ensures (Abs(), ret) == Closed(old(Abs()), c)
    {
      var count := GetClientOpenNum(c);
      if count <= 0 {
        return -3;
      }
      openCount := openCount - 1;
      if openCount == 0 {
        if working != 0 {
          openCount := openCount + 1;
          return -2;
        }
        device, kind := None, MAXTYPE;
      }
      var _ := DecClientOpenNumber(c);
      ret := 0;
    }

    // The first region of sendXrpCommand and powerHint.
    method EnterCall(c: Client) returns (ok: bool)
      modifies this`working
      ensures ok == MayWork(old(Abs()), c)
      ensures ok <==> old(openCount) != 0 && OpenNum(old(Abs()).table, c) != 0
      ensures Abs() == if ok then Entered(old(Abs())) else old(Abs())
    {
      var count := GetClientOpenNum(c);
      ok := openCount != 0 && count != 0;
      if ok {
        working := working + 1;
      }
    }

    // The last region of sendXrpCommand, powerHint and unloadXrpLibrary.
    method LeaveCall()
      modifies this`working
      ensures Abs() == Left(old(Abs()))
    {
      working := working - 1;
    }

    method BeginLoad(c: Client, name: string) returns (way: Way)
      modifies this
      ensures (Abs(), way) == LoadBegun(old(Abs()), c, name)
    {
      var ok := EnterCall(c);
      if !ok {
        return Refused;
      }
      var total := GetLoadNumTotalByName(name);
      if total == 0 {
        return Calls;
      }
      var _ := AddClientLoadNumByName(name, c);
      working := working - 1;
      way := Done;
    }

    method FinishLoad(c: Client, name: string, result: int)
      modifies this
      ensures Abs() == LoadDone(old(Abs()), c, name, result == 0)
    {
      if result == 0 {
        var _ := AddClientLoadNumByName(name, c);
      }
      working := working - 1;
    }

    method BeginUnload(c: Client, name: string) returns (way: Way)
      requires Unique(clientInfo)
      modifies this
      ensures (Abs(), way) == UnloadBegun(old(Abs()), c, name)
    {
      var ok := EnterCall(c);
      if !ok {
        return Refused;
      }
      var ret := DecClientLoadNumByName(name, c);
      if ret != 0 {
        DecLibAbsent(old(clientInfo), c, name);
        working := working - 1;
        return Refused;
      }
      var total := GetLoadNumTotalByName(name);
      if total == 0 {
        return Calls;
      }
      working := working - 1;
      way := Done;
    }

    // ---- the death handler ----

    // unloadLibraryLoadByClient; unloaded lists the libraries the DSP is told to drop.
    method UnloadLibraryLoadByClient(c: Client) returns (unloaded: seq<string>)
      requires Unique(clientInfo)
      modifies this`clientInfo
      ensures clientInfo == Silenced(old(clientInfo), c)
      ensures forall n :: n in unloaded <==> n in SoleLibs(old(clientInfo), c)
    {
      unloaded := [];
      ghost var t := clientInfo;
      var i := 0;
      while i < |clientInfo|
        invariant i <= |clientInfo| == |t|
        invariant clientInfo == if Find(t, c) < i then Silenced(t, c) else t
        invariant forall n :: n in unloaded <==> Find(t, c) < i && n in SoleLibs(t, c)
      {
        if clientInfo[i].client == c {
          OnlyEntry(t, c, i);
          unloaded := ZeroRecords(c, i);
        }
        i := i + 1;
      }
    }

    // Its inner loop, over the records of one client.
    method ZeroRecords(c: Client, i: nat) returns (unloaded: seq<string>)
      requires Unique(clientInfo) && i < |clientInfo| && Find(clientInfo, c) == i
      modifies this`clientInfo
      ensures clientInfo == Silenced(old(clientInfo), c)
      ensures forall n :: n in unloaded <==> n in SoleLibs(old(clientInfo), c)
    {
      hide HalfSilenced, SetLoads, SoleAmong, SoleAt, Zeroed, TotalLoad, Without, Silenced, Unique, SoleLibs;
      unloaded := [];
      ghost var t := clientInfo;
      HalfSilencedEnds(t, c);
      SoleNone(t, c);
      var j := 0;
      while j < |clientInfo[i].loads|
        invariant |clientInfo| == |t| && |clientInfo[i].loads| == |t[i].loads|
        invariant j <= |t[i].loads| && clientInfo == HalfSilenced(t, c, j)
        invariant forall n :: n in unloaded <==> SoleAmong(t, c, j, n)
      {
        HalfSilencedNext(t, c, j);
        var loads := clientInfo[i].loads;
        var name := loads[j].name;
        clientInfo := clientInfo[i := clientInfo[i].(loads := loads[j := loads[j].(count := 0)])];
        var total := GetLoadNumTotalByName(name);
        PartlySilenced(t, c, j);
        SoleNext(t, c, j);
        InAppended(unloaded, name);
        if total == 0 {
          unloaded := unloaded + [name];
        }
        j := j + 1;
      }
      SoleLibsListed(t, c);
    }

    // closeXrpDevice_NoLock after its waiting: release the device if nobody has it open, then give back
    // count opens.
    method GiveBack(c: Client, count: int)
      modifies this
      ensures Abs() == GivenBack(old(Abs()), c, count)
    {
      if openCount == 0 {
        device, kind := None, MAXTYPE;
      }
      var i := 0;
      while i < count
        invariant count >= 0 ==> i <= count
        invariant DecTimes(clientInfo, c, count - i) == DecTimes(old(clientInfo), c, count)
        invariant openCount == old(openCount) && working == old(working)
        invariant device == (if openCount == 0 then None else old(device))
        invariant kind == (if openCount == 0 then MAXTYPE else old(kind))
      {
        var _ := DecClientOpenNumber(c);
        i := i + 1;
      }
    }

    // closeXrpDevice_NoLock up to its first unlock, or to its end.
    method CloseNoLock(c: Client) returns (ret: int, waiting: bool)
      modifies this
      ensures OpenNum(old(clientInfo), c) <= 0 ==> ret == -3 && !waiting && Abs() == old(Abs())
      ensures OpenNum(old(clientInfo), c) > 0 ==>
                var n := OpenNum(old(clientInfo), c);
                var k := old(Abs()).(opens := old(openCount) - n);
                && waiting == (k.opens == 0 && k.working != 0)
                && Abs() == if waiting then k.(opens := 1) else GivenBack(k, c, n)
    {
      var count := GetClientOpenNum(c);
      if count <= 0 {
        return -3, false;
      }
      ret := 0;
      openCount := openCount - count;
      waiting := openCount == 0 && working != 0;
      if waiting {
        openCount := openCount + 1;
      } else {
        GiveBack(c, count);
      }
    }

    // The loop of binderDied with left turns to go, then ClearClientInfo; or up to the first wait.
    method CloseAll(c: Client, left: nat) returns (pause: Option<Pause>)
      modifies this
      ensures (Abs(), pause) == Rounds(old(Abs()), c, left)
    {
      hide GivenBack, Without;
      var i := left;
      while i > 0
        invariant Rounds(Abs(), c, i) == Rounds(old(Abs()), c, left)
      {
        var count := GetClientOpenNum(c);
        var ret, waiting := CloseNoLock(c);
        i := i - 1;
        if waiting {
          return Some(Pause(count, i));
        }
      }
      var _ := ClearClientInfo(c);
      pause := None;
    }

    // binderDied from the moment it has mLock.
    method BinderDied(c: Client) returns (pause: Option<Pause>, unloaded: seq<string>)
      requires Unique(clientInfo)
      modifies this
      ensures (Abs(), pause) == DeathBegun(old(Abs()), c)
      ensures forall n :: n in unloaded <==> n in SoleLibs(old(clientInfo), c)
    {
      unloaded := UnloadLibraryLoadByClient(c);
      var count := GetClientOpenNum(c);
      pause := CloseAll(c, if count > 0 then count else 0);
    }

    // The waiting loop after it has slept and holds the locks again.
    method BinderDiedResume(c: Client, p: Pause) returns (pause: Option<Pause>)
      modifies this
      ensures (Abs(), pause) == DeathResumed(old(Abs()), c, p)
    {
      openCount := openCount - 1;
      if working != 0 {
        openCount := openCount + 1;
        return Some(p);
      }
      GiveBack(c, p.count);
      pause := CloseAll(c, p.left);
    }
  }

  // ---- lemmas for the loops ----

  lemma InAppended(names: seq<string>, name: string)
    ensures forall n :: n in names + [name] <==> n in names || n == name
  {
  }

  lemma NothingToDecrease(t: Table, c: Client, name: string)
    requires forall j :: 0 <= j < |t| && t[j].client == c ==> !HasLib(t[j].loads, name)
    ensures !HasLib(LoadsOf(t, c), name) && DecLoad(t, c, name) == t
  {
  }

  lemma DecLibAbsent(t: Table, c: Client, name: string)
    requires !HasLib(LoadsOf(t, c), name)
    ensures DecLoad(t, c, name) == t
  {
  }

  // Record l of client c is of library n, and no other client has it loaded.
  ghost predicate SoleAt(t: Table, c: Client, l: nat, n: string) {
    l < |LoadsOf(t, c)| && LoadsOf(t, c)[l].name == n && TotalLoad(Without(t, c), n) == 0
  }

  ghost predicate SoleAmong(t: Table, c: Client, j: nat, n: string) {
    exists l :: 0 <= l < j && SoleAt(t, c, l, n)
  }

  lemma SoleNone(t: Table, c: Client)
    ensures forall n :: !SoleAmong(t, c, 0, n)
  {
  }

  lemma SoleNext(t: Table, c: Client, j: nat)
    requires j < |LoadsOf(t, c)|
    ensures var name := LoadsOf(t, c)[j].name;
            forall n :: SoleAmong(t, c, j + 1, n) <==>
              SoleAmong(t, c, j, n) || (n == name && TotalLoad(Without(t, c), name) == 0)
  {
    forall n ensures SoleAmong(t, c, j + 1, n) <==> SoleAmong(t, c, j, n) || SoleAt(t, c, j, n) { }
  }

  lemma SoleLibsListed(t: Table, c: Client)
    ensures forall n :: n in SoleLibs(t, c) <==> SoleAmong(t, c, |LoadsOf(t, c)|, n)
  {
    forall n ensures n in SoleLibs(t, c) <==> SoleAmong(t, c, |LoadsOf(t, c)|, n) {
      if n in SoleLibs(t, c) {
        var l :| l in LoadsOf(t, c) && TotalLoad(Without(t, c), l.name) == 0 && l.name == n;
        var i :| 0 <= i < |LoadsOf(t, c)| && LoadsOf(t, c)[i] == l;
        assert SoleAt(t, c, i, n);
      }
    }
  }

  // The table with the first j records of c zeroed.
  ghost function HalfSilenced(t: Table, c: Client, j: nat): Table
    requires Known(t, c) && j <= |LoadsOf(t, c)|
  {
    SetLoads(t, c, Zeroed(LoadsOf(t, c)[..j]) + LoadsOf(t, c)[j..])
  }

  lemma HalfSilencedEnds(t: Table, c: Client)
    requires Known(t, c)
    ensures HalfSilenced(t, c, 0) == t && HalfSilenced(t, c, |LoadsOf(t, c)|) == Silenced(t, c)
  {
    var loads := LoadsOf(t, c);
    assert Zeroed(loads[..0]) + loads[0..] == loads;
    assert loads[..|loads|] == loads;
    assert Zeroed(loads) + loads[|loads|..] == Zeroed(loads);
  }

  lemma HalfSilencedNext(t: Table, c: Client, j: nat)
    requires Known(t, c) && j < |LoadsOf(t, c)|
    ensures var i := Find(t, c); var now := HalfSilenced(t, c, j);
            && |now| == |t| && |now[i].loads| == |t[i].loads| && now[i].loads[j] == t[i].loads[j]
            && now[i := now[i].(loads := now[i].loads[j := now[i].loads[j].(count := 0)])] == HalfSilenced(t, c, j + 1)
            && |HalfSilenced(t, c, j + 1)[i].loads| == |t[i].loads|
  {
    var loads := LoadsOf(t, c);
    var now := Zeroed(loads[..j]) + loads[j..];
    assert now[j := loads[j].(count := 0)] == Zeroed(loads[..j + 1]) + loads[j + 1..];
  }

  lemma OnlyEntry(t: Table, c: Client, i: nat)
    requires Unique(t) && i < |t|
    ensures t[i].client == c ==> Find(t, c) == i
    ensures Silenced(t, c) == t || (i < |Silenced(t, c)| && Silenced(t, c)[i].client == t[i].client)
  {
  }

  // With the records up to j zeroed, the total of record j's library is what other clients have loaded.
  lemma PartlySilenced(t: Table, c: Client, j: nat)
    requires Unique(t) && Known(t, c) && j < |LoadsOf(t, c)|
    ensures var name := LoadsOf(t, c)[j].name;
            TotalLoad(HalfSilenced(t, c, j + 1), name) == TotalLoad(Without(t, c), name)
  {
    var loads := LoadsOf(t, c);
    var now := Zeroed(loads[..j + 1]) + loads[j + 1..];
    assert UniqueLibs(loads);
    forall l | 0 <= l < |now| ensures now[l].name == loads[l].name { }
    FindLibUnique(now, loads[j].name, j);
    SetLoadsTotal(t, c, now, loads[j].name);
    WithoutLoads(t, c, loads[j].name);
  }
}
