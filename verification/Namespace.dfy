// The command namespace index of the DSP side: a growable array kept sorted by identifier, searched by
// halving, standing for a finite map.
module Namespace {

  type Byte = b: int | 0 <= b < 256

  const ID_SIZE := 32

  type Nsid = id: seq<Byte> | |id| == ID_SIZE witness seq(ID_SIZE, _ => 0)

  // A handler and its context.
  datatype Handler = Handler(code: nat, context: nat)

  datatype Entry = Entry(id: Nsid, handler: Handler)

  // ---- the order of identifiers ----

  // memcmp
  function Compare(a: seq<Byte>, b: seq<Byte>): int
    requires |a| == |b|
  {
    if a == [] then 0 else if a[0] != b[0] then a[0] - b[0] else Compare(a[1..], b[1..])
  }

  lemma {:induction false} CompareLaws(a: seq<Byte>, b: seq<Byte>)
    requires |a| == |b|
    ensures Compare(a, b) == 0 <==> a == b
    ensures Compare(b, a) == -Compare(a, b)
  {
    if a != [] {
      CompareLaws(a[1..], b[1..]);
      assert a == [a[0]] + a[1..] && b == [b[0]] + b[1..];
    }
  }

  lemma {:induction false} CompareTransitive(a: seq<Byte>, b: seq<Byte>, c: seq<Byte>)
    requires |a| == |b| == |c| && Compare(a, b) <= 0 && Compare(b, c) <= 0
    ensures Compare(a, c) <= 0 && (Compare(a, b) < 0 || Compare(b, c) < 0 ==> Compare(a, c) < 0)
  {
    if a != [] && a[0] == b[0] == c[0] { CompareTransitive(a[1..], b[1..], c[1..]); }
  }

  // ---- sorted tables and the map they stand for ----

  ghost predicate Sorted(s: seq<Entry>) {
    forall i, j :: 0 <= i < j < |s| ==> Compare(s[i].id, s[j].id) < 0
  }

  // The place of id: everything before it is smaller, nothing from it on is.
  ghost predicate IsPlace(s: seq<Entry>, id: Nsid, i: nat) {
    && i <= |s|
    && (forall j :: 0 <= j < i ==> Compare(s[j].id, id) < 0)
    && (forall j :: i <= j < |s| ==> Compare(s[j].id, id) >= 0)
  }

  ghost function AsMap(s: seq<Entry>): map<Nsid, Handler> {
    if s == [] then map[] else AsMap(s[..|s| - 1])[s[|s| - 1].id := s[|s| - 1].handler]
  }

  lemma {:induction false} AsMapKeys(s: seq<Entry>, id: Nsid)
    ensures id in AsMap(s) <==> exists i :: 0 <= i < |s| && s[i].id == id
  {
    if s != [] {
      var front := s[..|s| - 1];
      AsMapKeys(front, id);
      forall i | 0 <= i < |front| ensures front[i] == s[i] { }
    }
  }

  lemma {:induction false} AsMapAt(s: seq<Entry>, i: nat)
    requires Sorted(s) && i < |s|
    ensures s[i].id in AsMap(s) && AsMap(s)[s[i].id] == s[i].handler
  {
    CompareLaws(s[i].id, s[|s| - 1].id);
    if i < |s| - 1 { AsMapAt(s[..|s| - 1], i); }
  }

  // The entry of an identifier, if there is one, is at its place.
  lemma PlaceFinds(s: seq<Entry>, id: Nsid, i: nat)
    requires Sorted(s) && IsPlace(s, id, i)
    ensures id in AsMap(s) <==> i < |s| && s[i].id == id
  {
    hide Compare, AsMap;
    AsMapKeys(s, id);
    CompareLaws(id, id);
    if i < |s| { CompareLaws(s[i].id, id); }
  }

  function Inserted(s: seq<Entry>, i: nat, e: Entry): seq<Entry>
    requires i <= |s|
  {
    s[..i] + [e] + s[i..]
  }

  function Deleted(s: seq<Entry>, i: nat): seq<Entry>
    requires i < |s|
  {
    s[..i] + s[i + 1..]
  }

  lemma InsertedSorted(s: seq<Entry>, i: nat, e: Entry)
    requires Sorted(s) && IsPlace(s, e.id, i) && (i < |s| ==> s[i].id != e.id)
    ensures Sorted(Inserted(s, i, e))
  {
    forall j | i <= j < |s| ensures Compare(e.id, s[j].id) < 0 {
      CompareLaws(s[j].id, e.id);
      if j > i { CompareLaws(s[i].id, e.id); CompareTransitive(e.id, s[i].id, s[j].id); }
    }
  }

  lemma DeletedSorted(s: seq<Entry>, i: nat)
    requires Sorted(s) && i < |s|
    ensures Sorted(Deleted(s, i))
  {
  }

  lemma {:induction false} InsertedMap(s: seq<Entry>, i: nat, e: Entry)
    requires i <= |s| && Sorted(Inserted(s, i, e))
    ensures AsMap(Inserted(s, i, e)) == AsMap(s)[e.id := e.handler]
    decreases |s|
  {
    hide Compare;
    var t := Inserted(s, i, e);
    var n := |s|;
    if i == n {
      assert t[..n] == s;
    } else {
      assert t[..n] == Inserted(s[..n - 1], i, e);
      InsertedMap(s[..n - 1], i, e);
      assert t[i] == e && t[n] == s[n - 1];
      CompareLaws(e.id, s[n - 1].id);
      PutsCommute(AsMap(s[..n - 1]), e.id, e.handler, t[n].id, t[n].handler);
    }
  }

  lemma DeletedMap(s: seq<Entry>, i: nat)
    requires Sorted(s) && i < |s|
    ensures AsMap(Deleted(s, i)) == AsMap(s) - {s[i].id}
  {
    hide AsMap, Sorted;
    var t := Deleted(s, i);
    assert Inserted(t, i, s[i]) == s;
    InsertedMap(t, i, s[i]);
    DeletedGone(s, i);
    PutThenDrop(AsMap(t), s[i].id, s[i].handler);
  }

  lemma PutThenDrop(m: map<Nsid, Handler>, id: Nsid, h: Handler)
    requires id !in m
    ensures m[id := h] - {id} == m
  {
  }

  lemma PutsCommute(m: map<Nsid, Handler>, a: Nsid, g: Handler, b: Nsid, h: Handler)
    requires a != b
    ensures m[a := g][b := h] == m[b := h][a := g]
  {
  }

  lemma DeletedGone(s: seq<Entry>, i: nat)
    requires Sorted(s) && i < |s|
    ensures s[i].id !in AsMap(Deleted(s, i))
  {
    var t := Deleted(s, i);
    AsMapKeys(t, s[i].id);
    forall k | 0 <= k < |t| ensures t[k].id != s[i].id {
      var j := if k < i then k else k + 1;
      assert t[k] == s[j];
      CompareLaws(s[j].id, s[i].id);
    }
  }

  // A sorted table is determined by its map.
  lemma {:induction false} SortedUnique(s: seq<Entry>, t: seq<Entry>)
    requires Sorted(s) && Sorted(t) && AsMap(s) == AsMap(t)
    ensures s == t
  {
    if s == [] || t == [] {
      if s != [] { AsMapAt(s, 0); }
      if t != [] { AsMapAt(t, 0); }
    } else {
      var m, n := |s| - 1, |t| - 1;
      LastIsGreatest(s, t);
      LastIsGreatest(t, s);
      CompareLaws(s[m].id, t[n].id);
      CompareLaws(t[n].id, s[m].id);
      AsMapAt(s, m);
      AsMapAt(t, n);
      assert s[m] == t[n];
      DeletedMap(s, m);
      DeletedMap(t, n);
      assert Deleted(s, m) == s[..m] && Deleted(t, n) == t[..n];
      SortedUnique(s[..m], t[..n]);
    }
  }

  lemma LastIsGreatest(s: seq<Entry>, t: seq<Entry>)
    requires Sorted(s) && Sorted(t) && AsMap(s) == AsMap(t) && s != [] && t != []
    ensures Compare(s[|s| - 1].id, t[|t| - 1].id) <= 0
  {
    AsMapAt(s, |s| - 1);
    AsMapKeys(t, s[|s| - 1].id);
    var k :| 0 <= k < |t| && t[k].id == s[|s| - 1].id;
    if k == |t| - 1 { CompareLaws(t[k].id, t[k].id); }
  }

  // ---- the cost of the search ----

  // How often n entries can be halved, rounding up, until at most one is left.
  function Halvings(n: nat): nat {
    if n <= 1 then 0 else 1 + Halvings((n + 1) / 2)
  }

  function Pow2(k: nat): nat {
    if k == 0 then 1 else 2 * Pow2(k - 1)
  }

  // Halvings(n) is the logarithm of n to base 2, rounded up.
  lemma {:induction false} HalvingsIsLog(n: nat)
    requires n > 0
    ensures n <= Pow2(Halvings(n)) < 2 * n
  {
    if n > 1 {
      var m := (n + 1) / 2;
      assert 2 * m == n || 2 * m == n + 1;
      HalvingsIsLog(m);
      var power := Pow2(Halvings(m));
      assert Pow2(Halvings(n)) == 2 * power;
      if m > 1 { assert power == 2 * Pow2(Halvings(m) - 1); }
    }
  }

  lemma {:induction false} HalvingsMonotone(m: nat, n: nat)
    requires m <= n
    ensures Halvings(m) <= Halvings(n)
  {
    if m > 1 { HalvingsMonotone((m + 1) / 2, (n + 1) / 2); }
  }

  // ---- the index itself ----

  class CommandMap {
    var cmdNs: array<Entry>
    var count: nat

    ghost predicate Valid()
      reads this, cmdNs
    {
      count <= cmdNs.Length && Sorted(cmdNs[..count])
    }

    ghost function Table(): seq<Entry>
      requires count <= cmdNs.Length
      reads this, cmdNs
    {
      cmdNs[..count]
    }

    constructor ()
      ensures Valid() && Table() == [] && fresh(cmdNs)
    {
      cmdNs := new Entry[0];
      count := 0;
    }

    // xrp_find_cmd_ns: the place of id, found in at most ceil(log2(count)) comparisons of the loop.
    method Find(id: Nsid) returns (p: nat, ghost steps: nat)
      requires Valid()
      ensures IsPlace(Table(), id, p)
      ensures steps <= Halvings(count)
    {
      var a, b := 0, count;
      steps := 0;
      while b - a > 1
        invariant 0 <= a <= b <= count && (count > 0 ==> a < b)
        invariant a == 0 || Compare(id, cmdNs[a].id) >= 0
        invariant b == count || Compare(id, cmdNs[b].id) < 0
        invariant steps + Halvings(b - a) <= Halvings(count)
      {
        var c := (a + b) / 2;
        HalvingsMonotone(c - a, (b - a + 1) / 2);
        HalvingsMonotone(b - c, (b - a + 1) / 2);
        if Compare(id, cmdNs[c].id) < 0 {
          b := c;
        } else {
          a := c;
        }
        steps := steps + 1;
      }
      p := a;
      if a < b && Compare(id, cmdNs[a].id) > 0 {
        p := p + 1;
      }
      PlaceFound(Table(), id, a, b, p);
    }

    predicate Present(p: nat)
      reads this
    {
      p < count
    }

    // insert_cmd_ns up to the caller's filling of the gap. grown says whether realloc succeeds.
    method Insert(p: nat, e: Entry, grown: bool) returns (ok: bool)
      requires Valid() && p <= count
      modifies this, cmdNs
      ensures count <= cmdNs.Length
      ensures ok <==> old(count) < old(cmdNs.Length) || grown
      ensures Table() == if ok then Inserted(old(Table()), p, e) else old(Table())
      ensures cmdNs.Length == (if ok && old(count) == old(cmdNs.Length) then (old(cmdNs.Length) + 1) * 2 else old(cmdNs.Length))
      ensures cmdNs == old(cmdNs) || fresh(cmdNs)
    {
      if count == cmdNs.Length {
        if !grown {
          return false;
        }
        Grow(e);
      }
      ghost var table := Table();
      OpenGap(p);
      cmdNs[p] := e;
      count := count + 1;
      GapFilled(table, p, e, cmdNs[..]);
      assert Table() == cmdNs[..][..count];
      ok := true;
    }

    // realloc: a larger array with the same entries. The new room holds some entry.
    method Grow(filler: Entry)
      requires count <= cmdNs.Length
      modifies this`cmdNs
      ensures fresh(cmdNs) && cmdNs.Length == (old(cmdNs.Length) + 1) * 2 && Table() == old(Table())
    {
      var larger := new Entry[(cmdNs.Length + 1) * 2](i => filler);
      forall k | 0 <= k < count { larger[k] := cmdNs[k]; }
      cmdNs := larger;
    }

    // The memmove of insert_cmd_ns.
    method OpenGap(p: nat)
      requires p <= count < cmdNs.Length
      modifies cmdNs
      ensures cmdNs[..p] == old(cmdNs[..p]) && cmdNs[p + 1..count + 1] == old(cmdNs[p..count])
    {
      forall k | p < k <= count { cmdNs[k] := cmdNs[k - 1]; }
    }

    // remove_cmd_ns
    method Remove(p: nat)
      requires Valid() && p < count
      modifies this`count, cmdNs
      ensures count <= cmdNs.Length && Table() == Deleted(old(Table()), p)
    {
      forall k | p <= k < count - 1 { cmdNs[k] := cmdNs[k + 1]; }
      count := count - 1;
      assert Table() == Deleted(old(Table()), p);
    }

    // xrp_register_namespace: enters the identifier exactly if it is absent and memory suffices; an
    // identifier that is present keeps its handler.
    method Register(id: Nsid, handler: Handler, grown: bool) returns (ok: bool)
      requires Valid()
      modifies this, cmdNs
      ensures Valid() && (cmdNs == old(cmdNs) || fresh(cmdNs))
      ensures ok <==> id !in AsMap(old(Table())) && (old(count) < old(cmdNs.Length) || grown)
      ensures ok ==> AsMap(Table()) == AsMap(old(Table()))[id := handler] && count == old(count) + 1
      ensures !ok ==> Table() == old(Table())
    {
      ghost var steps;
      var p;
      p, steps := Find(id);
      PlaceFinds(Table(), id, p);
      if Present(p) && Compare(id, cmdNs[p].id) == 0 {
        CompareLaws(id, cmdNs[p].id);
        return false;
      }
      CompareLaws(id, id);
      InsertedSorted(Table(), p, Entry(id, handler));
      InsertedMap(Table(), p, Entry(id, handler));
      ok := Insert(p, Entry(id, handler), grown);
    }

    // xrp_unregister_namespace: removes the identifier exactly if it is present.
    method Unregister(id: Nsid) returns (ok: bool)
      requires Valid()
      modifies this`count, cmdNs
      ensures Valid()
      ensures ok <==> id in AsMap(old(Table()))
      ensures AsMap(Table()) == AsMap(old(Table())) - {id}
      ensures !ok ==> Table() == old(Table())
    {
      ghost var steps;
      var p;
      p, steps := Find(id);
      PlaceFinds(Table(), id, p);
      CompareLaws(id, id);
      if Present(p) && Compare(id, cmdNs[p].id) == 0 {
        CompareLaws(id, cmdNs[p].id);
        DeletedSorted(Table(), p);
        DeletedMap(Table(), p);
        Remove(p);
        return true;
      }
      ok := false;
    }
  }

  lemma GapFilled(table: seq<Entry>, p: nat, e: Entry, now: seq<Entry>)
    requires p <= |table| < |now| && now[..p] == table[..p] && now[p] == e
    requires now[p + 1..|table| + 1] == table[p..]
    ensures now[..|table| + 1] == Inserted(table, p, e)
  {
    assert now[..|table| + 1] == now[..p] + [now[p]] + now[p + 1..|table| + 1];
  }

  // What the search loop knows at its end puts p at the place of id.
  lemma PlaceFound(s: seq<Entry>, id: Nsid, a: nat, b: nat, p: nat)
    requires Sorted(s) && a <= b <= |s| && b - a <= 1 && (s != [] ==> a < b)
    requires a == 0 || a == |s| || Compare(id, s[a].id) >= 0
    requires b == |s| || Compare(id, s[b].id) < 0
    requires p == if a < b && Compare(id, s[a].id) > 0 then a + 1 else a
    ensures IsPlace(s, id, p)
  {
    forall j | 0 <= j < p ensures Compare(s[j].id, id) < 0 {
      CompareLaws(id, s[a].id);
      if j < a { CompareTransitive(s[j].id, s[a].id, id); }
    }
    forall j | p <= j < |s| ensures Compare(s[j].id, id) >= 0 {
      CompareLaws(id, s[j].id);
      if b < j {
        CompareTransitive(id, s[b].id, s[j].id);
      } else if j == b {
      } else {
        CompareLaws(id, s[a].id);
      }
    }
  }

  // ---- registering and unregistering ----

  ghost predicate Distinct<T>(s: seq<T>) {
    forall i, j :: 0 <= i < j < |s| ==> s[i] != s[j]
  }

  ghost function SetOf(ids: seq<Nsid>): set<Nsid> {
    set id <- ids
  }

  ghost function IdsOf(es: seq<Entry>): (ids: seq<Nsid>)
    ensures |ids| == |es| && forall i :: 0 <= i < |es| ==> ids[i] == es[i].id
  {
    seq(|es|, i requires 0 <= i < |es| => es[i].id)
  }

  // The entries of base, and besides them exactly these identifiers.
  ghost predicate Extends(m: map<Nsid, Handler>, base: map<Nsid, Handler>, ids: set<Nsid>) {
    m.Keys == base.Keys + ids && forall id <- base :: m[id] == base[id]
  }

  // Identifiers that are not in the table are registered one after the other, the array growing as needed:
  // every call succeeds, and the table has them and their handlers besides what it had.
  method RegisterAll(commands: CommandMap, es: seq<Entry>) returns (all: bool)
    requires commands.Valid() && Distinct(IdsOf(es)) && forall e <- es :: e.id !in AsMap(commands.Table())
    modifies commands, commands.cmdNs
    ensures commands.Valid() && (commands.cmdNs == old(commands.cmdNs) || fresh(commands.cmdNs))
    ensures all && Extends(AsMap(commands.Table()), AsMap(old(commands.Table())), SetOf(IdsOf(es)))
    ensures forall e <- es :: AsMap(commands.Table())[e.id] == e.handler
  {
    hide AsMap, Sorted;
    ghost var base := AsMap(commands.Table());
    all := true;
    var i := 0;
    while i < |es|
      invariant i <= |es| && all && commands.Valid() && (commands.cmdNs == old(commands.cmdNs) || fresh(commands.cmdNs))
      invariant Extends(AsMap(commands.Table()), base, set k | 0 <= k < i :: es[k].id)
      invariant forall k :: 0 <= k < i ==> AsMap(commands.Table())[es[k].id] == es[k].handler
    {
      assert es[i] in es && forall k :: 0 <= k < i ==> IdsOf(es)[k] != IdsOf(es)[i];
      var ok := commands.Register(es[i].id, es[i].handler, true);
      all := all && ok;
      i := i + 1;
    }
    assert SetOf(IdsOf(es)) == (set k | 0 <= k < i :: es[k].id) by {
      forall k | 0 <= k < |es| ensures es[k].id in IdsOf(es) { assert IdsOf(es)[k] == es[k].id; }
    }
  }

  // Identifiers that are in the table besides base are unregistered one after the other: every call succeeds
  // and the map is base again.
  method UnregisterAll(commands: CommandMap, ids: seq<Nsid>, ghost base: map<Nsid, Handler>) returns (all: bool)
    requires commands.Valid() && Distinct(ids) && Extends(AsMap(commands.Table()), base, SetOf(ids))
    requires base.Keys !! SetOf(ids)
    modifies commands, commands.cmdNs
    ensures commands.Valid() && all && AsMap(commands.Table()) == base
  {
    hide AsMap, Sorted, Extends, Distinct;
    all := true;
    var i := 0;
    assert ids[0..] == ids;
    while i < |ids|
      invariant i <= |ids| && all && commands.Valid() && commands.cmdNs == old(commands.cmdNs)
      invariant Extends(AsMap(commands.Table()), base, SetOf(ids[i..]))
    {
      OneLess(AsMap(commands.Table()), base, ids, i);
      var ok := commands.Unregister(ids[i]);
      all := all && ok;
      i := i + 1;
    }
    NoneLeft(AsMap(commands.Table()), base, ids[i..]);
  }

  lemma OneLess(m: map<Nsid, Handler>, base: map<Nsid, Handler>, ids: seq<Nsid>, i: nat)
    requires Distinct(ids) && i < |ids| && Extends(m, base, SetOf(ids[i..])) && base.Keys !! SetOf(ids)
    ensures ids[i] in m && Extends(m - {ids[i]}, base, SetOf(ids[i + 1..]))
  {
    assert ids[i] in ids[i..] && ids[i] in ids;
    assert ids[i..] == [ids[i]] + ids[i + 1..];
    assert ids[i] !in ids[i + 1..];
    assert SetOf(ids[i..]) == {ids[i]} + SetOf(ids[i + 1..]);
  }

  lemma NoneLeft(m: map<Nsid, Handler>, base: map<Nsid, Handler>, ids: seq<Nsid>)
    requires ids == [] && Extends(m, base, SetOf(ids))
    ensures m == base
  {
  }

  // Fresh identifiers that are registered and then unregistered in whatever order: every call succeeds and the
  // table is as it was, since a sorted table is determined by its map.
  method RegisterUnregisterRestores(commands: CommandMap, es: seq<Entry>, ids: seq<Nsid>) returns (all: bool)
    requires commands.Valid() && Distinct(IdsOf(es)) && forall e <- es :: e.id !in AsMap(commands.Table())
    requires Distinct(ids) && SetOf(ids) == SetOf(IdsOf(es))
    modifies commands, commands.cmdNs
    ensures commands.Valid() && all && commands.Table() == old(commands.Table())
  {
    hide AsMap, Sorted;
    ghost var table := commands.Table();
    var registered := RegisterAll(commands, es);
    forall id | id in ids ensures id !in AsMap(table) {
      assert id in SetOf(ids);
      assert id in IdsOf(es);
      var k :| 0 <= k < |es| && IdsOf(es)[k] == id;
      assert es[k] in es;
    }
    var unregistered := UnregisterAll(commands, ids, AsMap(table));
    ValidSorted(commands);
    SortedUnique(commands.Table(), table);
    all := registered && unregistered;
  }

  lemma ValidSorted(commands: CommandMap)
    requires commands.Valid()
    ensures Sorted(commands.Table())
  {
  }
}
