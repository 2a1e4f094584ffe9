/** Declaring tables (pd/src/replicated.rs, `PdFsm::declare_table`): each gets the next id and a region of its
    own, carved off the end of the keyspace. */
module Tables {
  import opened Basics
  import opened ByteOrder
  import opened Regions

  datatype Regime = Cp | Ap

  datatype TableEntry = TableEntry(id: nat, name: string, regime: Regime)

  datatype Fsm = Fsm(catalog: seq<TableEntry>, nextTableId: nat, regions: Table, version: nat)

  const DEFAULT: string := "default"
  const PREFIX_LEN: nat := 4
  const MAX_ID: nat := 0xffff_ffff

  const FRESH: Fsm := Fsm([TableEntry(0, DEFAULT, Cp)], 1, WHOLE, 1)

  function TablePrefix(id: nat): Bytes { Be(id, PREFIX_LEN) }

  function TableKey(id: nat, k: Bytes): Bytes { TablePrefix(id) + k }

  /** `table_id_of`: what a stored key's prefix says. */
  function TableIdOf(stored: Bytes): nat { if |stored| < PREFIX_LEN then 0 else FromBe(stored[..PREFIX_LEN]) }

  function StripPrefix(stored: Bytes): Bytes { if |stored| < PREFIX_LEN then [] else stored[PREFIX_LEN..] }

  predicate Declared(catalog: seq<TableEntry>, name: string) { exists t | t in catalog :: t.name == name }

  function Declare(f: Fsm, name: string, regime: Regime): Fsm {
    if name == "" || name == DEFAULT || Declared(f.catalog, name) || f.nextTableId == MAX_ID then f
    else Fsm(f.catalog + [TableEntry(f.nextTableId, name, regime)], f.nextTableId + 1,
             Split(f.regions, TablePrefix(f.nextTableId)), f.version + 1)
  }

  datatype Declaration = Declaration(name: string, regime: Regime)

  function DeclareAll(f: Fsm, log: seq<Declaration>): Fsm {
    if log == [] then f
    else var e := log[|log| - 1]; Declare(DeclareAll(f, log[..|log| - 1]), e.name, e.regime)
  }

  // ---- keys and prefixes -------------------------------------------------------------------

  lemma KeyRoundTrip(id: nat, k: Bytes)
    requires id <= MAX_ID
    ensures TableIdOf(TableKey(id, k)) == id && StripPrefix(TableKey(id, k)) == k
  {
    assert Pow256(4) == 0x1_0000_0000 by { assert Pow256(3) == 0x100_0000 by { assert Pow256(2) == 0x1_0000; } }
    BeRoundTrip(id, PREFIX_LEN);
    assert TableKey(id, k)[..PREFIX_LEN] == TablePrefix(id);
  }

  lemma PrefixOrder(i: nat, j: nat, x: Bytes, y: Bytes)
    requires i < j <= MAX_ID
    ensures Lt(TablePrefix(i) + x, TablePrefix(j) + y)
  {
    assert Pow256(4) == 0x1_0000_0000 by { assert Pow256(3) == 0x100_0000 by { assert Pow256(2) == 0x1_0000; } }
    BeOrder(i, j, PREFIX_LEN, x, y);
  }

  // ---- one region per table -------------------------------------------------------------------

  /** Region `i` is table `i`'s: its id, its start at the table's prefix, its end at the next one's. */
  ghost predicate RegionOf(f: Fsm, i: nat) {
    i < f.nextTableId && i < |f.regions.regions| ==>
      var r := f.regions.regions[i];
      && r.id == i + 1
      && r.start == (if i == 0 then [] else TablePrefix(i))
      && r.end == (if i == f.nextTableId - 1 then [] else TablePrefix(i + 1))
  }

  ghost predicate Carved(f: Fsm) {
    && 0 < f.nextTableId <= MAX_ID && |f.catalog| == f.nextTableId && |f.regions.regions| == f.nextTableId
    && f.regions.nextId == f.nextTableId + 1
    && (forall i: nat | i < |f.catalog| :: f.catalog[i].id == i)
    && (forall i: nat, j: nat | i < j < |f.catalog| :: f.catalog[i].name != f.catalog[j].name)
    && (forall i: nat {:trigger RegionOf(f, i)} :: RegionOf(f, i))
  }

  lemma CarvedMeets(f: Fsm, i: nat)
    requires Carved(f)
    ensures Meets(f.regions.regions, i)
  {
    assert RegionOf(f, i) && RegionOf(f, i + 1);
    if 0 < i < f.nextTableId - 1 {
      PrefixOrder(i, i + 1, [], []);
      assert TablePrefix(i) + [] == TablePrefix(i) && TablePrefix(i + 1) + [] == TablePrefix(i + 1);
    }
  }

  lemma CarvedTiles(f: Fsm)
    requires Carved(f)
    ensures Tiled(f.regions.regions)
  {
    var rs := f.regions.regions;
    assert RegionOf(f, 0) && RegionOf(f, |rs| - 1);
    forall i: nat ensures Meets(rs, i) { CarvedMeets(f, i); }
  }

  /** A stored key lies in its table's region. */
  lemma KeyInRegion(f: Fsm, i: nat, k: Bytes)
    requires Carved(f) && i < f.nextTableId
    ensures Contains(f.regions.regions[i], TableKey(i, k))
  {
    assert RegionOf(f, i);
    PrefixLe(TablePrefix(i), k);
    if i < f.nextTableId - 1 {
      PrefixOrder(i, i + 1, k, []);
      assert TablePrefix(i + 1) + [] == TablePrefix(i + 1);
    }
  }

  /** The new table's prefix falls in the last region, strictly inside. */
  lemma TailIsCut(f: Fsm)
    requires Carved(f) && f.nextTableId < MAX_ID
    ensures var rs := f.regions.regions; var p := TablePrefix(f.nextTableId);
      Home(rs, p, 0) == |rs| - 1 && !Le(p, rs[|rs| - 1].start)
  {
    var rs := f.regions.regions;
    var n := f.nextTableId;
    var p := TablePrefix(n);
    assert RegionOf(f, n - 1);
    var last := rs[n - 1].start;
    if n > 1 {
      PrefixOrder(n - 1, n, [], []);
      assert TablePrefix(n - 1) + [] == last && p + [] == p;
    }
    assert Lt(last, p);
    LtAsym(last, p);
    CarvedTiles(f);
    HomeIsHome(rs, p);
  }

  lemma DeclareKeeps(f: Fsm, name: string, regime: Regime)
    requires Carved(f)
    ensures Carved(Declare(f, name, regime))
  {
    var g := Declare(f, name, regime);
    if g != f {
      TailIsCut(f);
      var rs := f.regions.regions;
      var n := |rs|;
      assert g.regions.regions == rs[..n - 1] + Halves(rs[n - 1], TablePrefix(n), f.regions.nextId);
      forall i: nat ensures RegionOf(g, i) {
        assert RegionOf(f, i);
        assert RegionOf(f, n - 1);
      }
      assert forall t | t in f.catalog :: t.name != name;
    }
  }

  lemma {:induction false} AlwaysCarved(log: seq<Declaration>)
    ensures Carved(DeclareAll(FRESH, log))
  {
    if log == [] {
      forall i: nat ensures RegionOf(FRESH, i) {}
    } else {
      AlwaysCarved(log[..|log| - 1]);
      DeclareKeeps(DeclareAll(FRESH, log[..|log| - 1]), log[|log| - 1].name, log[|log| - 1].regime);
    }
  }

  /** After any log of declarations there is one region a table, table `id` has id `id`, and each of its
      keys routes to its region and to no other. */
  lemma TablesRoute(log: seq<Declaration>, id: nat, k: Bytes)
    requires id < DeclareAll(FRESH, log).nextTableId
    ensures var f := DeclareAll(FRESH, log);
      && |f.regions.regions| == |f.catalog| == f.nextTableId && f.catalog[id].id == id
      && Home(f.regions.regions, TableKey(id, k), 0) == id
      && forall j: nat | j < |f.regions.regions| :: Contains(f.regions.regions[j], TableKey(id, k)) <==> j == id
  {
    var f := DeclareAll(FRESH, log);
    AlwaysCarved(log);
    CarvedTiles(f);
    KeyInRegion(f, id, k);
    HomeIsHome(f.regions.regions, TableKey(id, k));
  }

  // ---- replays -----------------------------------------------------------------------------------

  /** A declaration that has been applied changes nothing when it comes again. */
  ghost predicate Absorbed(f: Fsm, e: Declaration) { Declare(f, e.name, e.regime) == f }

  lemma AbsorbedStays(f: Fsm, e: Declaration, name: string, regime: Regime)
    requires Absorbed(f, e)
    ensures Absorbed(Declare(f, name, regime), e)
  {
    var g := Declare(f, name, regime);
    if Declared(f.catalog, e.name) {
      var t :| t in f.catalog && t.name == e.name;
      assert t in g.catalog;
    }
  }

  lemma DeclareAbsorbs(f: Fsm, e: Declaration)
    ensures Absorbed(Declare(f, e.name, e.regime), e)
  {
    var g := Declare(f, e.name, e.regime);
    if g != f { assert g.catalog[|g.catalog| - 1] in g.catalog; }
  }

  /** Replaying any part of an applied log, in any order, is without effect: ids are not burnt and regions
      not carved again. */
  lemma {:induction false} ReplayIsIdempotent(f: Fsm, log: seq<Declaration>, e: Declaration)
    requires e in log
    ensures Absorbed(DeclareAll(f, log), e)
  {
    var last := log[|log| - 1];
    var before := DeclareAll(f, log[..|log| - 1]);
    if e == last {
      DeclareAbsorbs(before, e);
    } else {
      assert e in log[..|log| - 1];
      ReplayIsIdempotent(f, log[..|log| - 1], e);
      AbsorbedStays(before, e, last.name, last.regime);
    }
  }

  lemma {:induction false} ReplayLog(f: Fsm, log: seq<Declaration>, again: seq<Declaration>)
    requires forall e | e in again :: e in log
    ensures DeclareAll(DeclareAll(f, log), again) == DeclareAll(f, log)
  {
    if again != [] {
      ReplayLog(f, log, again[..|again| - 1]);
      ReplayIsIdempotent(f, log, again[|again| - 1]);
    }
  }

  // ---- the state machine as an object -----------------------------------------------------------------

  class PdFsm {
    var catalog: seq<TableEntry>
    var nextTableId: nat
    var version: nat
    const registry: Registry

    ghost predicate Valid()
      reads this, registry
    {
      registry.Valid() && Carved(Now())
    }

    ghost function Now(): Fsm
      reads this, registry
    {
      Fsm(catalog, nextTableId, registry.Now(), version)
    }

    constructor ()
      ensures Valid() && Now() == FRESH && fresh(registry)
    {
      catalog, nextTableId, version := [TableEntry(0, DEFAULT, Cp)], 1, 1;
      registry := new Registry();
      new;
      assert Now() == DeclareAll(FRESH, []);
      AlwaysCarved([]);
    }

    method IsDeclared(name: string) returns (known: bool)
      ensures known <==> Declared(catalog, name)
    {
      var i := 0;
      while i < |catalog|
        invariant i <= |catalog| && forall j: nat | j < i :: catalog[j].name != name
      {
        if catalog[i].name == name { return true; }
        i := i + 1;
      }
      known := false;
    }

    /** `regime_for`: that of the table whose prefix the key carries, Cp where there is none. */
    method RegimeFor(key: Bytes) returns (r: Regime)
      requires Valid()
      ensures r == if TableIdOf(key) < |catalog| then catalog[TableIdOf(key)].regime else Cp
    {
      var id, i := TableIdOf(key), 0;
      while i < |catalog|
        invariant i <= |catalog| && i <= id
      {
        if catalog[i].id == id { return catalog[i].regime; }
        i := i + 1;
      }
      r := Cp;
    }

    /** `declare_table`: default names, known names and an exhausted allocator are refused before an id is spent. */
    method DeclareTable(name: string, regime: Regime)
      requires Valid()
      modifies this, registry
      ensures Valid() && Now() == Declare(old(Now()), name, regime)
    {
      DeclareKeeps(Now(), name, regime);
      if name == "" || name == DEFAULT { return; }
      var known := IsDeclared(name);
      if known { return; }
      var id := nextTableId;
      if id == MAX_ID { return; }
      nextTableId := id + 1;
      catalog := catalog + [TableEntry(id, name, regime)];
      var ok := registry.SplitRegion(TablePrefix(id));
      version := version + 1;
    }
  }
}
