/** What the catalog of tables says after any log of declarations (pd/src/replicated.rs, `PdFsm::declare_table`): which
    names are in it, under which ids, and with which regime. */
module Catalog {
  import opened Basics
  import opened Regions
  import opened Tables

  predicate Nameable(name: string) { name != "" && name != DEFAULT }

  /** The first declaration of a name that can be declared. */
  ghost predicate FirstAt(log: seq<Declaration>, i: nat) { i < |log| && Nameable(log[i].name) && !Repeats(log, i) }

  ghost predicate Repeats(log: seq<Declaration>, i: nat)
    requires i < |log|
  {
    exists j: nat | j < i :: log[j].name == log[i].name
  }

  ghost predicate Rising(ps: seq<nat>) { forall k: nat, m: nat | k < m < |ps| :: ps[k] < ps[m] }

  /** The positions of all first declarations, in order. */
  ghost predicate Firsts(log: seq<Declaration>, ps: seq<nat>) {
    && Rising(ps)
    && (forall k: nat {:trigger ps[k]} | k < |ps| :: FirstAt(log, ps[k]))
    && (forall i: nat {:trigger FirstAt(log, i)} | FirstAt(log, i) :: i in ps)
  }

  /** How many of `n` first declarations there are ids for. */
  function Room(n: nat): nat { if n < MAX_ID - 1 then n else MAX_ID - 1 }

  /** The default table, then one entry a first declaration: ids by the order of the log, each with the regime it was
      declared with, until the ids run out. */
  ghost predicate Lists(f: Fsm, log: seq<Declaration>, ps: seq<nat>) {
    && Firsts(log, ps) && |f.catalog| == f.nextTableId == f.version == Room(|ps|) + 1
    && f.catalog[0] == TableEntry(0, DEFAULT, Cp)
    && forall k: nat | k < Room(|ps|) :: f.catalog[k + 1] == TableEntry(k + 1, log[ps[k]].name, log[ps[k]].regime)
  }

  ghost predicate Occurs(log: seq<Declaration>, name: string) { exists i: nat | i < |log| :: log[i].name == name }

  /** A name that occurs is first declared somewhere. */
  lemma {:induction false} FirstOf(log: seq<Declaration>, i: nat) returns (j: nat)
    requires i < |log| && Nameable(log[i].name)
    ensures j <= i && FirstAt(log, j) && log[j].name == log[i].name
    decreases i
  {
    if FirstAt(log, i) {
      j := i;
    } else {
      var e: nat :| e < i && log[e].name == log[i].name;
      j := FirstOf(log, e);
    }
  }

  lemma FirstStays(log: seq<Declaration>, all: seq<Declaration>, i: nat)
    requires log <= all && i < |log|
    ensures FirstAt(all, i) <==> FirstAt(log, i)
  {
  }

  lemma RisingNext(ps: seq<nat>, n: nat)
    requires Rising(ps) && forall k: nat | k < |ps| :: ps[k] < n
    ensures Rising(ps + [n])
  {
  }

  lemma FirstsNext(log: seq<Declaration>, all: seq<Declaration>, ps: seq<nat>, qs: seq<nat>)
    requires Firsts(log, ps) && log <= all && |all| == |log| + 1 && qs == if FirstAt(all, |log|) then ps + [|log|] else ps
    ensures Firsts(all, qs)
  {
    RisingNext(ps, |log|);
    forall k: nat | k < |qs| ensures FirstAt(all, qs[k]) {
      if k < |ps| { FirstStays(log, all, ps[k]); }
    }
    forall i: nat | FirstAt(all, i) ensures i in qs {
      if i < |log| { FirstStays(log, all, i); }
    }
  }

  lemma DeclaredOccurs(f: Fsm, log: seq<Declaration>, ps: seq<nat>, name: string)
    requires Lists(f, log, ps) && Nameable(name) && Declared(f.catalog, name)
    ensures Occurs(log, name)
  {
    var k: nat :| k < |f.catalog| && f.catalog[k].name == name;
    assert log[ps[k - 1]].name == name;
  }

  lemma OccursDeclared(f: Fsm, log: seq<Declaration>, ps: seq<nat>, name: string)
    requires Lists(f, log, ps) && Nameable(name) && Occurs(log, name) && |ps| < MAX_ID
    ensures Declared(f.catalog, name)
  {
    var i: nat :| i < |log| && log[i].name == name;
    var j := FirstOf(log, i);
    var k: nat :| k < |ps| && ps[k] == j;
    assert f.catalog[k + 1] in f.catalog;
  }

  lemma OccursRepeats(log: seq<Declaration>, all: seq<Declaration>, d: Declaration)
    requires all == log + [d]
    ensures Repeats(all, |log|) <==> Occurs(log, d.name)
  {
    if Repeats(all, |log|) {
      var j: nat :| j < |log| && all[j].name == d.name;
      assert log[j].name == d.name;
    }
    forall j: nat | j < |log| && log[j].name == d.name ensures Repeats(all, |log|) { assert all[j].name == d.name; }
  }

  lemma ListsNext(f: Fsm, log: seq<Declaration>, all: seq<Declaration>, ps: seq<nat>, qs: seq<nat>, d: Declaration, out: Fsm)
    requires Lists(f, log, ps) && all == log + [d] && out == Declare(f, d.name, d.regime) && qs == if FirstAt(all, |log|) then ps + [|log|] else ps
    ensures Lists(out, all, qs)
  {
    FirstsNext(log, all, ps, qs);
    if |ps| < MAX_ID - 1 && Nameable(d.name) {
      if Occurs(log, d.name) { OccursDeclared(f, log, ps, d.name); }
      if Declared(f.catalog, d.name) { DeclaredOccurs(f, log, ps, d.name); }
      OccursRepeats(log, all, d);
    }
  }

  /** What any log leaves in the catalog. */
  lemma {:induction false} CatalogLists(log: seq<Declaration>, f: Fsm) returns (ps: seq<nat>)
    requires f == DeclareAll(FRESH, log)
    ensures Lists(f, log, ps)
    decreases |log|
  {
    if log == [] {
      ps := NoTables(log, f);
    } else {
      var n := |log| - 1;
      var g := DeclareAll(FRESH, log[..n]);
      var before := CatalogLists(log[..n], g);
      ps := OneMoreTable(g, log[..n], log, before, log[n], f);
    }
  }

  lemma OneMoreTable(g: Fsm, rest: seq<Declaration>, log: seq<Declaration>, before: seq<nat>, d: Declaration, f: Fsm) returns (ps: seq<nat>)
    requires Lists(g, rest, before) && log == rest + [d] && f == Declare(g, d.name, d.regime)
    ensures Lists(f, log, ps)
  {
    ps := if FirstAt(log, |rest|) then before + [|rest|] else before;
    ListsNext(g, rest, log, before, ps, d, f);
  }

  lemma NoTables(log: seq<Declaration>, f: Fsm) returns (ps: seq<nat>)
    requires log == [] && f == FRESH
    ensures Lists(f, log, ps)
  {
    ps := [];
  }

  lemma {:induction false} RisingShort(ps: seq<nat>, n: nat)
    requires Rising(ps) && forall k: nat | k < |ps| :: ps[k] < n
    ensures |ps| <= n
    decreases n
  {
    if ps != [] { RisingShort(ps[..|ps| - 1], ps[|ps| - 1]); }
  }

  /** Over a log shorter than the ids, a name is in the catalog exactly when it was declared. */
  lemma DeclaredInLog(log: seq<Declaration>, name: string)
    requires |log| < MAX_ID && Nameable(name)
    ensures Declared(DeclareAll(FRESH, log).catalog, name) <==> Occurs(log, name)
  {
    var f := DeclareAll(FRESH, log);
    var ps := CatalogLists(log, f);
    assert forall k: nat | k < |ps| :: FirstAt(log, ps[k]);
    RisingShort(ps, |log|);
    if Declared(f.catalog, name) { DeclaredOccurs(f, log, ps, name); }
    if Occurs(log, name) { OccursDeclared(f, log, ps, name); }
  }

  /** Each table has the regime of its name's first declaration. */
  lemma RegimeOfFirst(log: seq<Declaration>, t: TableEntry, i: nat)
    requires t in DeclareAll(FRESH, log).catalog && FirstAt(log, i) && log[i].name == t.name
    ensures t.regime == log[i].regime
  {
    var f := DeclareAll(FRESH, log);
    var ps := CatalogLists(log, f);
    var k: nat :| k < |f.catalog| && f.catalog[k] == t;
    FirstOnce(log, ps[k - 1], i);
  }

  lemma FirstOnce(log: seq<Declaration>, i: nat, j: nat)
    requires FirstAt(log, i) && FirstAt(log, j) && log[i].name == log[j].name
    ensures i == j
  {
  }

  /** A key of the table a log declared `k`-th lies in that table's region, which has the regime it was declared with. */
  lemma TableServed(log: seq<Declaration>, ps: seq<nat>, k: nat, key: Bytes)
    requires Lists(DeclareAll(FRESH, log), log, ps) && k < Room(|ps|)
    ensures var f := DeclareAll(FRESH, log); var stored := TableKey(k + 1, key);
      && Home(f.regions.regions, stored, 0) == k + 1 && TableIdOf(stored) == k + 1 < |f.catalog|
      && f.catalog[k + 1].regime == log[ps[k]].regime
  {
    TablesRoute(log, k + 1, key);
    KeyRoundTrip(k + 1, key);
  }
}
