/** The layered store (engine/src/db.rs): an active memtable, frozen ones waiting to be flushed, and tables on
    disk. Whatever is where, reads answer as one flat ordered map with tombstones would. */
module Lsm {
  import opened Basics
  import opened Codec
  import opened Wal
  import opened SstFile
  import opened SstTable
  import opened SstWriter
  import opened Memtable
  import opened Runs

  // ---- levels ---------------------------------------------------------------------------------

  lemma Hit(levels: seq<Flat>, i: nat, k: Bytes)
    requires i < |levels| && k in levels[i] && k !in View(levels[i + 1..])
    ensures k in View(levels) && View(levels)[k] == levels[i][k]
  {
    ViewDown(levels, i);
    assert levels[..i] + levels[i..] == levels;
    TopWins(levels[..i], levels[i..], levels, k);
  }

  lemma TopWins(low: seq<Flat>, high: seq<Flat>, levels: seq<Flat>, k: Bytes)
    requires levels == low + high && k in View(high)
    ensures k in View(levels) && View(levels)[k] == View(high)[k]
  {
    ViewSplit(low, high);
  }

  lemma Miss(levels: seq<Flat>, i: nat, k: Bytes)
    requires i < |levels| && k !in levels[i] && k !in View(levels[i + 1..])
    ensures k !in View(levels[i..])
  {
    ViewDown(levels, i);
  }

  /** A batch on the newest level is the batch on the whole. */
  lemma {:induction false} ApplyOnTop(base: Flat, top: Flat, ops: Batch)
    ensures base + ApplyFlat(top, ops) == ApplyFlat(base + top, ops)
  {
    if ops != [] { ApplyOnTop(base, top, ops[..|ops| - 1]); }
  }

  ghost function AllContents(runs: seq<Run>): (cs: seq<Flat>)
    ensures |cs| == |runs|
  {
    if runs == [] then [] else AllContents(runs[..|runs| - 1]) + [Contents(runs[|runs| - 1])]
  }

  lemma {:induction false} ContentsAt(runs: seq<Run>, i: nat)
    requires i < |runs|
    ensures AllContents(runs)[i] == Contents(runs[i])
  {
    if i + 1 < |runs| { ContentsAt(runs[..|runs| - 1], i); }
  }

  lemma LevelAt(held: seq<Flat>, frozen: seq<Run>, active: Run, i: nat)
    requires |held| <= i <= |held| + |frozen|
    ensures (held + AllContents(frozen) + [Contents(active)])[i] ==
      Contents(if i < |held| + |frozen| then frozen[i - |held|] else active)
  {
    if i < |held| + |frozen| { ContentsAt(frozen, i - |held|); }
  }

  /** What tables, frozen memtables and the active one stand for. */
  ghost function Total(held: seq<Flat>, frozen: seq<Run>, active: Flat): Flat {
    View(held + AllContents(frozen) + [active])
  }

  lemma ViewOne(a: Flat)
    ensures View([a]) == a
  {
    assert [a][..0] == [] && View([]) == map[];
  }

  lemma TotalIs(held: seq<Flat>, frozen: seq<Run>, active: Flat)
    ensures Total(held, frozen, active) == View(held) + View(AllContents(frozen)) + active
  {
    ViewSplit(held + AllContents(frozen), [active]);
    ViewSplit(held, AllContents(frozen));
    ViewOne(active);
  }

  lemma NothingHeld(held: seq<Flat>, frozen: seq<Run>, active: Run)
    requires |held| == |frozen| == |active| == 0
    ensures Total(held, frozen, Contents(active)) == map[]
  {
    TotalIs(held, frozen, Contents(active));
  }

  lemma FrozenOne(run: Run)
    ensures View(AllContents([run])) == Contents(run)
  {
    assert AllContents([run]) == [Contents(run)];
    ViewOne(Contents(run));
  }

  lemma FrozenMore(frozen: seq<Run>, run: Run)
    ensures View(AllContents(frozen + [run])) == View(AllContents(frozen)) + Contents(run)
  {
    assert AllContents(frozen + [run]) == AllContents(frozen) + [Contents(run)];
    ViewSplit(AllContents(frozen), [Contents(run)]);
    ViewOne(Contents(run));
  }

  lemma Rotated(held: seq<Flat>, frozen: seq<Run>, run: Run, none: Run)
    requires |none| == 0
    ensures Total(held, frozen + [run], Contents(none)) == Total(held, frozen, Contents(run))
  {
    TotalIs(held, frozen + [run], Contents(none));
    TotalIs(held, frozen, Contents(run));
    FrozenMore(frozen, run);
    Stacked(View(held), View(AllContents(frozen)), Contents(run));
  }

  lemma Stacked(a: Flat, b: Flat, c: Flat)
    ensures (a + (b + c)) + map[] == (a + b) + c
  {
  }

  /** Everything a frozen memtable holds is in the view of the queue. */
  lemma QueueHas(frozen: seq<Run>, i: nat, k: Bytes)
    requires i < |frozen| && k in Contents(frozen[i])
    ensures k in View(AllContents(frozen))
  {
    Pull(frozen, i);
  }

  /** The queue, around one of its memtables. */
  lemma Pull(frozen: seq<Run>, i: nat)
    requires i < |frozen|
    ensures View(AllContents(frozen)) ==
      View(AllContents(frozen[..i])) + Contents(frozen[i]) + View(AllContents(frozen[i + 1..]))
  {
    Parts(frozen, i);
    PullFrom(frozen[..i], frozen[i], frozen[i + 1..], frozen);
  }

  lemma Parts(frozen: seq<Run>, i: nat)
    requires i < |frozen|
    ensures frozen == (frozen[..i] + [frozen[i]]) + frozen[i + 1..]
  {
  }

  lemma PullFrom(older: seq<Run>, run: Run, newer: seq<Run>, frozen: seq<Run>)
    requires frozen == (older + [run]) + newer
    ensures View(AllContents(frozen)) == View(AllContents(older)) + Contents(run) + View(AllContents(newer))
  {
    FrozenJoin(older + [run], newer);
    FrozenMore(older, run);
  }

  /** A table of any queued memtable, below the whole queue, changes nothing. */
  lemma Installed(held: seq<Flat>, frozen: seq<Run>, i: nat, active: Flat)
    requires i < |frozen|
    ensures Total(held + [Contents(frozen[i])], frozen, active) == Total(held, frozen, active)
  {
    TotalIs(held + [Contents(frozen[i])], frozen, active);
    TotalIs(held, frozen, active);
    ViewSplit(held, [Contents(frozen[i])]);
    ViewOne(Contents(frozen[i]));
    forall k | k in Contents(frozen[i]) ensures k in View(AllContents(frozen)) { QueueHas(frozen, i, k); }
    Hidden(View(held), Contents(frozen[i]), View(AllContents(frozen)));
  }

  lemma Hidden(m: Flat, c: Flat, f: Flat)
    requires c.Keys <= f.Keys
    ensures (m + c) + f == m + f
  {
  }

  /** What older queued memtables say of a key that the flushed one also holds, and nothing newer does, is the same. */
  ghost predicate Harmless(frozen: seq<Run>, i: nat, active: Flat)
    requires i < |frozen|
  {
    var c, older, newer := Contents(frozen[i]), View(AllContents(frozen[..i])), View(AllContents(frozen[i + 1..]));
    forall k | k in c && k in older && k !in newer && k !in active :: c[k] == older[k]
  }

  /** The oldest memtable may always go first. */
  lemma OldestIsHarmless(frozen: seq<Run>, active: Flat)
    requires |frozen| > 0
    ensures Harmless(frozen, 0, active)
  {
    assert frozen[..0] == [];
  }

  /** The memtable is empty, or the newest table was written from it. */
  ghost predicate IsHeld(run: Run, held: seq<Flat>) { |run| == 0 || (|held| > 0 && held[|held| - 1] == Contents(run)) }

  /** A memtable gains its table, unless it is empty. */
  ghost predicate Gains(before: seq<Flat>, run: Run, after: seq<Flat>) {
    IsHeld(run, after) && after == if |run| == 0 then before else before + [Contents(run)]
  }

  /** Forgetting a memtable once it is the newest table keeps the map exactly when it is harmless: older memtables in
      the queue outrank every table. */
  lemma FlushedOutOfTurn(held: seq<Flat>, frozen: seq<Run>, i: nat, active: Flat)
    requires i < |frozen| && IsHeld(frozen[i], held)
    ensures Total(held, frozen[..i] + frozen[i + 1..], active) == Total(held, frozen, active) <==> Harmless(frozen, i, active)
  {
    TotalIs(held, frozen[..i] + frozen[i + 1..], active);
    TotalIs(held, frozen, active);
    FrozenJoin(frozen[..i], frozen[i + 1..]);
    Pull(frozen, i);
    forall k | k in Contents(frozen[i]) ensures k in View(held) && View(held)[k] == Contents(frozen[i])[k] { NewestHeld(held, k); }
    SwapIff(View(held), View(AllContents(frozen[..i])), Contents(frozen[i]), View(AllContents(frozen[i + 1..])), active);
  }

  lemma Dropping(held: seq<Flat>, frozen: seq<Run>, i: nat, active: Flat, rest: seq<Run>)
    requires i < |frozen| && IsHeld(frozen[i], held) && AllWellFormed(frozen) && rest == frozen[..i] + frozen[i + 1..]
    ensures AllWellFormed(rest) && (Total(held, rest, active) == Total(held, frozen, active) <==> Harmless(frozen, i, active))
    ensures i == 0 ==> Harmless(frozen, i, active)
  {
    FlushedOutOfTurn(held, frozen, i, active);
    OneLessFrozen(frozen, i);
    if i == 0 { OldestIsHarmless(frozen, active); }
  }

  lemma NewestHeld(held: seq<Flat>, k: Bytes)
    requires |held| > 0 && k in held[|held| - 1]
    ensures k in View(held) && View(held)[k] == held[|held| - 1][k]
  {
  }

  lemma {:induction false} FrozenJoin(a: seq<Run>, b: seq<Run>)
    ensures View(AllContents(a + b)) == View(AllContents(a)) + View(AllContents(b))
    decreases |b|
  {
    if b == [] {
      assert a + b == a;
    } else {
      var n := |b| - 1;
      FrozenJoin(a, b[..n]);
      FrozenMore(a + b[..n], b[n]);
      FrozenMore(b[..n], b[n]);
      Regrouped(a, b, n);
      StackAssoc(View(AllContents(a)), View(AllContents(b[..n])), Contents(b[n]));
    }
  }

  lemma Regrouped(a: seq<Run>, b: seq<Run>, n: nat)
    requires n + 1 == |b|
    ensures (a + b[..n]) + [b[n]] == a + b && b[..n] + [b[n]] == b
  {
  }

  lemma StackAssoc(a: Flat, b: Flat, c: Flat)
    ensures (a + b) + c == a + (b + c)
  {
  }

  ghost predicate SameUnder(a: Flat, c: Flat, b: Flat, top: Flat) {
    forall k | k in c && k in a && k !in b && k !in top :: c[k] == a[k]
  }

  lemma SwapIff(m: Flat, a: Flat, c: Flat, b: Flat, top: Flat)
    requires forall k | k in c :: k in m && m[k] == c[k]
    ensures m + (a + b) + top == m + (a + c + b) + top <==> SameUnder(a, c, b, top)
  {
    var x, y := m + (a + b) + top, m + (a + c + b) + top;
    if SameUnder(a, c, b, top) {
      assert x == y;
    } else {
      var k :| k in c && k in a && k !in b && k !in top && c[k] != a[k];
      assert x[k] == a[k] && y[k] == c[k];
    }
  }

  /** Two memtables that write one key: flushing the newer first brings the older value back. */
  lemma StaleAgain(k: Bytes, v: MemValue, w: MemValue)
    requires v != w
    ensures var older, newer := [Kv(k, v)], [Kv(k, w)];
      && !Harmless([older, newer], 1, map[])
      && k in Total([], [older, newer], map[]) && Total([], [older, newer], map[])[k] == w
      && k in Total([Contents(newer)], [older], map[]) && Total([Contents(newer)], [older], map[])[k] == v
  {
    var older, newer := [Kv(k, v)], [Kv(k, w)];
    OneEntry(older);
    OneEntry(newer);
    TotalIs([], [older, newer], map[]);
    TotalIs([Contents(newer)], [older], map[]);
    FrozenOne(older);
    FrozenMore([older], newer);
    assert [older] + [newer] == [older, newer];
    assert [older, newer][..1] == [older] && [older, newer][2..] == [];
  }

  lemma OneEntry(run: Run)
    requires |run| == 1
    ensures run[0].key in Contents(run) && Contents(run)[run[0].key] == run[0].value
  {
    assert Contents(run) == Contents(run[..0])[run[0].key := run[0].value];
  }

  ghost predicate AllWellFormed(runs: seq<Run>) { forall i: nat | i < |runs| :: WellFormed(runs[i]) }

  /** Each table was written from the map beside it. */
  ghost predicate Stored(tables: seq<SstTable.Reader>, held: seq<Flat>) {
    |tables| == |held| && forall i: nat | i < |tables| :: tables[i].Valid() && Represents(tables[i].blocks, held[i])
  }

  lemma OneMoreFrozen(runs: seq<Run>, run: Run)
    requires AllWellFormed(runs) && WellFormed(run)
    ensures AllWellFormed(runs + [run])
  {
  }

  lemma OneLessFrozen(runs: seq<Run>, i: nat)
    requires AllWellFormed(runs) && i < |runs|
    ensures AllWellFormed(runs[..i] + runs[i + 1..])
  {
  }

  lemma OneMoreStored(tables: seq<SstTable.Reader>, held: seq<Flat>, reader: SstTable.Reader, m: Flat)
    requires Stored(tables, held) && reader.Valid() && Represents(reader.blocks, m)
    ensures Stored(tables + [reader], held + [m])
  {
  }

  // ---- the store ----------------------------------------------------------------------------------

  class Store {
    const crc: Checksum
    var active: Run
    var frozen: seq<Run>
    var tables: seq<SstTable.Reader>
    /** What each table was written from. */
    ghost var held: seq<Flat>

    ghost predicate Valid()
      reads this
    {
      WellFormed(active) && AllWellFormed(frozen) && Stored(tables, held)
    }

    ghost function Levels(): seq<Flat>
      reads this
    {
      held + AllContents(frozen) + [Contents(active)]
    }

    /** The map the store stands for. */
    ghost function Now(): Flat
      reads this
    {
      Total(held, frozen, Contents(active))
    }

    constructor (crc: Checksum)
      ensures Valid() && Now() == map[] && frozen == [] && tables == []
    {
      NothingHeld([], [], []);
      this.crc, active, frozen, tables := crc, [], [], [];
      held := [];
    }

    /** Apply a batch to the active memtable. */
    method ApplyBatch(ops: Batch)
      requires Valid()
      modifies `active
      ensures Valid() && Now() == ApplyFlat(old(Now()), ops)
    {
      TotalIs(held, frozen, Contents(active));
      ApplyOnTop(View(held) + View(AllContents(frozen)), Contents(active), ops);
      active := Apply(active, ops);
      TotalIs(held, frozen, Contents(active));
    }

    /** `rotate`: freeze the active memtable. */
    method Rotate()
      requires Valid()
      modifies `active, `frozen
      ensures Valid() && Now() == old(Now()) && frozen == old(frozen) + [old(active)] && |active| == 0
    {
      var empty := NewMemtable();
      Rotated(held, frozen, active, empty);
      OneMoreFrozen(frozen, active);
      frozen, active := frozen + [active], empty;
    }

    static method NewMemtable() returns (m: Run)
      ensures |m| == 0 && WellFormed(m)
    {
      m := [];
    }

    /** Write a memtable as a table and open it. */
    method BuildTable(run: Run) returns (reader: SstTable.Reader)
      requires WellFormed(run) && Weight(Raw(run)) + 4 < U32
      ensures reader.Valid() && Represents(reader.blocks, Contents(run))
    {
      var file; ghost var bs;
      file, bs := WriteTable(crc, run);
      reader := new SstTable.Reader(crc, file, bs);
    }

    /** First half of `flush_memtable`: a frozen memtable becomes a table, readable before it is forgotten. */
    method InstallTable(i: nat)
      requires Valid() && i < |frozen| && Weight(Raw(frozen[i])) + 4 < U32
      modifies `tables, `held
      ensures Valid() && Now() == old(Now())
      ensures Gains(old(held), frozen[i], held)
    {
      var run := frozen[i];
      if |run| > 0 {
        var reader := BuildTable(run);
        AddTable(reader, i);
      }
    }

    method AddTable(reader: SstTable.Reader, i: nat)
      requires Valid() && i < |frozen| && reader.Valid() && Represents(reader.blocks, Contents(frozen[i]))
      modifies `tables, `held
      ensures Valid() && Now() == old(Now()) && held == old(held) + [Contents(frozen[i])]
    {
      Installed(held, frozen, i, Contents(active));
      OneMoreStored(tables, held, reader, Contents(frozen[i]));
      tables := tables + [reader];
      held := held + [Contents(frozen[i])];
    }

    /** Second half: forget the frozen memtable. */
    method DropFrozen(i: nat)
      requires Valid() && i < |frozen| && IsHeld(frozen[i], held)
      modifies `frozen
      ensures Valid() && frozen == old(frozen)[..i] + old(frozen)[i + 1..]
      ensures Now() == old(Now()) <==> Harmless(old(frozen), i, Contents(active))
      ensures i == 0 ==> Now() == old(Now())
    {
      var rest := frozen[..i] + frozen[i + 1..];
      Dropping(held, frozen, i, Contents(active), rest);
      frozen := rest;
    }

    /** `flush_memtable` of any queued memtable; of the oldest, it never changes what the store reads as. */
    method Flush(i: nat)
      requires Valid() && i < |frozen| && Weight(Raw(frozen[i])) + 4 < U32
      modifies `tables, `held, `frozen
      ensures Valid() && frozen == old(frozen)[..i] + old(frozen)[i + 1..]
      ensures Now() == old(Now()) <==> Harmless(old(frozen), i, Contents(active))
      ensures i == 0 ==> Now() == old(Now())
      ensures Gains(old(held), old(frozen[i]), held)
    {
      InstallTable(i);
      DropFrozen(i);
    }

    // ---- reads --------------------------------------------------------------------------------------

    method GetLevel(i: nat, cf: Cf, key: Bytes) returns (v: Option<MemValue>)
      requires Valid() && i < |Levels()|
      ensures v == if Sk(cf, key) in Levels()[i] then Some(Levels()[i][Sk(cf, key)]) else None
    {
      if i < |tables| {
        v := tables[i].Get(cf, key, held[i]);
      } else {
        var run := if i < |tables| + |frozen| then frozen[i - |tables|] else active;
        LevelAt(held, frozen, active, i);
        GetIsLookup(run, Sk(cf, key));
        v := RunGet(run, Sk(cf, key));
      }
    }

    /** `get_cf`: newest level first; the first hit decides, a tombstone included. */
    method Get(cf: Cf, key: Bytes) returns (v: Option<Bytes>)
      requires Valid()
      ensures v == if Sk(cf, key) in Now() && Now()[Sk(cf, key)].Put? then Some(Now()[Sk(cf, key)].value) else None
    {
      ghost var sk := Sk(cf, key);
      var i := |tables| + |frozen| + 1;
      assert Levels()[i..] == [];
      while i > 0
        invariant i <= |Levels()| && sk !in View(Levels()[i..])
      {
        i := i - 1;
        var hit := GetLevel(i, cf, key);
        if hit.Some? {
          Hit(Levels(), i, sk);
          return if hit.value.Put? then Some(hit.value.value) else None;
        }
        Miss(Levels(), i, sk);
      }
      assert Levels()[0..] == Levels();
      v := None;
    }

    method SeekLevel(i: nat, cf: Cf, from: Bytes) returns (r: Option<Kv>)
      requires Valid() && i < |Levels()|
      ensures IsSeek(Levels()[i], cf, from, r)
    {
      if i < |tables| {
        r := tables[i].Seek(cf, from, held[i]);
      } else {
        var run := if i < |tables| + |frozen| then frozen[i - |tables|] else active;
        LevelAt(held, frozen, active, i);
        SeekIsSeek(run, cf, from);
        r := RunSeek(run, cf, from);
      }
    }

    /** `seek_cf`: one candidate a level; the smallest key wins, on a tie the newest level. */
    method Seek(cf: Cf, from: Bytes) returns (r: Option<Kv>)
      requires Valid()
      ensures IsSeek(Now(), cf, from, r)
    {
      r := None;
      var i := |tables| + |frozen| + 1;
      assert Levels()[i..] == [];
      while i > 0
        invariant i <= |Levels()| && IsSeek(View(Levels()[i..]), cf, from, r)
      {
        i := i - 1;
        var candidate := SeekLevel(i, cf, from);
        SeekMerge(Levels()[i], View(Levels()[i + 1..]), cf, from, r, candidate);
        ViewDown(Levels(), i);
        r := Better(r, candidate);
      }
      assert Levels()[0..] == Levels();
    }
  }
}
