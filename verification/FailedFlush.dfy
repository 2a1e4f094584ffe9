/** A flush that fails leaves its memtable queued for good, and the next flush raises the watermark past it
    (engine/src/db.rs `flush_memtable`): after a restart the batches it held are neither in a table nor replayed. */
module FailedFlush {
  import opened Basics
  import opened Codec
  import opened Wal
  import opened Memtable
  import opened Runs
  import opened Recovery
  import opened RecoveryProof

  /** A memtable is frozen and not flushed, and the active one is up for rotation: its group is synced. */
  ghost predicate Stuck(d: Db) {
    && d.mem.Some? && d.mem.value.flush.Frozen? && d.mem.value.active != map[]
    && d.disk.segs != [] && d.mem.value.synced == |Recovery.Last(d.disk.segs)|
  }

  /** The frozen memtable stays where it is; the active one is rotated and flushed in full. */
  ghost function FlushPast(d: Db): Db
    requires Stuck(d)
  {
    var m, w := d.mem.value, d.disk.manifest;
    Db(Disk(d.disk.segs + [[]], Manifest(m.number, w.tables + [m.nextSst]), d.disk.files[m.nextSst := m.active]),
       Some(m.(active := map[], tables := m.tables + [m.active], synced := 0, nextSst := m.nextSst + 1)), d.log, d.acked)
  }

  /** What the store reads as once it is closed and opened again. */
  ghost function AfterRestart(d: Db, crc: Checksum): Db
    requires Enabled(d, Crash(0), crc) && Enabled(Do(d, Crash(0), crc), Reopen, crc)
  {
    Do(Do(d, Crash(0), crc), Reopen, crc)
  }

  /** Every key the stuck memtable holds was written again since, or held that value before. */
  ghost predicate Covered(d: Db)
    requires Stuck(d) && d.disk.manifest.lastFlushed <= |d.log|
  {
    var m, base := d.mem.value, Replay(d.log, d.disk.manifest.lastFlushed);
    forall k | k in m.flush.m && k !in m.active :: k in base && base[k] == m.flush.m[k]
  }

  lemma CoveredIff(a: Flat, x: Flat, b: Flat)
    ensures a + b == a + x + b <==> forall k | k in x && k !in b :: k in a && a[k] == x[k]
  {
    if forall k | k in x && k !in b :: k in a && a[k] == x[k] {
      assert a + b == a + x + b;
    } else {
      var k :| k in x && k !in b && !(k in a && a[k] == x[k]);
      assert k in a + x + b && (a + x + b)[k] == x[k];
      assert k in a + b ==> (a + b)[k] == a[k];
    }
  }

  lemma TablesAfter(d: Db, crc: Checksum)
    requires Stuck(d) && DiskOk(d, crc) && MemOk(d, d.mem.value)
    ensures View(Tables(FlushPast(d).disk.files, FlushPast(d).disk.manifest.tables)) ==
      Replay(d.log, d.disk.manifest.lastFlushed) + d.mem.value.active
  {
    var m, w := d.mem.value, d.disk.manifest;
    TablesSame(d.disk.files, w.tables, m.nextSst, m.active);
    TablesMore(d.disk.files[m.nextSst := m.active], w.tables, m.nextSst);
    ViewPush(Tables(d.disk.files, w.tables), m.active);
  }

  lemma NothingReplayed(d: Db, crc: Checksum, rs: seq<Record>)
    requires DiskOk(d, crc) && rs == AllRecords(crc, d.disk.segs)
    ensures ReplayRecords(map[], rs, |d.log|) == map[] && MaxNumber(rs, |d.log|) == |d.log|
  {
    LinesRaised(rs, d.log, d.disk.manifest.lastFlushed, |d.log|);
    ReplayIsDelta(rs, d.log, |d.log|, |d.log|);
    MaxIsLast(rs, |d.log|, |d.log|);
  }

  lemma Restarts(d: Db, crc: Checksum, e: Db)
    requires Stuck(d) && Ok(d, crc) && e == FlushPast(d)
    ensures Enabled(e, Crash(0), crc) && Enabled(Do(e, Crash(0), crc), Reopen, crc)
    ensures var r := AfterRestart(e, crc);
      && r.log == d.log && r.acked == d.acked && r.mem.Some? && r.mem.value.active == map[] && r.mem.value.flush == Idle
      && r.mem.value.tables == Tables(e.disk.files, e.disk.manifest.tables)
  {
    var rs := AllRecords(crc, d.disk.segs);
    RecordsFresh(crc, d.disk.segs);
    NothingReplayed(d, crc, rs);
    assert Recovery.Last(e.disk.segs)[..0] == [];
    SetLastIs(e.disk.segs, []);
    assert SetLast(e.disk.segs, []) == e.disk.segs;
    assert d.log[..|d.log|] == d.log;
  }

  /** After such a flush and a restart the store still reads as its acknowledged history exactly when everything the
      stuck memtable held is covered. */
  lemma FlushPastIff(d: Db, crc: Checksum)
    requires Stuck(d) && Ok(d, crc)
    ensures var e := FlushPast(d);
      && Enabled(e, Crash(0), crc) && Enabled(Do(e, Crash(0), crc), Reopen, crc)
      && AfterRestart(e, crc).log == d.log && AfterRestart(e, crc).mem.Some?
      && (ReadsAs(AfterRestart(e, crc).mem.value) == Replay(d.log, |d.log|) <==> Covered(d))
  {
    var e, m := FlushPast(d), d.mem.value;
    var f := d.disk.manifest.lastFlushed;
    Restarts(d, crc, e);
    TablesAfter(d, crc);
    Reads(AfterRestart(e, crc).mem.value);
    Caught(d.log, f, m.flush.upTo);
    Caught(d.log, m.flush.upTo, |d.log|);
    CoveredIff(Replay(d.log, f), m.flush.m, m.active);
  }

  lemma Reads(m: Mem)
    requires m.flush == Idle && m.active == map[]
    ensures ReadsAs(m) == View(m.tables)
  {
    assert m.tables + [] == m.tables;
    ViewPush(m.tables, map[]);
  }

  // ---- two batches ---------------------------------------------------------------------------------------------

  const B1: Batch := [WriteOp(0, [1], Put([1]))]
  const B2: Batch := [WriteOp(0, [2], Put([2]))]

  lemma Small(n: nat, k: Byte, b: Batch)
    requires n < U64 && b == [WriteOp(0, [k], Put([k]))]
    ensures Loggable(n, b)
  {
    assert b[1..] == [] && |EncodeOp(b[0])| == 12;
    assert |EncodeOps(b)| == 12;
  }

  lemma Then(st: seq<Db>, a: Action, crc: Checksum) returns (longer: seq<Db>)
    requires Lifetime(st, crc) && Enabled(st[|st| - 1], a, crc)
    ensures Lifetime(longer, crc) && longer != [] && longer[|longer| - 1] == Do(st[|st| - 1], a, crc)
  {
    longer := st + [Do(st[|st| - 1], a, crc)];
    forall i | 0 <= i < |longer| - 1 ensures Moves(longer[i], longer[i + 1], crc) {
      assert i < |st| - 1 ==> Moves(st[i], st[i + 1], crc);
    }
  }

  lemma One(m: Flat, b: Batch)
    requires |b| == 1
    ensures ApplyFlat(m, b) == m[Sk(b[0].cf, b[0].key) := b[0].value]
  {
    assert b[..0] == [] && ApplyFlat(m, b[..0]) == m;
  }

  ghost predicate Waiting(d: Db) {
    && d.mem.Some? && d.mem.value.flush == Frozen(ApplyFlat(map[], B1), 1) && d.mem.value.active == ApplyFlat(map[], B2)
    && d.log == [B1, B2] && d.acked == 2 && d.disk.manifest.lastFlushed == 0 && Stuck(d)
  }

  ghost predicate Halfway(d: Db) {
    && d.mem.Some? && d.mem.value.flush == Frozen(ApplyFlat(map[], B1), 1) && d.mem.value.active == map[]
    && d.mem.value.number == 1 && d.log == [B1] && d.disk.manifest.lastFlushed == 0 && d.disk.segs != []
  }

  lemma FirstHalf(crc: Checksum) returns (st: seq<Db>)
    ensures Lifetime(st, crc) && Halfway(st[|st| - 1])
  {
    Small(1, 1, B1);
    st := Then([FRESH], Append(B1), crc);
    st := Then(st, Sync, crc);
    st := Then(st, Rotate, crc);
  }

  lemma SecondHalf(d: Db, crc: Checksum)
    requires Halfway(d)
    ensures Enabled(d, Append(B2), crc) && Enabled(Do(d, Append(B2), crc), Sync, crc)
    ensures Waiting(Do(Do(d, Append(B2), crc), Sync, crc))
  {
    Small(2, 2, B2);
    One(map[], B2);
    assert [B1] + [B2] == [B1, B2];
    assert Sk(0, [2]) in ApplyFlat(map[], B2);
  }

  lemma Plays(crc: Checksum) returns (st: seq<Db>)
    ensures Lifetime(st, crc) && Waiting(st[|st| - 1])
  {
    st := FirstHalf(crc);
    SecondHalf(st[|st| - 1], crc);
    st := Then(st, Append(B2), crc);
    st := Then(st, Sync, crc);
  }

  /** Both batches are acknowledged; the flush of the first fails, that of the second succeeds, and after a restart the
      first is gone. */
  lemma AckedLost(crc: Checksum) returns (st: seq<Db>, r: Db)
    ensures Lifetime(st, crc) && st[|st| - 1].acked == 2 && Stuck(st[|st| - 1])
    ensures var e := FlushPast(st[|st| - 1]); Enabled(e, Crash(0), crc) && Enabled(Do(e, Crash(0), crc), Reopen, crc) && r == AfterRestart(e, crc)
    ensures r.log == [B1, B2] && r.mem.Some? && ReadsAs(r.mem.value) != Replay(r.log, 2)
  {
    st := Plays(crc);
    var d := st[|st| - 1];
    RunOk(st, crc, |st| - 1);
    FlushPastIff(d, crc);
    r := AfterRestart(FlushPast(d), crc);
    NotCovered(d);
  }

  lemma NotCovered(d: Db)
    requires Waiting(d)
    ensures !Covered(d)
  {
    One(map[], B1);
    One(map[], B2);
    var k := Sk(0, [1]);
    assert k[1] == 1 && Sk(0, [2])[1] == 2;
    assert k in d.mem.value.flush.m && k !in d.mem.value.active;
    assert Replay(d.log, 0) == map[];
  }
}
