/** The engine across crashes (engine/src/db.rs): batches are numbered, logged and applied; a group is synced and
    acknowledged; full memtables are rotated and flushed to tables named by a manifest; a crash keeps any byte
    prefix of what was not synced; reopening replays the log above the flushed watermark. */
module Recovery {
  import opened Basics
  import opened Codec
  import opened Wal
  import opened Memtable
  import opened Runs
  import opened Lsm

  // ---- replaying batches ------------------------------------------------------------------

  /** Batches `i` to `j` applied to `m`. */
  ghost function Apply(m: Flat, log: seq<Batch>, i: nat, j: nat): Flat
    requires i <= j <= |log|
    decreases j
  {
    if i == j then m else ApplyFlat(Apply(m, log, i, j - 1), log[j - 1])
  }

  ghost function Replay(log: seq<Batch>, n: nat): Flat
    requires n <= |log|
  {
    Apply(map[], log, 0, n)
  }

  /** What a memtable holds that took batches `i` to `j`. */
  ghost function Delta(log: seq<Batch>, i: nat, j: nat): Flat
    requires i <= j <= |log|
  {
    Apply(map[], log, i, j)
  }

  lemma {:induction false} ApplyOver(base: Flat, log: seq<Batch>, i: nat, j: nat)
    requires i <= j <= |log|
    ensures base + Delta(log, i, j) == Apply(base, log, i, j)
    decreases j
  {
    if i < j {
      ApplyOver(base, log, i, j - 1);
      ApplyOnTop(base, Delta(log, i, j - 1), log[j - 1]);
    }
  }

  lemma {:induction false} ApplyJoins(m: Flat, log: seq<Batch>, i: nat, j: nat, k: nat)
    requires i <= j <= k <= |log|
    ensures Apply(Apply(m, log, i, j), log, j, k) == Apply(m, log, i, k)
    decreases k
  {
    if j < k { ApplyJoins(m, log, i, j, k - 1); }
  }

  /** A table over older tables brings them up to date. */
  lemma Caught(log: seq<Batch>, i: nat, j: nat)
    requires i <= j <= |log|
    ensures Replay(log, i) + Delta(log, i, j) == Replay(log, j)
  {
    ApplyOver(Replay(log, i), log, i, j);
    ApplyJoins(map[], log, 0, i, j);
  }

  lemma {:induction false} ApplyPrefix(m: Flat, log: seq<Batch>, more: seq<Batch>, i: nat, j: nat)
    requires i <= j <= |log| && log <= more
    ensures Apply(m, more, i, j) == Apply(m, log, i, j)
    decreases j
  {
    if i < j { ApplyPrefix(m, log, more, i, j - 1); }
  }

  // ---- state -----------------------------------------------------------------------------------

  datatype Manifest = Manifest(lastFlushed: nat, tables: seq<nat>)

  datatype Disk = Disk(segs: seq<Bytes>, manifest: Manifest, files: map<nat, Flat>)

  /** Where the flush of a frozen memtable stands: frozen, its table written, the manifest stored. */
  datatype Flush = Idle | Frozen(m: Flat, upTo: nat) | Written(m: Flat, upTo: nat, file: nat) | Stored(m: Flat)

  datatype Mem = Mem(active: Flat, flush: Flush, tables: seq<Flat>, number: nat, synced: nat, nextSst: nat)

  /** `log` is the history of numbered batches a crash has not taken; `acked` counts the acknowledged ones. */
  datatype Db = Db(disk: Disk, mem: Option<Mem>, log: seq<Batch>, acked: nat)

  function RecordOf(n: nat, b: Batch): Record { Record(n, EncodeBatch(b)) }

  predicate Loggable(n: nat, b: Batch) { BatchFits(b) && Wal.Fits(RecordOf(n, b)) }

  function Last(segs: seq<Bytes>): Bytes
    requires segs != []
  {
    segs[|segs| - 1]
  }

  function SetLast(segs: seq<Bytes>, b: Bytes): seq<Bytes>
    requires segs != []
  {
    segs[..|segs| - 1] + [b]
  }

  function Parsed(crc: Checksum, segs: seq<Bytes>): seq<seq<Record>> {
    seq(|segs|, i requires 0 <= i < |segs| => ReadAll(crc, segs[i]))
  }

  function Concat(ps: seq<seq<Record>>): seq<Record> {
    if ps == [] then [] else Concat(ps[..|ps| - 1]) + ps[|ps| - 1]
  }

  /** Every intact record of every segment, in order. */
  function AllRecords(crc: Checksum, segs: seq<Bytes>): seq<Record> { Concat(Parsed(crc, segs)) }

  /** Recovery's loop: apply what lies above the watermark. */
  ghost function ReplayRecords(m: Flat, rs: seq<Record>, above: nat): Flat {
    if rs == [] then m
    else
      var r := rs[|rs| - 1];
      var before := ReplayRecords(m, rs[..|rs| - 1], above);
      if r.number > above && DecodeBatch(r.payload).Some? then ApplyFlat(before, DecodeBatch(r.payload).value) else before
  }

  function MaxNumber(rs: seq<Record>, floor: nat): nat {
    if rs == [] then floor
    else var m := MaxNumber(rs[..|rs| - 1], floor); if rs[|rs| - 1].number > m then rs[|rs| - 1].number else m
  }

  function Tables(files: map<nat, Flat>, names: seq<nat>): (ts: seq<Flat>)
    ensures |ts| == |names|
  {
    if names == [] then []
    else Tables(files, names[..|names| - 1]) + [if names[|names| - 1] in files then files[names[|names| - 1]] else map[]]
  }

  function NextName(names: seq<nat>): (n: nat)
    ensures n !in names && forall x | x in names :: x < n
  {
    if names == [] then 1
    else
      var last := names[|names| - 1];
      var m := NextName(names[..|names| - 1]);
      assert forall x | x in names :: x in names[..|names| - 1] || x == last;
      if last >= m then last + 1 else m
  }

  // ---- steps --------------------------------------------------------------------------------------

  datatype Action =
    | Append(batch: Batch)
    | Sync
    | Rotate
    | WriteSst
    | StoreManifest
    | Drop
    | Reclaim(seg: nat)
    | Crash(kept: nat)
    | Reopen

  predicate Enabled(d: Db, a: Action, crc: Checksum) {
    d.disk.segs != [] &&
    match a
    case Append(b) => d.mem.Some? && Loggable(d.mem.value.number + 1, b)
    case Sync => d.mem.Some?
    case Rotate => d.mem.Some? && d.mem.value.flush.Idle? && d.mem.value.synced == |Last(d.disk.segs)|
    case WriteSst => d.mem.Some? && d.mem.value.flush.Frozen?
    case StoreManifest => d.mem.Some? && d.mem.value.flush.Written?
    case Drop => d.mem.Some? && d.mem.value.flush.Stored?
    case Reclaim(i) =>
      d.mem.Some? && i < |d.disk.segs| - 1 && forall r | r in ReadAll(crc, d.disk.segs[i]) :: r.number <= d.disk.manifest.lastFlushed
    case Crash(n) => d.mem.Some? && d.mem.value.synced <= n <= |Last(d.disk.segs)|
    case Reopen => d.mem.None?
  }

  /** How many of the history's batches the log still gives after a crash. */
  function Surviving(d: Db, segs: seq<Bytes>, crc: Checksum): nat {
    MaxNumber(AllRecords(crc, segs), d.disk.manifest.lastFlushed)
  }

  ghost function Do(d: Db, a: Action, crc: Checksum): Db
    requires Enabled(d, a, crc)
  {
    match a
    case Append(b) =>
      var m := d.mem.value;
      Db(d.disk.(segs := SetLast(d.disk.segs, Last(d.disk.segs) + Frame(crc, RecordOf(m.number + 1, b)))),
         Some(m.(active := ApplyFlat(m.active, b), number := m.number + 1)), d.log + [b], d.acked)
    case Sync => d.(mem := Some(d.mem.value.(synced := |Last(d.disk.segs)|)), acked := |d.log|)
    case Rotate =>
      var m := d.mem.value;
      d.(disk := d.disk.(segs := d.disk.segs + [[]]),
         mem := Some(m.(active := map[], flush := Frozen(m.active, m.number), synced := 0)))
    case WriteSst =>
      var m := d.mem.value;
      d.(disk := d.disk.(files := d.disk.files[m.nextSst := m.flush.m]),
         mem := Some(m.(flush := Written(m.flush.m, m.flush.upTo, m.nextSst), tables := m.tables + [m.flush.m],
                        nextSst := m.nextSst + 1)))
    case StoreManifest =>
      var m := d.mem.value;
      var upTo := if m.flush.upTo > d.disk.manifest.lastFlushed then m.flush.upTo else d.disk.manifest.lastFlushed;
      d.(disk := d.disk.(manifest := Manifest(upTo, d.disk.manifest.tables + [m.flush.file])),
         mem := Some(m.(flush := Stored(m.flush.m))))
    case Drop => d.(mem := Some(d.mem.value.(flush := Idle)))
    case Reclaim(i) => d.(disk := d.disk.(segs := d.disk.segs[..i] + d.disk.segs[i + 1..]))
    case Crash(n) =>
      var segs := SetLast(d.disk.segs, Last(d.disk.segs)[..n]);
      var k := Surviving(d, segs, crc);
      Db(d.disk.(segs := segs), None, if k <= |d.log| then d.log[..k] else d.log, d.acked)
    case Reopen =>
      var rs := AllRecords(crc, d.disk.segs);
      var w := d.disk.manifest;
      d.(disk := d.disk.(segs := d.disk.segs + [[]]),
         mem := Some(Mem(ReplayRecords(map[], rs, w.lastFlushed), Idle, Tables(d.disk.files, w.tables),
                         MaxNumber(rs, w.lastFlushed), 0, NextName(w.tables))))
  }

  const FRESH: Db := Db(Disk([[]], Manifest(0, []), map[]), Some(Mem(map[], Idle, [], 0, 0, 1)), [], 0)

  /** What the open store reads as. */
  ghost function ReadsAs(m: Mem): Flat {
    View(m.tables + (match m.flush case Idle => [] case _ => [m.flush.m]) + [m.active])
  }

  ghost predicate Moves(d: Db, e: Db, crc: Checksum) { exists a: Action :: Enabled(d, a, crc) && e == Do(d, a, crc) }

  ghost predicate Lifetime(st: seq<Db>, crc: Checksum) {
    |st| > 0 && st[0] == FRESH && forall i | 0 <= i < |st| - 1 :: Moves(st[i], st[i + 1], crc)
  }
}
