/** No acknowledged write is lost and none is applied twice, over any number of crashes. */
module RecoveryProof {
  import opened Basics
  import opened Codec
  import opened Wal
  import opened Memtable
  import opened Runs
  import opened Recovery

  // ---- records against the history --------------------------------------------------------

  /** A record carries the batch the history has under its number. */
  ghost predicate Faithful(log: seq<Batch>, r: Record) {
    0 < r.number <= |log| && r == RecordOf(r.number, log[r.number - 1]) && Loggable(r.number, log[r.number - 1])
  }

  /** The records end with the batches after the `f`-th up to the `n`-th, in order; what is before is older. */
  ghost predicate Ends(rs: seq<Record>, f: nat, n: nat) {
    && f <= n <= f + |rs|
    && (forall i: nat | i < |rs| - (n - f) :: rs[i].number <= f)
    && (forall i: nat | |rs| - (n - f) <= i < |rs| :: rs[i].number == n - (|rs| - 1 - i))
  }

  ghost predicate Lines(rs: seq<Record>, log: seq<Batch>, f: nat) {
    (forall i: nat | i < |rs| :: Faithful(log, rs[i])) && Ends(rs, f, |log|)
  }

  lemma {:induction false} MaxAtMost(rs: seq<Record>, floor: nat, n: nat)
    requires floor <= n && forall i: nat | i < |rs| :: rs[i].number <= n
    ensures floor <= MaxNumber(rs, floor) <= n
  {
    if rs != [] { MaxAtMost(rs[..|rs| - 1], floor, n); }
  }

  /** The highest number found is the length of the history. */
  lemma MaxIsLast(rs: seq<Record>, f: nat, n: nat)
    requires Ends(rs, f, n)
    ensures MaxNumber(rs, f) == n
  {
    MaxAtMost(rs, f, n);
    if n > f { MaxAtMost(rs[..|rs| - 1], f, n); }
  }

  lemma EndsShorter(rs: seq<Record>, f: nat, n: nat)
    requires Ends(rs, f, n) && n > f
    ensures Ends(rs[..|rs| - 1], f, n - 1)
  {
    var q := rs[..|rs| - 1];
    forall i: nat | i < |q| ensures q[i] == rs[i] {}
  }

  /** Replay applies exactly the batches above the watermark, once each and in order. */
  lemma {:induction false} ReplayIsDelta(rs: seq<Record>, log: seq<Batch>, f: nat, n: nat)
    requires n <= |log| && Ends(rs, f, n) && forall i: nat | i < |rs| :: Faithful(log, rs[i])
    ensures ReplayRecords(map[], rs, f) == Delta(log, f, n)
  {
    if rs != [] {
      var last := rs[|rs| - 1];
      if n == f {
        assert Ends(rs[..|rs| - 1], f, n);
        ReplayIsDelta(rs[..|rs| - 1], log, f, n);
      } else {
        EndsShorter(rs, f, n);
        ReplayIsDelta(rs[..|rs| - 1], log, f, n - 1);
        assert Faithful(log, last);
        BatchRoundTrip(log[n - 1]);
      }
    }
  }

  // ---- segments -----------------------------------------------------------------------------

  lemma {:induction false} ConcatSplit(a: seq<seq<Record>>, b: seq<seq<Record>>)
    ensures Concat(a + b) == Concat(a) + Concat(b)
    decreases |b|
  {
    if b == [] {
      assert a + b == a;
    } else {
      var n := |b| - 1;
      ConcatSplit(a, b[..n]);
      assert (a + b)[..|a + b| - 1] == a + b[..n];
    }
  }

  lemma ConcatMore(a: seq<seq<Record>>, r: seq<Record>)
    ensures Concat(a + [r]) == Concat(a) + r
  {
    assert (a + [r])[..|a|] == a;
  }

  lemma ParsedMore(crc: Checksum, segs: seq<Bytes>, b: Bytes, rs: seq<Record>)
    requires rs == ReadAll(crc, b)
    ensures Parsed(crc, segs + [b]) == Parsed(crc, segs) + [rs]
  {
  }

  /** The records up to the last segment, then the last segment's. */
  lemma RecordsMore(crc: Checksum, segs: seq<Bytes>, b: Bytes, rs: seq<Record>)
    requires rs == ReadAll(crc, b)
    ensures AllRecords(crc, segs + [b]) == AllRecords(crc, segs) + rs
  {
    ParsedMore(crc, segs, b, rs);
    ConcatMore(Parsed(crc, segs), rs);
  }

  lemma NothingRead(crc: Checksum)
    ensures ReadAll(crc, []) == []
  {
  }

  lemma RecordsFresh(crc: Checksum, segs: seq<Bytes>)
    ensures AllRecords(crc, segs + [[]]) == AllRecords(crc, segs)
  {
    NothingRead(crc);
    RecordsMore(crc, segs, [], []);
  }

  /** Dropping a stretch of old records leaves the live ones. */
  lemma LinesDropped(a: seq<Record>, chunk: seq<Record>, b: seq<Record>, log: seq<Batch>, f: nat)
    requires Lines(a + chunk + b, log, f) && forall r | r in chunk :: r.number <= f
    ensures Lines(a + b, log, f)
  {
    var all, out := a + chunk + b, a + b;
    var live := |log| - f;
    forall i: nat | i < |out| ensures out[i] == all[if i < |a| then i else i + |chunk|] {}
    if chunk != [] {
      assert chunk[|chunk| - 1] in chunk;
      assert all[|a| + |chunk| - 1] == chunk[|chunk| - 1];
    }
  }

  lemma Around(ps: seq<seq<Record>>, i: nat)
    requires i < |ps|
    ensures ps == ps[..i] + [ps[i]] + ps[i + 1..]
  {
  }

  lemma ConcatAround(ps: seq<seq<Record>>, i: nat)
    requires i < |ps|
    ensures Concat(ps) == Concat(ps[..i]) + ps[i] + Concat(ps[i + 1..])
  {
    Around(ps, i);
    ConcatSplit(ps[..i] + [ps[i]], ps[i + 1..]);
    ConcatMore(ps[..i], ps[i]);
  }

  lemma ParsedAround(crc: Checksum, segs: seq<Bytes>, i: nat, ps: seq<seq<Record>>)
    requires i < |segs| && ps == Parsed(crc, segs)
    ensures Parsed(crc, segs[..i] + segs[i + 1..]) == ps[..i] + ps[i + 1..]
  {
  }

  lemma Reclaimed(crc: Checksum, segs: seq<Bytes>, i: nat, log: seq<Batch>, f: nat)
    requires i < |segs| && Lines(AllRecords(crc, segs), log, f) && forall r | r in ReadAll(crc, segs[i]) :: r.number <= f
    ensures Lines(AllRecords(crc, segs[..i] + segs[i + 1..]), log, f)
  {
    var ps := Parsed(crc, segs);
    ParsedAround(crc, segs, i, ps);
    ConcatAround(ps, i);
    ConcatSplit(ps[..i], ps[i + 1..]);
    LinesDropped(Concat(ps[..i]), ps[i], Concat(ps[i + 1..]), log, f);
  }

  /** A new batch's record goes at the end. */
  lemma LinesAppended(rs: seq<Record>, log: seq<Batch>, f: nat, b: Batch)
    requires Lines(rs, log, f) && Loggable(|log| + 1, b)
    ensures Lines(rs + [RecordOf(|log| + 1, b)], log + [b], f)
  {
    var out := rs + [RecordOf(|log| + 1, b)];
    forall i: nat | i < |out| ensures Faithful(log + [b], out[i]) {
      if i < |rs| { assert Faithful(log, rs[i]); }
    }
  }

  /** Losing the last `j` records loses the last `j` batches. */
  lemma LinesCut(rs: seq<Record>, log: seq<Batch>, f: nat, j: nat)
    requires Lines(rs, log, f) && j <= |log| - f
    ensures Lines(rs[..|rs| - j], log[..|log| - j], f)
  {
    var q := rs[..|rs| - j];
    forall i: nat | i < |q| ensures q[i].number <= |log| - j && Faithful(log[..|log| - j], q[i]) {
      assert Faithful(log, rs[i]);
    }
  }

  /** Raising the watermark within the history. */
  lemma LinesRaised(rs: seq<Record>, log: seq<Batch>, f: nat, g: nat)
    requires Lines(rs, log, f) && f <= g <= |log|
    ensures Lines(rs, log, g)
  {
  }

  // ---- the invariant --------------------------------------------------------------------------------

  ghost predicate DiskOk(d: Db, crc: Checksum) {
    && d.disk.segs != [] && d.disk.manifest.lastFlushed <= |d.log| && d.acked <= |d.log|
    && Lines(AllRecords(crc, d.disk.segs), d.log, d.disk.manifest.lastFlushed)
    && View(Tables(d.disk.files, d.disk.manifest.tables)) == Replay(d.log, d.disk.manifest.lastFlushed)
  }

  function Max(a: nat, b: nat): nat { if a >= b then a else b }

  /** What must survive a crash: the acknowledged batches, those in tables, those about to be. */
  function Floor(d: Db): nat {
    var base := Max(d.acked, d.disk.manifest.lastFlushed);
    if d.mem.Some? && (d.mem.value.flush.Frozen? || d.mem.value.flush.Written?) then Max(base, d.mem.value.flush.upTo) else base
  }

  /** The current segment is whole frames; none of those after the synced ones must survive. */
  ghost predicate TailOk(seg: Bytes, rs: seq<Record>, synced: nat, k: nat, total: nat, floor: nat, crc: Checksum) {
    && k <= |rs| && seg == Frames(crc, rs) && (forall r | r in rs :: Wal.Fits(r))
    && synced == |Frames(crc, rs[..k])| && floor + |rs| <= total + k
  }

  ghost predicate SegmentOk(d: Db, crc: Checksum, k: nat) {
    d.mem.Some? && d.disk.segs != [] &&
    TailOk(Last(d.disk.segs), ReadAll(crc, Last(d.disk.segs)), d.mem.value.synced, k, |d.log|, Floor(d), crc)
  }

  /** What the memtables hold, by where the flush stands. */
  ghost predicate FlushOk(d: Db, m: Mem) {
    var f := d.disk.manifest.lastFlushed;
    var names := Tables(d.disk.files, d.disk.manifest.tables);
    f <= |d.log| &&
    match m.flush
    case Idle => m.tables == names && m.active == Delta(d.log, f, |d.log|)
    case Frozen(x, s) =>
      f <= s <= |d.log| && m.tables == names && x == Delta(d.log, f, s) && m.active == Delta(d.log, s, |d.log|)
    case Written(x, s, n) =>
      && f <= s <= |d.log| && m.tables == names + [x] && x == Delta(d.log, f, s) && m.active == Delta(d.log, s, |d.log|)
      && n !in d.disk.manifest.tables && n in d.disk.files && d.disk.files[n] == x && n < m.nextSst
    case Stored(x) =>
      m.tables == names && names != [] && x == names[|names| - 1] && m.active == Delta(d.log, f, |d.log|)
  }

  ghost predicate MemOk(d: Db, m: Mem) {
    m.number == |d.log| && FlushOk(d, m) && forall x | x in d.disk.manifest.tables :: x < m.nextSst
  }

  ghost predicate Ok(d: Db, crc: Checksum) {
    && DiskOk(d, crc)
    && (d.mem.Some? ==> MemOk(d, d.mem.value) && exists k: nat :: SegmentOk(d, crc, k))
  }

  // ---- appending -----------------------------------------------------------------------------------

  lemma SetLastIs(segs: seq<Bytes>, b: Bytes)
    requires segs != []
    ensures SetLast(segs, b) == segs[..|segs| - 1] + [b] && segs == segs[..|segs| - 1] + [Last(segs)]
    ensures Last(SetLast(segs, b)) == b
  {
  }

  lemma FlushAppend(d: Db, m: Mem, b: Batch, e: Db)
    requires MemOk(d, m) && e.log == d.log + [b] && e.disk.manifest == d.disk.manifest && e.disk.files == d.disk.files
    ensures MemOk(e, m.(active := ApplyFlat(m.active, b), number := m.number + 1))
  {
    var f, n := d.disk.manifest.lastFlushed, |d.log|;
    ApplyPrefix(map[], d.log, e.log, f, n);
    if m.flush.Frozen? || m.flush.Written? {
      ApplyPrefix(map[], d.log, e.log, f, m.flush.upTo);
      ApplyPrefix(map[], d.log, e.log, m.flush.upTo, n);
    }
  }

  lemma TailAppend(seg: Bytes, rs: seq<Record>, synced: nat, k: nat, total: nat, floor: nat, crc: Checksum, r: Record)
    requires TailOk(seg, rs, synced, k, total, floor, crc) && Wal.Fits(r)
    ensures TailOk(seg + Frame(crc, r), rs + [r], synced, k, total + 1, floor, crc)
    ensures ReadAll(crc, seg + Frame(crc, r)) == rs + [r]
  {
    FramesAppend(crc, rs, r);
    ReplayRoundTrip(crc, rs + [r]);
    assert (rs + [r])[..k] == rs[..k];
  }

  lemma Regroup(a: seq<Record>, b: seq<Record>, r: Record)
    ensures (a + b) + [r] == a + (b + [r])
  {
  }

  lemma AppendRecords(crc: Checksum, segs: seq<Bytes>, r: Record, seg: Bytes)
    requires segs != [] && ReadAll(crc, seg) == ReadAll(crc, Last(segs)) + [r]
    ensures AllRecords(crc, SetLast(segs, seg)) == AllRecords(crc, segs) + [r]
  {
    var n := |segs| - 1;
    var rs := ReadAll(crc, Last(segs));
    SetLastIs(segs, seg);
    RecordsMore(crc, segs[..n], Last(segs), rs);
    RecordsMore(crc, segs[..n], seg, rs + [r]);
    Regroup(AllRecords(crc, segs[..n]), rs, r);
  }

  lemma AppendDisk(d: Db, b: Batch, crc: Checksum, e: Db, r: Record)
    requires DiskOk(d, crc) && Loggable(|d.log| + 1, b) && r == RecordOf(|d.log| + 1, b)
    requires e.log == d.log + [b] && e.acked == d.acked && e.disk.segs != []
    requires e.disk.manifest == d.disk.manifest && e.disk.files == d.disk.files
    requires AllRecords(crc, e.disk.segs) == AllRecords(crc, d.disk.segs) + [r]
    ensures DiskOk(e, crc)
  {
    LinesAppended(AllRecords(crc, d.disk.segs), d.log, d.disk.manifest.lastFlushed, b);
    ApplyPrefix(map[], d.log, e.log, 0, d.disk.manifest.lastFlushed);
  }

  lemma AppendStep(d: Db, b: Batch, crc: Checksum)
    requires Ok(d, crc) && Enabled(d, Append(b), crc)
    ensures Ok(Do(d, Append(b), crc), crc)
  {
    var e := Do(d, Append(b), crc);
    var m := d.mem.value;
    var seg, r := Last(d.disk.segs), RecordOf(m.number + 1, b);
    var k: nat :| SegmentOk(d, crc, k);
    TailAppend(seg, ReadAll(crc, seg), m.synced, k, |d.log|, Floor(d), crc, r);
    SetLastIs(d.disk.segs, seg + Frame(crc, r));
    AppendRecords(crc, d.disk.segs, r, seg + Frame(crc, r));
    AppendDisk(d, b, crc, e, r);
    FlushAppend(d, m, b, e);
    assert SegmentOk(e, crc, k);
  }

  // ---- syncing and rotating ----------------------------------------------------------------------------

  lemma SyncStep(d: Db, crc: Checksum)
    requires Ok(d, crc) && Enabled(d, Sync, crc)
    ensures Ok(Do(d, Sync, crc), crc)
  {
    var e := Do(d, Sync, crc);
    var k: nat :| SegmentOk(d, crc, k);
    var rs := ReadAll(crc, Last(d.disk.segs));
    assert rs[..|rs|] == rs;
    assert SegmentOk(e, crc, |rs|);
  }

  lemma FreshSegment(e: Db, crc: Checksum)
    requires e.mem.Some? && e.disk.segs != [] && Last(e.disk.segs) == [] && e.mem.value.synced == 0 && Floor(e) <= |e.log|
    ensures SegmentOk(e, crc, 0)
  {
    NothingRead(crc);
  }

  lemma RotateStep(d: Db, crc: Checksum)
    requires Ok(d, crc) && Enabled(d, Rotate, crc)
    ensures Ok(Do(d, Rotate, crc), crc)
  {
    var e := Do(d, Rotate, crc);
    RecordsFresh(crc, d.disk.segs);
    FreshSegment(e, crc);
    assert SegmentOk(e, crc, 0);
  }

  // ---- flushing -------------------------------------------------------------------------------------------

  lemma {:induction false} TablesSame(files: map<nat, Flat>, names: seq<nat>, n: nat, m: Flat)
    requires n !in names
    ensures Tables(files[n := m], names) == Tables(files, names)
  {
    if names != [] {
      assert names[|names| - 1] in names;
      TablesSame(files, names[..|names| - 1], n, m);
    }
  }

  lemma TablesMore(files: map<nat, Flat>, names: seq<nat>, n: nat)
    requires n in files
    ensures Tables(files, names + [n]) == Tables(files, names) + [files[n]]
  {
    assert (names + [n])[..|names|] == names;
  }

  lemma SameSegment(d: Db, e: Db, crc: Checksum)
    requires exists k: nat :: SegmentOk(d, crc, k)
    requires e.mem.Some? && e.mem.value.synced == d.mem.value.synced && |e.log| == |d.log| && Floor(e) <= Floor(d)
    requires d.disk.segs != [] && e.disk.segs != [] && Last(e.disk.segs) == Last(d.disk.segs)
    ensures exists k: nat :: SegmentOk(e, crc, k)
  {
    var k: nat :| SegmentOk(d, crc, k);
    assert SegmentOk(e, crc, k);
  }

  lemma WriteStep(d: Db, crc: Checksum)
    requires Ok(d, crc) && Enabled(d, WriteSst, crc)
    ensures Ok(Do(d, WriteSst, crc), crc)
  {
    var e := Do(d, WriteSst, crc);
    var m := d.mem.value;
    TablesSame(d.disk.files, d.disk.manifest.tables, m.nextSst, m.flush.m);
    SameSegment(d, e, crc);
  }

  lemma StoreDisk(d: Db, crc: Checksum, e: Db)
    requires DiskOk(d, crc) && d.mem.Some? && d.mem.value.flush.Written? && FlushOk(d, d.mem.value)
    requires e == Do(d, StoreManifest, crc)
    ensures DiskOk(e, crc)
  {
    var w, fl := d.disk.manifest, d.mem.value.flush;
    TablesMore(d.disk.files, w.tables, fl.file);
    ViewPush(Tables(d.disk.files, w.tables), fl.m);
    Caught(d.log, w.lastFlushed, fl.upTo);
    LinesRaised(AllRecords(crc, d.disk.segs), d.log, w.lastFlushed, fl.upTo);
  }

  lemma StoreMem(d: Db, crc: Checksum, e: Db)
    requires d.disk.segs != [] && d.mem.Some? && d.mem.value.flush.Written? && MemOk(d, d.mem.value)
    requires e == Do(d, StoreManifest, crc)
    ensures MemOk(e, e.mem.value)
  {
    TablesMore(d.disk.files, d.disk.manifest.tables, d.mem.value.flush.file);
    assert e.disk.manifest.lastFlushed == d.mem.value.flush.upTo;
  }

  lemma StoreTail(d: Db, crc: Checksum, e: Db)
    requires (exists k: nat :: SegmentOk(d, crc, k)) && d.mem.value.flush.Written? && d.disk.segs != []
    requires e == Do(d, StoreManifest, crc)
    ensures exists k: nat :: SegmentOk(e, crc, k)
  {
    SameSegment(d, e, crc);
  }

  lemma StoreStep(d: Db, crc: Checksum, e: Db)
    requires Ok(d, crc) && Enabled(d, StoreManifest, crc) && e == Do(d, StoreManifest, crc)
    ensures Ok(e, crc)
  {
    StoreDisk(d, crc, e);
    StoreMem(d, crc, e);
    StoreTail(d, crc, e);
  }

  lemma ViewPush(ts: seq<Flat>, m: Flat)
    ensures View(ts + [m]) == View(ts) + m
  {
    assert (ts + [m])[..|ts|] == ts;
  }

  lemma DropStep(d: Db, crc: Checksum)
    requires Ok(d, crc) && Enabled(d, Drop, crc)
    ensures Ok(Do(d, Drop, crc), crc)
  {
    var e := Do(d, Drop, crc);
    SameSegment(d, e, crc);
  }

  lemma LastKept(segs: seq<Bytes>, i: nat)
    requires i < |segs| - 1
    ensures segs[..i] + segs[i + 1..] != [] && Last(segs[..i] + segs[i + 1..]) == Last(segs)
  {
  }

  lemma ReclaimStep(d: Db, i: nat, crc: Checksum)
    requires Ok(d, crc) && Enabled(d, Reclaim(i), crc)
    ensures Ok(Do(d, Reclaim(i), crc), crc)
  {
    var e := Do(d, Reclaim(i), crc);
    LastKept(d.disk.segs, i);
    Reclaimed(crc, d.disk.segs, i, d.log, d.disk.manifest.lastFlushed);
    SameSegment(d, e, crc);
  }

  // ---- crashing and reopening ---------------------------------------------------------------------------------

  /** The cut segment gives back a prefix of its records that holds every synced one. */
  lemma TailCut(seg: Bytes, rs: seq<Record>, synced: nat, k: nat, total: nat, floor: nat, crc: Checksum, n: nat) returns (j: nat)
    requires TailOk(seg, rs, synced, k, total, floor, crc) && synced <= n <= |seg|
    ensures k <= j <= |rs| && ReadAll(crc, seg[..n]) == rs[..j]
  {
    TornTail(crc, rs, n);
    WholeIsIntact(crc, rs, k, n);
    j := Intact(crc, rs, n);
  }

  lemma CutRecords(crc: Checksum, segs: seq<Bytes>, rs: seq<Record>, j: nat, seg: Bytes)
    requires segs != [] && rs == ReadAll(crc, Last(segs)) && j <= |rs| && ReadAll(crc, seg) == rs[..j]
    ensures |rs| - j <= |AllRecords(crc, segs)|
    ensures AllRecords(crc, SetLast(segs, seg)) == AllRecords(crc, segs)[..|AllRecords(crc, segs)| - (|rs| - j)]
  {
    var n := |segs| - 1;
    SetLastIs(segs, seg);
    RecordsMore(crc, segs[..n], Last(segs), rs);
    RecordsMore(crc, segs[..n], seg, rs[..j]);
    CutEnd(AllRecords(crc, segs[..n]), rs, j);
  }

  lemma CutEnd(a: seq<Record>, b: seq<Record>, j: nat)
    requires j <= |b|
    ensures (a + b)[..|a| + |b| - (|b| - j)] == a + b[..j]
  {
  }

  lemma CrashRecords(d: Db, n: nat, crc: Checksum, segs: seq<Bytes>) returns (lost: nat)
    requires (exists k: nat :: SegmentOk(d, crc, k)) && Enabled(d, Crash(n), crc)
    requires segs == SetLast(d.disk.segs, Last(d.disk.segs)[..n])
    ensures Floor(d) + lost <= |d.log| && lost <= |AllRecords(crc, d.disk.segs)|
    ensures AllRecords(crc, segs) == AllRecords(crc, d.disk.segs)[..|AllRecords(crc, d.disk.segs)| - lost]
  {
    var seg := Last(d.disk.segs);
    var rs := ReadAll(crc, seg);
    var k: nat :| SegmentOk(d, crc, k);
    var j := TailCut(seg, rs, d.mem.value.synced, k, |d.log|, Floor(d), crc, n);
    lost := |rs| - j;
    CutRecords(crc, d.disk.segs, rs, j, seg[..n]);
  }

  /** A crash takes a suffix of the history, and nothing that was acknowledged. */
  lemma CrashStep(d: Db, n: nat, crc: Checksum)
    requires Ok(d, crc) && Enabled(d, Crash(n), crc)
    ensures var e := Do(d, Crash(n), crc); Ok(e, crc) && e.log <= d.log && d.acked <= |e.log|
  {
    CrashKeeps(d, n, crc, Do(d, Crash(n), crc));
  }

  lemma CrashKeeps(d: Db, n: nat, crc: Checksum, e: Db)
    requires DiskOk(d, crc) && (exists k: nat :: SegmentOk(d, crc, k)) && Enabled(d, Crash(n), crc)
    requires e == Do(d, Crash(n), crc)
    ensures DiskOk(e, crc) && e.log <= d.log && d.acked <= |e.log|
  {
    var lost := CrashRecords(d, n, crc, e.disk.segs);
    CrashHistory(d, crc, e.disk.segs, lost);
    assert e.log == d.log[..|d.log| - lost];
    CrashDisk(d, e, crc);
  }

  lemma CrashHistory(d: Db, crc: Checksum, segs: seq<Bytes>, lost: nat)
    requires DiskOk(d, crc) && Floor(d) + lost <= |d.log| && lost <= |AllRecords(crc, d.disk.segs)|
    requires AllRecords(crc, segs) == AllRecords(crc, d.disk.segs)[..|AllRecords(crc, d.disk.segs)| - lost]
    ensures Surviving(d, segs, crc) == |d.log| - lost
    ensures Lines(AllRecords(crc, segs), d.log[..|d.log| - lost], d.disk.manifest.lastFlushed)
    ensures Replay(d.log[..|d.log| - lost], d.disk.manifest.lastFlushed) == Replay(d.log, d.disk.manifest.lastFlushed)
  {
    HistoryCut(AllRecords(crc, d.disk.segs), AllRecords(crc, segs), d.log, d.log[..|d.log| - lost],
               d.disk.manifest.lastFlushed, lost);
  }

  lemma CrashDisk(d: Db, e: Db, crc: Checksum)
    requires DiskOk(d, crc) && e.disk.segs != [] && e.disk.manifest == d.disk.manifest && e.disk.files == d.disk.files
    requires d.disk.manifest.lastFlushed <= |e.log| && e.acked <= |e.log|
    requires Lines(AllRecords(crc, e.disk.segs), e.log, d.disk.manifest.lastFlushed)
    requires Replay(e.log, d.disk.manifest.lastFlushed) == Replay(d.log, d.disk.manifest.lastFlushed)
    ensures DiskOk(e, crc)
  {
  }

  lemma HistoryCut(rs: seq<Record>, kept: seq<Record>, log: seq<Batch>, cut: seq<Batch>, f: nat, lost: nat)
    requires Lines(rs, log, f) && f + lost <= |log| && kept == rs[..|rs| - lost] && cut == log[..|log| - lost]
    ensures Lines(kept, cut, f) && MaxNumber(kept, f) == |log| - lost && Replay(cut, f) == Replay(log, f)
  {
    LinesCut(rs, log, f, lost);
    MaxIsLast(kept, f, |log| - lost);
    ApplyPrefix(map[], cut, log, 0, f);
  }

  /** Reopening rebuilds the memtable from the records above the watermark. */
  lemma ReopenStep(d: Db, crc: Checksum)
    requires Ok(d, crc) && Enabled(d, Reopen, crc)
    ensures Ok(Do(d, Reopen, crc), crc)
  {
    var e := Do(d, Reopen, crc);
    var rs, f := AllRecords(crc, d.disk.segs), d.disk.manifest.lastFlushed;
    RecordsFresh(crc, d.disk.segs);
    MaxIsLast(rs, f, |d.log|);
    ReplayIsDelta(rs, d.log, f, |d.log|);
    FreshSegment(e, crc);
    assert SegmentOk(e, crc, 0);
  }

  lemma Step(d: Db, a: Action, crc: Checksum)
    requires Ok(d, crc) && Enabled(d, a, crc)
    ensures var e := Do(d, a, crc); Ok(e, crc) && d.acked <= e.acked && d.acked <= |e.log| && (e.log <= d.log || d.log <= e.log)
  {
    match a
    case Append(b) => AppendStep(d, b, crc);
    case Sync => SyncStep(d, crc);
    case Rotate => RotateStep(d, crc);
    case WriteSst => WriteStep(d, crc);
    case StoreManifest => StoreStep(d, crc, Do(d, a, crc));
    case Drop => DropStep(d, crc);
    case Reclaim(i) => ReclaimStep(d, i, crc);
    case Crash(n) => CrashStep(d, n, crc);
    case Reopen => ReopenStep(d, crc);
  }

  // ---- the theorems -------------------------------------------------------------------------------------------

  lemma FreshOk(crc: Checksum)
    ensures Ok(FRESH, crc)
  {
    RecordsFresh(crc, []);
    assert [] + [[]] == FRESH.disk.segs;
    FreshSegment(FRESH, crc);
    assert SegmentOk(FRESH, crc, 0);
  }

  lemma MoveOk(d: Db, e: Db, crc: Checksum)
    requires Ok(d, crc) && Moves(d, e, crc)
    ensures Ok(e, crc) && d.acked <= e.acked && d.acked <= |e.log| && (e.log <= d.log || d.log <= e.log)
  {
    var a: Action :| Enabled(d, a, crc) && e == Do(d, a, crc);
    Step(d, a, crc);
  }

  lemma {:induction false} RunOk(st: seq<Db>, crc: Checksum, i: nat)
    requires Lifetime(st, crc) && i < |st|
    ensures Ok(st[i], crc)
  {
    if i == 0 {
      FreshOk(crc);
    } else {
      RunOk(st, crc, i - 1);
      MoveOk(st[i - 1], st[i], crc);
    }
  }

  /** Reclaiming drops exactly the one segment, whose records are all flushed, and touches nothing in memory. */
  lemma Reclaims(d: Db, i: nat, crc: Checksum)
    requires Enabled(d, Reclaim(i), crc)
    ensures var z := Do(d, Reclaim(i), crc);
      && |z.disk.segs| == |d.disk.segs| - 1 && z.mem == d.mem && z.log == d.log && z.acked == d.acked
      && z.disk.manifest == d.disk.manifest && z.disk.files == d.disk.files
      && (forall j: nat | j < |z.disk.segs| :: z.disk.segs[j] == d.disk.segs[if j < i then j else j + 1])
      && forall r | r in ReadAll(crc, d.disk.segs[i]) :: r.number <= z.disk.manifest.lastFlushed
  {
  }

  /** Syncing acknowledges every batch so far, and a flush that is stored raises the watermark to what it wrote. */
  lemma SyncsAndStores(d: Db, crc: Checksum)
    ensures Enabled(d, Sync, crc) ==> Do(d, Sync, crc).acked == |d.log| && Do(d, Sync, crc).mem.value.synced == |Last(d.disk.segs)|
    ensures Enabled(d, StoreManifest, crc) ==>
      var z := Do(d, StoreManifest, crc).disk.manifest;
      z.lastFlushed >= d.mem.value.flush.upTo && z.lastFlushed >= d.disk.manifest.lastFlushed && d.mem.value.flush.file in z.tables
  {
    if Enabled(d, StoreManifest, crc) {
      var ts := d.disk.manifest.tables + [d.mem.value.flush.file];
      assert ts[|ts| - 1] in ts;
    }
  }

  /** An open store, after any crashes, rotations and flushes, reads as the replay of its history. */
  lemma StoreIsReplay(st: seq<Db>, crc: Checksum, i: nat)
    requires Lifetime(st, crc) && i < |st| && st[i].mem.Some?
    ensures ReadsAs(st[i].mem.value) == Replay(st[i].log, |st[i].log|)
  {
    RunOk(st, crc, i);
    ReadsAsReplay(st[i], st[i].mem.value, crc);
  }

  /** What lies under the active memtable. */
  ghost function Under(m: Mem): Flat { View(m.tables + (match m.flush case Idle => [] case _ => [m.flush.m])) }

  /** How far the tables and the frozen memtable reach. */
  function Reach(d: Db, m: Mem): nat {
    match m.flush
    case Frozen(_, s) => s
    case Written(_, s, _) => s
    case _ => d.disk.manifest.lastFlushed
  }

  lemma UnderIsReplay(d: Db, m: Mem, crc: Checksum)
    requires DiskOk(d, crc) && MemOk(d, m)
    ensures Reach(d, m) <= |d.log| && Under(m) == Replay(d.log, Reach(d, m)) && m.active == Delta(d.log, Reach(d, m), |d.log|)
  {
    var f := d.disk.manifest.lastFlushed;
    var ts := Tables(d.disk.files, d.disk.manifest.tables);
    match m.flush
    case Idle => assert m.tables + [] == ts;
    case Frozen(x, s) =>
      ViewPush(ts, x);
      Caught(d.log, f, s);
    case Written(x, s, _) =>
      TwiceOnTop(ts, x);
      Caught(d.log, f, s);
    case Stored(x) =>
      ViewPush(ts, x);
      Repeated(ts);
  }

  lemma TwiceOnTop(ts: seq<Flat>, x: Flat)
    ensures View(ts + [x] + [x]) == View(ts) + x
  {
    ViewPush(ts, x);
    ViewPush(ts + [x], x);
  }

  lemma ReadsAsReplay(d: Db, m: Mem, crc: Checksum)
    requires DiskOk(d, crc) && MemOk(d, m)
    ensures ReadsAs(m) == Replay(d.log, |d.log|)
  {
    UnderIsReplay(d, m, crc);
    ViewPush(m.tables + (match m.flush case Idle => [] case _ => [m.flush.m]), m.active);
    Caught(d.log, Reach(d, m), |d.log|);
  }

  lemma Repeated(ts: seq<Flat>)
    requires ts != []
    ensures View(ts) + ts[|ts| - 1] == View(ts)
  {
  }

  /** A step's effect on the history: it grows or loses an end, and keeps what was acknowledged. */
  ghost predicate Keeps(d: Db, e: Db) {
    && d.acked <= |d.log| && d.acked <= e.acked <= |e.log|
    && (e.log <= d.log || d.log <= e.log)
  }

  lemma EachKeeps(st: seq<Db>, crc: Checksum, i: nat)
    requires Lifetime(st, crc) && i + 1 < |st|
    ensures Keeps(st[i], st[i + 1])
  {
    RunOk(st, crc, i);
    MoveOk(st[i], st[i + 1], crc);
  }

  lemma {:induction false} KeptFrom(st: seq<Db>, i: nat, j: nat)
    requires i <= j < |st| && st[i].acked <= |st[i].log| && forall m: nat | m + 1 < |st| :: Keeps(st[m], st[m + 1])
    ensures st[i].acked <= st[j].acked <= |st[j].log| && st[j].log[..st[i].acked] == st[i].log[..st[i].acked]
    decreases j - i
  {
    if i < j {
      KeptFrom(st, i, j - 1);
      assert Keeps(st[j - 1], st[j - 1 + 1]);
      KeepsPrefix(st[j - 1].log, st[j].log, st[i].acked);
    }
  }

  lemma KeepsPrefix(a: seq<Batch>, b: seq<Batch>, n: nat)
    requires n <= |a| && n <= |b| && (a <= b || b <= a)
    ensures a[..n] == b[..n]
  {
  }

  /** No acknowledged batch is ever lost or changed: at every later point of the run the history begins with
      all that was acknowledged. */
  lemma AckedSurvive(st: seq<Db>, crc: Checksum, i: nat, j: nat)
    requires Lifetime(st, crc) && i <= j < |st|
    ensures st[i].acked <= |st[i].log| && st[i].acked <= st[j].acked <= |st[j].log|
    ensures st[j].log[..st[i].acked] == st[i].log[..st[i].acked]
  {
    forall m: nat | m + 1 < |st| ensures Keeps(st[m], st[m + 1]) { EachKeeps(st, crc, m); }
    RunOk(st, crc, i);
    KeptFrom(st, i, j);
  }
}
