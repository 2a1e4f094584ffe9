/** `WalStorage` of raft-wal/src/lib.rs: the log as framed records in one file, the snapshot in another. What reopening
    recovers, whichever two writes a crash falls between. */
module WalStorage {
  import opened Basics
  import opened ByteOrder
  import opened Codec
  import opened Wal
  import opened RaftStorage

  // ---- entries as records -------------------------------------------------------------------

  function EncodeEntry(e: LogEntry): Bytes { Be(e.term, 8) + ([if e.conf then 1 else 0] + e.data) }

  function DecodeEntry(r: Record): Option<LogEntry> {
    if |r.payload| < 9 then None
    else Some(LogEntry(FromBe(r.payload[..8]), r.number, r.payload[8..][0] == 1, r.payload[8..][1..]))
  }

  function RecordOf(e: LogEntry): Record { Record(e.index, EncodeEntry(e)) }

  predicate LogEntryFits(e: LogEntry) { e.term < U64 && e.index < U64 && |e.data| + 17 < U32 }

  lemma EntryRoundTrip(e: LogEntry)
    requires LogEntryFits(e)
    ensures DecodeEntry(RecordOf(e)) == Some(e) && Wal.Fits(RecordOf(e))
  {
    Widths();
    var tail := [if e.conf then 1 else 0] + e.data;
    BeFront(e.term, 8, tail);
    assert tail[1..] == e.data;
  }

  function Records(es: seq<LogEntry>): (rs: seq<Record>)
    ensures |rs| == |es| && forall i: nat | i < |es| :: rs[i] == RecordOf(es[i])
  {
    if es == [] then [] else Records(es[..|es| - 1]) + [RecordOf(es[|es| - 1])]
  }

  /** Replay on open: keep what lies above the snapshot, stop at a malformed payload. */
  function Recovered(rs: seq<Record>, base: nat): seq<LogEntry> {
    if rs == [] then []
    else
      match DecodeEntry(rs[0])
      case None => []
      case Some(e) => (if e.index > base then [e] else []) + Recovered(rs[1..], base)
  }

  /** The two files; each is replaced atomically, the log is also appended to. */
  datatype Disk = Disk(log: Bytes, snap: Option<Snapshot>)

  datatype Opened = Opened(log: seq<LogEntry>, snap: Option<Snapshot>)

  function Open(crc: Checksum, d: Disk): Opened { Opened(Recovered(ReadAll(crc, d.log), Base(d.snap)), d.snap) }

  function FileOf(crc: Checksum, es: seq<LogEntry>): Bytes { Frames(crc, Records(es)) }

  ghost predicate AllFit(es: seq<LogEntry>) { forall i: nat | i < |es| :: LogEntryFits(es[i]) }

  // ---- what reopening recovers -------------------------------------------------------------------

  function Later(full: FullLog, from: nat, base: nat): nat { if from >= base then from else if base <= |full| then base else |full| }

  lemma Prepend(full: FullLog, from: nat)
    requires from < |full|
    ensures [full[from]] + full[from + 1..] == full[from..]
  {
  }

  lemma RecoveredStep(rs: seq<Record>, e: LogEntry, base: nat)
    requires rs != [] && DecodeEntry(rs[0]) == Some(e)
    ensures Recovered(rs, base) == if e.index > base then [e] + Recovered(rs[1..], base) else Recovered(rs[1..], base)
  {
  }

  /** Entries `from` on of the full log, read against a boundary, are the full log above both. */
  lemma {:induction false} RecoveredIs(full: FullLog, from: nat, base: nat)
    requires Indexed(full) && AllFit(full) && from <= |full|
    ensures Recovered(Records(full[from..]), base) == full[Later(full, from, base)..]
    decreases |full| - from
  {
    if from < |full| {
      RecordsFirst(full, from);
      EntryRoundTrip(full[from]);
      RecoveredStep(Records(full[from..]), full[from], base);
      RecoveredIs(full, from + 1, base);
      Prepend(full, from);
    }
  }

  lemma RecordsFirst(full: FullLog, from: nat)
    requires from < |full|
    ensures Records(full[from..]) != [] && Records(full[from..])[0] == RecordOf(full[from])
    ensures Records(full[from..])[1..] == Records(full[from + 1..])
  {
    var a, b := Records(full[from..]), Records(full[from + 1..]);
    assert forall i: nat | i < |b| :: a[1..][i] == b[i];
  }

  lemma RecordsFit(es: seq<LogEntry>)
    requires AllFit(es)
    ensures forall r | r in Records(es) :: Wal.Fits(r)
  {
    forall r | r in Records(es) ensures Wal.Fits(r) {
      var i: nat :| i < |es| && Records(es)[i] == r;
      EntryRoundTrip(es[i]);
    }
  }

  lemma SuffixFits(full: FullLog, from: nat)
    requires AllFit(full) && from <= |full|
    ensures AllFit(full[from..])
  {
  }

  lemma OpenSuffix(crc: Checksum, full: FullLog, from: nat, snap: Option<Snapshot>)
    requires Indexed(full) && AllFit(full) && from <= |full|
    ensures Open(crc, Disk(FileOf(crc, full[from..]), snap)) ==
      Opened(full[Later(full, from, Base(snap))..], snap)
  {
    SuffixFits(full, from);
    RecordsFit(full[from..]);
    ReplayRoundTrip(crc, Records(full[from..]));
    RecoveredIs(full, from, Base(snap));
  }

  /** Reopening at rest gives back the log above the boundary. */
  lemma ReopenAtRest(crc: Checksum, full: FullLog, snap: Option<Snapshot>)
    requires Indexed(full) && AllFit(full) && Base(snap) <= |full|
    ensures Open(crc, Disk(FileOf(crc, full[Base(snap)..]), snap)) == Opened(full[Base(snap)..], snap)
  {
    OpenSuffix(crc, full, Base(snap), snap);
  }

  /** A crash between `compact`'s snapshot write and its log rewrite: the superseded records are filtered, wherever the
      file began, and reopening gives the view the finished compaction gives. */
  lemma CrashInCompact(crc: Checksum, full: FullLog, from: nat, s: Snapshot)
    requires Indexed(full) && AllFit(full) && from <= s.index <= |full|
    ensures Open(crc, Disk(FileOf(crc, full[from..]), Some(s))) ==
      Open(crc, Disk(FileOf(crc, full[s.index..]), Some(s))) == Opened(full[s.index..], Some(s))
  {
    OpenSuffix(crc, full, from, Some(s));
    OpenSuffix(crc, full, s.index, Some(s));
  }

  lemma OpenNothing(crc: Checksum, snap: Option<Snapshot>)
    ensures Open(crc, Disk(FileOf(crc, []), snap)) == Opened([], snap)
  {
    var none: FullLog := [];
    assert none[0..] == none;
    OpenSuffix(crc, none, 0, snap);
  }

  lemma SuffixEmpty(full: FullLog, k: nat)
    requires k <= |full|
    ensures full[k..] == [] <==> k == |full|
  {
  }

  /** A crash between `apply_snapshot`'s two writes: reopening gives the installed view exactly when the old log
      did not reach beyond the snapshot, or its file was empty; otherwise old entries above it come back. */
  lemma CrashInInstall(crc: Checksum, full: FullLog, from: nat, s: Snapshot)
    requires Indexed(full) && AllFit(full) && from <= |full|
    ensures Open(crc, Disk(FileOf(crc, full[from..]), Some(s))) == Open(crc, Disk(FileOf(crc, []), Some(s)))
      <==> |full| <= s.index || |full| == from
  {
    OpenSuffix(crc, full, from, Some(s));
    OpenNothing(crc, Some(s));
    SuffixEmpty(full, Later(full, from, s.index));
  }

  /** Two entries of a lost term under a snapshot of the first: the second outlives the install. */
  lemma OldEntryReturns(crc: Checksum, e: LogEntry, old2: LogEntry, s: Snapshot)
    requires e.index == 1 && old2.index == 2 && LogEntryFits(e) && LogEntryFits(old2) && s.index == 1
    ensures Open(crc, Disk(FileOf(crc, [e, old2]), Some(s))) == Opened([old2], Some(s))
    ensures Open(crc, Disk(FileOf(crc, []), Some(s))) == Opened([], Some(s))
  {
    var full := [e, old2];
    assert full[0..] == full && full[1..] == [old2];
    OpenSuffix(crc, full, 0, Some(s));
    OpenNothing(crc, Some(s));
  }

  lemma RecordsTake(es: seq<LogEntry>, k: nat)
    requires k <= |es|
    ensures Records(es)[..k] == Records(es[..k])
  {
  }

  lemma TornFile(crc: Checksum, es: seq<LogEntry>, kept: nat, n: nat) returns (k: nat)
    requires AllFit(es) && kept <= |es| && |FileOf(crc, es[..kept])| <= n <= |FileOf(crc, es)|
    ensures kept <= k <= |es| && ReadAll(crc, FileOf(crc, es)[..n]) == Records(es[..k])
  {
    RecordsFit(es);
    RecordsTake(es, kept);
    TornTail(crc, Records(es), n);
    WholeIsIntact(crc, Records(es), kept, n);
    k := Intact(crc, Records(es), n);
    RecordsTake(es, k);
  }

  lemma PrefixOk(full: FullLog, k: nat)
    requires Indexed(full) && AllFit(full) && k <= |full|
    ensures Indexed(full[..k]) && AllFit(full[..k])
  {
  }

  lemma Slices(full: FullLog, base: nat, k: nat)
    requires base <= k <= |full|
    ensures full[base..][..k - base] == full[base..k] == full[..k][base..]
  {
  }

  lemma RecoveredPrefix(full: FullLog, from: nat, base: nat, k: nat)
    requires Indexed(full) && AllFit(full) && from <= base <= k <= |full|
    ensures Recovered(Records(full[from..k]), base) == full[base..k]
  {
    PrefixOk(full, k);
    Slices(full, from, k);
    Slices(full, base, k);
    RecoveredIs(full[..k], from, base);
  }

  /** A crash inside `append`, whose last entries go beyond the first `kept`: wherever the file began, and whatever part
      of the new records reached it, reopening gives what was there and a prefix of the new entries. */
  lemma CrashInAppend(crc: Checksum, full: FullLog, from: nat, kept: nat, snap: Option<Snapshot>, n: nat) returns (k: nat)
    requires Indexed(full) && AllFit(full) && from <= Base(snap) <= kept <= |full|
    requires |FileOf(crc, full[from..kept])| <= n <= |FileOf(crc, full[from..])|
    ensures kept <= k <= |full|
    ensures Open(crc, Disk(FileOf(crc, full[from..])[..n], snap)) == Opened(full[Base(snap)..k], snap)
  {
    k := TornAt(crc, full, from, kept, n);
    RecoveredPrefix(full, from, Base(snap), k);
  }

  lemma TornAt(crc: Checksum, full: FullLog, from: nat, kept: nat, n: nat) returns (k: nat)
    requires AllFit(full) && from <= kept <= |full| && |FileOf(crc, full[from..kept])| <= n <= |FileOf(crc, full[from..])|
    ensures kept <= k <= |full| && ReadAll(crc, FileOf(crc, full[from..])[..n]) == Records(full[from..k])
  {
    SuffixFits(full, from);
    Slices(full, from, kept);
    var j := TornFile(crc, full[from..], kept - from, n);
    k := from + j;
    Slices(full, from, k);
  }

  // ---- the storage as an object -------------------------------------------------------------------------

  /** Memory holds the full log above the boundary, and the file its records from `from` on. */
  ghost predicate Holds(crc: Checksum, full: FullLog, from: nat, snap: Option<Snapshot>, log: seq<LogEntry>, file: Bytes) {
    && Indexed(full) && AllFit(full) && Covers(full, snap) && from <= Base(snap) <= |full|
    && log == full[Base(snap)..] && Written(crc, full[from..], file)
  }

  predicate IsFile(crc: Checksum, es: seq<LogEntry>, x: Bytes) { x == FileOf(crc, es) }

  /** The file is the one of these entries; said so that `FileOf` is unfolded only on request. */
  ghost predicate Written(crc: Checksum, es: seq<LogEntry>, file: Bytes) {
    forall x: Bytes {:trigger IsFile(crc, es, x)} | x == file :: IsFile(crc, es, x)
  }

  lemma WrittenIs(crc: Checksum, es: seq<LogEntry>, file: Bytes)
    ensures Written(crc, es, file) <==> file == FileOf(crc, es)
  {
    assert Written(crc, es, file) ==> IsFile(crc, es, file);
  }

  lemma HoldsMore(crc: Checksum, full: FullLog, from: nat, snap: Option<Snapshot>, log: seq<LogEntry>, file: Bytes, e: LogEntry)
    requires Holds(crc, full, from, snap, log, file) && e.index == |full| + 1 && LogEntryFits(e)
    ensures Holds(crc, full + [e], from, snap, log + [e], file + Frame(crc, RecordOf(e)))
  {
    Durable.OneMore(crc, full[from..], e);
    WrittenIs(crc, full[from..], file);
    WrittenIs(crc, full[from..] + [e], file + Frame(crc, RecordOf(e)));
    Durable.Longer(full, from, e);
    Durable.Longer(full, Base(snap), e);
    MoreIsOk(full, snap, e);
  }

  lemma MoreIsOk(full: FullLog, snap: Option<Snapshot>, e: LogEntry)
    requires Indexed(full) && AllFit(full) && Covers(full, snap) && e.index == |full| + 1 && LogEntryFits(e)
    ensures Indexed(full + [e]) && AllFit(full + [e]) && Covers(full + [e], snap)
  {
  }

  /** The log cut at `at`, never below the boundary. */
  lemma CutIsOk(full: FullLog, snap: Option<Snapshot>, log: seq<LogEntry>, at: nat, keep: nat, out: FullLog)
    requires Indexed(full) && AllFit(full) && Covers(full, snap) && Base(snap) <= |full| && log == full[Base(snap)..]
    requires keep == (if at <= Base(snap) + 1 then 0 else if at - Base(snap) - 1 < |log| then at - Base(snap) - 1 else |log|)
    requires out == Truncated(full, Base(snap), at)
    ensures Indexed(out) && AllFit(out) && Covers(out, snap) && Base(snap) <= |out| && log[..keep] == out[Base(snap)..]
    ensures keep >= |log| ==> out == full
  {
  }

  /** A higher boundary, with the memory cut to it and the file as it was. */
  lemma CompactHolds(crc: Checksum, full: FullLog, from: nat, snap: Option<Snapshot>, log: seq<LogEntry>, file: Bytes, s: Snapshot,
                     drop: nat)
    requires Holds(crc, full, from, snap, log, file) && Covers(full, Some(s)) && Base(snap) < s.index
    requires drop == (if s.index - Base(snap) < |log| then s.index - Base(snap) else |log|)
    ensures Holds(crc, full, from, Some(s), log[drop..], file)
  {
    DropSuffix(full, Base(snap), s.index);
  }

  lemma DropSuffix(full: FullLog, base: nat, at: nat)
    requires base <= at <= |full|
    ensures full[base..][at - base..] == full[at..]
  {
  }

  lemma OpenHolds(crc: Checksum, snap: Option<Snapshot>, left: FullLog, begins: nat, records: seq<Record>)
    requires Indexed(left) && AllFit(left) && Covers(left, snap) && begins <= Base(snap) <= |left| && records == Records(left[begins..])
    ensures Holds(crc, left, begins, snap, Recovered(records, Base(snap)), Frames(crc, records))
  {
    RecoveredIs(left, begins, Base(snap));
    WrittenIs(crc, left[begins..], Frames(crc, records));
  }

  class Durable {
    const crc: Checksum
    var log: seq<LogEntry>
    var snap: Option<Snapshot>
    // what is on disk
    var file: Bytes
    var snapFile: Option<Snapshot>
    /** The log had it never been compacted, and where the file's records begin in it. */
    ghost var full: FullLog
    ghost var from: nat

    /** Memory holds the full log above the boundary; the file may begin below it. */
    ghost predicate Valid()
      reads this
    {
      Holds(crc, full, from, snap, log, file) && snapFile == snap
    }

    /** At rest, reopening gives the view in memory. */
    lemma Reopens()
      requires Valid()
      ensures Open(crc, Disk(file, snapFile)) == Opened(log, snap)
    {
      WrittenIs(crc, full[from..], file);
      OpenSuffix(crc, full, from, snap);
    }

    /** Open what a crash left of a log: whole records from some point on, then perhaps a torn one, which is cut. */
    constructor (crc: Checksum, disk: Disk, ghost left: FullLog, ghost begins: nat)
      requires Indexed(left) && AllFit(left) && Covers(left, disk.snap) && begins <= Base(disk.snap) <= |left|
      requires ReadAll(crc, disk.log) == Records(left[begins..])
      ensures Valid() && full == left && snap == disk.snap && this.crc == crc && from == begins
    {
      OpenHolds(crc, disk.snap, left, begins, ReadAll(crc, disk.log));
      this.crc, snap, snapFile := crc, disk.snap, disk.snap;
      var records := ReadAll(crc, disk.log);
      log := Recovered(records, Base(disk.snap));
      file := Frames(crc, records);
      full, from := left, begins;
    }

    method AppendOne(e: LogEntry)
      requires Valid() && e.index == |full| + 1 && LogEntryFits(e)
      modifies `log, `file, `full
      ensures Valid() && full == old(full) + [e]
    {
      HoldsMore(crc, full, from, snap, log, file, e);
      file := file + Frame(crc, RecordOf(e));
      log := log + [e];
      full := full + [e];
    }

    static lemma Longer(full: FullLog, at: nat, e: LogEntry)
      requires at <= |full|
      ensures (full + [e])[at..] == full[at..] + [e]
    {
    }

    static lemma TakeOne(a: FullLog, es: seq<LogEntry>, i: nat)
      requires i < |es|
      ensures (a + es[..i]) + [es[i]] == a + es[..i + 1]
    {
    }

    static lemma OneMore(crc: Checksum, es: seq<LogEntry>, e: LogEntry)
      ensures FileOf(crc, es + [e]) == FileOf(crc, es) + Frame(crc, RecordOf(e))
    {
      assert Records(es + [e]) == Records(es) + [RecordOf(e)];
      FramesAppend(crc, Records(es), RecordOf(e));
    }

    method Append(entries: seq<LogEntry>)
      requires Valid() && forall i: nat | i < |entries| :: entries[i].index == |full| + 1 + i && LogEntryFits(entries[i])
      modifies `log, `file, `full
      ensures Valid() && full == old(full) + entries
    {
      var i := 0;
      while i < |entries|
        invariant i <= |entries| && Valid() && full == old(full) + entries[..i]
      {
        AppendOne(entries[i]);
        TakeOne(old(full), entries, i);
        i := i + 1;
      }
      assert entries[..i] == entries;
    }

    /** Rewrite the file from memory, atomically. */
    method RewriteLog()
      requires Base(snap) <= |full| && log == full[Base(snap)..]
      modifies `file, `from
      ensures from == Base(snap) && Written(crc, full[from..], file)
    {
      var tmp: Bytes := [];
      var i := 0;
      while i < |log|
        invariant i <= |log| && tmp == FileOf(crc, log[..i])
      {
        OneMore(crc, log[..i], log[i]);
        assert log[..i + 1] == log[..i] + [log[i]];
        tmp := tmp + Frame(crc, RecordOf(log[i]));
        i := i + 1;
      }
      assert log[..i] == log;
      WrittenIs(crc, log, tmp);
      file := tmp;
      from := Base(snap);
    }

    method TruncateSuffix(at: nat)
      requires Valid()
      modifies `log, `file, `full, `from
      ensures Valid() && full == Truncated(old(full), Base(snap), at)
    {
      var base := Base(snap);
      var keep := if at <= base + 1 then 0 else if at - base - 1 < |log| then at - base - 1 else |log|;
      CutIsOk(full, snap, log, at, keep, Truncated(full, base, at));
      if keep >= |log| { return; }
      full := Truncated(full, base, at);
      log := log[..keep];
      RewriteLog();
    }

    /** Snapshot file first, then the shortened log; a crash in between reopens to the same view. */
    method Compact(s: Snapshot)
      requires Valid() && Covers(full, Some(s))
      modifies `log, `snap, `file, `snapFile, `from
      ensures Valid() && snap == if s.index <= old(Base(snap)) then old(snap) else Some(s)
    {
      var base := Base(snap);
      if s.index <= base { return; }
      var drop := if s.index - base < |log| then s.index - base else |log|;
      CompactHolds(crc, full, from, snap, log, file, s, drop);
      log := log[drop..];
      snap := Some(s);
      snapFile := snap;
      Reopens();
      RewriteLog();
    }

    /** Install the leader's snapshot over the old log. */
    method ApplySnapshot(s: Snapshot, ghost theirs: FullLog)
      requires Indexed(theirs) && AllFit(theirs) && |theirs| == s.index && Covers(theirs, Some(s))
      modifies this
      ensures Valid() && full == theirs && snap == Some(s)
    {
      log, snap := [], Some(s);
      snapFile := snap;
      full := theirs;
      RewriteLog();
    }
  }
}
