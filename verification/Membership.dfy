/** The membership a node derives from its log (raft/src/node.rs): whatever is appended, truncated, compacted or
    installed, and across restarts, the cached sets are those of the log, and a leader is one of its voters. */
module Membership {
  import opened Basics
  import opened RaftStorage
  import opened ConfChange
  import opened SortedIds

  // ---- the membership of a log --------------------------------------------------------------

  function BaseConf(snap: Option<Snapshot>, boot: Ids): Conf {
    if snap.Some? then Conf(snap.value.voters, snap.value.learners) else Conf(boot, [])
  }

  /** The last recorded membership wins; a malformed record is skipped. */
  function Fold(c: Conf, es: seq<LogEntry>): Conf {
    if es == [] then c
    else
      var e := es[|es| - 1];
      if e.conf && Decode(e.data).Some? then Decode(e.data).value else Fold(c, es[..|es| - 1])
  }

  /** `conf_at`. */
  function ConfAt(full: FullLog, snap: Option<Snapshot>, boot: Ids, index: nat): Conf
    requires Base(snap) <= index <= |full|
  {
    Tidy(Fold(BaseConf(snap, boot), full[Base(snap)..index]))
  }

  lemma {:induction false} FoldSplit(c: Conf, a: seq<LogEntry>, b: seq<LogEntry>)
    ensures Fold(c, a + b) == Fold(Fold(c, a), b)
    decreases |b|
  {
    if b == [] {
      assert a + b == a;
    } else {
      FoldSplit(c, a, b[..|b| - 1]);
      assert (a + b)[..|a + b| - 1] == a + b[..|b| - 1];
    }
  }

  lemma TidyTidy(c: Conf)
    ensures Tidy(Tidy(c)) == Tidy(c)
  {
    NormStable(Norm(c.voters));
    NormStable(Norm(c.learners));
  }

  lemma {:induction false} FoldTidy(c: Conf, es: seq<LogEntry>)
    ensures Tidy(Fold(Tidy(c), es)) == Tidy(Fold(c, es))
  {
    if es == [] {
      TidyTidy(c);
    } else {
      FoldTidy(c, es[..|es| - 1]);
    }
  }

  /** Compaction records the membership as of its index, so the log's membership does not change. */
  lemma CompactKeepsConf(full: FullLog, snap: Option<Snapshot>, boot: Ids, s: Snapshot, index: nat)
    requires Base(snap) <= s.index <= index <= |full|
    requires Conf(s.voters, s.learners) == ConfAt(full, snap, boot, s.index)
    ensures ConfAt(full, Some(s), boot, index) == ConfAt(full, snap, boot, index)
  {
    var c, a, b := BaseConf(snap, boot), full[Base(snap)..s.index], full[s.index..index];
    assert full[Base(snap)..index] == a + b;
    FoldSplit(c, a, b);
    FoldTidy(Fold(c, a), b);
  }

  /** An ordinary entry changes no membership. */
  lemma AppendKeepsConf(full: FullLog, snap: Option<Snapshot>, boot: Ids, e: LogEntry, after: FullLog)
    requires Base(snap) <= |full| && !e.conf && after == full + [e]
    ensures ConfAt(after, snap, boot, |after|) == ConfAt(full, snap, boot, |full|)
  {
    var a := full[Base(snap)..];
    assert full[Base(snap)..|full|] == a;
    assert after[Base(snap)..|after|] == a + [e];
    assert (a + [e])[..|a|] == a;
  }

  /** A recorded change becomes the membership on append. */
  lemma AppendSetsConf(full: FullLog, snap: Option<Snapshot>, boot: Ids, e: LogEntry, c: Conf, after: FullLog)
    requires Base(snap) <= |full| && e.conf && Decode(e.data) == Some(c) && after == full + [e]
    ensures ConfAt(after, snap, boot, |after|) == Tidy(c)
  {
    assert after[Base(snap)..|after|] == full[Base(snap)..] + [e];
  }

  // ---- nobody both votes and learns -----------------------------------------------------------------

  ghost predicate DisjointEntry(e: LogEntry) { e.conf && Decode(e.data).Some? ==> Disjoint(Decode(e.data).value) }

  ghost predicate DisjointEntries(es: seq<LogEntry>) { forall i: nat | i < |es| :: DisjointEntry(es[i]) }

  /** Every membership the log has recorded, in its snapshot or since, keeps voters and learners apart. */
  ghost predicate DisjointLog(full: FullLog, snap: Option<Snapshot>, boot: Ids) {
    Disjoint(BaseConf(snap, boot)) && forall i: nat | Base(snap) <= i < |full| :: DisjointEntry(full[i])
  }

  lemma TidyDisjoint(c: Conf)
    requires Disjoint(c)
    ensures Disjoint(Tidy(c))
  {
    assert Members(Norm(c.voters)) == Members(c.voters) && Members(Norm(c.learners)) == Members(c.learners);
  }

  lemma {:induction false} FoldDisjoint(c: Conf, es: seq<LogEntry>)
    requires Disjoint(c) && DisjointEntries(es)
    ensures Disjoint(Fold(c, es))
  {
    if es != [] {
      var n := |es| - 1;
      assert DisjointEntry(es[n]);
      FoldDisjoint(c, es[..n]);
    }
  }

  /** And so does the membership at every index. */
  lemma DisjointAt(full: FullLog, snap: Option<Snapshot>, boot: Ids, index: nat)
    requires Base(snap) <= index <= |full| && DisjointLog(full, snap, boot)
    ensures Disjoint(ConfAt(full, snap, boot, index))
  {
    FoldDisjoint(BaseConf(snap, boot), full[Base(snap)..index]);
    TidyDisjoint(Fold(BaseConf(snap, boot), full[Base(snap)..index]));
  }

  lemma AppendDisjoint(full: FullLog, snap: Option<Snapshot>, boot: Ids, e: LogEntry, after: FullLog)
    requires DisjointLog(full, snap, boot) && DisjointEntry(e) && after == full + [e]
    ensures DisjointLog(after, snap, boot)
  {
  }

  lemma CompactDisjoint(full: FullLog, snap: Option<Snapshot>, after: Option<Snapshot>, boot: Ids, index: nat)
    requires DisjointLog(full, snap, boot) && Base(snap) <= |full|
    requires after == snap || (after.Some? && Base(snap) < after.value.index == index <= |full|
               && Conf(after.value.voters, after.value.learners) == ConfAt(full, snap, boot, index))
    ensures DisjointLog(full, after, boot)
  {
    if after != snap { DisjointAt(full, snap, boot, index); }
  }

  lemma SplicedDisjoint(before: FullLog, snap: Option<Snapshot>, boot: Ids, prev: nat, entries: seq<LogEntry>, after: FullLog)
    requires DisjointLog(before, snap, boot) && Spliced(before, Base(snap), prev, entries, after)
    requires DisjointEntries(entries)
    ensures DisjointLog(after, snap, boot)
  {
  }

  // ---- the node ---------------------------------------------------------------------------------

  datatype Role = Follower | Candidate | Leader

  datatype Outcome = Proposed(index: nat) | NotLeader | TransferInProgress | ConfChangeInProgress | CannotRemoveLeader

  ghost predicate Pending(es: seq<LogEntry>, from: nat) { exists i: nat | from <= i < |es| :: es[i].conf }

  /** Entries before `k` that lie above the snapshot are already in the log. */
  predicate Kept(full: FullLog, base: nat, prev: nat, entries: seq<LogEntry>, k: nat)
    requires k <= |entries|
  {
    forall i: nat | i < k && prev + i >= base :: prev + i < |full| && full[prev + i].term == entries[i].term
  }

  /** The log after an append: unchanged if it holds every entry; else cut at the first conflict and continued from it. */
  ghost predicate Spliced(before: FullLog, base: nat, prev: nat, entries: seq<LogEntry>, after: FullLog) {
    || (Kept(before, base, prev, entries, |entries|) && after == before)
    || exists k: nat | k < |entries| :: ConflictAt(before, base, prev, entries, k) && after == before[..prev + k] + entries[k..]
  }

  predicate ConflictAt(before: FullLog, base: nat, prev: nat, entries: seq<LogEntry>, k: nat)
    requires k < |entries|
  {
    && Kept(before, base, prev, entries, k) && base <= prev + k <= |before|
    && (prev + k < |before| ==> before[prev + k].term != entries[k].term)
  }

  lemma KeptNext(full: FullLog, base: nat, prev: nat, entries: seq<LogEntry>, k: nat)
    requires k < |entries| && Kept(full, base, prev, entries, k)
    requires prev + k >= base ==> prev + k < |full| && full[prev + k].term == entries[k].term
    ensures Kept(full, base, prev, entries, k + 1)
  {
  }

  lemma ConflictSplices(before: FullLog, base: nat, prev: nat, entries: seq<LogEntry>, k: nat)
    requires k < |entries| && ConflictAt(before, base, prev, entries, k)
    ensures Truncated(before, base, prev + 1 + k) == before[..prev + k] && (prev + k == |before| ==> before[..prev + k] == before)
    ensures Spliced(before, base, prev, entries, before[..prev + k] + entries[k..])
  {
  }

  lemma IndexedMore(full: FullLog, entries: seq<LogEntry>)
    requires Indexed(full) && forall i: nat | i < |entries| :: entries[i].index == |full| + 1 + i
    ensures Indexed(full + entries)
  {
  }

  class Member {
    const id: nat
    const boot: Ids
    const storage: MemStorage
    var role: Role
    var commit: nat
    var applied: nat
    var transfer: Option<nat>
    var voters: Ids
    var learners: Ids

    ghost predicate Cached()
      reads this, storage
      requires Base(storage.snap) <= |storage.full|
    {
      Conf(voters, learners) == ConfAt(storage.full, storage.snap, boot, |storage.full|)
    }

    /** The cached sets are those of the log, and only a voter campaigns or leads. */
    ghost predicate Valid()
      reads this, storage
    {
      storage.Valid() && Cached() && (role != Follower ==> id in voters)
    }

    /** Nobody in any membership on record both votes and learns. */
    ghost predicate Sound()
      reads this, storage
    {
      DisjointLog(storage.full, storage.snap, boot)
    }

    /** So nobody does now. */
    lemma SoundNow()
      requires Valid() && Sound()
      ensures Disjoint(Conf(voters, learners))
    {
      DisjointAt(storage.full, storage.snap, boot, |storage.full|);
    }

    /** Start, or restart, from what storage kept. */
    constructor (id: nat, boot: Ids, storage: MemStorage)
      requires storage.Valid()
      ensures Valid() && this.id == id && this.boot == boot && this.storage == storage && role == Follower
    {
      this.id, this.boot, this.storage := id, boot, storage;
      role, commit, applied, transfer := Follower, 0, 0, None;
      voters, learners := boot, [];
      new;
      RecomputeConf();
    }

    /** `conf_at`: walk the live log up to `index`. */
    method ConfAtIndex(index: nat) returns (c: Conf)
      requires storage.Valid() && Base(storage.snap) <= index <= |storage.full|
      ensures c == ConfAt(storage.full, storage.snap, boot, index)
    {
      var base := BaseConf(storage.snap, boot);
      c := base;
      var first := storage.FirstIndex();
      var es := storage.Entries(first, index);
      assert es == storage.full[Base(storage.snap)..index];
      var i := 0;
      while i < |es|
        invariant i <= |es| && c == Fold(base, es[..i])
      {
        assert es[..i + 1][..i] == es[..i];
        if es[i].conf {
          var d := Decode(es[i].data);
          if d.Some? { c := d.value; }
        }
        i := i + 1;
      }
      assert es[..i] == es;
      c := Tidy(c);
    }

    /** After any log mutation: re-derive the sets, drop a transfer to a lost voter, step down if no longer one. */
    method RecomputeConf()
      requires storage.Valid() && role != Candidate
      modifies `voters, `learners, `transfer, `role
      ensures Valid() && role == (if old(role) == Leader && id !in voters then Follower else old(role))
      ensures transfer == if (old(role) == Leader && id !in voters) || (old(transfer).Some? && old(transfer).value !in voters) then None
                          else old(transfer)
    {
      var last := storage.LastIndex();
      var c := ConfAtIndex(last);
      voters, learners := c.voters, c.learners;
      if transfer.Some? && transfer.value !in voters { transfer := None; }
      if role == Leader && id !in voters { BecomeFollower(); }
    }

    method BecomeFollower()
      modifies `role, `transfer
      ensures role == Follower && transfer == None
    {
      role, transfer := Follower, None;
    }

    /** Only a voter campaigns. */
    method Campaign()
      requires Valid()
      modifies `role
      ensures Valid() && role == if id in voters then Candidate else old(role)
    {
      if id !in voters { return; }
      role := Candidate;
    }

    method Win()
      requires Valid() && role == Candidate
      modifies `role, `transfer
      ensures Valid() && role == Leader && id in voters
    {
      role, transfer := Leader, None;
    }

    // ---- the leader's log ---------------------------------------------------------------------------

    method AppendEntry(e: LogEntry)
      requires storage.Valid() && e.index == |storage.full| + 1
      modifies storage
      ensures storage.Valid() && storage.full == old(storage.full) + [e] && storage.snap == old(storage.snap)
    {
      IndexedMore(storage.full, [e]);
      storage.Append([e]);
    }

    /** A client command: appended without touching the cached sets. */
    method Propose(term: nat, data: Bytes) returns (r: Outcome)
      requires Valid()
      modifies storage
      ensures Valid() && storage.snap == old(storage.snap) && (old(Sound()) ==> Sound())
      ensures r == if role != Leader then NotLeader else if transfer.Some? then TransferInProgress else Proposed(old(|storage.full|) + 1)
      ensures storage.full == old(storage.full) + if r.Proposed? then [LogEntry(term, old(|storage.full|) + 1, false, data)] else []
    {
      if role != Leader { return NotLeader; }
      if transfer.Some? { return TransferInProgress; }
      var last := storage.LastIndex();
      var e := LogEntry(term, last + 1, false, data);
      ghost var before := storage.full;
      AppendEntry(e);
      AppendKeepsConf(before, storage.snap, boot, e, storage.full);
      if old(Sound()) { AppendDisjoint(before, storage.snap, boot, e, storage.full); }
      r := Proposed(last + 1);
    }

    /** Whether an uncommitted membership change is in the log. */
    method HasPending() returns (b: bool)
      requires storage.Valid()
      ensures b <==> Pending(storage.full, Max(commit, Base(storage.snap)))
    {
      var first := storage.FirstIndex();
      var last := storage.LastIndex();
      var es := storage.Entries(Max(commit + 1, first), last);
      PendingIn(storage.full, Base(storage.snap), commit, es);
      b := AnyConf(es);
    }

    static method AnyConf(es: seq<LogEntry>) returns (b: bool)
      ensures b <==> Pending(es, 0)
    {
      var i := 0;
      while i < |es|
        invariant i <= |es| && forall j: nat | j < i :: !es[j].conf
      {
        if es[i].conf { return true; }
        i := i + 1;
      }
      b := false;
    }

    /** The entries looked at are the ones past the commit index. */
    static lemma PendingIn(full: FullLog, base: nat, commit: nat, es: seq<LogEntry>)
      requires base <= |full| && es == Between(full, base, Max(commit + 1, base + 1), |full|)
      ensures Pending(es, 0) <==> Pending(full, Max(commit, base))
    {
      var lo := Max(commit, base);
      assert lo < |full| ==> es == full[lo..];
      assert forall j: nat | j < |es| :: es[j] == full[lo + j];
      assert forall i: nat | lo <= i < |full| :: full[i] == es[i - lo];
    }

    static function Max(a: nat, b: nat): nat { if a >= b then a else b }

    /** Append the entry that records `next` and adopt it. */
    method AppendConf(e: LogEntry, next: Conf)
      requires storage.Valid() && role == Leader && e.conf && e.index == |storage.full| + 1
      requires Decode(e.data) == Some(next) && Tidy(next) == next && id in next.voters
      modifies this, storage
      ensures Valid() && role == Leader && Conf(voters, learners) == next && storage.snap == old(storage.snap)
      ensures storage.full == old(storage.full) + [e] && (old(Sound()) && Disjoint(next) ==> Sound())
    {
      AppendEntry(e);
      AppendSetsConf(old(storage.full), storage.snap, boot, e, next, storage.full);
      RecomputeConf();
    }

    /** Why a membership change is refused, if it is. */
    method Refusal(cc: Change) returns (r: Option<Outcome>)
      requires storage.Valid()
      ensures r == if role != Leader then Some(NotLeader)
                   else if transfer.Some? then Some(TransferInProgress)
                   else if Pending(storage.full, Max(commit, Base(storage.snap))) then Some(ConfChangeInProgress)
                   else if cc == RemoveNode(id) then Some(CannotRemoveLeader)
                   else None
    {
      if role != Leader { return Some(NotLeader); }
      if transfer.Some? { return Some(TransferInProgress); }
      var pending := HasPending();
      if pending { return Some(ConfChangeInProgress); }
      r := if cc == RemoveNode(id) then Some(CannotRemoveLeader) else None;
    }

    /** A membership change: one at a time, never the leader's own removal, effective on append. */
    method ProposeConfChange(term: nat, cc: Change) returns (r: Outcome)
      requires Valid() && Fits(ApplyChange(Conf(voters, learners), cc).voters) && Fits(ApplyChange(Conf(voters, learners), cc).learners)
      modifies this, storage
      ensures Valid() && role == old(role) && storage.snap == old(storage.snap) && (old(Sound()) ==> Sound())
      ensures r == if old(role) != Leader then NotLeader
                   else if old(transfer).Some? then TransferInProgress
                   else if Pending(old(storage.full), Max(old(commit), old(Base(storage.snap)))) then ConfChangeInProgress
                   else if cc == RemoveNode(id) then CannotRemoveLeader
                   else Proposed(old(|storage.full|) + 1)
      ensures r.Proposed? ==> Conf(voters, learners) == Tidy(ApplyChange(old(Conf(voters, learners)), cc))
      ensures r.Proposed? ==> IsChange(old(Conf(voters, learners)), cc, Conf(voters, learners))
      ensures r.Proposed? ==>
        storage.full == old(storage.full) + [LogEntry(term, old(|storage.full|) + 1, true, Encode(cc, Conf(voters, learners)))]
      ensures !r.Proposed? ==> Conf(voters, learners) == old(Conf(voters, learners)) && storage.full == old(storage.full)
    {
      ChangeIs(Conf(voters, learners), cc);
      r := ProposeConf(term, cc);
    }

    method ProposeConf(term: nat, cc: Change) returns (r: Outcome)
      requires Valid() && Fits(ApplyChange(Conf(voters, learners), cc).voters) && Fits(ApplyChange(Conf(voters, learners), cc).learners)
      modifies this, storage
      ensures Valid() && role == old(role) && storage.snap == old(storage.snap) && (old(Sound()) ==> Sound())
      ensures r == if old(role) != Leader then NotLeader
                   else if old(transfer).Some? then TransferInProgress
                   else if Pending(old(storage.full), Max(old(commit), old(Base(storage.snap)))) then ConfChangeInProgress
                   else if cc == RemoveNode(id) then CannotRemoveLeader
                   else Proposed(old(|storage.full|) + 1)
      ensures r.Proposed? ==> Conf(voters, learners) == Tidy(ApplyChange(old(Conf(voters, learners)), cc))
      ensures r.Proposed? ==>
        storage.full == old(storage.full) + [LogEntry(term, old(|storage.full|) + 1, true, Encode(cc, Conf(voters, learners)))]
      ensures !r.Proposed? ==> Conf(voters, learners) == old(Conf(voters, learners)) && storage.full == old(storage.full)
    {
      var refusal := Refusal(cc);
      if refusal.Some? { return refusal.value; }
      var index := AdoptChange(term, cc);
      r := Proposed(index);
    }

    /** Record the membership the change results in, and take it on. */
    method AdoptChange(term: nat, cc: Change) returns (index: nat)
      requires Valid() && role == Leader && cc != RemoveNode(id)
      requires Fits(ApplyChange(Conf(voters, learners), cc).voters) && Fits(ApplyChange(Conf(voters, learners), cc).learners)
      modifies this, storage
      ensures Valid() && role == Leader && storage.snap == old(storage.snap) && index == old(|storage.full|) + 1
      ensures Conf(voters, learners) == Tidy(ApplyChange(old(Conf(voters, learners)), cc))
      ensures storage.full == old(storage.full) + [LogEntry(term, index, true, Encode(cc, Conf(voters, learners)))]
      ensures old(Sound()) ==> Sound()
    {
      var next := Tidy(ApplyChange(Conf(voters, learners), cc));
      NextIsFit(Conf(voters, learners), cc, id);
      ChangeIs(Conf(voters, learners), cc);
      if Sound() {
        SoundNow();
        ChangeKeepsDisjoint(Conf(voters, learners), cc, next);
      }
      var last := storage.LastIndex();
      index := last + 1;
      AppendConf(LogEntry(term, index, true, Encode(cc, next)), next);
    }

    // ---- the follower's log ----------------------------------------------------------------------------

    /** Where the entries first leave the log. */
    method FirstConflict(prev: nat, entries: seq<LogEntry>) returns (k: nat)
      requires storage.Valid() && prev <= |storage.full|
      ensures k <= |entries| && Kept(storage.full, Base(storage.snap), prev, entries, k)
      ensures k < |entries| ==> ConflictAt(storage.full, Base(storage.snap), prev, entries, k)
    {
      var base := Base(storage.snap);
      var last := storage.LastIndex();
      k := 0;
      while k < |entries|
        invariant k <= |entries| && prev + k <= Max(|storage.full|, base) && Kept(storage.full, base, prev, entries, k)
      {
        var idx := prev + 1 + k;
        var t := storage.Term(idx);
        if idx > base && (idx > last || t != Some(entries[k].term)) {
          assert idx <= last ==> t == Some(storage.full[prev + k].term);
          return;
        }
        KeptNext(storage.full, base, prev, entries, k);
        k := k + 1;
      }
    }

    /** `handle_append_entries` after its checks: splice above the snapshot, then re-derive the sets. */
    method Splice(prev: nat, entries: seq<LogEntry>)
      requires storage.Valid() && Cached() && role == Follower && prev <= |storage.full|
      requires forall i: nat | i < |entries| :: entries[i].index == prev + 1 + i
      modifies this, storage
      ensures Valid() && role == Follower && storage.snap == old(storage.snap)
      ensures Spliced(old(storage.full), Base(storage.snap), prev, entries, storage.full)
      ensures old(Sound()) && DisjointEntries(entries) ==> Sound()
    {
      SpliceLog(prev, entries);
      if old(Sound()) && DisjointEntries(entries) {
        SplicedDisjoint(old(storage.full), storage.snap, boot, prev, entries, storage.full);
      }
    }

    method SpliceLog(prev: nat, entries: seq<LogEntry>)
      requires storage.Valid() && Cached() && role == Follower && prev <= |storage.full|
      requires forall i: nat | i < |entries| :: entries[i].index == prev + 1 + i
      modifies this, storage
      ensures Valid() && role == Follower && storage.snap == old(storage.snap)
      ensures Spliced(old(storage.full), Base(storage.snap), prev, entries, storage.full)
    {
      var k := FirstConflict(prev, entries);
      if k < |entries| {
        ConflictSplices(storage.full, Base(storage.snap), prev, entries, k);
        CutTo(prev + k);
        Replace(entries, prev, k);
      }
    }

    /** Drop what lies past the first `n` entries, if anything does. */
    method CutTo(n: nat)
      requires storage.Valid() && Base(storage.snap) <= n <= |storage.full|
      modifies storage
      ensures storage.Valid() && storage.snap == old(storage.snap) && storage.full == old(storage.full)[..n]
    {
      var last := storage.LastIndex();
      if n < last { storage.TruncateSuffix(n + 1); }
      assert n == last ==> storage.full[..n] == storage.full;
    }

    /** Append from entry `k` on, then refresh the sets. */
    method Replace(entries: seq<LogEntry>, prev: nat, k: nat)
      requires storage.Valid() && role == Follower && k < |entries| && |storage.full| == prev + k
      requires forall i: nat | i < |entries| :: entries[i].index == prev + 1 + i
      modifies this, storage
      ensures Valid() && role == Follower && storage.snap == old(storage.snap) && storage.full == old(storage.full) + entries[k..]
    {
      IndexedMore(storage.full, entries[k..]);
      storage.Append(entries[k..]);
      RecomputeConf();
    }

    // ---- snapshots ----------------------------------------------------------------------------------------

    /** Compact up to an applied index; the cached sets need no refresh. */
    method Compact(index: nat, data: Bytes)
      requires Valid() && applied <= |storage.full|
      modifies storage
      ensures Valid() && storage.full == old(storage.full) && (old(Sound()) ==> Sound())
      ensures !(old(Base(storage.snap)) < index <= applied) ==> storage.snap == old(storage.snap)
      ensures old(Base(storage.snap)) < index <= applied ==>
        var c := ConfAt(old(storage.full), old(storage.snap), boot, index);
        storage.snap == Some(Snapshot(index, storage.full[index - 1].term, c.voters, c.learners, data))
    {
      CompactLog(index, data);
      if old(Sound()) { CompactDisjoint(storage.full, old(storage.snap), storage.snap, boot, index); }
    }

    method CompactLog(index: nat, data: Bytes)
      requires Valid() && applied <= |storage.full|
      modifies storage
      ensures Valid() && storage.full == old(storage.full)
      ensures !(old(Base(storage.snap)) < index <= applied) ==> storage.snap == old(storage.snap)
      ensures old(Base(storage.snap)) < index <= applied ==>
        var c := ConfAt(old(storage.full), old(storage.snap), boot, index);
        storage.snap == Some(Snapshot(index, storage.full[index - 1].term, c.voters, c.learners, data))
    {
      if index <= Base(storage.snap) || index > applied { return; }
      var t := storage.Term(index);
      var c := ConfAtIndex(index);
      var s := Snapshot(index, t.value, c.voters, c.learners, data);
      CompactKeepsConf(storage.full, storage.snap, boot, s, |storage.full|);
      storage.Compact(s);
    }

    /** Install the leader's snapshot, unless it is at or below what is committed here. */
    method InstallSnapshot(s: Snapshot, ghost theirs: FullLog)
      requires Valid() && Indexed(theirs) && |theirs| == s.index && Covers(theirs, Some(s))
      modifies this, storage
      ensures Valid() && role == Follower
      ensures s.index > old(commit) ==>
        && commit == applied == s.index && Conf(voters, learners) == Tidy(Conf(s.voters, s.learners))
        && storage.full == theirs && storage.snap == Some(s)
      ensures old(Sound()) && Disjoint(Conf(s.voters, s.learners)) ==> Sound()
      ensures s.index <= old(commit) ==> voters == old(voters) && learners == old(learners) && unchanged(storage) && commit == old(commit)
    {
      role := Follower;
      if s.index <= commit { return; }
      storage.ApplySnapshot(s, theirs);
      commit, applied := s.index, s.index;
      assert storage.full[Base(storage.snap)..|storage.full|] == [];
      RecomputeConf();
    }
  }

  /** What a leader records reads back, is tidy, and still has the leader in it. */
  lemma NextIsFit(c: Conf, cc: Change, id: nat)
    requires id in c.voters && cc != RemoveNode(id)
    requires Fits(ApplyChange(c, cc).voters) && Fits(ApplyChange(c, cc).learners)
    ensures var next := Tidy(ApplyChange(c, cc));
      Decode(Encode(cc, next)) == Some(next) && Tidy(next) == next && id in next.voters
  {
    var n := ApplyChange(c, cc);
    TidyFits(n);
    TidyTidy(n);
    PayloadRoundTrip(cc, Tidy(n));
  }

  lemma TidyFits(c: Conf)
    requires Fits(c.voters) && Fits(c.learners)
    ensures Fits(Tidy(c).voters) && Fits(Tidy(c).learners)
  {
    NormShorter(c.voters);
    NormShorter(c.learners);
  }

  lemma {:induction false} InsertLength(x: nat, s: Ids)
    requires Ascending(s)
    ensures |Insert(x, s)| <= |s| + 1
  {
    if s != [] && x > s[0] { InsertLength(x, s[1..]); }
  }

  lemma {:induction false} NormShorter(s: Ids)
    ensures |Norm(s)| <= |s|
  {
    if s != [] {
      NormShorter(s[..|s| - 1]);
      InsertLength(s[|s| - 1], Norm(s[..|s| - 1]));
    }
  }
}
