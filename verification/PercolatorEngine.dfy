/** The transaction code as it runs: an engine whose column families are updated in place, the coordinator's
    loops over its mutations, and the reader's resolve-and-retry loop (engine/src/db.rs,
    engine/src/percolator.rs, engine/src/mvcc.rs). */
module PercolatorEngine {
  import opened Basics
  import opened Percolator
  import opened PercolatorInv
  import opened PercolatorReads
  import opened PercolatorRuns

  datatype Fate = Decided(status: Status) | Pending(ttl: nat)

  datatype Answer = Value(value: Value) | KeyIsLocked

  /** The fate `check_txn_status` reports, and the store it leaves. */
  ghost predicate Reports(st: Store, primary: Key, s: Ts, now: Ts, f: Fate, after: Store) {
    if Held(st, primary, s) then
      if now > st.locks[primary].ttl then f == Decided(RolledBack) && after == Rollback(st, primary, s)
      else f == Pending(st.locks[primary].ttl) && after == st
    else
      && after == st && f.Decided?
      && (f.status.CommittedAt? ==> Recorded(st, primary, s, f.status.commit))
      && (f.status.RolledBack? ==> forall c: Ts :: !Recorded(st, primary, s, c))
  }

  /** The transaction that locked `key` is undecided and its primary's lock has not expired by `ts`. */
  ghost predicate Undecided(st: Store, l: Lock, ts: Ts) { Held(st, l.primary, l.start) && ts <= st.locks[l.primary].ttl }

  /** A lock shadows the snapshot, and its transaction may still commit. */
  ghost predicate Blocked(st: Store, key: Key, ts: Ts) {
    key in st.locks && st.locks[key].start <= ts && Undecided(st, st.locks[key], ts)
  }

  /** Once its transaction is decided, resolving a key leaves it unlocked. */
  lemma ResolvedFree(st: Store, key: Key, l: Lock, ts: Ts, f: Fate, after: Store, z: Store)
    requires key in st.locks && l == st.locks[key] && Reports(st, l.primary, l.start, ts, f, after) && f.Decided?
    requires z == if f.status.CommittedAt? then Forward(after, key, l.start, f.status.commit) else Rollback(after, key, l.start)
    ensures key !in z.locks
  {
  }

  // ---- the reader's loop, against the protocol ----------------------------------------

  /** A decided status is a right verdict, in the protocol state the check leaves. */
  lemma DecidedIsRight(g: Core, r: Reader, l: Lock, f: Fate, after: Store)
    requires CoreOk(g) && Met(g, r, l) && Reports(g.store, l.primary, l.start, r.ts, f, after) && f.Decided?
    ensures var h := Undo(g, l.primary, l.start);
      h.store == after && CoreOk(h) && Met(h, r, l) && StatusRight(h, l, f.status)
  {
    var h := Undo(g, l.primary, l.start);
    SettleStep(g, r, l);
    MetStable(g, h, r, l);
    if !Held(g.store, l.primary, l.start) {
      match f.status
      case CommittedAt(c) => assert WriteOk(g, l.primary, c);
      case RolledBack => NeverRecorded(g, l);
    }
  }

  lemma NeverRecorded(g: Core, l: Lock)
    requires CoreOk(g) && Fated(g, l.start) && g.txns[l.start].muts != [] && l.primary == Primary(g.txns[l.start])
    requires forall c: Ts :: !Recorded(g.store, l.primary, l.start, c)
    ensures Dead(g, l.start)
  {
    ScanIsRight(g, l);
  }

  /** Resolving changes no transaction's phase, so it changes no snapshot. */
  ghost predicate SameHistory(g: Core, h: Core) { h.txns == g.txns && h.clock == g.clock }

  lemma ShowsSame(g: Core, h: Core, k: Key, ts: Ts, v: Percolator.Value)
    requires SameHistory(g, h) && Shows(h, k, ts, v)
    ensures Shows(g, k, ts, v)
  {
    assert forall u: Ts, d: Ts :: Wrote(h, u, k, d) <==> Wrote(g, u, k, d);
    if s: Ts, c: Ts :| Latest(h, k, ts, s, c) && Mutation(k, v) in h.txns[s].muts {
      assert Latest(g, k, ts, s, c);
    }
  }

  /** The commits a protocol state can record fit the timestamp width. */
  ghost predicate Fits(g: Core) { g.clock <= MAX_TS }

  lemma VerdictFits(g: Core, l: Lock, status: Status)
    requires CoreOk(g) && Fits(g) && StatusRight(g, l, status) && status.CommittedAt?
    ensures status.commit <= MAX_TS
  {
    assert TxnOk(g, l.start);
  }

  class Engine {
    var data: map<(Key, Ts), Percolator.Value>
    var writes: map<(Key, Ts), Ts>
    var locks: map<Key, Lock>

    ghost predicate Valid()
      reads this
    {
      forall k: Key, c: Ts | (k, c) in writes :: c <= MAX_TS
    }

    ghost function Now(): Store
      reads this
    {
      Store(data, writes, locks)
    }

    constructor ()
      ensures Valid() && Now() == START.core.store
    {
      data, writes, locks := map[], map[], map[];
    }

    /** `Op::Prewrite`: the conflict check and the Default and Lock writes, as one step. */
    method PrewriteOne(key: Key, value: Percolator.Value, primary: Key, s: Ts, ttl: nat) returns (ok: bool)
      requires Valid()
      modifies `data, `locks
      ensures ok <==> Clear(old(Now()), key, s)
      ensures Now() == if ok then Prewrite(old(Now()), key, value, Lock(primary, s, ttl)) else old(Now())
    {
      var newest := Newest(writes, key, MAX_TS);
      if newest.Some? && newest.value >= s { return false; }
      if key in locks { return false; }
      data := data[(key, s) := value];
      locks := locks[key := Lock(primary, s, ttl)];
      ok := true;
    }

    /** `Op::Resolve` with `Commit`: acts only on the transaction's own lock. */
    method ResolveCommit(key: Key, s: Ts, c: Ts)
      requires Valid() && c <= MAX_TS
      modifies `writes, `locks
      ensures Valid() && Now() == Forward(old(Now()), key, s, c)
    {
      if key in locks && locks[key].start == s {
        writes := writes[(key, c) := s];
        locks := locks - {key};
      }
    }

    /** `Op::Resolve` with `Rollback`. */
    method ResolveRollback(key: Key, s: Ts)
      modifies `data, `locks
      ensures Now() == Rollback(old(Now()), key, s)
    {
      if key in locks && locks[key].start == s {
        locks := locks - {key};
        data := data - {(key, s)};
      }
    }

    /** `commit_primary`'s batch: unconditional. */
    method WriteCommit(key: Key, s: Ts, c: Ts)
      requires Valid() && c <= MAX_TS
      modifies `writes, `locks
      ensures Valid() && Now() == PutWrite(old(Now()), key, s, c)
    {
      writes := writes[(key, c) := s];
      locks := locks - {key};
    }

    /** Walk the key's commits from newest to oldest for the one that points at `s`. */
    method FindCommitTs(primary: Key, s: Ts) returns (r: Option<Ts>)
      requires Valid()
      ensures r.Some? ==> Recorded(Now(), primary, s, r.value)
      ensures r.None? ==> forall c: Ts :: !Recorded(Now(), primary, s, c)
    {
      var from: Ts := MAX_TS;
      while true
        invariant forall c: Ts | c > from :: !Recorded(Now(), primary, s, c)
        decreases from
      {
        var newest := Newest(writes, primary, from);
        if newest.None? { return None; }
        if writes[(primary, newest.value)] == s { return newest; }
        if newest.value == 0 { return None; }
        from := newest.value - 1;
      }
    }

    method CheckTxnStatus(primary: Key, s: Ts, now: Ts) returns (f: Fate)
      requires Valid()
      modifies `data, `locks
      ensures Reports(old(Now()), primary, s, now, f, Now())
    {
      if primary in locks && locks[primary].start == s {
        if now > locks[primary].ttl {
          ResolveRollback(primary, s);
          return Decided(RolledBack);
        }
        return Pending(locks[primary].ttl);
      }
      var c := FindCommitTs(primary, s);
      f := Decided(if c.Some? then CommittedAt(c.value) else RolledBack);
    }

    /** `read_committed`: the newest commit at or below `ts`, and the value it points at. */
    method ReadCommitted(key: Key, ts: Ts) returns (v: Percolator.Value)
      ensures v == Lookup(Now(), key, ts)
    {
      var newest := Newest(writes, key, ts);
      if newest.None? { return None; }
      var s := writes[(key, newest.value)];
      if (key, s) !in data { return None; }
      v := data[(key, s)];
    }

    method GetUnresolved(key: Key, ts: Ts) returns (a: Answer)
      ensures a == if Unshadowed(Now(), key, ts) then Value(Lookup(Now(), key, ts)) else KeyIsLocked
    {
      if key in locks && locks[key].start <= ts { return KeyIsLocked; }
      var v := ReadCommitted(key, ts);
      a := Value(v);
    }

    /** `mvcc_get`: resolve whatever shadows the snapshot, at most eight times, then read. Over a store that
        the protocol `g` reached, the answer is the snapshot `g` defines. */
    method MvccGet(key: Key, ts: Ts, ghost g: Core) returns (a: Answer, ghost h: Core)
      requires Valid() && CoreOk(g) && Fits(g) && g.store == Now() && ts < g.clock
      modifies this
      ensures Valid() && h.store == Now() && CoreOk(h) && SameHistory(g, h)
      ensures a.Value? ==> Shows(g, key, ts, a.value)
      ensures a.KeyIsLocked? <==> Blocked(old(Now()), key, ts)
    {
      h := g;
      var n := 0;
      while n < MAX_TRIES
        invariant n <= MAX_TRIES && Valid() && h.store == Now() && CoreOk(h) && SameHistory(g, h)
        invariant n > 0 ==> Sealed(h, key, ts) && key !in locks && !Blocked(old(Now()), key, ts)
        invariant n == 0 ==> Now() == old(Now())
      {
        if key !in locks || locks[key].start > ts {
          CleanLookSeals(h, key, ts);
          break;
        }
        var lock := locks[key];
        var resolved;
        resolved, h := ResolveOnce(key, ts, lock, h);
        if !resolved { return KeyIsLocked, h; }
        n := n + 1;
      }
      SealedShows(h, key, ts);
      var v := ReadCommitted(key, ts);
      ShowsSame(g, h, key, ts, v);
      a := Value(v);
    }

    /** `resolve_lock`: ask the primary, then roll the key forward or back. */
    method ResolveOnce(key: Key, ts: Ts, lock: Lock, ghost g: Core) returns (resolved: bool, ghost h: Core)
      requires Valid() && CoreOk(g) && Fits(g) && g.store == Now() && ts < g.clock
      requires key in locks && lock == locks[key]
      modifies this
      ensures Valid() && h.store == Now() && CoreOk(h) && SameHistory(g, h)
      ensures resolved ==> Sealed(h, key, ts) && key !in locks
      ensures resolved <==> !Undecided(old(Now()), lock, ts)
    {
      ghost var r, before := Reader(key, ts, Local, Asking(0, lock)), Now();
      LockedLookSeals(g, key, ts);
      assert LockOk(g, key);
      var f := CheckTxnStatus(lock.primary, lock.start, ts);
      if f.Pending? { return false, g; }
      DecidedIsRight(g, r, lock, f, Now());
      ghost var after := Now();
      h := Undo(g, lock.primary, lock.start);
      ResolveStep(h, r, lock, f.status);
      match f.status {
        case CommittedAt(c) =>
          VerdictFits(h, lock, f.status);
          ResolveCommit(key, lock.start, c);
        case RolledBack => ResolveRollback(key, lock.start);
      }
      ResolvedFree(before, key, lock, ts, f, after, Now());
      h := Resolve(h, key, lock.start, f.status);
      resolved := true;
    }
  }
}
