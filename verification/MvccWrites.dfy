/** The engine's transactional writes over bytes (engine/src/db.rs, engine/src/percolator.rs, engine/src/mvcc.rs): each
    batch does to the column families what the protocol says, and the two seeks that guard them, `check_prewrite` and
    `find_commit_ts`, see exactly the commits nothing lies in the way of. */
module MvccWrites {
  import opened Basics
  import opened ByteOrder
  import opened Codec
  import opened DataKeys
  import opened Runs
  import opened Mvcc
  import opened PlainKeys
  import opened Memtable
  import Lsm
  import Scan
  import P = Percolator

  // ---- one update of a family -------------------------------------------------------------------

  lemma SkSame(a: Cf, x: Bytes, b: Cf, y: Bytes)
    ensures Sk(a, x) == Sk(b, y) <==> a == b && x == y
  {
    assert Sk(a, x)[0] == a && Sk(b, y)[0] == b && Sk(a, x)[1..] == x && Sk(b, y)[1..] == y;
  }

  lemma DataPlace(k: Bytes, t: nat, u: Bytes, d: nat)
    requires t <= MAX_TS && d <= MAX_TS
    ensures DataKey(k, t) == DataKey(u, d) <==> k == u && t == d
  {
    if DataKey(k, t) == DataKey(u, d) { DataKeyInjective(k, t, u, d); }
  }

  /** `n` is `m` but at one place of family `cf`. */
  ghost predicate Touched(m: Flat, n: Flat, cf: Cf, x: Bytes) {
    forall f: Cf, y: Bytes {:trigger Sk(f, y)} | f != cf || y != x :: (Sk(f, y) in m <==> Sk(f, y) in n) && (Sk(f, y) in m ==> m[Sk(f, y)] == n[Sk(f, y)])
  }

  lemma TouchedBy(m: Flat, cf: Cf, x: Bytes, v: MemValue)
    ensures Touched(m, m[Sk(cf, x) := v], cf, x)
  {
    forall f: Cf, y: Bytes | f != cf || y != x ensures Sk(f, y) != Sk(cf, x) { SkSame(f, y, cf, x); }
  }

  lemma SetData(m: Flat, st: P.Store, k: Bytes, t: nat, v: Option<P.Value>, n: Flat, to: P.Store)
    requires Stores(m, st) && t <= MAX_TS && Touched(m, n, DEFAULT, DataKey(k, t))
    requires to == st.(data := if v.Some? then st.data[(k, t) := v.value] else st.data - {(k, t)})
    requires var x := Sk(DEFAULT, DataKey(k, t)); x in n && n[x] == if v.Some? then Put(EncodeValue(ToMem(v.value))) else Delete
    ensures Stores(n, to)
  {
    forall u: Bytes, d: nat | d <= MAX_TS ensures DataAt(n, to, u, d) && WriteAt(n, to, u, d) && LockAt(n, to, u) {
      assert DataAt(m, st, u, d) && WriteAt(m, st, u, d) && LockAt(m, st, u);
      DataPlace(u, d, k, t);
    }
    forall u: Bytes ensures LockAt(n, to, u) { assert LockAt(m, st, u); }
  }

  lemma SetLock(m: Flat, st: P.Store, k: Bytes, l: Option<P.Lock>, kind: Byte, n: Flat, to: P.Store)
    requires Stores(m, st) && kind <= 1 && Touched(m, n, LOCK, k) && (l.Some? ==> LockFits(l.value))
    requires to == st.(locks := if l.Some? then st.locks[k := l.value] else st.locks - {k})
    requires Sk(LOCK, k) in n && n[Sk(LOCK, k)] == if l.Some? then Put(EncodeLock(l.value, kind)) else Delete
    ensures Stores(n, to)
  {
    forall u: Bytes, d: nat | d <= MAX_TS ensures DataAt(n, to, u, d) && WriteAt(n, to, u, d) {
      assert DataAt(m, st, u, d) && WriteAt(m, st, u, d);
    }
    forall u: Bytes ensures LockAt(n, to, u) { assert LockAt(m, st, u); }
  }

  lemma SetWrite(m: Flat, st: P.Store, k: Bytes, c: nat, s: nat, n: Flat, to: P.Store)
    requires Stores(m, st) && c <= MAX_TS && s <= MAX_TS && Touched(m, n, WRITE, DataKey(k, c))
    requires to == st.(writes := st.writes[(k, c) := s])
    requires Sk(WRITE, DataKey(k, c)) in n && n[Sk(WRITE, DataKey(k, c))] == Put(Be(s, 8))
    ensures Stores(n, to)
  {
    forall u: Bytes, d: nat | d <= MAX_TS ensures DataAt(n, to, u, d) && WriteAt(n, to, u, d) {
      assert DataAt(m, st, u, d) && WriteAt(m, st, u, d);
      DataPlace(u, d, k, c);
    }
    forall u: Bytes ensures LockAt(n, to, u) { assert LockAt(m, st, u); }
  }

  // ---- the batches ----------------------------------------------------------------------------------

  function PrewriteBatch(k: Bytes, v: P.Value, l: P.Lock): Batch
    requires l.start <= MAX_TS
  {
    [WriteOp(DEFAULT, DataKey(k, l.start), Put(EncodeValue(ToMem(v)))), WriteOp(LOCK, k, Put(EncodeLock(l, if v.Some? then 0 else 1)))]
  }

  function CommitBatch(k: Bytes, s: nat, c: nat): Batch
    requires c <= MAX_TS
  {
    [WriteOp(WRITE, DataKey(k, c), Put(Be(s, 8))), WriteOp(LOCK, k, Delete)]
  }

  function RollbackBatch(k: Bytes, s: nat): Batch
    requires s <= MAX_TS
  {
    [WriteOp(LOCK, k, Delete), WriteOp(DEFAULT, DataKey(k, s), Delete)]
  }

  lemma ApplyTwo(m: Flat, a: WriteOp, b: WriteOp)
    ensures ApplyFlat(m, [a, b]) == m[Sk(a.cf, a.key) := a.value][Sk(b.cf, b.key) := b.value]
  {
    assert [a, b][..1] == [a] && [a][..0] == [];
    assert ApplyFlat(m, [a]) == ApplyFlat(m, [])[Sk(a.cf, a.key) := a.value];
  }

  lemma PrewriteStores(m: Flat, st: P.Store, k: Bytes, v: P.Value, l: P.Lock)
    requires Stores(m, st) && LockFits(l) && l.start <= MAX_TS
    ensures Stores(ApplyFlat(m, PrewriteBatch(k, v, l)), P.Prewrite(st, k, v, l))
  {
    var ops := PrewriteBatch(k, v, l);
    ApplyTwo(m, ops[0], ops[1]);
    var x := DataKey(k, l.start);
    var n, mid := m[Sk(DEFAULT, x) := ops[0].value], st.(data := st.data[(k, l.start) := v]);
    TouchedBy(m, DEFAULT, x, ops[0].value);
    SetData(m, st, k, l.start, Some(v), n, mid);
    TouchedBy(n, LOCK, k, ops[1].value);
    SetLock(n, mid, k, Some(l), if v.Some? then 0 else 1, n[Sk(LOCK, k) := ops[1].value], P.Prewrite(st, k, v, l));
  }

  lemma CommitStores(m: Flat, st: P.Store, k: Bytes, s: nat, c: nat)
    requires Stores(m, st) && s <= MAX_TS && c <= MAX_TS
    ensures Stores(ApplyFlat(m, CommitBatch(k, s, c)), P.PutWrite(st, k, s, c))
  {
    var ops := CommitBatch(k, s, c);
    ApplyTwo(m, ops[0], ops[1]);
    var x := DataKey(k, c);
    var n, mid := m[Sk(WRITE, x) := ops[0].value], st.(writes := st.writes[(k, c) := s]);
    TouchedBy(m, WRITE, x, ops[0].value);
    SetWrite(m, st, k, c, s, n, mid);
    TouchedBy(n, LOCK, k, Delete);
    SetLock(n, mid, k, None, 0, n[Sk(LOCK, k) := Delete], P.PutWrite(st, k, s, c));
  }

  lemma RollbackStores(m: Flat, st: P.Store, k: Bytes, s: nat)
    requires Stores(m, st) && s <= MAX_TS && P.Held(st, k, s)
    ensures Stores(ApplyFlat(m, RollbackBatch(k, s)), P.Rollback(st, k, s))
  {
    var ops := RollbackBatch(k, s);
    ApplyTwo(m, ops[0], ops[1]);
    var x := DataKey(k, s);
    var n, mid := m[Sk(LOCK, k) := Delete], st.(locks := st.locks - {k});
    TouchedBy(m, LOCK, k, Delete);
    SetLock(m, st, k, None, 0, n, mid);
    TouchedBy(n, DEFAULT, x, Delete);
    SetData(n, mid, k, s, None, n[Sk(DEFAULT, x) := Delete], P.Rollback(st, k, s));
  }

  // ---- the conflict check --------------------------------------------------------------------------------

  /** The newest commit on the key is at or after `s`, and the seek for it gets there. */
  ghost predicate ConflictSeen(st: P.Store, key: Bytes, s: nat) {
    && P.Newest(st.writes, key, MAX_TS).Some? && P.Newest(st.writes, key, MAX_TS).value >= s
    && Unobstructed(st, key, MAX_TS)
  }

  ghost predicate Conflicts(st: P.Store, key: Bytes, s: nat) { exists c: nat :: (key, c) in st.writes && c >= s }

  lemma NewestConflicts(m: Flat, st: P.Store, key: Bytes, s: nat)
    requires Stores(m, st)
    ensures Conflicts(st, key, s) <==> P.Newest(st.writes, key, MAX_TS).Some? && P.Newest(st.writes, key, MAX_TS).value >= s
  {
    if Conflicts(st, key, s) {
      var c: nat :| (key, c) in st.writes && c >= s;
      assert c <= MAX_TS;
    }
  }

  /** The lock on a key, decoded. */
  method CurrentLock(store: Lsm.Store, key: Bytes, ghost st: P.Store) returns (l: Option<P.Lock>)
    requires store.Valid() && Stores(store.Now(), st)
    ensures l == if key in st.locks then Some(st.locks[key]) else None
  {
    assert LockAt(store.Now(), st, key);
    var bytes := store.Get(LOCK, key);
    if bytes.None? { return None; }
    ghost var kind: Byte :| kind <= 1 && store.Now()[Sk(LOCK, key)] == Put(EncodeLock(st.locks[key], kind));
    LockRoundTrip(st.locks[key], kind);
    l := DecodeLock(bytes.value);
  }

  /** `check_prewrite`. */
  method CheckPrewrite(store: Lsm.Store, key: Bytes, s: nat, ghost st: P.Store) returns (ok: bool)
    requires store.Valid() && Stores(store.Now(), st)
    ensures ok <==> key !in st.locks && !ConflictSeen(st, key, s)
  {
    var newest := store.Seek(WRITE, DataKey(key, MAX_TS));
    SeekIsNewest(store.Now(), st, key, MAX_TS, newest);
    ghost var n := P.Newest(st.writes, key, MAX_TS);
    if n.Some? { DataKeyRoundTrip(key, n.value); }
    if newest.Some? {
      var d := DecodeDataKey(newest.value.key);
      if d.Some? && d.value.0 == key && d.value.1 >= s { return false; }
    }
    var l := CurrentLock(store, key, st);
    ok := l.None?;
  }

  /** The check passes exactly the clear keys if and only if every conflict on an unlocked key is in sight. */
  lemma CheckIsRight(m: Flat, st: P.Store, key: Bytes, s: nat)
    requires Stores(m, st)
    ensures (key !in st.locks && !ConflictSeen(st, key, s) <==> P.Clear(st, key, s)) <==>
      (key in st.locks || !Conflicts(st, key, s) || Unobstructed(st, key, MAX_TS))
  {
    NewestConflicts(m, st, key, s);
  }

  /** In a store of plain keys the check overlooks every conflict on a key that begins a longer committed one. */
  lemma PlainConflict(m: Flat, st: P.Store, key: Bytes, s: nat, b: Byte)
    requires Stores(m, st) && PlainStore(st, b) && Conflicts(st, key, s)
    ensures ConflictSeen(st, key, s) <==> !Extended(st, key)
  {
    NewestConflicts(m, st, key, s);
    PlainTop(st, key, P.Newest(st.writes, key, MAX_TS).value, b);
  }

  // ---- the operations ----------------------------------------------------------------------------------------

  /** A prewrite, as the committer runs it: the check, then the batch. */
  method PrewriteOne(store: Lsm.Store, key: Bytes, v: P.Value, primary: Bytes, s: nat, ttl: nat, ghost st: P.Store)
      returns (ok: bool, ghost to: P.Store)
    requires store.Valid() && Stores(store.Now(), st) && LockFits(P.Lock(primary, s, ttl))
    modifies store`active
    ensures store.Valid() && Stores(store.Now(), to)
    ensures ok <==> key !in st.locks && !ConflictSeen(st, key, s)
    ensures to == if ok then P.Prewrite(st, key, v, P.Lock(primary, s, ttl)) else st
  {
    ok := CheckPrewrite(store, key, s, st);
    to := st;
    if ok {
      var l := P.Lock(primary, s, ttl);
      PrewriteStores(store.Now(), st, key, v, l);
      store.ApplyBatch(PrewriteBatch(key, v, l));
      to := P.Prewrite(st, key, v, l);
    }
  }

  /** `resolve_commit`: only if the lock is this transaction's. */
  method ResolveCommit(store: Lsm.Store, key: Bytes, s: nat, c: nat, ghost st: P.Store)
    requires store.Valid() && Stores(store.Now(), st) && s <= MAX_TS && c <= MAX_TS
    modifies store`active
    ensures store.Valid() && Stores(store.Now(), P.Forward(st, key, s, c))
  {
    var l := CurrentLock(store, key, st);
    if l.Some? && l.value.start == s {
      CommitStores(store.Now(), st, key, s, c);
      store.ApplyBatch(CommitBatch(key, s, c));
    }
  }

  /** `resolve_rollback`: only if the lock is this transaction's. */
  method ResolveRollback(store: Lsm.Store, key: Bytes, s: nat, ghost st: P.Store)
    requires store.Valid() && Stores(store.Now(), st) && s <= MAX_TS
    modifies store`active
    ensures store.Valid() && Stores(store.Now(), P.Rollback(st, key, s))
  {
    var l := CurrentLock(store, key, st);
    if l.Some? && l.value.start == s {
      RollbackStores(store.Now(), st, key, s);
      store.ApplyBatch(RollbackBatch(key, s));
    }
  }

  /** `commit_primary`: no check at all. */
  method WriteCommit(store: Lsm.Store, key: Bytes, s: nat, c: nat, ghost st: P.Store)
    requires store.Valid() && Stores(store.Now(), st) && s <= MAX_TS && c <= MAX_TS
    modifies store`active
    ensures store.Valid() && Stores(store.Now(), P.PutWrite(st, key, s, c))
  {
    CommitStores(store.Now(), st, key, s, c);
    store.ApplyBatch(CommitBatch(key, s, c));
  }

  // ---- looking for a commit ---------------------------------------------------------------------------------------

  /** What the search has passed: versions of the primary alone, none of them written by `s`. */
  ghost predicate Searched(st: P.Store, p: Bytes, s: nat, cursor: Bytes) {
    forall u: Bytes, t: nat {:trigger (u, t) in st.writes} |
      (u, t) in st.writes && t <= MAX_TS && Le(DataKey(p, MAX_TS), DataKey(u, t)) && Lt(DataKey(u, t), cursor) ::
      u == p && st.writes[(u, t)] != s
  }

  lemma SearchedAtStart(st: P.Store, p: Bytes, s: nat)
    ensures Searched(st, p, s, DataKey(p, MAX_TS))
  {
    forall u: Bytes, t: nat | t <= MAX_TS && Le(DataKey(p, MAX_TS), DataKey(u, t))
      ensures !Lt(DataKey(u, t), DataKey(p, MAX_TS))
    {
      NotLt(DataKey(u, t), DataKey(p, MAX_TS));
    }
  }

  /** A record the search has not passed lies at or after where it stands. */
  lemma StillAhead(m: Flat, st: P.Store, p: Bytes, s: nat, cursor: Bytes, c: nat)
    requires Stores(m, st) && Searched(st, p, s, cursor) && P.Recorded(st, p, s, c)
    ensures c <= MAX_TS && Le(cursor, DataKey(p, c)) && Sk(WRITE, DataKey(p, c)) in m
  {
    assert WriteAt(m, st, p, c);
    NewerFirst(p, MAX_TS, c);
    NotLt(DataKey(p, c), cursor);
  }

  lemma SearchedNext(m: Flat, st: P.Store, p: Bytes, s: nat, cursor: Bytes, t: nat, v: MemValue)
    requires Stores(m, st) && Searched(st, p, s, cursor) && t <= MAX_TS && (p, t) in st.writes && st.writes[(p, t)] != s
    requires IsSeek(m, WRITE, cursor, Some(Kv(DataKey(p, t), v)))
    ensures Searched(st, p, s, DataKey(p, t) + [0])
  {
    var x := DataKey(p, t);
    forall u: Bytes, d: nat | (u, d) in st.writes && d <= MAX_TS && Le(DataKey(p, MAX_TS), DataKey(u, d)) && Lt(DataKey(u, d), x + [0])
      ensures u == p && st.writes[(u, d)] != s
    {
      Scan.UpToHere(m, st, cursor, x, v, u, d);
      if DataKey(u, d) == x { DataKeyInjective(u, d, p, t); }
    }
  }

  lemma FoundReaches(m: Flat, st: P.Store, p: Bytes, s: nat, cursor: Bytes, t: nat, v: MemValue)
    requires Stores(m, st) && Searched(st, p, s, cursor) && t <= MAX_TS && (p, t) in st.writes
    requires IsSeek(m, WRITE, cursor, Some(Kv(DataKey(p, t), v)))
    ensures Reaches(st, p, MAX_TS, t)
  {
    var x := DataKey(p, t);
    PrefixLe(x, [0]);
    forall u: Bytes, d: nat | (u, d) in st.writes && d <= MAX_TS ensures !InTheWay(p, MAX_TS, t, u, d) {
      if InTheWay(p, MAX_TS, t, u, d) {
        LtTrans(DataKey(u, d), x, x + [0]);
        Scan.UpToHere(m, st, cursor, x, v, u, d);
        LtIrreflexive(x);
      }
    }
  }

  lemma LeavesBehind(m: Flat, st: P.Store, p: Bytes, s: nat, cursor: Bytes, u: Bytes, t: nat, v: MemValue, c: nat)
    requires Stores(m, st) && Searched(st, p, s, cursor) && Le(DataKey(p, MAX_TS), cursor) && P.Recorded(st, p, s, c)
    requires t <= MAX_TS && (u, t) in st.writes && u != p && IsSeek(m, WRITE, cursor, Some(Kv(DataKey(u, t), v)))
    ensures c <= MAX_TS && !Reaches(st, p, MAX_TS, c)
  {
    StillAhead(m, st, p, s, cursor, c);
    LeTrans(DataKey(p, MAX_TS), cursor, DataKey(u, t));
    if DataKey(u, t) == DataKey(p, c) { DataKeyInjective(u, t, p, c); }
    assert InTheWay(p, MAX_TS, c, u, t);
  }

  /** The record of `s` on the primary is there for the search to find. */
  ghost predicate InSight(st: P.Store, p: Bytes, s: nat, c: nat) {
    P.Recorded(st, p, s, c) && c <= MAX_TS && Reaches(st, p, MAX_TS, c)
  }

  lemma NoneAhead(m: Flat, st: P.Store, p: Bytes, s: nat, cursor: Bytes)
    requires Stores(m, st) && Searched(st, p, s, cursor) && IsSeek(m, WRITE, cursor, None)
    ensures forall c: nat :: !InSight(st, p, s, c)
  {
    forall c: nat ensures !InSight(st, p, s, c) {
      if P.Recorded(st, p, s, c) { StillAhead(m, st, p, s, cursor, c); }
    }
  }

  lemma NoneReached(m: Flat, st: P.Store, p: Bytes, s: nat, cursor: Bytes, u: Bytes, t: nat, v: MemValue)
    requires Stores(m, st) && Searched(st, p, s, cursor) && Le(DataKey(p, MAX_TS), cursor)
    requires t <= MAX_TS && (u, t) in st.writes && u != p && IsSeek(m, WRITE, cursor, Some(Kv(DataKey(u, t), v)))
    ensures forall c: nat :: !InSight(st, p, s, c)
  {
    forall c: nat ensures !InSight(st, p, s, c) {
      if P.Recorded(st, p, s, c) { LeavesBehind(m, st, p, s, cursor, u, t, v, c); }
    }
  }

  /** `find_commit_ts`: newest version to oldest, up to the first version of another key. */
  method FindCommitTs(store: Lsm.Store, p: Bytes, s: nat, ghost st: P.Store) returns (r: Option<nat>)
    requires store.Valid() && Stores(store.Now(), st)
    ensures r.Some? ==> InSight(st, p, s, r.value)
    ensures r.None? ==> forall c: nat :: !InSight(st, p, s, c)
  {
    var cursor := DataKey(p, MAX_TS);
    ghost var m := store.Now();
    SearchedAtStart(st, p, s);
    while true
      invariant Searched(st, p, s, cursor) && Le(DataKey(p, MAX_TS), cursor)
      decreases |Scan.Ahead(m, WRITE, cursor)|
    {
      var e := store.Seek(WRITE, cursor);
      if e.None? {
        NoneAhead(m, st, p, s, cursor);
        return None;
      }
      ghost var u, t := Landed(m, st, e.value.key);
      var d := DecodeDataKey(e.value.key);
      if d.value.0 != p {
        NoneReached(m, st, p, s, cursor, u, t, e.value.value);
        return None;
      }
      Widths();
      BeRoundTrip(st.writes[(u, t)], 8);
      if FromBe(e.value.value.value) == s {
        FoundReaches(m, st, p, s, cursor, t, e.value.value);
        return Some(d.value.1);
      }
      SearchedNext(m, st, p, s, cursor, t, e.value.value);
      Scan.AheadNext(m, WRITE, cursor, e.value);
      Scan.CursorUp(DataKey(p, MAX_TS), cursor, e.value.key);
      cursor := e.value.key + [0];
    }
  }

  /** In a store of plain keys a commit is found exactly when its key begins no longer committed one. */
  lemma PlainCommit(st: P.Store, p: Bytes, s: nat, c: nat, b: Byte)
    requires PlainStore(st, b) && P.Recorded(st, p, s, c)
    ensures InSight(st, p, s, c) <==> !Extended(st, p)
  {
    PlainTop(st, p, c, b);
  }

  // ---- two keys, one the beginning of the other ---------------------------------------------------------------------

  const AB: Bytes := [97, 98]

  /** "a" written by 4 and committed at 5, "ab" written by 1 and committed at 2. */
  const TWO: P.Store := P.Store(map[(A, 4) := Some([1]), (AB, 1) := Some([2])], map[(A, 5) := 4, (AB, 2) := 1], map[])

  lemma TwoIsPlain()
    ensures PlainStore(TWO, 0xff)
  {
    TimelyIff(5, 0xff);
    TimelyIff(2, 0xff);
  }

  /** One transaction on one key, prewritten and committed. */
  lemma Ran(m: Flat, st: P.Store, k: Bytes, v: P.Value, s: nat, c: nat) returns (n: Flat)
    requires Stores(m, st) && s <= MAX_TS && c <= MAX_TS && |k| < U32 && k !in st.locks
    ensures Stores(n, P.Store(st.data[(k, s) := v], st.writes[(k, c) := s], st.locks))
  {
    var l := P.Lock(k, s, 0);
    var mid := P.Prewrite(st, k, v, l);
    PrewriteStores(m, st, k, v, l);
    var half := ApplyFlat(m, PrewriteBatch(k, v, l));
    CommitStores(half, mid, k, s, c);
    n := ApplyFlat(half, CommitBatch(k, s, c));
    assert P.PutWrite(mid, k, s, c).locks == st.locks;
  }

  lemma Built() returns (m: Flat)
    ensures Stores(m, TWO)
  {
    var none := P.Store(map[], map[], map[]);
    assert Stores(map[], none);
    var half := Ran(map[], none, AB, Some([2]), 1, 2);
    var st := P.Store(none.data[(AB, 1) := Some([2])], none.writes[(AB, 2) := 1], none.locks);
    m := Ran(half, st, A, Some([1]), 4, 5);
    assert P.Store(st.data[(A, 4) := Some([1])], st.writes[(A, 5) := 4], st.locks) == TWO;
  }

  /** A transaction that started at 3 prewrites "a" over the commit at 5, which it never saw: a lost update. And whoever
      asks for the fate of transaction 4 is told it never committed. */
  lemma LostUpdate() returns (m: Flat)
    ensures Stores(m, TWO)
    ensures !P.Clear(TWO, A, 3) && A !in TWO.locks && !ConflictSeen(TWO, A, 3)
    ensures P.Recorded(TWO, A, 4, 5) && forall c: nat :: !InSight(TWO, A, 4, c)
  {
    m := Built();
    assert (A, 5) in TWO.writes && (AB, 2) in TWO.writes && A < AB;
    TwoIsPlain();
    assert Extended(TWO, A);
    assert Conflicts(TWO, A, 3);
    PlainConflict(m, TWO, A, 3, 0xff);
    forall c: nat ensures !InSight(TWO, A, 4, c) {
      if P.Recorded(TWO, A, 4, c) { PlainCommit(TWO, A, 4, c, 0xff); }
    }
  }
}
