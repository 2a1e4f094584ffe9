/** Snapshot reads over the byte-level store (engine/src/mvcc.rs, `read_committed`): one forward seek finds the newest
    visible version, exactly when no version of another key lies in the way. */
module Mvcc {
  import opened Basics
  import opened ByteOrder
  import opened Codec
  import opened DataKeys
  import opened Runs
  import Lsm
  import P = Percolator
  import PE = PercolatorEngine

  const DEFAULT: Cf := 0
  const WRITE: Cf := 1
  const LOCK: Cf := 2

  // ---- locks as bytes ------------------------------------------------------------------------

  function EncodeLock(l: P.Lock, kind: Byte): Bytes { [kind] + (Be(l.start, 8) + (Be(l.ttl, 8) + Field(l.primary))) }

  function DecodeLock(b: Bytes): Option<P.Lock> {
    if |b| < 17 || b[0] > 1 then None
    else
      match GetField(b[17..])
      case None => None
      case Some((primary, _)) => Some(P.Lock(primary, FromBe(b[1..9]), FromBe(b[9..17])))
  }

  predicate LockFits(l: P.Lock) { l.start < U64 && l.ttl < U64 && |l.primary| < U32 }

  lemma LockParts(kind: Byte, a: Bytes, b: Bytes, c: Bytes)
    requires |a| == 8 && |b| == 8
    ensures var x := [kind] + (a + (b + c)); x[0] == kind && x[1..9] == a && x[9..17] == b && x[17..] == c
  {
  }

  lemma LockRoundTrip(l: P.Lock, kind: Byte)
    requires LockFits(l) && kind <= 1
    ensures DecodeLock(EncodeLock(l, kind)) == Some(l)
  {
    Widths();
    LockParts(kind, Be(l.start, 8), Be(l.ttl, 8), Field(l.primary));
    BeRoundTrip(l.start, 8);
    BeRoundTrip(l.ttl, 8);
    FieldRoundTrip(l.primary, []);
    assert Field(l.primary) + [] == Field(l.primary);
  }

  // ---- the column families as bytes --------------------------------------------------------------

  function ToMem(v: P.Value): MemValue { match v case Some(b) => Put(b) case None => Delete }

  function FromMem(v: MemValue): P.Value { match v case Put(b) => Some(b) case Delete => None }

  lemma ValueBack(v: P.Value)
    ensures DecodeValue(EncodeValue(ToMem(v))) == Some(ToMem(v)) && FromMem(ToMem(v)) == v
  {
    ValueRoundTrip(ToMem(v));
  }

  ghost predicate DataAt(m: Flat, st: P.Store, k: Bytes, t: nat)
    requires t <= MAX_TS
  {
    var x := Sk(DEFAULT, DataKey(k, t));
    && ((k, t) in st.data <==> x in m && m[x].Put?)
    && ((k, t) in st.data && x in m ==> m[x] == Put(EncodeValue(ToMem(st.data[(k, t)]))))
  }

  ghost predicate WriteAt(m: Flat, st: P.Store, k: Bytes, c: nat)
    requires c <= MAX_TS
  {
    var x := Sk(WRITE, DataKey(k, c));
    && ((k, c) in st.writes <==> x in m)
    && ((k, c) in st.writes && x in m ==> st.writes[(k, c)] <= MAX_TS && m[x] == Put(Be(st.writes[(k, c)], 8)))
  }

  ghost predicate LockAt(m: Flat, st: P.Store, k: Bytes) {
    var x := Sk(LOCK, k);
    && (k in st.locks <==> x in m && m[x].Put?)
    && (k in st.locks && x in m ==> LockFits(st.locks[k]) && exists kind: Byte | kind <= 1 :: m[x] == Put(EncodeLock(st.locks[k], kind)))
  }

  /** The flat map holds the three column families of `st`. */
  ghost predicate Stores(m: Flat, st: P.Store) {
    && (forall k: Bytes, t: nat {:trigger DataAt(m, st, k, t)} | t <= MAX_TS :: DataAt(m, st, k, t))
    && (forall k: Bytes, c: nat {:trigger WriteAt(m, st, k, c)} | c <= MAX_TS :: WriteAt(m, st, k, c))
    && (forall k: Bytes {:trigger LockAt(m, st, k)} :: LockAt(m, st, k))
    && (forall x: Bytes | Sk(WRITE, x) in m :: |x| >= TS_LEN)
    && (forall k: Bytes, c: nat | (k, c) in st.writes :: c <= MAX_TS)
  }

  /** A version of another key lies where a seek for `key` at `ts` would pass before it reaches the commit at `c`. */
  predicate InTheWay(key: Bytes, ts: nat, c: nat, u: Bytes, t: nat)
    requires ts <= MAX_TS && c <= MAX_TS && t <= MAX_TS
  {
    u != key && Le(DataKey(key, ts), DataKey(u, t)) && Lt(DataKey(u, t), DataKey(key, c))
  }

  /** Nothing committed lies in the way. */
  ghost predicate Reaches(st: P.Store, key: Bytes, ts: nat, c: nat)
    requires ts <= MAX_TS && c <= MAX_TS
  {
    forall u: Bytes, t: nat | (u, t) in st.writes && t <= MAX_TS :: !InTheWay(key, ts, c, u, t)
  }

  /** The newest commit at or below `ts`, if there is one, is what a seek reaches first. */
  ghost predicate Unobstructed(st: P.Store, key: Bytes, ts: nat)
    requires ts <= MAX_TS
  {
    match P.Newest(st.writes, key, ts)
    case None => true
    case Some(c) => Reaches(st, key, ts, c)
  }

  /** Every committed key can be told from `key` in byte order, whatever the timestamps. */
  ghost predicate Separable(st: P.Store, key: Bytes) {
    forall u: Bytes, c: nat | (u, c) in st.writes :: Distinguishable(u, key)
  }

  lemma SeparableReaches(st: P.Store, key: Bytes, ts: nat, c: nat)
    requires Separable(st, key) && ts <= MAX_TS && c <= MAX_TS
    ensures Reaches(st, key, ts, c)
  {
    forall u: Bytes, t: nat | (u, t) in st.writes && t <= MAX_TS ensures !InTheWay(key, ts, c, u, t) {
      if InTheWay(key, ts, c, u, t) { Between(key, ts, u, t, c); }
    }
  }

  // ---- one forward seek -----------------------------------------------------------------------------

  lemma DataKeyInjective(a: Bytes, s: nat, b: Bytes, t: nat)
    requires s <= MAX_TS && t <= MAX_TS && DataKey(a, s) == DataKey(b, t)
    ensures a == b && s == t
  {
    DataKeyRoundTrip(a, s);
    DataKeyRoundTrip(b, t);
  }

  /** A data key of `u` between two of `key` means `u` is `key`. */
  lemma Between(key: Bytes, s: nat, u: Bytes, t: nat, c: nat)
    requires s <= MAX_TS && t <= MAX_TS && c <= MAX_TS && Distinguishable(u, key)
    requires Le(DataKey(key, s), DataKey(u, t)) && Le(DataKey(u, t), DataKey(key, c))
    ensures u == key
  {
    if u != key {
      EmbedsIff(u, key);
      assert Agrees(u, key, t, c) && Agrees(key, u, s, t);
      if DataKey(u, t) == DataKey(key, c) { DataKeyInjective(u, t, key, c); }
      if DataKey(key, s) == DataKey(u, t) { DataKeyInjective(key, s, u, t); }
      LtAsym(u, key);
    }
  }

  lemma NewerFirst(k: Bytes, s: nat, t: nat)
    requires s <= MAX_TS && t <= MAX_TS
    ensures Le(DataKey(k, s), DataKey(k, t)) <==> s >= t
  {
    VersionsDescend(k, s, t);
    VersionsDescend(k, t, s);
    if s == t { } else if DataKey(k, s) == DataKey(k, t) { DataKeyInjective(k, s, k, t); }
  }

  /** What the seek lands on is a version of some committed key. */
  lemma Landed(m: Flat, st: P.Store, x: Bytes) returns (u: Bytes, t: nat)
    requires Stores(m, st) && Sk(WRITE, x) in m
    ensures t <= MAX_TS && x == DataKey(u, t) && DecodeDataKey(x) == Some((u, t)) && (u, t) in st.writes
    ensures st.writes[(u, t)] <= MAX_TS && m[Sk(WRITE, x)] == Put(Be(st.writes[(u, t)], 8))
  {
    DecodeRoundTrip(x);
    u, t := DecodeDataKey(x).value.0, DecodeDataKey(x).value.1;
    assert WriteAt(m, st, u, t);
  }

  lemma SeekLeaves(m: Flat, st: P.Store, key: Bytes, ts: nat, r: Kv)
    requires Stores(m, st) && ts <= MAX_TS && Sk(WRITE, r.key) in m && Le(DataKey(key, ts), r.key)
    requires forall c: nat | c <= ts :: (key, c) !in st.writes
    ensures DecodeDataKey(r.key).Some? && DecodeDataKey(r.key).value.0 != key
  {
    var u, t := Landed(m, st, r.key);
    if u == key { NewerFirst(key, ts, t); }
  }

  lemma SeekHits(m: Flat, st: P.Store, key: Bytes, ts: nat, c: nat, r: Kv)
    requires Stores(m, st) && c <= ts <= MAX_TS && Reaches(st, key, ts, c) && (key, c) in st.writes
    requires forall d: nat | c < d <= ts :: (key, d) !in st.writes
    requires Sk(WRITE, r.key) in m && m[Sk(WRITE, r.key)] == r.value
    requires Le(DataKey(key, ts), r.key) && Le(r.key, DataKey(key, c))
    ensures r == Kv(DataKey(key, c), Put(Be(st.writes[(key, c)], 8))) && st.writes[(key, c)] <= MAX_TS
  {
    var u, t := Landed(m, st, r.key);
    assert !InTheWay(key, ts, c, u, t);
    if r.key == DataKey(key, c) { DataKeyInjective(u, t, key, c); }
    NewerFirst(key, ts, t);
    NewerFirst(key, t, c);
  }

  /** What lies in the way is what the seek lands on, or something before it that is in the way too. */
  lemma SeekMisses(m: Flat, st: P.Store, key: Bytes, ts: nat, c: nat, r: Kv)
    requires Stores(m, st) && c <= ts <= MAX_TS && !Reaches(st, key, ts, c)
    requires forall d: nat | c < d <= ts :: (key, d) !in st.writes
    requires IsSeek(m, WRITE, DataKey(key, ts), Some(r))
    ensures DecodeDataKey(r.key).Some? && DecodeDataKey(r.key).value.0 != key
  {
    var u: Bytes, t: nat :| (u, t) in st.writes && t <= MAX_TS && InTheWay(key, ts, c, u, t);
    assert WriteAt(m, st, u, t);
    var w, d := Landed(m, st, r.key);
    LeLtTrans(r.key, DataKey(u, t), DataKey(key, c));
    NewerFirst(key, ts, d);
    VersionsDescend(key, d, c);
  }

  /** Seeking `key` at `ts` lands on the newest commit at or below `ts` exactly when nothing is in the way; else, as when
      there is no such commit, it lands on another key or on none. */
  lemma SeekIsNewest(m: Flat, st: P.Store, key: Bytes, ts: nat, r: Option<Kv>)
    requires Stores(m, st) && ts <= MAX_TS && IsSeek(m, WRITE, DataKey(key, ts), r)
    ensures P.Newest(st.writes, key, ts).Some? && Unobstructed(st, key, ts) ==>
      var c := P.Newest(st.writes, key, ts).value;
      r == Some(Kv(DataKey(key, c), Put(Be(st.writes[(key, c)], 8)))) && st.writes[(key, c)] <= MAX_TS
    ensures !(P.Newest(st.writes, key, ts).Some? && Unobstructed(st, key, ts)) ==>
      r.Some? ==> DecodeDataKey(r.value.key).Some? && DecodeDataKey(r.value.key).value.0 != key
  {
    match P.Newest(st.writes, key, ts)
    case None => if r.Some? { SeekLeaves(m, st, key, ts, r.value); }
    case Some(c) =>
      assert WriteAt(m, st, key, c);
      NewerFirst(key, ts, c);
      if Reaches(st, key, ts, c) {
        SeekHits(m, st, key, ts, c, r.value);
      } else {
        SeekMisses(m, st, key, ts, c, r.value);
      }
  }

  /** What a read of `key` at `ts` gives over bytes: the snapshot, unless something is in the way. */
  ghost function Read(st: P.Store, key: Bytes, ts: nat): P.Value
    requires ts <= MAX_TS
  {
    if Unobstructed(st, key, ts) then P.Lookup(st, key, ts) else None
  }

  /** `read_committed`: a seek in the Write family, a get in the Default family. */
  method ReadCommitted(store: Lsm.Store, key: Bytes, ts: nat, ghost st: P.Store) returns (v: P.Value)
    requires store.Valid() && Stores(store.Now(), st) && ts <= MAX_TS
    ensures v == Read(st, key, ts)
  {
    var r := store.Seek(WRITE, DataKey(key, ts));
    SeekIsNewest(store.Now(), st, key, ts, r);
    if r.None? { return None; }
    var decoded := DecodeDataKey(r.value.key);
    ghost var newest := P.Newest(st.writes, key, ts);
    if newest.Some? { DataKeyRoundTrip(key, newest.value); }
    if decoded.value.0 != key { return None; }
    Widths();
    BeRoundTrip(st.writes[(key, newest.value)], 8);
    var start := FromBe(r.value.value.value);
    v := ReadValue(store, key, start, st);
  }

  method ReadValue(store: Lsm.Store, key: Bytes, start: nat, ghost st: P.Store) returns (v: P.Value)
    requires store.Valid() && Stores(store.Now(), st) && start <= MAX_TS
    ensures v == P.Fetch(st, key, start)
  {
    var found := FindValue(store, key, start, st);
    v := if found.Some? then found.value else None;
  }

  /** The value at (`key`, `start`), if there is one; a tombstone is one. */
  method FindValue(store: Lsm.Store, key: Bytes, start: nat, ghost st: P.Store) returns (r: Option<P.Value>)
    requires store.Valid() && Stores(store.Now(), st) && start <= MAX_TS
    ensures r == if (key, start) in st.data then Some(st.data[(key, start)]) else None
  {
    assert DataAt(store.Now(), st, key, start);
    var bytes := store.Get(DEFAULT, DataKey(key, start));
    if bytes.None? { return None; }
    ValueBack(st.data[(key, start)]);
    r := Some(FromMem(DecodeValue(bytes.value).value));
  }

  /** `mvcc_get_unresolved`: a lock that could shadow the snapshot is reported, not resolved. */
  method GetUnresolved(store: Lsm.Store, key: Bytes, ts: nat, ghost st: P.Store) returns (a: PE.Answer)
    requires store.Valid() && Stores(store.Now(), st) && ts <= MAX_TS
    ensures a == if P.Unshadowed(st, key, ts) then PE.Value(Read(st, key, ts)) else PE.KeyIsLocked
  {
    assert LockAt(store.Now(), st, key);
    var bytes := store.Get(LOCK, key);
    if bytes.Some? {
      ghost var kind: Byte :| kind <= 1 && store.Now()[Sk(LOCK, key)] == Put(EncodeLock(st.locks[key], kind));
      LockRoundTrip(st.locks[key], kind);
      var lock := DecodeLock(bytes.value);
      if lock.value.start <= ts { return PE.KeyIsLocked; }
    }
    var v := ReadCommitted(store, key, ts, st);
    a := PE.Value(v);
  }
}
