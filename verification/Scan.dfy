/** Range scans (engine/src/scan.rs): a merging iterator walks the Write family one seek at a time; each distinct user
    key is resolved once. What the walk returns, for every store; `ScanOrder` says when that is the range asked for. */
module Scan {
  import opened Basics
  import opened ByteOrder
  import opened Codec
  import opened DataKeys
  import opened Runs
  import opened Mvcc
  import Lsm
  import P = Percolator

  // ---- the iterator -----------------------------------------------------------------------------

  /** The smallest key strictly greater than `x` is `x` followed by a zero byte. */
  lemma {:induction false} Successor(x: Bytes, y: Bytes)
    ensures Lt(x, y) <==> Le(x + [0], y)
  {
    if x == [] {
      assert x + [0] == [0];
      if y != [] && y[0] == 0 { assert y == [0] + y[1..]; PrefixLe([0], y[1..]); }
    } else if y != [] && x[0] == y[0] {
      Successor(x[1..], y[1..]);
      assert (x + [0])[1..] == x[1..] + [0];
      assert x[1..] + [0] == y[1..] ==> x + [0] == y;
    }
  }

  /** What an iterator over `cf` at `cursor` has still to yield. */
  ghost function Ahead(m: Flat, cf: Cf, cursor: Bytes): set<Bytes> {
    set k | k in m && k != [] && k[0] == cf && Le(cursor, k[1..])
  }

  class MergeIter {
    const store: Lsm.Store
    const cf: Cf
    /** The next key to seek from; none once exhausted. */
    var cursor: Option<Bytes>

    constructor (store: Lsm.Store, cf: Cf, from: Bytes)
      ensures this.store == store && this.cf == cf && cursor == Some(from)
    {
      this.store, this.cf, cursor := store, cf, Some(from);
    }

    /** The next entry in key order, newest level winning; nothing is skipped and nothing comes twice. */
    method Next() returns (r: Option<Kv>)
      requires store.Valid() && cursor.Some?
      modifies this
      ensures IsSeek(store.Now(), cf, old(cursor.value), r)
      ensures r.Some? ==> cursor == Some(r.value.key + [0])
      ensures r.Some? ==> Ahead(store.Now(), cf, r.value.key + [0]) == Ahead(store.Now(), cf, old(cursor.value)) - {Sk(cf, r.value.key)}
      ensures r.Some? ==> Sk(cf, r.value.key) in Ahead(store.Now(), cf, old(cursor.value))
    {
      var from := cursor.value;
      cursor := None;
      r := store.Seek(cf, from);
      if r.Some? {
        AheadNext(store.Now(), cf, from, r.value);
        cursor := Some(r.value.key + [0]);
      }
    }
  }

  lemma AheadNext(m: Flat, cf: Cf, from: Bytes, r: Kv)
    requires IsSeek(m, cf, from, Some(r))
    ensures Sk(cf, r.key) in Ahead(m, cf, from)
    ensures Ahead(m, cf, r.key + [0]) == Ahead(m, cf, from) - {Sk(cf, r.key)}
  {
    assert Sk(cf, r.key)[1..] == r.key;
    forall k | k in m && k != [] && k[0] == cf
      ensures Le(r.key + [0], k[1..]) <==> Le(from, k[1..]) && k != Sk(cf, r.key)
    {
      var x := k[1..];
      assert k == Sk(cf, x);
      Successor(r.key, x);
      if Lt(r.key, x) {
        LeLtTrans(from, r.key, x);
        LtAsym(r.key, x);
      }
    }
  }

  // ---- the walk -------------------------------------------------------------------------------------

  /** A version that ends the walk: its user key is at or past the end of the range. */
  ghost predicate Stops(st: P.Store, start: Bytes, end: Bytes, w: Bytes, d: nat) {
    end != [] && d <= MAX_TS && (w, d) in st.writes && Le(end, w) && Le(start, DataKey(w, d))
  }

  ghost predicate MetAt(st: P.Store, start: Bytes, end: Bytes, u: Bytes, c: nat) {
    && c <= MAX_TS && (u, c) in st.writes && Le(start, DataKey(u, c))
    && forall w: Bytes, d: nat | Stops(st, start, end, w, d) :: Lt(DataKey(u, c), DataKey(w, d))
  }

  /** Some version of `u` comes before any that ends the walk. */
  ghost predicate Met(st: P.Store, start: Bytes, end: Bytes, u: Bytes) { exists c: nat :: MetAt(st, start, end, u, c) }

  ghost predicate EarlierAt(st: P.Store, start: Bytes, u: Bytes, c: nat, w: Bytes) {
    && c <= MAX_TS && (u, c) in st.writes && Le(start, DataKey(u, c))
    && forall d: nat | d <= MAX_TS && (w, d) in st.writes && Le(start, DataKey(w, d)) :: Lt(DataKey(u, c), DataKey(w, d))
  }

  /** Some version of `u` comes before every version of `w`. */
  ghost predicate Earlier(st: P.Store, start: Bytes, u: Bytes, w: Bytes) { exists c: nat :: EarlierAt(st, start, u, c, w) }

  datatype Pair<T> = Pair(key: Bytes, value: T)

  ghost predicate InWalkOrder<T>(st: P.Store, start: Bytes, out: seq<Pair<T>>) {
    forall i: nat, j: nat | i < j < |out| :: Earlier(st, start, out[i].key, out[j].key)
  }

  /** What a walk takes for each key, if anything. */
  type Take<!T> = Bytes -> Option<T>

  ghost predicate DueBy<T>(st: P.Store, start: Bytes, end: Bytes, take: Take<T>, u: Bytes) {
    Met(st, start, end, u) && take(u).Some?
  }

  /** What a walk returns: the keys met, each once, in the order they are met, as many as the limit allows. */
  ghost predicate Walked<T>(st: P.Store, start: Bytes, end: Bytes, take: Take<T>, limit: nat, out: seq<Pair<T>>) {
    && (forall p | p in out :: Met(st, start, end, p.key) && take(p.key) == Some(p.value))
    && InWalkOrder(st, start, out)
    && (limit > 0 ==> |out| <= limit)
    && (forall u: Bytes {:trigger DueBy(st, start, end, take, u)} | DueBy(st, start, end, take, u) ::
          Pair(u, take(u).value) in out || (limit > 0 && |out| == limit && forall p | p in out :: Earlier(st, start, p.key, u)))
  }

  // ---- the loop ------------------------------------------------------------------------------------------

  ghost predicate PassedAt(st: P.Store, start: Bytes, u: Bytes, c: nat, cursor: Bytes) {
    c <= MAX_TS && (u, c) in st.writes && Le(start, DataKey(u, c)) && Lt(DataKey(u, c), cursor)
  }

  /** A version of `u` lies between the start and the cursor. */
  ghost predicate Passed(st: P.Store, start: Bytes, u: Bytes, cursor: Bytes) { exists c: nat :: PassedAt(st, start, u, c, cursor) }

  ghost predicate Progress<T(!new)>(st: P.Store, start: Bytes, end: Bytes, take: Take<T>, cursor: Bytes, seen: set<Bytes>,
                                    out: seq<Pair<T>>) {
    && (forall u: Bytes {:trigger Passed(st, start, u, cursor)} :: u in seen <==> Passed(st, start, u, cursor))
    && (forall w: Bytes, d: nat | Stops(st, start, end, w, d) :: !Lt(DataKey(w, d), cursor))
    && (forall p :: p in out <==> p.key in seen && take(p.key) == Some(p.value))
    && InWalkOrder(st, start, out)
  }

  lemma NothingPassed<T(!new)>(st: P.Store, start: Bytes, end: Bytes, take: Take<T>)
    ensures Progress(st, start, end, take, start, {}, [])
  {
    forall x: Bytes ensures Le(start, x) ==> !Lt(x, start) { NotLt(x, start); }
  }

  /** Between the cursor and what the seek found there is nothing. */
  lemma UpToHere(m: Flat, st: P.Store, cursor: Bytes, x: Bytes, v: MemValue, u: Bytes, d: nat)
    requires Stores(m, st) && d <= MAX_TS && (u, d) in st.writes && IsSeek(m, WRITE, cursor, Some(Kv(x, v)))
    requires Lt(DataKey(u, d), x + [0])
    ensures DataKey(u, d) == x || Lt(DataKey(u, d), cursor)
  {
    assert WriteAt(m, st, u, d);
    Successor(x, DataKey(u, d));
    NotLt(DataKey(u, d), x + [0]);
    NotLt(x, DataKey(u, d));
    NotLt(DataKey(u, d), cursor);
    NotLt(DataKey(u, d), x);
  }

  /** What lies before the next cursor: what lay before this one, and the version just met. */
  lemma PassedNext(m: Flat, st: P.Store, start: Bytes, cursor: Bytes, u: Bytes, t: nat, v: MemValue, w: Bytes)
    requires Stores(m, st) && t <= MAX_TS && (u, t) in st.writes && IsSeek(m, WRITE, cursor, Some(Kv(DataKey(u, t), v)))
    requires Le(start, cursor)
    ensures Passed(st, start, w, DataKey(u, t) + [0]) <==> Passed(st, start, w, cursor) || w == u
  {
    var x := DataKey(u, t);
    PrefixLe(x, [0]);
    LeTrans(start, cursor, x);
    if w == u {
      assert PassedAt(st, start, u, t, x + [0]);
    } else if Passed(st, start, w, cursor) {
      var c: nat :| PassedAt(st, start, w, c, cursor);
      LeLtTrans(DataKey(w, c), cursor, x);
      LtTrans(DataKey(w, c), x, x + [0]);
      assert PassedAt(st, start, w, c, x + [0]);
    } else if Passed(st, start, w, x + [0]) {
      var c: nat :| PassedAt(st, start, w, c, x + [0]);
      UpToHere(m, st, cursor, x, v, w, c);
      if DataKey(w, c) == x { DataKeyInjective(w, c, u, t); }
      assert PassedAt(st, start, w, c, cursor);
    }
  }

  /** A key met for the first time comes after every key met before. */
  lemma MetLater(st: P.Store, start: Bytes, cursor: Bytes, w: Bytes, u: Bytes)
    requires Passed(st, start, w, cursor) && !Passed(st, start, u, cursor)
    ensures Earlier(st, start, w, u)
  {
    var c: nat :| PassedAt(st, start, w, c, cursor);
    forall d: nat | d <= MAX_TS && (u, d) in st.writes && Le(start, DataKey(u, d)) ensures Lt(DataKey(w, c), DataKey(u, d)) {
      assert !PassedAt(st, start, u, d, cursor);
      NotLt(DataKey(u, d), cursor);
      LeLtTrans(DataKey(w, c), cursor, DataKey(u, d));
    }
    assert EarlierAt(st, start, w, c, u);
  }

  /** What was seen was met. */
  lemma SeenIsMet<T(!new)>(st: P.Store, start: Bytes, end: Bytes, take: Take<T>, cursor: Bytes, seen: set<Bytes>,
                           out: seq<Pair<T>>, u: Bytes)
    requires Progress(st, start, end, take, cursor, seen, out) && u in seen
    ensures Met(st, start, end, u)
  {
    assert Passed(st, start, u, cursor);
    var c: nat :| PassedAt(st, start, u, c, cursor);
    forall w: Bytes, d: nat | Stops(st, start, end, w, d) ensures Lt(DataKey(u, c), DataKey(w, d)) {
      NotLt(DataKey(w, d), cursor);
      LeLtTrans(DataKey(u, c), cursor, DataKey(w, d));
    }
    assert MetAt(st, start, end, u, c);
  }

  /** The walk ended without the limit: every key met was seen. */
  lemma Complete<T(!new)>(st: P.Store, start: Bytes, end: Bytes, take: Take<T>, limit: nat, cursor: Bytes, seen: set<Bytes>,
                          out: seq<Pair<T>>)
    requires Progress(st, start, end, take, cursor, seen, out) && (limit > 0 ==> |out| <= limit)
    requires forall u: Bytes {:trigger Met(st, start, end, u)} | Met(st, start, end, u) :: Passed(st, start, u, cursor)
    ensures Walked(st, start, end, take, limit, out)
  {
    forall p | p in out ensures Met(st, start, end, p.key) { SeenIsMet(st, start, end, take, cursor, seen, out, p.key); }
  }

  lemma AtTheEnd(m: Flat, st: P.Store, start: Bytes, end: Bytes, cursor: Bytes, u: Bytes)
    requires Stores(m, st) && IsSeek(m, WRITE, cursor, None) && Met(st, start, end, u)
    ensures Passed(st, start, u, cursor)
  {
    var c: nat :| MetAt(st, start, end, u, c);
    assert WriteAt(m, st, u, c);
    NotLt(DataKey(u, c), cursor);
    assert PassedAt(st, start, u, c, cursor);
  }

  lemma PastTheRange(m: Flat, st: P.Store, start: Bytes, end: Bytes, cursor: Bytes, w: Bytes, d: nat, v: MemValue, u: Bytes)
    requires Stores(m, st) && Stops(st, start, end, w, d) && IsSeek(m, WRITE, cursor, Some(Kv(DataKey(w, d), v)))
    requires Met(st, start, end, u)
    ensures Passed(st, start, u, cursor)
  {
    var c: nat :| MetAt(st, start, end, u, c);
    var x := DataKey(w, d);
    PrefixLe(x, [0]);
    LtTrans(DataKey(u, c), x, x + [0]);
    UpToHere(m, st, cursor, x, v, u, c);
    LtIrreflexive(x);
    assert PassedAt(st, start, u, c, cursor);
  }

  /** The pairs after resolving `u`. */
  function Resolved<T>(out: seq<Pair<T>>, u: Bytes, v: Option<T>): seq<Pair<T>> {
    match v
    case Some(b) => out + [Pair(u, b)]
    case None => out
  }

  lemma ResolvedHas<T>(out: seq<Pair<T>>, u: Bytes, v: Option<T>, p: Pair<T>)
    ensures p in Resolved(out, u, v) <==> p in out || (p.key == u && v == Some(p.value))
  {
  }

  /** A key seen again is skipped. */
  lemma SkipSeen<T(!new)>(st: P.Store, start: Bytes, end: Bytes, take: Take<T>, cursor: Bytes, next: Bytes, u: Bytes,
                          seen: set<Bytes>, out: seq<Pair<T>>)
    requires Progress(st, start, end, take, cursor, seen, out) && u in seen
    requires forall w: Bytes {:trigger Passed(st, start, w, next)} :: Passed(st, start, w, next) <==> Passed(st, start, w, cursor) || w == u
    requires forall w: Bytes, d: nat | Stops(st, start, end, w, d) :: !Lt(DataKey(w, d), next)
    ensures Progress(st, start, end, take, next, seen, out)
  {
    forall w: Bytes ensures w in seen <==> Passed(st, start, w, next) {
      assert w in seen <==> Passed(st, start, w, cursor);
    }
  }

  /** A new key goes after all before it. */
  lemma TakeNew<T(!new)>(st: P.Store, start: Bytes, end: Bytes, take: Take<T>, cursor: Bytes, next: Bytes, u: Bytes,
                         seen: set<Bytes>, out: seq<Pair<T>>,
                grown: seq<Pair<T>>)
    requires Progress(st, start, end, take, cursor, seen, out) && u !in seen
    requires forall w: Bytes {:trigger Passed(st, start, w, next)} :: Passed(st, start, w, next) <==> Passed(st, start, w, cursor) || w == u
    requires forall w: Bytes, d: nat | Stops(st, start, end, w, d) :: !Lt(DataKey(w, d), next)
    requires grown == Resolved(out, u, take(u))
    ensures Progress(st, start, end, take, next, seen + {u}, grown)
  {
    forall w: Bytes ensures w in seen + {u} <==> Passed(st, start, w, next) {
      assert w in seen <==> Passed(st, start, w, cursor);
    }
    forall p: Pair<T> ensures p in grown <==> p.key in seen + {u} && take(p.key) == Some(p.value) {
      ResolvedHas(out, u, take(u), p);
    }
    assert !Passed(st, start, u, cursor);
    ResolvedInOrder(st, start, end, take, cursor, u, seen, out);
  }

  lemma ResolvedInOrder<T(!new)>(st: P.Store, start: Bytes, end: Bytes, take: Take<T>, cursor: Bytes, u: Bytes,
                                 seen: set<Bytes>, out: seq<Pair<T>>)
    requires Progress(st, start, end, take, cursor, seen, out) && !Passed(st, start, u, cursor)
    ensures InWalkOrder(st, start, Resolved(out, u, take(u)))
  {
    forall i: nat | i < |out| ensures Earlier(st, start, out[i].key, u) {
      assert out[i] in out;
      assert Passed(st, start, out[i].key, cursor);
      MetLater(st, start, cursor, out[i].key, u);
    }
  }

  /** With the limit reached, whatever is still to come comes later. */
  lemma LimitReached<T(!new)>(st: P.Store, start: Bytes, end: Bytes, take: Take<T>, limit: nat, cursor: Bytes,
                              seen: set<Bytes>, out: seq<Pair<T>>)
    requires Progress(st, start, end, take, cursor, seen, out) && limit > 0 && |out| == limit
    ensures Walked(st, start, end, take, limit, out)
  {
    forall p | p in out ensures Met(st, start, end, p.key) { SeenIsMet(st, start, end, take, cursor, seen, out, p.key); }
    forall u: Bytes | DueBy(st, start, end, take, u) && Pair(u, take(u).value) !in out
      ensures forall p | p in out :: Earlier(st, start, p.key, u)
    {
      assert u !in seen;
      forall p | p in out ensures Earlier(st, start, p.key, u) {
        assert Passed(st, start, p.key, cursor) && !Passed(st, start, u, cursor);
        MetLater(st, start, cursor, p.key, u);
      }
    }
  }

  lemma CursorUp(start: Bytes, cursor: Bytes, x: Bytes)
    requires Le(start, cursor) && Le(cursor, x)
    ensures Le(start, x + [0])
  {
    LeTrans(start, cursor, x);
    PrefixLe(x, [0]);
    LeTrans(start, x, x + [0]);
  }

  ghost predicate Walking<T(!new)>(m: Flat, st: P.Store, start: Bytes, end: Bytes, take: Take<T>, limit: nat, cursor: Bytes,
                          seen: set<Bytes>, out: seq<Pair<T>>) {
    && Stores(m, st) && Progress(st, start, end, take, cursor, seen, out)
    && Le(start, cursor) && (limit > 0 ==> |out| < limit)
  }

  lemma Finished<T(!new)>(m: Flat, st: P.Store, start: Bytes, end: Bytes, take: Take<T>, limit: nat, cursor: Bytes,
                          seen: set<Bytes>,
                 out: seq<Pair<T>>)
    requires Walking(m, st, start, end, take, limit, cursor, seen, out) && IsSeek(m, WRITE, cursor, None)
    ensures Walked(st, start, end, take, limit, out)
  {
    forall u: Bytes | Met(st, start, end, u) ensures Passed(st, start, u, cursor) { AtTheEnd(m, st, start, end, cursor, u); }
    Complete(st, start, end, take, limit, cursor, seen, out);
  }

  lemma Leaves<T(!new)>(m: Flat, st: P.Store, start: Bytes, end: Bytes, take: Take<T>, limit: nat, cursor: Bytes, w: Bytes,
                        d: nat, v: MemValue,
               seen: set<Bytes>, out: seq<Pair<T>>)
    requires Walking(m, st, start, end, take, limit, cursor, seen, out)
    requires Stops(st, start, end, w, d) && IsSeek(m, WRITE, cursor, Some(Kv(DataKey(w, d), v)))
    ensures Walked(st, start, end, take, limit, out)
  {
    forall u: Bytes | Met(st, start, end, u) ensures Passed(st, start, u, cursor) {
      PastTheRange(m, st, start, end, cursor, w, d, v, u);
    }
    Complete(st, start, end, take, limit, cursor, seen, out);
  }

  /** Moving past a version that does not end the walk passes none that does. */
  lemma NoStopPassed(m: Flat, st: P.Store, start: Bytes, end: Bytes, cursor: Bytes, u: Bytes, t: nat, v: MemValue, w: Bytes, d: nat)
    requires Stores(m, st) && t <= MAX_TS && (u, t) in st.writes && IsSeek(m, WRITE, cursor, Some(Kv(DataKey(u, t), v)))
    requires !(end != [] && Le(end, u)) && Stops(st, start, end, w, d) && !Lt(DataKey(w, d), cursor)
    ensures !Lt(DataKey(w, d), DataKey(u, t) + [0])
  {
    if Lt(DataKey(w, d), DataKey(u, t) + [0]) {
      UpToHere(m, st, cursor, DataKey(u, t), v, w, d);
      DataKeyInjective(w, d, u, t);
    }
  }

  /** What one more version means for the scan, whichever way the loop takes. */
  lemma OneEntry<T(!new)>(m: Flat, st: P.Store, start: Bytes, end: Bytes, take: Take<T>, limit: nat, cursor: Bytes, r: Kv,
                          seen: set<Bytes>,
                 out: seq<Pair<T>>) returns (u: Bytes)
    requires Walking(m, st, start, end, take, limit, cursor, seen, out) && IsSeek(m, WRITE, cursor, Some(r))
    ensures DecodeDataKey(r.key).Some? && DecodeDataKey(r.key).value.0 == u
    ensures end != [] && Le(end, u) ==> Walked(st, start, end, take, limit, out)
    ensures !(end != [] && Le(end, u)) && u in seen ==> Walking(m, st, start, end, take, limit, r.key + [0], seen, out)
    ensures !(end != [] && Le(end, u)) && u !in seen ==>
      var grown := Resolved(out, u, take(u));
      && (limit > 0 && |grown| >= limit ==> Walked(st, start, end, take, limit, grown))
      && (!(limit > 0 && |grown| >= limit) ==> Walking(m, st, start, end, take, limit, r.key + [0], seen + {u}, grown))
  {
    var t;
    u, t := Landed(m, st, r.key);
    CursorUp(start, cursor, r.key);
    LeTrans(start, cursor, r.key);
    if end != [] && Le(end, u) {
      Leaves(m, st, start, end, take, limit, cursor, u, t, r.value, seen, out);
    } else {
      Advanced(m, st, start, end, take, cursor, u, t, r.value, seen, out);
      var grown := Resolved(out, u, take(u));
      if u !in seen && limit > 0 && |grown| >= limit {
        LimitReached(st, start, end, take, limit, r.key + [0], seen + {u}, grown);
      }
    }
  }

  lemma Advanced<T(!new)>(m: Flat, st: P.Store, start: Bytes, end: Bytes, take: Take<T>, cursor: Bytes, u: Bytes, t: nat,
                          v: MemValue,
                 seen: set<Bytes>, out: seq<Pair<T>>)
    requires Stores(m, st) && Progress(st, start, end, take, cursor, seen, out) && Le(start, cursor)
    requires t <= MAX_TS && (u, t) in st.writes && IsSeek(m, WRITE, cursor, Some(Kv(DataKey(u, t), v))) && !(end != [] && Le(end, u))
    ensures u in seen ==> Progress(st, start, end, take, DataKey(u, t) + [0], seen, out)
    ensures u !in seen ==> Progress(st, start, end, take, DataKey(u, t) + [0], seen + {u}, Resolved(out, u, take(u)))
  {
    var next := DataKey(u, t) + [0];
    forall w: Bytes ensures Passed(st, start, w, next) <==> Passed(st, start, w, cursor) || w == u {
      PassedNext(m, st, start, cursor, u, t, v, w);
    }
    forall w: Bytes, d: nat | Stops(st, start, end, w, d) ensures !Lt(DataKey(w, d), next) {
      NoStopPassed(m, st, start, end, cursor, u, t, v, w, d);
    }
    if u in seen {
      SkipSeen(st, start, end, take, cursor, next, u, seen, out);
    } else {
      TakeNew(st, start, end, take, cursor, next, u, seen, out, Resolved(out, u, take(u)));
    }
  }

  // ---- the snapshot scan -----------------------------------------------------------------------------------

  /** What a scan takes for a key: nothing under a shadowing lock, else what a read finds. */
  ghost function Taken(st: P.Store, u: Bytes, ts: nat): P.Value
    requires ts <= MAX_TS
  {
    if P.Unshadowed(st, u, ts) then Read(st, u, ts) else None
  }

  ghost function Takes(st: P.Store, ts: nat): Take<Bytes>
    requires ts <= MAX_TS
  {
    u => Taken(st, u, ts)
  }

  ghost predicate Due(st: P.Store, start: Bytes, end: Bytes, ts: nat, u: Bytes)
    requires ts <= MAX_TS
  {
    DueBy(st, start, end, Takes(st, ts), u)
  }

  ghost predicate IsWalk(st: P.Store, start: Bytes, end: Bytes, ts: nat, limit: nat, out: seq<Pair<Bytes>>)
    requires ts <= MAX_TS
  {
    Walked(st, start, end, Takes(st, ts), limit, out)
  }

  /** Resolve one key and take its value if it has one. */
  method Visit(store: Lsm.Store, key: Bytes, ts: nat, out: seq<Pair<Bytes>>, ghost st: P.Store) returns (grown: seq<Pair<Bytes>>)
    requires store.Valid() && Stores(store.Now(), st) && ts <= MAX_TS
    ensures grown == Resolved(out, key, Taken(st, key, ts))
  {
    var a := GetUnresolved(store, key, ts, st);
    grown := out;
    if a.Value? && a.value.Some? { grown := out + [Pair(key, a.value.value)]; }
  }

  /** `scan` with `resolve` off. */
  method ScanRange(store: Lsm.Store, start: Bytes, end: Bytes, ts: nat, limit: nat, ghost st: P.Store) returns (out: seq<Pair<Bytes>>)
    requires store.Valid() && Stores(store.Now(), st) && ts <= MAX_TS
    ensures IsWalk(st, start, end, ts, limit, out)
  {
    out := [];
    var seen: set<Bytes> := {};
    var iter := new MergeIter(store, WRITE, start);
    ghost var cursor, m, take := start, store.Now(), Takes(st, ts);
    NothingPassed(st, start, end, take);
    while true
      invariant iter.cursor == Some(cursor) && iter.store == store && iter.cf == WRITE && fresh(iter)
      invariant Walking(m, st, start, end, take, limit, cursor, seen, out)
      decreases |Ahead(m, WRITE, cursor)|
    {
      var e := iter.Next();
      if e.None? {
        Finished(m, st, start, end, take, limit, cursor, seen, out);
        return;
      }
      ghost var u := OneEntry(m, st, start, end, take, limit, cursor, e.value, seen, out);
      var key := DecodeDataKey(e.value.key).value.0;
      if end != [] && Le(end, key) { return; }
      if key !in seen {
        seen := seen + {key};
        out := Visit(store, key, ts, out, st);
        if limit != 0 && |out| >= limit { return; }
      }
      cursor := e.value.key + [0];
    }
  }
}
