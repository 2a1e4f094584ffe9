/** The newest version of every key of a range (engine/src/scan.rs, `scan_versions`), tombstones included: what a replica
    compares and hands out when it reconciles, and what a leaderless read of one key asks for. */
module ScanVersions {
  import opened Basics
  import opened ByteOrder
  import opened Codec
  import opened DataKeys
  import opened Runs
  import opened Mvcc
  import opened PlainKeys
  import opened Scan
  import opened ScanOrder
  import opened AntiEntropy
  import Lsm
  import P = Percolator
  import MvccWrites

  // ---- what the walk takes ------------------------------------------------------------------------

  /** The version a commit record points at; none if the value is missing. */
  ghost function VersionAt(st: P.Store, u: Bytes, c: nat): Option<Version>
    requires (u, c) in st.writes
  {
    var s := st.writes[(u, c)];
    if (u, s) in st.data then Some(Version(c, st.data[(u, s)])) else None
  }

  /** The first version of `u` a walk from `start` comes upon. */
  ghost predicate IsFirst(st: P.Store, start: Bytes, u: Bytes, c: nat) {
    && c <= MAX_TS && (u, c) in st.writes && Le(start, DataKey(u, c))
    && forall d: nat | d <= MAX_TS && (u, d) in st.writes && Le(start, DataKey(u, d)) :: d <= c
  }

  ghost function Found(st: P.Store, start: Bytes, u: Bytes): Option<Version> {
    if exists c: nat :: IsFirst(st, start, u, c) then
      var c: nat :| IsFirst(st, start, u, c);
      VersionAt(st, u, c)
    else None
  }

  ghost function Finds(st: P.Store, start: Bytes): Take<Version> { u => Found(st, start, u) }

  lemma FirstFound(st: P.Store, start: Bytes, u: Bytes, c: nat)
    requires IsFirst(st, start, u, c)
    ensures Found(st, start, u) == VersionAt(st, u, c)
  {
  }

  /** A key not seen before is met at its first version. */
  lemma MetFirst(m: Flat, st: P.Store, start: Bytes, cursor: Bytes, u: Bytes, t: nat, v: MemValue)
    requires Stores(m, st) && t <= MAX_TS && (u, t) in st.writes && IsSeek(m, WRITE, cursor, Some(Kv(DataKey(u, t), v)))
    requires Le(start, cursor) && !Scan.Passed(st, start, u, cursor)
    ensures Found(st, start, u) == VersionAt(st, u, t)
  {
    LeTrans(start, cursor, DataKey(u, t));
    forall d: nat | d <= MAX_TS && (u, d) in st.writes && Le(start, DataKey(u, d)) ensures d <= t {
      assert WriteAt(m, st, u, d);
      assert !PassedAt(st, start, u, d, cursor);
      NotLt(DataKey(u, d), cursor);
      NewerFirst(u, t, d);
    }
    FirstFound(st, start, u, t);
  }

  method ReadVersion(store: Lsm.Store, key: Bytes, c: nat, w: MemValue, ghost st: P.Store) returns (r: Option<Version>)
    requires store.Valid() && Stores(store.Now(), st) && (key, c) in st.writes
    requires st.writes[(key, c)] <= MAX_TS && w == Put(Be(st.writes[(key, c)], 8))
    ensures r == VersionAt(st, key, c)
  {
    Widths();
    BeRoundTrip(st.writes[(key, c)], 8);
    var v := FindValue(store, key, FromBe(w.value), st);
    r := if v.Some? then Some(Version(c, v.value)) else None;
  }

  /** `scan_versions`. */
  method ScanVersions(store: Lsm.Store, start: Bytes, end: Bytes, limit: nat, ghost st: P.Store) returns (out: seq<Pair<Version>>)
    requires store.Valid() && Stores(store.Now(), st)
    ensures Walked(st, start, end, Finds(st, start), limit, out)
  {
    out := [];
    var seen: set<Bytes> := {};
    var iter := new MergeIter(store, WRITE, start);
    ghost var cursor, m, take := start, store.Now(), Finds(st, start);
    NothingPassed(st, start, end, take);
    while true
      invariant iter.cursor == Some(cursor) && iter.store == store && iter.cf == WRITE && fresh(iter)
      invariant Walking(m, st, start, end, take, limit, cursor, seen, out)
      decreases |Ahead(m, WRITE, cursor)|
    {
      var e := iter.Next();
      if e.None? {
        Finished(m, st, start, end, take, limit, cursor, seen, out);
        return;
      }
      ghost var u := OneEntry(m, st, start, end, take, limit, cursor, e.value, seen, out);
      ghost var k, t := Landed(m, st, e.value.key);
      var (key, c) := DecodeDataKey(e.value.key).value;
      if end != [] && Le(end, key) { return; }
      if key !in seen {
        assert !Scan.Passed(st, start, key, cursor);
        MetFirst(m, st, start, cursor, key, t, e.value.value);
        seen := seen + {key};
        var r := ReadVersion(store, key, c, e.value.value, st);
        assert r == take(key);
        if r.Some? {
          out := out + [Pair(key, r.value)];
          if limit != 0 && |out| >= limit { return; }
        }
      }
      cursor := e.value.key + [0];
    }
  }

  // ---- the newest versions of a range ---------------------------------------------------------------------

  ghost function Newest(st: P.Store, u: Bytes): Option<Version> {
    match P.Newest(st.writes, u, MAX_TS)
    case None => None
    case Some(c) => VersionAt(st, u, c)
  }

  ghost predicate Held(st: P.Store, u: Bytes) { Newest(st, u).Some? }

  lemma HeldCommitted(st: P.Store, u: Bytes)
    requires Held(st, u)
    ensures Committed(st, u)
  {
    assert (u, P.Newest(st.writes, u, MAX_TS).value) in st.writes;
  }

  /** Every newest version of the range, and nothing else. */
  ghost predicate Listing(st: P.Store, start: Bytes, end: Bytes, out: seq<Pair<Version>>) {
    forall p: Pair<Version> :: p in out <==> InRange(start, end, p.key) && Newest(st, p.key) == Some(p.value)
  }

  /** No key of the range begins a committed key past the end, and what begins the start is cut off by one. */
  ghost predicate Listable(st: P.Store, start: Bytes, end: Bytes) {
    && (forall u: Bytes, w: Bytes | InRange(start, end, u) && Held(st, u) && Stopper(st, start, end, w) :: !(u < w))
    && (forall u: Bytes | Held(st, u) && u < start :: CutOff(st, start, end, u))
  }

  lemma PlainFound(st: P.Store, start: Bytes, u: Bytes, b: Byte)
    requires PlainStore(st, b) && Plain(start, b) && AtOrAfter(start, u)
    ensures Found(st, start, u) == Newest(st, u)
  {
    match P.Newest(st.writes, u, MAX_TS)
    case None =>
    case Some(c) =>
      PlainStart(start, u, c, b);
      FirstFound(st, start, u, c);
  }

  /** What an unlimited walk lists, of plain keys. */
  lemma PlainListed(st: P.Store, start: Bytes, end: Bytes, out: seq<Pair<Version>>, p: Pair<Version>, b: Byte)
    requires PlainStore(st, b) && Plain(start, b) && Walked(st, start, end, Finds(st, start), 0, out)
    ensures p in out <==> Met(st, start, end, p.key) && Newest(st, p.key) == Some(p.value)
  {
    if Met(st, start, end, p.key) {
      MetNotPast(st, start, end, p.key, b);
      PlainFound(st, start, p.key, b);
      assert Held(st, p.key) ==> DueBy(st, start, end, Finds(st, start), p.key);
    }
  }

  lemma MetIffInRange(st: P.Store, start: Bytes, end: Bytes, u: Bytes, b: Byte)
    requires PlainStore(st, b) && Plain(start, b) && Listable(st, start, end) && Held(st, u)
    ensures Met(st, start, end, u) <==> InRange(start, end, u)
  {
    HeldCommitted(st, u);
    if InRange(start, end, u) {
      RangeMet(st, start, end, u, b);
    } else if Met(st, start, end, u) {
      MetNotPast(st, start, end, u, b);
      BeginsMet(st, start, end, u, b);
    }
  }

  /** An unlimited listing of plain keys is the range's newest versions if and only if the range is listable. */
  lemma ListingIff(st: P.Store, start: Bytes, end: Bytes, out: seq<Pair<Version>>, b: Byte)
    requires PlainStore(st, b) && Plain(start, b) && Walked(st, start, end, Finds(st, start), 0, out)
    ensures Listing(st, start, end, out) <==> Listable(st, start, end)
  {
    if Listable(st, start, end) {
      forall p: Pair<Version> ensures p in out <==> InRange(start, end, p.key) && Newest(st, p.key) == Some(p.value) {
        PlainListed(st, start, end, out, p, b);
        if Held(st, p.key) { MetIffInRange(st, start, end, p.key, b); }
      }
    } else if Listing(st, start, end, out) {
      forall u: Bytes | Held(st, u) ensures Met(st, start, end, u) <==> InRange(start, end, u) {
        PlainListed(st, start, end, out, Pair(u, Newest(st, u).value), b);
      }
      MetListable(st, start, end, b);
    }
  }

  lemma MetListable(st: P.Store, start: Bytes, end: Bytes, b: Byte)
    requires PlainStore(st, b) && Plain(start, b)
    requires forall u: Bytes | Held(st, u) :: Met(st, start, end, u) <==> InRange(start, end, u)
    ensures Listable(st, start, end)
  {
    forall u: Bytes, w: Bytes | InRange(start, end, u) && Held(st, u) && Stopper(st, start, end, w) ensures !(u < w) {
      HeldCommitted(st, u);
      RangeMet(st, start, end, u, b);
    }
    forall u: Bytes | Held(st, u) && u < start ensures CutOff(st, start, end, u) {
      HeldCommitted(st, u);
      BeginsMet(st, start, end, u, b);
      PrefixLt(u, start);
      LtAsym(u, start);
    }
  }

  /** Such a listing is in key order if and only if no key of it begins another. */
  lemma ListingOrder(st: P.Store, start: Bytes, end: Bytes, out: seq<Pair<Version>>, b: Byte)
    requires PlainStore(st, b) && Plain(start, b) && Walked(st, start, end, Finds(st, start), 0, out)
    ensures Ordered(out) <==> forall p, q | p in out && q in out :: !(p.key < q.key)
  {
    forall p, q | p in out && q in out ensures Earlier(st, start, p.key, q.key) <==> Before(p.key, q.key) {
      MetNotPast(st, start, end, p.key, b);
      MetNotPast(st, start, end, q.key, b);
      PlainEarlier(st, start, p.key, q.key, b);
    }
    if Ordered(out) {
      forall p, q | p in out && q in out ensures !(p.key < q.key) {
        if p.key < q.key {
          PrefixLt(p.key, q.key);
          InKeyOrder(st, start, out, q, p);
          LtAsym(p.key, q.key);
        }
      }
    } else {
      var i: nat, j: nat :| i < j < |out| && !Lt(out[i].key, out[j].key);
      assert out[i] in out && out[j] in out && Earlier(st, start, out[i].key, out[j].key);
    }
  }

  /** Keys no shorter than the bounds, as when a region's bounds are table prefixes, are always listed right. */
  lemma LongKeysListable(st: P.Store, start: Bytes, end: Bytes)
    requires forall u: Bytes | Committed(st, u) :: |u| >= |start| && |u| >= |end|
    ensures Listable(st, start, end)
  {
    forall u: Bytes | Held(st, u) ensures Committed(st, u) { HeldCommitted(st, u); }
    forall u: Bytes, w: Bytes | InRange(start, end, u) && Held(st, u) && Stopper(st, start, end, w) ensures !(u < w) {
      if u < w { WholeBound(u, end, w); }
    }
  }

  lemma WholeBound(u: Bytes, end: Bytes, w: Bytes)
    requires |u| >= |end| && Lt(u, end) && Le(end, w)
    ensures !(u < w)
  {
    if u < w {
      if end <= u {
        PrefixLe(end, u[|end|..]);
        assert end + u[|end|..] == u;
        LeLtTrans(end, u, end);
        LtAsym(u, end);
      } else {
        assert Apart(u, end);
        ApartOrder(u, end, w[|u|..], []);
        assert u + w[|u|..] == w && end + [] == end;
        LeLtTrans(end, w, end);
        LtIrreflexive(end);
        LtAsym(w, end);
      }
    }
  }

  // ---- what reconciling replicas list ------------------------------------------------------------------------

  /** The range as a replica state. */
  ghost predicate IsState(st: P.Store, start: Bytes, end: Bytes, m: State) {
    && (forall u: Bytes | u in m :: InRange(start, end, u) && Newest(st, u) == Some(m[u]))
    && (forall u: Bytes | InRange(start, end, u) && Held(st, u) :: u in m)
  }

  function Stamps(out: seq<Pair<Version>>): (r: seq<Stamp>)
    ensures |r| == |out| && forall i: nat | i < |r| :: r[i] == Stamp(out[i].key, out[i].value.hlc)
  {
    seq(|out|, i requires 0 <= i < |out| => Stamp(out[i].key, out[i].value.hlc))
  }

  lemma StampsDistinct(st: P.Store, start: Bytes, out: seq<Pair<Version>>)
    requires InWalkOrder(st, start, out)
    ensures DistinctKeys(Stamps(out))
  {
    forall i: nat, j: nat | i < j < |out| ensures out[i].key != out[j].key { EarlierAsym(st, start, out[i].key, out[j].key); }
  }

  lemma StampsList(out: seq<Pair<Version>>, m: State)
    requires DistinctKeys(Stamps(out)) && forall p: Pair<Version> :: p in out <==> p.key in m && m[p.key] == p.value
    ensures Lists(Stamps(out), m)
  {
    var vs := Stamps(out);
    forall v | v in vs ensures v.key in m && m[v.key].hlc == v.hlc {
      var i: nat :| i < |vs| && vs[i] == v;
      assert out[i] in out;
    }
    forall k | k in m ensures Stamp(k, m[k].hlc) in vs {
      assert Pair(k, m[k]) in out;
      var i: nat :| i < |out| && out[i] == Pair(k, m[k]);
      assert vs[i] == Stamp(k, m[k].hlc);
    }
  }

  /** So in a listable range `reconcile_ap_once` compares, and `ap_digest` and `ap_fetch` answer with, the state itself. */
  lemma ListsState(st: P.Store, start: Bytes, end: Bytes, out: seq<Pair<Version>>, m: State, b: Byte)
    requires PlainStore(st, b) && Plain(start, b) && Walked(st, start, end, Finds(st, start), 0, out)
    requires IsState(st, start, end, m) && Listable(st, start, end)
    ensures Lists(Stamps(out), m)
  {
    ListingIff(st, start, end, out, b);
    StampsDistinct(st, start, out);
    forall p: Pair<Version> ensures p in out <==> p.key in m && m[p.key] == p.value {
      assert Newest(st, p.key) == Some(p.value) ==> Held(st, p.key);
    }
    StampsList(out, m);
  }

  // ---- one key ---------------------------------------------------------------------------------------------

  function First(out: seq<Pair<Version>>): Option<Version> { if out == [] then None else Some(out[0].value) }

  ghost predicate PointWalk(st: P.Store, key: Bytes, out: seq<Pair<Version>>) {
    Walked(st, key, key + [0], Finds(st, key), 1, out)
  }

  /** A committed key past `key` begins with `u`. */
  ghost predicate Hidden(st: P.Store, key: Bytes, u: Bytes) { exists w: Bytes :: Committed(st, w) && Lt(key, w) && u <= w }

  lemma HiddenIff(st: P.Store, key: Bytes, u: Bytes)
    ensures CutOff(st, key, key + [0], u) <==> Hidden(st, key, u)
  {
    forall w: Bytes ensures Stopper(st, key, key + [0], w) <==> Committed(st, w) && Lt(key, w) { Successor(key, w); }
  }

  lemma PointStopper(st: P.Store, key: Bytes, w: Bytes)
    ensures Stopper(st, key, key + [0], w) <==> Committed(st, w) && Lt(key, w)
    ensures key < w ==> Lt(key, w)
  {
    Successor(key, w);
    if key < w { PrefixLt(key, w); }
  }

  /** A key is met exactly when no committed key is longer and begins with it. */
  lemma PointMet(st: P.Store, key: Bytes, b: Byte)
    requires PlainStore(st, b) && Plain(key, b) && Committed(st, key)
    ensures Met(st, key, key + [0], key) <==> !Extended(st, key)
  {
    PrefixLt(key, key + [0]);
    RangeMet(st, key, key + [0], key, b);
    if Extended(st, key) {
      var w: Bytes, t: nat :| (w, t) in st.writes && key < w;
      PointStopper(st, key, w);
    } else {
      forall w: Bytes | Stopper(st, key, key + [0], w) ensures !(key < w) {
        var t: nat :| (w, t) in st.writes;
      }
    }
  }

  /** Only the key itself and what begins it can be met. */
  lemma PointOther(st: P.Store, key: Bytes, u: Bytes, b: Byte)
    requires PlainStore(st, b) && Plain(key, b) && Met(st, key, key + [0], u)
    ensures u <= key && Committed(st, u) && (u != key ==> !Hidden(st, key, u))
  {
    MetNotPast(st, key, key + [0], u, b);
    if !(u < key) {
      LtTotal(u, key);
      Successor(key, u);
      NotLt(u, key + [0]);
      NotLt(u, key);
    } else {
      BeginsMet(st, key, key + [0], u, b);
      HiddenIff(st, key, u);
    }
  }

  /** The read of one key is right. */
  ghost predicate PointSafe(st: P.Store, key: Bytes) {
    if Held(st, key) then !Extended(st, key) else forall u: Bytes | u < key && Held(st, u) :: Hidden(st, key, u)
  }

  lemma PointHeld(st: P.Store, key: Bytes, out: seq<Pair<Version>>, b: Byte)
    requires PlainStore(st, b) && Plain(key, b) && PointWalk(st, key, out) && Held(st, key)
    ensures First(out) == if Extended(st, key) then None else Newest(st, key)
  {
    HeldCommitted(st, key);
    PointMet(st, key, b);
    PlainFound(st, key, key, b);
    if Extended(st, key) {
      if out != [] { ExtendedMeetsNone(st, key, out[0].key, b); }
    } else {
      assert DueBy(st, key, key + [0], Finds(st, key), key);
      if Pair(key, Newest(st, key).value) !in out {
        assert out[0] in out && Earlier(st, key, out[0].key, key);
        PointOther(st, key, out[0].key, b);
        PlainEarlier(st, key, out[0].key, key, b);
      }
    }
  }

  lemma ExtendedMeetsNone(st: P.Store, key: Bytes, u: Bytes, b: Byte)
    requires PlainStore(st, b) && Plain(key, b) && Extended(st, key)
    ensures !Met(st, key, key + [0], u)
  {
    if Met(st, key, key + [0], u) {
      PointOther(st, key, u, b);
      var w: Bytes, t: nat :| (w, t) in st.writes && key < w;
      PointStopper(st, key, w);
      if u == key { PointMet(st, key, b); }
    }
  }

  /** A key that is not there reads as a shorter key that begins it, unless a key past it hides every such key. */
  lemma PointAbsent(st: P.Store, key: Bytes, out: seq<Pair<Version>>, b: Byte)
    requires PlainStore(st, b) && Plain(key, b) && PointWalk(st, key, out) && !Held(st, key)
    ensures First(out).None? <==> forall u: Bytes | u < key && Held(st, u) :: Hidden(st, key, u)
    ensures First(out).Some? ==> exists u: Bytes | u < key :: First(out) == Newest(st, u)
  {
    if out != [] {
      var u := out[0].key;
      assert out[0] in out;
      PointOther(st, key, u, b);
      PlainFound(st, key, u, b);
    } else {
      forall u: Bytes | u < key && Held(st, u) ensures Hidden(st, key, u) {
        HeldCommitted(st, u);
        PlainFound(st, key, u, b);
        BeginsMet(st, key, key + [0], u, b);
        HiddenIff(st, key, u);
        assert !DueBy(st, key, key + [0], Finds(st, key), u);
      }
    }
  }

  /** Exactly when a leaderless read of one key finds that key's newest version. */
  lemma PointIff(st: P.Store, key: Bytes, out: seq<Pair<Version>>, b: Byte)
    requires PlainStore(st, b) && Plain(key, b) && PointWalk(st, key, out)
    ensures First(out) == Newest(st, key) <==> PointSafe(st, key)
  {
    if Held(st, key) { PointHeld(st, key, out, b); } else { PointAbsent(st, key, out, b); }
  }

  /** How `ap_read_repair` and `ap_fetch` read one key: the first version at or after it and before its successor. */
  method ReadLatest(store: Lsm.Store, key: Bytes, ghost st: P.Store) returns (r: Option<Version>)
    requires store.Valid() && Stores(store.Now(), st)
    ensures exists out :: PointWalk(st, key, out) && r == First(out)
    ensures forall b: Byte | PlainStore(st, b) && Plain(key, b) :: r == Newest(st, key) <==> PointSafe(st, key)
  {
    var out := ScanVersions(store, key, key + [0], 1, st);
    if out != [] { r := Some(out[0].value); } else { r := None; }
    assert PointWalk(st, key, out) && r == First(out);
    forall b: Byte | PlainStore(st, b) && Plain(key, b) ensures r == Newest(st, key) <==> PointSafe(st, key) {
      PointIff(st, key, out, b);
    }
  }

  // ---- the keys "a" and "ab" ------------------------------------------------------------------------------------

  /** With "ab" there, "a" reads as absent. */
  lemma PointMisses(out: seq<Pair<Version>>)
    requires PointWalk(MvccWrites.TWO, A, out)
    ensures Newest(MvccWrites.TWO, A) == Some(Version(5, Some([1]))) && First(out) == None
  {
    var two := MvccWrites.TWO;
    MvccWrites.TwoIsPlain();
    assert (A, 5) in two.writes && P.Newest(two.writes, A, MAX_TS) == Some(5);
    assert (MvccWrites.AB, 2) in two.writes && A < MvccWrites.AB;
    assert Extended(two, A);
    PointHeld(two, A, out, 0xff);
  }

  /** "a" alone. */
  const ONE: P.Store := P.Store(map[(A, 4) := Some([1])], map[(A, 5) := 4], map[])

  /** With only "a" there, "ab" reads as what "a" holds. */
  lemma PointStrays(out: seq<Pair<Version>>)
    requires PointWalk(ONE, MvccWrites.AB, out)
    ensures Newest(ONE, MvccWrites.AB) == None && First(out) == Some(Version(5, Some([1])))
  {
    TimelyIff(5, 0xff);
    assert PlainStore(ONE, 0xff);
    assert (A, 5) in ONE.writes && P.Newest(ONE.writes, A, MAX_TS) == Some(5);
    assert A < MvccWrites.AB && Held(ONE, A);
    PrefixLt(A, MvccWrites.AB);
    forall w: Bytes ensures !(Committed(ONE, w) && Lt(MvccWrites.AB, w)) {
      if Committed(ONE, w) && Lt(MvccWrites.AB, w) { LtAsym(A, MvccWrites.AB); }
    }
    PointAbsent(ONE, MvccWrites.AB, out, 0xff);
    var u: Bytes :| u < MvccWrites.AB && First(out) == Newest(ONE, u);
  }
}
