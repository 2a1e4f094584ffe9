/** When a scan is the range asked for: the visible pairs of `[start, end)` in key order. The walk follows the byte order
    of versions, which is not the order of user keys once one key begins another. */
module ScanOrder {
  import opened Basics
  import opened ByteOrder
  import opened DataKeys
  import opened Runs
  import opened Mvcc
  import opened PlainKeys
  import opened Scan
  import P = Percolator
  import MvccWrites

  // ---- what a scan should return ----------------------------------------------------------------

  predicate InRange(start: Bytes, end: Bytes, u: Bytes) { Le(start, u) && (end == [] || Lt(u, end)) }

  /** The value a read of `u` should give; a shadowing lock makes the key invisible. */
  function Visible(st: P.Store, u: Bytes, ts: nat): P.Value {
    if P.Unshadowed(st, u, ts) then P.Lookup(st, u, ts) else None
  }

  ghost predicate Ordered<T>(out: seq<Pair<T>>) { forall i: nat, j: nat | i < j < |out| :: Lt(out[i].key, out[j].key) }

  ghost predicate Shown(st: P.Store, u: Bytes, ts: nat, out: seq<Pair<Bytes>>) {
    Visible(st, u, ts).Some? ==> Pair(u, Visible(st, u, ts).value) in out
  }

  /** Pairs of the range, each visible, in key order; none missing, or with the limit reached none up to the last. */
  ghost predicate IsScan(st: P.Store, start: Bytes, end: Bytes, ts: nat, limit: nat, out: seq<Pair<Bytes>>) {
    && Ordered(out)
    && (forall p | p in out :: InRange(start, end, p.key) && Visible(st, p.key, ts) == Some(p.value))
    && (limit > 0 ==> |out| <= limit)
    && (limit == 0 || |out| < limit ==> forall u: Bytes | InRange(start, end, u) :: Shown(st, u, ts, out))
    && (limit > 0 && |out| == limit ==>
          forall u: Bytes | InRange(start, end, u) && Le(u, out[limit - 1].key) :: Shown(st, u, ts, out))
  }

  // ---- exactly when it does ---------------------------------------------------------------------------

  /** Nothing outside the range is met, nothing visible in it is missed or misread, and keys are met in order. */
  ghost predicate Faithful(st: P.Store, start: Bytes, end: Bytes, ts: nat)
    requires ts <= MAX_TS
  {
    && (forall u: Bytes {:trigger Due(st, start, end, ts, u)} | Due(st, start, end, ts, u) :: InRange(start, end, u))
    && (forall u: Bytes {:trigger InRange(start, end, u)} | InRange(start, end, u) && Visible(st, u, ts).Some? ::
          Met(st, start, end, u) && Taken(st, u, ts) == Visible(st, u, ts))
    && (forall u: Bytes, w: Bytes {:trigger Earlier(st, start, u, w)} |
          Due(st, start, end, ts, u) && Due(st, start, end, ts, w) && Earlier(st, start, u, w) :: Lt(u, w))
  }

  lemma TakenIsVisible(st: P.Store, u: Bytes, ts: nat)
    requires ts <= MAX_TS && Taken(st, u, ts).Some?
    ensures Visible(st, u, ts) == Taken(st, u, ts)
  {
  }

  lemma EarlierAsym(st: P.Store, start: Bytes, u: Bytes, w: Bytes)
    requires Earlier(st, start, u, w)
    ensures !Earlier(st, start, w, u) && u != w
  {
    var c: nat :| EarlierAt(st, start, u, c, w);
    if u == w { LtIrreflexive(DataKey(u, c)); }
    if Earlier(st, start, w, u) {
      var d: nat :| EarlierAt(st, start, w, d, u);
      LtAsym(DataKey(u, c), DataKey(w, d));
    }
  }

  lemma WalkShows(st: P.Store, start: Bytes, end: Bytes, ts: nat, limit: nat, out: seq<Pair<Bytes>>, p: Pair<Bytes>)
    requires ts <= MAX_TS && IsWalk(st, start, end, ts, limit, out) && Faithful(st, start, end, ts) && p in out
    ensures Due(st, start, end, ts, p.key) && InRange(start, end, p.key) && Visible(st, p.key, ts) == Some(p.value)
  {
    assert Takes(st, ts)(p.key) == Some(p.value);
    assert Due(st, start, end, ts, p.key);
    TakenIsVisible(st, p.key, ts);
  }

  /** A visible key of the range is missing only past the limit. */
  lemma WalkMisses(st: P.Store, start: Bytes, end: Bytes, ts: nat, limit: nat, out: seq<Pair<Bytes>>, u: Bytes)
    requires ts <= MAX_TS && IsWalk(st, start, end, ts, limit, out) && Faithful(st, start, end, ts)
    requires InRange(start, end, u) && Visible(st, u, ts).Some? && Pair(u, Visible(st, u, ts).value) !in out
    ensures limit > 0 && |out| == limit && !Le(u, out[limit - 1].key)
  {
    assert Due(st, start, end, ts, u);
    var last := out[limit - 1];
    assert last in out && Earlier(st, start, last.key, u);
    WalkShows(st, start, end, ts, limit, out, last);
    assert Lt(last.key, u);
    NotLt(last.key, u);
  }

  /** A faithful walk is the scan asked for, whatever the limit. */
  lemma WalkIsScan(st: P.Store, start: Bytes, end: Bytes, ts: nat, limit: nat, out: seq<Pair<Bytes>>)
    requires ts <= MAX_TS && IsWalk(st, start, end, ts, limit, out) && Faithful(st, start, end, ts)
    ensures IsScan(st, start, end, ts, limit, out)
  {
    forall p | p in out
      ensures Due(st, start, end, ts, p.key) && InRange(start, end, p.key) && Visible(st, p.key, ts) == Some(p.value)
    {
      WalkShows(st, start, end, ts, limit, out, p);
    }
    forall i: nat, j: nat | i < j < |out| ensures Lt(out[i].key, out[j].key) {
      assert out[i] in out && out[j] in out;
      assert Earlier(st, start, out[i].key, out[j].key);
    }
    forall u: Bytes | InRange(start, end, u) && !Shown(st, u, ts, out) ensures limit > 0 && |out| == limit && !Le(u, out[limit - 1].key) {
      WalkMisses(st, start, end, ts, limit, out, u);
    }
  }

  /** Without a limit the scan is the one asked for only if the walk is faithful. */
  lemma ScanIff(st: P.Store, start: Bytes, end: Bytes, ts: nat, out: seq<Pair<Bytes>>)
    requires ts <= MAX_TS && IsWalk(st, start, end, ts, 0, out)
    ensures IsScan(st, start, end, ts, 0, out) <==> Faithful(st, start, end, ts)
  {
    if Faithful(st, start, end, ts) {
      WalkIsScan(st, start, end, ts, 0, out);
    } else if IsScan(st, start, end, ts, 0, out) {
      ScanIsFaithful(st, start, end, ts, out);
    }
  }

  lemma ScanIsFaithful(st: P.Store, start: Bytes, end: Bytes, ts: nat, out: seq<Pair<Bytes>>)
    requires ts <= MAX_TS && IsWalk(st, start, end, ts, 0, out) && IsScan(st, start, end, ts, 0, out)
    ensures Faithful(st, start, end, ts)
  {
    forall u: Bytes | Due(st, start, end, ts, u) ensures InRange(start, end, u) {
      assert Pair(u, Taken(st, u, ts).value) in out;
    }
    forall u: Bytes | InRange(start, end, u) && Visible(st, u, ts).Some?
      ensures Met(st, start, end, u) && Taken(st, u, ts) == Visible(st, u, ts)
    {
      assert Shown(st, u, ts, out);
    }
    forall u: Bytes, w: Bytes | Due(st, start, end, ts, u) && Due(st, start, end, ts, w) && Earlier(st, start, u, w)
      ensures Lt(u, w)
    {
      var p, q := Pair(u, Taken(st, u, ts).value), Pair(w, Taken(st, w, ts).value);
      assert p in out && q in out;
      InKeyOrder(st, start, out, p, q);
    }
  }

  lemma InKeyOrder<T>(st: P.Store, start: Bytes, out: seq<Pair<T>>, p: Pair<T>, q: Pair<T>)
    requires InWalkOrder(st, start, out) && Ordered(out) && p in out && q in out && Earlier(st, start, p.key, q.key)
    ensures Lt(p.key, q.key)
  {
    var i: nat :| i < |out| && out[i] == p;
    var j: nat :| j < |out| && out[j] == q;
    EarlierAsym(st, start, p.key, q.key);
    assert j < i ==> Earlier(st, start, q.key, p.key);
  }

  // ---- keys told apart whatever the timestamps -----------------------------------------------------------

  /** Committed keys are told apart in byte order, and none begins the scan's start. */
  ghost predicate Scannable(st: P.Store, start: Bytes) {
    && (forall u: Bytes, c: nat | (u, c) in st.writes :: Separable(st, u) && !(u < start))
  }

  /** The walk begins at the start of the range: a committed key met from there on is in or after it. */
  lemma FromStart(start: Bytes, u: Bytes, t: nat)
    requires t <= MAX_TS && !(u < start) && Le(start, DataKey(u, t))
    ensures Le(start, u)
  {
    if start <= u {
      PrefixLe(start, u[|start|..]);
      assert start + u[|start|..] == u;
    } else {
      LtTotal(u, start);
      if Lt(u, start) {
        assert Apart(u, start);
        ApartOrder(u, start, EncodeTs(t), []);
        assert start + [] == start;
        NotLt(DataKey(u, t), start);
      }
    }
  }

  lemma VersionsFollow(u: Bytes, c: nat, w: Bytes, d: nat)
    requires c <= MAX_TS && d <= MAX_TS && Distinguishable(u, w) && u != w
    ensures Lt(DataKey(u, c), DataKey(w, d)) <==> Lt(u, w)
  {
    EmbedsIff(u, w);
    assert Agrees(u, w, c, d);
  }

  lemma SeparableTakes(st: P.Store, u: Bytes, ts: nat)
    requires ts <= MAX_TS && (P.Newest(st.writes, u, ts).Some? ==> Separable(st, u))
    ensures Taken(st, u, ts) == Visible(st, u, ts)
  {
    if P.Newest(st.writes, u, ts).Some? { SeparableReaches(st, u, ts, P.Newest(st.writes, u, ts).value); }
  }

  lemma MetInRange(st: P.Store, start: Bytes, end: Bytes, u: Bytes)
    requires Scannable(st, start) && Met(st, start, end, u)
    ensures InRange(start, end, u)
  {
    var c: nat :| MetAt(st, start, end, u, c);
    FromStart(start, u, c);
    LtIrreflexive(DataKey(u, c));
    assert !Stops(st, start, end, u, c);
    NotLt(u, end);
  }

  lemma InRangeMet(st: P.Store, start: Bytes, end: Bytes, u: Bytes, c: nat)
    requires Scannable(st, start) && InRange(start, end, u) && c <= MAX_TS && (u, c) in st.writes
    ensures Met(st, start, end, u)
  {
    PrefixLe(u, EncodeTs(c));
    LeTrans(start, u, DataKey(u, c));
    forall w: Bytes, d: nat | Stops(st, start, end, w, d) ensures Lt(DataKey(u, c), DataKey(w, d)) {
      LeLtTrans(u, end, w);
      LtIrreflexive(u);
      VersionsFollow(u, c, w, d);
    }
    assert MetAt(st, start, end, u, c);
  }

  /** Then every scan is the one asked for. */
  lemma ScannableIsFaithful(m: Flat, st: P.Store, start: Bytes, end: Bytes, ts: nat)
    requires ts <= MAX_TS && Stores(m, st) && Scannable(st, start)
    ensures Faithful(st, start, end, ts)
  {
    forall u: Bytes | Due(st, start, end, ts, u) ensures InRange(start, end, u) { MetInRange(st, start, end, u); }
    forall u: Bytes | InRange(start, end, u) && Visible(st, u, ts).Some?
      ensures Met(st, start, end, u) && Taken(st, u, ts) == Visible(st, u, ts)
    {
      InRangeMet(st, start, end, u, P.Newest(st.writes, u, ts).value);
      SeparableTakes(st, u, ts);
    }
    forall u: Bytes, w: Bytes | Met(st, start, end, w) && Earlier(st, start, u, w) ensures Lt(u, w) {
      var c: nat, d: nat :| EarlierAt(st, start, u, c, w) && MetAt(st, start, end, w, d);
      EarlierAsym(st, start, u, w);
      VersionsFollow(u, c, w, d);
    }
  }

  // ---- plain keys --------------------------------------------------------------------------------------------

  ghost predicate Committed(st: P.Store, u: Bytes) { exists c: nat :: (u, c) in st.writes }

  /** A walk from `start` comes upon `u`: it is at or after the start, or begins it. */
  predicate AtOrAfter(start: Bytes, u: Bytes) { Le(start, u) || u < start }

  lemma PlainStart(start: Bytes, u: Bytes, c: nat, b: Byte)
    requires Plain(start, b) && Timely(c, b)
    ensures Le(start, DataKey(u, c)) <==> AtOrAfter(start, u)
  {
    if Le(start, u) {
      PrefixLe(u, EncodeTs(c));
      LeTrans(start, u, DataKey(u, c));
    } else if u < start {
      var x := start[|u|..];
      assert start == u + x && x[0] == start[|u|];
      LtPrefix(u, x, EncodeTs(c));
    } else if Le(start, DataKey(u, c)) {
      FromStart(start, u, c);
    }
  }

  /** A committed key that ends the walk. */
  ghost predicate Stopper(st: P.Store, start: Bytes, end: Bytes, w: Bytes) {
    end != [] && Committed(st, w) && AtOrAfter(start, w) && Le(end, w)
  }

  lemma StopperStops(st: P.Store, start: Bytes, end: Bytes, w: Bytes, d: nat, b: Byte)
    requires PlainStore(st, b) && Plain(start, b) && (w, d) in st.writes
    ensures d <= MAX_TS && (Stops(st, start, end, w, d) <==> Stopper(st, start, end, w))
  {
    PlainStart(start, w, d, b);
  }

  lemma PlainMet(st: P.Store, start: Bytes, end: Bytes, u: Bytes, b: Byte)
    requires PlainStore(st, b) && Plain(start, b)
    ensures Met(st, start, end, u) <==>
      Committed(st, u) && AtOrAfter(start, u) && forall w: Bytes | Stopper(st, start, end, w) :: Before(u, w)
  {
    if Met(st, start, end, u) {
      var c: nat :| MetAt(st, start, end, u, c);
      PlainStart(start, u, c, b);
      forall w: Bytes | Stopper(st, start, end, w) ensures Before(u, w) {
        var d: nat :| (w, d) in st.writes && (w == u ==> d == c);
        StopperStops(st, start, end, w, d, b);
        PlainBefore(u, c, w, d, b);
      }
    } else if Committed(st, u) && AtOrAfter(start, u) && forall w: Bytes | Stopper(st, start, end, w) :: Before(u, w) {
      var c: nat :| (u, c) in st.writes;
      PlainStart(start, u, c, b);
      forall w: Bytes, d: nat | Stops(st, start, end, w, d) ensures Lt(DataKey(u, c), DataKey(w, d)) {
        StopperStops(st, start, end, w, d, b);
        BeforeAsym(u, w);
        PlainOrder(u, c, w, d, b);
      }
      assert MetAt(st, start, end, u, c);
    }
  }

  lemma PlainBefore(u: Bytes, c: nat, w: Bytes, d: nat, b: Byte)
    requires Plain(u, b) && Plain(w, b) && Timely(c, b) && Timely(d, b) && Lt(DataKey(u, c), DataKey(w, d))
    requires u == w ==> c == d
    ensures Before(u, w)
  {
    if u == w { LtIrreflexive(DataKey(u, c)); } else { PlainOrder(u, c, w, d, b); }
  }

  lemma PlainEarlier(st: P.Store, start: Bytes, u: Bytes, w: Bytes, b: Byte)
    requires PlainStore(st, b) && Plain(start, b) && Committed(st, u) && Committed(st, w) && AtOrAfter(start, u) && AtOrAfter(start, w)
    ensures Earlier(st, start, u, w) <==> Before(u, w)
  {
    if Earlier(st, start, u, w) {
      var c: nat :| EarlierAt(st, start, u, c, w);
      var d: nat :| (w, d) in st.writes && (w == u ==> d == c);
      PlainStart(start, w, d, b);
      PlainBefore(u, c, w, d, b);
    } else if Before(u, w) {
      var c: nat :| (u, c) in st.writes;
      PlainStart(start, u, c, b);
      BeforeAsym(u, w);
      forall d: nat | d <= MAX_TS && (w, d) in st.writes ensures Lt(DataKey(u, c), DataKey(w, d)) { PlainOrder(u, c, w, d, b); }
      assert EarlierAt(st, start, u, c, w);
    }
  }

  /** Visible in the range. */
  ghost predicate Wanted(st: P.Store, start: Bytes, end: Bytes, ts: nat, u: Bytes) {
    InRange(start, end, u) && Visible(st, u, ts).Some?
  }

  /** No visible key of the range is overtaken, begins another, or begins a committed key past the end; and a visible key
      that begins the start of the range is overtaken, or cut off by a committed key past the end that it begins, or is,
      itself. */
  ghost predicate WellSpread(st: P.Store, start: Bytes, end: Bytes, ts: nat)
    requires ts <= MAX_TS
  {
    && (forall u: Bytes {:trigger Wanted(st, start, end, ts, u)} | Wanted(st, start, end, ts, u) :: !Overtaken(st, u, ts))
    && (forall u: Bytes, w: Bytes {:trigger Wanted(st, start, end, ts, u), Wanted(st, start, end, ts, w)} |
          Wanted(st, start, end, ts, u) && Wanted(st, start, end, ts, w) :: !(u < w))
    && (forall u: Bytes, w: Bytes {:trigger Wanted(st, start, end, ts, u), Stopper(st, start, end, w)} |
          Wanted(st, start, end, ts, u) && Stopper(st, start, end, w) :: !(u < w))
    && (forall u: Bytes | Visible(st, u, ts).Some? && u < start && !Overtaken(st, u, ts) :: CutOff(st, start, end, u))
  }

  ghost predicate CutOff(st: P.Store, start: Bytes, end: Bytes, u: Bytes) {
    exists w: Bytes :: Stopper(st, start, end, w) && u <= w
  }

  lemma VisibleCommitted(st: P.Store, u: Bytes, ts: nat)
    requires Visible(st, u, ts).Some?
    ensures Committed(st, u)
  {
    assert (u, P.Newest(st.writes, u, ts).value) in st.writes;
  }

  lemma PrefixLt(u: Bytes, w: Bytes)
    requires u < w
    ensures Lt(u, w)
  {
    assert w == u + w[|u|..];
    PrefixLe(u, w[|u|..]);
  }

  lemma PlainTaken(st: P.Store, u: Bytes, ts: nat, b: Byte)
    requires PlainStore(st, b) && ts <= MAX_TS
    ensures Taken(st, u, ts) == if Overtaken(st, u, ts) then None else Visible(st, u, ts)
  {
    PlainReads(st, u, ts, b);
  }

  /** A key of the range and a key past its end are walked in order unless the first begins the second. */
  lemma StopperAfter(st: P.Store, start: Bytes, end: Bytes, u: Bytes, w: Bytes)
    requires InRange(start, end, u) && Stopper(st, start, end, w)
    ensures Before(u, w) <==> !(u < w)
  {
    LeLtTrans(u, end, w);
    LtAsym(u, w);
    if w < u { PrefixLt(w, u); }
  }

  lemma RangeMet(st: P.Store, start: Bytes, end: Bytes, u: Bytes, b: Byte)
    requires PlainStore(st, b) && Plain(start, b) && Committed(st, u) && InRange(start, end, u)
    ensures Met(st, start, end, u) <==> forall w: Bytes | Stopper(st, start, end, w) :: !(u < w)
  {
    PlainMet(st, start, end, u, b);
    forall w: Bytes | Stopper(st, start, end, w) ensures Before(u, w) <==> !(u < w) { StopperAfter(st, start, end, u, w); }
  }

  /** A key that begins the start is met unless a key past the end cuts it off. */
  lemma BeginsMet(st: P.Store, start: Bytes, end: Bytes, u: Bytes, b: Byte)
    requires PlainStore(st, b) && Plain(start, b) && Committed(st, u) && u < start
    ensures Met(st, start, end, u) <==> !CutOff(st, start, end, u)
  {
    PlainMet(st, start, end, u, b);
    forall w: Bytes | Stopper(st, start, end, w) ensures Before(u, w) <==> !(u <= w) { BeginsBefore(start, u, w); }
  }

  lemma BeginsBefore(start: Bytes, u: Bytes, w: Bytes)
    requires u < start && AtOrAfter(start, w)
    ensures Before(u, w) <==> !(u <= w)
  {
    PrefixLt(u, start);
    if Le(start, w) { LeLtTrans(u, start, w); }
    if Apart(u, w) { LtTotal(u, w); }
    assert w < start ==> !Apart(u, w);
  }

  lemma MetNotPast(st: P.Store, start: Bytes, end: Bytes, u: Bytes, b: Byte)
    requires PlainStore(st, b) && Plain(start, b) && Met(st, start, end, u)
    ensures AtOrAfter(start, u) && (end == [] || Lt(u, end)) && Committed(st, u)
  {
    PlainMet(st, start, end, u, b);
    NotLt(u, end);
    assert !Before(u, u);
    assert !Stopper(st, start, end, u);
  }

  lemma SpreadIsFaithful(st: P.Store, start: Bytes, end: Bytes, ts: nat, b: Byte)
    requires PlainStore(st, b) && Plain(start, b) && ts <= MAX_TS && WellSpread(st, start, end, ts)
    ensures Faithful(st, start, end, ts)
  {
    forall u: Bytes | Due(st, start, end, ts, u) ensures InRange(start, end, u) && Wanted(st, start, end, ts, u) {
      PlainTaken(st, u, ts, b);
      MetNotPast(st, start, end, u, b);
      if u < start { BeginsMet(st, start, end, u, b); }
    }
    forall u: Bytes | Wanted(st, start, end, ts, u) ensures Met(st, start, end, u) && Taken(st, u, ts) == Visible(st, u, ts) {
      VisibleCommitted(st, u, ts);
      RangeMet(st, start, end, u, b);
      PlainTaken(st, u, ts, b);
    }
    forall u: Bytes, w: Bytes | Due(st, start, end, ts, u) && Due(st, start, end, ts, w) && Earlier(st, start, u, w)
      ensures Lt(u, w)
    {
      MetNotPast(st, start, end, u, b);
      MetNotPast(st, start, end, w, b);
      PlainEarlier(st, start, u, w, b);
      assert Wanted(st, start, end, ts, u) && Wanted(st, start, end, ts, w);
    }
  }

  lemma FaithfulIsSpread(st: P.Store, start: Bytes, end: Bytes, ts: nat, b: Byte)
    requires PlainStore(st, b) && Plain(start, b) && ts <= MAX_TS && Faithful(st, start, end, ts)
    ensures WellSpread(st, start, end, ts)
  {
    forall u: Bytes | Wanted(st, start, end, ts, u)
      ensures Due(st, start, end, ts, u) && !Overtaken(st, u, ts) && forall w: Bytes | Stopper(st, start, end, w) :: !(u < w)
    {
      VisibleCommitted(st, u, ts);
      RangeMet(st, start, end, u, b);
      PlainTaken(st, u, ts, b);
    }
    forall u: Bytes, w: Bytes | Wanted(st, start, end, ts, u) && Wanted(st, start, end, ts, w) ensures !(u < w) {
      if u < w {
        VisibleCommitted(st, u, ts);
        VisibleCommitted(st, w, ts);
        PlainEarlier(st, start, w, u, b);
        PrefixLt(u, w);
        LtAsym(u, w);
      }
    }
    forall u: Bytes | Visible(st, u, ts).Some? && u < start && !Overtaken(st, u, ts) ensures CutOff(st, start, end, u) {
      PrefixLt(u, start);
      NotLt(u, start);
      LtAsym(u, start);
      PlainTaken(st, u, ts, b);
      assert !Due(st, start, end, ts, u);
      VisibleCommitted(st, u, ts);
      BeginsMet(st, start, end, u, b);
    }
  }

  /** In a store of plain keys an unlimited scan, at every timestamp, is the one asked for if and only if the keys are well
      spread. */
  lemma PlainScanIff(st: P.Store, start: Bytes, end: Bytes, ts: nat, out: seq<Pair<Bytes>>, b: Byte)
    requires PlainStore(st, b) && Plain(start, b) && ts <= MAX_TS && IsWalk(st, start, end, ts, 0, out)
    ensures IsScan(st, start, end, ts, 0, out) <==> WellSpread(st, start, end, ts)
  {
    ScanIff(st, start, end, ts, out);
    if WellSpread(st, start, end, ts) { SpreadIsFaithful(st, start, end, ts, b); }
    if Faithful(st, start, end, ts) { FaithfulIsSpread(st, start, end, ts, b); }
  }

  /** At a timestamp in use nothing is overtaken: what counts is which keys begin which. */
  lemma TimelyScanIff(st: P.Store, start: Bytes, end: Bytes, ts: nat, out: seq<Pair<Bytes>>, b: Byte)
    requires PlainStore(st, b) && Plain(start, b) && Timely(ts, b) && IsWalk(st, start, end, ts, 0, out)
    ensures IsScan(st, start, end, ts, 0, out) <==>
      && (forall u: Bytes, w: Bytes | Wanted(st, start, end, ts, u) && Wanted(st, start, end, ts, w) :: !(u < w))
      && (forall u: Bytes, w: Bytes | Wanted(st, start, end, ts, u) && Stopper(st, start, end, w) :: !(u < w))
      && (forall u: Bytes | Visible(st, u, ts).Some? && u < start :: CutOff(st, start, end, u))
  {
    PlainScanIff(st, start, end, ts, out, b);
    forall u: Bytes ensures !Overtaken(st, u, ts) { NotOvertaken(st, u, ts, b); }
  }

  /** At the newest timestamp there can be, at which the server scans: no visible key of the range begins any committed key,
      and a visible key that begins the start begins a longer committed key, or is cut off. */
  lemma TopScanIff(st: P.Store, start: Bytes, end: Bytes, out: seq<Pair<Bytes>>, b: Byte)
    requires PlainStore(st, b) && Plain(start, b) && IsWalk(st, start, end, MAX_TS, 0, out)
    ensures IsScan(st, start, end, MAX_TS, 0, out) <==>
      && (forall u: Bytes | Wanted(st, start, end, MAX_TS, u) :: !Extended(st, u))
      && (forall u: Bytes | Visible(st, u, MAX_TS).Some? && u < start && !Extended(st, u) :: CutOff(st, start, end, u))
  {
    PlainScanIff(st, start, end, MAX_TS, out, b);
    forall u: Bytes ensures Overtaken(st, u, MAX_TS) <==> Extended(st, u) { OvertakenAtTop(st, u, b); }
    forall u: Bytes, w: Bytes | u < w && (Wanted(st, start, end, MAX_TS, w) || Stopper(st, start, end, w)) ensures Extended(st, u) {
      if Wanted(st, start, end, MAX_TS, w) { VisibleCommitted(st, w, MAX_TS); }
      var t: nat :| (w, t) in st.writes;
    }
  }

  // ---- the keys "a" and "ab" ------------------------------------------------------------------------------------

  lemma ShowsA(st: P.Store, ts: nat)
    requires st.writes == MvccWrites.TWO.writes && st.locks == map[] && (A, 4) in st.data && st.data[(A, 4)] == Some([1]) && ts >= 5
    ensures Visible(st, A, ts) == Some([1]) && P.Lookup(st, A, ts) == Some([1])
  {
    assert (A, 5) in st.writes;
    assert P.Newest(st.writes, A, ts) == Some(5);
  }

  /** Scanning up to "ab" meets "ab" first and stops: "a", in the range and visible, is not returned. */
  lemma ScanMisses(out: seq<Pair<Bytes>>)
    requires IsWalk(MvccWrites.TWO, [], MvccWrites.AB, 9, 0, out)
    ensures InRange([], MvccWrites.AB, A) && Visible(MvccWrites.TWO, A, 9) == Some([1])
    ensures Pair(A, [1]) !in out && !IsScan(MvccWrites.TWO, [], MvccWrites.AB, 9, 0, out)
  {
    ShowsA(MvccWrites.TWO, 9);
    MvccWrites.TwoIsPlain();
    PrefixLt(A, MvccWrites.AB);
    PrefixLt([], A);
    assert (MvccWrites.AB, 2) in MvccWrites.TWO.writes;
    assert Stopper(MvccWrites.TWO, [], MvccWrites.AB, MvccWrites.AB);
    assert Wanted(MvccWrites.TWO, [], MvccWrites.AB, 9, A);
    VisibleCommitted(MvccWrites.TWO, A, 9);
    RangeMet(MvccWrites.TWO, [], MvccWrites.AB, A, 0xff);
    PlainScanIff(MvccWrites.TWO, [], MvccWrites.AB, 9, out, 0xff);
  }

  /** Scanning from "ab" returns "a", which is before it. */
  lemma ScanStrays(out: seq<Pair<Bytes>>)
    requires IsWalk(MvccWrites.TWO, MvccWrites.AB, [], 9, 0, out)
    ensures !InRange(MvccWrites.AB, [], A) && Pair(A, [1]) in out
  {
    ShowsA(MvccWrites.TWO, 9);
    MvccWrites.TwoIsPlain();
    TimelyIff(9, 0xff);
    NotOvertaken(MvccWrites.TWO, A, 9, 0xff);
    PrefixLt(A, MvccWrites.AB);
    LtAsym(A, MvccWrites.AB);
    VisibleCommitted(MvccWrites.TWO, A, 9);
    BeginsMet(MvccWrites.TWO, MvccWrites.AB, [], A, 0xff);
    PlainTaken(MvccWrites.TWO, A, 9, 0xff);
    assert Due(MvccWrites.TWO, MvccWrites.AB, [], 9, A);
  }

  /** "a" put and "ab" deleted. */
  const HALF: P.Store := P.Store(map[(A, 4) := Some([1]), (MvccWrites.AB, 1) := None], MvccWrites.TWO.writes, map[])

  /** Two transactions leave that store. */
  lemma HalfBuilt() returns (m: Flat)
    ensures Stores(m, HALF)
  {
    var none := P.Store(map[], map[], map[]);
    assert Stores(map[], none);
    var half := MvccWrites.Ran(map[], none, MvccWrites.AB, None, 1, 2);
    m := HalfAgain(half, P.Store(none.data[(MvccWrites.AB, 1) := None], none.writes[(MvccWrites.AB, 2) := 1], none.locks));
  }

  lemma HalfAgain(half: Flat, st: P.Store) returns (m: Flat)
    requires Stores(half, st) && st == P.Store(map[(MvccWrites.AB, 1) := None], map[(MvccWrites.AB, 2) := 1], map[])
    ensures Stores(m, HALF)
  {
    m := MvccWrites.Ran(half, st, A, Some([1]), 4, 5);
    assert P.Store(st.data[(A, 4) := Some([1])], st.writes[(A, 5) := 4], st.locks) == HALF;
  }

  /** At the newest timestamp a read, and so a scan of everything, misses "a" on account of the deleted "ab". */
  lemma TopMisses(out: seq<Pair<Bytes>>)
    requires IsWalk(HALF, [], [], MAX_TS, 0, out)
    ensures P.Lookup(HALF, A, MAX_TS) == Some([1]) && Read(HALF, A, MAX_TS) == None
    ensures Pair(A, [1]) !in out && !IsScan(HALF, [], [], MAX_TS, 0, out)
  {
    MvccWrites.TwoIsPlain();
    ShowsA(HALF, MAX_TS);
    PrefixLt([], A);
    assert (MvccWrites.AB, 2) in HALF.writes && A < MvccWrites.AB;
    assert Extended(HALF, A);
    TopReads(HALF, A, 0xff);
    assert Wanted(HALF, [], [], MAX_TS, A);
    TopScanIff(HALF, [], [], out, 0xff);
  }
}
