/** Versioned keys (engine/src/encoding.rs, engine/src/keys.rs): a user key followed by its timestamp, encoded so that
    newer sorts first. When byte order is version order, and exactly when it is not. */
module DataKeys {
  import opened Basics
  import opened ByteOrder
  import opened Codec

  const TS_LEN: nat := 8

  function EncodeTs(ts: nat): (b: Bytes)
    requires ts <= MAX_TS
    ensures |b| == TS_LEN
  {
    Be(MAX_TS - ts, TS_LEN)
  }

  function DecodeTs(b: Bytes): int { MAX_TS - FromBe(b) }

  function DataKey(k: Bytes, ts: nat): Bytes
    requires ts <= MAX_TS
  {
    k + EncodeTs(ts)
  }

  function DecodeDataKey(b: Bytes): Option<(Bytes, int)> {
    if |b| < TS_LEN then None else Some((b[..|b| - TS_LEN], DecodeTs(b[|b| - TS_LEN..])))
  }

  lemma DataKeyRoundTrip(k: Bytes, ts: nat)
    requires ts <= MAX_TS
    ensures DecodeDataKey(DataKey(k, ts)) == Some((k, ts))
  {
    Widths();
    BeRoundTrip(MAX_TS - ts, TS_LEN);
    assert DataKey(k, ts)[|k|..] == EncodeTs(ts) && DataKey(k, ts)[..|k|] == k;
  }

  /** Every byte string of eight bytes or more is a data key. */
  lemma DecodeRoundTrip(b: Bytes)
    requires |b| >= TS_LEN
    ensures var (k, ts) := DecodeDataKey(b).value; 0 <= ts <= MAX_TS && DataKey(k, ts) == b
  {
    var t := b[|b| - TS_LEN..];
    Widths();
    FromBeRoundTrip(t);
    assert b == b[..|b| - TS_LEN] + t;
  }

  // ---- order ----------------------------------------------------------------------------------

  /** Newer versions of one key sort first. */
  lemma VersionsDescend(k: Bytes, s: nat, t: nat)
    requires s <= MAX_TS && t <= MAX_TS
    ensures Lt(DataKey(k, s), DataKey(k, t)) <==> s > t
  {
    LtPrefix(k, EncodeTs(s), EncodeTs(t));
    TsOrder(s, t);
  }

  lemma TsOrder(s: nat, t: nat)
    requires s <= MAX_TS && t <= MAX_TS
    ensures Lt(EncodeTs(s), EncodeTs(t)) <==> s > t
  {
    Widths();
    var a, b := EncodeTs(s), EncodeTs(t);
    assert a + [] == a && b + [] == b;
    if s > t {
      BeOrder(MAX_TS - s, MAX_TS - t, TS_LEN, [], []);
    } else if s == t {
      LtIrreflexive(a);
    } else {
      BeOrder(MAX_TS - t, MAX_TS - s, TS_LEN, [], []);
      LtAsym(b, a);
    }
  }

  /** Neither key begins the other. */
  predicate Apart(a: Bytes, b: Bytes) { !(a <= b) && !(b <= a) }

  lemma {:induction false} ApartOrder(a: Bytes, b: Bytes, x: Bytes, y: Bytes)
    requires Apart(a, b)
    ensures Lt(a + x, b + y) <==> Lt(a, b)
  {
    if a[0] == b[0] {
      assert a[1..] <= b[1..] ==> a <= b;
      assert b[1..] <= a[1..] ==> b <= a;
      ApartOrder(a[1..], b[1..], x, y);
      assert (a + x)[1..] == a[1..] + x && (b + y)[1..] == b[1..] + y;
    }
  }

  const FULL: Bytes := [0xff, 0xff, 0xff, 0xff, 0xff, 0xff, 0xff, 0xff]

  /** The order of data keys is (user key ascending, timestamp descending), for every pair of timestamps. */
  ghost predicate Embeds(a: Bytes, b: Bytes) {
    forall s: nat, t: nat | s <= MAX_TS && t <= MAX_TS :: Agrees(a, b, s, t)
  }

  ghost predicate Agrees(a: Bytes, b: Bytes, s: nat, t: nat)
    requires s <= MAX_TS && t <= MAX_TS
  {
    Lt(DataKey(a, s), DataKey(b, t)) <==> Lt(a, b) || (a == b && s > t)
  }

  /** A key that begins another is told apart only by eight 0xff bytes. */
  predicate Distinguishable(a: Bytes, b: Bytes) {
    && (a < b ==> FULL <= b[|a|..])
    && (b < a ==> FULL <= a[|b|..])
  }

  lemma {:induction false} FullIsTop(b: Bytes)
    requires |b| == TS_LEN
    ensures b != FULL ==> Lt(b, FULL)
  {
    TopAt(b, FULL);
  }

  lemma {:induction false} TopAt(b: Bytes, f: Bytes)
    requires |b| == |f| && forall i: nat | i < |f| :: f[i] == 0xff
    ensures b != f ==> Lt(b, f)
  {
    if b != [] {
      TopAt(b[1..], f[1..]);
      assert b[1..] == f[1..] && b[0] == f[0] ==> b == [b[0]] + b[1..] == f;
    }
  }

  lemma {:induction false} FullValue(b: Bytes)
    requires forall i: nat | i < |b| :: b[i] == 0xff
    ensures FromBe(b) == Pow256(|b|) - 1
  {
    if b != [] { FullValue(b[..|b| - 1]); }
  }

  lemma {:induction false} ZeroValue(b: Bytes)
    requires forall i: nat | i < |b| :: b[i] == 0
    ensures FromBe(b) == 0
  {
    if b != [] { ZeroValue(b[..|b| - 1]); }
  }

  const ZEROS: Bytes := [0, 0, 0, 0, 0, 0, 0, 0]

  /** The oldest timestamp has the largest encoding, the newest the smallest. */
  lemma Extremes()
    ensures EncodeTs(0) == FULL && EncodeTs(MAX_TS) == ZEROS
  {
    Widths();
    FullValue(FULL);
    ZeroValue(ZEROS);
    FromBeRoundTrip(FULL);
    FromBeRoundTrip(ZEROS);
  }

  // ---- exactly when it embeds ------------------------------------------------------------------

  /** `a` begins `b`, and the rest of `b` is `c`. */
  lemma PrefixEmbeds(a: Bytes, c: Bytes, s: nat, t: nat)
    requires c != [] && FULL <= c && s <= MAX_TS && t <= MAX_TS
    ensures Lt(DataKey(a, s), DataKey(a + c, t)) && Lt(a, a + c)
  {
    var rest := c[TS_LEN..] + EncodeTs(t);
    Assoc(a, c, EncodeTs(t));
    LtPrefix(a, EncodeTs(s), c + EncodeTs(t));
    assert c == FULL + c[TS_LEN..];
    Assoc(FULL, c[TS_LEN..], EncodeTs(t));
    PrefixLe(FULL, rest);
    FullIsTop(EncodeTs(s));
    LeLtTrans(EncodeTs(s), FULL, FULL + rest);
    PrefixLe(a, c);
  }

  lemma TakeEight(c: Bytes, z: Bytes)
    requires |z| == TS_LEN
    ensures |(c + z)[..TS_LEN]| == TS_LEN && (c + z)[..TS_LEN] + (c + z)[TS_LEN..] == c + z
    ensures |c| >= TS_LEN ==> (c + z)[..TS_LEN] == c[..TS_LEN]
    ensures 0 < |c| < TS_LEN ==> (c + z)[TS_LEN - 1] == z[TS_LEN - 1 - |c|]
  {
  }

  /** Unless those eight bytes follow, the oldest version of the shorter key sorts after the newest of the
      longer one. */
  lemma PrefixClashes(a: Bytes, c: Bytes)
    requires c != [] && !(FULL <= c)
    ensures !Agrees(a, a + c, 0, MAX_TS)
  {
    Extremes();
    var tail := c + ZEROS;
    TakeEight(c, ZEROS);
    var head := tail[..TS_LEN];
    assert head != FULL by {
      if |c| < TS_LEN { assert head[TS_LEN - 1] == 0; } else { assert head == c[..TS_LEN]; }
    }
    FullIsTop(head);
    ApartTail(head, FULL, tail[TS_LEN..]);
    Assoc(a, c, ZEROS);
    LtPrefix(a, tail, FULL);
    LtPrefix(a, FULL, tail);
    LtAsym(tail, FULL);
    PrefixLe(a, c);
  }

  lemma ApartTail(h: Bytes, f: Bytes, x: Bytes)
    requires |h| == |f| && Lt(h, f)
    ensures Lt(h + x, f)
  {
    LtIrreflexive(h);
    assert h != f;
    assert Apart(h, f) by { assert h <= f ==> h == f; assert f <= h ==> h == f; }
    ApartOrder(h, f, x, []);
    assert f + [] == f;
  }

  /** Byte order is version order for all timestamps exactly when the keys are distinguishable: neither begins
      the other, or eight 0xff bytes follow the shorter one. */
  lemma EmbedsIff(a: Bytes, b: Bytes)
    ensures Embeds(a, b) && Embeds(b, a) <==> Distinguishable(a, b)
  {
    if a == b {
      forall s: nat, t: nat | s <= MAX_TS && t <= MAX_TS ensures Agrees(a, b, s, t) {
        VersionsDescend(a, s, t);
        LtIrreflexive(a);
      }
    } else if a < b {
      BeginsIff(a, b);
    } else if b < a {
      BeginsIff(b, a);
    } else {
      ApartEmbeds(a, b);
      ApartEmbeds(b, a);
    }
  }

  lemma ApartEmbeds(a: Bytes, b: Bytes)
    requires Apart(a, b)
    ensures Embeds(a, b)
  {
    forall s: nat, t: nat | s <= MAX_TS && t <= MAX_TS ensures Agrees(a, b, s, t) { ApartOrder(a, b, EncodeTs(s), EncodeTs(t)); }
  }

  lemma BeginsIff(a: Bytes, b: Bytes)
    requires a < b
    ensures Embeds(a, b) && Embeds(b, a) <==> FULL <= b[|a|..]
  {
    var c := b[|a|..];
    assert b == a + c;
    if FULL <= c {
      forall s: nat, t: nat | s <= MAX_TS && t <= MAX_TS ensures Agrees(a, b, s, t) && Agrees(b, a, t, s) {
        PrefixEmbeds(a, c, s, t);
        LtAsym(DataKey(a, s), DataKey(b, t));
        LtAsym(a, b);
      }
    } else {
      PrefixClashes(a, c);
    }
  }
}
