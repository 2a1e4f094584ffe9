/** Stores whose user keys stay below some byte that no timestamp in use gets under: keys of bytes below `b`, commits whose
    encoded timestamp begins with `b` or more. ASCII keys under wall-clock stamps are such stores, and so are keys without
    0xff bytes under a counter below 2^56. There a key's versions come after those of every longer key it begins, which
    decides, for every timestamp, whether a seek finds its way. */
module PlainKeys {
  import opened Basics
  import opened ByteOrder
  import opened Codec
  import opened DataKeys
  import opened Mvcc
  import P = Percolator

  predicate Plain(k: Bytes, b: Byte) { forall i: nat | i < |k| :: k[i] < b }

  /** The encoded timestamp begins with `b` or more. */
  predicate Timely(c: nat, b: Byte) { c <= MAX_TS && EncodeTs(c)[0] >= b }

  ghost predicate PlainStore(st: P.Store, b: Byte) {
    forall u: Bytes, c: nat | (u, c) in st.writes :: Plain(u, b) && Timely(c, b)
  }

  // ---- which timestamps are timely -------------------------------------------------------------------

  const UNIT: nat := 0x100_0000_0000_0000

  lemma Digits(v: nat, b: nat, p: nat)
    ensures v / 256 >= b * p <==> v >= b * (256 * p)
  {
    assert b * (256 * p) == 256 * (b * p);
  }

  lemma {:induction false} FirstByte(v: nat, w: nat, b: nat)
    requires w >= 1 && v < Pow256(w)
    ensures Be(v, w)[0] as nat >= b <==> v >= b * Pow256(w - 1)
  {
    if w > 1 {
      FirstByte(v / 256, w - 1, b);
      Digits(v, b, Pow256(w - 2));
    }
  }

  lemma Powers()
    ensures Pow256(8) == MAX_TS + 1 && Pow256(7) == UNIT
  {
    Widths();
    assert Pow256(8) == 256 * Pow256(7);
  }

  /** In numbers: below `0x100 - b` times 2^56. */
  lemma TimelyIff(c: nat, b: Byte)
    ensures Timely(c, b) <==> c < (0x100 - b as nat) * UNIT
  {
    if c <= MAX_TS {
      Powers();
      FirstByte(MAX_TS - c, TS_LEN, b as nat);
    }
  }

  // ---- the order of versions ----------------------------------------------------------------------

  /** Whatever its timestamp, a version of a longer key precedes a version of the key that begins it. */
  lemma ExtensionFirst(u: Bytes, x: Bytes, s: nat, t: nat, b: Byte)
    requires x != [] && x[0] < b && Timely(s, b) && t <= MAX_TS
    ensures Lt(DataKey(u + x, t), DataKey(u, s))
  {
    Assoc(u, x, EncodeTs(t));
    LtPrefix(u, x + EncodeTs(t), EncodeTs(s));
  }

  /** `u` is walked before `w`: it is longer and `w` begins it, or it is smaller. */
  predicate Before(u: Bytes, w: Bytes) { w < u || (Apart(u, w) && Lt(u, w)) }

  lemma BeforeAsym(u: Bytes, w: Bytes)
    requires Before(u, w)
    ensures !Before(w, u) && u != w
  {
    if Lt(u, w) && Lt(w, u) { LtAsym(u, w); }
  }

  lemma LongerFirst(u: Bytes, w: Bytes, s: nat, t: nat, b: Byte)
    requires w < u && Plain(u, b) && Timely(t, b) && s <= MAX_TS
    ensures Lt(DataKey(u, s), DataKey(w, t))
  {
    var x := u[|w|..];
    assert u == w + x && x[0] == u[|w|];
    ExtensionFirst(w, x, t, s, b);
  }

  lemma PlainOrder(u: Bytes, s: nat, w: Bytes, t: nat, b: Byte)
    requires Plain(u, b) && Plain(w, b) && Timely(s, b) && Timely(t, b) && u != w
    ensures Lt(DataKey(u, s), DataKey(w, t)) <==> Before(u, w)
  {
    if w < u {
      LongerFirst(u, w, s, t, b);
    } else if u < w {
      LongerFirst(w, u, t, s, b);
      LtAsym(DataKey(w, t), DataKey(u, s));
    } else {
      ApartOrder(u, w, EncodeTs(s), EncodeTs(t));
    }
  }

  // ---- which seeks find their way ---------------------------------------------------------------------

  /** A longer committed key that `key` begins has a version at or after where a seek for `key` at `ts` starts. */
  predicate Overtakes(key: Bytes, ts: nat, w: Bytes, t: nat)
    requires ts <= MAX_TS && t <= MAX_TS
  {
    key < w && Le(EncodeTs(ts), w[|key|..] + EncodeTs(t))
  }

  ghost predicate Overtaken(st: P.Store, key: Bytes, ts: nat)
    requires ts <= MAX_TS
  {
    exists w: Bytes, t: nat | t <= MAX_TS :: (w, t) in st.writes && Overtakes(key, ts, w, t)
  }

  lemma OvertakesIff(key: Bytes, ts: nat, w: Bytes, t: nat)
    requires ts <= MAX_TS && t <= MAX_TS && key < w
    ensures Overtakes(key, ts, w, t) <==> Le(DataKey(key, ts), DataKey(w, t))
  {
    var x := w[|key|..];
    assert w == key + x;
    Assoc(key, x, EncodeTs(t));
    LtPrefix(key, EncodeTs(ts), x + EncodeTs(t));
    assert |EncodeTs(ts)| < |x + EncodeTs(t)|;
    assert |DataKey(key, ts)| < |DataKey(w, t)|;
  }

  /** What lies in the way of a seek, at any timestamp, is a longer key. */
  lemma InTheWayIff(key: Bytes, ts: nat, c: nat, u: Bytes, t: nat, b: Byte)
    requires ts <= MAX_TS && Plain(key, b) && Plain(u, b) && Timely(c, b) && Timely(t, b)
    ensures InTheWay(key, ts, c, u, t) <==> Overtakes(key, ts, u, t)
  {
    if key < u {
      OvertakesIff(key, ts, u, t);
      LongerFirst(u, key, t, c, b);
    } else if u != key {
      NotFromHere(key, ts, c, u, t, b);
    }
  }

  lemma NotFromHere(key: Bytes, ts: nat, c: nat, u: Bytes, t: nat, b: Byte)
    requires ts <= MAX_TS && Plain(key, b) && Plain(u, b) && Timely(c, b) && Timely(t, b) && u != key && !(key < u)
    ensures !InTheWay(key, ts, c, u, t)
  {
    PlainOrder(u, t, key, c, b);
    if Apart(u, key) {
      ApartOrder(u, key, EncodeTs(t), EncodeTs(ts));
      NotLt(DataKey(u, t), DataKey(key, ts));
    } else {
      BeforeAsym(key, u);
    }
  }

  /** At every timestamp, a commit of a key is reached exactly when no longer committed key overtakes it. */
  lemma PlainReach(st: P.Store, key: Bytes, ts: nat, c: nat, b: Byte)
    requires PlainStore(st, b) && (key, c) in st.writes && ts <= MAX_TS
    ensures c <= MAX_TS && (Reaches(st, key, ts, c) <==> !Overtaken(st, key, ts))
  {
    if Overtaken(st, key, ts) {
      var w: Bytes, t: nat :| t <= MAX_TS && (w, t) in st.writes && Overtakes(key, ts, w, t);
      InTheWayIff(key, ts, c, w, t, b);
    } else {
      forall u: Bytes, t: nat | (u, t) in st.writes && t <= MAX_TS ensures !InTheWay(key, ts, c, u, t) {
        InTheWayIff(key, ts, c, u, t, b);
      }
    }
  }

  /** A read, at every timestamp: the snapshot, unless a longer committed key overtakes. */
  lemma PlainReads(st: P.Store, key: Bytes, ts: nat, b: Byte)
    requires PlainStore(st, b) && ts <= MAX_TS
    ensures Read(st, key, ts) == if Overtaken(st, key, ts) then None else P.Lookup(st, key, ts)
  {
    if P.Newest(st.writes, key, ts).Some? { PlainReach(st, key, ts, P.Newest(st.writes, key, ts).value, b); }
  }

  /** At a timestamp in use nothing overtakes, so every read is the snapshot. */
  lemma NotOvertaken(st: P.Store, key: Bytes, ts: nat, b: Byte)
    requires PlainStore(st, b) && Timely(ts, b)
    ensures !Overtaken(st, key, ts)
  {
    forall w: Bytes, t: nat | t <= MAX_TS && (w, t) in st.writes ensures !Overtakes(key, ts, w, t) {
      if key < w {
        OvertakesIff(key, ts, w, t);
        LongerFirst(w, key, t, ts, b);
        NotLt(DataKey(w, t), DataKey(key, ts));
      }
    }
  }

  lemma TimelyReads(st: P.Store, key: Bytes, ts: nat, b: Byte)
    requires PlainStore(st, b) && Timely(ts, b)
    ensures Read(st, key, ts) == P.Lookup(st, key, ts)
  {
    NotOvertaken(st, key, ts, b);
    PlainReads(st, key, ts, b);
  }

  lemma {:induction false} ZerosLeast(z: Bytes, b: Bytes)
    requires |z| < |b| && forall i: nat | i < |z| :: z[i] == 0
    ensures Lt(z, b)
  {
    if z != [] { ZerosLeast(z[1..], b[1..]); }
  }

  /** A committed key begins a longer committed one. */
  ghost predicate Extended(st: P.Store, key: Bytes) {
    exists w: Bytes, t: nat :: (w, t) in st.writes && key < w
  }

  /** From the newest timestamp there can be, every longer key overtakes. */
  lemma OvertakenAtTop(st: P.Store, key: Bytes, b: Byte)
    requires PlainStore(st, b)
    ensures Overtaken(st, key, MAX_TS) <==> Extended(st, key)
  {
    if Extended(st, key) {
      var w: Bytes, t: nat :| (w, t) in st.writes && key < w;
      Extremes();
      ZerosLeast(ZEROS, w[|key|..] + EncodeTs(t));
      assert Overtakes(key, MAX_TS, w, t);
    }
  }

  /** So a read at that timestamp finds nothing of a key that begins a longer committed one. */
  lemma TopReads(st: P.Store, key: Bytes, b: Byte)
    requires PlainStore(st, b)
    ensures Read(st, key, MAX_TS) == if Extended(st, key) then None else P.Lookup(st, key, MAX_TS)
  {
    OvertakenAtTop(st, key, b);
    PlainReads(st, key, MAX_TS, b);
  }

  /** And a commit of a key is reached from there exactly when no committed key is longer and begins with it. */
  lemma PlainTop(st: P.Store, key: Bytes, c: nat, b: Byte)
    requires PlainStore(st, b) && (key, c) in st.writes
    ensures c <= MAX_TS && (Reaches(st, key, MAX_TS, c) <==> !Extended(st, key))
  {
    OvertakenAtTop(st, key, b);
    PlainReach(st, key, MAX_TS, c, b);
  }

  // ---- with 0xff bytes even a read can fail ------------------------------------------------------------------

  const SIX: Bytes := [0xff, 0xff, 0xff, 0xff, 0xff, 0xff]

  lemma SmallTs(h: nat, l: nat)
    requires h < 256 && l < 256
    ensures EncodeTs(256 * h + l) == SIX + [(255 - h) as Byte, (255 - l) as Byte]
  {
    var a, b := (255 - h) as Byte, (255 - l) as Byte;
    Powers();
    FullValue(SIX);
    assert Pow256(8) == 256 * Pow256(7) && Pow256(7) == 256 * Pow256(6);
    assert (SIX + [a])[..6] == SIX && (SIX + [a, b])[..7] == SIX + [a];
    FromBeRoundTrip(SIX + [a, b]);
  }

  const A: Bytes := [97]
  const AFF: Bytes := [97, 0xff]

  /** Reading "a" at 1000, the version of "a" 0xff committed at 768 hides the commit of "a" at 1. */
  lemma ReadBlocked()
    ensures InTheWay(A, 1000, 1, AFF, 768)
  {
    SmallTs(3, 232);
    SmallTs(0, 1);
    SmallTs(3, 0);
    var p := A + SIX;
    assert DataKey(A, 1000) == p + [252, 23];
    assert DataKey(AFF, 768) == p + [255, 252, 255];
    assert DataKey(A, 1) == p + [255, 254];
    LtPrefix(p, [252, 23], [255, 252, 255]);
    LtPrefix(p, [255, 252, 255], [255, 254]);
    assert [255, 252, 255][1..] == [252, 255] && [255, 254][1..] == [254];
  }

  /** So a store with those two commits answers that read with nothing. */
  lemma ReadMisses(st: P.Store)
    requires (AFF, 768) in st.writes && P.Newest(st.writes, A, 1000) == Some(1)
    ensures Read(st, A, 1000) == None
  {
    ReadBlocked();
  }
}
