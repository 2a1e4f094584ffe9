/** Sorted runs of storage keys, what a seek in one should find, and how levels of runs read as one map. */
module Runs {
  import opened Basics
  import opened ByteOrder
  import opened Codec

  datatype Kv = Kv(key: Bytes, value: MemValue)

  type Run = seq<Kv>
  type Flat = map<Bytes, MemValue>

  ghost predicate Ascending(es: Run) { forall i: nat, j: nat | i < j < |es| :: Lt(es[i].key, es[j].key) }

  ghost function Contents(es: Run): Flat {
    if es == [] then map[] else Contents(es[..|es| - 1])[es[|es| - 1].key := es[|es| - 1].value]
  }

  lemma {:induction false} ContentsHas(es: Run, k: Bytes)
    requires Ascending(es)
    ensures k in Contents(es) <==> exists i: nat | i < |es| :: es[i].key == k
    ensures forall i: nat | i < |es| && es[i].key == k :: k in Contents(es) && Contents(es)[k] == es[i].value
  {
    if es != [] {
      var n := |es| - 1;
      ContentsHas(es[..n], k);
      assert forall i: nat | i < n :: es[..n][i] == es[i];
      if es[n].key == k { LtIrreflexive(k); }
    }
  }

  // ---- seeking ---------------------------------------------------------------------------

  /** A storage key: the column family, then the key within it. */
  function Sk(cf: Cf, key: Bytes): Bytes { [cf] + key }

  /** `r` is the first entry of `cf` at or after `from`. */
  ghost predicate IsSeek(m: Flat, cf: Cf, from: Bytes, r: Option<Kv>) {
    && (r.Some? ==> Sk(cf, r.value.key) in m && m[Sk(cf, r.value.key)] == r.value.value && Le(from, r.value.key))
    && forall k: Bytes | Sk(cf, k) in m && Le(from, k) :: r.Some? && Le(r.value.key, k)
  }

  lemma SeekOnce(m: Flat, cf: Cf, from: Bytes, r: Option<Kv>, q: Option<Kv>)
    requires IsSeek(m, cf, from, r) && IsSeek(m, cf, from, q)
    ensures r == q
  {
    if r.Some? && q.Some? && r.value.key != q.value.key { LtAsym(r.value.key, q.value.key); }
  }

  // ---- levels ------------------------------------------------------------------------------

  /** Levels, oldest first, as the one map they stand for: a newer level wins, tombstones included. */
  ghost function View(levels: seq<Flat>): Flat {
    if levels == [] then map[] else View(levels[..|levels| - 1]) + levels[|levels| - 1]
  }

  lemma {:induction false} ViewSplit(a: seq<Flat>, b: seq<Flat>)
    ensures View(a + b) == View(a) + View(b)
    decreases |b|
  {
    if b == [] {
      assert a + b == a;
    } else {
      var n := |b| - 1;
      ViewSplit(a, b[..n]);
      assert (a + b)[..|a + b| - 1] == a + b[..n] && (a + b)[|a + b| - 1] == b[n];
      Restacked(View(a), View(b[..n]), b[n]);
    }
  }

  lemma Restacked(a: Flat, b: Flat, c: Flat)
    ensures (a + b) + c == a + (b + c)
  {
  }

  /** From the `i`-th level up, one level at a time. */
  lemma ViewDown(levels: seq<Flat>, i: nat)
    requires i < |levels|
    ensures View(levels[i..]) == levels[i] + View(levels[i + 1..])
  {
    assert levels[i..] == [levels[i]] + levels[i + 1..];
    ViewSplit([levels[i]], levels[i + 1..]);
    assert View([levels[i]]) == levels[i] by { assert View([]) == map[] && [levels[i]][..0] == []; }
  }

  /** The smaller key wins, and on a tie the newer level. */
  function Better(newer: Option<Kv>, older: Option<Kv>): Option<Kv> {
    if newer.None? then older
    else if older.None? then newer
    else if Le(newer.value.key, older.value.key) then newer
    else older
  }

  lemma SkInjective(cf: Cf, a: Bytes, b: Bytes)
    ensures Sk(cf, a) == Sk(cf, b) ==> a == b
  {
    assert Sk(cf, a)[1..] == a && Sk(cf, b)[1..] == b;
  }

  /** The better of two seeks is the seek in the merged map. */
  lemma SeekMerge(base: Flat, top: Flat, cf: Cf, from: Bytes, r: Option<Kv>, q: Option<Kv>)
    requires IsSeek(top, cf, from, r) && IsSeek(base, cf, from, q)
    ensures IsSeek(base + top, cf, from, Better(r, q))
  {
    var b := Better(r, q);
    if r.Some? && q.Some? { LtTotal(r.value.key, q.value.key); }
    forall k: Bytes | Sk(cf, k) in base + top && Le(from, k) ensures b.Some? && Le(b.value.key, k) {
      if Sk(cf, k) in top {
        if b == q && q.Some? { LeTrans(q.value.key, r.value.key, k); }
      } else {
        assert Sk(cf, k) in base;
        if b == r && r.Some? && q.Some? { LeTrans(r.value.key, q.value.key, k); }
      }
    }
  }
}
