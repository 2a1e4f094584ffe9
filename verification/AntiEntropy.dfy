/** Convergence of the leaderless replicas (server/src/anti_entropy.rs, `reconcile_ap_once` of server/src/lib.rs): each
    key's newest version wins, so merging is a join, and replicas that pull from one another end up equal. */
module AntiEntropy {
  import opened Basics
  import opened ByteOrder
  import opened SortedIds
  import opened Merkle

  /** One key's latest version: its HLC stamp and its value, none for a tombstone. */
  datatype Version = Version(hlc: nat, value: Option<Bytes>)

  type State = map<Bytes, Version>

  // ---- last writer wins ------------------------------------------------------------------------

  function Adopt(m: State, k: Bytes, v: Version): State {
    if k in m && m[k].hlc >= v.hlc then m else m[k := v]
  }

  function Join(a: State, b: State): State {
    map k | k in a.Keys + b.Keys :: if k !in b then a[k] else if k !in a || b[k].hlc > a[k].hlc then b[k] else a[k]
  }

  /** Equal key and stamp mean the same write. */
  ghost predicate Consistent(a: State, b: State) { forall k | k in a && k in b && a[k].hlc == b[k].hlc :: a[k] == b[k] }

  /** Everything in `a` is in `b`, or superseded there. */
  ghost predicate Leq(a: State, b: State) { forall k | k in a :: k in b && (a[k].hlc < b[k].hlc || a[k] == b[k]) }

  lemma JoinCommutes(a: State, b: State)
    requires Consistent(a, b)
    ensures Join(a, b) == Join(b, a)
  {
  }

  lemma JoinAssociates(a: State, b: State, c: State)
    ensures Join(Join(a, b), c) == Join(a, Join(b, c))
  {
  }

  lemma JoinIdempotent(a: State, b: State)
    ensures Join(a, a) == a && Join(Join(a, b), b) == Join(a, b)
  {
  }

  /** The join is the least state above both. */
  lemma JoinIsLeast(a: State, b: State, c: State)
    requires Consistent(a, b)
    ensures Leq(a, Join(a, b)) && Leq(b, Join(a, b))
    ensures Leq(a, c) && Leq(b, c) ==> Leq(Join(a, b), c)
  {
  }

  lemma LeqTrans(a: State, b: State, c: State)
    requires Leq(a, b) && Leq(b, c)
    ensures Leq(a, c)
  {
  }

  lemma LeqAntisym(a: State, b: State)
    requires Leq(a, b) && Leq(b, a)
    ensures a == b
  {
    forall k | k in a ensures k in b && a[k] == b[k] {}
    assert a.Keys == b.Keys;
  }

  // ---- the digest -----------------------------------------------------------------------------------

  datatype Stamp = Stamp(key: Bytes, hlc: nat)

  type BucketOf = Bytes -> nat
  type LeafHash = seq<Stamp> -> nat

  ghost predicate Sorted(s: seq<Stamp>) { forall i: nat, j: nat | i < j < |s| :: Lt(s[i].key, s[j].key) }

  /** Insert by key; a key already there keeps its place. */
  function InsertStamp(x: Stamp, s: seq<Stamp>): (r: seq<Stamp>)
    requires Sorted(s) && forall y | y in s :: y.key != x.key
    ensures Sorted(r) && forall y :: y in r <==> y == x || y in s
  {
    if s == [] then [x]
    else if Lt(x.key, s[0].key) then
      Least(x, s);
      [x] + s
    else
      LtTotal(x.key, s[0].key);
      assert s[0] in s;
      var r := InsertStamp(x, s[1..]);
      Behind(s[0], s[1..], x, r);
      [s[0]] + r
  }

  lemma Least(x: Stamp, s: seq<Stamp>)
    requires Sorted(s) && s != [] && Lt(x.key, s[0].key)
    ensures Sorted([x] + s)
  {
    var r := [x] + s;
    forall i: nat, j: nat | i < j < |r| ensures Lt(r[i].key, r[j].key) {
      if i == 0 && j > 1 { LtTrans(x.key, s[0].key, s[j - 1].key); }
    }
  }

  lemma Behind(h: Stamp, t: seq<Stamp>, x: Stamp, r: seq<Stamp>)
    requires Sorted([h] + t) && Lt(h.key, x.key) && Sorted(r) && forall y | y in r :: y == x || y in t
    ensures Sorted([h] + r)
  {
    var s := [h] + r;
    forall i: nat, j: nat | i < j < |s| ensures Lt(s[i].key, s[j].key) {
      if i == 0 {
        assert s[j] in r;
        if s[j] != x {
          var k: nat :| k < |t| && t[k] == s[j];
          assert ([h] + t)[k + 1] == t[k] && ([h] + t)[0] == h;
          assert Lt(([h] + t)[0].key, ([h] + t)[k + 1].key);
        }
      } else {
        assert s[i] == r[i - 1] && s[j] == r[j - 1];
      }
    }
  }

  /** A sorted list is determined by its entries. */
  lemma {:induction false} SameStamps(a: seq<Stamp>, b: seq<Stamp>)
    requires Sorted(a) && Sorted(b) && forall y :: y in a <==> y in b
    ensures a == b
  {
    assert b != [] ==> b[0] in b;
    if a != [] {
      assert a[0] in a;
      assert a[0] in b;
      var i: nat :| i < |b| && b[i] == a[0];
      var j: nat :| j < |a| && a[j] == b[0];
      if i > 0 && j > 0 { LtAsym(a[0].key, a[j].key); }
      HeadOnce(a);
      HeadOnce(b);
      forall y ensures y in a[1..] <==> y in b[1..] {
        assert y in a <==> y == a[0] || y in a[1..];
        assert y in b <==> y == b[0] || y in b[1..];
      }
      SameStamps(a[1..], b[1..]);
      assert a == [a[0]] + a[1..] && b == [b[0]] + b[1..];
    }
  }

  lemma HeadOnce(a: seq<Stamp>)
    requires Sorted(a) && a != []
    ensures a[0] !in a[1..]
  {
    if a[0] in a[1..] {
      var k: nat :| k < |a[1..]| && a[1..][k] == a[0];
      assert Lt(a[0].key, a[k + 1].key);
      LtIrreflexive(a[0].key);
    }
  }

  ghost predicate DistinctKeys(vs: seq<Stamp>) { forall i: nat, j: nat | i < j < |vs| :: vs[i].key != vs[j].key }

  /** A listing of a state's stamps, in any order. */
  ghost predicate Lists(vs: seq<Stamp>, m: State) {
    && DistinctKeys(vs)
    && (forall v | v in vs :: v.key in m && m[v.key].hlc == v.hlc)
    && (forall k | k in m :: Stamp(k, m[k].hlc) in vs)
  }

  /** The stamps of one bucket, sorted. */
  function Bucket(vs: seq<Stamp>, f: BucketOf, b: nat): (r: seq<Stamp>)
    requires DistinctKeys(vs)
    ensures Sorted(r) && forall y :: y in r <==> y in vs && f(y.key) == b
  {
    if vs == [] then []
    else
      var n, x := |vs| - 1, vs[|vs| - 1];
      var r := Bucket(vs[..n], f, b);
      assert forall y | y in vs[..n] :: y.key != x.key;
      assert forall y :: y in vs <==> y in vs[..n] || y == x;
      if f(x.key) == b then InsertStamp(x, r) else r
  }

  /** The list a state has in a bucket. */
  ghost predicate IsBucket(m: State, f: BucketOf, b: nat, r: seq<Stamp>) {
    Sorted(r) && forall y :: y in r <==> y.key in m && m[y.key].hlc == y.hlc && f(y.key) == b
  }

  /** However the state is listed, a bucket comes out the same: replicas with the same data agree on it. */
  lemma BucketIsCanonical(vs: seq<Stamp>, ws: seq<Stamp>, m: State, f: BucketOf, b: nat)
    requires Lists(vs, m) && Lists(ws, m)
    ensures Bucket(vs, f, b) == Bucket(ws, f, b) && IsBucket(m, f, b, Bucket(vs, f, b))
  {
    forall y ensures y in vs <==> y.key in m && m[y.key].hlc == y.hlc {
      assert y.key in m && m[y.key].hlc == y.hlc ==> y == Stamp(y.key, m[y.key].hlc);
    }
    forall y ensures y in ws <==> y in vs {
      assert y.key in m && m[y.key].hlc == y.hlc ==> y == Stamp(y.key, m[y.key].hlc);
    }
    SameStamps(Bucket(vs, f, b), Bucket(ws, f, b));
  }

  ghost predicate LeafOk(m: State, f: BucketOf, hash: LeafHash, b: nat, leaf: nat) {
    exists r: seq<Stamp> :: IsBucket(m, f, b, r) && leaf == hash(r)
  }

  ghost predicate IsDigest(m: State, f: BucketOf, hash: LeafHash, leaves: seq<nat>) {
    |leaves| == LEAVES && forall b: nat | b < LEAVES :: LeafOk(m, f, hash, b, leaves[b])
  }

  /** `digest`: hash each bucket's stamps in key order. */
  method Digest(vs: seq<Stamp>, f: BucketOf, hash: LeafHash, ghost m: State) returns (leaves: seq<nat>)
    requires Lists(vs, m)
    ensures IsDigest(m, f, hash, leaves)
  {
    leaves := [];
    var b := 0;
    while b < LEAVES
      invariant b <= LEAVES && |leaves| == b && forall i: nat | i < b :: LeafOk(m, f, hash, i, leaves[i])
    {
      var r := Bucket(vs, f, b);
      BucketIsCanonical(vs, vs, m, f, b);
      assert LeafOk(m, f, hash, b, hash(r));
      leaves := leaves + [hash(r)];
      b := b + 1;
    }
  }

  // ---- pulling from a peer ------------------------------------------------------------------------------

  /** The hash tells apart the two lists compared in each bucket. */
  ghost predicate LeavesApart(m: State, r: State, f: BucketOf, hash: LeafHash) {
    forall b: nat, x: seq<Stamp>, y: seq<Stamp> | IsBucket(m, f, b, x) && IsBucket(r, f, b, y) && hash(x) == hash(y) :: x == y
  }

  lemma SameBucket(m: State, r: State, f: BucketOf, b: nat, x: seq<Stamp>, k: Bytes)
    requires IsBucket(m, f, b, x) && IsBucket(r, f, b, x) && f(k) == b
    ensures (k in m <==> k in r) && (k in m && k in r ==> m[k].hlc == r[k].hlc)
  {
    if k in m { assert Stamp(k, m[k].hlc) in x; }
    if k in r { assert Stamp(k, r[k].hlc) in x; }
  }

  /** What `ap_fetch` returns: the peer's versions in the buckets asked for. */
  function Fetched(r: State, f: BucketOf, buckets: Ids): State { map k | k in r && f(k) in buckets :: r[k] }

  /** `to_adopt` and the writes that follow, against the versions known when the pass began. */
  ghost function Merged(now: State, known: State, fetched: State): State {
    map k | k in now.Keys + fetched.Keys ::
      if k !in fetched then now[k]
      else if k in known && known[k].hlc >= fetched[k].hlc then (if k in now then now[k] else fetched[k])
      else if k in now && now[k].hlc >= fetched[k].hlc then now[k] else fetched[k]
  }

  /** A bucket that was not reported holds nothing new. */
  lemma Unreported(m: State, r: State, f: BucketOf, hash: LeafHash, x: seq<nat>, y: seq<nat>, buckets: Ids, k: Bytes)
    requires IsDigest(m, f, hash, x) && IsDigest(r, f, hash, y) && LeavesApart(m, r, f, hash) && f(k) < LEAVES
    requires (forall b: nat | b < LEAVES && x[b] != y[b] :: b in buckets) && f(k) !in buckets
    ensures (k in m <==> k in r) && (k in m && k in r ==> m[k].hlc == r[k].hlc)
  {
    var b := f(k);
    assert LeafOk(m, f, hash, b, x[b]) && LeafOk(r, f, hash, b, y[b]);
    var p: seq<Stamp> :| IsBucket(m, f, b, p) && x[b] == hash(p);
    var q: seq<Stamp> :| IsBucket(r, f, b, q) && y[b] == hash(q);
    assert p == q;
    SameBucket(m, r, f, b, p, k);
  }

  /** Pulling only the reported buckets, judged by what was known when the pass began, is the full join. */
  lemma PullIsJoin(now: State, known: State, r: State, f: BucketOf, hash: LeafHash, x: seq<nat>, y: seq<nat>, buckets: Ids)
    requires IsDigest(known, f, hash, x) && IsDigest(r, f, hash, y) && LeavesApart(known, r, f, hash)
    requires (forall k: Bytes :: f(k) < LEAVES) && (forall b: nat | b < LEAVES && x[b] != y[b] :: b in buckets)
    requires Leq(known, now)
    ensures Merged(now, known, Fetched(r, f, buckets)) == Join(now, r)
  {
    forall k: Bytes | k in r && f(k) !in buckets ensures k in known && known[k].hlc == r[k].hlc {
      Unreported(known, r, f, hash, x, y, buckets, k);
    }
  }

  lemma MergedAbove(now: State, known: State, fetched: State)
    ensures Leq(now, Merged(now, known, fetched))
  {
  }

  /** A pull from a peer that moved on from `r0` to `r1` between its digest and its answer: nothing of `r0` is missed,
      nothing is lost, and nothing is invented. */
  ghost predicate Between(now: State, r0: State, r1: State, out: State) {
    && Leq(now, out) && Leq(r0, out)
    && forall k | k in out :: (k in now && out[k] == now[k]) || (k in r1 && out[k] == r1[k])
  }

  lemma PullIsBetween(now: State, known: State, r0: State, r1: State, f: BucketOf, hash: LeafHash, x: seq<nat>, y: seq<nat>,
                      buckets: Ids)
    requires IsDigest(known, f, hash, x) && IsDigest(r0, f, hash, y) && LeavesApart(known, r0, f, hash)
    requires (forall k: Bytes :: f(k) < LEAVES) && (forall b: nat | b < LEAVES && x[b] != y[b] :: b in buckets)
    requires Leq(known, now) && Leq(r0, r1) && Consistent(known, r0) && Consistent(now, r0)
    ensures Between(now, r0, r1, Merged(now, known, Fetched(r1, f, buckets)))
  {
    forall k: Bytes | k in r0 && f(k) !in buckets ensures k in now && (r0[k].hlc < now[k].hlc || r0[k] == now[k]) {
      Unreported(known, r0, f, hash, x, y, buckets, k);
    }
  }

  /** Such a pull lies between the joins with the two states of the peer. */
  lemma BetweenJoins(now: State, r0: State, r1: State, out: State)
    requires Between(now, r0, r1, out) && Consistent(now, r0) && Consistent(now, r1)
    ensures Leq(Join(now, r0), out) && Leq(out, Join(now, r1))
  {
    JoinIsLeast(now, r0, out);
    JoinIsLeast(now, r1, out);
  }

  // ---- one pass over the peers ----------------------------------------------------------------------------

  /** The trees over two digests do not collide. */
  ghost predicate TreesApart(x: seq<nat>, y: seq<nat>, mix: Mix) {
    forall a: seq<nat>, b: seq<nat> | IsTree(a, x, mix) && IsTree(b, y, mix) :: CollisionFree(a, b)
  }

  /** No hash computed in comparing two states hides a difference. */
  ghost predicate NoCollision(m: State, r: State, f: BucketOf, hash: LeafHash, mix: Mix) {
    && LeavesApart(m, r, f, hash)
    && forall x: seq<nat>, y: seq<nat> | IsDigest(m, f, hash, x) && IsDigest(r, f, hash, y) :: TreesApart(x, y, mix)
  }

  /** What merging leaves under one key it fetched. */
  function MergedAt(now: State, known: State, k: Bytes, v: Version): Version {
    if k in now && ((k in known && known[k].hlc >= v.hlc) || now[k].hlc >= v.hlc) then now[k] else v
  }

  lemma MergedIs(now: State, known: State, fetched: State, out: State)
    requires Leq(known, now) && out.Keys == now.Keys + fetched.Keys
    requires forall k | k in out :: out[k] == if k in fetched then MergedAt(now, known, k, fetched[k]) else now[k]
    ensures out == Merged(now, known, fetched)
  {
  }

  /** Adopt, one by one, the fetched versions newer than what was known. */
  method AdoptNewer(now: State, known: State, fetched: State) returns (out: State)
    requires Leq(known, now)
    ensures out == Merged(now, known, fetched)
  {
    out := now;
    var todo := fetched.Keys;
    while todo != {}
      invariant todo <= fetched.Keys && out.Keys == now.Keys + (fetched.Keys - todo)
      invariant forall k | k in out ::
        out[k] == if k in fetched && k !in todo then MergedAt(now, known, k, fetched[k]) else now[k]
    {
      var k :| k in todo;
      if k !in known || fetched[k].hlc > known[k].hlc { out := Adopt(out, k, fetched[k]); }
      todo := todo - {k};
    }
    MergedIs(now, known, fetched, out);
  }

  /** Compare digests with one peer, fetch what differs, merge. The peer is at `r0` when it digests and at `r1` when it
      answers. */
  method Pull(now: State, known: State, mine: seq<nat>, r0: State, theirs: seq<Stamp>, r1: State, f: BucketOf, hash: LeafHash,
              mix: Mix) returns (out: State)
    requires Leq(known, now) && IsDigest(known, f, hash, mine) && Lists(theirs, r0) && (forall k: Bytes :: f(k) < LEAVES)
    requires NoCollision(known, r0, f, hash, mix)
    ensures Leq(now, out) && (r0 == r1 ==> out == Join(now, r0))
    ensures Leq(r0, r1) && Consistent(known, r0) && Consistent(now, r0) ==> Between(now, r0, r1, out)
  {
    var digest := Digest(theirs, f, hash, r0);
    var buckets; ghost var a, b;
    buckets, a, b := Diff(mine, digest, mix);
    assert TreesApart(mine, digest, mix);
    PullIsJoin(now, known, r0, f, hash, mine, digest, buckets);
    if Leq(r0, r1) && Consistent(known, r0) && Consistent(now, r0) {
      PullIsBetween(now, known, r0, r1, f, hash, mine, digest, buckets);
    }
    MergedAbove(now, known, Fetched(r1, f, buckets));
    out := AdoptNewer(now, known, Fetched(r1, f, buckets));
  }

  function JoinAll(m: State, rs: seq<State>): State {
    if rs == [] then m else Join(JoinAll(m, rs[..|rs| - 1]), rs[|rs| - 1])
  }

  lemma JoinAllNext(m: State, rs: seq<State>, i: nat)
    requires i < |rs|
    ensures JoinAll(m, rs[..i + 1]) == Join(JoinAll(m, rs[..i]), rs[i])
  {
    assert rs[..i + 1][..i] == rs[..i];
  }

  /** A pass leaves all that was known and all that any peer had when it digested, and nothing but versions known or
      fetched. */
  ghost predicate CaughtUp(known: State, before: seq<State>, after: seq<State>, now: State) {
    && Leq(known, now) && (forall i: nat | i < |before| :: Leq(before[i], now)) && Drawn(now, [known] + after)
  }

  /** The peers moved on within one history. */
  ghost predicate MovedOn(known: State, before: seq<State>, after: seq<State>) {
    && |before| == |after| && OneHistory([known] + after) && (forall i: nat | i < |before| :: Leq(before[i], after[i]))
    && (forall i: nat | i < |before| :: Consistent(known, before[i]))
    && forall i: nat, j: nat | i < |before| && j < |before| :: Consistent(after[i], before[j])
  }

  lemma DrawnAgree(known: State, before: seq<State>, after: seq<State>, now: State, i: nat)
    requires MovedOn(known, before, after) && Drawn(now, [known] + after) && i < |before|
    ensures Consistent(now, before[i])
  {
    forall k | k in now && k in before[i] && now[k].hlc == before[i][k].hlc ensures now[k] == before[i][k] {
      var j: nat :| j < |[known] + after| && k in ([known] + after)[j] && ([known] + after)[j][k] == now[k];
      if j > 0 { assert Consistent(after[j - 1], before[i]); }
    }
  }

  lemma BetweenDrawn(known: State, after: seq<State>, i: nat, now: State, r0: State, out: State)
    requires Drawn(now, [known] + after) && i < |after| && Between(now, r0, after[i], out)
    ensures Drawn(out, [known] + after)
  {
    var all := [known] + after;
    forall k | k in out ensures exists j: nat | j < |all| :: k in all[j] && all[j][k] == out[k] {
      if !(k in now && out[k] == now[k]) { assert k in all[i + 1] && all[i + 1][k] == out[k]; }
    }
  }

  lemma PassStep(known: State, before: seq<State>, after: seq<State>, i: nat, now: State, out: State)
    requires MovedOn(known, before, after) && i < |before| && CaughtUp(known, before[..i], after, now)
    requires Between(now, before[i], after[i], out)
    ensures CaughtUp(known, before[..i + 1], after, out)
  {
    BetweenDrawn(known, after, i, now, before[i], out);
    LeqTrans(known, now, out);
    forall j: nat | j < i ensures Leq(before[j], out) {
      assert before[..i][j] == before[j];
      LeqTrans(before[j], now, out);
    }
  }

  lemma PassNext(known: State, before: seq<State>, after: seq<State>, i: nat, now: State, out: State)
    requires MovedOn(known, before, after) && i < |before| && CaughtUp(known, before[..i], after, now)
    requires Consistent(known, before[i]) && Consistent(now, before[i]) ==> Between(now, before[i], after[i], out)
    ensures CaughtUp(known, before[..i + 1], after, out)
  {
    DrawnAgree(known, before, after, now, i);
    PassStep(known, before, after, i, now, out);
  }

  /** The pass so far, over the peers in `done`. */
  ghost predicate Passed(known: State, done: seq<State>, before: seq<State>, after: seq<State>, now: State) {
    && (before == after ==> now == JoinAll(known, done))
    && (MovedOn(known, before, after) ==> CaughtUp(known, done, after, now))
  }

  lemma PeerPassed(known: State, before: seq<State>, after: seq<State>, i: nat, now: State, out: State)
    requires |before| == |after| && i < |before| && Passed(known, before[..i], before, after, now)
    requires before[i] == after[i] ==> out == Join(now, before[i])
    requires Leq(before[i], after[i]) && Consistent(known, before[i]) && Consistent(now, before[i]) ==> Between(now, before[i], after[i], out)
    ensures Passed(known, before[..i + 1], before, after, out)
  {
    JoinAllNext(known, before, i);
    if MovedOn(known, before, after) { PassNext(known, before, after, i, now, out); }
  }

  lemma PassStart(known: State, after: seq<State>)
    ensures CaughtUp(known, [], after, known)
  {
    var all := [known] + after;
    forall k | k in known ensures exists j: nat | j < |all| :: k in all[j] && all[j][k] == known[k] {
      assert all[0] == known;
    }
  }

  /** `reconcile_ap_once` for one region: the digest and the known versions are taken once, then every peer is pulled,
      each moving from `before` to `after` meanwhile. Where none moved, the result is the join of all. */
  method Reconcile(known: State, listed: seq<Stamp>, before: seq<State>, theirs: seq<seq<Stamp>>, after: seq<State>, f: BucketOf,
                   hash: LeafHash, mix: Mix) returns (now: State)
    requires Lists(listed, known) && |theirs| == |before| == |after| && (forall i: nat | i < |before| :: Lists(theirs[i], before[i]))
    requires (forall k: Bytes :: f(k) < LEAVES) && forall i: nat | i < |before| :: NoCollision(known, before[i], f, hash, mix)
    ensures before == after ==> now == JoinAll(known, before)
    ensures MovedOn(known, before, after) ==> CaughtUp(known, before, after, now)
  {
    var mine := Digest(listed, f, hash, known);
    now := known;
    PassStart(known, after);
    assert before[..0] == [];
    var i := 0;
    while i < |before|
      invariant i <= |before| && Leq(known, now) && Passed(known, before[..i], before, after, now)
    {
      ghost var was := now;
      now := Pull(now, known, mine, before[i], theirs[i], after[i], f, hash, mix);
      LeqTrans(known, was, now);
      PeerPassed(known, before, after, i, was, now);
      i := i + 1;
    }
    assert before[..i] == before;
  }

  // ---- convergence -------------------------------------------------------------------------------------------

  /** Replica `i` ends a pull from replica `j`, whose digest was taken when the replicas were at `back`. */
  ghost predicate Pulled(back: seq<State>, st: seq<State>, next: seq<State>, i: nat, j: nat) {
    && |back| == |st| == |next| && i < |st| && j < |st|
    && (forall x: nat | x < |st| && x != i :: next[x] == st[x])
    && Between(st[i], back[j], st[j], next[i])
  }

  ghost predicate PulledAt(run: seq<seq<State>>, t: nat, i: nat, j: nat, d: nat) {
    d <= t < |run| - 1 && Pulled(run[d], run[t], run[t + 1], i, j)
  }

  ghost predicate AnyPull(run: seq<seq<State>>, t: nat) { exists i: nat, j: nat, d: nat :: PulledAt(run, t, i, j, d) }

  /** A run of pulls, in any order and any number, with no new writes; a peer may change while it is pulled from. */
  ghost predicate Pulls(run: seq<seq<State>>) {
    |run| > 0 && forall t: nat {:trigger AnyPull(run, t)} | t < |run| - 1 :: AnyPull(run, t)
  }

  ghost predicate OneHistory(st: seq<State>) { forall i: nat, j: nat | i < |st| && j < |st| :: Consistent(st[i], st[j]) }

  /** Every version was some replica's to begin with. */
  ghost predicate Drawn(s: State, start: seq<State>) {
    forall k | k in s :: exists j: nat | j < |start| :: k in start[j] && start[j][k] == s[k]
  }

  /** The pointwise-newest state: above every replica, and made of their versions. */
  ghost predicate Newest(g: State, start: seq<State>) {
    Drawn(g, start) && forall i: nat | i < |start| :: Leq(start[i], g)
  }

  lemma DrawnConsistent(a: State, b: State, start: seq<State>)
    requires OneHistory(start) && Drawn(a, start) && Drawn(b, start)
    ensures Consistent(a, b)
  {
    forall k | k in a && k in b && a[k].hlc == b[k].hlc ensures a[k] == b[k] {
      var i: nat :| i < |start| && k in start[i] && start[i][k] == a[k];
      var j: nat :| j < |start| && k in start[j] && start[j][k] == b[k];
      assert Consistent(start[i], start[j]);
    }
  }

  lemma JoinDrawn(a: State, b: State, start: seq<State>)
    requires Drawn(a, start) && Drawn(b, start)
    ensures Drawn(Join(a, b), start)
  {
    forall k | k in Join(a, b) ensures exists j: nat | j < |start| :: k in start[j] && start[j][k] == Join(a, b)[k] {
      assert (k in a && Join(a, b)[k] == a[k]) || (k in b && Join(a, b)[k] == b[k]);
    }
  }

  /** The states a run can reach: versions of the start, between a replica's own beginning and the newest. */
  ghost predicate Reached(st: seq<State>, start: seq<State>, g: State) {
    |st| == |start| && forall i: nat {:trigger st[i]} | i < |st| :: Drawn(st[i], start) && Leq(start[i], st[i]) && Leq(st[i], g)
  }

  lemma BetweenReaches(now: State, r0: State, r1: State, out: State, start: seq<State>, g: State)
    requires Between(now, r0, r1, out) && Drawn(now, start) && Drawn(r1, start) && Leq(now, g) && Leq(r1, g)
    ensures Drawn(out, start) && Leq(out, g)
  {
    forall k | k in out ensures exists j: nat | j < |start| :: k in start[j] && start[j][k] == out[k] {
      assert (k in now && out[k] == now[k]) || (k in r1 && out[k] == r1[k]);
    }
  }

  lemma PullReaches(back: seq<State>, st: seq<State>, next: seq<State>, i: nat, j: nat, start: seq<State>, g: State)
    requires Pulled(back, st, next, i, j) && Reached(st, start, g)
    ensures Reached(next, start, g)
  {
    BetweenReaches(st[i], back[j], st[j], next[i], start, g);
    LeqTrans(start[i], st[i], next[i]);
  }

  lemma StartReached(start: seq<State>, g: State)
    requires Newest(g, start)
    ensures Reached(start, start, g)
  {
    forall i: nat | i < |start| ensures Drawn(start[i], start) { ItselfDrawn(start, i); }
  }

  lemma {:induction false} RunReaches(run: seq<seq<State>>, t: nat, g: State)
    requires Pulls(run) && t < |run| && Newest(g, run[0])
    ensures Reached(run[t], run[0], g)
  {
    if t == 0 {
      StartReached(run[0], g);
    } else {
      RunReaches(run, t - 1, g);
      assert AnyPull(run, t - 1);
      var i: nat, j: nat, d: nat :| PulledAt(run, t - 1, i, j, d);
      PullReaches(run[d], run[t - 1], run[t], i, j, run[0], g);
    }
  }

  /** One step of a run: the same replicas, none with less than before. */
  ghost predicate Rises(st: seq<State>, next: seq<State>) {
    |st| == |next| && forall x: nat | x < |st| :: Leq(st[x], next[x])
  }

  lemma StepRises(run: seq<seq<State>>, t: nat)
    requires Pulls(run) && t < |run| - 1
    ensures Rises(run[t], run[t + 1])
  {
    assert AnyPull(run, t);
    var i: nat, j: nat, d: nat :| PulledAt(run, t, i, j, d);
    PullRises(run[d], run[t], run[t + 1], i, j);
  }

  lemma PullRises(back: seq<State>, st: seq<State>, next: seq<State>, i: nat, j: nat)
    requires Pulled(back, st, next, i, j)
    ensures Rises(st, next)
  {
  }

  /** States only grow. */
  lemma {:induction false} Grows(run: seq<seq<State>>, s: nat, t: nat, x: nat)
    requires Pulls(run) && s <= t < |run| && x < |run[s]|
    ensures |run[s]| == |run[t]| && Leq(run[s][x], run[t][x])
    decreases t - s
  {
    if s < t {
      Grows(run, s, t - 1, x);
      StepRises(run, t - 1);
      LeqTrans(run[s][x], run[t - 1][x], run[t][x]);
    }
  }

  ghost predicate PulledDuring(run: seq<seq<State>>, i: nat, j: nat) {
    exists t: nat, d: nat :: PulledAt(run, t, i, j, d)
  }

  /** A replica that pulled from another holds all the other began with. */
  lemma HoldsOther(run: seq<seq<State>>, i: nat, j: nat)
    requires Pulls(run) && i < |run[0]| && j < |run[0]| && PulledDuring(run, i, j)
    ensures |run[|run| - 1]| == |run[0]| && Leq(run[0][j], run[|run| - 1][i])
  {
    var t: nat, d: nat :| PulledAt(run, t, i, j, d);
    Grows(run, 0, d, j);
    Grows(run, t + 1, |run| - 1, i);
    Grows(run, 0, |run| - 1, j);
    LeqTrans(run[0][j], run[d][j], run[t + 1][i]);
    LeqTrans(run[0][j], run[t + 1][i], run[|run| - 1][i]);
  }

  /** Once every replica has pulled from every other, all hold the pointwise-newest version. */
  lemma Converges(run: seq<seq<State>>, g: State, i: nat)
    requires Pulls(run) && Newest(g, run[0]) && i < |run[0]|
    requires forall j: nat | j < |run[0]| && j != i :: PulledDuring(run, i, j)
    ensures |run[|run| - 1]| == |run[0]| && run[|run| - 1][i] == g
  {
    RunReaches(run, |run| - 1, g);
    AllHeld(run, g, i, run[|run| - 1][i]);
    LeqAntisym(run[|run| - 1][i], g);
  }

  lemma AllHeld(run: seq<seq<State>>, g: State, i: nat, s: State)
    requires Pulls(run) && Newest(g, run[0]) && i < |run[0]| == |run[|run| - 1]| && s == run[|run| - 1][i] && Leq(run[0][i], s)
    requires forall j: nat | j < |run[0]| && j != i :: PulledDuring(run, i, j)
    ensures Leq(g, s)
  {
    forall k | k in g ensures k in s && (g[k].hlc < s[k].hlc || g[k] == s[k]) {
      var j: nat :| j < |run[0]| && k in run[0][j] && run[0][j][k] == g[k];
      if j != i { HoldsOther(run, i, j); }
    }
  }

  /** The newest state exists: it is the join of all. */
  lemma {:induction false} NewestIsJoin(start: seq<State>)
    requires OneHistory(start)
    ensures Newest(JoinAll(map[], start), start)
  {
    JoinsUpTo(start, |start|);
    assert start[..|start|] == start;
  }

  /** `g` is made of versions of `start` and is above its first `n` states. */
  ghost predicate NewestOf(g: State, start: seq<State>, n: nat)
    requires n <= |start|
  {
    Drawn(g, start) && forall i: nat | i < n :: Leq(start[i], g)
  }

  lemma JoinOne(g: State, start: seq<State>, n: nat)
    requires OneHistory(start) && n < |start| && NewestOf(g, start, n)
    ensures NewestOf(Join(g, start[n]), start, n + 1)
  {
    var x := start[n];
    ItselfDrawn(start, n);
    JoinDrawn(g, x, start);
    DrawnConsistent(g, x, start);
    JoinIsLeast(g, x, g);
    forall i: nat | i < n ensures Leq(start[i], Join(g, x)) { LeqTrans(start[i], g, Join(g, x)); }
  }

  lemma ItselfDrawn(start: seq<State>, n: nat)
    requires n < |start|
    ensures Drawn(start[n], start)
  {
  }

  lemma {:induction false} JoinsUpTo(start: seq<State>, n: nat)
    requires OneHistory(start) && n <= |start|
    ensures NewestOf(JoinAll(map[], start[..n]), start, n)
  {
    if n > 0 {
      JoinsUpTo(start, n - 1);
      JoinOne(JoinAll(map[], start[..n - 1]), start, n - 1);
      JoinAllNext(map[], start, n - 1);
    }
  }
}
