/** Transactions across regions (server/src/cross_txn.rs): each region is an engine of its own, every key
    is handled by the engine that owns it, and together the engines behave as one store. The single-region
    coordinator of engine/src/percolator.rs is the case of one region. */
module PercolatorCross {
  import opened Basics
  import opened Percolator
  import opened PercolatorInv
  import opened PercolatorReads
  import opened PercolatorRuns
  import opened PercolatorEngine

  type Region = nat

  // ---- many stores as one ---------------------------------------------------------------

  /** Two stores agree on everything under one key. */
  ghost predicate AgreeAt(a: Store, b: Store, k: Key) {
    && (k in a.locks <==> k in b.locks) && (k in a.locks ==> a.locks[k] == b.locks[k])
    && (forall c: Ts :: (k, c) in a.writes <==> (k, c) in b.writes)
    && (forall c: Ts | (k, c) in a.writes :: (k, c) in b.writes && a.writes[(k, c)] == b.writes[(k, c)])
    && (forall c: Ts :: (k, c) in a.data <==> (k, c) in b.data)
    && (forall c: Ts | (k, c) in a.data :: (k, c) in b.data && a.data[(k, c)] == b.data[(k, c)])
  }

  lemma ReadsAgree(a: Store, b: Store, k: Key, ts: Ts)
    requires AgreeAt(a, b, k)
    ensures Lookup(a, k, ts) == Lookup(b, k, ts)
  {
    NewestSame(a.writes, b.writes, k, ts);
  }

  lemma ClearAgrees(a: Store, b: Store, k: Key, s: Ts)
    requires AgreeAt(a, b, k)
    ensures Clear(a, k, s) <==> Clear(b, k, s)
  {
  }

  lemma AgreeTrans(a: Store, b: Store, c: Store, k: Key)
    requires AgreeAt(a, b, k) && AgreeAt(b, c, k)
    ensures AgreeAt(a, c, k)
  {
  }

  /** `b` is `a` with at most one key changed. */
  ghost predicate OnlyAt(a: Store, b: Store, k: Key) {
    forall x: Key {:trigger AgreeAt(b, a, x)} :: x != k ==> AgreeAt(b, a, x)
  }

  /** A status reported on the primary's region holds of the whole. */
  lemma ReportsAgree(a: Store, b: Store, p: Key, s: Ts, now: Ts, f: Fate, after: Store)
    requires AgreeAt(a, b, p) && Reports(b, p, s, now, f, after)
    ensures f.Decided? ==> after == Rollback(b, p, s) && Reports(a, p, s, now, f, Rollback(a, p, s))
    ensures f.Pending? ==> after == b && Reports(a, p, s, now, f, a)
  {
    forall c: Ts ensures Recorded(a, p, s, c) <==> Recorded(b, p, s, c) {}
  }

  // ---- the regions ---------------------------------------------------------------------------

  class Regions {
    const engines: map<Region, Engine>
    const regionOf: Key -> Region
    /** The regions' stores as one: each key as its own region has it. */
    ghost var whole: Store

    ghost predicate Apart() {
      forall r: Region, q: Region | r in engines && q in engines && r != q :: engines[r] != engines[q]
    }

    /** Every key has a region, regions share no engine, and `whole` is what they hold together. */
    ghost predicate Valid()
      reads this, engines.Values
    {
      && Apart() && (forall k: Key :: regionOf(k) in engines)
      && (forall r: Region | r in engines :: engines[r].Valid())
      && forall k: Key {:trigger AgreeAt(whole, engines[regionOf(k)].Now(), k)} :: AgreeAt(whole, engines[regionOf(k)].Now(), k)
    }

    constructor (engines: map<Region, Engine>, regionOf: Key -> Region)
      requires forall k: Key :: regionOf(k) in engines
      requires forall r: Region | r in engines :: engines[r].Valid() && engines[r].Now() == START.core.store
      requires forall r: Region, q: Region | r in engines && q in engines && r != q :: engines[r] != engines[q]
      ensures Valid() && this.engines == engines && this.regionOf == regionOf && whole == START.core.store
    {
      this.engines, this.regionOf, whole := engines, regionOf, START.core.store;
    }

    /** A call that changes one key, in that key's region, keeps the regions and the whole in step. */
    twostate lemma InStep(key: Key)
      requires old(Valid()) && engines[regionOf(key)].Valid()
      requires forall r: Region | r in engines && r != regionOf(key) :: unchanged(engines[r])
      requires OnlyAt(old(whole), whole, key) && OnlyAt(old(engines[regionOf(key)].Now()), engines[regionOf(key)].Now(), key)
      requires AgreeAt(whole, engines[regionOf(key)].Now(), key)
      ensures Valid()
    {
      forall x: Key ensures AgreeAt(whole, engines[regionOf(x)].Now(), x) {
        if x != key {
          var was, now := old(engines[regionOf(x)].Now()), engines[regionOf(x)].Now();
          assert old(AgreeAt(whole, engines[regionOf(x)].Now(), x));
          assert AgreeAt(whole, old(whole), x);
          AgreeTrans(whole, old(whole), was, x);
          assert AgreeAt(now, was, x);
        }
      }
    }

    method PrewriteOne(key: Key, value: Percolator.Value, primary: Key, s: Ts, ttl: nat) returns (ok: bool)
      requires Valid()
      modifies this, engines.Values
      ensures Valid() && (ok <==> Clear(old(whole), key, s))
      ensures whole == if ok then Prewrite(old(whole), key, value, Lock(primary, s, ttl)) else old(whole)
    {
      assert AgreeAt(whole, engines[regionOf(key)].Now(), key);
      ClearAgrees(whole, engines[regionOf(key)].Now(), key, s);
      ok := engines[regionOf(key)].PrewriteOne(key, value, primary, s, ttl);
      if ok { whole := Prewrite(whole, key, value, Lock(primary, s, ttl)); }
      InStep(key);
    }

    method ResolveCommit(key: Key, s: Ts, c: Ts)
      requires Valid() && c <= MAX_TS
      modifies this, engines.Values
      ensures Valid() && whole == Forward(old(whole), key, s, c)
    {
      assert AgreeAt(whole, engines[regionOf(key)].Now(), key);
      engines[regionOf(key)].ResolveCommit(key, s, c);
      whole := Forward(whole, key, s, c);
      InStep(key);
    }

    method ResolveRollback(key: Key, s: Ts)
      requires Valid()
      modifies this, engines.Values
      ensures Valid() && whole == Rollback(old(whole), key, s)
    {
      assert AgreeAt(whole, engines[regionOf(key)].Now(), key);
      engines[regionOf(key)].ResolveRollback(key, s);
      whole := Rollback(whole, key, s);
      InStep(key);
    }

    method WriteCommit(key: Key, s: Ts, c: Ts)
      requires Valid() && c <= MAX_TS
      modifies this, engines.Values
      ensures Valid() && whole == PutWrite(old(whole), key, s, c)
    {
      assert AgreeAt(whole, engines[regionOf(key)].Now(), key);
      engines[regionOf(key)].WriteCommit(key, s, c);
      whole := PutWrite(whole, key, s, c);
      InStep(key);
    }

    /** Ask the primary's region for a transaction's fate. */
    method CheckTxnStatus(primary: Key, s: Ts, now: Ts) returns (f: Fate)
      requires Valid()
      modifies this, engines.Values
      ensures Valid() && Reports(old(whole), primary, s, now, f, whole)
    {
      ghost var before := engines[regionOf(primary)].Now();
      assert AgreeAt(whole, before, primary);
      f := engines[regionOf(primary)].CheckTxnStatus(primary, s, now);
      ReportsAgree(whole, before, primary, s, now, f, engines[regionOf(primary)].Now());
      if f.Decided? { whole := Rollback(whole, primary, s); }
      InStep(primary);
    }

    method LockOn(key: Key) returns (l: Option<Lock>)
      requires Valid()
      ensures l == if key in whole.locks then Some(whole.locks[key]) else None
    {
      var engine := engines[regionOf(key)];
      assert AgreeAt(whole, engine.Now(), key);
      l := if key in engine.locks then Some(engine.locks[key]) else None;
    }

    method GetUnresolved(key: Key, ts: Ts) returns (a: Answer)
      requires Valid()
      ensures a == if Unshadowed(whole, key, ts) then Value(Lookup(whole, key, ts)) else KeyIsLocked
    {
      assert AgreeAt(whole, engines[regionOf(key)].Now(), key);
      ReadsAgree(whole, engines[regionOf(key)].Now(), key, ts);
      a := engines[regionOf(key)].GetUnresolved(key, ts);
    }
  }

  // ---- what a coordinator's prewrites do -------------------------------------------------------

  predicate Among(muts: seq<Mutation>, n: nat, k: Key) { exists i: nat | i < n && i < |muts| :: muts[i].key == k }

  /** The first `n` keys are free for a transaction at `s`: no lock, no newer commit, no repetition. */
  ghost predicate Free(st: Store, muts: seq<Mutation>, s: Ts, n: nat)
    requires n <= |muts|
  {
    forall i: nat {:trigger muts[i]} | i < n :: Clear(st, muts[i].key, s) && !Among(muts, i, muts[i].key)
  }

  ghost function Acquire(st: Store, muts: seq<Mutation>, s: Ts, ttl: nat, n: nat): Store
    requires n <= |muts|
  {
    if n == 0 then st
    else Prewrite(Acquire(st, muts, s, ttl, n - 1), muts[n - 1].key, muts[n - 1].value, Lock(muts[0].key, s, ttl))
  }

  ghost function Release(st: Store, muts: seq<Mutation>, s: Ts, n: nat): Store
    requires n <= |muts|
  {
    if n == 0 then st else Rollback(Release(st, muts, s, n - 1), muts[n - 1].key, s)
  }

  lemma AmongNext(muts: seq<Mutation>, n: nat, k: Key)
    requires n < |muts|
    ensures Among(muts, n + 1, k) <==> Among(muts, n, k) || muts[n].key == k
  {
    if i: nat :| i < n + 1 && i < |muts| && muts[i].key == k {
      assert i < n || muts[n].key == k;
    }
  }

  /** Prewriting locks exactly the transaction's keys, stores its values, and touches nothing else. */
  lemma {:induction false} Acquired(st: Store, muts: seq<Mutation>, s: Ts, ttl: nat, n: nat)
    requires n <= |muts|
    ensures var a := Acquire(st, muts, s, ttl, n);
      && a.writes == st.writes
      && (forall k: Key :: k in a.locks <==> k in st.locks || Among(muts, n, k))
      && (forall k: Key | k in a.locks :: a.locks[k] == if Among(muts, n, k) then Lock(muts[0].key, s, ttl) else st.locks[k])
      && (forall k: Key, t: Ts :: (k, t) in a.data <==> (k, t) in st.data || (t == s && Among(muts, n, k)))
      && (forall k: Key, t: Ts | (k, t) in a.data && !(t == s && Among(muts, n, k)) :: a.data[(k, t)] == st.data[(k, t)])
  {
    if n > 0 {
      Acquired(st, muts, s, ttl, n - 1);
      forall k: Key ensures Among(muts, n, k) <==> Among(muts, n - 1, k) || muts[n - 1].key == k { AmongNext(muts, n - 1, k); }
    }
  }

  lemma {:induction false} AcquiredValue(st: Store, muts: seq<Mutation>, s: Ts, ttl: nat, n: nat, i: nat)
    requires i < n <= |muts| && Free(st, muts, s, n)
    ensures var a := Acquire(st, muts, s, ttl, n);
      (muts[i].key, s) in a.data && a.data[(muts[i].key, s)] == muts[i].value
  {
    if i < n - 1 {
      AcquiredValue(st, muts, s, ttl, n - 1, i);
      assert muts[i].key != muts[n - 1].key;
    }
  }

  lemma FreeNext(st: Store, muts: seq<Mutation>, s: Ts, n: nat)
    requires n < |muts| && Free(st, muts, s, n)
    ensures Free(st, muts, s, n + 1) <==> Clear(st, muts[n].key, s) && !Among(muts, n, muts[n].key)
  {
  }

  lemma FreeShrinks(st: Store, muts: seq<Mutation>, s: Ts, n: nat)
    requires n <= |muts| && !Free(st, muts, s, n)
    ensures !Free(st, muts, s, |muts|)
  {
  }

  /** The next key is free after some prewrites exactly when it was free before and is not a repetition. */
  lemma NextIsFree(st: Store, muts: seq<Mutation>, s: Ts, ttl: nat, n: nat)
    requires n < |muts|
    ensures Clear(Acquire(st, muts, s, ttl, n), muts[n].key, s) <==>
      Clear(st, muts[n].key, s) && !Among(muts, n, muts[n].key)
  {
    Acquired(st, muts, s, ttl, n);
  }

  ghost predicate Released(a: Store, muts: seq<Mutation>, s: Ts, i: nat, z: Store) {
    && z.writes == a.writes
    && (forall k: Key :: k in z.locks <==> k in a.locks && !Among(muts, i, k))
    && (forall k: Key | k in z.locks :: z.locks[k] == a.locks[k])
    && (forall k: Key, t: Ts :: (k, t) in z.data <==> (k, t) in a.data && !(t == s && Among(muts, i, k)))
    && (forall k: Key, t: Ts | (k, t) in z.data :: z.data[(k, t)] == a.data[(k, t)])
  }

  lemma ReleaseNone(a: Store, muts: seq<Mutation>, s: Ts)
    ensures Released(a, muts, s, 0, a)
  {
  }

  lemma ReleaseOneMore(a: Store, muts: seq<Mutation>, s: Ts, i: nat, m: Mutation, z: Store, y: Store)
    requires i < |muts| && m == muts[i] && Released(a, muts, s, i, z) && Held(a, m.key, s) && !Among(muts, i, m.key)
    requires y == Rollback(z, m.key, s)
    ensures Released(a, muts, s, i + 1, y)
  {
    forall k: Key ensures Among(muts, i + 1, k) <==> Among(muts, i, k) || m.key == k { AmongNext(muts, i, k); }
  }

  lemma {:induction false} ReleaseSoFar(a: Store, muts: seq<Mutation>, s: Ts, n: nat)
    requires n <= |muts| && forall i: nat {:trigger muts[i]} | i < n :: Held(a, muts[i].key, s) && !Among(muts, i, muts[i].key)
    ensures Released(a, muts, s, n, Release(a, muts, s, n))
  {
    if n == 0 {
      ReleaseNone(a, muts, s);
    } else {
      ReleaseSoFar(a, muts, s, n - 1);
      var m := muts[n - 1];
      assert Held(a, m.key, s) && !Among(muts, n - 1, m.key);
      ReleaseOneMore(a, muts, s, n - 1, m, Release(a, muts, s, n - 1), Release(a, muts, s, n));
    }
  }

  /** Undoing one's own prewrites restores locks and commits, and leaves no value at the timestamp. */
  lemma ReleaseUndoes(st: Store, muts: seq<Mutation>, s: Ts, ttl: nat, n: nat)
    requires n <= |muts| && Free(st, muts, s, n)
    ensures Undone(st, muts, s, n, Release(Acquire(st, muts, s, ttl, n), muts, s, n))
  {
    var a := Acquire(st, muts, s, ttl, n);
    Acquired(st, muts, s, ttl, n);
    forall i: nat | i < n ensures Among(muts, n, muts[i].key) {}
    ReleaseSoFar(a, muts, s, n);
    forall k: Key ensures k in st.locks ==> !Among(muts, n, k) {
      if i: nat :| i < n && i < |muts| && muts[i].key == k { assert Clear(st, muts[i].key, s); }
    }
    assert Release(a, muts, s, n).locks == st.locks;
  }

  ghost predicate Undone(st: Store, muts: seq<Mutation>, s: Ts, n: nat, z: Store) {
    && z.writes == st.writes && z.locks == st.locks
    && (forall k: Key, t: Ts :: (k, t) in z.data <==> (k, t) in st.data && !(t == s && Among(muts, n, k)))
    && (forall k: Key, t: Ts | (k, t) in z.data :: z.data[(k, t)] == st.data[(k, t)])
  }

  // ---- the coordinator ---------------------------------------------------------------------------

  class CrossTxn {
    const start: Ts
    const muts: seq<Mutation>

    /** `mutations[0]` is the primary; a transaction without mutations is refused by its creator. */
    constructor (start: Ts, muts: seq<Mutation>)
      requires muts != []
      ensures this.start == start && this.muts == muts
    {
      this.start, this.muts := start, muts;
    }

    /** Prewrite each key in its region, primary first, up to the first conflict. */
    method AcquireKeys(regions: Regions, ttl: nat) returns (n: nat)
      requires regions.Valid()
      modifies regions, regions.engines.Values
      ensures regions.Valid() && n <= |muts| && Free(old(regions.whole), muts, start, n)
      ensures regions.whole == Acquire(old(regions.whole), muts, start, ttl, n)
      ensures n < |muts| ==> !Free(old(regions.whole), muts, start, n + 1)
    {
      ghost var st := regions.whole;
      n := 0;
      while n < |muts|
        invariant n <= |muts| && regions.Valid() && Free(st, muts, start, n)
        invariant regions.whole == Acquire(st, muts, start, ttl, n)
      {
        NextIsFree(st, muts, start, ttl, n);
        FreeNext(st, muts, start, n);
        var ok := regions.PrewriteOne(muts[n].key, muts[n].value, muts[0].key, start, ttl);
        if !ok { return; }
        n := n + 1;
      }
    }

    /** Roll back the acquired locks, each in its region, none that another transaction holds. */
    method DropKeys(regions: Regions, n: nat)
      requires regions.Valid() && n <= |muts|
      modifies regions, regions.engines.Values
      ensures regions.Valid() && regions.whole == Release(old(regions.whole), muts, start, n)
    {
      var i := 0;
      while i < n
        invariant i <= n && regions.Valid() && regions.whole == Release(old(regions.whole), muts, start, i)
      {
        regions.ResolveRollback(muts[i].key, start);
        i := i + 1;
      }
    }

    /** Phase 1. It succeeds exactly when every key is free, and then holds them all; on a conflict it
        leaves locks and commits as they were. */
    method Prewrite(regions: Regions, ttl: nat) returns (ok: bool)
      requires regions.Valid() && muts != []
      modifies regions, regions.engines.Values
      ensures regions.Valid()
      ensures ok <==> Free(old(regions.whole), muts, start, |muts|)
      ensures ok ==> regions.whole == Acquire(old(regions.whole), muts, start, ttl, |muts|)
      ensures !ok ==> exists n: nat | n < |muts| :: Undone(old(regions.whole), muts, start, n, regions.whole)
    {
      var n := AcquireKeys(regions, ttl);
      ok := n == |muts|;
      if !ok {
        FreeShrinks(old(regions.whole), muts, start, n + 1);
        ReleaseUndoes(old(regions.whole), muts, start, ttl, n);
        DropKeys(regions, n);
        assert Undone(old(regions.whole), muts, start, n, regions.whole);
      }
    }

    /** Phase 2a: the primary's record, in the primary's region, decides the transaction. */
    method CommitPrimary(regions: Regions, c: Ts)
      requires regions.Valid() && muts != [] && c <= MAX_TS
      modifies regions, regions.engines.Values
      ensures regions.Valid() && regions.whole == PutWrite(old(regions.whole), muts[0].key, start, c)
    {
      regions.WriteCommit(muts[0].key, start, c);
    }

    /** Phase 2b: roll each secondary forward in its own region. */
    method FinalizeSecondaries(regions: Regions, c: Ts)
      requires regions.Valid() && muts != [] && c <= MAX_TS
      modifies regions, regions.engines.Values
      ensures regions.Valid() && regions.whole == Finalized(old(regions.whole), muts, start, c, |muts|)
    {
      var i := 0;
      while i < |muts|
        invariant i <= |muts| && regions.Valid()
        invariant regions.whole == Finalized(old(regions.whole), muts, start, c, i)
      {
        if muts[i].key != muts[0].key { regions.ResolveCommit(muts[i].key, start, c); }
        i := i + 1;
      }
    }

    method Commit(regions: Regions, c: Ts)
      requires regions.Valid() && muts != [] && c <= MAX_TS
      modifies regions, regions.engines.Values
      ensures regions.Valid()
      ensures regions.whole ==
        Finalized(PutWrite(old(regions.whole), muts[0].key, start, c), muts, start, c, |muts|)
    {
      CommitPrimary(regions, c);
      FinalizeSecondaries(regions, c);
    }
  }

  ghost function Finalized(st: Store, muts: seq<Mutation>, s: Ts, c: Ts, n: nat): Store
    requires n <= |muts|
  {
    if n == 0 then st
    else
      var z := Finalized(st, muts, s, c, n - 1);
      if muts[n - 1].key != muts[0].key then Forward(z, muts[n - 1].key, s, c) else z
  }

  /** How a commit proceeds over a fully prewritten store `a`: keys before `n` carry the record, the
      others keep their locks. */
  ghost predicate Committing(a: Store, muts: seq<Mutation>, s: Ts, c: Ts, n: nat, z: Store) {
    && z.data == a.data
    && (forall k: Key :: k in z.locks <==> k in a.locks && !Among(muts, n, k))
    && (forall k: Key | k in z.locks :: z.locks[k] == a.locks[k])
    && (forall k: Key, d: Ts :: (k, d) in z.writes <==> (k, d) in a.writes || (d == c && Among(muts, n, k)))
    && (forall k: Key, d: Ts | (k, d) in z.writes :: z.writes[(k, d)] == if d == c && Among(muts, n, k) then s else a.writes[(k, d)])
  }

  lemma CommitOneMore(a: Store, muts: seq<Mutation>, s: Ts, c: Ts, n: nat, z: Store)
    requires n < |muts| && Committing(a, muts, s, c, n, z) && Held(a, muts[n].key, s) && !Among(muts, n, muts[n].key)
    ensures Committing(a, muts, s, c, n + 1, PutWrite(z, muts[n].key, s, c))
    ensures Held(z, muts[n].key, s)
  {
    forall k: Key ensures Among(muts, n + 1, k) <==> Among(muts, n, k) || muts[n].key == k { AmongNext(muts, n, k); }
  }

  lemma CommitNone(a: Store, muts: seq<Mutation>, s: Ts, c: Ts)
    ensures Committing(a, muts, s, c, 0, a)
  {
  }

  lemma {:induction false} CommitSoFar(a: Store, muts: seq<Mutation>, s: Ts, c: Ts, n: nat)
    requires 0 < n <= |muts|
    requires forall i: nat {:trigger muts[i]} | i < |muts| :: Held(a, muts[i].key, s) && !Among(muts, i, muts[i].key)
    ensures Committing(a, muts, s, c, n, Finalized(PutWrite(a, muts[0].key, s, c), muts, s, c, n))
  {
    var p := PutWrite(a, muts[0].key, s, c);
    if n == 1 {
      CommitNone(a, muts, s, c);
      CommitOneMore(a, muts, s, c, 0, a);
      assert Finalized(p, muts, s, c, 1) == Finalized(p, muts, s, c, 0);
    } else {
      CommitSoFar(a, muts, s, c, n - 1);
      assert Among(muts, n - 1, muts[0].key);
      CommitOneMore(a, muts, s, c, n - 1, Finalized(p, muts, s, c, n - 1));
    }
  }

  ghost function RunAlone(st: Store, muts: seq<Mutation>, s: Ts, ttl: nat, c: Ts): Store
    requires muts != []
  {
    Finalized(PutWrite(Acquire(st, muts, s, ttl, |muts|), muts[0].key, s, c), muts, s, c, |muts|)
  }

  lemma RanAlone(st: Store, muts: seq<Mutation>, s: Ts, ttl: nat, c: Ts)
    requires muts != [] && Free(st, muts, s, |muts|)
    ensures Committing(Acquire(st, muts, s, ttl, |muts|), muts, s, c, |muts|, RunAlone(st, muts, s, ttl, c))
  {
    var a := Acquire(st, muts, s, ttl, |muts|);
    Acquired(st, muts, s, ttl, |muts|);
    forall i: nat | i < |muts| ensures Among(muts, |muts|, muts[i].key) {}
    CommitSoFar(a, muts, s, c, |muts|);
  }

  /** Prewrite then commit, then read back: each key gives the transaction's value at any snapshot from
      the commit on, and is unlocked. */
  lemma CommitReadsBack(st: Store, muts: seq<Mutation>, s: Ts, ttl: nat, c: Ts, i: nat, ts: Ts)
    requires Free(st, muts, s, |muts|) && s < c <= ts && i < |muts|
    ensures var z := RunAlone(st, muts, s, ttl, c);
      Lookup(z, muts[i].key, ts) == muts[i].value && muts[i].key !in z.locks
  {
    var z := RunAlone(st, muts, s, ttl, c);
    var k := muts[i].key;
    RanAlone(st, muts, s, ttl, c);
    Acquired(st, muts, s, ttl, |muts|);
    AcquiredValue(st, muts, s, ttl, |muts|, i);
    assert Among(muts, |muts|, k) && Clear(st, k, s);
    assert (k, c) in z.writes && z.writes[(k, c)] == s;
    assert Newest(z.writes, k, ts) == Some(c);
  }

  /** And every snapshot before the commit reads as it did. */
  lemma CommitKeepsThePast(st: Store, muts: seq<Mutation>, s: Ts, ttl: nat, c: Ts, k: Key, ts: Ts)
    requires muts != [] && Free(st, muts, s, |muts|) && ts < c
    requires forall x: Key, d: Ts | (x, d) in st.writes :: st.writes[(x, d)] != s
    ensures Lookup(RunAlone(st, muts, s, ttl, c), k, ts) == Lookup(st, k, ts)
  {
    RanAlone(st, muts, s, ttl, c);
    Acquired(st, muts, s, ttl, |muts|);
    NewestSame(st.writes, RunAlone(st, muts, s, ttl, c).writes, k, ts);
  }

  // ---- the reader ------------------------------------------------------------------------------------

  /** One round of `cross_get`'s loop: ask the primary's region, then resolve the key in its own. */
  method ResolveOnce(regions: Regions, key: Key, ts: Ts, lock: Lock, ghost g: Core) returns (resolved: bool, ghost h: Core)
    requires regions.Valid() && CoreOk(g) && Fits(g) && g.store == regions.whole && ts < g.clock
    requires key in g.store.locks && lock == g.store.locks[key]
    modifies regions, regions.engines.Values
    ensures regions.Valid() && h.store == regions.whole && CoreOk(h) && SameHistory(g, h)
    ensures resolved ==> Sealed(h, key, ts) && key !in regions.whole.locks
    ensures resolved <==> !Undecided(old(regions.whole), lock, ts)
  {
    ghost var r, before := Reader(key, ts, Cross, Asking(0, lock)), regions.whole;
    LockedLookSeals(g, key, ts);
    assert LockOk(g, key);
    var f := regions.CheckTxnStatus(lock.primary, lock.start, ts);
    if f.Pending? { return false, g; }
    DecidedIsRight(g, r, lock, f, regions.whole);
    ghost var after := regions.whole;
    h := Undo(g, lock.primary, lock.start);
    ResolveStep(h, r, lock, f.status);
    match f.status {
      case CommittedAt(c) =>
        VerdictFits(h, lock, f.status);
        regions.ResolveCommit(key, lock.start, c);
      case RolledBack => regions.ResolveRollback(key, lock.start);
    }
    ResolvedFree(before, key, lock, ts, f, after, regions.whole);
    h := Resolve(h, key, lock.start, f.status);
    resolved := true;
  }

  /** `cross_get`: over region stores that the protocol `g` reached, the answer is the snapshot `g` defines. */
  method CrossGet(regions: Regions, key: Key, ts: Ts, ghost g: Core) returns (a: Answer, ghost h: Core)
    requires regions.Valid() && CoreOk(g) && Fits(g) && g.store == regions.whole && ts < g.clock
    modifies regions, regions.engines.Values
    ensures regions.Valid() && h.store == regions.whole && CoreOk(h) && SameHistory(g, h)
    ensures a.Value? ==> Shows(g, key, ts, a.value)
    ensures a.KeyIsLocked? <==> Blocked(old(regions.whole), key, ts)
  {
    h := g;
    var n := 0;
    while n < MAX_TRIES
      invariant n <= MAX_TRIES && regions.Valid() && h.store == regions.whole && CoreOk(h) && SameHistory(g, h)
      invariant n > 0 ==> key !in regions.whole.locks && !Blocked(old(regions.whole), key, ts)
      invariant n == 0 ==> regions.whole == old(regions.whole)
    {
      var lock := regions.LockOn(key);
      if lock.None? || lock.value.start > ts { break; }
      var resolved;
      resolved, h := ResolveOnce(regions, key, ts, lock.value, h);
      if !resolved { return KeyIsLocked, h; }
      n := n + 1;
    }
    a := regions.GetUnresolved(key, ts);
    if a.Value? {
      CleanLookSeals(h, key, ts);
      SealedShows(h, key, ts);
      ShowsSame(g, h, key, ts, a.value);
    }
  }
}
