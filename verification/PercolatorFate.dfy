/** The coordinator of the protocol, step by step: left alone it does what the code's loops do, and commits exactly when its
    keys are free; once it has met a conflict it never commits, in any run. */
module PercolatorFate {
  import opened Percolator
  import opened PercolatorInv
  import opened PercolatorRuns
  import opened PercolatorCross

  // ---- alone ----------------------------------------------------------------------------------

  /** The next `n` prewrites of transaction `s`, as far as it makes any. */
  ghost function Prewrites(g: Core, s: Ts, n: nat): Core {
    if n == 0 then g
    else var h := Prewrites(g, s, n - 1); if MayPrewrite(h, s) then PrewriteNext(h, s) else h
  }

  ghost predicate IsTxn(g: Core, s: Ts, muts: seq<Mutation>, ttl: nat, phase: Phase) {
    s in g.txns && g.txns[s] == Txn(muts, ttl, phase)
  }

  /** As long as the keys are free the protocol's prewrites are the coordinator's. */
  lemma {:induction false} AcquiresAll(g: Core, muts: seq<Mutation>, ttl: nat, n: nat)
    requires WellFormed(muts) && n <= |muts| && Free(g.store, muts, g.clock, n)
    ensures var h := Prewrites(Begin(g, muts, ttl), g.clock, n);
      && h.store == Acquire(g.store, muts, g.clock, ttl, n) && IsTxn(h, g.clock, muts, ttl, Prewriting(n))
      && h.clock == g.clock + 1 && h.undone == g.undone
  {
    if n > 0 {
      AcquiresAll(g, muts, ttl, n - 1);
      NextIsFree(g.store, muts, g.clock, ttl, n - 1);
      FreeNext(g.store, muts, g.clock, n - 1);
    }
  }

  /** The first key that is not free ends it: nothing more is acquired, and what was is to be undone. */
  lemma ConflictStops(g: Core, muts: seq<Mutation>, ttl: nat, n: nat)
    requires WellFormed(muts) && n < |muts| && Free(g.store, muts, g.clock, n) && !Free(g.store, muts, g.clock, n + 1)
    ensures var h := Prewrites(Begin(g, muts, ttl), g.clock, n + 1);
      h.store == Acquire(g.store, muts, g.clock, ttl, n) && IsTxn(h, g.clock, muts, ttl, Aborting(n))
  {
    AcquiresAll(g, muts, ttl, n);
    NextIsFree(g.store, muts, g.clock, ttl, n);
    FreeNext(g.store, muts, g.clock, n);
  }

  /** Rolling forward the first `n` keys but the primary. */
  ghost function Finalizes(g: Core, s: Ts, muts: seq<Mutation>, c: Ts, n: nat): Core
    requires n <= |muts|
  {
    if n == 0 then g
    else
      var h := Finalizes(g, s, muts, c, n - 1);
      if muts[n - 1].key != muts[0].key then RollForward(h, muts[n - 1].key, s, c) else h
  }

  lemma {:induction false} FinalizesAll(g: Core, s: Ts, muts: seq<Mutation>, c: Ts, n: nat)
    requires n <= |muts|
    ensures var h := Finalizes(g, s, muts, c, n);
      h.store == Finalized(g.store, muts, s, c, n) && h.txns == g.txns && h.clock == g.clock
  {
    if n > 0 { FinalizesAll(g, s, muts, c, n - 1); }
  }

  /** Everything acquired, the transaction may draw its timestamp and commit under its primary's lock. */
  lemma MayCommit(g: Core, muts: seq<Mutation>, ttl: nat, h: Core, s: Ts)
    requires WellFormed(muts) && h.store == Acquire(g.store, muts, s, ttl, |muts|) && IsTxn(h, s, muts, ttl, Prewriting(|muts|))
    ensures MayDraw(h, s) && IsReady(DrawCommit(h, s), s) && Held(DrawCommit(h, s).store, muts[0].key, s)
  {
    Acquired(g.store, muts, s, ttl, |muts|);
    assert Among(muts, |muts|, muts[0].key);
  }

  lemma Commits(h: Core, muts: seq<Mutation>, ttl: nat, s: Ts, e: Core)
    requires muts != [] && IsTxn(h, s, muts, ttl, Prewriting(|muts|)) && e == CommitPrimary(DrawCommit(h, s), s)
    ensures IsTxn(e, s, muts, ttl, Committed(h.clock)) && e.store == PutWrite(h.store, muts[0].key, s, h.clock)
  {
  }

  /** A transaction on free keys, left alone: it draws the next timestamp, commits at it, and every key reads back. */
  lemma CommitsAlone(g: Core, muts: seq<Mutation>, ttl: nat, h: Core, s: Ts, c: Ts) returns (z: Core)
    requires WellFormed(muts) && Free(g.store, muts, s, |muts|) && s == g.clock && c == s + 1
    requires h == Prewrites(Begin(g, muts, ttl), s, |muts|)
    ensures MayDraw(h, s) && IsReady(DrawCommit(h, s), s) && Held(DrawCommit(h, s).store, muts[0].key, s)
    ensures z == Finalizes(CommitPrimary(DrawCommit(h, s), s), s, muts, c, |muts|)
    ensures IsTxn(z, s, muts, ttl, Committed(c)) && z.store == RunAlone(g.store, muts, s, ttl, c)
    ensures forall i: nat, ts: Ts | i < |muts| && c <= ts :: Lookup(z.store, muts[i].key, ts) == muts[i].value && muts[i].key !in z.store.locks
  {
    AcquiresAll(g, muts, ttl, |muts|);
    MayCommit(g, muts, ttl, h, s);
    var e := CommitPrimary(DrawCommit(h, s), s);
    Commits(h, muts, ttl, s, e);
    FinalizesAll(e, s, muts, c, |muts|);
    z := Finalizes(e, s, muts, c, |muts|);
    AllReadBack(g.store, muts, s, ttl, c, z.store);
  }

  lemma AllReadBack(st: Store, muts: seq<Mutation>, s: Ts, ttl: nat, c: Ts, z: Store)
    requires muts != [] && Free(st, muts, s, |muts|) && s < c && z == RunAlone(st, muts, s, ttl, c)
    ensures forall i: nat, ts: Ts | i < |muts| && c <= ts :: Lookup(z, muts[i].key, ts) == muts[i].value && muts[i].key !in z.locks
  {
    forall i: nat, ts: Ts | i < |muts| && c <= ts ensures Lookup(z, muts[i].key, ts) == muts[i].value && muts[i].key !in z.locks {
      CommitReadsBack(st, muts, s, ttl, c, i, ts);
    }
  }

  // ---- over runs --------------------------------------------------------------------------------

  lemma AbortStays(y: Sys, a: Action, s: Ts)
    requires SysOk(y) && Enabled(y, a) && s in y.core.txns && y.core.txns[s].phase.Aborting?
    ensures s in Do(y, a).core.txns && Do(y, a).core.txns[s].phase.Aborting?
  {
    assert TxnOk(y.core, s);
  }

  lemma AbortMoves(y: Sys, z: Sys, s: Ts)
    requires SysOk(y) && Moves(y, z) && s in y.core.txns && y.core.txns[s].phase.Aborting?
    ensures s in z.core.txns && z.core.txns[s].phase.Aborting?
  {
    var a: Action :| Enabled(y, a) && z == Do(y, a);
    AbortStays(y, a, s);
  }

  lemma {:induction false} AbortedForGood(st: seq<Sys>, i: nat, j: nat, s: Ts)
    requires Run(st) && i <= j < |st| && s in st[i].core.txns && st[i].core.txns[s].phase.Aborting?
    ensures s in st[j].core.txns && st[j].core.txns[s].phase.Aborting?
    decreases j
  {
    if i < j {
      AbortedForGood(st, i, j - 1, s);
      RunOk(st, j - 1);
      AbortMoves(st[j - 1], st[j], s);
    }
  }

  /** In any run, a transaction that meets a conflict has no commit record, then or later. */
  lemma ConflictNeverCommits(st: seq<Sys>, i: nat, j: nat, s: Ts, k: Key, c: Ts)
    requires Run(st) && i < j < |st| && Enabled(st[i], PrewriteOne(s)) && st[i + 1] == Do(st[i], PrewriteOne(s))
    requires var t := st[i].core.txns[s]; !Clear(st[i].core.store, t.muts[t.phase.done].key, s)
    ensures !Recorded(st[j].core.store, k, s, c)
  {
    AbortedForGood(st, i + 1, j, s);
    RunOk(st, j);
    assert WriteOk(st[j].core, k, c);
  }
}
