/** The transaction theorems, over every run. */
module PercolatorRuns {
  import opened Basics
  import opened Percolator
  import opened PercolatorInv
  import opened PercolatorSteps
  import opened PercolatorReads

  ghost predicate SysOk(y: Sys) {
    CoreOk(y.core) && forall r: nat {:trigger y.readers[r]} | r in y.readers :: ReaderOk(y.core, y.readers[r])
  }

  lemma StartOk()
    ensures SysOk(START)
  {
  }

  lemma CoreStep(y: Sys, a: Action)
    requires SysOk(y) && Enabled(y, a) && !a.StartRead? && !a.ReaderStep?
    ensures CoreOk(Do(y, a).core) && Grows(y.core, Do(y, a).core)
  {
    var g := y.core;
    match a
    case StartTxn(muts, ttl) => BeginStep(g, muts, ttl);
    case PrewriteOne(s) => PrewriteStep(g, s);
    case RollbackOwn(s, i) =>
      assert TxnOk(g, s);
      UndoStep(g, g.txns[s].muts[i].key, s);
    case TakeCommitTs(s) => DrawStep(g, s);
    case Commit(s) => CommitStep(g, s);
    case Finalize(s, i) => ForwardStep(g, g.txns[s].muts[i].key, s, g.txns[s].phase.commit);
  }

  lemma Step(y: Sys, a: Action)
    requires SysOk(y) && Enabled(y, a)
    ensures SysOk(Do(y, a)) && Grows(y.core, Do(y, a).core)
  {
    var z := Do(y, a);
    match a {
      case StartRead(_, _, _, _) => GrowsRefl(y.core);
      case ReaderStep(r, now) => ReadStepOk(y.core, y.readers[r], now);
      case _ => CoreStep(y, a);
    }
    forall r: nat | r in z.readers ensures ReaderOk(z.core, z.readers[r]) {
      if r in y.readers && z.readers[r] == y.readers[r] { ReaderStable(y.core, z.core, y.readers[r]); }
    }
  }

  lemma {:induction false} RunOk(st: seq<Sys>, i: nat)
    requires Run(st) && i < |st|
    ensures SysOk(st[i])
  {
    if i == 0 {
      StartOk();
    } else {
      RunOk(st, i - 1);
      MoveOk(st[i - 1], st[i]);
    }
  }

  lemma MoveOk(y: Sys, z: Sys)
    requires SysOk(y) && Moves(y, z)
    ensures SysOk(z) && Grows(y.core, z.core)
  {
    var a: Action :| Enabled(y, a) && z == Do(y, a);
    Step(y, a);
  }

  // ---- atomicity -----------------------------------------------------------------------

  /** A write record of a transaction says the whole transaction is in: no key of it was ever rolled
      back, the primary's record carries the same commit timestamp, and the value written is there. */
  ghost predicate Atomic(g: Core, k: Key, c: Ts) {
    (k, c) in g.store.writes ==>
      var s := g.store.writes[(k, c)];
      && s in g.txns && g.txns[s].muts != []
      && Recorded(g.store, Primary(g.txns[s]), s, c)
      && (forall x: Key :: (x, s) !in g.undone)
      && exists m: Mutation :: m in g.txns[s].muts && m.key == k && (k, s) in g.store.data && g.store.data[(k, s)] == m.value
  }

  lemma AtomicHere(g: Core, k: Key, c: Ts)
    requires CoreOk(g)
    ensures Atomic(g, k, c)
  {
    if (k, c) in g.store.writes {
      var s := g.store.writes[(k, c)];
      assert WriteOk(g, k, c);
      assert TxnOk(g, s);
      var i: nat :| Carries(g, k, s, i);
      assert g.txns[s].muts[i] in g.txns[s].muts;
      forall x: Key ensures (x, s) !in g.undone { assert UndoneOk(g, x, s); }
      assert KeyOk(g, s, 0);
      assert LockOk(g, Primary(g.txns[s]));
    }
  }

  /** Atomicity, in every run. */
  lemma Atomicity(st: seq<Sys>, i: nat, k: Key, c: Ts)
    requires Run(st) && i < |st|
    ensures Atomic(st[i].core, k, c)
  {
    RunOk(st, i);
    AtomicHere(st[i].core, k, c);
  }

  /** Records and rollbacks are history: a later state still shows them. */
  lemma {:induction false} HistoryStays(st: seq<Sys>, i: nat, j: nat, k: Key, c: Ts)
    requires Run(st) && i <= j < |st|
    ensures st[i].core.undone <= st[j].core.undone
    ensures (k, c) in st[i].core.store.writes ==>
      (k, c) in st[j].core.store.writes && st[j].core.store.writes[(k, c)] == st[i].core.store.writes[(k, c)]
    decreases j - i
  {
    if i < j {
      HistoryStays(st, i, j - 1, k, c);
      RunOk(st, j - 1);
      MoveOk(st[j - 1], st[j]);
      GrowsKeeps(st[j - 1].core, st[j].core, k, c);
    }
  }

  lemma GrowsKeeps(g: Core, h: Core, k: Key, c: Ts)
    requires Grows(g, h)
    ensures g.undone <= h.undone
    ensures (k, c) in g.store.writes ==> (k, c) in h.store.writes && h.store.writes[(k, c)] == g.store.writes[(k, c)]
  {
    assert WriteGrows(g, h, k, c);
  }

  /** No transaction has one key committed and another rolled back, however far apart in the run. */
  lemma AllOrNothing(st: seq<Sys>, i: nat, j: nat, k: Key, c: Ts, x: Key, s: Ts)
    requires Run(st) && i < |st| && j < |st|
    requires Recorded(st[i].core.store, k, s, c)
    ensures (x, s) !in st[j].core.undone
  {
    var m := if i <= j then j else i;
    HistoryStays(st, i, m, k, c);
    HistoryStays(st, j, m, k, c);
    Atomicity(st, m, k, c);
  }

  // ---- isolation -------------------------------------------------------------------------

  /** `s` committed a write to `k` at `c`. */
  ghost predicate Wrote(g: Core, s: Ts, k: Key, c: Ts) {
    s in g.txns && g.txns[s].phase == Committed(c) && Touches(g.txns[s], k)
  }

  /** A committed write is in place, or waits behind its own lock. */
  lemma WroteShows(g: Core, s: Ts, k: Key, c: Ts)
    requires CoreOk(g) && Wrote(g, s, k, c)
    ensures s < c && (Held(g.store, k, s) || Recorded(g.store, k, s, c))
  {
    var i: nat :| i < |g.txns[s].muts| && At(g.txns[s], i, k);
    assert TxnOk(g, s);
    assert KeyOk(g, s, i);
    assert UndoneOk(g, k, s);
  }

  /** First committer wins: two transactions that commit to one key do not overlap in time. */
  lemma FirstCommitterWins(st: seq<Sys>, i: nat, k: Key, s: Ts, c: Ts, u: Ts, d: Ts)
    requires Run(st) && i < |st| && s != u
    requires Wrote(st[i].core, s, k, c) && Wrote(st[i].core, u, k, d)
    ensures s < c && u < d && (c < u || d < s)
  {
    RunOk(st, i);
    var g := st[i].core;
    WroteShows(g, s, k, c);
    WroteShows(g, u, k, d);
    assert LockOk(g, k);
    assert OrderOk(g, k, c, d);
    assert OrderOk(g, k, d, c);
  }

  /** What a snapshot at `ts` should show: the value of the last transaction to commit at or below it
      that wrote `k`, whether or not its lock on `k` has been cleaned up. */
  ghost predicate Latest(g: Core, k: Key, ts: Ts, s: Ts, c: Ts) {
    c <= ts && Wrote(g, s, k, c) && forall u: Ts, d: Ts :: Wrote(g, u, k, d) && d <= ts ==> d <= c
  }

  ghost predicate Shows(g: Core, k: Key, ts: Ts, v: Value) {
    || (v == None && forall u: Ts, d: Ts :: Wrote(g, u, k, d) ==> d > ts)
    || exists s: Ts, c: Ts :: Latest(g, k, ts, s, c) && Mutation(k, v) in g.txns[s].muts
  }

  lemma SealedWrites(g: Core, k: Key, ts: Ts, u: Ts, d: Ts)
    requires Sealed(g, k, ts) && Wrote(g, u, k, d) && d <= ts
    ensures (k, d) in g.store.writes
  {
    assert SealedBy(g, k, ts, u);
  }

  lemma SealedShows(g: Core, k: Key, ts: Ts)
    requires CoreOk(g) && Sealed(g, k, ts)
    ensures Shows(g, k, ts, Lookup(g.store, k, ts))
  {
    forall u: Ts, d: Ts | Wrote(g, u, k, d) && d <= ts ensures (k, d) in g.store.writes { SealedWrites(g, k, ts, u, d); }
    match Newest(g.store.writes, k, ts)
    case None =>
    case Some(c) =>
      var s := g.store.writes[(k, c)];
      assert WriteOk(g, k, c);
      var i: nat :| Carries(g, k, s, i);
      assert Latest(g, k, ts, s, c);
      assert g.txns[s].muts[i] == Mutation(k, Lookup(g.store, k, ts));
  }

  lemma ShowsOnce(g: Core, k: Key, ts: Ts, v: Value, w: Value)
    requires CoreOk(g) && Shows(g, k, ts, v) && Shows(g, k, ts, w)
    ensures v == w
  {
    if s: Ts, c: Ts :| Latest(g, k, ts, s, c) && Mutation(k, v) in g.txns[s].muts {
      var u: Ts, d: Ts :| Latest(g, k, ts, u, d) && Mutation(k, w) in g.txns[u].muts;
      assert CommitsDiffer(g, s, u);
      var i: nat :| i < |g.txns[s].muts| && g.txns[s].muts[i] == Mutation(k, v);
      var j: nat :| j < |g.txns[s].muts| && g.txns[s].muts[j] == Mutation(k, w);
      assert KeysDiffer(g, s, i, j);
      assert KeysDiffer(g, s, j, i);
    }
  }

  /** An answer stays with its reader. */
  lemma {:induction false} AnswerStays(st: seq<Sys>, i: nat, j: nat, r: nat)
    requires Run(st) && i <= j < |st| && r in st[i].readers && st[i].readers[r].pc.Answered?
    ensures r in st[j].readers && st[j].readers[r] == st[i].readers[r]
    decreases j - i
  {
    if i < j {
      AnswerStays(st, i, j - 1, r);
      assert Moves(st[j - 1], st[j - 1 + 1]);
    }
  }

  /** Every answer is the snapshot: it misses no write committed at or below its timestamp, not when it
      is given and not in any later state of the run. */
  lemma SnapshotRead(st: seq<Sys>, i: nat, j: nat, r: nat)
    requires Run(st) && i <= j < |st| && r in st[i].readers && st[i].readers[r].pc.Answered?
    ensures Shows(st[j].core, st[i].readers[r].key, st[i].readers[r].ts, st[i].readers[r].pc.value)
  {
    AnswerStays(st, i, j, r);
    RunOk(st, j);
    SealedShows(st[j].core, st[i].readers[r].key, st[i].readers[r].ts);
  }

  /** Reads of one key at one timestamp agree, whenever in the run and by whichever path they are made. */
  lemma SnapshotStability(st: seq<Sys>, i: nat, j: nat, q: nat, r: nat)
    requires Run(st) && i < |st| && j < |st|
    requires q in st[i].readers && r in st[j].readers && st[i].readers[q].pc.Answered? && st[j].readers[r].pc.Answered?
    requires st[i].readers[q].key == st[j].readers[r].key && st[i].readers[q].ts == st[j].readers[r].ts
    ensures st[i].readers[q].pc.value == st[j].readers[r].pc.value
  {
    var m := if i <= j then j else i;
    SnapshotRead(st, i, m, q);
    SnapshotRead(st, j, m, r);
    RunOk(st, m);
    ShowsOnce(st[m].core, st[i].readers[q].key, st[i].readers[q].ts, st[i].readers[q].pc.value, st[j].readers[r].pc.value);
  }

  /** No fractured reads: of a transaction committed at or below the snapshot, every key read at that
      snapshot shows its write or a later one. */
  lemma NoFracturedRead(st: seq<Sys>, i: nat, j: nat, r: nat, s: Ts, c: Ts)
    requires Run(st) && i <= j < |st| && r in st[i].readers && st[i].readers[r].pc.Answered?
    requires Wrote(st[j].core, s, st[i].readers[r].key, c) && c <= st[i].readers[r].ts
    ensures exists u: Ts, d: Ts ::
      && Latest(st[j].core, st[i].readers[r].key, st[i].readers[r].ts, u, d) && c <= d
      && Mutation(st[i].readers[r].key, st[i].readers[r].pc.value) in st[j].core.txns[u].muts
  {
    SnapshotRead(st, i, j, r);
  }
}
