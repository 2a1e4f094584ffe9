/** Where the transaction code relies on timing: `commit_primary` writes without looking at the lock, and
    the engine's status check reports a rollback without looking again. Each is exactly as safe as the
    condition below, which a reader of the store can test, and a run shows that each does fail. */
module PercolatorLate {
  import opened Basics
  import opened Percolator
  import opened PercolatorInv
  import opened PercolatorSteps
  import opened PercolatorRuns

  ghost predicate AtomicEverywhere(g: Core) { forall k: Key, c: Ts {:trigger Atomic(g, k, c)} :: Atomic(g, k, c) }

  lemma OkIsAtomic(g: Core)
    requires CoreOk(g)
    ensures AtomicEverywhere(g)
  {
    forall k: Key, c: Ts ensures Atomic(g, k, c) { AtomicHere(g, k, c); }
  }

  /** An unconditional `commit_primary` keeps atomicity exactly when the primary is still locked. */
  lemma CommitNeedsLock(g: Core, s: Ts)
    requires CoreOk(g) && IsReady(g, s)
    ensures AtomicEverywhere(CommitPrimary(g, s)) <==> Held(g.store, Primary(g.txns[s]), s)
  {
    var h := CommitPrimary(g, s);
    if Held(g.store, Primary(g.txns[s]), s) {
      CommitStep(g, s);
      OkIsAtomic(h);
    } else {
      assert KeyOk(g, s, 0);
      var c := g.txns[s].phase.commit;
      assert (Primary(g.txns[s]), c) in h.store.writes;
      assert !Atomic(h, Primary(g.txns[s]), c);
    }
  }

  /** The primary has a commit record of the transaction: what a second look at it would find. */
  ghost predicate CommitSeen(g: Core, s: Ts)
    requires s in g.txns && g.txns[s].muts != []
  {
    exists c: Ts :: Recorded(g.store, Primary(g.txns[s]), s, c)
  }

  lemma CommitSeenIff(g: Core, s: Ts)
    requires CoreOk(g) && s in g.txns && g.txns[s].muts != []
    ensures CommitSeen(g, s) <==> g.txns[s].phase.Committed?
  {
    var p := Primary(g.txns[s]);
    assert TxnOk(g, s);
    if CommitSeen(g, s) {
      var c: Ts :| Recorded(g.store, p, s, c);
      assert WriteOk(g, p, c);
    }
    if g.txns[s].phase.Committed? {
      assert KeyOk(g, s, 0) && LockOk(g, p) && UndoneOk(g, p, s);
      assert Recorded(g.store, p, s, g.txns[s].phase.commit);
    }
  }

  /** A status check that saw an expired lock, then rolls the primary back and reports a rollback: the
      reader may roll its key back on that report exactly when the primary has no commit record. */
  lemma BlindReport(g: Core, s: Ts, k: Key)
    requires CoreOk(g) && s in g.txns && g.txns[s].muts != [] && Held(g.store, k, s) && k != Primary(g.txns[s])
    ensures AtomicEverywhere(Undo(Undo(g, Primary(g.txns[s]), s), k, s)) <==> !CommitSeen(g, s)
  {
    var p := Primary(g.txns[s]);
    var h := Undo(g, p, s);
    CommitSeenIff(g, s);
    assert LockOk(g, k);
    assert LockOk(g, p);
    assert TxnOk(g, s);
    if g.txns[s].phase.Committed? {
      var c := g.txns[s].phase.commit;
      assert KeyOk(g, s, 0);
      assert UndoneOk(g, p, s);
      assert !Atomic(Undo(h, k, s), p, c);
    } else {
      UndoStep(g, p, s);
      UndoStep(h, k, s);
      OkIsAtomic(Undo(h, k, s));
    }
  }

  // ---- a run to begin with: two keys prewritten with no time to live, a commit timestamp drawn -------

  const K: Key := [7]
  const L: Key := [8]
  const BOTH: seq<Mutation> := [Mutation(K, Some([1])), Mutation(L, Some([2]))]

  function Last(st: seq<Sys>): Sys
    requires st != []
  {
    st[|st| - 1]
  }

  lemma Then(st: seq<Sys>, a: Action) returns (longer: seq<Sys>)
    requires Run(st) && Enabled(Last(st), a)
    ensures Run(longer) && |longer| == |st| + 1 && st < longer && Last(longer) == Do(Last(st), a)
  {
    longer := st + [Do(Last(st), a)];
    forall i | 0 <= i < |longer| - 1 ensures Moves(longer[i], longer[i + 1]) {
      assert i < |st| - 1 ==> Moves(st[i], st[i + 1]);
    }
  }

  /** The transaction that started at 1, in the given phase, holds both keys, and no one reads. */
  ghost predicate Holding(y: Sys, clock: Ts, phase: Phase) {
    && y.core.clock == clock && y.core.txns == map[1 := Txn(BOTH, 0, phase)] && y.readers == map[]
    && y.core.store.locks == map[K := Lock(K, 1, 0), L := Lock(K, 1, 0)]
  }

  lemma First(y: Sys)
    requires y == Do(START, StartTxn(BOTH, 0))
    ensures Enabled(y, PrewriteOne(1))
    ensures var z := Do(y, PrewriteOne(1));
      && z.core.clock == 2 && z.core.txns == map[1 := Txn(BOTH, 0, Prewriting(1))] && z.readers == map[]
      && z.core.store.locks == map[K := Lock(K, 1, 0)] && z.core.store.writes == map[]
  {
    assert y.core.txns == map[1 := Txn(BOTH, 0, Prewriting(0))];
    assert Clear(y.core.store, K, 1);
  }

  lemma Second(y: Sys)
    requires y.core.clock == 2 && y.core.txns == map[1 := Txn(BOTH, 0, Prewriting(1))] && y.readers == map[]
    requires y.core.store.locks == map[K := Lock(K, 1, 0)] && y.core.store.writes == map[]
    ensures Enabled(y, PrewriteOne(1)) && Holding(Do(y, PrewriteOne(1)), 2, Prewriting(2))
  {
    assert Clear(y.core.store, L, 1);
  }

  lemma Draws(y: Sys)
    requires Holding(y, 2, Prewriting(2))
    ensures Enabled(y, TakeCommitTs(1)) && Holding(Do(y, TakeCommitTs(1)), 3, Ready(2))
  {
  }

  lemma Prepared() returns (st: seq<Sys>)
    ensures Run(st) && |st| == 5 && Holding(Last(st), 3, Ready(2))
  {
    st := Then([START], StartTxn(BOTH, 0));
    First(Last(st));
    st := Then(st, PrewriteOne(1));
    Second(Last(st));
    st := Then(st, PrewriteOne(1));
    Draws(Last(st));
    st := Then(st, TakeCommitTs(1));
  }

  /** The reader has come on a lock whose primary lock is there and expired: the check will roll it back. */
  ghost predicate SawExpired(y: Sys, r: nat) {
    && r in y.readers && y.readers[r].mode == Local && y.readers[r].pc.Asking?
    && var l := y.readers[r].pc.lock;
    && Held(y.core.store, l.primary, l.start) && y.readers[r].ts > y.core.store.locks[l.primary].ttl
  }

  lemma Looks(y: Sys)
    requires Holding(y, 3, Ready(2))
    ensures Enabled(y, StartRead(0, L, 2, Local))
    ensures var z := Do(y, StartRead(0, L, 2, Local));
      && Enabled(z, ReaderStep(0, 0)) && Do(z, ReaderStep(0, 0)).core == y.core
      && Do(z, ReaderStep(0, 0)).readers == map[0 := Reader(L, 2, Local, Asking(0, Lock(K, 1, 0)))]
  {
    assert Do(y, StartRead(0, L, 2, Local)).readers == map[0 := Reader(L, 2, Local, Looking(0))];
  }

  lemma Looked() returns (st: seq<Sys>, y: Sys)
    ensures Run(st) && |st| == 7 && Holding(y, 3, Ready(2)) && Last(st).core == y.core
    ensures Last(st).readers == map[0 := Reader(L, 2, Local, Asking(0, Lock(K, 1, 0)))]
  {
    st := Prepared();
    y := Last(st);
    Looks(y);
    st := Then(st, StartRead(0, L, 2, Local));
    st := Then(st, ReaderStep(0, 0));
  }

  // ---- the coordinator comes too late --------------------------------------------------------------

  ghost predicate TooLate(st: seq<Sys>, s: Ts) {
    Run(st) && IsReady(Last(st).core, s) && !AtomicEverywhere(CommitPrimary(Last(st).core, s))
  }

  lemma EndsLate(st: seq<Sys>, s: Ts, g: Core)
    requires Run(st) && g == Last(st).core && IsReady(g, s) && !Held(g.store, Primary(g.txns[s]), s)
    ensures TooLate(st, s)
  {
    RunOk(st, |st| - 1);
    CommitNeedsLock(g, s);
  }

  lemma Expires(y: Sys, g: Core)
    requires g.txns == map[1 := Txn(BOTH, 0, Ready(2))] && g.store.locks == map[K := Lock(K, 1, 0), L := Lock(K, 1, 0)]
    requires y.core == g && y.readers == map[0 := Reader(L, 2, Local, Asking(0, Lock(K, 1, 0)))]
    ensures Enabled(y, ReaderStep(0, 0))
    ensures var h := Do(y, ReaderStep(0, 0)).core; IsReady(h, 1) && !Held(h.store, Primary(h.txns[1]), 1)
  {
    assert Do(y, ReaderStep(0, 0)).core == Undo(g, K, 1);
  }

  /** A reader past the TTL kills the transaction while its coordinator holds a commit timestamp; the
      commit it then makes leaves a record next to a rollback. */
  lemma LateCommit()
    ensures exists st: seq<Sys> :: TooLate(st, 1)
  {
    var st, y := Looked();
    Expires(Last(st), y.core);
    st := Then(st, ReaderStep(0, 0));
    EndsLate(st, 1, Last(st).core);
  }

  // ---- the commit comes between the look and the rollback ----------------------------------------------

  /** Reader `r` saw the primary expired at `i`; by the end, rolling back on that sight breaks atomicity. */
  ghost predicate RolledBackBlindly(st: seq<Sys>, i: nat, r: nat) {
    && Run(st) && i < |st| && SawExpired(st[i], r)
    && var l, k, g := st[i].readers[r].pc.lock, st[i].readers[r].key, Last(st).core;
    !AtomicEverywhere(Undo(Undo(g, l.primary, l.start), k, l.start))
  }

  lemma EndsBlind(st: seq<Sys>, i: nat, r: nat, l: Lock, g: Core)
    requires Run(st) && i < |st| && SawExpired(st[i], r) && l == st[i].readers[r].pc.lock && g == Last(st).core
    requires l.start in g.txns && g.txns[l.start].muts != [] && g.txns[l.start].phase.Committed?
    requires l.primary == Primary(g.txns[l.start]) != st[i].readers[r].key && Held(g.store, st[i].readers[r].key, l.start)
    ensures RolledBackBlindly(st, i, r)
  {
    RunOk(st, |st| - 1);
    CommitSeenIff(g, l.start);
    BlindReport(g, l.start, st[i].readers[r].key);
  }

  lemma Commits(y: Sys, g: Core)
    requires g.txns == map[1 := Txn(BOTH, 0, Ready(2))] && g.store.locks == map[K := Lock(K, 1, 0), L := Lock(K, 1, 0)] && y.core == g
    ensures Enabled(y, Commit(1))
    ensures var h := Do(y, Commit(1)).core; 1 in h.txns && h.txns[1] == Txn(BOTH, 0, Committed(2)) && Held(h.store, L, 1)
  {
  }

  /** The coordinator commits between the look and the rollback: the rollback of the primary does nothing, and the
      report sends the reader to roll a committed key back. */
  lemma BlindRollback()
    ensures exists st: seq<Sys> :: RolledBackBlindly(st, 6, 0)
  {
    var st, y := Looked();
    Commits(Last(st), y.core);
    var longer := Then(st, Commit(1));
    assert longer[6] == Last(st);
    EndsBlind(longer, 6, 0, Lock(K, 1, 0), Last(longer).core);
  }
}
