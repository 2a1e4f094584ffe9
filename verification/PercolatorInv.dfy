/** What every step of the transaction protocol keeps. */
module PercolatorInv {
  import opened Basics
  import opened Percolator

  // ---- vocabulary --------------------------------------------------------------------

  /** The transaction can no longer commit: its coordinator gave up, or its primary was rolled back. */
  ghost predicate Dead(g: Core, s: Ts) {
    && s in g.txns && g.txns[s].muts != [] && !g.txns[s].phase.Committed?
    && (g.txns[s].phase.Aborting? || (Done(g.txns[s]) > 0 && !Held(g.store, Primary(g.txns[s]), s)))
  }

  /** The transaction committed, and its write to `k` is in place. */
  ghost predicate Written(g: Core, k: Key, s: Ts) {
    s in g.txns && g.txns[s].phase.Committed? && Recorded(g.store, k, s, g.txns[s].phase.commit)
  }

  predicate At(t: Txn, i: nat, k: Key) { i < |t.muts| && t.muts[i].key == k }

  predicate Touches(t: Txn, k: Key) { exists i: nat | i < |t.muts| :: At(t, i, k) }

  // ---- the invariant ------------------------------------------------------------------

  ghost predicate TxnOk(g: Core, s: Ts) {
    s in g.txns ==>
      var t := g.txns[s];
      && s < g.clock && WellFormed(t.muts) && Done(t) <= |t.muts|
      && (CommitOf(t).Some? ==> s < CommitOf(t).value < g.clock)
  }

  ghost predicate CommitsDiffer(g: Core, s: Ts, u: Ts) {
    s in g.txns && u in g.txns && s != u && CommitOf(g.txns[s]).Some? ==> CommitOf(g.txns[s]) != CommitOf(g.txns[u])
  }

  /** A prewritten key is locked, committed or rolled back. */
  ghost predicate KeyOk(g: Core, s: Ts, i: nat) {
    s in g.txns && i < Done(g.txns[s]) && i < |g.txns[s].muts| ==>
      var k := g.txns[s].muts[i].key;
      Held(g.store, k, s) || Written(g, k, s) || (k, s) in g.undone
  }

  /** A live transaction has prewritten no key twice. */
  ghost predicate KeysDiffer(g: Core, s: Ts, i: nat, j: nat) {
    s in g.txns && i < j < Done(g.txns[s]) && j < |g.txns[s].muts| && !Dead(g, s) ==>
      g.txns[s].muts[i].key != g.txns[s].muts[j].key
  }

  ghost predicate Carries(g: Core, k: Key, s: Ts, i: nat) {
    && s in g.txns && i < Done(g.txns[s]) && At(g.txns[s], i, k)
    && (k, s) in g.store.data && g.store.data[(k, s)] == g.txns[s].muts[i].value
  }

  ghost predicate LockOk(g: Core, k: Key) {
    k in g.store.locks ==>
      var l := g.store.locks[k];
      && l.start in g.txns && g.txns[l.start].muts != [] && Done(g.txns[l.start]) > 0
      && l.primary == Primary(g.txns[l.start])
      && (exists i: nat :: Carries(g, k, l.start, i))
      && (k == l.primary ==> !g.txns[l.start].phase.Committed?)
      && forall c: Ts | (k, c) in g.store.writes :: c < l.start
  }

  /** Every write record carries its transaction's commit timestamp and points at the value. */
  ghost predicate WriteOk(g: Core, k: Key, c: Ts) {
    (k, c) in g.store.writes ==>
      var s := g.store.writes[(k, c)];
      && s in g.txns && g.txns[s].phase == Committed(c)
      && exists i: nat :: Carries(g, k, s, i)
  }

  /** First committer wins, on one key. */
  ghost predicate OrderOk(g: Core, k: Key, c: Ts, d: Ts) {
    (k, c) in g.store.writes && (k, d) in g.store.writes && c < d ==> c < g.store.writes[(k, d)]
  }

  ghost predicate UndoneOk(g: Core, k: Key, s: Ts) { (k, s) in g.undone ==> Dead(g, s) }

  ghost predicate CoreOk(g: Core) {
    && (forall s: Ts {:trigger TxnOk(g, s)} :: TxnOk(g, s))
    && (forall s: Ts, u: Ts {:trigger CommitsDiffer(g, s, u)} :: CommitsDiffer(g, s, u))
    && (forall s: Ts, i: nat {:trigger KeyOk(g, s, i)} :: KeyOk(g, s, i))
    && (forall s: Ts, i: nat, j: nat {:trigger KeysDiffer(g, s, i, j)} :: KeysDiffer(g, s, i, j))
    && (forall k: Key {:trigger LockOk(g, k)} :: LockOk(g, k))
    && (forall k: Key, c: Ts {:trigger WriteOk(g, k, c)} :: WriteOk(g, k, c))
    && (forall k: Key, c: Ts, d: Ts {:trigger OrderOk(g, k, c, d)} :: OrderOk(g, k, c, d))
    && (forall k: Key, s: Ts {:trigger UndoneOk(g, k, s)} :: UndoneOk(g, k, s))
  }

  // ---- what no step takes back ----------------------------------------------------------

  /** A known transaction keeps its mutations and its commit timestamp; a dead one stays dead. A commit
      timestamp drawn since is above everything drawn before. */
  ghost predicate TxnGrows(g: Core, h: Core, s: Ts) {
    && (s in g.txns ==>
          && s in h.txns && h.txns[s].muts == g.txns[s].muts && Done(g.txns[s]) <= Done(h.txns[s])
          && (CommitOf(g.txns[s]).Some? ==> CommitOf(h.txns[s]) == CommitOf(g.txns[s]))
          && (g.txns[s].phase.Committed? ==> h.txns[s].phase == g.txns[s].phase)
          && (Dead(g, s) ==> Dead(h, s)))
    && (s in h.txns && CommitOf(h.txns[s]).Some? && !(s in g.txns && CommitOf(g.txns[s]).Some?) ==>
          CommitOf(h.txns[s]).value >= g.clock)
  }

  /** A write record and the value it points at stay; a new one belongs to a transaction that was alive,
      had its commit timestamp, and had not written this key. */
  ghost predicate WriteGrows(g: Core, h: Core, k: Key, c: Ts) {
    && ((k, c) in g.store.writes ==>
          && (k, c) in h.store.writes && h.store.writes[(k, c)] == g.store.writes[(k, c)]
          && Fetch(h.store, k, g.store.writes[(k, c)]) == Fetch(g.store, k, g.store.writes[(k, c)]))
    && ((k, c) in h.store.writes && (k, c) !in g.store.writes ==>
          var s := h.store.writes[(k, c)];
          s in g.txns && CommitOf(g.txns[s]) == Some(c) && !Dead(g, s) && Touches(g.txns[s], k))
  }

  ghost predicate Grows(g: Core, h: Core) {
    && g.clock <= h.clock && g.undone <= h.undone
    && (forall s: Ts {:trigger TxnGrows(g, h, s)} :: TxnGrows(g, h, s))
    && (forall k: Key, c: Ts {:trigger WriteGrows(g, h, k, c)} :: WriteGrows(g, h, k, c))
  }

  lemma GrowsRefl(g: Core)
    ensures Grows(g, g)
  {
  }
}
