/** Each step of the transaction protocol keeps the invariant and takes nothing back. */
module PercolatorSteps {
  import opened Basics
  import opened Percolator
  import opened PercolatorInv

  lemma BeginStep(g: Core, muts: seq<Mutation>, ttl: nat)
    requires CoreOk(g) && WellFormed(muts)
    ensures CoreOk(Begin(g, muts, ttl)) && Grows(g, Begin(g, muts, ttl))
  {
    var h := Begin(g, muts, ttl);
    assert TxnOk(g, g.clock);
    forall s: Ts ensures TxnOk(h, s) { assert TxnOk(g, s); }
    forall s: Ts ensures TxnGrows(g, h, s) {}
    forall s: Ts, u: Ts ensures CommitsDiffer(h, s, u) { assert CommitsDiffer(g, s, u); }
    forall s: Ts, i: nat ensures KeyOk(h, s, i) { assert KeyOk(g, s, i); }
    forall s: Ts, i: nat, j: nat ensures KeysDiffer(h, s, i, j) { assert KeysDiffer(g, s, i, j); }
    forall k: Key ensures LockOk(h, k) { assert LockOk(g, k); SameCarriers(g, h); }
    forall k: Key, c: Ts ensures WriteOk(h, k, c) { assert WriteOk(g, k, c); SameCarriers(g, h); }
    forall k: Key, c: Ts, d: Ts ensures OrderOk(h, k, c, d) { assert OrderOk(g, k, c, d); }
    forall k: Key, s: Ts ensures UndoneOk(h, k, s) { assert UndoneOk(g, k, s); }
  }

  /** A carried value stays carried while the transaction goes on and the value is not touched. */
  lemma SameCarriers(g: Core, h: Core)
    requires forall s: Ts {:trigger TxnGrows(g, h, s)} :: TxnGrows(g, h, s)
    ensures forall k: Key, s: Ts, i: nat {:trigger Carries(g, k, s, i)} ::
      Carries(g, k, s, i) && (k, s) in h.store.data && h.store.data[(k, s)] == g.store.data[(k, s)] ==> Carries(h, k, s, i)
  {
    forall k: Key, s: Ts, i: nat
      | Carries(g, k, s, i) && (k, s) in h.store.data && h.store.data[(k, s)] == g.store.data[(k, s)]
      ensures Carries(h, k, s, i)
    {
      assert TxnGrows(g, h, s);
    }
  }

  // ---- lock facts --------------------------------------------------------------------

  /** A key locked by a transaction is not yet written by it. */
  lemma HeldNotWritten(g: Core, k: Key, s: Ts, c: Ts)
    requires CoreOk(g) && Held(g.store, k, s)
    ensures !Recorded(g.store, k, s, c)
  {
    assert LockOk(g, k);
    assert WriteOk(g, k, c);
    assert TxnOk(g, s);
  }

  /** No other transaction's record sits at this one's commit timestamp. */
  lemma CommitSlotFree(g: Core, k: Key, s: Ts, c: Ts)
    requires CoreOk(g) && s in g.txns && CommitOf(g.txns[s]) == Some(c) && Held(g.store, k, s)
    ensures (k, c) !in g.store.writes
  {
    if (k, c) in g.store.writes {
      assert WriteOk(g, k, c);
      assert CommitsDiffer(g, s, g.store.writes[(k, c)]);
      HeldNotWritten(g, k, s, c);
    }
  }

  // ---- rollback -----------------------------------------------------------------------

  ghost predicate MayUndo(g: Core, k: Key, s: Ts) {
    s in g.txns && g.txns[s].muts != [] && (Dead(g, s) || (k == Primary(g.txns[s]) && !g.txns[s].phase.Committed?))
  }

  lemma UndoTxns(g: Core, k: Key, s: Ts, h: Core)
    requires CoreOk(g) && MayUndo(g, k, s) && Held(g.store, k, s) && h == Undo(g, k, s)
    ensures Dead(h, s) && forall u: Ts :: u != s ==> (Dead(h, u) <==> Dead(g, u))
    ensures forall u: Ts {:trigger TxnGrows(g, h, u)} :: TxnGrows(g, h, u)
  {
    assert LockOk(g, k);
    assert TxnOk(g, s);
  }

  lemma UndoStep(g: Core, k: Key, s: Ts)
    requires CoreOk(g) && MayUndo(g, k, s)
    ensures CoreOk(Undo(g, k, s)) && Grows(g, Undo(g, k, s))
  {
    var h := Undo(g, k, s);
    if Held(g.store, k, s) {
      UndoTxns(g, k, s, h);
      SameCarriers(g, h);
      forall u: Ts ensures TxnOk(h, u) { assert TxnOk(g, u); }
      forall u: Ts, v: Ts ensures CommitsDiffer(h, u, v) { assert CommitsDiffer(g, u, v); }
      forall u: Ts, i: nat ensures KeyOk(h, u, i) { assert KeyOk(g, u, i); }
      forall u: Ts, i: nat, j: nat ensures KeysDiffer(h, u, i, j) { assert KeysDiffer(g, u, i, j); }
      forall x: Key ensures LockOk(h, x) { assert LockOk(g, x); }
      forall x: Key, c: Ts ensures WriteOk(h, x, c) && WriteGrows(g, h, x, c) {
        assert WriteOk(g, x, c);
        HeldNotWritten(g, k, s, c);
      }
      forall x: Key, c: Ts, d: Ts ensures OrderOk(h, x, c, d) { assert OrderOk(g, x, c, d); }
      forall x: Key, u: Ts ensures UndoneOk(h, x, u) { assert UndoneOk(g, x, u); }
    } else {
      GrowsRefl(g);
    }
  }

  // ---- prewrite -------------------------------------------------------------------------

  lemma AbortStep(g: Core, s: Ts)
    requires CoreOk(g) && MayPrewrite(g, s) && !Clear(g.store, g.txns[s].muts[g.txns[s].phase.done].key, s)
    ensures CoreOk(PrewriteNext(g, s)) && Grows(g, PrewriteNext(g, s))
  {
    var h := PrewriteNext(g, s);
    forall u: Ts ensures TxnOk(h, u) && TxnGrows(g, h, u) { assert TxnOk(g, u); }
    SameCarriers(g, h);
    forall u: Ts, v: Ts ensures CommitsDiffer(h, u, v) { assert CommitsDiffer(g, u, v); assert CommitsDiffer(g, v, u); }
    forall u: Ts, i: nat ensures KeyOk(h, u, i) { assert KeyOk(g, u, i); }
    forall u: Ts, i: nat, j: nat ensures KeysDiffer(h, u, i, j) { assert KeysDiffer(g, u, i, j); }
    forall x: Key ensures LockOk(h, x) { assert LockOk(g, x); }
    forall x: Key, c: Ts ensures WriteOk(h, x, c) { assert WriteOk(g, x, c); }
    forall x: Key, c: Ts, d: Ts ensures OrderOk(h, x, c, d) { assert OrderOk(g, x, c, d); }
    forall x: Key, u: Ts ensures UndoneOk(h, x, u) { assert UndoneOk(g, x, u); }
  }

  ghost predicate IsPrewrite(g: Core, s: Ts, k: Key, h: Core) {
    && MayPrewrite(g, s) && k == g.txns[s].muts[g.txns[s].phase.done].key && Clear(g.store, k, s)
    && h == PrewriteNext(g, s)
  }

  lemma PrewriteTxns(g: Core, s: Ts, k: Key, h: Core)
    requires CoreOk(g) && IsPrewrite(g, s, k, h)
    ensures forall u: Ts :: Dead(h, u) <==> Dead(g, u)
    ensures forall u: Ts {:trigger TxnGrows(g, h, u)} :: TxnGrows(g, h, u)
    ensures forall u: Ts {:trigger TxnOk(h, u)} :: TxnOk(h, u)
  {
    assert TxnOk(g, s);
    forall u: Ts ensures TxnOk(h, u) { assert TxnOk(g, u); }
  }

  lemma PrewriteKeys(g: Core, s: Ts, k: Key, h: Core, u: Ts, i: nat, j: nat)
    requires CoreOk(g) && IsPrewrite(g, s, k, h)
    ensures KeyOk(h, u, i) && KeysDiffer(h, u, i, j)
  {
    PrewriteTxns(g, s, k, h);
    assert KeyOk(g, u, i);
    assert KeysDiffer(g, u, i, j);
    if i < |g.txns[s].muts| { assert UndoneOk(g, g.txns[s].muts[i].key, s); }
  }

  lemma PrewriteStep(g: Core, s: Ts)
    requires CoreOk(g) && MayPrewrite(g, s)
    ensures CoreOk(PrewriteNext(g, s)) && Grows(g, PrewriteNext(g, s))
  {
    var h := PrewriteNext(g, s);
    var n := g.txns[s].phase.done;
    var k := g.txns[s].muts[n].key;
    if !Clear(g.store, k, s) {
      AbortStep(g, s);
    } else {
      PrewriteTxns(g, s, k, h);
      SameCarriers(g, h);
      forall u: Ts, v: Ts ensures CommitsDiffer(h, u, v) { assert CommitsDiffer(g, u, v); assert CommitsDiffer(g, v, u); }
      forall u: Ts, i: nat ensures KeyOk(h, u, i) { PrewriteKeys(g, s, k, h, u, i, i); }
      forall u: Ts, i: nat, j: nat ensures KeysDiffer(h, u, i, j) { PrewriteKeys(g, s, k, h, u, i, j); }
      forall x: Key ensures LockOk(h, x) {
        assert LockOk(g, x);
        assert Carries(h, k, s, n);
      }
      forall x: Key, c: Ts ensures WriteOk(h, x, c) && WriteGrows(g, h, x, c) { assert WriteOk(g, x, c); }
      forall x: Key, c: Ts, d: Ts ensures OrderOk(h, x, c, d) { assert OrderOk(g, x, c, d); }
      forall x: Key, u: Ts ensures UndoneOk(h, x, u) { assert UndoneOk(g, x, u); }
    }
  }

  lemma DrawStep(g: Core, s: Ts)
    requires CoreOk(g) && MayDraw(g, s)
    ensures CoreOk(DrawCommit(g, s)) && Grows(g, DrawCommit(g, s))
  {
    var h := DrawCommit(g, s);
    forall u: Ts ensures TxnOk(h, u) && TxnGrows(g, h, u) { assert TxnOk(g, u); }
    SameCarriers(g, h);
    forall u: Ts, v: Ts ensures CommitsDiffer(h, u, v) {
      assert CommitsDiffer(g, u, v);
      assert TxnOk(g, u);
      assert TxnOk(g, v);
    }
    forall u: Ts, i: nat ensures KeyOk(h, u, i) { assert KeyOk(g, u, i); }
    forall u: Ts, i: nat, j: nat ensures KeysDiffer(h, u, i, j) { assert KeysDiffer(g, u, i, j); }
    forall x: Key ensures LockOk(h, x) { assert LockOk(g, x); }
    forall x: Key, c: Ts ensures WriteOk(h, x, c) { assert WriteOk(g, x, c); }
    forall x: Key, c: Ts, d: Ts ensures OrderOk(h, x, c, d) { assert OrderOk(g, x, c, d); }
    forall x: Key, u: Ts ensures UndoneOk(h, x, u) { assert UndoneOk(g, x, u); }
  }

  // ---- commit ----------------------------------------------------------------------------

  /** Committing the primary and rolling a secondary forward are one store update: the lock becomes a
      write record, of a transaction that is alive and has its commit timestamp. */
  ghost predicate Records(g: Core, k: Key, s: Ts, c: Ts, h: Core) {
    && s in g.txns && g.txns[s].muts != [] && Held(g.store, k, s) && CommitOf(g.txns[s]) == Some(c) && !Dead(g, s)
    && h == SetPhase(g.(store := PutWrite(g.store, k, s, c)), s, Committed(c))
    && (k == Primary(g.txns[s]) || g.txns[s].phase.Committed?)
  }

  lemma RecordTxns(g: Core, k: Key, s: Ts, c: Ts, h: Core)
    requires CoreOk(g) && Records(g, k, s, c, h)
    ensures forall u: Ts :: Dead(h, u) <==> Dead(g, u)
    ensures forall u: Ts {:trigger TxnGrows(g, h, u)} :: TxnGrows(g, h, u)
    ensures forall u: Ts {:trigger TxnOk(h, u)} :: TxnOk(h, u)
  {
    forall u: Ts ensures TxnOk(h, u) { assert TxnOk(g, u); }
  }

  lemma RecordKeys(g: Core, k: Key, s: Ts, c: Ts, h: Core, u: Ts, i: nat, j: nat)
    requires CoreOk(g) && Records(g, k, s, c, h)
    ensures KeyOk(h, u, i) && KeysDiffer(h, u, i, j)
  {
    RecordTxns(g, k, s, c, h);
    CommitSlotFree(g, k, s, c);
    assert KeyOk(g, u, i);
    if i < |g.txns[s].muts| { assert UndoneOk(g, g.txns[s].muts[i].key, s); }
    assert KeysDiffer(g, u, i, j);
  }

  lemma RecordWrites(g: Core, k: Key, s: Ts, c: Ts, h: Core, x: Key, d: Ts)
    requires CoreOk(g) && Records(g, k, s, c, h)
    ensures WriteOk(h, x, d) && WriteGrows(g, h, x, d)
  {
    RecordTxns(g, k, s, c, h);
    CommitSlotFree(g, k, s, c);
    SameCarriers(g, h);
    assert WriteOk(g, x, d);
    assert LockOk(g, k);
  }

  lemma RecordLocks(g: Core, k: Key, s: Ts, c: Ts, h: Core, x: Key)
    requires CoreOk(g) && Records(g, k, s, c, h)
    ensures LockOk(h, x)
  {
    RecordTxns(g, k, s, c, h);
    SameCarriers(g, h);
    assert LockOk(g, x);
    assert LockOk(g, k);
  }

  lemma RecordOrder(g: Core, k: Key, s: Ts, c: Ts, h: Core, x: Key, d: Ts, e: Ts)
    requires CoreOk(g) && Records(g, k, s, c, h)
    ensures OrderOk(h, x, d, e)
  {
    assert OrderOk(g, x, d, e);
    assert LockOk(g, k);
    assert TxnOk(g, s);
  }

  lemma RecordStep(g: Core, k: Key, s: Ts, c: Ts, h: Core)
    requires CoreOk(g) && Records(g, k, s, c, h)
    ensures CoreOk(h) && Grows(g, h)
  {
    RecordTxns(g, k, s, c, h);
    forall u: Ts, v: Ts ensures CommitsDiffer(h, u, v) { assert CommitsDiffer(g, u, v); }
    forall u: Ts, i: nat ensures KeyOk(h, u, i) { RecordKeys(g, k, s, c, h, u, i, i); }
    forall u: Ts, i: nat, j: nat ensures KeysDiffer(h, u, i, j) { RecordKeys(g, k, s, c, h, u, i, j); }
    forall x: Key ensures LockOk(h, x) { RecordLocks(g, k, s, c, h, x); }
    forall x: Key, d: Ts ensures WriteOk(h, x, d) && WriteGrows(g, h, x, d) { RecordWrites(g, k, s, c, h, x, d); }
    forall x: Key, d: Ts, e: Ts ensures OrderOk(h, x, d, e) { RecordOrder(g, k, s, c, h, x, d, e); }
    forall x: Key, u: Ts ensures UndoneOk(h, x, u) { assert UndoneOk(g, x, u); }
  }

  lemma CommitStep(g: Core, s: Ts)
    requires CoreOk(g) && IsReady(g, s) && Held(g.store, Primary(g.txns[s]), s)
    ensures CoreOk(CommitPrimary(g, s)) && Grows(g, CommitPrimary(g, s))
  {
    RecordStep(g, Primary(g.txns[s]), s, g.txns[s].phase.commit, CommitPrimary(g, s));
  }

  lemma ForwardStep(g: Core, k: Key, s: Ts, c: Ts)
    requires CoreOk(g) && s in g.txns && g.txns[s].phase == Committed(c)
    ensures CoreOk(RollForward(g, k, s, c)) && Grows(g, RollForward(g, k, s, c))
  {
    var h := RollForward(g, k, s, c);
    assert TxnOk(g, s);
    if Held(g.store, k, s) {
      assert h.txns == h.txns[s := h.txns[s].(phase := Committed(c))];
      RecordStep(g, k, s, c, h);
    } else {
      GrowsRefl(g);
    }
  }
}
