/** Snapshot reads: once a reader has seen its key free of shadowing locks, everything committed at or
    below its timestamp is settled on that key for good. */
module PercolatorReads {
  import opened Basics
  import opened Percolator
  import opened PercolatorInv
  import opened PercolatorSteps

  ghost predicate SealedBy(g: Core, k: Key, ts: Ts, s: Ts) {
    s in g.txns && CommitOf(g.txns[s]).Some? && CommitOf(g.txns[s]).value <= ts && Touches(g.txns[s], k) ==>
      Written(g, k, s) || Dead(g, s)
  }

  ghost predicate Sealed(g: Core, k: Key, ts: Ts) {
    ts < g.clock && forall s: Ts {:trigger SealedBy(g, k, ts, s)} :: SealedBy(g, k, ts, s)
  }

  ghost predicate SealedBut(g: Core, k: Key, ts: Ts, x: Ts) {
    ts < g.clock && forall s: Ts {:trigger SealedBy(g, k, ts, s)} :: s != x ==> SealedBy(g, k, ts, s)
  }

  lemma SealedByStable(g: Core, h: Core, k: Key, ts: Ts, s: Ts)
    requires Grows(g, h) && ts < g.clock && SealedBy(g, k, ts, s)
    ensures SealedBy(h, k, ts, s)
  {
    assert TxnGrows(g, h, s);
    if Written(g, k, s) { assert WriteGrows(g, h, k, g.txns[s].phase.commit); }
    if s in g.txns && Touches(h.txns[s], k) {
      var i: nat :| i < |h.txns[s].muts| && At(h.txns[s], i, k);
      assert At(g.txns[s], i, k);
    }
  }

  lemma SealedStable(g: Core, h: Core, k: Key, ts: Ts)
    requires Grows(g, h) && Sealed(g, k, ts)
    ensures Sealed(h, k, ts)
  {
    forall s: Ts ensures SealedBy(h, k, ts, s) { SealedByStable(g, h, k, ts, s); }
  }

  lemma SealedButStable(g: Core, h: Core, k: Key, ts: Ts, x: Ts)
    requires Grows(g, h) && SealedBut(g, k, ts, x)
    ensures SealedBut(h, k, ts, x)
  {
    forall s: Ts | s != x ensures SealedBy(h, k, ts, s) { SealedByStable(g, h, k, ts, s); }
  }

  /** A key no live lock of `s` sits on is sealed by `s`. */
  lemma NotHeldSeals(g: Core, k: Key, ts: Ts, s: Ts)
    requires CoreOk(g) && !(Held(g.store, k, s) && s < ts)
    ensures SealedBy(g, k, ts, s)
  {
    if s in g.txns && CommitOf(g.txns[s]).Some? && Touches(g.txns[s], k) {
      var i: nat :| i < |g.txns[s].muts| && At(g.txns[s], i, k);
      assert TxnOk(g, s);
      assert KeyOk(g, s, i);
      assert UndoneOk(g, k, s);
    }
  }

  lemma CleanLookSeals(g: Core, k: Key, ts: Ts)
    requires CoreOk(g) && ts < g.clock && Unshadowed(g.store, k, ts)
    ensures Sealed(g, k, ts)
  {
    forall s: Ts ensures SealedBy(g, k, ts, s) { NotHeldSeals(g, k, ts, s); }
  }

  lemma LockedLookSeals(g: Core, k: Key, ts: Ts)
    requires CoreOk(g) && ts < g.clock && k in g.store.locks
    ensures SealedBut(g, k, ts, g.store.locks[k].start)
  {
    forall s: Ts | s != g.store.locks[k].start ensures SealedBy(g, k, ts, s) { NotHeldSeals(g, k, ts, s); }
  }

  // ---- a sealed key reads the same forever ------------------------------------------------

  lemma {:induction false} NewestSame(w: map<(Key, Ts), Ts>, x: map<(Key, Ts), Ts>, k: Key, ts: Ts)
    requires forall c: Ts | c <= ts :: (k, c) in w <==> (k, c) in x
    ensures Newest(w, k, ts) == Newest(x, k, ts)
  {
    if (k, ts) !in w && ts > 0 { NewestSame(w, x, k, ts - 1); }
  }

  lemma SealedSlots(g: Core, h: Core, k: Key, ts: Ts, c: Ts)
    requires Grows(g, h) && Sealed(g, k, ts) && c <= ts
    ensures (k, c) in g.store.writes <==> (k, c) in h.store.writes
  {
    assert WriteGrows(g, h, k, c);
    if (k, c) in h.store.writes { assert SealedBy(g, k, ts, h.store.writes[(k, c)]); }
  }

  lemma LookupStable(g: Core, h: Core, k: Key, ts: Ts)
    requires Grows(g, h) && Sealed(g, k, ts)
    ensures Newest(h.store.writes, k, ts) == Newest(g.store.writes, k, ts)
    ensures Newest(g.store.writes, k, ts).Some? ==>
      var c := Newest(g.store.writes, k, ts).value; h.store.writes[(k, c)] == g.store.writes[(k, c)]
    ensures Lookup(h.store, k, ts) == Lookup(g.store, k, ts)
  {
    forall c: Ts | c <= ts ensures (k, c) in g.store.writes <==> (k, c) in h.store.writes { SealedSlots(g, h, k, ts, c); }
    NewestSame(g.store.writes, h.store.writes, k, ts);
    match Newest(g.store.writes, k, ts)
    case None =>
    case Some(c) => assert WriteGrows(g, h, k, c);
  }

  // ---- the reader's own invariant -----------------------------------------------------------

  /** The fate of `s` is decided. */
  ghost predicate Fated(g: Core, s: Ts) { s in g.txns && (g.txns[s].phase.Committed? || Dead(g, s)) }

  /** A lock the reader met: its transaction is real and its primary was prewritten. */
  ghost predicate Met(g: Core, r: Reader, l: Lock) {
    && SealedBut(g, r.key, r.ts, l.start)
    && l.start in g.txns && g.txns[l.start].muts != [] && Done(g.txns[l.start]) > 0 && l.primary == Primary(g.txns[l.start])
  }

  ghost predicate StatusRight(g: Core, l: Lock, status: Status) {
    l.start in g.txns && (status.CommittedAt? ==> g.txns[l.start].phase == Committed(status.commit))
    && (status.RolledBack? ==> Dead(g, l.start))
  }

  ghost predicate ReaderOk(g: Core, r: Reader) {
    && r.ts < g.clock
    && match r.pc
       case Looking(n) => n > 0 ==> Sealed(g, r.key, r.ts)
       case Asking(_, l) => Met(g, r, l)
       case Scanning(_, l, _) => Met(g, r, l) && Fated(g, l.start)
       case Settling(_, l) => Met(g, r, l)
       case Repeeking(_, l) => Met(g, r, l) && Fated(g, l.start)
       case Resolving(_, l, status) => Met(g, r, l) && StatusRight(g, l, status)
       case Rechecking => Sealed(g, r.key, r.ts)
       case Reading => Sealed(g, r.key, r.ts)
       case Found(s) =>
         && Sealed(g, r.key, r.ts) && Newest(g.store.writes, r.key, r.ts).Some?
         && s == g.store.writes[(r.key, Newest(g.store.writes, r.key, r.ts).value)]
       case Answered(v) => Sealed(g, r.key, r.ts) && v == Lookup(g.store, r.key, r.ts)
       case Refused => true
  }

  lemma MetStable(g: Core, h: Core, r: Reader, l: Lock)
    requires Grows(g, h) && Met(g, r, l)
    ensures Met(h, r, l)
  {
    SealedButStable(g, h, r.key, r.ts, l.start);
    assert TxnGrows(g, h, l.start);
  }

  /** Whatever else happens, a reader's knowledge stays true. */
  lemma ReaderStable(g: Core, h: Core, r: Reader)
    requires Grows(g, h) && ReaderOk(g, r)
    ensures ReaderOk(h, r)
  {
    if Sealed(g, r.key, r.ts) {
      SealedStable(g, h, r.key, r.ts);
      LookupStable(g, h, r.key, r.ts);
    }
    if r.pc.Asking? || r.pc.Scanning? || r.pc.Settling? || r.pc.Repeeking? || r.pc.Resolving? {
      MetStable(g, h, r, r.pc.lock);
      assert TxnGrows(g, h, r.pc.lock.start);
    }
  }

  // ---- status checks ---------------------------------------------------------------------------

  /** A prewritten primary no longer locked: the transaction's fate is decided. */
  lemma UnlockedIsFated(g: Core, r: Reader, l: Lock)
    requires CoreOk(g) && Met(g, r, l) && !Held(g.store, l.primary, l.start)
    ensures Fated(g, l.start)
  {
  }

  /** The scan of the primary's commits tells a decided transaction's fate truly. */
  lemma ScanIsRight(g: Core, l: Lock)
    requires CoreOk(g) && Fated(g, l.start) && g.txns[l.start].muts != [] && l.primary == Primary(g.txns[l.start])
    ensures StatusRight(g, l, StatusOf(g.store, l))
  {
    var s := l.start;
    assert TxnOk(g, s);
    match FindCommit(g.store, l.primary, s)
    case Some(c) => assert WriteOk(g, l.primary, c);
    case None =>
      assert KeyOk(g, s, 0);
      assert UndoneOk(g, l.primary, s);
      assert LockOk(g, l.primary);
  }

  /** Rolling the primary back, where the transaction has not committed, makes it dead. */
  lemma SettleStep(g: Core, r: Reader, l: Lock)
    requires CoreOk(g) && Met(g, r, l)
    ensures var h := Undo(g, l.primary, l.start); CoreOk(h) && Grows(g, h) && Fated(h, l.start)
    ensures Held(g.store, l.primary, l.start) ==> Dead(Undo(g, l.primary, l.start), l.start)
  {
    var s := l.start;
    if Held(g.store, l.primary, s) {
      assert LockOk(g, l.primary);
      UndoStep(g, l.primary, s);
    } else {
      GrowsRefl(g);
      UnlockedIsFated(g, r, l);
    }
  }

  /** Applying a right verdict to the key seals it. */
  lemma ResolveStep(g: Core, r: Reader, l: Lock, status: Status)
    requires CoreOk(g) && Met(g, r, l) && StatusRight(g, l, status)
    ensures var h := Resolve(g, r.key, l.start, status);
      CoreOk(h) && Grows(g, h) && Sealed(h, r.key, r.ts)
  {
    var s := l.start;
    var h := Resolve(g, r.key, s, status);
    match status {
      case CommittedAt(c) => ForwardStep(g, r.key, s, c);
      case RolledBack => UndoStep(g, r.key, s);
    }
    SealedButStable(g, h, r.key, r.ts, s);
    NotHeldSeals(h, r.key, r.ts, s);
  }

  // ---- one reader step ----------------------------------------------------------------------------

  lemma CheckStatusStep(g: Core, r: Reader, n: nat, l: Lock)
    requires CoreOk(g) && ReaderOk(g, r) && r.pc == Asking(n, l)
    ensures var (h, pc) := CheckStatus(g, r, n, l); CoreOk(h) && Grows(g, h) && ReaderOk(h, r.(pc := pc))
  {
    SettleStep(g, r, l);
    GrowsRefl(g);
    if Held(g.store, l.primary, l.start) {
      MetStable(g, Undo(g, l.primary, l.start), r, l);
    } else {
      UnlockedIsFated(g, r, l);
      ScanIsRight(g, l);
    }
  }

  lemma RemoteStep(g: Core, r: Reader, now: Ts)
    requires CoreOk(g) && ReaderOk(g, r)
    requires r.pc.Scanning? || r.pc.Settling? || r.pc.Repeeking? || (r.pc.Asking? && r.mode.Remote?)
    ensures var (h, pc) := ReadStep(g, r, now); CoreOk(h) && Grows(g, h) && ReaderOk(h, r.(pc := pc))
  {
    GrowsRefl(g);
    var l := r.pc.lock;
    match r.pc
    case Settling(n, _) =>
      SettleStep(g, r, l);
      MetStable(g, Undo(g, l.primary, l.start), r, l);
    case Scanning(_, _, _) => ScanIsRight(g, l);
    case Repeeking(_, _) => assert LockOk(g, l.primary);
    case Asking(_, _) => if !Held(g.store, l.primary, l.start) { UnlockedIsFated(g, r, l); }
  }

  lemma LookStep(g: Core, r: Reader, n: nat)
    requires CoreOk(g) && ReaderOk(g, r) && r.pc == Looking(n)
    ensures ReaderOk(g, r.(pc := Look(g.store, r, n)))
  {
    if Unshadowed(g.store, r.key, r.ts) {
      CleanLookSeals(g, r.key, r.ts);
    } else {
      LockedLookSeals(g, r.key, r.ts);
      assert LockOk(g, r.key);
    }
  }

  lemma ReadStepOk(g: Core, r: Reader, now: Ts)
    requires CoreOk(g) && ReaderOk(g, r)
    ensures var (h, pc) := ReadStep(g, r, now); CoreOk(h) && Grows(g, h) && ReaderOk(h, r.(pc := pc))
  {
    GrowsRefl(g);
    match r.pc
    case Looking(n) => LookStep(g, r, n);
    case Asking(n, l) => if r.mode.Remote? { RemoteStep(g, r, now); } else { CheckStatusStep(g, r, n, l); }
    case Resolving(n, l, status) => ResolveStep(g, r, l, status);
    case Scanning(_, _, _) => RemoteStep(g, r, now);
    case Settling(_, _) => RemoteStep(g, r, now);
    case Repeeking(_, _) => RemoteStep(g, r, now);
    case _ =>
  }
}
