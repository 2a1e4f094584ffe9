/** Timestamps are handed out once, and in term order, over every run of the group. */
module PdTsoProof {
  import opened Basics
  import opened PdTso

  // ---- the high-water by term -----------------------------------------------------------

  /** The high-water reserved among the first `n` entries in terms below `t`. */
  function Below(log: seq<Entry>, t: Term, n: nat): nat
    requires n <= |log|
  {
    if n == 0 then 0 else Max(Below(log, t, n - 1), if log[n - 1].term < t then log[n - 1].reserve else 0)
  }

  ghost predicate Sorted(log: seq<Entry>) { forall i, j | 0 <= i <= j < |log| :: log[i].term <= log[j].term }

  lemma {:induction false} BelowCoversUpper(log: seq<Entry>, t: Term, n: nat)
    requires Sorted(log) && Within(log, n, t)
    ensures Upper(log, n) <= Below(log, t + 1, n)
  {
    if n > 0 { BelowCoversUpper(log, t, n - 1); }
  }

  lemma {:induction false} BelowGrows(log: seq<Entry>, t: Term, u: Term, m: nat, n: nat)
    requires m <= n <= |log| && t <= u
    ensures Below(log, t, m) <= Below(log, u, n)
    decreases n
  {
    if n > 0 {
      if m < n { BelowGrows(log, t, u, m, n - 1); } else { BelowGrows(log, t, u, m - 1, n - 1); }
    }
  }

  /** Where every entry of a term below `t` lies among the first `m`, they account for all of `Below`. */
  lemma {:induction false} UpperCoversBelow(log: seq<Entry>, t: Term, m: nat, n: nat)
    requires m <= |log| && n <= |log| && forall i | m <= i < |log| :: log[i].term >= t
    ensures Below(log, t, n) <= Upper(log, m)
    decreases m + n
  {
    if n > 0 {
      UpperCoversBelow(log, t, m, n - 1);
      if n <= m { UpperGrows(log, n, m); }
    }
  }

  lemma {:induction false} UpperGrows(log: seq<Entry>, m: nat, n: nat)
    requires m <= n <= |log|
    ensures Upper(log, m) <= Upper(log, n) && (m > 0 ==> log[m - 1].reserve <= Upper(log, n))
    decreases n
  {
    if m < n { UpperGrows(log, m, n - 1); }
  }

  lemma {:induction false} PrefixSame(log: seq<Entry>, e: Entry, t: Term, n: nat)
    requires n <= |log|
    ensures Below(log + [e], t, n) == Below(log, t, n) && Upper(log + [e], n) == Upper(log, n)
  {
    if n > 0 { PrefixSame(log, e, t, n - 1); }
  }

  // ---- the invariant -----------------------------------------------------------------------

  ghost predicate WinOk(g: Pd, t: Term) {
    t in g.wins ==> forall i: nat | i < |g.log| && g.log[i].term < t :: i + 1 < g.wins[t].1
  }

  ghost predicate ReplicaOk(g: Pd, id: Id) {
    id in g.replicas ==>
      var r := g.replicas[id];
      && Within(g.log, r.applied, r.term)
      && (r.pending.Some? ==> r.leader)
      && (r.leader ==> r.term in g.wins && g.wins[r.term].0 == id)
      && (r.leader && r.pending.Some? ==>
            r.pending.value == g.wins[r.term].1 && forall x | x in g.ranges :: x.term != r.term)
      && (r.leader && r.pending.None? ==>
            && g.wins[r.term].1 <= r.applied && Below(g.log, r.term, |g.log|) <= r.served
            && forall x | x in g.ranges && x.term == r.term :: x.hi <= r.served)
  }

  ghost predicate RangeOk(g: Pd, x: Range) {
    && x.lo < x.hi && x.term in g.wins && g.wins[x.term].1 <= |g.log|
    && Below(g.log, x.term, |g.log|) <= x.lo && x.hi <= Below(g.log, x.term + 1, |g.log|)
  }

  ghost predicate Ok(g: Pd) {
    && Sorted(g.log)
    && (forall t: Term {:trigger WinOk(g, t)} :: WinOk(g, t))
    && (forall id: Id {:trigger ReplicaOk(g, id)} :: ReplicaOk(g, id))
    && (forall x: Range {:trigger RangeOk(g, x)} | x in g.ranges :: RangeOk(g, x))
    && (forall i, j | 0 <= i < j < |g.ranges| && g.ranges[i].term == g.ranges[j].term :: g.ranges[i].hi <= g.ranges[j].lo)
  }

  lemma CommitStep(g: Pd, e: Entry)
    requires Ok(g) && MayCommit(g, e)
    ensures Ok(Do(g, CommitEntry(e)))
  {
    var h := Do(g, CommitEntry(e));
    forall t: Term ensures WinOk(h, t) { assert WinOk(g, t); }
    forall id: Id ensures ReplicaOk(h, id) {
      assert ReplicaOk(g, id);
      if id in g.replicas {
        PrefixSame(g.log, e, g.replicas[id].term, |g.log|);
        PrefixSame(g.log, e, g.replicas[id].term, g.replicas[id].applied);
      }
    }
    forall x: Range | x in h.ranges ensures RangeOk(h, x) {
      assert RangeOk(g, x);
      PrefixSame(g.log, e, x.term, |g.log|);
      PrefixSame(g.log, e, x.term + 1, |g.log|);
    }
  }

  /** The reset puts the cursor above everything reserved in an earlier term. */
  lemma ResetIsHigh(g: Pd, t: Term, noop: nat, applied: nat)
    requires applied <= |g.log| && noop <= applied
    requires forall i: nat | i < |g.log| && g.log[i].term < t :: i + 1 < noop
    ensures Below(g.log, t, |g.log|) <= Upper(g.log, applied)
  {
    UpperCoversBelow(g.log, t, applied, |g.log|);
  }

  lemma DriverStep(g: Pd, id: Id, w: News)
    requires Ok(g) && MayHear(g, id, w)
    ensures Ok(Do(g, Driver(id, w)))
  {
    var h := Do(g, Driver(id, w));
    forall t: Term ensures WinOk(h, t) { assert WinOk(g, t); }
    forall x: Range | x in h.ranges ensures RangeOk(h, x) { assert RangeOk(g, x); }
    forall i: Id ensures ReplicaOk(h, i) {
      assert ReplicaOk(g, i);
      if i == id {
        assert WinOk(h, w.term);
        forall x | x in g.ranges ensures x.term in g.wins { assert RangeOk(g, x); }
        if h.replicas[id].leader && h.replicas[id].pending.None? && h.wins[w.term].1 <= w.applied {
          ResetIsHigh(h, w.term, h.wins[w.term].1, w.applied);
        }
      }
    }
  }

  lemma QuietStep(g: Pd, a: Action)
    requires Ok(g) && (a.SnapshotFrom? || a.Restart?) && Enabled(g, a, true)
    ensures Ok(Do(g, a))
  {
    var h := Do(g, a);
    forall t: Term ensures WinOk(h, t) { assert WinOk(g, t); }
    forall x: Range | x in h.ranges ensures RangeOk(h, x) { assert RangeOk(g, x); }
    forall i: Id ensures ReplicaOk(h, i) { assert ReplicaOk(g, i); }
  }

  /** With no reset pending, a range fits between the earlier terms' high-water and its own. */
  lemma HandOutRange(g: Pd, r: Replica, id: Id, count: nat, x: Range)
    requires Ok(g) && id in g.replicas && r == g.replicas[id] && CanServe(r, count, g.log) && r.pending.None?
    requires x == Range(r.term, r.served, r.served + Max(count, 1))
    ensures RangeOk(g, x) && forall y | y in g.ranges && y.term == x.term :: y.hi <= x.lo
  {
    assert ReplicaOk(g, id);
    BelowCoversUpper(g.log, r.term, r.applied);
    BelowGrows(g.log, r.term + 1, r.term + 1, r.applied, |g.log|);
  }

  lemma HandOutReplica(g: Pd, id: Id, count: nat, h: Pd, i: Id)
    requires Ok(g) && Enabled(g, HandOut(id, count), true) && h == Do(g, HandOut(id, count))
    ensures ReplicaOk(h, i)
  {
    assert ReplicaOk(g, i) && ReplicaOk(g, id);
  }

  lemma HandOutStep(g: Pd, id: Id, count: nat)
    requires Ok(g) && Enabled(g, HandOut(id, count), true)
    ensures Ok(Do(g, HandOut(id, count)))
  {
    var h := Do(g, HandOut(id, count));
    var r := g.replicas[id];
    var out := Range(r.term, r.served, r.served + Max(count, 1));
    HandOutRange(g, r, id, count, out);
    forall t: Term ensures WinOk(h, t) { assert WinOk(g, t); }
    forall x: Range | x in h.ranges ensures RangeOk(h, x) {
      if x in g.ranges { assert RangeOk(g, x); } else { assert x == out; }
    }
    forall i: Id ensures ReplicaOk(h, i) { HandOutReplica(g, id, count, h, i); }
  }

  lemma Step(g: Pd, a: Action)
    requires Ok(g) && Enabled(g, a, true)
    ensures Ok(Do(g, a))
  {
    match a
    case CommitEntry(e) => CommitStep(g, e);
    case Driver(id, w) => DriverStep(g, id, w);
    case HandOut(id, count) => HandOutStep(g, id, count);
    case _ => QuietStep(g, a);
  }

  lemma {:induction false} RunOk(st: seq<Pd>, i: nat)
    requires Run(st, true) && i < |st|
    ensures Ok(st[i])
  {
    if i > 0 {
      RunOk(st, i - 1);
      assert Moves(st[i - 1], st[i - 1 + 1], true);
      var a: Action :| Enabled(st[i - 1], a, true) && Enabled(st[i - 1], a, false) && st[i] == Do(st[i - 1], a);
      Step(st[i - 1], a);
    }
  }

  /** Every two ranges handed out by any replicas in any terms, deposed leaders still spending their window
      included, are disjoint, and a later term's lies above an earlier term's. */
  lemma RangesApart(st: seq<Pd>, n: nat, i: nat, j: nat)
    requires Run(st, true) && n < |st| && i < |st[n].ranges| && j < |st[n].ranges| && i != j
    ensures Apart(st[n].ranges[i], st[n].ranges[j])
  {
    RunOk(st, n);
    var g := st[n];
    var x, y := g.ranges[i], g.ranges[j];
    assert RangeOk(g, x) && RangeOk(g, y);
    if x.term < y.term {
      BelowGrows(g.log, x.term + 1, y.term, |g.log|, |g.log|);
    } else if y.term < x.term {
      BelowGrows(g.log, y.term + 1, x.term, |g.log|, |g.log|);
    }
  }

  /** A reservation of `upper` is among the first `m` entries. */
  ghost predicate Reserved(log: seq<Entry>, m: nat, upper: nat) {
    m <= |log| && exists i: nat | i < m :: log[i].reserve == upper
  }

  /** The window a `ReserveTs` opens is enough for the request that asked for it: whatever else was committed, and
      whatever of it was applied when the reservation was made, once it is applied the request can be served. */
  lemma ReserveSuffices(r: Replica, count: nat, upper: nat, log: seq<Entry>, m: nat)
    requires r.leader && Reserved(log, m, ReserveTs(r, count, upper))
    ensures CanServe(r.(applied := m), count, log) && CanServe(r.(applied := m), Max(count, 1) + RESERVE_WINDOW, log)
  {
    var i: nat :| i < m && log[i].reserve == ReserveTs(r, count, upper);
    UpperGrows(log, i + 1, m);
  }

  /** The high-water of a log is the highest reservation in it, and 0 before the first. */
  ghost predicate Highest(log: seq<Entry>, n: nat, u: nat)
    requires n <= |log|
  {
    (forall i: nat | i < n :: log[i].reserve <= u) && (u == 0 || exists i: nat | i < n :: log[i].reserve == u)
  }

  lemma {:induction false} UpperIsHighest(log: seq<Entry>, n: nat)
    requires n <= |log|
    ensures Highest(log, n, Upper(log, n))
  {
    if n > 0 { UpperIsHighest(log, n - 1); }
  }

  /** Once a new leader's no-op is applied nothing is pending, and its cursor is at the highest reservation applied. */
  lemma ResetIsDone(r: Replica, w: News, log: seq<Entry>)
    requires w.leader && w.applied <= |log|
    requires if r.leader then r.pending.Some? && r.pending.value <= w.applied else w.noop <= w.applied
    ensures var k := Ready(r, w, log);
      k.leader && k.term == w.term && k.applied == w.applied && k.pending == None && Highest(log, w.applied, k.served)
  {
    UpperIsHighest(log, w.applied);
  }

  /** A restart, and a snapshot, leave the cursor no lower than the highest reservation they cover. */
  lemma RecoversHigh(r: Replica, n: nat, log: seq<Entry>)
    requires n <= |log|
    ensures var k := Recover(r, n, log); k.term == r.term && !k.leader && k.applied == n && k.pending == None && Highest(log, n, k.served)
    ensures var k := Install(r, n, log);
      && k.applied == n && k.served >= r.served && (k.served == r.served || Highest(log, n, k.served))
      && forall i: nat | i < n :: log[i].reserve <= k.served
  {
    UpperIsHighest(log, n);
  }

  /** Before that it keeps waiting, with its cursor where it was. */
  lemma ResetWaits(r: Replica, w: News, log: seq<Entry>)
    requires w.leader && w.applied <= |log|
    requires if r.leader then r.pending.Some? && r.pending.value > w.applied else w.noop > w.applied
    ensures var k := Ready(r, w, log); k.pending == (if r.leader then r.pending else Some(w.noop)) && k.served == r.served && k.applied == w.applied
  {
  }
}
