/** `PdReplica` of pd/src/replicated.rs as the object it is, over the committed log Raft delivers to it. */
module PdReplica {
  import opened Basics
  import opened PdTso
  import opened PdTsoProof

  /** What a PD snapshot carries of the oracle: how far it goes and the high-water there. */
  datatype Snapshot = Snapshot(index: nat, upper: nat)

  class Oracle {
    // what the Raft node reports
    var term: Term
    var leader: bool
    var applied: nat
    // the state machine's high-water
    var tsoUpper: nat

    var served: nat
    var wasLeader: bool
    var pendingReset: Option<nat>

    /** The applied state is the fold of the log so far, and `ready` has run since the last event. */
    ghost predicate Valid(log: seq<Entry>)
      reads this
    {
      applied <= |log| && tsoUpper == Upper(log, applied) && wasLeader == leader
    }

    ghost function Abs(): Replica
      reads this
    {
      Replica(term, leader, applied, served, pendingReset)
    }

    /** A replica over durable storage whose snapshot covers the first `n` entries. */
    constructor (term: Term, n: nat, upper: nat, ghost log: seq<Entry>)
      requires n <= |log| && upper == Upper(log, n)
      ensures Valid(log) && Abs() == Recover(Replica(term, false, n, 0, None), n, log)
    {
      this.term, leader, applied, tsoUpper := term, false, n, upper;
      served, wasLeader, pendingReset := upper, false, None;
    }

    /** The Raft core moves to `term` and role `leader`, then `ready` runs: arm or disarm the reset, adopt the state of a
        snapshot the leader sent, apply what committed above it, and reset the cursor once this term's no-op is applied. */
    method Ready(term: Term, leader: bool, noop: nat, snapshot: Option<Snapshot>, committed: seq<Entry>, ghost log: seq<Entry>)
      requires Valid(log) && Covers(snapshot, applied, log)
      requires var from := if snapshot.Some? then snapshot.value.index else applied;
        from + |committed| <= |log| && committed == log[from..from + |committed|]
      modifies this
      ensures Valid(log)
      ensures Abs() == var r := if snapshot.Some? then Install(old(Abs()), snapshot.value.index, log) else old(Abs());
        PdTso.Ready(r, News(term, leader, noop, r.applied + |committed|), log)
    {
      this.term, this.leader := term, leader;
      if leader && !wasLeader { pendingReset := Some(noop); }
      if !leader { pendingReset := None; }
      wasLeader := leader;
      if snapshot.Some? { Restore(snapshot.value, log); }
      ApplyAll(committed, log);
      if pendingReset.Some? && applied >= pendingReset.value {
        served := tsoUpper;
        pendingReset := None;
      }
    }

    /** The snapshot holds the high-water of a longer prefix of the log. */
    static ghost predicate Covers(snapshot: Option<Snapshot>, applied: nat, log: seq<Entry>) {
      snapshot.Some? ==> applied <= snapshot.value.index <= |log| && snapshot.value.upper == Upper(log, snapshot.value.index)
    }

    /** `restore` never lowers the high-water, and the cursor follows it up. */
    method Restore(s: Snapshot, ghost log: seq<Entry>)
      requires Covers(Some(s), applied, log) && applied <= |log| && tsoUpper == Upper(log, applied)
      modifies `applied, `tsoUpper, `served
      ensures applied == s.index && tsoUpper == Upper(log, applied) && served == Max(old(served), tsoUpper)
    {
      UpperGrows(log, applied, s.index);
      applied := s.index;
      tsoUpper := Max(tsoUpper, s.upper);
      served := Max(served, tsoUpper);
    }

    method ApplyAll(committed: seq<Entry>, ghost log: seq<Entry>)
      requires applied + |committed| <= |log| && committed == log[applied..applied + |committed|]
      requires tsoUpper == Upper(log, applied)
      modifies `applied, `tsoUpper
      ensures applied == old(applied) + |committed| && tsoUpper == Upper(log, applied)
    {
      var i := 0;
      while i < |committed|
        invariant 0 <= i <= |committed| && applied == old(applied) + i && tsoUpper == Upper(log, applied)
      {
        assert committed[i] == log[old(applied) + i];
        if committed[i].reserve > tsoUpper { tsoUpper := committed[i].reserve; }
        applied := applied + 1;
        i := i + 1;
      }
    }

    /** Hand out `count` contiguous timestamps, or nothing if the window is exhausted. */
    method HandOut(count: nat, ghost log: seq<Entry>) returns (first: Option<nat>)
      requires Valid(log)
      modifies `served
      ensures first.Some? <==> CanServe(old(Abs()), count, log)
      ensures first.Some? <==> leader && old(served) + Max(count, 1) <= tsoUpper
      ensures first.Some? ==> first.value == old(served) && served == old(served) + Max(count, 1)
      ensures first.None? ==> served == old(served)
    {
      var n := Max(count, 1);
      if leader && served + n <= tsoUpper {
        first := Some(served);
        served := served + n;
      } else {
        first := None;
      }
    }

    /** The reservation to propose: once it is applied, among whatever else, the request and a whole window more can be
        served. */
    method ReserveTsCmd(count: nat, ghost log: seq<Entry>) returns (upper: nat)
      requires Valid(log)
      ensures upper == ReserveTs(Abs(), count, tsoUpper)
      ensures leader ==> forall later: seq<Entry>, m: nat | Reserved(later, m, upper) ::
        CanServe(Abs().(applied := m), Max(count, 1) + RESERVE_WINDOW, later)
    {
      var need := served + Max(count, 1);
      upper := Max(need, tsoUpper) + RESERVE_WINDOW;
      if leader {
        forall later: seq<Entry>, m: nat | Reserved(later, m, upper)
          ensures CanServe(Abs().(applied := m), Max(count, 1) + RESERVE_WINDOW, later)
        {
          ReserveSuffices(Abs(), count, tsoUpper, later, m);
        }
      }
    }
  }
}
