/** The timestamp oracle of the placement driver (pd/src/replicated.rs): a window of timestamps is reserved
    through the replicated log, and the leader spends it locally. Raft is abstracted to what it guarantees:
    one committed log with non-decreasing terms, one leader a term, and a new leader's log that already
    holds every committed entry of an earlier term. */
module PdTso {
  import opened Basics

  type Id = nat
  type Term = nat

  const RESERVE_WINDOW: nat := 0x1_0000

  /** A committed entry; `reserve` is the high-water a `ReserveTs` carries, 0 for any other command. */
  datatype Entry = Entry(term: Term, reserve: nat)

  function Max(a: nat, b: nat): nat { if a >= b then a else b }

  /** `PdFsm::apply` folds the high-water with `fetch_max`. */
  function Upper(log: seq<Entry>, n: nat): nat
    requires n <= |log|
  {
    if n == 0 then 0 else Max(Upper(log, n - 1), log[n - 1].reserve)
  }

  // ---- one replica ----------------------------------------------------------------------

  datatype Replica = Replica(term: Term, leader: bool, applied: nat, served: nat, pending: Option<nat>)

  /** What Raft tells the replica in one driver call: its term and role, where its no-op went if it just
      won, and how far the log is known committed. */
  datatype News = News(term: Term, leader: bool, noop: nat, applied: nat)

  /** `ready`, run after every driver call. */
  function Ready(r: Replica, w: News, log: seq<Entry>): Replica
    requires w.applied <= |log|
  {
    var pending := if Won(r, w) then Some(w.noop) else if !w.leader then None else r.pending;
    if pending.Some? && w.applied >= pending.value
    then Replica(w.term, w.leader, w.applied, Upper(log, w.applied), None)
    else Replica(w.term, w.leader, w.applied, r.served, pending)
  }

  /** `ready` when the leader's snapshot superseded the log. */
  function Install(r: Replica, n: nat, log: seq<Entry>): Replica
    requires n <= |log|
  {
    r.(applied := n, served := Max(r.served, Upper(log, n)))
  }

  /** A restart recovers the snapshot and replays the rest later. */
  function Recover(r: Replica, n: nat, log: seq<Entry>): Replica
    requires n <= |log|
  {
    Replica(r.term, false, n, Upper(log, n), None)
  }

  predicate CanServe(r: Replica, count: nat, log: seq<Entry>) {
    r.applied <= |log| && r.leader && r.served + Max(count, 1) <= Upper(log, r.applied)
  }

  function ReserveTs(r: Replica, count: nat, upper: nat): nat {
    Max(r.served + Max(count, 1), upper) + RESERVE_WINDOW
  }

  // ---- the group -------------------------------------------------------------------------

  datatype Range = Range(term: Term, lo: nat, hi: nat)

  datatype Pd = Pd(log: seq<Entry>, wins: map<Term, (Id, nat)>, replicas: map<Id, Replica>, ranges: seq<Range>)

  datatype Action =
    | CommitEntry(entry: Entry)
    | Driver(id: Id, news: News)
    | SnapshotFrom(id: Id, index: nat)
    | Restart(id: Id, index: nat)
    | HandOut(id: Id, count: nat)

  /** The first `n` entries are of terms up to `t`. */
  predicate Within(log: seq<Entry>, n: nat, t: Term) { n <= |log| && (n > 0 ==> log[n - 1].term <= t) }

  /** What Raft promises of a committed entry: terms do not decrease, and an entry of an earlier term lies
      below every later leader's no-op. */
  predicate MayCommit(g: Pd, e: Entry) {
    && (|g.log| > 0 ==> g.log[|g.log| - 1].term <= e.term)
    && forall t: Term | t in g.wins && e.term < t :: |g.log| + 1 < g.wins[t].1
  }

  predicate Won(r: Replica, w: News) { w.leader && !r.leader }

  /** What Raft promises of a role change: terms do not decrease, a leader learns of its loss before it
      wins again, a term is won once, and the winner's no-op comes after every committed entry of an
      earlier term. */
  predicate MayHear(g: Pd, id: Id, w: News) {
    id in g.replicas && g.replicas[id].term <= w.term && g.replicas[id].applied <= w.applied
    && Within(g.log, w.applied, w.term) && (g.replicas[id].leader && w.leader ==> w.term == g.replicas[id].term)
    && (Won(g.replicas[id], w) ==>
          && w.term !in g.wins && 0 < w.noop
          && forall i: nat | i < |g.log| && g.log[i].term < w.term :: i + 1 < w.noop)
  }

  /** `guarded` says whether the driver waits for a pending reset before handing out. */
  predicate Enabled(g: Pd, a: Action, guarded: bool) {
    match a
    case CommitEntry(e) => MayCommit(g, e)
    case Driver(id, w) => MayHear(g, id, w)
    case SnapshotFrom(id, n) =>
      id in g.replicas && !g.replicas[id].leader && g.replicas[id].applied <= n && Within(g.log, n, g.replicas[id].term)
    case Restart(id, n) => id in g.replicas && n <= g.replicas[id].applied && n <= |g.log|
    case HandOut(id, count) =>
      id in g.replicas && CanServe(g.replicas[id], count, g.log) && (guarded ==> g.replicas[id].pending.None?)
  }

  function Do(g: Pd, a: Action): Pd
    requires Enabled(g, a, false)
  {
    match a
    case CommitEntry(e) => g.(log := g.log + [e])
    case Driver(id, w) =>
      g.(replicas := g.replicas[id := Ready(g.replicas[id], w, g.log)],
         wins := if Won(g.replicas[id], w) then g.wins[w.term := (id, w.noop)] else g.wins)
    case SnapshotFrom(id, n) => g.(replicas := g.replicas[id := Install(g.replicas[id], n, g.log)])
    case Restart(id, n) => g.(replicas := g.replicas[id := Recover(g.replicas[id], n, g.log)])
    case HandOut(id, count) =>
      var r := g.replicas[id];
      g.(replicas := g.replicas[id := r.(served := r.served + Max(count, 1))],
         ranges := g.ranges + [Range(r.term, r.served, r.served + Max(count, 1))])
  }

  function Start(ids: set<Id>): Pd { Pd([], map[], map i | i in ids :: Replica(0, false, 0, 0, None), []) }

  ghost predicate Moves(g: Pd, h: Pd, guarded: bool) {
    exists a: Action :: Enabled(g, a, guarded) && Enabled(g, a, false) && h == Do(g, a)
  }

  ghost predicate Run(st: seq<Pd>, guarded: bool) {
    && |st| > 0 && (exists ids: set<Id> :: st[0] == Start(ids))
    && forall i | 0 <= i < |st| - 1 :: Moves(st[i], st[i + 1], guarded)
  }

  /** Two ranges handed out at different moments share no timestamp, and the later term's is above. */
  predicate Apart(a: Range, b: Range) {
    && a.lo < a.hi && b.lo < b.hi && (a.hi <= b.lo || b.hi <= a.lo)
    && (a.term < b.term ==> a.hi <= b.lo) && (b.term < a.term ==> b.hi <= a.lo)
  }
}
