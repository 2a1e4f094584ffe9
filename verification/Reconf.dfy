/** Changing the members of a running group (raft/src/node.rs, `propose_conf_change` and the elections and commits
    around it). A membership takes effect when its entry is appended, so nodes elect and commit under different
    memberships. The history is the network: whoever may act on a message acts on what the history says was sent.

    `guarded` is the rule the code lacks: a leader changes the membership only once it has committed an entry of its own
    term. This module has the group and why, under that rule, later leaders hold what was committed. */
module Reconf {
  import opened Basics
  import opened ConfChange

  type NodeId = nat
  type Term = nat

  /** A log entry, with the membership in force from it on. */
  datatype Item = Item(term: Term, change: Option<Change>, conf: Conf)
  type Track = seq<Item>

  datatype Role = Follower | Candidate | Leader
  datatype Peer = Peer(role: Role, term: Term, log: Track, commit: nat)

  /** A granted vote: for whom, and the voter's log then. */
  datatype Ballot = Ballot(cand: NodeId, log: Track)
  /** A term's leadership: by whom elected, the log at election, the log and the commit index since. */
  datatype Reign = Reign(leader: NodeId, electors: set<NodeId>, start: Track, log: Track, commit: nat)
  /** A commit: who held it, and how long the leader's log was. */
  datatype Tally = Tally(who: set<NodeId>, upTo: nat)

  datatype Past = Past(
    ballots: map<(NodeId, Term), Ballot>,
    cands: map<(NodeId, Term), Track>,
    reigns: map<Term, Reign>,
    acks: set<(NodeId, Term, nat)>,
    commits: map<(Term, nat), Tally>)

  datatype World = World(peers: map<NodeId, Peer>, past: Past)

  // ---- logs and memberships ----------------------------------------------------------------

  predicate Shares(a: Track, b: Track, n: nat) { n <= |a| && n <= |b| && forall i | 0 <= i < n :: a[i] == b[i] }

  function LastTerm(log: Track): Term { if log == [] then 0 else log[|log| - 1].term }

  predicate UpToDate(cand: Track, log: Track) {
    LastTerm(cand) > LastTerm(log) || (LastTerm(cand) == LastTerm(log) && |cand| >= |log|)
  }

  /** The membership after the first `j` entries. */
  function ConfAt(c0: Conf, log: Track, j: nat): Conf
    requires j <= |log|
  {
    if j == 0 then c0 else log[j - 1].conf
  }

  function ConfOf(c0: Conf, log: Track): Conf { ConfAt(c0, log, |log|) }

  function Applied(c: Conf, change: Option<Change>): Conf {
    match change
    case None => c
    case Some(cc) => ApplyChange(c, cc)
  }

  ghost predicate FormedAt(c0: Conf, log: Track, k: nat)
    requires k < |log|
  {
    log[k].conf == Applied(ConfAt(c0, log, k), log[k].change)
  }

  ghost predicate Formed(c0: Conf, log: Track) {
    forall k: nat {:trigger FormedAt(c0, log, k)} | k < |log| :: FormedAt(c0, log, k)
  }

  /** Where the last membership change among the first `j` entries is; 0 if there is none. */
  function LastChange(log: Track, j: nat): (z: nat)
    requires j <= |log|
    ensures z <= j && (z > 0 ==> log[z - 1].change.Some?)
    ensures forall k | z <= k < j :: log[k].change.None?
  {
    if j == 0 then 0 else if log[j - 1].change.Some? then j else LastChange(log, j - 1)
  }

  lemma {:induction false} LastChangeShared(a: Track, b: Track, j: nat)
    requires Shares(a, b, j)
    ensures LastChange(a, j) == LastChange(b, j)
    decreases j
  {
    if j > 0 { LastChangeShared(a, b, j - 1); }
  }

  lemma {:induction false} LastChangeRises(log: Track, c: nat, j: nat)
    requires c <= j <= |log|
    ensures LastChange(log, c) <= LastChange(log, j) && (LastChange(log, j) <= c ==> LastChange(log, c) == LastChange(log, j))
    decreases j
  {
    if c < j { LastChangeRises(log, c, j - 1); }
  }

  /** With no change in between the membership is the same. */
  lemma {:induction false} ConfSteady(c0: Conf, log: Track, k: nat, j: nat)
    requires Formed(c0, log) && k <= j <= |log| && LastChange(log, j) <= k
    ensures ConfAt(c0, log, k) == ConfAt(c0, log, j)
    decreases j
  {
    if k < j {
      assert FormedAt(c0, log, j - 1);
      ConfSteady(c0, log, k, j - 1);
    }
  }

  /** Any majority of one meets any majority of the other. */
  ghost predicate Near(c: Conf, d: Conf) {
    forall p: set<nat>, q: set<nat> {:trigger Majority(p, c.voters), Majority(q, d.voters)} |
      Majority(p, c.voters) && Majority(q, d.voters) :: p * q != {}
  }

  lemma OneChangeNear(c: Conf, cc: Change)
    ensures Near(c, ApplyChange(c, cc)) && Near(ApplyChange(c, cc), c) && Near(c, c)
  {
    forall p: set<nat>, q: set<nat> | Majority(p, c.voters) && Majority(q, ApplyChange(c, cc).voters) ensures p * q != {} {
      MajoritiesMeet(c, cc, p, q);
    }
    forall p: set<nat>, q: set<nat> | Majority(p, c.voters) && Majority(q, c.voters) ensures p * q != {} {
      MajoritiesMeet(c, AddLearner(0), p, q);
    }
  }

  /** One change, at `z`, between two places of a log. */
  lemma AcrossOneChange(c0: Conf, log: Track, k: nat, z: nat, j: nat)
    requires Formed(c0, log) && k < z <= j <= |log| && LastChange(log, j) == z && LastChange(log, z - 1) <= k
    ensures Near(ConfAt(c0, log, k), ConfAt(c0, log, j)) && Near(ConfAt(c0, log, j), ConfAt(c0, log, k))
  {
    ConfSteady(c0, log, k, z - 1);
    ConfSteady(c0, log, z, j);
    assert FormedAt(c0, log, z - 1);
    OneChangeNear(ConfAt(c0, log, k), log[z - 1].change.value);
  }

  // ---- the group -------------------------------------------------------------------------------

  datatype Deed =
    | Campaign(p: NodeId)
    | Grant(p: NodeId, cand: NodeId, term: Term)
    | Crown(p: NodeId, who: set<NodeId>)
    | Append(p: NodeId, change: Option<Change>)
    | Accept(p: NodeId, term: Term, upTo: nat, leaderCommit: nat)
    | Count(p: NodeId, index: nat, who: set<NodeId>)
    | Adopt(p: NodeId, term: Term)
    | Restart(p: NodeId)

  /** No membership change is uncommitted and, under the guard, what was committed last is of the leader's own term. */
  predicate MayChange(n: Peer, guarded: bool) {
    && n.commit <= |n.log| && LastChange(n.log, |n.log|) <= n.commit
    && (guarded ==> n.commit > 0 && n.log[n.commit - 1].term == n.term)
  }

  ghost predicate Enabled(c0: Conf, w: World, d: Deed, guarded: bool) {
    && d.p in w.peers
    && var n, h := w.peers[d.p], w.past;
    match d
    case Campaign(p) => p in ConfOf(c0, n.log).voters
    case Grant(p, c, t) => (c, t) in h.cands && t >= n.term && (p, t) !in h.ballots && UpToDate(h.cands[(c, t)], n.log)
    case Crown(p, who) =>
      n.role == Candidate && Majority(who, ConfOf(c0, n.log).voters) && forall q | q in who :: VotedFor(h, q, n.term, p)
    case Append(p, change) =>
      n.role == Leader && n.term in h.reigns && (change.Some? ==> MayChange(n, guarded) && change.value != RemoveNode(p))
    case Accept(p, t, k, lc) =>
      t >= n.term && t in h.reigns && h.reigns[t].leader != p && k <= |h.reigns[t].log| && lc <= k && lc <= h.reigns[t].commit
    case Count(p, i, who) =>
      && n.role == Leader && n.term in h.reigns && n.commit < i <= |n.log| && n.log[i - 1].term == n.term
      && Majority(who, ConfOf(c0, n.log).voters) && forall q | q in who :: (q, n.term, i) in h.acks
    case Adopt(_, t) => t > n.term
    case Restart(_) => true
  }

  ghost predicate VotedFor(h: Past, q: NodeId, t: Term, c: NodeId) { (q, t) in h.ballots && h.ballots[(q, t)].cand == c }

  function NextItem(c0: Conf, n: Peer, change: Option<Change>): Item { Item(n.term, change, Applied(ConfOf(c0, n.log), change)) }

  /** What an append that reaches `k` leaves: the log if it agrees that far, else the leader's. */
  function Spliced(log: Track, leader: Track, k: nat): Track
    requires k <= |leader|
  {
    if Shares(log, leader, k) then log else leader[..k]
  }

  function Max(a: nat, b: nat): nat { if a >= b then a else b }

  ghost function PeerAfter(c0: Conf, w: World, d: Deed): Peer
    requires Enabled(c0, w, d, false)
  {
    var n := w.peers[d.p];
    match d
    case Campaign(_) => n.(role := Candidate, term := n.term + 1)
    case Grant(_, _, t) => n.(role := Follower, term := t)
    case Crown(_, _) => n.(role := Leader)
    case Append(_, change) => n.(log := n.log + [NextItem(c0, n, change)])
    case Accept(_, t, k, lc) =>
      Peer(Follower, t, Spliced(n.log, w.past.reigns[t].log, k), Max(n.commit, lc))
    case Count(_, i, _) => n.(commit := i)
    case Adopt(_, t) => n.(role := Follower, term := t)
    case Restart(_) => n.(role := Follower, commit := 0)
  }

  ghost function Acked(h: Past, p: NodeId, t: Term, upTo: nat): Past { h.(acks := h.acks + set i: nat | i <= upTo :: (p, t, i)) }

  ghost function PastAfter(c0: Conf, w: World, d: Deed): Past
    requires Enabled(c0, w, d, false)
  {
    var n, h := w.peers[d.p], w.past;
    match d
    case Campaign(p) => h.(ballots := h.ballots[(p, n.term + 1) := Ballot(p, n.log)], cands := h.cands[(p, n.term + 1) := n.log])
    case Grant(p, c, t) => h.(ballots := h.ballots[(p, t) := Ballot(c, n.log)])
    case Crown(p, who) => Acked(h.(reigns := h.reigns[n.term := Reign(p, who, n.log, n.log, n.commit)]), p, n.term, |n.log|)
    case Append(p, change) =>
      var log := n.log + [NextItem(c0, n, change)];
      Acked(h.(reigns := h.reigns[n.term := h.reigns[n.term].(log := log)]), p, n.term, |log|)
    case Accept(p, t, k, _) => Acked(h, p, t, k)
    case Count(p, i, who) =>
      h.(reigns := h.reigns[n.term := h.reigns[n.term].(commit := i)], commits := h.commits[(n.term, i) := Tally(who, |n.log|)])
    case Adopt(_, _) => h
    case Restart(_) => h
  }

  ghost function Do(c0: Conf, w: World, d: Deed): World
    requires Enabled(c0, w, d, false)
  {
    World(w.peers[d.p := PeerAfter(c0, w, d)], PastAfter(c0, w, d))
  }

  // ---- what the history satisfies -----------------------------------------------------------------

  ghost predicate GoodLog(h: Past, log: Track) {
    forall k: nat {:trigger GoodAt(h, log, k)} | k < |log| :: GoodAt(h, log, k)
  }

  /** The entry sits where the leader of its term put it, under the same prefix. */
  ghost predicate GoodAt(h: Past, log: Track, k: nat)
    requires k < |log|
  {
    log[k].term in h.reigns && Shares(log, h.reigns[log[k].term].log, k + 1)
  }

  ghost predicate TermsBelow(log: Track, t: Term) { forall k | 0 <= k < |log| :: log[k].term < t }

  /** Some leader after `t`, at or below `bound`, was elected without the first `i` entries of term `t`'s log. */
  ghost predicate Excused(h: Past, t: Term, i: nat, bound: nat)
    requires t in h.reigns
  {
    exists u :: t < u <= bound && u in h.reigns && !Shares(h.reigns[u].start, h.reigns[t].log, i)
  }

  ghost predicate Kept(h: Past, log: Track, t: Term, i: nat, bound: nat)
    requires t in h.reigns
  {
    Shares(log, h.reigns[t].log, i) || Excused(h, t, i, bound)
  }

  /** A majority of a candidate's own membership voted for it. */
  ghost predicate Elected(c0: Conf, h: Past, c: NodeId, t: Term, who: set<NodeId>) {
    && (c, t) in h.cands && Majority(who, ConfOf(c0, h.cands[(c, t)]).voters)
    && forall q | q in who :: VotedFor(h, q, t, c)
  }

  /** A membership change of a reign came after a commit of that reign which covers every change before it. */
  ghost predicate Backed(h: Past, t: Term, x: nat, c: nat)
    requires t in h.reigns && 1 <= x <= |h.reigns[t].log|
  {
    && (t, c) in h.commits && c <= h.commits[(t, c)].upTo < x
    && LastChange(h.reigns[t].log, x - 1) <= c
  }

  ghost predicate ChangeOk(h: Past, t: Term, x: nat)
    requires t in h.reigns && 1 <= x <= |h.reigns[t].log|
  {
    exists c: nat :: Backed(h, t, x, c)
  }

  ghost predicate ReignOk(c0: Conf, h: Past, t: Term)
    requires t in h.reigns
  {
    var r := h.reigns[t];
    && t >= 1 && Elected(c0, h, r.leader, t, r.electors) && h.cands[(r.leader, t)] == r.start
    && Shares(r.start, r.log, |r.start|)
    && (forall k | |r.start| <= k < |r.log| :: r.log[k].term == t)
    && GoodLog(h, r.log) && Formed(c0, r.log)
    && (forall x: nat {:trigger ChangeOk(h, t, x)} | |r.start| < x <= |r.log| && r.log[x - 1].change.Some? :: ChangeOk(h, t, x))
    && Settled(h, r.log, r.commit, t)
  }

  ghost predicate CandOk(h: Past, c: NodeId, t: Term)
    requires (c, t) in h.cands
  {
    t >= 1 && GoodLog(h, h.cands[(c, t)]) && TermsBelow(h.cands[(c, t)], t)
  }

  ghost predicate BallotOk(h: Past, p: NodeId, t: Term)
    requires (p, t) in h.ballots
  {
    var b := h.ballots[(p, t)];
    GoodLog(h, b.log) && (b.cand, t) in h.cands && UpToDate(h.cands[(b.cand, t)], b.log)
  }

  /** A vote that elected a leader, or still could. */
  ghost predicate Counts(h: Past, p: NodeId, u: Term) { u in h.reigns ==> p in h.reigns[u].electors }

  /** When `p` voted in the later term `u` it still held what it acknowledged in `t`. */
  ghost predicate BallotKeeps(h: Past, p: NodeId, u: Term, t: Term, i: nat)
    requires (p, u) in h.ballots && t in h.reigns && t < u
  {
    Kept(h, h.ballots[(p, u)].log, t, i, if Counts(h, p, u) then u - 1 else u)
  }

  ghost predicate AckOk(h: Past, p: NodeId, t: Term, i: nat) {
    && t in h.reigns && i <= |h.reigns[t].log|
    && (forall j: nat | j <= i :: (p, t, j) in h.acks)
    && (forall u: Term {:trigger BallotKeeps(h, p, u, t, i)} | (p, u) in h.ballots && t < u :: BallotKeeps(h, p, u, t, i))
  }

  ghost predicate CommitOk(c0: Conf, h: Past, t: Term, i: nat)
    requires (t, i) in h.commits
  {
    var y := h.commits[(t, i)];
    && t in h.reigns && 1 <= i <= y.upTo <= |h.reigns[t].log| && h.reigns[t].log[i - 1].term == t
    && Majority(y.who, ConfAt(c0, h.reigns[t].log, y.upTo).voters)
    && forall q | q in y.who :: (q, t, i) in h.acks
  }

  ghost predicate PastOk(c0: Conf, h: Past) {
    && (forall t {:trigger ReignOk(c0, h, t)} | t in h.reigns :: ReignOk(c0, h, t))
    && (forall c, t {:trigger CandOk(h, c, t)} | (c, t) in h.cands :: CandOk(h, c, t))
    && (forall p, t {:trigger BallotOk(h, p, t)} | (p, t) in h.ballots :: BallotOk(h, p, t))
    && (forall p, t, i {:trigger AckOk(h, p, t, i)} | (p, t, i) in h.acks :: AckOk(h, p, t, i))
    && (forall t, i {:trigger CommitOk(c0, h, t, i)} | (t, i) in h.commits :: CommitOk(c0, h, t, i))
  }

  /** The first `c` entries of `log` were counted by the leader of some term up to `t`. */
  ghost predicate Settled(h: Past, log: Track, c: nat, t: Term) {
    c <= |log| && (c == 0 || exists t0: Term, j: nat :: (t0, j) in h.commits && SettledBy(h, log, c, t, t0, j))
  }

  ghost predicate SettledBy(h: Past, log: Track, c: nat, t: Term, t0: Term, j: nat) {
    t0 <= t && c <= j && t0 in h.reigns && Shares(log, h.reigns[t0].log, c)
  }

  // ---- facts about good logs ---------------------------------------------------------------------------

  lemma ReignFacts(c0: Conf, h: Past, t: Term)
    requires PastOk(c0, h) && t in h.reigns
    ensures ReignOk(c0, h, t) && CandOk(h, h.reigns[t].leader, t)
  {
    assert ReignOk(c0, h, t);
  }

  lemma CommitFacts(c0: Conf, h: Past, t: Term, i: nat)
    requires PastOk(c0, h) && (t, i) in h.commits
    ensures CommitOk(c0, h, t, i)
  {
    assert CommitOk(c0, h, t, i);
  }

  lemma TermsAscend(c0: Conf, h: Past, log: Track, j: nat, k: nat)
    requires PastOk(c0, h) && GoodLog(h, log) && j <= k < |log|
    ensures log[j].term <= log[k].term
  {
    assert GoodAt(h, log, k);
    var t := log[k].term;
    ReignFacts(c0, h, t);
    var r := h.reigns[t];
    assert log[j] == r.log[j];
    if j < |r.start| { assert r.log[j] == r.start[j]; }
  }

  /** An entry of term `t` comes after the log its leader started from. */
  lemma OwnEntry(c0: Conf, h: Past, t: Term, k: nat)
    requires PastOk(c0, h) && t in h.reigns && k < |h.reigns[t].log| && h.reigns[t].log[k].term == t
    ensures |h.reigns[t].start| <= k
  {
    ReignFacts(c0, h, t);
    var r := h.reigns[t];
    forall i | 0 <= i < |r.start| ensures r.log[i].term < t { assert r.log[i] == r.start[i]; }
  }

  /** A log is a prefix of the log of its last term's leader, and longer than what that leader started from. */
  lemma LastReign(c0: Conf, h: Past, log: Track)
    requires PastOk(c0, h) && GoodLog(h, log) && log != []
    ensures LastTerm(log) in h.reigns && Shares(log, h.reigns[LastTerm(log)].log, |log|)
    ensures |h.reigns[LastTerm(log)].start| < |log|
  {
    var last: nat := |log| - 1;
    assert GoodAt(h, log, last);
    OwnEntry(c0, h, LastTerm(log), last);
  }

  lemma GoodFormed(c0: Conf, h: Past, log: Track)
    requires PastOk(c0, h) && GoodLog(h, log)
    ensures Formed(c0, log)
  {
    forall k: nat | k < |log| ensures FormedAt(c0, log, k) {
      assert GoodAt(h, log, k);
      ReignFacts(c0, h, log[k].term);
      assert FormedAt(c0, h.reigns[log[k].term].log, k);
    }
  }

  // ---- memberships of complete logs ---------------------------------------------------------------------

  /** What every leader before `t` counted is there. */
  ghost predicate Holds(h: Past, log: Track, t: Term) {
    forall b: Term, c: nat {:trigger (b, c) in h.commits} | (b, c) in h.commits && b < t && b in h.reigns :: Shares(log, h.reigns[b].log, c)
  }

  /** A log of a candidate for `t` or later: good, of terms before `t`, with every commit before `t`. */
  ghost predicate Whole(h: Past, log: Track, t: Term) { GoodLog(h, log) && TermsBelow(log, t) && Holds(h, log, t) }

  ghost function ChangeTerm(log: Track): Term { var z := LastChange(log, |log|); if z == 0 then 0 else log[z - 1].term }

  /** The last change of `log` was made by the leader of `u`, at `x`. */
  ghost predicate ChangedIn(c0: Conf, h: Past, log: Track, u: Term, x: nat) {
    && x == LastChange(log, |log|) && u in h.reigns && 1 <= x <= |h.reigns[u].log| && LastChange(h.reigns[u].log, x) == x
    && ConfOf(c0, log) == ConfAt(c0, h.reigns[u].log, x) && Formed(c0, log) && Formed(c0, h.reigns[u].log)
  }

  lemma LastChangeHome(c0: Conf, h: Past, log: Track, u: Term, y: nat)
    requires PastOk(c0, h) && GoodLog(h, log) && y == LastChange(log, |log|) > 0 && u == log[y - 1].term
    ensures ChangedIn(c0, h, log, u, y) && ChangeOk(h, u, y)
  {
    assert GoodAt(h, log, y - 1);
    OwnEntry(c0, h, u, y - 1);
    ReignFacts(c0, h, u);
    LastChangeShared(log, h.reigns[u].log, y);
    GoodFormed(c0, h, log);
    ConfSteady(c0, log, y, |log|);
    assert h.reigns[u].log[y - 1] == log[y - 1];
    assert ChangeOk(h, u, y);
  }

  /** A log that holds everything before a change of `r`, and nothing changed since, is one change away from it. */
  lemma BeforeChange(c0: Conf, log: Track, r: Track, c: nat, y: nat)
    requires Formed(c0, log) && Formed(c0, r) && Shares(log, r, c) && c < y <= |r| && LastChange(r, y) == y && LastChange(r, y - 1) <= c
    requires LastChange(log, |log|) <= c
    ensures Near(ConfOf(c0, log), ConfAt(c0, r, y)) && Near(ConfAt(c0, r, y), ConfOf(c0, log))
  {
    ConfSteady(c0, log, c, |log|);
    AcrossOneChange(c0, r, c, y, y);
  }

  /** Two logs of which the second's last change is at least as late. */
  lemma NearOrdered(c0: Conf, h: Past, a: Track, b: Track, t: Term)
    requires PastOk(c0, h) && Whole(h, a, t) && Whole(h, b, t) && ChangeTerm(a) <= ChangeTerm(b)
    ensures Near(ConfOf(c0, a), ConfOf(c0, b)) && Near(ConfOf(c0, b), ConfOf(c0, a))
  {
    var y := LastChange(b, |b|);
    GoodFormed(c0, h, a);
    GoodFormed(c0, h, b);
    if y == 0 {
      NoChange(c0, h, a, b);
    } else {
      var u := b[y - 1].term;
      LastChangeHome(c0, h, b, u, y);
      var c: nat :| Backed(h, u, y, c);
      NearLater(c0, h, a, b, t, u, y, c);
    }
  }

  lemma NearLater(c0: Conf, h: Past, a: Track, b: Track, t: Term, u: Term, y: nat, c: nat)
    requires PastOk(c0, h) && Whole(h, a, t) && Whole(h, b, t) && u < t && Formed(c0, a)
    requires ChangedIn(c0, h, b, u, y) && Backed(h, u, y, c) && ChangeTerm(a) <= u
    ensures Near(ConfOf(c0, a), ConfOf(c0, b)) && Near(ConfOf(c0, b), ConfOf(c0, a))
  {
    var x, r := LastChange(a, |a|), h.reigns[u].log;
    CommitFacts(c0, h, u, c);
    assert Shares(a, r, c);
    if x <= c {
      BeforeChange(c0, a, r, c, y);
    } else {
      assert a[c - 1] == r[c - 1];
      LaterChange(c0, h, a, u, c);
      LastChangeHome(c0, h, a, u, x);
      SameReign(c0, h, a, b, t, u, x, y, c);
    }
  }

  lemma NoChange(c0: Conf, h: Past, a: Track, b: Track)
    requires PastOk(c0, h) && GoodLog(h, a) && Formed(c0, a) && Formed(c0, b) && ChangeTerm(a) <= ChangeTerm(b) && LastChange(b, |b|) == 0
    ensures Near(ConfOf(c0, a), ConfOf(c0, b)) && Near(ConfOf(c0, b), ConfOf(c0, a))
  {
    var x := LastChange(a, |a|);
    if x > 0 {
      assert GoodAt(h, a, x - 1);
      ReignFacts(c0, h, a[x - 1].term);
    }
    ConfSteady(c0, a, 0, |a|);
    ConfSteady(c0, b, 0, |b|);
    OneChangeNear(c0, AddLearner(0));
  }

  /** A change after an entry of term `u`, made no later than `u`, was made in `u`. */
  lemma LaterChange(c0: Conf, h: Past, log: Track, u: Term, c: nat)
    requires PastOk(c0, h) && GoodLog(h, log) && 1 <= c < LastChange(log, |log|) && log[c - 1].term == u && ChangeTerm(log) <= u
    ensures ChangeTerm(log) == u
  {
    TermsAscend(c0, h, log, c - 1, LastChange(log, |log|) - 1);
  }

  /** Both last changes were made by one leader. */
  lemma SameReign(c0: Conf, h: Past, a: Track, b: Track, t: Term, u: Term, x: nat, y: nat, c: nat)
    requires PastOk(c0, h) && Whole(h, b, t) && u < t && ChangedIn(c0, h, a, u, x) && ChangedIn(c0, h, b, u, y)
    requires x > c && Backed(h, u, y, c) && ChangeOk(h, u, x)
    ensures Near(ConfOf(c0, a), ConfOf(c0, b)) && Near(ConfOf(c0, b), ConfOf(c0, a))
  {
    var r, last: nat := h.reigns[u].log, y - 1;
    if x <= last { LastChangeRises(r, x, last); }
    if x == y {
      OneChangeNear(ConfOf(c0, a), AddLearner(0));
    } else {
      var d: nat :| Backed(h, u, x, d);
      assert Shares(b, r, d);
      LastChangeRises(r, y, x - 1);
      BeforeChange(c0, b, r, d, x);
    }
  }

  /** Whatever two such logs a group elects under, majorities meet. */
  lemma WholeNear(c0: Conf, h: Past, a: Track, b: Track, t: Term)
    requires PastOk(c0, h) && Whole(h, a, t) && Whole(h, b, t)
    ensures Near(ConfOf(c0, a), ConfOf(c0, b))
  {
    if ChangeTerm(a) <= ChangeTerm(b) { NearOrdered(c0, h, a, b, t); } else { NearOrdered(c0, h, b, a, t); }
  }
}
