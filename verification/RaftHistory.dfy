/** What a Raft group has done so far, kept as history beside the nodes, and the invariants that tie
    each node to it. The history is a proof device: no node reads it. */
module RaftHistory {
  import opened Basics
  import opened RaftNode

  /** A granted vote: for whom, and the voter's log when it was granted. */
  datatype Ballot = Ballot(cand: NodeId, log: Log)

  /** One term's leadership: who, elected by whom, the log at election and the log since. */
  datatype Reign = Reign(leader: NodeId, electors: set<NodeId>, start: Log, log: Log)

  /** Votes, elections, acknowledgements and commits. */
  datatype Past = Past(
    ballots: map<(NodeId, Term), Ballot>,      // by (voter, term)
    cands: map<(NodeId, Term), Log>,           // a candidate's log, by (candidate, term)
    reigns: map<Term, Reign>,
    acks: set<(NodeId, Term, nat)>,            // voter held the term's log up to an index
    commits: map<(Term, nat), set<NodeId>>)    // (term, index) counted, by this quorum

  datatype Hist = Hist(
    past: Past,
    sent: set<Message>,                                  // every message ever emitted
    regs: map<(NodeId, Term, nat), set<(Term, nat)>>)    // read (leader, term, round) -> commits before it

  // ---- vocabulary ------------------------------------------------------------

  ghost predicate Agree(a: Log, b: Log, n: nat) {
    n <= |a| && n <= |b| && forall i | 0 <= i < n :: a[i] == b[i]
  }

  ghost predicate IsQuorum(V: set<NodeId>, q: set<NodeId>) {
    q <= V && |q| >= |V| / 2 + 1
  }

  lemma QuorumsMeet(V: set<NodeId>, a: set<NodeId>, b: set<NodeId>) returns (x: NodeId)
    requires IsQuorum(V, a) && IsQuorum(V, b)
    ensures x in a && x in b
  {
    if a * b == {} {
      assert |a + b| == |a| + |b|;
      SubsetSize(a + b, V);
      assert false;
    }
    x :| x in a * b;
  }

  lemma {:induction false} SubsetSize<T>(a: set<T>, b: set<T>)
    requires a <= b
    ensures |a| <= |b|
  {
    assert b == a + (b - a);
    assert |b| == |a| + |b - a|;
  }

  /** Every entry sits where the leader of its term put it, under the same prefix. */
  ghost predicate GoodLog(h: Past, log: Log) {
    forall k: nat {:trigger GoodAt(h, log, k)} | k < |log| :: GoodAt(h, log, k)
  }

  ghost predicate GoodAt(h: Past, log: Log, k: nat)
    requires k < |log|
  {
    log[k].index == k + 1 && log[k].term in h.reigns && Agree(log, h.reigns[log[k].term].log, k + 1)
  }

  ghost predicate TermsBelow(log: Log, t: Term) { forall k | 0 <= k < |log| :: log[k].term < t }
  ghost predicate TermsUpTo(log: Log, t: Term) { forall k | 0 <= k < |log| :: log[k].term <= t }

  /** Some leader after `t`, at or below `bound`, was elected without the first `i` entries of
      term `t`'s log. */
  ghost predicate Excused(h: Past, t: Term, i: nat, bound: nat)
    requires t in h.reigns
  {
    exists u :: t < u <= bound && u in h.reigns && !Agree(h.reigns[u].start, h.reigns[t].log, i)
  }

  ghost predicate Kept(h: Past, log: Log, t: Term, i: nat, bound: nat)
    requires t in h.reigns
  {
    Agree(log, h.reigns[t].log, i) || Excused(h, t, i, bound)
  }

  /** The first `c` entries of `log` were counted by the leader of some term up to `t`. */
  ghost predicate Settled(h: Past, log: Log, c: nat, t: Term) {
    c <= |log| &&
    (c == 0 || exists t0: Term, j: nat :: (t0, j) in h.commits && SettledBy(h, log, c, t, t0, j))
  }

  ghost predicate SettledBy(h: Past, log: Log, c: nat, t: Term, t0: Term, j: nat) {
    t0 <= t && c <= j && t0 in h.reigns && Agree(log, h.reigns[t0].log, c)
  }

  // ---- the history by itself --------------------------------------------------

  ghost predicate ReignOk(V: set<NodeId>, h: Past, t: Term)
    requires t in h.reigns
  {
    var r := h.reigns[t];
    && t >= 1
    && IsQuorum(V, r.electors)
    && (r.leader, t) in h.cands && h.cands[(r.leader, t)] == r.start
    && Agree(r.start, r.log, |r.start|)
    && (forall k | |r.start| <= k < |r.log| :: r.log[k].term == t)
    && GoodLog(h, r.log)
    && (forall q | q in r.electors :: (q, t) in h.ballots && h.ballots[(q, t)].cand == r.leader)
  }

  ghost predicate CandOk(h: Past, c: NodeId, t: Term)
    requires (c, t) in h.cands
  {
    t >= 1 && GoodLog(h, h.cands[(c, t)]) && TermsBelow(h.cands[(c, t)], t)
  }

  ghost predicate BallotOk(h: Past, p: NodeId, t: Term)
    requires (p, t) in h.ballots
  {
    var b := h.ballots[(p, t)];
    && GoodLog(h, b.log)
    && (b.cand, t) in h.cands
    && UpToDate(|h.cands[(b.cand, t)]|, LastTerm(h.cands[(b.cand, t)]), b.log)
  }

  ghost predicate AckOk(h: Past, p: NodeId, t: Term, i: nat) {
    && t in h.reigns
    && i <= |h.reigns[t].log|
    && (forall j: nat | j <= i :: (p, t, j) in h.acks)
    && (forall u: Term {:trigger BallotKeeps(h, p, u, t, i)} | Counts(h, p, u) && t < u :: BallotKeeps(h, p, u, t, i))
  }

  /** A vote that elected a leader, or still could. */
  ghost predicate Counts(h: Past, p: NodeId, u: Term) {
    (p, u) in h.ballots && (u in h.reigns ==> p in h.reigns[u].electors)
  }

  /** When `p` voted in the later term `u` it still held what it acknowledged in `t`. */
  ghost predicate BallotKeeps(h: Past, p: NodeId, u: Term, t: Term, i: nat)
    requires (p, u) in h.ballots && t in h.reigns && t < u
  {
    Kept(h, h.ballots[(p, u)].log, t, i, u - 1)
  }

  ghost predicate CommitOk(V: set<NodeId>, h: Past, t: Term, i: nat)
    requires (t, i) in h.commits
  {
    && t in h.reigns
    && 1 <= i <= |h.reigns[t].log|
    && h.reigns[t].log[i - 1].term == t
    && IsQuorum(V, h.commits[(t, i)])
    && (forall q | q in h.commits[(t, i)] :: (q, t, i) in h.acks)
  }

  ghost predicate RegOk(h: Hist, p: NodeId, t: Term, r: nat)
    requires (p, t, r) in h.regs
  {
    && t in h.past.reigns && h.past.reigns[t].leader == p
    && h.regs[(p, t, r)] <= h.past.commits.Keys
  }

  ghost predicate PastOk(V: set<NodeId>, h: Past) {
    && (forall t {:trigger ReignOk(V, h, t)} | t in h.reigns :: ReignOk(V, h, t))
    && (forall c, t {:trigger CandOk(h, c, t)} | (c, t) in h.cands :: CandOk(h, c, t))
    && (forall p, t {:trigger BallotOk(h, p, t)} | (p, t) in h.ballots :: BallotOk(h, p, t))
    && (forall p, t, i {:trigger AckOk(h, p, t, i)} | (p, t, i) in h.acks :: AckOk(h, p, t, i))
    && (forall t, i {:trigger CommitOk(V, h, t, i)} | (t, i) in h.commits :: CommitOk(V, h, t, i))
  }

  ghost predicate HistOk(V: set<NodeId>, h: Hist) {
    PastOk(V, h.past) && forall p, t, r {:trigger RegOk(h, p, t, r)} | (p, t, r) in h.regs :: RegOk(h, p, t, r)
  }

  // ---- messages ----------------------------------------------------------------

  ghost predicate AppendOk(h: Past, m: Message)
    requires m.body.Append?
  {
    var b := m.body;
    && m.term in h.reigns && h.reigns[m.term].leader == m.from
    && var log := h.reigns[m.term].log;
    && b.prevIndex + |b.entries| <= |log|
    && (forall k | 0 <= k < |b.entries| :: b.entries[k] == log[b.prevIndex + k])
    && TermAt(log, b.prevIndex) == Some(b.prevTerm)
    && b.leaderCommit <= b.prevIndex + |b.entries|
    && Settled(h, log, b.leaderCommit, m.term)
  }

  /** An answer carries the round of an append it answers, and a success is an acknowledgement. */
  ghost predicate AppendRespOk(h: Hist, m: Message)
    requires m.body.AppendResp?
  {
    && (exists a :: a in h.sent && Answers(m, a))
    && (m.body.success ==> (m.from, m.term, m.body.matchIndex) in h.past.acks)
  }

  ghost predicate Answers(m: Message, a: Message)
    requires m.body.AppendResp?
  {
    a.body.Append? && a.from == m.to && a.to == m.from && a.body.round == m.body.echo
  }

  ghost predicate MsgOk(V: set<NodeId>, h: Hist, m: Message) {
    && m.from in V && m.to in V
    && match m.body
       case RequestVote(i, t) =>
         && (m.from, m.term) in h.past.cands
         && i == |h.past.cands[(m.from, m.term)]| && t == LastTerm(h.past.cands[(m.from, m.term)])
       case VoteResp(granted) =>
         granted ==> (m.from, m.term) in h.past.ballots && h.past.ballots[(m.from, m.term)].cand == m.to
       case Append(_, _, _, _, _) => AppendOk(h.past, m)
       case AppendResp(_, _, _) => AppendRespOk(h, m)
       case TimeoutNow => true
  }

  /** Whoever answered in term `t` at a round no older than a registered read had not yet elected
      any later leader that had committed before that read. */
  ghost predicate EchoOk(h: Hist, m: Message)
    requires m.body.AppendResp?
  {
    forall r | (m.to, m.term, r) in h.regs && r <= m.body.echo ::
      NotDeposing(h.past, m.from, m.term, h.regs[(m.to, m.term, r)])
  }

  ghost predicate NotDeposing(h: Past, q: NodeId, t: Term, before: set<(Term, nat)>) {
    forall t0, i | (t0, i) in before && t0 > t && t0 in h.reigns :: q !in h.reigns[t0].electors
  }

  ghost predicate MsgsOk(V: set<NodeId>, h: Hist) {
    && (forall m {:trigger MsgOk(V, h, m)} | m in h.sent :: MsgOk(V, h, m))
    && (forall m {:trigger EchoOk(h, m)} | m in h.sent && m.body.AppendResp? :: EchoOk(h, m))
  }

  // ---- nodes -------------------------------------------------------------------

  ghost predicate VotesOk(h: Past, p: NodeId, n: Node) {
    && (forall t | (p, t) in h.ballots :: t <= n.term)
    && (forall t | (p, t) in h.cands :: t <= n.term)
    && ((p, n.term) in h.ballots ==> n.vote == Some(h.ballots[(p, n.term)].cand))
    && (n.vote.Some? ==> (p, n.term) in h.ballots)
  }

  ghost predicate CandidateOk(h: Past, p: NodeId, n: Node) {
    && (p, n.term) in h.cands && h.cands[(p, n.term)] == n.log
    && !(n.term in h.reigns && h.reigns[n.term].leader == p)
    && n.votes <= n.voters
    && (forall q | q in n.votes :: (q, n.term) in h.ballots && h.ballots[(q, n.term)].cand == p)
  }

  ghost predicate LeaderOk(h: Past, p: NodeId, n: Node) {
    && n.term in h.reigns && h.reigns[n.term].leader == p && h.reigns[n.term].log == n.log
    && (forall q | q in n.matched :: n.matched[q] == 0 || (q, n.term, n.matched[q]) in h.acks)
    && (forall q | q in n.next :: 1 <= n.next[q] <= |n.log| + 1)
    && (forall i: nat | (n.term, i) in h.commits :: i <= n.commit)
  }

  ghost predicate AcksKept(h: Past, p: NodeId, log: Log, term: Term) {
    forall t, i {:trigger AckKept(h, log, term, t, i)} | (p, t, i) in h.acks :: AckKept(h, log, term, t, i)
  }

  ghost predicate AckKept(h: Past, log: Log, term: Term, t: Term, i: nat) {
    t <= term && t in h.reigns && Kept(h, log, t, i, term)
  }

  ghost predicate LeaderReadsOk(h: Hist, p: NodeId, n: Node) {
    && (forall r | (p, n.term, r) in h.regs :: r <= n.round)
    && (forall q | q in n.acked && n.acked[q] > 0 :: Echoed(h, p, n.term, q, n.acked[q]))
    && (forall k | 0 <= k < |n.pending| :: 1 <= n.pending[k].round <= n.round)
    && (forall k | 0 <= k < |n.ready| :: n.ready[k].round <= n.round)
  }

  ghost predicate Echoed(h: Hist, p: NodeId, t: Term, q: NodeId, e: nat) {
    exists m :: m in h.sent && m.body.AppendResp? && m.from == q && m.to == p && m.term == t && m.body.echo == e
  }

  /** No confirmed read is older than a commit that preceded its registration. */
  ghost predicate ReadyOk(h: Hist, p: NodeId, n: Node) {
    forall k | 0 <= k < |n.ready| :: ConfirmedOk(h, p, n.ready[k])
  }

  ghost predicate ConfirmedOk(h: Hist, p: NodeId, c: Confirmed) {
    (p, c.term, c.round) in h.regs ==> Covers(c.index, h.regs[(p, c.term, c.round)])
  }

  ghost predicate Covers(index: nat, before: set<(Term, nat)>) {
    forall t0, i | (t0, i) in before :: i <= index
  }

  ghost predicate CoreOk(h: Past, p: NodeId, n: Node) {
    && GoodLog(h, n.log) && TermsUpTo(n.log, n.term)
    && VotesOk(h, p, n)
    && (n.role == Candidate ==> CandidateOk(h, p, n))
    && (n.role == Leader ==> LeaderOk(h, p, n))
    && AcksKept(h, p, n.log, n.term)
    && Settled(h, n.log, n.commit, n.term) && n.applied <= n.commit
  }

  ghost predicate NodeOk(V: set<NodeId>, h: Hist, p: NodeId, n: Node) {
    && p in V && n.id == p && n.voters == V
    && CoreOk(h.past, p, n)
    && (n.role == Leader ==> LeaderReadsOk(h, p, n))
    && ReadyOk(h, p, n)
    && n.outbox <= h.sent
  }

  // ---- growth ------------------------------------------------------------------

  ghost predicate ReignGrows(a: Reign, b: Reign) {
    a.leader == b.leader && a.electors == b.electors && a.start == b.start && Agree(a.log, b.log, |a.log|)
  }

  ghost predicate PastGrows(h: Past, g: Past) {
    && (forall k | k in h.ballots :: k in g.ballots && g.ballots[k] == h.ballots[k])
    && (forall k | k in h.cands :: k in g.cands && g.cands[k] == h.cands[k])
    && (forall t | t in h.reigns :: t in g.reigns && ReignGrows(h.reigns[t], g.reigns[t]))
    && h.acks <= g.acks
    && (forall k | k in h.commits :: k in g.commits && g.commits[k] == h.commits[k])
  }

  ghost predicate Grows(h: Hist, g: Hist) {
    && PastGrows(h.past, g.past)
    && h.sent <= g.sent
    && (forall k | k in h.regs :: k in g.regs && g.regs[k] == h.regs[k])
  }

  /** Everything new was done by node `p`. */
  ghost predicate PastOwned(h: Past, g: Past, p: NodeId) {
    && (forall q, t | (q, t) in g.ballots && (q, t) !in h.ballots :: q == p)
    && (forall q, t | (q, t) in g.cands && (q, t) !in h.cands :: q == p)
    && (forall t | t in g.reigns && t !in h.reigns :: g.reigns[t].leader == p)
    && (forall t | t in g.reigns && t in h.reigns && g.reigns[t] != h.reigns[t] :: g.reigns[t].leader == p)
    && (forall q, t, i | (q, t, i) in g.acks && (q, t, i) !in h.acks :: q == p)
    && (forall t, i | (t, i) in g.commits && (t, i) !in h.commits :: t in g.reigns && g.reigns[t].leader == p)
  }

  ghost predicate GrowsBy(h: Hist, g: Hist, p: NodeId) {
    && Grows(h, g) && PastOwned(h.past, g.past, p)
    && (forall q, t, r | (q, t, r) in g.regs && (q, t, r) !in h.regs :: q == p)
  }

  lemma GrowsTransitive(h: Hist, g: Hist, f: Hist, p: NodeId)
    requires GrowsBy(h, g, p) && GrowsBy(g, f, p)
    ensures GrowsBy(h, f, p)
  {
  }

  lemma GoodLogGrows(h: Past, g: Past, log: Log)
    requires GoodLog(h, log) && PastGrows(h, g)
    ensures GoodLog(g, log)
  {
    forall k: nat | k < |log| ensures GoodAt(g, log, k) { assert GoodAt(h, log, k); }
  }

  lemma KeptGrows(h: Past, g: Past, log: Log, t: Term, i: nat, b: nat, b': nat)
    requires t in h.reigns && i <= |h.reigns[t].log| && Kept(h, log, t, i, b) && PastGrows(h, g) && b <= b'
    ensures Kept(g, log, t, i, b')
  {
    if !Agree(log, h.reigns[t].log, i) {
      var u :| t < u <= b && u in h.reigns && !Agree(h.reigns[u].start, h.reigns[t].log, i);
      assert !Agree(g.reigns[u].start, g.reigns[t].log, i);
    }
  }

  lemma SettledGrows(h: Past, g: Past, log: Log, c: nat, t: Term)
    requires Settled(h, log, c, t) && PastGrows(h, g)
    ensures Settled(g, log, c, t)
  {
    if c > 0 {
      var t0, j :| (t0, j) in h.commits && SettledBy(h, log, c, t, t0, j);
      assert (t0, j) in g.commits && SettledBy(g, log, c, t, t0, j);
    }
  }

  lemma AcksGrow(h: Past, g: Past, q: NodeId, log: Log, term: Term)
    requires PastGrows(h, g) && AcksKept(h, q, log, term)
    requires forall t, i {:trigger AckOk(h, q, t, i)} | (q, t, i) in h.acks :: AckOk(h, q, t, i)
    requires forall t, i | (q, t, i) in g.acks :: (q, t, i) in h.acks
    ensures AcksKept(g, q, log, term)
  {
    forall t, i | (q, t, i) in g.acks ensures AckKept(g, log, term, t, i) {
      assert AckOk(h, q, t, i) && AckKept(h, log, term, t, i);
      KeptGrows(h, g, log, t, i, term, term);
    }
  }

  /** A node that did not act keeps its invariant. */
  lemma NodeFrame(V: set<NodeId>, h: Hist, g: Hist, p: NodeId, q: NodeId, n: Node)
    requires NodeOk(V, h, q, n) && HistOk(V, h) && GrowsBy(h, g, p) && q != p
    ensures NodeOk(V, g, q, n)
  {
    GoodLogGrows(h.past, g.past, n.log);
    SettledGrows(h.past, g.past, n.log, n.commit, n.term);
    AcksGrow(h.past, g.past, q, n.log, n.term);
    if n.role == Leader {
      assert g.past.reigns[n.term].leader == q;
      EchoesGrow(h, g, q, n);
    }
  }

  lemma EchoesGrow(h: Hist, g: Hist, q: NodeId, n: Node)
    requires LeaderReadsOk(h, q, n) && h.sent <= g.sent
    requires forall r | (q, n.term, r) in g.regs :: (q, n.term, r) in h.regs
    ensures LeaderReadsOk(g, q, n)
  {
    forall r | r in n.acked && n.acked[r] > 0 ensures Echoed(g, q, n.term, r, n.acked[r]) {
      assert Echoed(h, q, n.term, r, n.acked[r]);
    }
  }

  lemma MsgGrows(V: set<NodeId>, h: Hist, g: Hist, m: Message)
    requires MsgOk(V, h, m) && Grows(h, g)
    ensures MsgOk(V, g, m)
  {
    match m.body
    case Append(_, _, _, c, _) =>
      var log := h.past.reigns[m.term].log;
      SettledGrows(h.past, g.past, log, c, m.term);
      if c > 0 {
        var t0, j :| (t0, j) in g.past.commits && SettledBy(g.past, log, c, m.term, t0, j);
        assert SettledBy(g.past, g.past.reigns[m.term].log, c, m.term, t0, j);
      }
    case AppendResp(_, _, _) =>
      var a :| a in h.sent && Answers(m, a);
      assert a in g.sent;
    case _ =>
  }
}
