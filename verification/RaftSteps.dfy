/** Leader Completeness over a history, and the invariant carried through every part of every node
    operation. */
module RaftSteps {
  import opened Basics
  import opened RaftNode
  import opened RaftHistory

  // ---- logs ------------------------------------------------------------------

  lemma TermsAscend(V: set<NodeId>, h: Past, log: Log, j: nat, k: nat)
    requires PastOk(V, h) && GoodLog(h, log) && j <= k < |log|
    ensures log[j].term <= log[k].term
  {
    assert GoodAt(h, log, k);
    var t := log[k].term;
    assert ReignOk(V, h, t);
    var r := h.reigns[t];
    assert log[j] == r.log[j];
    if j < |r.start| {
      assert CandOk(h, r.leader, t);
      assert r.log[j] == r.start[j];
    }
  }

  /** Log Matching: two logs with the same term at an index agree up to it. */
  lemma LogsMatch(h: Past, a: Log, b: Log, k: nat)
    requires GoodLog(h, a) && GoodLog(h, b)
    requires k < |a| && k < |b| && a[k].term == b[k].term
    ensures Agree(a, b, k + 1)
  {
    assert GoodAt(h, a, k) && GoodAt(h, b, k);
  }

  lemma ReignLogGood(V: set<NodeId>, h: Past, t: Term)
    requires PastOk(V, h) && t in h.reigns
    ensures GoodLog(h, h.reigns[t].log) && TermsUpTo(h.reigns[t].log, t)
  {
    assert ReignOk(V, h, t);
    var r := h.reigns[t];
    assert CandOk(h, r.leader, t);
    forall k | 0 <= k < |r.log| ensures r.log[k].term <= t {
      if k < |r.start| { assert r.log[k] == r.start[k]; }
    }
  }

  /** An entry of term `t` in a log elected after `t` reaches past every older entry. */
  lemma PrefixThroughLater(V: set<NodeId>, h: Past, log: Log, w: Term, t: Term, i: nat)
    requires PastOk(V, h) && GoodLog(h, log) && log != [] && LastTerm(log) == w && t < w
    requires t in h.reigns && 1 <= i <= |h.reigns[t].log| && h.reigns[t].log[i - 1].term == t
    requires w in h.reigns && Agree(h.reigns[w].start, h.reigns[t].log, i)
    ensures Agree(log, h.reigns[t].log, i)
  {
    var last := |log| - 1;
    assert GoodAt(h, log, last) && log[last].term == w;
    assert Agree(log, h.reigns[w].log, last + 1);
    assert ReignOk(V, h, w);
    ReignLogGood(V, h, w);
    assert h.reigns[w].log[i - 1] == h.reigns[t].log[i - 1];
    if last <= i - 1 {
      TermsAscend(V, h, h.reigns[w].log, last, i - 1);
    }
  }

  /** Leader Completeness: what one leader counted as committed, every later leader was elected with. */
  lemma {:induction false} LeaderCompleteness(V: set<NodeId>, h: Past, t: Term, i: nat, u: Term)
    requires PastOk(V, h) && (t, i) in h.commits && u in h.reigns && t < u
    ensures t in h.reigns && Agree(h.reigns[u].start, h.reigns[t].log, i)
    decreases u
  {
    assert CommitOk(V, h, t, i);
    assert ReignOk(V, h, u);
    var start := h.reigns[u].start;
    forall w | t < w < u && w in h.reigns ensures Agree(h.reigns[w].start, h.reigns[t].log, i) {
      LeaderCompleteness(V, h, t, i, w);
    }
    var p := QuorumsMeet(V, h.commits[(t, i)], h.reigns[u].electors);
    assert AckOk(h, p, t, i);
    assert BallotOk(h, p, u);
    var voted := h.ballots[(p, u)].log;
    assert BallotKeeps(h, p, u, t, i);
    assert Agree(voted, h.reigns[t].log, i);
    TermsAscend(V, h, voted, i - 1, |voted| - 1);
    assert CandOk(h, h.reigns[u].leader, u);
    assert start != [];
    var w := LastTerm(start);
    assert GoodAt(h, start, |start| - 1) && w in h.reigns;
    if w > LastTerm(voted) {
      PrefixThroughLater(V, h, start, w, t, i);
    } else {
      assert GoodAt(h, voted, |voted| - 1);
      assert Agree(start, h.reigns[w].log, |start|) && Agree(voted, h.reigns[w].log, |voted|);
    }
  }

  /** Two committed prefixes agree wherever both reach. */
  lemma SettledAgree(V: set<NodeId>, h: Past, a: Log, ca: nat, ta: Term, b: Log, cb: nat, tb: Term)
    requires PastOk(V, h) && Settled(h, a, ca, ta) && Settled(h, b, cb, tb)
    ensures Agree(a, b, if ca <= cb then ca else cb)
  {
    if ca > 0 && cb > 0 {
      var t1, j1 :| (t1, j1) in h.commits && SettledBy(h, a, ca, ta, t1, j1);
      var t2, j2 :| (t2, j2) in h.commits && SettledBy(h, b, cb, tb, t2, j2);
      ReignCovers(V, h, t1, j1, t2);
      ReignCovers(V, h, t2, j2, t1);
    }
  }

  lemma ReignCovers(V: set<NodeId>, h: Past, t: Term, i: nat, u: Term)
    requires PastOk(V, h) && (t, i) in h.commits && u in h.reigns
    ensures t in h.reigns && (t <= u ==> Agree(h.reigns[u].log, h.reigns[t].log, i))
  {
    assert CommitOk(V, h, t, i);
    if t < u {
      LeaderCompleteness(V, h, t, i, u);
      assert ReignOk(V, h, u);
    }
  }

  /** What a node has committed is in the log of every leader from its term on. */
  lemma SettledInReign(V: set<NodeId>, h: Past, log: Log, c: nat, t: Term, u: Term)
    requires PastOk(V, h) && Settled(h, log, c, t) && u in h.reigns && t <= u
    ensures Agree(log, h.reigns[u].log, c)
  {
    if c > 0 {
      var t0, j :| (t0, j) in h.commits && SettledBy(h, log, c, t, t0, j);
      ReignCovers(V, h, t0, j, u);
    }
  }

  // ---- splicing --------------------------------------------------------------

  lemma {:induction false} DivergenceMatches(h: Past, log: Log, leader: Log, prev: nat, entries: Log, k: nat)
    requires GoodLog(h, log) && GoodLog(h, leader)
    requires k <= |entries| && prev + |entries| <= |leader|
    requires forall i | 0 <= i < |entries| :: entries[i] == leader[prev + i]
    requires Agree(log, leader, prev + k)
    ensures var d := Divergence(log, prev, entries, k);
      && Agree(log, leader, prev + d)
      && (d < |entries| ==> !Agree(log, leader, prev + d + 1))
    decreases |entries| - k
  {
    if k < |entries| && prev + k < |log| && log[prev + k].term == entries[k].term {
      assert entries[k] == leader[prev + k];
      LogsMatch(h, log, leader, prev + k);
      DivergenceMatches(h, log, leader, prev, entries, k + 1);
    } else if k < |entries| {
      assert entries[k] == leader[prev + k];
    }
  }

  lemma JoinMatches(log: Log, leader: Log, prev: nat, entries: Log, k: nat, m: nat)
    requires prev + |entries| <= |leader| && k <= m <= |entries| && Agree(log, leader, prev + k)
    requires forall i | 0 <= i < |entries| :: entries[i] == leader[prev + i]
    ensures var out := log[..prev + k] + entries[k..m]; |out| == prev + m && Agree(out, leader, prev + m) && Agree(out, log, prev + k)
  {
  }

  lemma AgreeBelow(a: Log, b: Log, n: nat, c: nat)
    requires Agree(a, b, n) && c <= n
    ensures Agree(a, b, c)
  {
  }

  /** A log cut where it leaves the leader's, and continued with the leader's entries. */
  lemma JoinedMatches(log: Log, leader: Log, prev: nat, entries: Log, k: nat, m: nat, out: Log)
    requires prev + |entries| <= |leader| && k <= m <= |entries| && Agree(log, leader, prev + k) && !Agree(log, leader, prev + k + 1)
    requires forall i | 0 <= i < |entries| :: entries[i] == leader[prev + i]
    requires out == log[..prev + k] + entries[k..m]
    ensures |out| == prev + m && Agree(out, leader, prev + m)
    ensures forall c: nat | Agree(log, leader, c) :: Agree(out, log, c)
  {
    JoinMatches(log, leader, prev, entries, k, m);
    var at: nat := prev + k + 1;
    forall c: nat | Agree(log, leader, c) ensures Agree(out, log, c) {
      if c >= at { AgreeBelow(log, leader, c, at); }
      AgreeBelow(out, log, prev + k, c);
    }
  }

  /** Splicing a leader's entries in keeps every prefix shared with that leader, and reaches as far
      as the append does. */
  lemma SpliceMatches(h: Past, log: Log, leader: Log, prev: nat, entries: Log, upTo: nat)
    requires GoodLog(h, log) && GoodLog(h, leader)
    requires prev + |entries| <= |leader| && Agree(log, leader, prev)
    requires forall i | 0 <= i < |entries| :: entries[i] == leader[prev + i]
    ensures var out := SpliceUpTo(log, prev, entries, upTo);
      && (upTo == |entries| ==> Agree(out, leader, prev + |entries|))
      && (forall c: nat | Agree(log, leader, c) :: Agree(out, log, c))
      && (out == log || Agree(out, leader, |out|))
  {
    DivergenceMatches(h, log, leader, prev, entries, 0);
    var k := Divergence(log, prev, entries, 0);
    if k < |entries| {
      var m := if k <= upTo <= |entries| then upTo else k;
      JoinedMatches(log, leader, prev, entries, k, m, SpliceUpTo(log, prev, entries, upTo));
    }
  }

  lemma PrefixOfGoodIsGood(V: set<NodeId>, h: Past, t: Term, log: Log)
    requires PastOk(V, h) && t in h.reigns && Agree(log, h.reigns[t].log, |log|)
    ensures GoodLog(h, log) && TermsUpTo(log, t)
  {
    ReignLogGood(V, h, t);
    var full := h.reigns[t].log;
    forall k: nat | k < |log| ensures GoodAt(h, log, k) {
      assert GoodAt(h, full, k) && log[k] == full[k];
    }
  }

  // ---- the invariant of one acting node --------------------------------------

  ghost predicate Good(V: set<NodeId>, h: Hist, p: NodeId, n: Node) {
    HistOk(V, h) && MsgsOk(V, h) && NodeOk(V, h, p, n)
  }

  /** What every part of a node operation must establish. */
  ghost predicate Carries(V: set<NodeId>, h: Hist, g: Hist, p: NodeId, n: Node) {
    Good(V, g, p, n) && GrowsBy(h, g, p) && g.sent <= h.sent + n.outbox
  }

  lemma Chain(V: set<NodeId>, h: Hist, g: Hist, f: Hist, p: NodeId, n: Node)
    requires GrowsBy(h, g, p) && g.sent <= h.sent + n.outbox && Carries(V, g, f, p, n)
    ensures Carries(V, h, f, p, n)
  {
    GrowsTransitive(h, g, f, p);
  }

  lemma Idle(V: set<NodeId>, h: Hist, p: NodeId, n: Node)
    requires Good(V, h, p, n)
    ensures Carries(V, h, h, p, n)
  {
  }

  /** Bookkeeping that touches neither log, term, vote nor replication state; possibly stepping down. */
  ghost predicate Quiet(n: Node, m: Node) {
    && m.id == n.id && m.voters == n.voters && m.term == n.term && m.vote == n.vote && m.log == n.log
    && m.commit == n.commit && n.applied <= m.applied <= m.commit && m.outbox == n.outbox
    && (m.role == n.role || m.role == Follower)
    && (m.role == Candidate ==> m.votes == n.votes)
    && (m.role == Leader ==> m.next == n.next && m.matched == n.matched && m.acked == n.acked && m.round == n.round && m.pending == n.pending)
    && (m.ready == n.ready || m.ready == [])
  }

  lemma QuietStep(V: set<NodeId>, h: Hist, p: NodeId, n: Node, m: Node)
    requires Good(V, h, p, n) && Quiet(n, m)
    ensures Carries(V, h, h, p, m)
  {
  }

  lemma SettledLater(h: Past, log: Log, c: nat, t: Term, u: Term)
    requires Settled(h, log, c, t) && t <= u
    ensures Settled(h, log, c, u)
  {
    if c > 0 {
      var t0, j :| (t0, j) in h.commits && SettledBy(h, log, c, t, t0, j);
      assert SettledBy(h, log, c, u, t0, j);
    }
  }

  lemma AcksLater(h: Past, p: NodeId, log: Log, term: Term, later: Term)
    requires AcksKept(h, p, log, term) && term <= later
    requires forall t, i {:trigger AckOk(h, p, t, i)} | (p, t, i) in h.acks :: AckOk(h, p, t, i)
    ensures AcksKept(h, p, log, later)
  {
    assert PastGrows(h, h);
    forall t, i | (p, t, i) in h.acks ensures AckKept(h, log, later, t, i) {
      assert AckOk(h, p, t, i) && AckKept(h, log, term, t, i);
      KeptGrows(h, h, log, t, i, term, later);
    }
  }

  lemma FollowerStep(V: set<NodeId>, h: Hist, p: NodeId, n: Node, term: Term, leader: Option<NodeId>)
    requires Good(V, h, p, n)
    ensures Carries(V, h, h, p, BecomeFollower(n, term, leader))
  {
    var m := BecomeFollower(n, term, leader);
    if term > n.term {
      SettledLater(h.past, n.log, n.commit, n.term, term);
      AcksLater(h.past, p, n.log, n.term, term);
    }
  }

  lemma RestartStep(V: set<NodeId>, h: Hist, p: NodeId, n: Node, keepRound: bool)
    requires Good(V, h, p, n)
    ensures Carries(V, h, h, p, Restart(n, keepRound))
  {
  }

  // ---- sending ---------------------------------------------------------------

  function Emit(h: Hist, ms: set<Message>): Hist { h.(sent := h.sent + ms) }

  lemma EmitMsgs(V: set<NodeId>, h: Hist, ms: set<Message>, g: Hist)
    requires HistOk(V, h) && MsgsOk(V, h) && g == Emit(h, ms)
    requires forall m | m in ms :: MsgOk(V, h, m) && (m.body.AppendResp? ==> EchoOk(h, m))
    ensures HistOk(V, g) && MsgsOk(V, g)
  {
    assert PastGrows(h.past, g.past);
    forall m | m in g.sent ensures MsgOk(V, g, m) && (m.body.AppendResp? ==> EchoOk(g, m)) {
      assert MsgOk(V, h, m);
      MsgGrows(V, h, g, m);
      if m.body.AppendResp? { assert EchoOk(h, m); }
    }
    forall q, t, r | (q, t, r) in g.regs ensures RegOk(g, q, t, r) { assert RegOk(h, q, t, r); }
  }

  lemma EmitNode(V: set<NodeId>, h: Hist, p: NodeId, n: Node, ms: set<Message>, g: Hist)
    requires NodeOk(V, h, p, n) && g == Emit(h, ms)
    ensures NodeOk(V, g, p, n.(outbox := n.outbox + ms)) && GrowsBy(h, g, p)
  {
    if n.role == Leader { EchoesGrow(h, g, p, n); }
  }

  lemma EmitStep(V: set<NodeId>, h: Hist, p: NodeId, n: Node, ms: set<Message>)
    requires Good(V, h, p, n)
    requires forall m | m in ms :: MsgOk(V, h, m) && (m.body.AppendResp? ==> EchoOk(h, m))
    ensures Carries(V, h, Emit(h, ms), p, n.(outbox := n.outbox + ms))
  {
    EmitMsgs(V, h, ms, Emit(h, ms));
    EmitNode(V, h, p, n, ms, Emit(h, ms));
  }

  lemma AppendForOk(V: set<NodeId>, h: Hist, p: NodeId, n: Node, to: NodeId)
    requires Good(V, h, p, n) && n.role == Leader && to in V
    ensures NextFor(n, to) >= 1
    ensures MsgOk(V, h, AppendFor(n, to))
  {
  }

  lemma SendAppendStep(V: set<NodeId>, h: Hist, p: NodeId, n: Node, to: NodeId) returns (g: Hist)
    requires Good(V, h, p, n) && n.role == Leader && to in V
    ensures Carries(V, h, g, p, SendAppend(n, to))
  {
    AppendForOk(V, h, p, n, to);
    EmitStep(V, h, p, n, {AppendFor(n, to)});
    g := Emit(h, {AppendFor(n, to)});
  }

  lemma BroadcastStep(V: set<NodeId>, h: Hist, p: NodeId, n: Node) returns (g: Hist)
    requires Good(V, h, p, n) && n.role == Leader
    ensures Carries(V, h, g, p, BroadcastAppend(n))
  {
    forall m | m in AppendsOf(n) ensures MsgOk(V, h, m) && !m.body.AppendResp? {
      var q :| q in n.voters && q != n.id && NextFor(n, q) >= 1 && m == AppendFor(n, q);
      AppendForOk(V, h, p, n, q);
    }
    EmitStep(V, h, p, n, AppendsOf(n));
    g := Emit(h, AppendsOf(n));
  }

  lemma TimeoutNowStep(V: set<NodeId>, h: Hist, p: NodeId, n: Node, to: NodeId) returns (g: Hist)
    requires Good(V, h, p, n) && to in V
    ensures Carries(V, h, g, p, FireTimeoutNow(n, to))
  {
    var m := Message(n.id, to, n.term, TimeoutNow);
    EmitStep(V, h, p, n, {m});
    g := Emit(h, {m});
    QuietStep(V, g, p, Send(n, to, n.term, TimeoutNow), FireTimeoutNow(n, to));
  }

  // ---- extending the history ---------------------------------------------------

  /** Old facts survive growth; only what is new needs proof. */
  lemma PastExtends(V: set<NodeId>, h: Past, g: Past)
    requires PastOk(V, h) && PastGrows(h, g)
    requires forall t {:trigger ReignOk(V, g, t)} | t in g.reigns && !(t in h.reigns && g.reigns[t] == h.reigns[t]) :: ReignOk(V, g, t)
    requires forall c, t {:trigger CandOk(g, c, t)} | (c, t) in g.cands && (c, t) !in h.cands :: CandOk(g, c, t)
    requires forall p, t {:trigger BallotOk(g, p, t)} | (p, t) in g.ballots && (p, t) !in h.ballots :: BallotOk(g, p, t)
    requires forall p, t, i {:trigger AckOk(g, p, t, i)} | (p, t, i) in g.acks && (p, t, i) !in h.acks :: AckOk(g, p, t, i)
    requires forall p, u: Term, t, i {:trigger BallotKeeps(g, p, u, t, i)} |
      (p, t, i) in h.acks && Counts(g, p, u) && (p, u) !in h.ballots && t < u && t in g.reigns :: BallotKeeps(g, p, u, t, i)
    requires forall t, i {:trigger CommitOk(V, g, t, i)} | (t, i) in g.commits && (t, i) !in h.commits :: CommitOk(V, g, t, i)
    ensures PastOk(V, g)
  {
    forall t | t in g.reigns ensures ReignOk(V, g, t) {
      if t in h.reigns && g.reigns[t] == h.reigns[t] {
        assert ReignOk(V, h, t);
        GoodLogGrows(h, g, h.reigns[t].log);
      }
    }
    forall c, t | (c, t) in g.cands ensures CandOk(g, c, t) {
      if (c, t) in h.cands { assert CandOk(h, c, t); GoodLogGrows(h, g, h.cands[(c, t)]); }
    }
    forall p, t | (p, t) in g.ballots ensures BallotOk(g, p, t) {
      if (p, t) in h.ballots { assert BallotOk(h, p, t); GoodLogGrows(h, g, h.ballots[(p, t)].log); }
    }
    forall p, t, i | (p, t, i) in g.acks ensures AckOk(g, p, t, i) {
      if (p, t, i) in h.acks { AckStays(h, g, p, t, i); }
    }
    forall t, i | (t, i) in g.commits ensures CommitOk(V, g, t, i) {
      if (t, i) in h.commits { assert CommitOk(V, h, t, i); }
    }
  }

  lemma AckStays(h: Past, g: Past, p: NodeId, t: Term, i: nat)
    requires PastGrows(h, g) && AckOk(h, p, t, i)
    requires forall u: Term {:trigger BallotKeeps(g, p, u, t, i)} |
      Counts(g, p, u) && (p, u) !in h.ballots && t < u && t in g.reigns :: BallotKeeps(g, p, u, t, i)
    ensures AckOk(g, p, t, i)
  {
    forall u: Term | Counts(g, p, u) && t < u ensures BallotKeeps(g, p, u, t, i) {
      if (p, u) in h.ballots {
        assert BallotKeeps(h, p, u, t, i);
        KeptGrows(h, g, h.ballots[(p, u)].log, t, i, u - 1, u - 1);
      }
    }
  }

  lemma HistExtends(V: set<NodeId>, h: Hist, g: Hist)
    requires HistOk(V, h) && MsgsOk(V, h) && PastOk(V, g.past) && Grows(h, g) && g.sent == h.sent && g.regs == h.regs
    ensures HistOk(V, g) && MsgsOk(V, g)
  {
    forall q, t, r | (q, t, r) in g.regs ensures RegOk(g, q, t, r) { assert RegOk(h, q, t, r); }
    forall m | m in g.sent ensures MsgOk(V, g, m) && (m.body.AppendResp? ==> EchoOk(g, m)) {
      assert MsgOk(V, h, m);
      MsgGrows(V, h, g, m);
      if m.body.AppendResp? { EchoGrows(V, h, g, m); }
    }
  }

  lemma EchoGrows(V: set<NodeId>, h: Hist, g: Hist, m: Message)
    requires HistOk(V, h) && MsgsOk(V, h) && Grows(h, g) && g.regs == h.regs && m in h.sent && m.body.AppendResp?
    ensures EchoOk(g, m)
  {
    assert EchoOk(h, m);
    forall r | (m.to, m.term, r) in g.regs && r <= m.body.echo
      ensures NotDeposing(g.past, m.from, m.term, g.regs[(m.to, m.term, r)])
    {
      var before := g.regs[(m.to, m.term, r)];
      assert RegOk(h, m.to, m.term, r);
      forall t0, i | (t0, i) in before && t0 > m.term && t0 in g.past.reigns ensures m.from !in g.past.reigns[t0].electors {
        assert (t0, i) in h.past.commits && CommitOk(V, h.past, t0, i);
      }
    }
  }

  /** The acting node's own obligations, given the history's. */
  lemma Concludes(V: set<NodeId>, h: Hist, g: Hist, p: NodeId, n: Node)
    requires HistOk(V, h) && MsgsOk(V, h) && g.sent == h.sent && g.regs == h.regs
    requires PastOk(V, g.past) && PastGrows(h.past, g.past) && PastOwned(h.past, g.past, p)
    requires NodeOk(V, g, p, n)
    ensures Carries(V, h, g, p, n)
  {
    HistExtends(V, h, g);
  }

  /** The part of a node's reads that a change to its log or votes leaves alone. */
  ghost predicate SameReads(n: Node, m: Node) {
    && m.id == n.id && m.voters == n.voters && m.outbox == n.outbox && m.ready == n.ready
    && (m.role == Leader ==> n.role == Leader && m.term == n.term && m.round == n.round && m.acked == n.acked && m.pending == n.pending)
  }

  lemma ReadsStay(V: set<NodeId>, h: Hist, g: Hist, p: NodeId, n: Node, m: Node)
    requires NodeOk(V, h, p, n) && g == h.(past := g.past) && CoreOk(g.past, p, m) && SameReads(n, m)
    ensures NodeOk(V, g, p, m)
  {
    if m.role == Leader {
      forall q | q in m.acked && m.acked[q] > 0 ensures Echoed(g, p, m.term, q, m.acked[q]) {
        assert Echoed(h, p, n.term, q, n.acked[q]);
      }
    }
    forall k | 0 <= k < |m.ready| ensures ConfirmedOk(g, p, m.ready[k]) { assert ConfirmedOk(h, p, n.ready[k]); }
  }

  lemma CoreCarries(V: set<NodeId>, h: Hist, g: Hist, p: NodeId, n: Node, m: Node)
    requires Good(V, h, p, n) && g == h.(past := g.past) && CoreOk(g.past, p, m) && SameReads(n, m)
    requires PastOk(V, g.past) && PastGrows(h.past, g.past) && PastOwned(h.past, g.past, p)
    ensures Carries(V, h, g, p, m)
  {
    ReadsStay(V, h, g, p, n, m);
    Concludes(V, h, g, p, m);
  }

  lemma CoreStays(V: set<NodeId>, h: Hist, p: NodeId, n: Node, m: Node)
    requires Good(V, h, p, n) && CoreOk(h.past, p, m) && SameReads(n, m)
    ensures Carries(V, h, h, p, m)
  {
    ReadsStay(V, h, h, p, n, m);
    Idle(V, h, p, m);
  }

  // ---- elections ---------------------------------------------------------------

  function CampaignHist(h: Past, n: Node): Past {
    h.(ballots := h.ballots[(n.id, n.term + 1) := Ballot(n.id, n.log)],
       cands := h.cands[(n.id, n.term + 1) := n.log])
  }

  lemma CampaignPast(V: set<NodeId>, a: Past, p: NodeId, n: Node)
    requires PastOk(V, a) && CoreOk(a, p, n) && n.id == p
    ensures var b := CampaignHist(a, n); PastOk(V, b) && PastGrows(a, b) && PastOwned(a, b, p)
  {
    var b := CampaignHist(a, n);
    assert PastGrows(a, b);
    GoodLogGrows(a, b, n.log);
    assert CandOk(b, p, n.term + 1);
    assert BallotOk(b, p, n.term + 1);
    forall q, u: Term, t, i | (q, t, i) in a.acks && Counts(b, q, u) && (q, u) !in a.ballots && t < u && t in b.reigns
      ensures BallotKeeps(b, q, u, t, i)
    {
      assert AckOk(a, p, t, i) && AckKept(a, n.log, n.term, t, i);
      KeptGrows(a, b, n.log, t, i, n.term, u - 1);
    }
    PastExtends(V, a, b);
  }

  lemma CampaignVotes(V: set<NodeId>, a: Past, p: NodeId, n: Node, b: Past)
    requires PastOk(V, a) && CoreOk(a, p, n) && n.id == p && p in n.voters && b == CampaignHist(a, n)
    ensures VotesOk(b, p, Campaign(n)) && CandidateOk(b, p, Campaign(n))
  {
    if n.term + 1 in a.reigns { ReignFacts(V, a, n.term + 1); }
  }

  lemma CampaignCore(V: set<NodeId>, a: Past, p: NodeId, n: Node, b: Past)
    requires PastOk(V, a) && CoreOk(a, p, n) && n.id == p && p in n.voters && b == CampaignHist(a, n) && PastGrows(a, b)
    ensures CoreOk(b, p, Campaign(n))
  {
    CampaignVotes(V, a, p, n, b);
    GoodLogGrows(a, b, n.log);
    SettledGrows(a, b, n.log, n.commit, n.term);
    SettledLater(b, n.log, n.commit, n.term, n.term + 1);
    AcksLater(a, p, n.log, n.term, n.term + 1);
    AcksGrow(a, b, p, n.log, n.term + 1);
  }

  lemma CampaignStep(V: set<NodeId>, h: Hist, p: NodeId, n: Node) returns (g: Hist)
    requires Good(V, h, p, n)
    ensures Carries(V, h, g, p, Campaign(n))
  {
    g := h.(past := CampaignHist(h.past, n));
    CampaignPast(V, h.past, p, n);
    CampaignCore(V, h.past, p, n, g.past);
    CoreCarries(V, h, g, p, n, Campaign(n));
  }

  lemma SolicitStep(V: set<NodeId>, h: Hist, p: NodeId, n: Node) returns (g: Hist)
    requires Good(V, h, p, n) && n.role == Candidate
    ensures Carries(V, h, g, p, n.(outbox := n.outbox + Solicitations(n)))
  {
    EmitStep(V, h, p, n, Solicitations(n));
    g := Emit(h, Solicitations(n));
  }

  function CrownHist(h: Past, n: Node): Past {
    h.(reigns := h.reigns[n.term := Reign(n.id, n.votes, n.log, n.log)],
       acks := h.acks + set i: nat | i <= |n.log| :: (n.id, n.term, i))
  }

  /** Election Safety, where it is decided: a term that has a leader elects no other. */
  lemma FirstReign(V: set<NodeId>, h: Past, p: NodeId, n: Node)
    requires PastOk(V, h) && CoreOk(h, p, n) && n.role == Candidate && n.voters == V && |n.votes| >= Majority(n)
    ensures n.term !in h.reigns
  {
    if n.term in h.reigns {
      assert ReignOk(V, h, n.term);
      var x := QuorumsMeet(V, n.votes, h.reigns[n.term].electors);
    }
  }

  lemma CrownPast(V: set<NodeId>, h: Past, p: NodeId, n: Node)
    requires PastOk(V, h) && CoreOk(h, p, n) && n.role == Candidate && n.id == p && n.voters == V && |n.votes| >= Majority(n)
    ensures PastOk(V, CrownHist(h, n)) && PastGrows(h, CrownHist(h, n)) && PastOwned(h, CrownHist(h, n), p)
  {
    var g := CrownHist(h, n);
    FirstReign(V, h, p, n);
    GoodLogGrows(h, g, n.log);
    assert CandOk(h, p, n.term);
    assert ReignOk(V, g, n.term);
    PastExtends(V, h, g);
  }

  lemma NothingYet(V: set<NodeId>, h: Hist, t: Term)
    requires HistOk(V, h) && t !in h.past.reigns
    ensures forall i :: (t, i) !in h.past.commits
    ensures forall p, r :: (p, t, r) !in h.regs
  {
    forall i: nat ensures (t, i) !in h.past.commits {
      if (t, i) in h.past.commits { CommitFacts(V, h.past, t, i); }
    }
    forall p: NodeId, r: nat ensures (p, t, r) !in h.regs {
      if (p, t, r) in h.regs { RegFacts(V, h, p, t, r); }
    }
  }

  lemma ReignFacts(V: set<NodeId>, h: Past, t: Term)
    requires PastOk(V, h) && t in h.reigns
    ensures ReignOk(V, h, t)
  {
    assert ReignOk(V, h, t);
  }

  lemma CommitFacts(V: set<NodeId>, h: Past, t: Term, i: nat)
    requires PastOk(V, h) && (t, i) in h.commits
    ensures CommitOk(V, h, t, i)
  {
    assert CommitOk(V, h, t, i);
  }

  lemma RegFacts(V: set<NodeId>, h: Hist, p: NodeId, t: Term, r: nat)
    requires HistOk(V, h) && (p, t, r) in h.regs
    ensures RegOk(h, p, t, r)
  {
    assert RegOk(h, p, t, r);
  }

  lemma CrownCore(V: set<NodeId>, a: Past, p: NodeId, n: Node, b: Past)
    requires PastOk(V, a) && CoreOk(a, p, n) && n.role == Candidate && n.id == p && n.voters == V && |n.votes| >= Majority(n)
    requires b == CrownHist(a, n) && PastGrows(a, b) && forall i :: (n.term, i) !in a.commits
    ensures CoreOk(b, p, Crown(n))
  {
    FirstReign(V, a, p, n);
    GoodLogGrows(a, b, n.log);
    SettledGrows(a, b, n.log, n.commit, n.term);
    forall t, i | (p, t, i) in b.acks ensures AckKept(b, n.log, n.term, t, i) {
      if (p, t, i) in a.acks {
        assert AckOk(a, p, t, i) && AckKept(a, n.log, n.term, t, i);
        KeptGrows(a, b, n.log, t, i, n.term, n.term);
      }
    }
  }

  lemma CrownReads(V: set<NodeId>, h: Hist, g: Hist, p: NodeId, n: Node)
    requires NodeOk(V, h, p, n) && g == h.(past := g.past) && CoreOk(g.past, p, Crown(n))
    requires forall r :: (p, n.term, r) !in h.regs
    ensures NodeOk(V, g, p, Crown(n))
  {
  }

  lemma CrownStep(V: set<NodeId>, h: Hist, p: NodeId, n: Node) returns (g: Hist)
    requires Good(V, h, p, n) && n.role == Candidate && |n.votes| >= Majority(n)
    ensures Carries(V, h, g, p, Crown(n))
  {
    g := h.(past := CrownHist(h.past, n));
    CrownPast(V, h.past, p, n);
    FirstReign(V, h.past, p, n);
    NothingYet(V, h, n.term);
    CrownCore(V, h.past, p, n, g.past);
    CrownReads(V, h, g, p, n);
    Concludes(V, h, g, p, Crown(n));
  }

  lemma BecomeLeaderStep(V: set<NodeId>, h: Hist, p: NodeId, n: Node) returns (g: Hist)
    requires Good(V, h, p, n) && n.role == Candidate && |n.votes| >= Majority(n)
    ensures Carries(V, h, g, p, BecomeLeader(n))
  {
    var f := CrownStep(V, h, p, n);
    g := BroadcastStep(V, f, p, Crown(n));
    Chain(V, h, f, g, p, BecomeLeader(n));
  }

  lemma CampaignGoesOn(V: set<NodeId>, h: Hist, p: NodeId, c: Node, out: Node) returns (g: Hist)
    requires Good(V, h, p, c) && c.role == Candidate
    requires out == if |c.votes| >= Majority(c) then BecomeLeader(c) else c.(outbox := c.outbox + Solicitations(c))
    ensures Carries(V, h, g, p, out)
  {
    if |c.votes| >= Majority(c) {
      g := BecomeLeaderStep(V, h, p, c);
    } else {
      g := SolicitStep(V, h, p, c);
    }
  }

  lemma OutboxGrows(n: Node)
    ensures n.outbox <= StartElection(n).outbox && Campaign(n).outbox == n.outbox
  {
  }

  lemma StartElectionStep(V: set<NodeId>, h: Hist, p: NodeId, n: Node) returns (g: Hist)
    requires Good(V, h, p, n)
    ensures Carries(V, h, g, p, StartElection(n))
  {
    var f := CampaignStep(V, h, p, n);
    g := CampaignGoesOn(V, f, p, Campaign(n), StartElection(n));
    OutboxGrows(n);
    Chain(V, h, f, g, p, StartElection(n));
  }

  // ---- votes -------------------------------------------------------------------

  function GrantHist(h: Past, n: Node, cand: NodeId): Past {
    h.(ballots := h.ballots[(n.id, n.term) := Ballot(cand, n.log)])
  }

  lemma GrantPast(V: set<NodeId>, h: Past, p: NodeId, n: Node, cand: NodeId)
    requires PastOk(V, h) && CoreOk(h, p, n) && n.id == p && (p, n.term) !in h.ballots
    requires (cand, n.term) in h.cands && UpToDate(|h.cands[(cand, n.term)]|, LastTerm(h.cands[(cand, n.term)]), n.log)
    ensures var g := GrantHist(h, n, cand); PastOk(V, g) && PastGrows(h, g) && PastOwned(h, g, p)
  {
    var g := GrantHist(h, n, cand);
    GoodLogGrows(h, g, n.log);
    assert BallotOk(g, p, n.term);
    forall q, u: Term, t, i | (q, t, i) in h.acks && Counts(g, q, u) && (q, u) !in h.ballots && t < u && t in g.reigns
      ensures BallotKeeps(g, q, u, t, i)
    {
      GrantKeeps(V, h, p, n, cand, t, i);
    }
    PastExtends(V, h, g);
  }

  lemma GrantKeeps(V: set<NodeId>, h: Past, p: NodeId, n: Node, cand: NodeId, t: Term, i: nat)
    requires PastOk(V, h) && CoreOk(h, p, n) && n.id == p && (p, n.term) !in h.ballots
    requires (p, t, i) in h.acks && t < n.term && Counts(GrantHist(h, n, cand), p, n.term)
    ensures t in h.reigns && BallotKeeps(GrantHist(h, n, cand), p, n.term, t, i)
  {
    var g := GrantHist(h, n, cand);
    if n.term in h.reigns { ReignFacts(V, h, n.term); }
    assert AckOk(h, p, t, i) && AckKept(h, n.log, n.term, t, i);
    KeptGrows(h, g, n.log, t, i, n.term, n.term);
  }

  lemma GrantStep(V: set<NodeId>, h: Hist, p: NodeId, n: Node, m: Message) returns (g: Hist)
    requires Good(V, h, p, n) && MsgOk(V, h, m) && m.body.RequestVote? && m.term == n.term
    requires Grants(n, m.from, m.term, m.body.lastIndex, m.body.lastTerm)
    ensures Carries(V, h, g, p, n.(vote := Some(m.from)))
    ensures (p, n.term) in g.past.ballots && g.past.ballots[(p, n.term)].cand == m.from
  {
    if (p, n.term) in h.past.ballots {
      g := h;
      QuietStep(V, h, p, n, n.(vote := Some(m.from)));
    } else {
      GrantPast(V, h.past, p, n, m.from);
      g := h.(past := GrantHist(h.past, n, m.from));
      GrantNode(V, h, p, n, m.from);
      Concludes(V, h, g, p, n.(vote := Some(m.from)));
    }
  }

  lemma GrantNode(V: set<NodeId>, h: Hist, p: NodeId, n: Node, cand: NodeId)
    requires HistOk(V, h) && NodeOk(V, h, p, n) && (p, n.term) !in h.past.ballots
    requires PastGrows(h.past, GrantHist(h.past, n, cand))
    ensures NodeOk(V, h.(past := GrantHist(h.past, n, cand)), p, n.(vote := Some(cand)))
  {
    var a, b := h.past, GrantHist(h.past, n, cand);
    GoodLogGrows(a, b, n.log);
    SettledGrows(a, b, n.log, n.commit, n.term);
    AcksGrow(a, b, p, n.log, n.term);
  }

  lemma VoteSent(V: set<NodeId>, h: Hist, f: Hist, p: NodeId, n: Node, m: Message, granted: bool, out: Node) returns (g: Hist)
    requires Carries(V, h, f, p, n) && m.from in V && out == Send(n, m.from, n.term, VoteResp(granted))
    requires granted ==> (p, n.term) in f.past.ballots && f.past.ballots[(p, n.term)].cand == m.from
    ensures Carries(V, h, g, p, out)
  {
    var reply := Message(p, m.from, n.term, VoteResp(granted));
    EmitStep(V, f, p, n, {reply});
    g := Emit(f, {reply});
    Chain(V, h, f, g, p, out);
  }

  lemma RequestVoteStep(V: set<NodeId>, h: Hist, p: NodeId, n: Node, m: Message) returns (g: Hist)
    requires Good(V, h, p, n) && m in h.sent && m.body.RequestVote? && m.term <= n.term
    ensures Carries(V, h, g, p, Handle(n, m))
  {
    assert MsgOk(V, h, m);
    if Grants(n, m.from, m.term, m.body.lastIndex, m.body.lastTerm) {
      var f := GrantStep(V, h, p, n, m);
      g := VoteSent(V, h, f, p, n.(vote := Some(m.from)), m, true, Handle(n, m));
    } else {
      Idle(V, h, p, n);
      g := VoteSent(V, h, h, p, n, m, false, Handle(n, m));
    }
  }

  lemma VoteRespStep(V: set<NodeId>, h: Hist, p: NodeId, n: Node, m: Message) returns (g: Hist)
    requires Good(V, h, p, n) && m in h.sent && m.body.VoteResp? && m.to == p
    ensures Carries(V, h, g, p, Handle(n, m))
  {
    g := h;
    Idle(V, h, p, n);
    if n.role == Candidate && m.term == n.term && m.body.granted && m.from in n.voters {
      assert MsgOk(V, h, m);
      var c := n.(votes := n.votes + {m.from});
      assert Good(V, h, p, c);
      if |c.votes| >= Majority(c) { g := BecomeLeaderStep(V, h, p, c); }
    }
  }

  // ---- replication ---------------------------------------------------------------

  function AckHist(h: Past, p: NodeId, t: Term, upTo: nat): Past {
    h.(acks := h.acks + set i: nat | i <= upTo :: (p, t, i))
  }

  lemma AckCore(V: set<NodeId>, h: Past, g: Past, p: NodeId, n: Node, upTo: nat)
    requires PastOk(V, h) && CoreOk(h, p, n) && n.term in h.reigns && Agree(n.log, h.reigns[n.term].log, upTo)
    requires g == AckHist(h, p, n.term, upTo) && PastGrows(h, g)
    ensures CoreOk(g, p, n)
  {
    GoodLogGrows(h, g, n.log);
    SettledGrows(h, g, n.log, n.commit, n.term);
    forall t, i | (p, t, i) in g.acks ensures AckKept(g, n.log, n.term, t, i) {
      if (p, t, i) in h.acks {
        assert AckOk(h, p, t, i) && AckKept(h, n.log, n.term, t, i);
        KeptGrows(h, g, n.log, t, i, n.term, n.term);
      }
    }
  }

  /** A node whose log agrees with its term's leader up to an index may acknowledge it. */
  lemma AckPast(V: set<NodeId>, h: Past, p: NodeId, n: Node, upTo: nat)
    requires PastOk(V, h) && CoreOk(h, p, n) && n.term in h.reigns && Agree(n.log, h.reigns[n.term].log, upTo)
    ensures var g := AckHist(h, p, n.term, upTo); PastOk(V, g) && PastGrows(h, g) && PastOwned(h, g, p)
  {
    PastExtends(V, h, AckHist(h, p, n.term, upTo));
  }

  lemma AckStep(V: set<NodeId>, h: Hist, p: NodeId, n: Node, upTo: nat) returns (g: Hist)
    requires Good(V, h, p, n) && n.term in h.past.reigns && Agree(n.log, h.past.reigns[n.term].log, upTo)
    ensures Carries(V, h, g, p, n) && g.sent == h.sent && (p, n.term, upTo) in g.past.acks
  {
    g := h.(past := AckHist(h.past, p, n.term, upTo));
    AckPast(V, h.past, p, n, upTo);
    AckCore(V, h.past, g.past, p, n, upTo);
    CoreCarries(V, h, g, p, n, n);
  }

  lemma Anchor(h: Past, n: Node, leader: Log, prev: nat, prevTerm: Term)
    requires GoodLog(h, n.log) && GoodLog(h, leader)
    requires Anchored(n, prev, prevTerm) && TermAt(leader, prev) == Some(prevTerm)
    ensures Agree(n.log, leader, prev)
  {
    if prev > 0 { LogsMatch(h, n.log, leader, prev - 1); }
  }

  lemma SettledMoves(h: Past, log: Log, out: Log, c: nat, t: Term)
    requires Settled(h, log, c, t) && Agree(out, log, c)
    ensures Settled(h, out, c, t)
  {
    if c > 0 {
      var t0, j :| (t0, j) in h.commits && SettledBy(h, log, c, t, t0, j);
      assert SettledBy(h, out, c, t, t0, j);
    }
  }

  /** Splicing keeps what was acknowledged, unless a later leader was elected without it. */
  lemma SpliceAcks(V: set<NodeId>, h: Past, p: NodeId, n: Node, out: Log)
    requires PastOk(V, h) && CoreOk(h, p, n) && n.term in h.reigns
    requires forall c: nat | Agree(n.log, h.reigns[n.term].log, c) :: Agree(out, n.log, c)
    ensures AcksKept(h, p, out, n.term)
  {
    var leader := h.reigns[n.term];
    assert ReignOk(V, h, n.term);
    forall t, i | (p, t, i) in h.acks ensures AckKept(h, out, n.term, t, i) {
      assert AckOk(h, p, t, i) && AckKept(h, n.log, n.term, t, i);
      if Agree(n.log, h.reigns[t].log, i) {
        if t == n.term || Agree(leader.start, h.reigns[t].log, i) {
          assert Agree(n.log, leader.log, i);
          assert Agree(out, n.log, i);
        } else {
          assert Excused(h, t, i, n.term);
        }
      }
    }
  }

  lemma SpliceCore(V: set<NodeId>, past: Past, p: NodeId, n: Node, m: Message, upTo: nat, out: Log)
    requires PastOk(V, past) && CoreOk(past, p, n) && n.role == Follower && m.body.Append? && AppendOk(past, m) && m.term == n.term
    requires Anchored(n, m.body.prevIndex, m.body.prevTerm) && out == SpliceUpTo(n.log, m.body.prevIndex, m.body.entries, upTo)
    ensures CoreOk(past, p, n.(log := out))
    ensures upTo == |m.body.entries| ==> Agree(out, past.reigns[m.term].log, m.body.prevIndex + upTo)
  {
    var b := m.body;
    var leader := past.reigns[m.term].log;
    ReignLogGood(V, past, m.term);
    Anchor(past, n, leader, b.prevIndex, b.prevTerm);
    SpliceMatches(past, n.log, leader, b.prevIndex, b.entries, upTo);
    if out != n.log { PrefixOfGoodIsGood(V, past, m.term, out); }
    SpliceAcks(V, past, p, n, out);
    SettledInReign(V, past, n.log, n.commit, n.term, m.term);
    SettledMoves(past, n.log, out, n.commit, n.term);
  }

  lemma SpliceStep(V: set<NodeId>, h: Hist, p: NodeId, n: Node, m: Message, upTo: nat)
    requires Good(V, h, p, n) && n.role == Follower && MsgOk(V, h, m) && m.body.Append? && m.term == n.term
    requires Anchored(n, m.body.prevIndex, m.body.prevTerm)
    ensures var out := SpliceUpTo(n.log, m.body.prevIndex, m.body.entries, upTo);
      && Carries(V, h, h, p, n.(log := out))
      && (upTo == |m.body.entries| ==> Agree(out, h.past.reigns[m.term].log, m.body.prevIndex + upTo))
  {
    var out := SpliceUpTo(n.log, m.body.prevIndex, m.body.entries, upTo);
    SpliceCore(V, h.past, p, n, m, upTo, out);
    CoreStays(V, h, p, n, n.(log := out));
  }

  lemma TakeCommitStep(V: set<NodeId>, h: Hist, p: NodeId, n: Node, c: nat)
    requires Good(V, h, p, n) && n.role == Follower && c >= n.commit && Settled(h.past, n.log, c, n.term)
    ensures Carries(V, h, h, p, n.(commit := c))
  {
  }

  lemma EchoFromHere(V: set<NodeId>, h: Hist, p: NodeId, n: Node, m: Message)
    requires HistOk(V, h) && NodeOk(V, h, p, n) && m.body.AppendResp? && m.from == p && m.term == n.term
    ensures EchoOk(h, m)
  {
    forall r | (m.to, m.term, r) in h.regs && r <= m.body.echo
      ensures NotDeposing(h.past, p, m.term, h.regs[(m.to, m.term, r)])
    {
      forall t0, i | (t0, i) in h.regs[(m.to, m.term, r)] && t0 > m.term && t0 in h.past.reigns
        ensures p !in h.past.reigns[t0].electors
      {
        ReignFacts(V, h.past, t0);
      }
    }
  }

  lemma AnswerStep(V: set<NodeId>, h: Hist, p: NodeId, n: Node, m: Message, success: bool, index: nat) returns (g: Hist)
    requires Good(V, h, p, n) && m in h.sent && m.body.Append? && m.to == p
    requires success ==> (p, n.term, index) in h.past.acks
    ensures Carries(V, h, g, p, Send(n, m.from, n.term, AppendResp(success, index, m.body.round)))
  {
    var reply := Message(p, m.from, n.term, AppendResp(success, index, m.body.round));
    assert MsgOk(V, h, m);
    assert Answers(reply, m);
    EchoFromHere(V, h, p, n, reply);
    EmitStep(V, h, p, n, {reply});
    g := Emit(h, {reply});
  }

  lemma TakeEntriesStep(V: set<NodeId>, h: Hist, p: NodeId, n: Node, m: Message)
    requires Good(V, h, p, n) && n.role == Follower && MsgOk(V, h, m) && m.body.Append? && m.term == n.term
    requires Anchored(n, m.body.prevIndex, m.body.prevTerm)
    ensures var n2 := Accept(n, m.body.prevIndex, m.body.entries, m.body.leaderCommit);
      && Carries(V, h, h, p, n2)
      && Agree(n2.log, h.past.reigns[m.term].log, m.body.prevIndex + |m.body.entries|)
  {
    var b := m.body;
    SpliceStep(V, h, p, n, m, |b.entries|);
    var n1 := n.(log := Splice(n.log, b.prevIndex, b.entries));
    var n2 := Accept(n, b.prevIndex, b.entries, b.leaderCommit);
    if b.leaderCommit > n.commit {
      SettledMoves(h.past, h.past.reigns[m.term].log, n1.log, b.leaderCommit, n.term);
    }
    TakeCommitStep(V, h, p, n1, n2.commit);
    assert n2 == n1.(commit := n2.commit);
  }

  lemma AckAnswerStep(V: set<NodeId>, h: Hist, p: NodeId, n: Node, m: Message, last: nat, out: Node) returns (g: Hist)
    requires Good(V, h, p, n) && m in h.sent && m.body.Append? && m.to == p && n.term in h.past.reigns
    requires Agree(n.log, h.past.reigns[n.term].log, last)
    requires out == Send(n, m.from, n.term, AppendResp(true, last, m.body.round))
    ensures Carries(V, h, g, p, out)
  {
    var f := AckStep(V, h, p, n, last);
    g := AnswerStep(V, f, p, n, m, true, last);
    Chain(V, h, f, g, p, out);
  }

  lemma AcceptStep(V: set<NodeId>, h: Hist, p: NodeId, n: Node, m: Message, out: Node) returns (g: Hist)
    requires Good(V, h, p, n) && n.role == Follower && m in h.sent && m.body.Append? && m.to == p && m.term == n.term
    requires Anchored(n, m.body.prevIndex, m.body.prevTerm)
    requires out == Send(Accept(n, m.body.prevIndex, m.body.entries, m.body.leaderCommit), m.from, n.term,
                         AppendResp(true, m.body.prevIndex + |m.body.entries|, m.body.round))
    ensures Carries(V, h, g, p, out)
  {
    assert MsgOk(V, h, m);
    TakeEntriesStep(V, h, p, n, m);
    var taken := Accept(n, m.body.prevIndex, m.body.entries, m.body.leaderCommit);
    var last := m.body.prevIndex + |m.body.entries|;
    SendShape(n, m, out);
    g := AckAnswerStep(V, h, p, taken, m, last, out);
  }

  lemma SendShape(n: Node, m: Message, out: Node)
    requires m.body.Append? && Anchored(n, m.body.prevIndex, m.body.prevTerm)
    requires out == Send(Accept(n, m.body.prevIndex, m.body.entries, m.body.leaderCommit), m.from, n.term,
                         AppendResp(true, m.body.prevIndex + |m.body.entries|, m.body.round))
    ensures var taken := Accept(n, m.body.prevIndex, m.body.entries, m.body.leaderCommit);
      && taken.term == n.term
      && out == Send(taken, m.from, taken.term, AppendResp(true, m.body.prevIndex + |m.body.entries|, m.body.round))
  {
  }

  lemma CurrentAppendStep(V: set<NodeId>, h: Hist, p: NodeId, f: Node, m: Message, out: Node) returns (g: Hist)
    requires Good(V, h, p, f) && f.role == Follower && m in h.sent && m.body.Append? && m.to == p && m.term == f.term
    requires var b := m.body; var last := b.prevIndex + |b.entries|;
      out == if last == 0 then Send(f, m.from, f.term, AppendResp(true, 0, b.round))
             else if !Anchored(f, b.prevIndex, b.prevTerm) then Send(f, m.from, f.term, AppendResp(false, 0, b.round))
             else Send(Accept(f, b.prevIndex, b.entries, b.leaderCommit), m.from, f.term, AppendResp(true, last, b.round))
    ensures Carries(V, h, g, p, out)
  {
    var b := m.body;
    if b.prevIndex + |b.entries| == 0 {
      assert MsgOk(V, h, m);
      g := AckAnswerStep(V, h, p, f, m, 0, out);
    } else if !Anchored(f, b.prevIndex, b.prevTerm) {
      g := AnswerStep(V, h, p, f, m, false, 0);
    } else {
      g := AcceptStep(V, h, p, f, m, out);
    }
  }

  lemma AppendMsgStep(V: set<NodeId>, h: Hist, p: NodeId, n: Node, m: Message) returns (g: Hist)
    requires Good(V, h, p, n) && m in h.sent && m.body.Append? && m.to == p && m.term <= n.term
    ensures Carries(V, h, g, p, Handle(n, m))
  {
    if m.term < n.term {
      g := AnswerStep(V, h, p, n, m, false, 0);
    } else {
      QuietStep(V, h, p, n, Follow(n, m.from));
      g := CurrentAppendStep(V, h, p, Follow(n, m.from), m, Handle(n, m));
    }
  }

  // ---- the leader's side ---------------------------------------------------------

  function ProposeHist(h: Past, n: Node): Past
    requires n.term in h.reigns
  {
    h.(reigns := h.reigns[n.term := h.reigns[n.term].(log := n.log)])
  }

  lemma ExtendedGood(h: Past, g: Past, n: Node, data: Bytes)
    requires GoodLog(h, n.log) && n.term in h.reigns && h.reigns[n.term].log == n.log
    requires g == ProposeHist(h, AppendLocal(n, data))
    ensures GoodLog(g, AppendLocal(n, data).log) && PastGrows(h, g)
  {
    var log := AppendLocal(n, data).log;
    forall k: nat | k < |log| ensures GoodAt(g, log, k) {
      if k < |n.log| { assert GoodAt(h, n.log, k); }
    }
  }

  lemma AppendLocalPast(V: set<NodeId>, h: Past, p: NodeId, n: Node, data: Bytes, g: Past)
    requires PastOk(V, h) && CoreOk(h, p, n) && n.role == Leader && g == ProposeHist(h, AppendLocal(n, data))
    ensures PastOk(V, g) && PastGrows(h, g) && PastOwned(h, g, p)
  {
    ExtendedGood(h, g, n, data);
    assert ReignOk(V, h, n.term);
    assert ReignOk(V, g, n.term);
    PastExtends(V, h, g);
  }

  lemma AppendLocalCore(V: set<NodeId>, h: Past, p: NodeId, n: Node, data: Bytes, g: Past, log: Log)
    requires PastOk(V, h) && CoreOk(h, p, n) && n.role == Leader && g == ProposeHist(h, AppendLocal(n, data)) && PastGrows(h, g)
    requires log == AppendLocal(n, data).log
    ensures CoreOk(g, p, n.(log := log))
  {
    ExtendedGood(h, g, n, data);
    forall t, i | (p, t, i) in g.acks ensures AckKept(g, log, n.term, t, i) {
      assert AckOk(h, p, t, i) && AckKept(h, n.log, n.term, t, i);
      KeptGrows(h, g, n.log, t, i, n.term, n.term);
    }
    SettledGrows(h, g, n.log, n.commit, n.term);
    SettledMoves(g, n.log, log, n.commit, n.term);
  }

  /** The entry is in the log before the leader counts itself as holding it. */
  lemma GrowOwnLogStep(V: set<NodeId>, h: Hist, p: NodeId, n: Node, data: Bytes) returns (g: Hist)
    requires Good(V, h, p, n) && n.role == Leader
    ensures Carries(V, h, g, p, n.(log := AppendLocal(n, data).log))
  {
    var m := AppendLocal(n, data);
    g := h.(past := ProposeHist(h.past, m));
    AppendLocalPast(V, h.past, p, n, data, g.past);
    AppendLocalCore(V, h.past, p, n, data, g.past, m.log);
    CoreCarries(V, h, g, p, n, n.(log := m.log));
  }

  lemma CountSelfStep(V: set<NodeId>, h: Hist, p: NodeId, n: Node)
    requires Good(V, h, p, n) && n.role == Leader && (p, n.term, |n.log|) in h.past.acks
    ensures Carries(V, h, h, p, n.(matched := n.matched[p := |n.log|], next := n.next[p := |n.log| + 1]))
  {
  }

  lemma AppendLocalStep(V: set<NodeId>, h: Hist, p: NodeId, n: Node, data: Bytes) returns (g: Hist)
    requires Good(V, h, p, n) && n.role == Leader
    ensures Carries(V, h, g, p, AppendLocal(n, data))
  {
    var m := n.(log := AppendLocal(n, data).log);
    var f := GrowOwnLogStep(V, h, p, n, data);
    g := AckStep(V, f, p, m, |m.log|);
    CountSelfStep(V, g, p, m);
    Chain(V, h, f, g, p, AppendLocal(n, data));
  }

  lemma {:induction false} CommitScanFinds(n: Node, top: nat)
    requires top <= |n.log|
    ensures var c := CommitScan(n, top); c >= n.commit && (c > n.commit ==> c <= top && CanCommit(n, c))
    decreases top
  {
    if top > n.commit && !CanCommit(n, top) { CommitScanFinds(n, top - 1); }
  }

  lemma CommitPast(V: set<NodeId>, h: Past, p: NodeId, n: Node, c: nat, g: Past)
    requires PastOk(V, h) && CoreOk(h, p, n) && n.voters == V && n.role == Leader && n.commit < c <= |n.log| && CanCommit(n, c)
    requires g == h.(commits := h.commits[(n.term, c) := Holders(n, c)])
    ensures PastOk(V, g) && PastGrows(h, g) && PastOwned(h, g, p)
  {
    forall v | v in Holders(n, c) ensures (v, n.term, c) in g.acks {
      assert AckOk(h, v, n.term, n.matched[v]);
    }
    assert CommitOk(V, g, n.term, c);
    PastExtends(V, h, g);
  }

  lemma CommitCore(V: set<NodeId>, h: Past, p: NodeId, n: Node, c: nat, q: set<NodeId>, g: Past)
    requires PastOk(V, h) && CoreOk(h, p, n) && n.role == Leader && n.commit < c <= |n.log| && TermAt(n.log, c) == Some(n.term)
    requires g == h.(commits := h.commits[(n.term, c) := q]) && PastGrows(h, g)
    ensures CoreOk(g, p, n.(commit := c))
  {
    GoodLogGrows(h, g, n.log);
    AcksGrow(h, g, p, n.log, n.term);
    assert SettledBy(g, n.log, c, n.term, n.term, c);
  }

  lemma CommitStep(V: set<NodeId>, h: Hist, p: NodeId, n: Node, c: nat) returns (g: Hist)
    requires Good(V, h, p, n) && n.role == Leader && n.commit < c <= |n.log| && CanCommit(n, c)
    ensures Carries(V, h, g, p, n.(commit := c))
  {
    g := h.(past := h.past.(commits := h.past.commits[(n.term, c) := Holders(n, c)]));
    CommitPast(V, h.past, p, n, c, g.past);
    CommitCore(V, h.past, p, n, c, Holders(n, c), g.past);
    CoreCarries(V, h, g, p, n, n.(commit := c));
  }

  // ---- linearizable reads ----------------------------------------------------------

  /** A confirmed round proves no later leader had committed when the read was registered, so this
      leader's commit index covers everything committed by then. */
  lemma ConfirmedCovers(V: set<NodeId>, h: Hist, p: NodeId, n: Node, r: nat)
    requires Good(V, h, p, n) && n.role == Leader && r >= 1
    requires |Ackers(n, r)| >= Majority(n) && TermAt(n.log, n.commit) == Some(n.term)
    requires (p, n.term, r) in h.regs
    ensures Covers(n.commit, h.regs[(p, n.term, r)])
  {
    var before := h.regs[(p, n.term, r)];
    RegFacts(V, h, p, n.term, r);
    forall t0, i | (t0, i) in before ensures i <= n.commit {
      CommitFacts(V, h.past, t0, i);
      if t0 > n.term {
        LaterUnconfirmed(V, h, p, n, r, t0, i);
      } else if t0 < n.term {
        EarlierCovered(V, h.past, p, n, t0, i);
      }
    }
  }

  lemma LaterUnconfirmed(V: set<NodeId>, h: Hist, p: NodeId, n: Node, r: nat, t0: Term, i: nat)
    requires Good(V, h, p, n) && n.role == Leader && r >= 1 && |Ackers(n, r)| >= Majority(n)
    requires (p, n.term, r) in h.regs && (t0, i) in h.regs[(p, n.term, r)] && t0 in h.past.reigns
    ensures t0 <= n.term
  {
    assert ReignOk(V, h.past, t0);
    var x := QuorumsMeet(V, Ackers(n, r), h.past.reigns[t0].electors);
    if x != p {
      var e := n.acked[x];
      assert Echoed(h, p, n.term, x, e);
      var m :| m in h.sent && m.body.AppendResp? && m.from == x && m.to == p && m.term == n.term && m.body.echo == e;
      assert EchoOk(h, m);
      assert NotDeposing(h.past, x, n.term, h.regs[(p, n.term, r)]);
    }
  }

  lemma EarlierCovered(V: set<NodeId>, h: Past, p: NodeId, n: Node, t0: Term, i: nat)
    requires PastOk(V, h) && CoreOk(h, p, n) && n.role == Leader && (t0, i) in h.commits && t0 < n.term
    requires TermAt(n.log, n.commit) == Some(n.term)
    ensures i <= n.commit
  {
    assert CommitOk(V, h, t0, i);
    LeaderCompleteness(V, h, t0, i, n.term);
    assert ReignOk(V, h, n.term);
    assert n.log[i - 1] == h.reigns[t0].log[i - 1];
    if n.commit <= i - 1 { TermsAscend(V, h, n.log, n.commit - 1, i - 1); }
  }
}
