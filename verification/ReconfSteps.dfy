/** Under the guard every step of a group that changes its members keeps the invariant. */
module ReconfSteps {
  import opened Basics
  import opened ConfChange
  import opened Reconf
  import opened ReconfProof

  // ---- peers ------------------------------------------------------------------------------------

  ghost predicate TermsUpTo(log: Track, t: Term) { forall k | 0 <= k < |log| :: log[k].term <= t }

  ghost predicate VotesOk(h: Past, p: NodeId, n: Peer) {
    && (forall t | (p, t) in h.ballots :: t <= n.term)
    && (forall t | (p, t) in h.cands :: t <= n.term)
  }

  ghost predicate CandidateOk(h: Past, p: NodeId, n: Peer) {
    (p, n.term) in h.cands && h.cands[(p, n.term)] == n.log && !(n.term in h.reigns && h.reigns[n.term].leader == p)
  }

  ghost predicate LeaderOk(h: Past, p: NodeId, n: Peer) {
    && n.term in h.reigns && h.reigns[n.term].leader == p && h.reigns[n.term].log == n.log && h.reigns[n.term].commit == n.commit
    && (forall i: nat | (n.term, i) in h.commits :: i <= n.commit)
    && (0 < n.commit <= |n.log| && n.log[n.commit - 1].term == n.term ==> (n.term, n.commit) in h.commits)
  }

  ghost predicate AckKept(h: Past, log: Track, term: Term, t: Term, i: nat) {
    t <= term && t in h.reigns && Kept(h, log, t, i, term)
  }

  ghost predicate AcksKept(h: Past, p: NodeId, log: Track, term: Term) {
    forall t, i {:trigger AckKept(h, log, term, t, i)} | (p, t, i) in h.acks :: AckKept(h, log, term, t, i)
  }

  ghost predicate PeerOk(h: Past, p: NodeId, n: Peer) {
    && GoodLog(h, n.log) && TermsUpTo(n.log, n.term)
    && VotesOk(h, p, n)
    && (n.role == Candidate ==> CandidateOk(h, p, n))
    && (n.role == Leader ==> LeaderOk(h, p, n))
    && AcksKept(h, p, n.log, n.term)
    && Settled(h, n.log, n.commit, n.term)
  }

  ghost predicate Inv(c0: Conf, w: World) {
    PastOk(c0, w.past) && forall p {:trigger PeerOk(w.past, p, w.peers[p])} | p in w.peers :: PeerOk(w.past, p, w.peers[p])
  }

  // ---- growth --------------------------------------------------------------------------------------

  ghost predicate ReignGrows(a: Reign, b: Reign) {
    a.leader == b.leader && a.electors == b.electors && a.start == b.start && Shares(a.log, b.log, |a.log|)
  }

  ghost predicate Grows(h: Past, g: Past) {
    && (forall k | k in h.ballots :: k in g.ballots && g.ballots[k] == h.ballots[k])
    && (forall k | k in h.cands :: k in g.cands && g.cands[k] == h.cands[k])
    && (forall t | t in h.reigns :: t in g.reigns && ReignGrows(h.reigns[t], g.reigns[t]))
    && h.acks <= g.acks
    && (forall k | k in h.commits :: k in g.commits && g.commits[k] == h.commits[k])
  }

  /** Everything new was done by node `p`. */
  ghost predicate Owned(h: Past, g: Past, p: NodeId) {
    && (forall q, t | (q, t) in g.ballots && (q, t) !in h.ballots :: q == p)
    && (forall q, t | (q, t) in g.cands && (q, t) !in h.cands :: q == p)
    && (forall t | t in g.reigns && t !in h.reigns :: g.reigns[t].leader == p)
    && (forall t | t in g.reigns && t in h.reigns && g.reigns[t] != h.reigns[t] :: g.reigns[t].leader == p)
    && (forall q, t, i | (q, t, i) in g.acks && (q, t, i) !in h.acks :: q == p)
    && (forall t, i | (t, i) in g.commits && (t, i) !in h.commits :: t in g.reigns && g.reigns[t].leader == p)
  }

  lemma GoodLogGrows(h: Past, g: Past, log: Track)
    requires GoodLog(h, log) && Grows(h, g)
    ensures GoodLog(g, log)
  {
    forall k: nat | k < |log| ensures GoodAt(g, log, k) { assert GoodAt(h, log, k); }
  }

  lemma KeptGrows(h: Past, g: Past, log: Track, t: Term, i: nat, b: nat, b': nat)
    requires t in h.reigns && i <= |h.reigns[t].log| && Kept(h, log, t, i, b) && Grows(h, g) && b <= b'
    ensures Kept(g, log, t, i, b')
  {
    if !Shares(log, h.reigns[t].log, i) {
      var u :| t < u <= b && u in h.reigns && !Shares(h.reigns[u].start, h.reigns[t].log, i);
      assert !Shares(g.reigns[u].start, g.reigns[t].log, i);
    }
  }

  lemma SettledGrows(h: Past, g: Past, log: Track, c: nat, t: Term, u: Term)
    requires Settled(h, log, c, t) && Grows(h, g) && t <= u
    ensures Settled(g, log, c, u)
  {
    if c > 0 {
      var t0, j :| (t0, j) in h.commits && SettledBy(h, log, c, t, t0, j);
      assert (t0, j) in g.commits && SettledBy(g, log, c, u, t0, j);
    }
  }

  lemma SettledMoves(h: Past, log: Track, out: Track, c: nat, k: nat, t: Term)
    requires Settled(h, log, c, t) && k <= c && Shares(out, log, k)
    ensures Settled(h, out, k, t)
  {
    if k > 0 {
      var t0, j :| (t0, j) in h.commits && SettledBy(h, log, c, t, t0, j);
      assert SettledBy(h, out, k, t, t0, j);
    }
  }

  lemma AcksGrow(c0: Conf, h: Past, g: Past, q: NodeId, log: Track, term: Term, later: Term)
    requires PastOk(c0, h) && Grows(h, g) && AcksKept(h, q, log, term) && term <= later
    requires forall t, i | (q, t, i) in g.acks :: (q, t, i) in h.acks
    ensures AcksKept(g, q, log, later)
  {
    forall t, i | (q, t, i) in g.acks ensures AckKept(g, log, later, t, i) {
      assert AckOk(h, q, t, i) && AckKept(h, log, term, t, i);
      KeptGrows(h, g, log, t, i, term, later);
    }
  }

  /** A peer that did not act keeps its invariant. */
  lemma Bystander(c0: Conf, h: Past, g: Past, p: NodeId, q: NodeId, n: Peer)
    requires PastOk(c0, h) && PeerOk(h, q, n) && Grows(h, g) && Owned(h, g, p) && q != p
    ensures PeerOk(g, q, n)
  {
    GoodLogGrows(h, g, n.log);
    SettledGrows(h, g, n.log, n.commit, n.term, n.term);
    AcksGrow(c0, h, g, q, n.log, n.term, n.term);
  }

  // ---- extending the history ----------------------------------------------------------------------------

  lemma ReignStays(c0: Conf, h: Past, g: Past, t: Term)
    requires PastOk(c0, h) && Grows(h, g) && t in h.reigns && t in g.reigns && g.reigns[t] == h.reigns[t]
    ensures ReignOk(c0, g, t)
  {
    ReignFacts(c0, h, t);
    var r := h.reigns[t];
    GoodLogGrows(h, g, r.log);
    SettledGrows(h, g, r.log, r.commit, t, t);
    forall x: nat | |r.start| < x <= |r.log| && r.log[x - 1].change.Some? ensures ChangeOk(g, t, x) {
      assert ChangeOk(h, t, x);
      var c: nat :| Backed(h, t, x, c);
      assert Backed(g, t, x, c);
    }
  }

  lemma AckStays(h: Past, g: Past, p: NodeId, t: Term, i: nat)
    requires Grows(h, g) && AckOk(h, p, t, i)
    requires forall u: Term {:trigger BallotKeeps(g, p, u, t, i)} |
      (p, u) in g.ballots && (p, u) !in h.ballots && t < u && t in g.reigns :: BallotKeeps(g, p, u, t, i)
    ensures AckOk(g, p, t, i)
  {
    forall u: Term | (p, u) in g.ballots && t < u ensures BallotKeeps(g, p, u, t, i) {
      if (p, u) in h.ballots {
        assert BallotKeeps(h, p, u, t, i);
        KeptGrows(h, g, h.ballots[(p, u)].log, t, i, if Counts(h, p, u) then u - 1 else u, if Counts(g, p, u) then u - 1 else u);
      }
    }
  }

  /** Old facts survive growth; only what is new needs proof. */
  lemma PastExtends(c0: Conf, h: Past, g: Past)
    requires PastOk(c0, h) && Grows(h, g)
    requires forall t {:trigger ReignOk(c0, g, t)} | t in g.reigns && !(t in h.reigns && g.reigns[t] == h.reigns[t]) :: ReignOk(c0, g, t)
    requires forall c, t {:trigger CandOk(g, c, t)} | (c, t) in g.cands && (c, t) !in h.cands :: CandOk(g, c, t)
    requires forall p, t {:trigger BallotOk(g, p, t)} | (p, t) in g.ballots && (p, t) !in h.ballots :: BallotOk(g, p, t)
    requires forall p, t, i {:trigger AckOk(g, p, t, i)} | (p, t, i) in g.acks && (p, t, i) !in h.acks :: AckOk(g, p, t, i)
    requires forall p, u: Term, t, i {:trigger BallotKeeps(g, p, u, t, i)} |
      (p, t, i) in h.acks && (p, u) in g.ballots && (p, u) !in h.ballots && t < u && t in g.reigns :: BallotKeeps(g, p, u, t, i)
    requires forall t, i {:trigger CommitOk(c0, g, t, i)} | (t, i) in g.commits && (t, i) !in h.commits :: CommitOk(c0, g, t, i)
    ensures PastOk(c0, g)
  {
    forall t | t in g.reigns ensures ReignOk(c0, g, t) {
      if t in h.reigns && g.reigns[t] == h.reigns[t] { ReignStays(c0, h, g, t); }
    }
    forall c, t | (c, t) in g.cands ensures CandOk(g, c, t) {
      if (c, t) in h.cands { assert CandOk(h, c, t); GoodLogGrows(h, g, h.cands[(c, t)]); }
    }
    forall p, t | (p, t) in g.ballots ensures BallotOk(g, p, t) {
      if (p, t) in h.ballots { assert BallotOk(h, p, t); GoodLogGrows(h, g, h.ballots[(p, t)].log); }
    }
    forall p, t, i | (p, t, i) in g.acks ensures AckOk(g, p, t, i) {
      if (p, t, i) in h.acks { assert AckOk(h, p, t, i); AckStays(h, g, p, t, i); }
    }
    forall t, i | (t, i) in g.commits ensures CommitOk(c0, g, t, i) {
      if (t, i) in h.commits { assert CommitOk(c0, h, t, i); }
    }
  }

  /** What a step of `p` must establish. */
  ghost predicate Extends(c0: Conf, h: Past, g: Past, p: NodeId) { PastOk(c0, g) && Grows(h, g) && Owned(h, g, p) }

  ghost predicate Steps(c0: Conf, h: Past, g: Past, p: NodeId, n: Peer) { Extends(c0, h, g, p) && PeerOk(g, p, n) }

  // ---- votes and elections ----------------------------------------------------------------------------------

  /** A new ballot of `p`, with its log as it is. */
  lemma NewBallot(c0: Conf, h: Past, g: Past, p: NodeId, n: Peer, u: Term, t: Term, i: nat)
    requires PastOk(c0, h) && PeerOk(h, p, n) && Grows(h, g) && g.reigns == h.reigns && u >= n.term
    requires (p, u) in g.ballots && (p, u) !in h.ballots && g.ballots[(p, u)].log == n.log && (p, t, i) in h.acks && t < u
    ensures t in g.reigns && BallotKeeps(g, p, u, t, i)
  {
    assert AckOk(h, p, t, i) && AckKept(h, n.log, n.term, t, i);
    if u in h.reigns { ReignFacts(c0, h, u); }
    if !Shares(n.log, h.reigns[t].log, i) {
      var w :| t < w <= n.term && w in h.reigns && !Shares(h.reigns[w].start, h.reigns[t].log, i);
      assert w in g.reigns && !Shares(g.reigns[w].start, g.reigns[t].log, i);
    }
  }

  lemma CampaignPast(c0: Conf, h: Past, p: NodeId, n: Peer, g: Past)
    requires PastOk(c0, h) && PeerOk(h, p, n)
    requires g == h.(ballots := h.ballots[(p, n.term + 1) := Ballot(p, n.log)], cands := h.cands[(p, n.term + 1) := n.log])
    ensures Extends(c0, h, g, p)
  {
    assert Grows(h, g);
    GoodLogGrows(h, g, n.log);
    assert CandOk(g, p, n.term + 1) && BallotOk(g, p, n.term + 1);
    forall q, u: Term, t, i | (q, t, i) in h.acks && (q, u) in g.ballots && (q, u) !in h.ballots && t < u && t in g.reigns
      ensures BallotKeeps(g, q, u, t, i)
    {
      NewBallot(c0, h, g, p, n, u, t, i);
    }
    PastExtends(c0, h, g);
  }

  lemma CampaignPeer(c0: Conf, h: Past, p: NodeId, n: Peer, g: Past)
    requires PastOk(c0, h) && PeerOk(h, p, n) && Grows(h, g)
    requires g == h.(ballots := h.ballots[(p, n.term + 1) := Ballot(p, n.log)], cands := h.cands[(p, n.term + 1) := n.log])
    ensures PeerOk(g, p, n.(role := Candidate, term := n.term + 1))
  {
    GoodLogGrows(h, g, n.log);
    SettledGrows(h, g, n.log, n.commit, n.term, n.term + 1);
    AcksGrow(c0, h, g, p, n.log, n.term, n.term + 1);
    if n.term + 1 in h.reigns { ReignFacts(c0, h, n.term + 1); }
  }

  lemma GrantPast(c0: Conf, h: Past, p: NodeId, n: Peer, c: NodeId, u: Term, g: Past)
    requires PastOk(c0, h) && PeerOk(h, p, n) && (c, u) in h.cands && u >= n.term && (p, u) !in h.ballots && UpToDate(h.cands[(c, u)], n.log)
    requires g == h.(ballots := h.ballots[(p, u) := Ballot(c, n.log)])
    ensures Extends(c0, h, g, p)
  {
    assert Grows(h, g);
    GoodLogGrows(h, g, n.log);
    assert BallotOk(g, p, u);
    forall q, v: Term, t, i | (q, t, i) in h.acks && (q, v) in g.ballots && (q, v) !in h.ballots && t < v && t in g.reigns
      ensures BallotKeeps(g, q, v, t, i)
    {
      NewBallot(c0, h, g, p, n, u, t, i);
    }
    PastExtends(c0, h, g);
  }

  lemma GrantPeer(c0: Conf, h: Past, p: NodeId, n: Peer, c: NodeId, u: Term, g: Past)
    requires PastOk(c0, h) && PeerOk(h, p, n) && u >= n.term && g == h.(ballots := h.ballots[(p, u) := Ballot(c, n.log)]) && Grows(h, g)
    ensures PeerOk(g, p, n.(role := Follower, term := u))
  {
    GoodLogGrows(h, g, n.log);
    SettledGrows(h, g, n.log, n.commit, n.term, u);
    AcksGrow(c0, h, g, p, n.log, n.term, u);
  }

  /** Election Safety: a term that has a leader elects no other, whatever memberships the two campaign under. */
  lemma FirstReign(c0: Conf, h: Past, p: NodeId, n: Peer, who: set<NodeId>)
    requires PastOk(c0, h) && PeerOk(h, p, n) && n.role == Candidate && Elected(c0, h, p, n.term, who)
    ensures n.term !in h.reigns
  {
    var t := n.term;
    if t in h.reigns {
      ReignFacts(c0, h, t);
      var r := h.reigns[t];
      forall b: Term, d: nat | (b, d) in h.commits && b < t && b in h.reigns
        ensures Shares(r.start, h.reigns[b].log, d) && Shares(n.log, h.reigns[b].log, d)
      {
        Complete(c0, h, b, d, r.leader, t, r.electors);
        Complete(c0, h, b, d, p, t, who);
      }
      assert CandOk(h, p, t);
      WholeNear(c0, h, r.start, n.log, t);
      var x := MajoritiesShare(ConfOf(c0, r.start), ConfOf(c0, n.log), r.electors, who);
    }
  }

  lemma CrownPast(c0: Conf, h: Past, p: NodeId, n: Peer, who: set<NodeId>, g: Past)
    requires PastOk(c0, h) && PeerOk(h, p, n) && n.role == Candidate && Elected(c0, h, p, n.term, who) && n.term !in h.reigns
    requires g == Acked(h.(reigns := h.reigns[n.term := Reign(p, who, n.log, n.log, n.commit)]), p, n.term, |n.log|)
    ensures Extends(c0, h, g, p)
  {
    assert Grows(h, g);
    GoodLogGrows(h, g, n.log);
    GoodFormed(c0, h, n.log);
    SettledGrows(h, g, n.log, n.commit, n.term, n.term);
    assert CandOk(h, p, n.term);
    assert ReignOk(c0, g, n.term);
    PastExtends(c0, h, g);
  }

  lemma CrownPeer(c0: Conf, h: Past, p: NodeId, n: Peer, who: set<NodeId>, g: Past)
    requires PastOk(c0, h) && PeerOk(h, p, n) && n.role == Candidate && Elected(c0, h, p, n.term, who) && n.term !in h.reigns
    requires g == Acked(h.(reigns := h.reigns[n.term := Reign(p, who, n.log, n.log, n.commit)]), p, n.term, |n.log|) && Grows(h, g)
    ensures PeerOk(g, p, n.(role := Leader))
  {
    GoodLogGrows(h, g, n.log);
    SettledGrows(h, g, n.log, n.commit, n.term, n.term);
    assert CandOk(h, p, n.term);
    forall t, i | (t, i) in h.commits ensures t in h.reigns { CommitFacts(c0, h, t, i); }
    OldAndNewAcks(c0, h, g, p, n.log, n.log, n.term, |n.log|);
  }

  /** Old acknowledgements are kept, and the new ones are of the leader's log. */
  lemma OldAndNewAcks(c0: Conf, h: Past, g: Past, p: NodeId, log: Track, out: Track, t: Term, upTo: nat)
    requires PastOk(c0, h) && Grows(h, g) && t in g.reigns && AcksKept(h, p, log, t) && Shares(log, out, |log|) && Shares(out, g.reigns[t].log, upTo)
    requires forall s, i | (p, s, i) in g.acks && (p, s, i) !in h.acks :: s == t && i <= upTo
    ensures AcksKept(g, p, out, t)
  {
    forall s, i | (p, s, i) in g.acks ensures AckKept(g, out, t, s, i) {
      if (p, s, i) in h.acks {
        assert AckOk(h, p, s, i) && AckKept(h, log, t, s, i);
        KeptGrows(h, g, log, s, i, t, t);
      }
    }
  }

  // ---- appending ----------------------------------------------------------------------------------------------

  /** The leader's reign with one more entry. */
  ghost predicate Longer(c0: Conf, h: Past, g: Past, n: Peer, change: Option<Change>, log: Track) {
    && n.term in h.reigns && log == n.log + [NextItem(c0, n, change)]
    && g.reigns == h.reigns[n.term := h.reigns[n.term].(log := log)] && g.commits == h.commits
  }

  lemma LongerGood(c0: Conf, h: Past, g: Past, p: NodeId, n: Peer, change: Option<Change>, log: Track)
    requires PastOk(c0, h) && PeerOk(h, p, n) && n.role == Leader && Longer(c0, h, g, n, change, log)
    ensures GoodLog(g, log) && Formed(c0, log)
  {
    ReignFacts(c0, h, n.term);
    forall k: nat | k < |log| ensures GoodAt(g, log, k) && FormedAt(c0, log, k) {
      if k < |n.log| { assert GoodAt(h, n.log, k) && FormedAt(c0, n.log, k); }
    }
  }

  lemma LongerChange(c0: Conf, h: Past, g: Past, p: NodeId, n: Peer, change: Option<Change>, log: Track, x: nat)
    requires PastOk(c0, h) && PeerOk(h, p, n) && n.role == Leader && Longer(c0, h, g, n, change, log) && (change.Some? ==> MayChange(n, true))
    requires |h.reigns[n.term].start| < x <= |log| && log[x - 1].change.Some?
    ensures ChangeOk(g, n.term, x)
  {
    LastChangeShared(n.log, log, x - 1);
    if x <= |n.log| {
      ReignFacts(c0, h, n.term);
      assert ChangeOk(h, n.term, x);
      var c: nat :| Backed(h, n.term, x, c);
      assert Backed(g, n.term, x, c);
    } else {
      CommitFacts(c0, h, n.term, n.commit);
      assert Backed(g, n.term, x, n.commit);
    }
  }

  lemma LongerSettled(c0: Conf, h: Past, g: Past, p: NodeId, n: Peer, change: Option<Change>, log: Track)
    requires PeerOk(h, p, n) && Longer(c0, h, g, n, change, log) && Grows(h, g)
    ensures Settled(g, log, n.commit, n.term)
  {
    SettledGrows(h, g, n.log, n.commit, n.term, n.term);
    SettledMoves(g, n.log, log, n.commit, n.commit, n.term);
  }

  lemma LongerReign(c0: Conf, h: Past, g: Past, p: NodeId, n: Peer, change: Option<Change>, log: Track)
    requires PastOk(c0, h) && PeerOk(h, p, n) && n.role == Leader && Longer(c0, h, g, n, change, log) && (change.Some? ==> MayChange(n, true))
    requires Grows(h, g)
    ensures ReignOk(c0, g, n.term)
  {
    ReignFacts(c0, h, n.term);
    LongerGood(c0, h, g, p, n, change, log);
    LongerSettled(c0, h, g, p, n, change, log);
    forall x: nat | |h.reigns[n.term].start| < x <= |log| && log[x - 1].change.Some? ensures ChangeOk(g, n.term, x) {
      LongerChange(c0, h, g, p, n, change, log, x);
    }
  }

  lemma AppendPast(c0: Conf, h: Past, p: NodeId, n: Peer, change: Option<Change>, g: Past, log: Track)
    requires PastOk(c0, h) && PeerOk(h, p, n) && n.role == Leader && Longer(c0, h, g, n, change, log) && (change.Some? ==> MayChange(n, true))
    requires g == Acked(h.(reigns := g.reigns), p, n.term, |log|)
    ensures Extends(c0, h, g, p)
  {
    assert Grows(h, g);
    LongerReign(c0, h, g, p, n, change, log);
    PastExtends(c0, h, g);
  }

  lemma AppendPeer(c0: Conf, h: Past, p: NodeId, n: Peer, change: Option<Change>, g: Past, log: Track)
    requires PastOk(c0, h) && PeerOk(h, p, n) && n.role == Leader && Longer(c0, h, g, n, change, log) && Grows(h, g)
    requires g == Acked(h.(reigns := g.reigns), p, n.term, |log|)
    ensures PeerOk(g, p, n.(log := log))
  {
    LongerGood(c0, h, g, p, n, change, log);
    LongerSettled(c0, h, g, p, n, change, log);
    OldAndNewAcks(c0, h, g, p, n.log, log, n.term, |log|);
  }

  // ---- accepting -----------------------------------------------------------------------------------------------

  lemma PrefixGood(c0: Conf, h: Past, t: Term, log: Track)
    requires PastOk(c0, h) && t in h.reigns && Shares(log, h.reigns[t].log, |log|)
    ensures GoodLog(h, log) && TermsUpTo(log, t)
  {
    ReignFacts(c0, h, t);
    var r := h.reigns[t];
    forall k: nat | k < |log| ensures GoodAt(h, log, k) && log[k].term <= t {
      assert GoodAt(h, r.log, k) && log[k] == r.log[k];
      if k < |r.start| { assert r.log[k] == r.start[k]; }
    }
  }

  /** What a peer has committed is in the log of every leader from its term on. */
  lemma SettledInReign(c0: Conf, h: Past, log: Track, c: nat, t: Term, u: Term)
    requires PastOk(c0, h) && Settled(h, log, c, t) && u in h.reigns && t <= u
    ensures Shares(log, h.reigns[u].log, c)
  {
    if c > 0 {
      var t0, j :| (t0, j) in h.commits && SettledBy(h, log, c, t, t0, j);
      ReignFacts(c0, h, u);
      if t0 < u { Complete(c0, h, t0, j, h.reigns[u].leader, u, h.reigns[u].electors); }
    }
  }

  lemma SplicedKeeps(log: Track, leader: Track, k: nat, out: Track)
    requires k <= |leader| && out == Spliced(log, leader, k)
    ensures Shares(out, leader, k) && forall c: nat | Shares(log, leader, c) :: Shares(out, log, c)
  {
  }

  /** Splicing keeps what was acknowledged, unless a later leader was elected without it. */
  lemma SplicedAcks(c0: Conf, h: Past, p: NodeId, n: Peer, t: Term, out: Track)
    requires PastOk(c0, h) && PeerOk(h, p, n) && t in h.reigns && n.term <= t
    requires forall c: nat | Shares(n.log, h.reigns[t].log, c) :: Shares(out, n.log, c)
    ensures AcksKept(h, p, out, t)
  {
    var r := h.reigns[t];
    ReignFacts(c0, h, t);
    forall s, i | (p, s, i) in h.acks ensures AckKept(h, out, t, s, i) {
      assert AckOk(h, p, s, i) && AckKept(h, n.log, n.term, s, i);
      if Shares(n.log, h.reigns[s].log, i) {
        if s == t || Shares(r.start, h.reigns[s].log, i) {
          assert Shares(n.log, r.log, i);
        } else {
          assert Excused(h, s, i, t);
        }
      }
    }
  }

  lemma AcceptedCommit(c0: Conf, h: Past, p: NodeId, n: Peer, t: Term, k: nat, lc: nat, out: Track)
    requires PastOk(c0, h) && PeerOk(h, p, n) && t in h.reigns && n.term <= t && k <= |h.reigns[t].log| && lc <= k && lc <= h.reigns[t].commit
    requires out == Spliced(n.log, h.reigns[t].log, k)
    ensures Settled(h, out, Max(n.commit, lc), t)
  {
    var r := h.reigns[t];
    SplicedKeeps(n.log, r.log, k, out);
    if n.commit >= lc {
      SettledInReign(c0, h, n.log, n.commit, n.term, t);
      SettledMoves(h, n.log, out, n.commit, n.commit, n.term);
      SettledGrows(h, h, out, n.commit, n.term, t);
    } else {
      ReignFacts(c0, h, t);
      SettledMoves(h, r.log, out, r.commit, lc, t);
    }
  }

  lemma AcceptPast(c0: Conf, h: Past, p: NodeId, n: Peer, t: Term, k: nat, g: Past)
    requires PastOk(c0, h) && PeerOk(h, p, n) && t in h.reigns && n.term <= t && k <= |h.reigns[t].log| && g == Acked(h, p, t, k)
    ensures Extends(c0, h, g, p)
  {
    assert Grows(h, g);
    PastExtends(c0, h, g);
  }

  lemma AcceptPeer(c0: Conf, h: Past, p: NodeId, n: Peer, t: Term, k: nat, lc: nat, g: Past, out: Track)
    requires PastOk(c0, h) && PeerOk(h, p, n) && t in h.reigns && n.term <= t && k <= |h.reigns[t].log| && lc <= k && lc <= h.reigns[t].commit
    requires g == Acked(h, p, t, k) && Grows(h, g) && out == Spliced(n.log, h.reigns[t].log, k)
    ensures PeerOk(g, p, Peer(Follower, t, out, Max(n.commit, lc)))
  {
    SplicedKeeps(n.log, h.reigns[t].log, k, out);
    if out != n.log { PrefixGood(c0, h, t, out); }
    SplicedAcks(c0, h, p, n, t, out);
    AcceptedCommit(c0, h, p, n, t, k, lc, out);
    GoodLogGrows(h, g, out);
    SettledGrows(h, g, out, Max(n.commit, lc), t, t);
    OldAndNewAcks(c0, h, g, p, out, out, t, k);
  }

  // ---- committing -------------------------------------------------------------------------------------------------

  lemma CountedReign(c0: Conf, h: Past, g: Past, t: Term, i: nat, y: Tally)
    requires PastOk(c0, h) && t in h.reigns && 1 <= i <= |h.reigns[t].log| && (t, i) !in h.commits
    requires g == h.(reigns := h.reigns[t := h.reigns[t].(commit := i)], commits := h.commits[(t, i) := y]) && Grows(h, g)
    ensures ReignOk(c0, g, t)
  {
    ReignFacts(c0, h, t);
    var r := h.reigns[t];
    GoodLogGrows(h, g, r.log);
    assert SettledBy(g, r.log, i, t, t, i);
    forall x: nat | |r.start| < x <= |r.log| && r.log[x - 1].change.Some? ensures ChangeOk(g, t, x) {
      assert ChangeOk(h, t, x);
      var c: nat :| Backed(h, t, x, c);
      assert Backed(g, t, x, c);
    }
  }

  ghost predicate Counted(c0: Conf, h: Past, n: Peer, i: nat, who: set<NodeId>, g: Past) {
    && n.commit < i <= |n.log| && n.log[i - 1].term == n.term && n.term in h.reigns && Majority(who, ConfOf(c0, n.log).voters)
    && (forall q | q in who :: (q, n.term, i) in h.acks)
    && g == h.(reigns := h.reigns[n.term := h.reigns[n.term].(commit := i)], commits := h.commits[(n.term, i) := Tally(who, |n.log|)])
  }

  lemma CountPast(c0: Conf, h: Past, p: NodeId, n: Peer, i: nat, who: set<NodeId>, g: Past)
    requires PastOk(c0, h) && PeerOk(h, p, n) && n.role == Leader && Counted(c0, h, n, i, who, g)
    ensures Extends(c0, h, g, p)
  {
    CountGrows(c0, h, p, n, i, who, g);
    CountedReign(c0, h, g, n.term, i, Tally(who, |n.log|));
    PastExtends(c0, h, g);
  }

  lemma CountGrows(c0: Conf, h: Past, p: NodeId, n: Peer, i: nat, who: set<NodeId>, g: Past)
    requires PeerOk(h, p, n) && n.role == Leader && Counted(c0, h, n, i, who, g)
    ensures (n.term, i) !in h.commits && Grows(h, g) && Owned(h, g, p) && CommitOk(c0, g, n.term, i)
  {
  }

  lemma CountPeer(c0: Conf, h: Past, p: NodeId, n: Peer, i: nat, who: set<NodeId>, g: Past)
    requires PastOk(c0, h) && PeerOk(h, p, n) && n.role == Leader && Counted(c0, h, n, i, who, g) && Grows(h, g)
    ensures PeerOk(g, p, n.(commit := i))
  {
    GoodLogGrows(h, g, n.log);
    AcksGrow(c0, h, g, p, n.log, n.term, n.term);
    assert SettledBy(g, n.log, i, n.term, n.term, i);
  }

  // ---- every step ---------------------------------------------------------------------------------------------------

  lemma QuietStep(c0: Conf, w: World, d: Deed)
    requires Inv(c0, w) && (d.Adopt? || d.Restart?) && Enabled(c0, w, d, false)
    ensures Steps(c0, w.past, PastAfter(c0, w, d), d.p, PeerAfter(c0, w, d))
  {
    var n, h := w.peers[d.p], w.past;
    assert PeerOk(h, d.p, n);
    if d.Adopt? {
      SettledGrows(h, h, n.log, n.commit, n.term, d.term);
      AcksGrow(c0, h, h, d.p, n.log, n.term, d.term);
    }
  }

  lemma VoteStep(c0: Conf, w: World, d: Deed, g: Past, m: Peer)
    requires Inv(c0, w) && (d.Campaign? || d.Grant?) && Enabled(c0, w, d, false) && g == PastAfter(c0, w, d) && m == PeerAfter(c0, w, d)
    ensures Steps(c0, w.past, g, d.p, m)
  {
    var n, h := w.peers[d.p], w.past;
    assert PeerOk(h, d.p, n);
    if d.Campaign? {
      CampaignPast(c0, h, d.p, n, g);
      CampaignPeer(c0, h, d.p, n, g);
    } else {
      GrantPast(c0, h, d.p, n, d.cand, d.term, g);
      GrantPeer(c0, h, d.p, n, d.cand, d.term, g);
    }
  }

  lemma CrownStep(c0: Conf, w: World, p: NodeId, who: set<NodeId>, g: Past, m: Peer)
    requires Inv(c0, w) && Enabled(c0, w, Crown(p, who), false) && g == PastAfter(c0, w, Crown(p, who)) && m == PeerAfter(c0, w, Crown(p, who))
    ensures Steps(c0, w.past, g, p, m)
  {
    var n, h := w.peers[p], w.past;
    assert PeerOk(h, p, n);
    FirstReign(c0, h, p, n, who);
    CrownPast(c0, h, p, n, who, g);
    CrownPeer(c0, h, p, n, who, g);
  }

  lemma AppendStep(c0: Conf, w: World, p: NodeId, change: Option<Change>, g: Past, m: Peer)
    requires Inv(c0, w) && Enabled(c0, w, Append(p, change), true)
    requires g == PastAfter(c0, w, Append(p, change)) && m == PeerAfter(c0, w, Append(p, change))
    ensures Steps(c0, w.past, g, p, m)
  {
    var n, h := w.peers[p], w.past;
    assert PeerOk(h, p, n);
    AppendPast(c0, h, p, n, change, g, m.log);
    AppendPeer(c0, h, p, n, change, g, m.log);
  }

  lemma AcceptStep(c0: Conf, w: World, p: NodeId, t: Term, k: nat, lc: nat, g: Past, m: Peer)
    requires Inv(c0, w) && Enabled(c0, w, Accept(p, t, k, lc), false)
    requires g == PastAfter(c0, w, Accept(p, t, k, lc)) && m == PeerAfter(c0, w, Accept(p, t, k, lc))
    ensures Steps(c0, w.past, g, p, m)
  {
    var n, h := w.peers[p], w.past;
    assert PeerOk(h, p, n);
    AcceptPast(c0, h, p, n, t, k, g);
    AcceptPeer(c0, h, p, n, t, k, lc, g, m.log);
  }

  lemma CountStep(c0: Conf, w: World, p: NodeId, i: nat, who: set<NodeId>, g: Past, m: Peer)
    requires Inv(c0, w) && Enabled(c0, w, Count(p, i, who), false)
    requires g == PastAfter(c0, w, Count(p, i, who)) && m == PeerAfter(c0, w, Count(p, i, who))
    ensures Steps(c0, w.past, g, p, m)
  {
    var n, h := w.peers[p], w.past;
    assert PeerOk(h, p, n);
    CountPast(c0, h, p, n, i, who, g);
    CountPeer(c0, h, p, n, i, who, g);
  }

  lemma AnyStep(c0: Conf, w: World, d: Deed)
    requires Inv(c0, w) && Enabled(c0, w, d, true)
    ensures Enabled(c0, w, d, false) && Steps(c0, w.past, PastAfter(c0, w, d), d.p, PeerAfter(c0, w, d))
  {
    var g, m := PastAfter(c0, w, d), PeerAfter(c0, w, d);
    match d
    case Crown(p, who) => CrownStep(c0, w, p, who, g, m);
    case Append(p, change) => AppendStep(c0, w, p, change, g, m);
    case Accept(p, t, k, lc) => AcceptStep(c0, w, p, t, k, lc, g, m);
    case Count(p, i, who) => CountStep(c0, w, p, i, who, g, m);
    case Adopt(_, _) => QuietStep(c0, w, d);
    case Restart(_) => QuietStep(c0, w, d);
    case _ => VoteStep(c0, w, d, g, m);
  }

  lemma StepInv(c0: Conf, w: World, d: Deed)
    requires Inv(c0, w) && Enabled(c0, w, d, true)
    ensures Enabled(c0, w, d, false) && Inv(c0, Do(c0, w, d)) && Grows(w.past, PastAfter(c0, w, d))
  {
    AnyStep(c0, w, d);
    var z := Do(c0, w, d);
    forall q | q in z.peers ensures PeerOk(z.past, q, z.peers[q]) {
      if q != d.p {
        assert PeerOk(w.past, q, w.peers[q]);
        Bystander(c0, w.past, z.past, d.p, q, w.peers[q]);
      }
    }
  }
}
