/** Leader Completeness across membership changes: what one leader counted as committed, under whatever membership it had
    then, every later leader was elected with. */
module ReconfProof {
  import opened ConfChange
  import opened Reconf

  ghost predicate AllCount(h: Past, u: Term, who: set<NodeId>) { forall q | q in who :: Counts(h, q, u) }

  /** Every leader elected after `t` and before `u` started with the first `i` entries of term `t`'s log. */
  ghost predicate HeldBetween(h: Past, t: Term, i: nat, u: Term)
    requires t in h.reigns
  {
    forall w: Term {:trigger w in h.reigns} | t < w < u && w in h.reigns :: Shares(h.reigns[w].start, h.reigns[t].log, i)
  }

  /** A voter that had acknowledged an entry still had it when it voted. */
  lemma VoteHolds(c0: Conf, h: Past, t: Term, i: nat, u: Term, p: NodeId)
    requires PastOk(c0, h) && (p, t, i) in h.acks && t in h.reigns && (p, u) in h.ballots && t < u && HeldBetween(h, t, i, u)
    requires !Counts(h, p, u) ==> u in h.reigns && Shares(h.reigns[u].start, h.reigns[t].log, i)
    ensures Shares(h.ballots[(p, u)].log, h.reigns[t].log, i)
  {
    assert AckOk(h, p, t, i);
    assert BallotKeeps(h, p, u, t, i);
  }

  /** A log that ends in a later term holds what that term's leader started with. */
  lemma EndsLater(c0: Conf, h: Past, log: Track, t: Term, i: nat)
    requires PastOk(c0, h) && GoodLog(h, log) && t in h.reigns && log != []
    requires LastTerm(log) in h.reigns && Shares(h.reigns[LastTerm(log)].start, h.reigns[t].log, i)
    ensures Shares(log, h.reigns[t].log, i)
  {
    LastReign(c0, h, log);
    ReignFacts(c0, h, LastTerm(log));
  }

  /** So a candidate it voted for has it. */
  lemma VotedHolds(c0: Conf, h: Past, t: Term, i: nat, c: NodeId, u: Term, p: NodeId)
    requires PastOk(c0, h) && (t, i) in h.commits && t in h.reigns && t < u && HeldBetween(h, t, i, u) && (c, u) in h.cands
    requires VotedFor(h, p, u, c) && Shares(h.ballots[(p, u)].log, h.reigns[t].log, i)
    ensures Shares(h.cands[(c, u)], h.reigns[t].log, i)
  {
    var start, voted := h.cands[(c, u)], h.ballots[(p, u)].log;
    CommitFacts(c0, h, t, i);
    assert BallotOk(h, p, u) && CandOk(h, c, u);
    assert voted[i - 1] == h.reigns[t].log[i - 1];
    TermsAscend(c0, h, voted, i - 1, |voted| - 1);
    var w := LastTerm(start);
    LastReign(c0, h, start);
    LastReign(c0, h, voted);
    if w > LastTerm(voted) {
      EndsLater(c0, h, start, t, i);
    }
  }

  /** The candidate's log ends in the leader's own term, short of the entry: at most one change lies between. */
  lemma EndsSame(c0: Conf, h: Past, t: Term, i: nat, start: Track)
    requires PastOk(c0, h) && (t, i) in h.commits && t in h.reigns && GoodLog(h, start) && start != [] && LastTerm(start) == t && |start| < i
    requires var r, j := h.reigns[t].log, h.commits[(t, i)].upTo;
      && i <= j <= |r|
      && var z := LastChange(r, j); z > |start| ==> exists c: nat :: Backed(h, t, z, c) && Shares(start, r, c)
    ensures Near(ConfAt(c0, h.reigns[t].log, h.commits[(t, i)].upTo), ConfOf(c0, start))
  {
    var r, j, k := h.reigns[t].log, h.commits[(t, i)].upTo, |start|;
    ReignFacts(c0, h, t);
    LastReign(c0, h, start);
    var z := LastChange(r, j);
    assert ConfOf(c0, start) == ConfAt(c0, r, k);
    if z <= k {
      ConfSteady(c0, r, k, j);
      OneChangeNear(ConfAt(c0, r, k), AddLearner(0));
    } else {
      var c: nat :| Backed(h, t, z, c) && Shares(start, r, c);
      AcrossOneChange(c0, r, k, z, j);
    }
  }

  /** Entries of an older last term hold no entry of `t`. */
  lemma EndsOlder(c0: Conf, h: Past, start: Track, t: Term)
    requires PastOk(c0, h) && GoodLog(h, start) && LastTerm(start) < t
    ensures TermsBelow(start, t)
  {
    forall k | 0 <= k < |start| ensures start[k].term < t { TermsAscend(c0, h, start, k, |start| - 1); }
  }

  /** The candidate's log ends before the leader's term: the leader had changed nothing, and started near it. */
  lemma OlderNear(c0: Conf, h: Past, t: Term, i: nat, start: Track)
    requires PastOk(c0, h) && (t, i) in h.commits && t in h.reigns && Whole(h, start, t) && Whole(h, h.reigns[t].start, t)
    requires var r, j := h.reigns[t], h.commits[(t, i)].upTo; |r.start| <= j <= |r.log| && LastChange(r.log, j) <= |r.start|
    ensures Near(ConfAt(c0, h.reigns[t].log, h.commits[(t, i)].upTo), ConfOf(c0, start))
  {
    var r := h.reigns[t];
    ReignFacts(c0, h, t);
    ConfSteady(c0, r.log, |r.start|, h.commits[(t, i)].upTo);
    assert ConfOf(c0, r.start) == ConfAt(c0, r.log, |r.start|);
    WholeNear(c0, h, r.start, start, t);
  }

  lemma MajoritiesShare(c: Conf, d: Conf, p: set<nat>, q: set<nat>) returns (x: nat)
    requires Near(c, d) && Majority(p, c.voters) && Majority(q, d.voters)
    ensures x in p && x in q
  {
    assert p * q != {};
    x :| x in p * q;
  }

  /** Someone who voted held the entry. */
  ghost predicate Overlap(h: Past, t: Term, i: nat, who: set<NodeId>)
    requires (t, i) in h.commits
  {
    exists p :: p in who && p in h.commits[(t, i)].who
  }

  /** Leader Completeness. */
  lemma {:induction false} Complete(c0: Conf, h: Past, t: Term, i: nat, c: NodeId, u: Term, who: set<NodeId>)
    requires PastOk(c0, h) && (t, i) in h.commits && t < u && Elected(c0, h, c, u, who)
    ensures t in h.reigns && Shares(h.cands[(c, u)], h.reigns[t].log, i)
    decreases u, if AllCount(h, u, who) then 0 else 1, t, h.commits[(t, i)].upTo, 1
  {
    CommitFacts(c0, h, t, i);
    forall w: Term | t < w < u && w in h.reigns ensures Shares(h.reigns[w].start, h.reigns[t].log, i) {
      ReignFacts(c0, h, w);
      Complete(c0, h, t, i, h.reigns[w].leader, w, h.reigns[w].electors);
    }
    if !AllCount(h, u, who) {
      ReignFacts(c0, h, u);
      Complete(c0, h, t, i, h.reigns[u].leader, u, h.reigns[u].electors);
    }
    Meets(c0, h, t, i, c, u, who);
    if Overlap(h, t, i, who) { OverlapHolds(c0, h, t, i, c, u, who); }
  }

  lemma OverlapHolds(c0: Conf, h: Past, t: Term, i: nat, c: NodeId, u: Term, who: set<NodeId>)
    requires PastOk(c0, h) && (t, i) in h.commits && t < u && Elected(c0, h, c, u, who) && t in h.reigns && HeldBetween(h, t, i, u)
    requires !AllCount(h, u, who) ==> u in h.reigns && Shares(h.reigns[u].start, h.reigns[t].log, i)
    requires Overlap(h, t, i, who)
    ensures Shares(h.cands[(c, u)], h.reigns[t].log, i)
  {
    CommitFacts(c0, h, t, i);
    var p :| p in who && p in h.commits[(t, i)].who;
    VoteHolds(c0, h, t, i, u, p);
    VotedHolds(c0, h, t, i, c, u, p);
  }

  /** Those who elected a later leader overlap with those who held the entry, unless its log holds the entry anyway. */
  lemma {:induction false} Meets(c0: Conf, h: Past, t: Term, i: nat, c: NodeId, u: Term, who: set<NodeId>)
    requires PastOk(c0, h) && (t, i) in h.commits && t < u && Elected(c0, h, c, u, who) && t in h.reigns && HeldBetween(h, t, i, u)
    ensures Overlap(h, t, i, who) || Shares(h.cands[(c, u)], h.reigns[t].log, i)
    decreases u, if AllCount(h, u, who) then 0 else 1, t, h.commits[(t, i)].upTo, 0
  {
    var start, r, j := h.cands[(c, u)], h.reigns[t], h.commits[(t, i)].upTo;
    CommitFacts(c0, h, t, i);
    ReignFacts(c0, h, t);
    assert CandOk(h, c, u);
    var z := LastChange(r.log, j);
    if z > |r.start| {
      assert ChangeOk(h, t, z);
      var d: nat :| Backed(h, t, z, d);
      Complete(c0, h, t, d, c, u, who);
      HoldsOwn(c0, h, t, d, start);
    }
    if LastTerm(start) >= t {
      EndsNoEarlier(c0, h, t, i, z, start, u, who);
    } else {
      forall b: Term, d: nat | (b, d) in h.commits && b < t && b in h.reigns
        ensures Shares(r.start, h.reigns[b].log, d) && Shares(start, h.reigns[b].log, d)
      {
        Complete(c0, h, b, d, r.leader, t, r.electors);
        Complete(c0, h, b, d, c, u, who);
      }
      EndsOlder(c0, h, start, t);
      OwnEntry(c0, h, t, i - 1);
      OlderNear(c0, h, t, i, start);
      Overlaps(c0, h, t, i, start, who);
    }
  }

  lemma Overlaps(c0: Conf, h: Past, t: Term, i: nat, start: Track, who: set<NodeId>)
    requires PastOk(c0, h) && (t, i) in h.commits && t in h.reigns && h.commits[(t, i)].upTo <= |h.reigns[t].log|
    requires Near(ConfAt(c0, h.reigns[t].log, h.commits[(t, i)].upTo), ConfOf(c0, start)) && Majority(who, ConfOf(c0, start).voters)
    ensures Overlap(h, t, i, who)
  {
    CommitFacts(c0, h, t, i);
    var p := MajoritiesShare(ConfAt(c0, h.reigns[t].log, h.commits[(t, i)].upTo), ConfOf(c0, start), h.commits[(t, i)].who, who);
  }

  /** A log with a commit of `t` in it ends in `t` or later. */
  lemma HoldsOwn(c0: Conf, h: Past, t: Term, d: nat, start: Track)
    requires PastOk(c0, h) && (t, d) in h.commits && t in h.reigns && GoodLog(h, start) && Shares(start, h.reigns[t].log, d)
    ensures LastTerm(start) >= t
  {
    CommitFacts(c0, h, t, d);
    assert start[d - 1] == h.reigns[t].log[d - 1];
    TermsAscend(c0, h, start, d - 1, |start| - 1);
  }

  lemma EndsNoEarlier(c0: Conf, h: Past, t: Term, i: nat, z: nat, start: Track, u: Term, who: set<NodeId>)
    requires PastOk(c0, h) && (t, i) in h.commits && t in h.reigns && GoodLog(h, start) && TermsBelow(start, u) && HeldBetween(h, t, i, u)
    requires h.commits[(t, i)].upTo <= |h.reigns[t].log| && z == LastChange(h.reigns[t].log, h.commits[(t, i)].upTo)
    requires z > |h.reigns[t].start| ==> exists c: nat :: Backed(h, t, z, c) && Shares(start, h.reigns[t].log, c)
    requires LastTerm(start) >= t && Majority(who, ConfOf(c0, start).voters)
    ensures Overlap(h, t, i, who) || Shares(start, h.reigns[t].log, i)
  {
    CommitFacts(c0, h, t, i);
    ReignFacts(c0, h, t);
    LastReign(c0, h, start);
    if LastTerm(start) > t {
      EndsLater(c0, h, start, t, i);
    } else if |start| < i {
      EndsSame(c0, h, t, i, start);
      Overlaps(c0, h, t, i, start, who);
    }
  }
}
