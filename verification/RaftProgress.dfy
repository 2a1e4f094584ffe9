/** What Raft does when messages get through. A leader repairs a follower's log in at most one round more than it has
    entries; with a majority repaired it commits all it has, and its next heartbeat tells them. */
module RaftProgress {
  import opened Basics
  import opened RaftNode
  import opened RaftHistory
  import opened RaftSteps

  // ---- one append and its answer ----------------------------------------------------------------

  /** An append that is anchored at `p` and carries every entry from there on. */
  ghost predicate Offers(l: Node, to: NodeId, p: nat, m: Message) {
    && m.from == l.id && m.to == to && m.term == l.term && m.body.Append?
    && p <= |l.log| && m.body.prevIndex == p && TermAt(l.log, p) == Some(m.body.prevTerm)
    && m.body.entries == l.log[p..] && m.body.leaderCommit == l.commit && m.body.round == l.round
  }

  /** The follower's answer to one append, and nothing else. */
  ghost predicate Replies(f: Node, m: Message, g: Node, r: Message) {
    && g == Step(f.(outbox := {}), m) && g.outbox == {r}
    && r.from == f.id && r.to == m.from && r.body.AppendResp? && r.term == g.term && (m.body.Append? ==> r.body.echo == m.body.round)
  }

  /** The follower's entry at the anchor is the leader's. */
  ghost predicate Fits(f: Node, m: Message)
    requires m.body.Append?
  {
    TermAt(f.log, m.body.prevIndex) == Some(m.body.prevTerm)
  }

  /** Whoever is of no later term follows the sender, and keeps its log and what it committed. */
  lemma Follows(l: Node, f: Node, p: nat, m: Message) returns (a: Node)
    requires Offers(l, f.id, p, m) && f.term <= l.term
    ensures a == Follow(AdoptTerm(f.(outbox := {}), m), l.id)
    ensures a.id == f.id && a.term == l.term && a.log == f.log && a.commit == f.commit && a.outbox == {}
    ensures var b := m.body;
      Step(f.(outbox := {}), m) ==
        if |l.log| == 0 then Send(a, l.id, l.term, AppendResp(true, 0, b.round))
        else if !Fits(f, m) then Send(a, l.id, l.term, AppendResp(false, 0, b.round))
        else Send(Accept(a, p, b.entries, b.leaderCommit), l.id, l.term, AppendResp(true, |l.log|, b.round))
  {
    a := Follow(AdoptTerm(f.(outbox := {}), m), l.id);
    assert m.body.prevIndex + |m.body.entries| == |l.log|;
  }

  /** Taking an offer that fits leaves the leader's log, and its commit index if that is news. */
  lemma Takes(h: Past, l: Node, a: Node, p: nat, m: Message)
    requires Offers(l, a.id, p, m) && GoodLog(h, l.log) && GoodLog(h, a.log) && Fits(a, m) && l.commit <= |l.log|
    ensures p <= |a.log|
    ensures var g := Accept(a, p, m.body.entries, m.body.leaderCommit);
      Agree(g.log, l.log, |l.log|) && g.commit == Max(a.commit, l.commit) && GoodLog(h, g.log) && g.id == a.id && g.outbox == a.outbox
  {
    var b := m.body;
    Anchor(h, a, l.log, p, b.prevTerm);
    SpliceMatches(h, a.log, l.log, p, b.entries, |b.entries|);
    SplicedGood(h, a.log, l.log, Splice(a.log, p, b.entries));
  }

  /** An offer fits or it does not: a follower of no later term takes all of it, or changes nothing, and says which. */
  lemma FollowerAnswers(h: Past, l: Node, f: Node, p: nat, m: Message) returns (g: Node, r: Message)
    requires Offers(l, f.id, p, m) && f.term <= l.term && GoodLog(h, l.log) && GoodLog(h, f.log) && l.commit <= |l.log|
    ensures Replies(f, m, g, r) && g.term == l.term && g.role == Follower && g.leader == Some(l.id) && GoodLog(h, g.log) && g.id == f.id
    ensures r.body.success <==> Fits(f, m) || |l.log| == 0
    ensures r.body.success ==> r.body.matchIndex == |l.log| && Agree(g.log, l.log, |l.log|)
    ensures r.body.success && |l.log| > 0 ==> g.commit == Max(f.commit, l.commit)
    ensures !r.body.success ==> g.log == f.log
  {
    var a := Follows(l, f, p, m);
    g := Step(f.(outbox := {}), m);
    var ok := Fits(f, m) || |l.log| == 0;
    r := Message(f.id, l.id, l.term, AppendResp(ok, if ok then |l.log| else 0, m.body.round));
    if |l.log| > 0 && Fits(f, m) { Takes(h, l, a, p, m); }
  }

  lemma SplicedGood(h: Past, log: Log, leader: Log, out: Log)
    requires GoodLog(h, log) && GoodLog(h, leader) && (out == log || Agree(out, leader, |out|))
    ensures GoodLog(h, out)
  {
    if out != log {
      forall k: nat | k < |out| ensures GoodAt(h, out, k) { assert GoodAt(h, leader, k); }
    }
  }

  /** The leader as it was, but for what it knows of one peer. */
  ghost predicate SameLeader(l: Node, k: Node, peer: NodeId) {
    && k.id == l.id && k.voters == l.voters && k.role == Leader && k.term == l.term && k.log == l.log && k.commit >= l.commit
    && (forall v | v != peer :: MatchOf(k, v) == MatchOf(l, v)) && MatchOf(k, peer) >= MatchOf(l, peer)
    && (forall v | v != peer && v in l.next :: v in k.next && k.next[v] == l.next[v])
  }

  /** A refusal makes the leader send again from one entry earlier, and nothing else. */
  lemma RefusedSendsMore(l: Node, f: NodeId, p: nat, r: Message) returns (k: Node, m: Message)
    requires l.role == Leader && f in l.next && l.next[f] == p + 1 && 0 < p <= |l.log| && l.outbox == {}
    requires r.from == f && r.to == l.id && r.term == l.term && r.body.AppendResp? && !r.body.success
    ensures k == Step(l, r) && k.outbox == {m} && Offers(k, f, p - 1, m)
    ensures SameLeader(l, k, f) && k.commit == l.commit && f in k.next && k.next[f] == p && k.transfer == l.transfer
  {
    k := Step(l, r);
    var a := BackOff(NoteAnswer(l, f, r.body.echo), f);
    m := AppendFor(a, f);
    assert a.next[f] == p && NextFor(a, f) == p;
    assert k.outbox == SendAppend(a, f).outbox;
  }

  /** An acceptance tells it how far the follower is, and commits what that allows. */
  lemma AcceptedCounts(l: Node, f: NodeId, r: Message) returns (k: Node)
    requires l.role == Leader && l.commit <= |l.log| && MatchOf(l, f) <= |l.log|
    requires r.from == f && r.to == l.id && r.term == l.term && r.body.AppendResp? && r.body.success && r.body.matchIndex == |l.log|
    ensures k == Step(l, r) && SameLeader(l, k, f) && MatchOf(k, f) == |l.log| && f in k.next && k.next[f] == |l.log| + 1
    ensures l.commit <= k.commit <= |l.log|
    ensures |Holders(k, |l.log|)| >= Majority(k) && l.log != [] && LastTerm(l.log) == l.term ==> k.commit == |l.log|
  {
    var d := NoteMatch(NoteAnswer(l, f, r.body.echo), f, |l.log|);
    k := Step(l, r);
    AcceptedShape(l, f, r, d, k);
    CommitRises(d);
    assert Holders(k, |l.log|) == Holders(d, |l.log|);
    if |Holders(d, |d.log|)| >= Majority(d) && d.log != [] && LastTerm(d.log) == d.term { HeldCommits(d); }
  }

  /** What an acceptance leaves alone. */
  lemma AcceptedShape(l: Node, f: NodeId, r: Message, d: Node, k: Node)
    requires l.role == Leader && r.from == f && r.term == l.term && r.body.AppendResp? && r.body.success
    requires d == NoteMatch(NoteAnswer(l, f, r.body.echo), f, r.body.matchIndex) && k == Step(l, r)
    ensures k.id == l.id && k.voters == l.voters && k.role == Leader && k.term == l.term && k.log == l.log
    ensures k.matched == d.matched && k.next == d.next && k.commit == MaybeAdvanceCommit(d).commit
  {
    var b := MaybeAdvanceCommit(d);
    CommittedShape(d, b);
    var c := if b.transfer == Some(f) && MatchOf(b, f) >= |b.log| then FireTimeoutNow(b, f) else b;
    ReadsShape(c);
  }

  lemma CommittedShape(d: Node, b: Node)
    requires b == MaybeAdvanceCommit(d)
    ensures b.id == d.id && b.voters == d.voters && b.role == d.role && b.term == d.term && b.log == d.log
    ensures b.matched == d.matched && b.next == d.next && b.outbox == d.outbox
  {
    ReadsShape(d.(commit := CommitScan(d, |d.log|)));
  }

  lemma CommitRises(d: Node)
    requires d.commit <= |d.log|
    ensures d.commit <= MaybeAdvanceCommit(d).commit <= |d.log|
  {
    CommitScanFinds(d, |d.log|);
    ReadsShape(d.(commit := CommitScan(d, |d.log|)));
  }

  lemma ReadsShape(n: Node)
    ensures AdvanceReads(n) == n.(ready := AdvanceReads(n).ready, pending := AdvanceReads(n).pending)
  {
  }

  /** What a majority holds to the end, in the leader's own term, is committed to the end. */
  lemma HeldCommits(d: Node)
    requires d.log != [] && LastTerm(d.log) == d.term && |Holders(d, |d.log|)| >= Majority(d) && d.commit <= |d.log|
    ensures MaybeAdvanceCommit(d).commit == |d.log|
  {
    assert TermAt(d.log, |d.log|) == Some(d.term);
  }

  // ---- repair -----------------------------------------------------------------------------------

  /** `n` rounds between leader `l` and follower `f`, beginning with `m`: each append is answered, each answer but the last
      brings one more append. Nothing here is chosen: a round's messages are all that is sent. */
  ghost predicate Exchanged(l: Node, f: Node, m: Message, n: nat, k: Node, g: Node)
    decreases n, 0
  {
    n > 0 && exists r, f1 :: Replies(f, m, f1, r) && Continues(Step(l.(outbox := {}), r), f1, n - 1, k, g)
  }

  ghost predicate Continues(l: Node, f: Node, n: nat, k: Node, g: Node)
    decreases n, 1
  {
    if n == 0 then k == l && g == f else exists m :: l.outbox == {m} && Exchanged(l, f, m, n, k, g)
  }

  /** The follower holds the leader's log, and the leader knows. */
  ghost predicate Repaired(l: Node, f: Node, k: Node, g: Node) {
    && SameLeader(l, k, f.id) && MatchOf(k, f.id) == |l.log| && k.commit <= |l.log|
    && f.id in k.next && k.next[f.id] == |l.log| + 1
    && g.id == f.id && g.term == l.term && Agree(g.log, l.log, |l.log|)
    && (|Holders(k, |l.log|)| >= Majority(k) && l.log != [] && LastTerm(l.log) == l.term ==> k.commit == |l.log|)
  }

  lemma FirstRound(l: Node, f: Node, m: Message, r: Message, f1: Node, k: Node)
    requires Replies(f, m, f1, r) && k == Step(l.(outbox := {}), r)
    ensures Exchanged(l, f, m, 1, k, f1)
  {
    assert Continues(k, f1, 0, k, f1);
  }

  /** A round that ends in one more append. */
  ghost predicate Leads(l: Node, f: Node, m: Message, l1: Node, f1: Node, m1: Message) {
    l1.outbox == {m1} && exists r :: Replies(f, m, f1, r) && l1 == Step(l.(outbox := {}), r)
  }

  lemma OneMoreRound(l: Node, f: Node, m: Message, l1: Node, f1: Node, m1: Message, i: nat, k: Node, g: Node)
    requires Leads(l, f, m, l1, f1, m1) && i > 0 && Exchanged(l1, f1, m1, i, k, g)
    ensures Exchanged(l, f, m, i + 1, k, g)
  {
    var r :| Replies(f, m, f1, r) && l1 == Step(l.(outbox := {}), r);
    assert Continues(l1, f1, i, k, g);
  }

  /** The leader has made the follower an offer anchored at `p`, and would go one back from there. */
  ghost predicate Offering(h: Past, l: Node, f: Node, p: nat, m: Message) {
    && l.role == Leader && Offers(l, f.id, p, m) && f.id in l.next && l.next[f.id] == p + 1
    && f.term <= l.term && GoodLog(h, l.log) && GoodLog(h, f.log) && l.commit <= |l.log| && MatchOf(l, f.id) <= |l.log|
  }

  /** One round: the follower is repaired, or the next offer is one entry longer. */
  lemma Round(h: Past, l: Node, f: Node, p: nat, m: Message) returns (done: bool, k: Node, g: Node, m1: Message)
    requires Offering(h, l, f, p, m)
    ensures done ==> Exchanged(l, f, m, 1, k, g) && Repaired(l, f, k, g) && GoodLog(h, g.log)
    ensures !done ==> p > 0 && Leads(l, f, m, k, g, m1) && Offering(h, k, g, p - 1, m1) && SameLeader(l, k, f.id) && g.id == f.id
  {
    var r;
    g, r := FollowerAnswers(h, l, f, p, m);
    m1 := m;
    done := r.body.success;
    if done {
      k := RoundDone(l, f, m, g, r);
    } else {
      k, m1 := RoundOn(l, f, p, m, g, r);
    }
  }

  lemma RoundDone(l: Node, f: Node, m: Message, g: Node, r: Message) returns (k: Node)
    requires l.role == Leader && l.commit <= |l.log| && MatchOf(l, f.id) <= |l.log| && m.from == l.id
    requires Replies(f, m, g, r) && r.body.success && r.body.matchIndex == |l.log| && r.term == l.term
    requires g.id == f.id && g.term == l.term && Agree(g.log, l.log, |l.log|)
    ensures Exchanged(l, f, m, 1, k, g) && Repaired(l, f, k, g)
  {
    k := AcceptedCounts(l.(outbox := {}), f.id, r);
    FirstRound(l, f, m, r, g, k);
  }

  lemma RoundOn(l: Node, f: Node, p: nat, m: Message, g: Node, r: Message) returns (k: Node, m1: Message)
    requires l.role == Leader && 0 < p <= |l.log| && f.id in l.next && l.next[f.id] == p + 1 && m.from == l.id
    requires Replies(f, m, g, r) && !r.body.success && r.term == l.term
    ensures Leads(l, f, m, k, g, m1) && Offers(k, f.id, p - 1, m1) && SameLeader(l, k, f.id) && k.commit == l.commit
    ensures f.id in k.next && k.next[f.id] == p
  {
    k, m1 := RefusedSendsMore(l.(outbox := {}), f.id, p, r);
  }

  lemma RepairedOn(l: Node, f: Node, l1: Node, f1: Node, k: Node, g: Node)
    requires SameLeader(l, l1, f.id) && f1.id == f.id && Repaired(l1, f1, k, g)
    ensures Repaired(l, f, k, g)
  {
  }

  /** Log repair: from an offer anchored at `p` the follower holds the leader's log after at most `p + 1` rounds. */
  lemma {:induction false} Repair(h: Past, l: Node, f: Node, p: nat, m: Message) returns (n: nat, k: Node, g: Node)
    requires Offering(h, l, f, p, m)
    ensures 0 < n <= p + 1 && Exchanged(l, f, m, n, k, g) && Repaired(l, f, k, g) && GoodLog(h, g.log)
    decreases p
  {
    var done, l1, f1, m1 := Round(h, l, f, p, m);
    if done {
      n, k, g := 1, l1, f1;
    } else {
      var i;
      i, k, g := Repair(h, l1, f1, p - 1, m1);
      n := i + 1;
      OneMoreRound(l, f, m, l1, f1, m1, i, k, g);
      RepairedOn(l, f, l1, f1, k, g);
    }
  }

  // ---- a leader in office -------------------------------------------------------------------------

  const HEARTBEAT: Timers := Timers(false, true, false, false)

  /** A leader knows where to go on with every voter, and nothing it was told goes past its log. */
  ghost predicate InOffice(l: Node) {
    && l.role == Leader && l.commit <= |l.log|
    && forall v | v in l.voters :: v in l.next && 1 <= l.next[v] <= |l.log| + 1 && MatchOf(l, v) <= |l.log|
  }

  /** A broadcast makes every peer an offer, and nothing else. */
  lemma BroadcastOffers(l: Node, v: NodeId) returns (m: Message)
    requires InOffice(l) && v in l.voters && v != l.id
    ensures m in BroadcastAppend(l).outbox && Offers(l, v, l.next[v] - 1, m)
    ensures forall x | x in BroadcastAppend(l).outbox && x !in l.outbox && x.to == v :: x == m
  {
    m := AppendFor(l, v);
    assert m in AppendsOf(l);
  }

  /** So does the heartbeat tick, which changes nothing else of the leader. */
  lemma HeartbeatOffers(l: Node, checkQuorum: bool, v: NodeId) returns (m: Message)
    requires InOffice(l) && v in l.voters && v != l.id
    ensures var k := Tick(l, HEARTBEAT, checkQuorum);
      m in k.outbox && Offers(l, v, l.next[v] - 1, m) && k == l.(outbox := k.outbox)
  {
    m := BroadcastOffers(l, v);
  }

  /** And taking a command, for the log that has it. */
  lemma ProposeOffers(l: Node, data: Bytes, v: NodeId) returns (m: Message)
    requires InOffice(l) && l.transfer == None && l.id in l.voters && v in l.voters && v != l.id
    ensures var k := Propose(l, data); m in k.outbox && Offers(k, v, l.next[v] - 1, m) && InOffice(k)
  {
    var a := AppendLocal(l, data);
    var b := MaybeAdvanceCommit(a);
    CommittedShape(a, b);
    CommitRises(a);
    assert InOffice(b);
    m := BroadcastOffers(b, v);
  }

  /** A new leader offers its log from the end. */
  lemma CrownOffers(n: Node, v: NodeId) returns (m: Message)
    requires n.commit <= |n.log| && n.id in n.voters && v in n.voters && v != n.id
    ensures var k := BecomeLeader(n); InOffice(k) && MatchOf(k, n.id) == |n.log| && m in k.outbox && Offers(k, v, |n.log|, m)
  {
    assert InOffice(Crown(n));
    m := BroadcastOffers(Crown(n), v);
  }

  lemma OfficeStays(l: Node, f: Node, k: Node, g: Node)
    requires InOffice(l) && Repaired(l, f, k, g)
    ensures InOffice(k)
  {
  }

  lemma OfferMade(h: Past, l: Node, t: Node, f: Node, m: Message)
    requires InOffice(l) && f.id in l.voters && f.term <= l.term && GoodLog(h, l.log) && GoodLog(h, f.log)
    requires t == l.(outbox := t.outbox) && Offers(l, f.id, l.next[f.id] - 1, m)
    ensures Offering(h, t, f, l.next[f.id] - 1, m) && SameLeader(l, t, f.id)
  {
  }

  /** From a heartbeat on, a follower of no later term is repaired within one round more than the leader has entries. */
  lemma HeartbeatRepairs(h: Past, l: Node, f: Node, checkQuorum: bool) returns (m: Message, n: nat, k: Node, g: Node)
    requires InOffice(l) && f.id in l.voters && f.id != l.id && f.term <= l.term && GoodLog(h, l.log) && GoodLog(h, f.log)
    ensures m in Tick(l, HEARTBEAT, checkQuorum).outbox && m.to == f.id
    ensures 0 < n <= |l.log| + 1 && Exchanged(Tick(l, HEARTBEAT, checkQuorum), f, m, n, k, g)
    ensures Repaired(l, f, k, g) && InOffice(k) && GoodLog(h, g.log)
  {
    m := HeartbeatOffers(l, checkQuorum, f.id);
    var t := Tick(l, HEARTBEAT, checkQuorum);
    OfferMade(h, l, t, f, m);
    n, k, g := Repair(h, t, f, l.next[f.id] - 1, m);
    RepairedOn(l, f, t, f, k, g);
    OfficeStays(l, f, k, g);
  }
}
