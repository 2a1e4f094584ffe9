/** Who leads, and what else a node does when it is reached: a candidate the majority can vote for is elected, leadership goes
    where it is sent, a leader out of touch steps down, and a read is answered by the majority's next answers. */
module RaftElect {
  import opened Basics
  import opened RaftNode
  import opened RaftHistory
  import opened RaftSystem
  import opened RaftProgress
  import opened RaftReach

  // ---- votes ------------------------------------------------------------------------------------------

  /** A request for a vote, from a candidate with this log. */
  ghost predicate Asks(c: Node, to: NodeId, m: Message) {
    m.from == c.id && m.to == to && m.term == c.term && m.body == RequestVote(|c.log|, LastTerm(c.log))
  }

  /** A candidate's log is at least as up to date: it ends in a later term, or in the same and no shorter. */
  ghost predicate NoOlder(a: Log, b: Log) { LastTerm(a) > LastTerm(b) || (LastTerm(a) == LastTerm(b) && |a| >= |b|) }

  /** The voter is free to vote for `c`: the term is new to it, or it has not voted for another in it. */
  ghost predicate Free(v: Node, c: Node) { c.term > v.term || (c.term == v.term && (v.vote == None || v.vote == Some(c.id))) }

  /** When the election timer fires, a voter that does not lead stands in the next term and asks everyone. */
  lemma Stands(n: Node, t: Timers, checkQuorum: bool, v: NodeId) returns (m: Message)
    requires n.role != Leader && t.electionDue && n.id in n.voters && n.outbox == {} && v in n.voters && v != n.id && |n.voters| > 1
    ensures var c := Tick(n, t, checkQuorum);
      && c.role == Candidate && c.term == n.term + 1 && c.vote == Some(n.id) && c.votes == {n.id} && c.log == n.log && c.commit == n.commit
      && c.leader == None
      && m in c.outbox && Asks(c, v, m) && forall x | x in c.outbox :: Asks(c, x.to, x) && x.to in n.voters && x.to != n.id
  {
    var c := Campaign(n);
    assert |{n.id}| == 1;
    m := Message(n.id, v, c.term, RequestVote(|n.log|, LastTerm(n.log)));
    assert m in Solicitations(c);
  }

  /** A vote is given exactly to whom it can be: the answer says so, and the voter remembers. */
  lemma Answers(v: Node, c: Node, m: Message) returns (w: Node, r: Message)
    requires Asks(c, v.id, m)
    ensures w == Step(v.(outbox := {}), m) && w.outbox == {r} && r.from == v.id && r.to == c.id && r.body.VoteResp?
    ensures r.body.granted <==> Free(v, c) && NoOlder(c.log, v.log)
    ensures r.body.granted ==> w.vote == Some(c.id) && w.term == c.term == r.term
    ensures w.log == v.log && w.commit == v.commit && w.term == r.term == RaftNode.Max(v.term, c.term)
    ensures c.term <= v.term && !r.body.granted ==> w.vote == v.vote
  {
    w := Step(v.(outbox := {}), m);
    r := Message(v.id, c.id, RaftNode.Max(v.term, c.term), VoteResp(Free(v, c) && NoOlder(c.log, v.log)));
  }

  /** The candidate after these grants. */
  function Collect(n: Node, term: Term, froms: seq<NodeId>): Node
    decreases |froms|
  {
    if froms == [] then n
    else
      var k := |froms| - 1;
      Step(Collect(n, term, froms[..k]), Message(froms[k], n.id, term, VoteResp(true)))
  }

  ghost function Known(froms: seq<NodeId>): set<NodeId> { set x | x in froms }

  lemma OneMoreGrant(c: Node, from: NodeId, before: set<NodeId>, after: set<NodeId>)
    requires after == before + {from} && from in c.voters && |before| <= |after|
    requires c.role == Leader <==> |before| >= Majority(c)
    requires c.role != Leader ==> c.role == Candidate && c.votes == before
    ensures var k := Step(c, Message(from, c.id, c.term, VoteResp(true)));
      && k.id == c.id && k.voters == c.voters && k.term == c.term && k.log == c.log && k.commit == c.commit
      && (k.role == Leader <==> |after| >= Majority(c)) && (k.role != Leader ==> k.role == Candidate && k.votes == after)
  {
  }

  /** A candidate leads its term exactly when it and those who granted are a majority; short of that it still stands. */
  lemma {:induction false} Elected(n: Node, froms: seq<NodeId>)
    requires n.role == Candidate && n.votes == {n.id} && n.id in n.voters && |n.voters| > 1 && forall x | x in froms :: x in n.voters
    ensures var c := Collect(n, n.term, froms);
      && c.id == n.id && c.voters == n.voters && c.term == n.term && c.log == n.log && c.commit == n.commit
      && (c.role == Leader <==> |Known(froms) + {n.id}| >= Majority(n))
      && (c.role != Leader ==> c.role == Candidate && c.votes == Known(froms) + {n.id})
  {
    if froms == [] {
      assert Known(froms) + {n.id} == {n.id};
      assert |{n.id}| == 1;
    } else {
      var k := |froms| - 1;
      Elected(n, froms[..k]);
      assert froms == froms[..k] + [froms[k]];
      assert Known(froms) == Known(froms[..k]) + {froms[k]};
      assert froms[k] in froms;
      var before, after := Known(froms[..k]) + {n.id}, Known(froms) + {n.id};
      assert before + {froms[k]} == after;
      SubsetSize(before, after);
      OneMoreGrant(Collect(n, n.term, froms[..k]), froms[k], before, after);
    }
  }

  /** Taking office: appends to everyone, from the end of the log. */
  lemma TakesOffice(c: Node, from: NodeId, v: NodeId) returns (m: Message)
    requires c.role == Candidate && c.id in c.voters && from in c.voters && c.commit <= |c.log| && v in c.voters && v != c.id
    requires |c.votes + {from}| >= Majority(c)
    ensures var k := Step(c, Message(from, c.id, c.term, VoteResp(true)));
      && InOffice(k) && k.leader == Some(c.id) && k.transfer == None && MatchOf(k, c.id) == |c.log|
      && m in k.outbox && Offers(k, v, |c.log|, m)
  {
    m := CrownOffers(c.(votes := c.votes + {from}), v);
  }

  /** A request of `c` to `v` is answered with a grant. */
  ghost predicate Obtains(c: Node, v: Node) {
    exists m :: m in c.outbox && Asks(c, v.id, m) && Step(v.(outbox := {}), m).outbox == {Message(v.id, c.id, c.term, VoteResp(true))}
  }

  lemma ObtainsVote(n: Node, t: Timers, checkQuorum: bool, v: Node, c: Node)
    requires n.role != Leader && t.electionDue && n.id in n.voters && n.outbox == {} && |n.voters| > 1 && c == Tick(n, t, checkQuorum)
    requires v.id in n.voters && v.id != n.id && v.term <= n.term && NoOlder(n.log, v.log)
    ensures Obtains(c, v) && c.role == Candidate && c.votes == {n.id} && c.term == n.term + 1 && c.log == n.log
  {
    var m := Stands(n, t, checkQuorum, v.id);
    var w, r := Answers(v, c, m);
    assert r == Message(v.id, c.id, c.term, VoteResp(true));
  }

  ghost predicate Voters(vs: seq<Node>, froms: seq<NodeId>) { |froms| == |vs| && forall i: nat | i < |vs| :: froms[i] == vs[i].id }

  lemma VotersKnown(vs: seq<Node>, froms: seq<NodeId>)
    requires Voters(vs, froms) && Apart(vs)
    ensures Known(froms) == Ids(vs) && |Ids(vs)| == |vs|
  {
    IdsCount(vs);
    forall x | x in Ids(vs) ensures x in Known(froms) {
      var i: nat :| i < |vs| && vs[i].id == x;
      assert froms[i] == x;
    }
    forall x | x in Known(froms) ensures x in Ids(vs) {
      var i: nat :| i < |froms| && froms[i] == x;
      assert vs[i] in vs;
    }
  }

  lemma Tallied(c: Node, vs: seq<Node>, froms: seq<NodeId>)
    requires c.role == Candidate && c.votes == {c.id} && c.id in c.voters && |c.voters| > 1
    requires Voters(vs, froms) && Apart(vs) && |vs| + 1 >= Majority(c) && forall v | v in vs :: v.id in c.voters && v.id != c.id
    ensures var k := Collect(c, c.term, froms); k.role == Leader && k.term == c.term && k.log == c.log
  {
    VotersKnown(vs, froms);
    forall x | x in froms ensures x in c.voters { assert x in Known(froms); }
    Elected(c, froms);
    assert c.id !in Ids(vs);
  }

  /** A candidate that reaches a majority free to vote for it, none of them ahead of it, leads the next term. */
  lemma WinsElection(n: Node, t: Timers, checkQuorum: bool, vs: seq<Node>, froms: seq<NodeId>) returns (c: Node, k: Node)
    requires n.role != Leader && t.electionDue && n.id in n.voters && n.outbox == {} && |n.voters| > 1
    requires Voters(vs, froms) && Apart(vs) && |vs| + 1 >= Majority(n)
    requires forall v | v in vs :: v.id in n.voters && v.id != n.id && v.term <= n.term && NoOlder(n.log, v.log)
    ensures c == Tick(n, t, checkQuorum) && forall v | v in vs :: Obtains(c, v)
    ensures k == Collect(c, c.term, froms) && k.role == Leader && k.term == n.term + 1 && k.log == n.log
  {
    c := Tick(n, t, checkQuorum);
    var other := OtherVoter(n);
    var first := Stands(n, t, checkQuorum, other);
    forall v | v in vs ensures Obtains(c, v) { ObtainsVote(n, t, checkQuorum, v, c); }
    k := Collect(c, c.term, froms);
    Tallied(c, vs, froms);
  }

  lemma OtherVoter(n: Node) returns (v: NodeId)
    requires n.id in n.voters && |n.voters| > 1
    ensures v in n.voters && v != n.id
  {
    if n.voters - {n.id} == {} {
      SubsetSize(n.voters, {n.id});
      assert false;
    }
    v :| v in n.voters - {n.id};
  }

  // ---- terms --------------------------------------------------------------------------------------------

  /** Whoever hears of a later term follows in it, with no read left pending and no transfer. */
  lemma LaterTermDeposes(n: Node, m: Message)
    requires m.term > n.term && !m.body.TimeoutNow?
    ensures var k := Step(n, m);
      && k.role == Follower && k.term == m.term && k.transfer == None && k.pending == [] && k.ready == []
      && k.leader == if m.body.Append? then Some(m.from) else None
  {
  }

  /** A leader of an older term is told so, and nothing else happens. */
  lemma OlderLeaderTold(f: Node, m: Message)
    requires m.body.Append? && m.term < f.term && f.outbox == {}
    ensures Step(f, m) == f.(outbox := {Message(f.id, m.from, f.term, AppendResp(false, 0, m.body.round))})
  {
  }

  /** A lone voter leads as soon as it stands, and commits what it is given at once. */
  lemma LoneVoter(n: Node, t: Timers, checkQuorum: bool, data: Bytes)
    requires n.role != Leader && t.electionDue && n.voters == {n.id} && n.commit <= |n.log|
    ensures var l := Tick(n, t, checkQuorum); l.role == Leader && l.term == n.term + 1 && l.log == n.log && Propose(l, data).commit == |n.log| + 1
  {
    var l := Tick(n, t, checkQuorum);
    var a := AppendLocal(l, data);
    assert |{n.id}| == 1;
    assert Holders(a, |a.log|) == {n.id};
    HeldCommits(a);
  }

  /** A restart keeps the term, the vote and the log, and forgets the rest: the node is as new over what storage kept. */
  lemma RestartForgets(n: Node)
    ensures var k := Restart(n, false);
      && k.id == n.id && k.voters == n.voters && k.term == n.term && k.vote == n.vote && k.log == n.log
      && k.role == Follower && k.commit == 0 && k.applied == 0 && k.leader == None && k.round == 0 && k.outbox == {}
      && k.votes == {} && k.next == map[] && k.matched == map[] && k.recent == {} && k.acked == map[] && k.pending == [] && k.ready == []
  {
  }

  // ---- transfer -----------------------------------------------------------------------------------------

  /** Leadership is handed over at once to a peer that has everything. */
  lemma TransferAtOnce(l: Node, target: NodeId)
    requires InOffice(l) && target in l.voters && target != l.id && l.outbox == {} && target in l.matched && l.matched[target] >= |l.log|
    ensures TransferLeadership(l, target) == l.(outbox := {Message(l.id, target, l.term, TimeoutNow)}, transfer := None)
  {
  }

  /** Another is sent what it lacks first, and meanwhile nothing new is taken. */
  lemma TransferWaits(l: Node, target: NodeId) returns (m: Message)
    requires InOffice(l) && target in l.voters && target != l.id && l.outbox == {} && MatchOf(l, target) < |l.log|
    ensures TransferLeadership(l, target) == l.(outbox := {m}, transfer := Some(target)) && Offers(l, target, l.next[target] - 1, m)
    ensures forall d: Bytes :: Propose(TransferLeadership(l, target), d) == TransferLeadership(l, target)
  {
    m := AppendFor(l, target);
  }

  /** No one but another voter can be handed it, and only by the leader. */
  lemma TransferRefused(n: Node, target: NodeId)
    requires n.role != Leader || target !in n.voters || target == n.id
    ensures TransferLeadership(n, target) == n
  {
  }

  /** And handed over when it has. */
  lemma TransferEnds(l: Node, target: NodeId, r: Message)
    requires InOffice(l) && l.transfer == Some(target) && l.outbox == {} && r.from == target && r.term == l.term && r.to == l.id
    requires r.body.AppendResp? && r.body.success && r.body.matchIndex == |l.log|
    ensures Step(l, r).outbox == {Message(l.id, target, l.term, TimeoutNow)} && Step(l, r).transfer == None
  {
    var d := NoteMatch(NoteAnswer(l, target, r.body.echo), target, |l.log|);
    var b := MaybeAdvanceCommit(d);
    CommittedShape(d, b);
    TransferShape(d, b);
    ReadsShape(FireTimeoutNow(b, target));
  }

  lemma TransferShape(d: Node, b: Node)
    requires b == MaybeAdvanceCommit(d)
    ensures b.transfer == d.transfer
  {
    ReadsShape(d.(commit := CommitScan(d, |d.log|)));
  }

  /** The peer then stands in the next term at once. */
  lemma HandedOver(f: Node, m: Message)
    requires m.body.TimeoutNow? && m.term >= f.term && f.id in f.voters && |f.voters| > 1
    ensures Step(f, m).role == Candidate && Step(f, m).term == m.term + 1 && Step(f, m).vote == Some(f.id)
    ensures forall v | v in f.voters && v != f.id :: exists x :: x in Step(f, m).outbox && Asks(Step(f, m), v, x)
  {
    var a := AdoptTerm(f, m);
    var c := Campaign(a);
    assert |{f.id}| == 1;
    assert Step(f, m) == c.(outbox := c.outbox + Solicitations(c));
    forall v | v in f.voters && v != f.id ensures exists x :: x in Step(f, m).outbox && Asks(Step(f, m), v, x) {
      assert Message(f.id, v, c.term, RequestVote(|f.log|, LastTerm(f.log))) in Solicitations(c);
    }
  }

  /** A late handover, or one to a node without a vote, is ignored. */
  lemma LateHandover(f: Node, m: Message)
    requires m.body.TimeoutNow? && (m.term < f.term || (m.term == f.term && f.id !in f.voters))
    ensures Step(f, m) == f
  {
  }

  // ---- staying in touch -----------------------------------------------------------------------------------

  /** A leader that checks keeps its office over a quorum tick exactly when it heard from a majority since the last. */
  lemma QuorumChecked(l: Node, t: Timers, checkQuorum: bool)
    requires l.role == Leader && t.quorumDue
    ensures var k := Tick(l, t, checkQuorum);
      && k.recent == {} && k.term == l.term && k.log == l.log
      && (k.role == Leader <==> !checkQuorum || |set v | v in l.voters && (v == l.id || v in l.recent)| >= |l.voters| / 2 + 1)
      && (k.role != Leader ==> k.role == Follower && k.leader == None)
  {
    var a := if t.transferExpired then l.(transfer := None) else l;
    var b := if t.heartbeatDue then BroadcastAppend(a) else a;
    assert Heard(b) == set v | v in l.voters && (v == l.id || v in l.recent);
  }

  /** Any answer of the term is contact, and a transfer that takes too long is given up. */
  lemma HeardFrom(l: Node, r: Message)
    requires l.role == Leader && r.body.AppendResp? && r.term == l.term
    ensures Step(l, r).recent == l.recent + {r.from}
  {
    var a := NoteAnswer(l, r.from, r.body.echo);
    if r.body.success {
      var d := NoteMatch(a, r.from, r.body.matchIndex);
      ReadsShape(d.(commit := CommitScan(d, |d.log|)));
      var b := MaybeAdvanceCommit(d);
      ReadsShape(if b.transfer == Some(r.from) && MatchOf(b, r.from) >= |b.log| then FireTimeoutNow(b, r.from) else b);
    }
  }

  /** Answers that come late or out of order never take back what is known of a peer, and point past it. */
  lemma MatchNeverDrops(l: Node, r: Message)
    requires l.role == Leader && r.body.AppendResp? && r.term == l.term && r.body.success
    ensures var k := Step(l, r);
      && MatchOf(k, r.from) == RaftNode.Max(r.body.matchIndex, MatchOf(l, r.from)) && r.from in k.next && k.next[r.from] == MatchOf(k, r.from) + 1
      && forall v | v != r.from :: MatchOf(k, v) == MatchOf(l, v)
  {
    AcceptedShape(l, r.from, r, NoteMatch(NoteAnswer(l, r.from, r.body.echo), r.from, r.body.matchIndex), Step(l, r));
  }

  lemma TransferExpires(l: Node, checkQuorum: bool)
    requires l.role == Leader
    ensures Tick(l, Timers(true, false, false, false), checkQuorum) == l.(transfer := None)
  {
  }

  // ---- reads ------------------------------------------------------------------------------------------------

  /** Those whose answers confirm a round: the leader, and whoever echoed that round or a later one. */
  ghost function Echoers(l: Node, round: nat): set<NodeId> {
    set v | v in l.voters && (v == l.id || (v in l.acked && l.acked[v] >= round))
  }

  lemma {:induction false} ConfirmsPrefix(n: Node, pending: seq<Pending>)
    ensures var k := ConfirmCount(n, pending);
      && (forall i: nat | i < k :: |Echoers(n, pending[i].round)| >= |n.voters| / 2 + 1)
      && (k < |pending| ==> |Echoers(n, pending[k].round)| < |n.voters| / 2 + 1)
  {
    if pending != [] {
      assert Ackers(n, pending[0].round) == Echoers(n, pending[0].round);
      if |Ackers(n, pending[0].round)| >= Majority(n) {
        ConfirmsPrefix(n, pending[1..]);
        var k := ConfirmCount(n, pending);
        forall i: nat | i < k ensures |Echoers(n, pending[i].round)| >= |n.voters| / 2 + 1 {
          if i > 0 { assert pending[1..][i - 1] == pending[i]; }
        }
      }
    }
  }

  /** The first `k` of `l`'s waiting reads become confirmed at its commit index, each under its own tag and round. */
  ghost predicate Confirms(l: Node, k: nat, m: Node) {
    && k <= |l.pending| && m.pending == l.pending[k..] && |m.ready| == |l.ready| + k && m.ready[..|l.ready|] == l.ready
    && forall i: nat | i < k :: m.ready[|l.ready| + i] == Confirmed(l.pending[i].ctx, l.term, l.pending[i].round, l.commit)
  }

  /** Once it has committed in its term, a leader confirms exactly the reads, oldest first, up to the first whose round no
      majority has echoed. */
  lemma ReadsConfirmed(l: Node) returns (k: nat)
    requires l.role == Leader && 0 < l.commit <= |l.log| && l.log[l.commit - 1].term == l.term
    ensures Confirms(l, k, AdvanceReads(l))
    ensures forall i: nat | i < k :: |Echoers(l, l.pending[i].round)| >= |l.voters| / 2 + 1
    ensures k < |l.pending| ==> |Echoers(l, l.pending[k].round)| < |l.voters| / 2 + 1
  {
    k := ConfirmCount(l, l.pending);
    ConfirmsPrefix(l, l.pending);
    MovedReads(l, k);
  }

  lemma MovedReads(l: Node, k: nat)
    requires l.role == Leader && TermAt(l.log, l.commit) == Some(l.term) && k == ConfirmCount(l, l.pending)
    ensures Confirms(l, k, AdvanceReads(l))
  {
    if l.pending == [] {
      NoneMoved(l);
    } else {
      SomeMoved(l, k, AdvanceReads(l));
    }
  }

  lemma NoneMoved(l: Node)
    requires l.pending == []
    ensures Confirms(l, 0, l)
  {
  }

  lemma SomeMoved(l: Node, k: nat, m: Node)
    requires k <= |l.pending| && m.pending == l.pending[k..] && m.ready == l.ready + ConfirmAll(l.pending[..k], l.term, l.commit)
    ensures Confirms(l, k, m)
  {
  }

  /** Registering a read asks every peer under the new round. */
  lemma ReadAsks(l: Node, ctx: nat, v: NodeId) returns (m: Message)
    requires InOffice(l) && v in l.voters && v != l.id
    ensures var k := ReadIndex(l, ctx); m in k.outbox && Offers(k, v, l.next[v] - 1, m) && k.round == l.round + 1
  {
    var a := Register(l, ctx);
    assert InOffice(a);
    m := BroadcastOffers(a, v);
    ReadsShape(BroadcastAppend(a));
  }

  /** An answer counts towards the round it echoes. */
  lemma EchoCounts(l: Node, r: Message)
    requires l.role == Leader && r.body.AppendResp? && r.term == l.term
    ensures r.from in Step(l, r).acked && Step(l, r).acked[r.from] >= r.body.echo
    ensures forall v | v in l.acked :: v in Step(l, r).acked && Step(l, r).acked[v] >= l.acked[v]
  {
    var a := NoteAnswer(l, r.from, r.body.echo);
    if r.body.success {
      var d := NoteMatch(a, r.from, r.body.matchIndex);
      ReadsShape(d.(commit := CommitScan(d, |d.log|)));
      var b := MaybeAdvanceCommit(d);
      ReadsShape(if b.transfer == Some(r.from) && MatchOf(b, r.from) >= |b.log| then FireTimeoutNow(b, r.from) else b);
    }
  }

  // ---- applying ---------------------------------------------------------------------------------------------

  lemma TakenAll(n: Node, emitted: Log, a: Action)
    requires |emitted| == n.applied <= n.commit <= |n.log| && Agree(emitted, n.log, n.applied) && a.DoTakeCommitted?
    ensures EmittedAfter(n, emitted, a) == n.log[..n.commit] && TakeCommitted(n) == n.(applied := n.commit)
  {
  }

  lemma Committed(V: set<NodeId>, h: Hist, s: Sys, p: NodeId)
    requires Inv(V, s, h) && p in V
    ensures var n := s.nodes[p]; |s.emitted[p]| == n.applied <= n.commit <= |n.log| && Agree(s.emitted[p], n.log, n.applied)
  {
    assert PeerOk(V, h, s, p);
  }

  /** Taking what is committed hands over every entry past the applied index up to the commit index, and none is left. */
  lemma TakesAll(V: set<NodeId>, keepRound: bool, acts: seq<Action>, st: seq<Sys>, i: nat, p: NodeId)
    requires Run(V, keepRound, acts, st) && i < |acts| && p in V && acts[i] == DoTakeCommitted(p)
    ensures p in st[i + 1].nodes && p in st[i + 1].emitted
    ensures var n := st[i + 1].nodes[p]; n.commit <= |n.log| && st[i + 1].emitted[p] == n.log[..n.commit] && n.applied == n.commit
  {
    var hs := Chronicles(V, keepRound, acts, st);
    assert Moves(keepRound, acts, st, i);
    ChronicleAt(V, acts, st, hs, i);
    Committed(V, hs[i], st[i], p);
    TakenAll(st[i].nodes[p], st[i].emitted[p], acts[i]);
  }
}
