/** The code's restart resets the round counter, and then a stale acknowledgement can confirm a read
    that misses a committed write. One concrete run of a three-voter group:

    node 1 leads term 1 and sends an append at round 1, then restarts and leads term 2 from round 0;
    node 2 answers the delayed append in term 2, echoing round 1; nodes 2 and 3 elect node 2 for
    term 3 and commit index 2; node 1, still leading term 2, registers a read at round 1 and takes
    the old echo as its confirmation, at index 1. */
module RaftStaleRead {
  import opened Basics
  import opened RaftNode
  import opened RaftHistory
  import opened RaftSystem
  import opened RaftReads

  const V: set<NodeId> := {1, 2, 3}
  const Due: Timers := Timers(false, false, false, true)
  const E: Entry := Entry(2, 1, [])
  const F: Entry := Entry(3, 2, [])

  // the messages that matter
  const Rv1: Message := Message(1, 2, 1, RequestVote(0, 0))
  const Vr1: Message := Message(2, 1, 1, VoteResp(true))
  const Old: Message := Message(1, 2, 1, Append(0, 0, [], 0, 1))
  const Rv2: Message := Message(1, 2, 2, RequestVote(0, 0))
  const Vr2: Message := Message(2, 1, 2, VoteResp(true))
  const Echo: Message := Message(2, 1, 2, AppendResp(false, 0, 1))
  const Ae2: Message := Message(1, 2, 2, Append(0, 0, [E], 0, 0))
  const Ae3: Message := Message(1, 3, 2, Append(0, 0, [E], 0, 0))
  const Ok2: Message := Message(2, 1, 2, AppendResp(true, 1, 0))
  const Rv3: Message := Message(2, 3, 3, RequestVote(1, 2))
  const Vr3: Message := Message(3, 2, 3, VoteResp(true))
  const Af3: Message := Message(2, 3, 3, Append(1, 2, [F], 0, 0))
  const Ok3: Message := Message(3, 2, 3, AppendResp(true, 2, 0))

  ghost predicate Basic(n: Node, id: NodeId, role: Role, term: Term, log: Log, commit: nat, round: nat) {
    && n.id == id && n.voters == V && n.role == role && n.term == term && n.log == log && n.commit == commit
    && n.round == round && n.outbox == {}
  }

  ghost predicate Running(n: Node, id: NodeId, term: Term, log: Log) {
    Basic(n, id, Candidate, term, log, 0, 0) && n.votes == {id} && n.vote == Some(id)
  }

  /** A leader's progress: `mine` for itself, `theirs` for node `peer`, nothing for the third voter. */
  ghost predicate Leading(n: Node, id: NodeId, term: Term, log: Log, commit: nat, round: nat, peer: NodeId, theirs: nat) {
    && Basic(n, id, Leader, term, log, commit, round)
    && n.transfer == None && n.ready == []
    && MatchOf(n, id) == |log| && MatchOf(n, peer) == theirs
    && (forall v | v in V && v != id && v != peer :: MatchOf(n, v) == 0)
  }

  ghost predicate Sends(n: Node, to: NodeId, next: nat) { to in n.next && n.next[to] == next }

  ghost predicate NotAcked(n: Node, v: NodeId) { v in n.acked ==> n.acked[v] == 0 }

  // ---- the states of the run, as far as they matter --------------------------------

  const Length: nat := 21

  function Act(k: nat): Action {
    if k == 0 || k == 5 then DoTick(1, Due, true)
    else if k == 1 then Deliver(Rv1)
    else if k == 2 then Deliver(Vr1)
    else if k == 3 then DoRead(1, 0)
    else if k == 4 then Crash(1)
    else if k == 6 then Deliver(Rv2)
    else if k == 7 then Deliver(Vr2)
    else if k == 8 then Deliver(Old)
    else if k == 9 then DoPropose(1, [])
    else if k == 10 then Deliver(Ae2)
    else if k == 11 then Deliver(Ae3)
    else if k == 12 then Deliver(Ok2)
    else if k == 13 then DoTick(2, Due, true)
    else if k == 14 then Deliver(Rv3)
    else if k == 15 then Deliver(Vr3)
    else if k == 16 then DoPropose(2, [])
    else if k == 17 then Deliver(Af3)
    else if k == 18 then Deliver(Ok3)
    else if k == 19 then DoRead(1, 9)
    else Deliver(Echo)
  }

  ghost predicate One(k: nat, n: Node) {
    if k == 0 then Basic(n, 1, Follower, 0, [], 0, 0)
    else if k <= 2 then Running(n, 1, 1, [])
    else if k == 3 then Leading(n, 1, 1, [], 0, 0, 2, 0) && Sends(n, 2, 1)
    else if k == 4 then n.id == 1 && n.voters == V && n.term == 1 && n.log == []
    else if k == 5 then Basic(n, 1, Follower, 1, [], 0, 0)
    else if k <= 7 then Running(n, 1, 2, [])
    else if k <= 9 then Leading(n, 1, 2, [], 0, 0, 2, 0) && Sends(n, 2, 1) && Sends(n, 3, 1) && n.pending == [] && n.acked == map[]
    else if k <= 12 then Leading(n, 1, 2, [E], 0, 0, 2, 0) && n.pending == [] && n.acked == map[]
    else if k <= 19 then Leading(n, 1, 2, [E], 1, 0, 2, 1) && n.pending == [] && NotAcked(n, 2) && NotAcked(n, 3)
    else if k == 20 then Leading(n, 1, 2, [E], 1, 1, 2, 1) && n.pending == [Pending(9, 1)] && NotAcked(n, 3)
    else Confirmed(9, 2, 1, 1) in n.ready
  }

  ghost predicate Two(k: nat, n: Node) {
    if k <= 1 then Basic(n, 2, Follower, 0, [], 0, 0) && n.vote == None
    else if k <= 6 then Basic(n, 2, Follower, 1, [], 0, 0)
    else if k <= 10 then Basic(n, 2, Follower, 2, [], 0, 0)
    else if k <= 13 then Basic(n, 2, Follower, 2, [E], 0, 0)
    else if k <= 15 then Running(n, 2, 3, [E])
    else if k == 16 then Leading(n, 2, 3, [E], 0, 0, 3, 0) && Sends(n, 3, 2) && n.pending == []
    else if k <= 18 then Leading(n, 2, 3, [E, F], 0, 0, 3, 0) && n.pending == []
    else Basic(n, 2, Leader, 3, [E, F], 2, 0)
  }

  ghost predicate Three(k: nat, n: Node) {
    if k <= 11 then Basic(n, 3, Follower, 0, [], 0, 0)
    else if k <= 14 then Basic(n, 3, Follower, 2, [E], 0, 0)
    else if k <= 17 then Basic(n, 3, Follower, 3, [E], 0, 0)
    else true
  }

  ghost predicate Wire(k: nat, net: set<Message>) {
    && (k == 1 ==> Rv1 in net) && (k == 2 ==> Vr1 in net) && (4 <= k <= 8 ==> Old in net)
    && (k == 6 ==> Rv2 in net) && (k == 7 ==> Vr2 in net) && (k >= 9 ==> Echo in net)
    && (k == 10 ==> Ae2 in net) && (10 <= k <= 11 ==> Ae3 in net) && (11 <= k <= 12 ==> Ok2 in net)
    && (k == 14 ==> Rv3 in net) && (k == 15 ==> Vr3 in net) && (k == 17 ==> Af3 in net) && (k == 18 ==> Ok3 in net)
  }

  ghost predicate Now(k: nat, s: Sys) {
    && s.nodes.Keys == V && s.emitted.Keys == V
    && One(k, s.nodes[1]) && Two(k, s.nodes[2]) && Three(k, s.nodes[3]) && Wire(k, s.net)
  }

  // ---- what each action does to its node --------------------------------------------

  lemma Sizes()
    ensures |V| == 3 && |{1, 2}| == 2 && |{2, 3}| == 2
  {
  }

  lemma Campaigns(n: Node, id: NodeId, term: Term, log: Log, to: NodeId)
    requires Basic(n, id, Follower, term, log, 0, 0) && id in V && to in V && to != id
    ensures var m := Tick(n, Due, true);
      && Running(m.(outbox := {}), id, term + 1, log)
      && Message(id, to, term + 1, RequestVote(|log|, LastTerm(log))) in m.outbox
  {
    Sizes();
    var c := Campaign(n);
    assert Message(id, to, term + 1, RequestVote(|log|, LastTerm(log))) in Solicitations(c);
  }

  lemma Wins(n: Node, id: NodeId, term: Term, log: Log, from: NodeId)
    requires Running(n, id, term, log) && id in V && from in V && from != id
    ensures var m := Step(n, Message(from, id, term, VoteResp(true))).(outbox := {});
      && Leading(m, id, term, log, 0, 0, from, 0) && m.pending == [] && m.acked == map[]
      && (forall v | v in V :: Sends(m, v, |log| + 1))
  {
    Sizes();
    assert |{id, from}| == 2 && n.votes + {from} == {id, from};
  }

  lemma NoCommit(n: Node, id: NodeId)
    requires n.voters == V && n.commit == 0 && forall v | v in V && v != id :: MatchOf(n, v) == 0
    ensures CommitScan(n, |n.log|) == 0
  {
    Sizes();
    NoCommitBelow(n, id, |n.log|);
  }

  lemma {:induction false} NoCommitBelow(n: Node, id: NodeId, top: nat)
    requires n.voters == V && n.commit == 0 && forall v | v in V && v != id :: MatchOf(n, v) == 0
    ensures CommitScan(n, top) == 0
    decreases top
  {
    if top > 0 {
      Sizes();
      SubsetSize(Holders(n, top), {id});
      NoCommitBelow(n, id, top - 1);
    }
  }

  lemma Proposes(n: Node, id: NodeId, term: Term, log: Log, peer: NodeId, to: NodeId)
    requires Leading(n, id, term, log, 0, 0, peer, 0) && n.pending == [] && id in V && peer in V && peer != id
    requires to in V && to != id && Sends(n, to, |log| + 1)
    ensures var m := Propose(n, []); var e := Entry(term, |log| + 1, []);
      && Leading(m.(outbox := {}), id, term, log + [e], 0, 0, peer, 0) && m.pending == [] && m.acked == n.acked
      && Message(id, to, term, Append(|log|, LastTerm(log), [e], 0, 0)) in m.outbox
  {
    var e := Entry(term, |log| + 1, []);
    var a := AppendLocal(n, []);
    forall v | v in V && v != id ensures MatchOf(a, v) == 0 { assert MatchOf(n, v) == 0; }
    NoCommit(a, id);
    assert NextFor(a, to) == |log| + 1;
    assert AppendFor(a, to) == Message(id, to, term, Append(|log|, LastTerm(log), [e], 0, 0)) by {
      assert a.log[|log|..] == [e];
    }
    assert AppendFor(a, to) in AppendsOf(a);
  }

  /** A first acknowledgement makes two of three, which commits the newest entry. */
  lemma Commits(n: Node, id: NodeId, term: Term, log: Log, from: NodeId)
    requires Leading(n, id, term, log, 0, 0, from, 0) && n.pending == [] && id in V && from in V && from != id
    requires log != [] && LastTerm(log) == term
    ensures var m := Step(n, Message(from, id, term, AppendResp(true, |log|, 0))).(outbox := {});
      && Leading(m, id, term, log, |log|, 0, from, |log|) && m.pending == []
      && m.acked == n.acked[from := if from in n.acked then n.acked[from] else 0]
  {
    var b := NoteMatch(NoteAnswer(n, from, 0), from, |log|);
    assert Holders(b, |log|) == {id, from};
    Sizes();
    assert |{id, from}| == 2;
    assert CommitScan(b, |log|) == |log|;
  }

  lemma Reads(n: Node)
    requires Leading(n, 1, 2, [E], 1, 0, 2, 1) && n.pending == [] && NotAcked(n, 2) && NotAcked(n, 3)
    ensures var m := ReadIndex(n, 9).(outbox := {});
      Leading(m, 1, 2, [E], 1, 1, 2, 1) && m.pending == [Pending(9, 1)] && NotAcked(m, 3)
  {
    var a := BroadcastAppend(Register(n, 9));
    assert a.pending == [Pending(9, 1)];
    assert Ackers(a, 1) == {1};
    Sizes();
    assert ConfirmCount(a, a.pending) == 0;
  }

  lemma FirstRead(n: Node)
    requires Leading(n, 1, 1, [], 0, 0, 2, 0) && Sends(n, 2, 1)
    ensures var m := ReadIndex(n, 0); m.id == 1 && m.voters == V && m.term == 1 && m.log == [] && Old in m.outbox
  {
    var a := Register(n, 0);
    assert AppendFor(a, 2) == Old && 2 in a.voters;
    assert Old in AppendsOf(a);
  }

  lemma StaleQuorum(n: Node, a: Node)
    requires Leading(n, 1, 2, [E], 1, 1, 2, 1) && n.pending == [Pending(9, 1)] && NotAcked(n, 3)
    requires a == SendAppend(BackOff(NoteAnswer(n, 2, 1), 2), 2)
    ensures |Ackers(a, 1)| >= Majority(a) && a.pending == [Pending(9, 1)]
    ensures a.role == Leader && a.term == 2 && a.commit == 1 && TermAt(a.log, 1) == Some(2) && a.ready == []
  {
    assert Ackers(a, 1) == {1, 2};
    Sizes();
  }

  lemma ConfirmsStale(n: Node)
    requires Leading(n, 1, 2, [E], 1, 1, 2, 1) && n.pending == [Pending(9, 1)] && NotAcked(n, 3)
    ensures Confirmed(9, 2, 1, 1) in Step(n, Echo).ready
  {
    var a := SendAppend(BackOff(NoteAnswer(n, 2, 1), 2), 2);
    assert Step(n, Echo) == AdvanceReads(a);
    StaleQuorum(n, a);
    OneConfirmed(a);
  }

  lemma OneConfirmed(n: Node)
    requires n.role == Leader && n.term == 2 && n.commit == 1 && TermAt(n.log, 1) == Some(2) && n.ready == []
    requires |Ackers(n, 1)| >= Majority(n) && n.pending == [Pending(9, 1)]
    ensures Confirmed(9, 2, 1, 1) in AdvanceReads(n).ready
  {
    assert ConfirmCount(n, n.pending[1..]) == 0;
    assert ConfirmCount(n, n.pending) == 1;
    assert AdvanceReads(n).ready[0] == Confirmed(9, 2, 1, 1);
  }

  // ---- the run, action by action ------------------------------------------------------

  ghost predicate Next(k: nat, s: Sys) { Enabled(s, Act(k)) && Now(k + 1, Do(s, Act(k), false)) }

  /** The actor's new state, what it sent, and the others as they were. */
  ghost predicate Fits(k: nat, s: Sys, p: NodeId, m: Node)
    requires s.nodes.Keys == V
  {
    && Wire(k, s.net + m.outbox)
    && One(k, if p == 1 then m.(outbox := {}) else s.nodes[1])
    && Two(k, if p == 2 then m.(outbox := {}) else s.nodes[2])
    && Three(k, if p == 3 then m.(outbox := {}) else s.nodes[3])
  }

  lemma NodesMoved(k: nat, s: Sys, p: NodeId, m: Node, z: Sys)
    requires s.nodes.Keys == V && s.emitted.Keys == V && p in V && Fits(k, s, p, m)
    requires z.nodes == s.nodes[p := m.(outbox := {})] && z.net == s.net + m.outbox && z.emitted.Keys == V
    ensures Now(k, z)
  {
  }

  lemma DoMoves(s: Sys, a: Action, p: NodeId, m: Node)
    requires s.nodes.Keys == V && s.emitted.Keys == V && p in V && Actor(a) == p && !a.CrashIn? && (a.Deliver? ==> a.m in s.net)
    requires m == NodeAfter(s.nodes[p], a, false)
    ensures Enabled(s, a)
    ensures var z := Do(s, a, false);
      z.nodes == s.nodes[p := m.(outbox := {})] && z.net == s.net + m.outbox && z.emitted.Keys == V
  {
  }

  lemma MovedBy(k: nat, s: Sys, a: Action, p: NodeId, m: Node)
    requires s.nodes.Keys == V && s.emitted.Keys == V && p in V && Actor(a) == p && !a.CrashIn? && (a.Deliver? ==> a.m in s.net)
    requires m == NodeAfter(s.nodes[p], a, false) && Fits(k + 1, s, p, m)
    ensures Enabled(s, a) && Now(k + 1, Do(s, a, false))
  {
    DoMoves(s, a, p, m);
    NodesMoved(k + 1, s, p, m, Do(s, a, false));
  }

  lemma Moved(k: nat, s: Sys, p: NodeId, m: Node)
    requires k < Length && Now(k, s) && p in V && Actor(Act(k)) == p && !Act(k).CrashIn? && m == NodeAfter(s.nodes[p], Act(k), false)
    requires (Act(k).Deliver? ==> Act(k).m in s.net) && Fits(k + 1, s, p, m)
    ensures Next(k, s)
  {
    MovedBy(k, s, Act(k), p, m);
  }

  lemma Next0(s: Sys) requires Now(0, s) ensures Next(0, s) {
    Campaigns(s.nodes[1], 1, 0, [], 2);
    Moved(0, s, 1, Tick(s.nodes[1], Due, true));
  }
  lemma Next1(s: Sys) requires Now(1, s) ensures Next(1, s) { Moved(1, s, 2, Step(s.nodes[2], Rv1)); }
  lemma Next2(s: Sys) requires Now(2, s) ensures Next(2, s) {
    Wins(s.nodes[1], 1, 1, [], 2);
    Moved(2, s, 1, Step(s.nodes[1], Vr1));
  }
  lemma Next3(s: Sys) requires Now(3, s) ensures Next(3, s) {
    FirstRead(s.nodes[1]);
    Moved(3, s, 1, ReadIndex(s.nodes[1], 0));
  }
  lemma Next4(s: Sys) requires Now(4, s) ensures Next(4, s) { Moved(4, s, 1, Restart(s.nodes[1], false)); }
  lemma Next5(s: Sys) requires Now(5, s) ensures Next(5, s) {
    Campaigns(s.nodes[1], 1, 1, [], 2);
    Moved(5, s, 1, Tick(s.nodes[1], Due, true));
  }
  lemma Next6(s: Sys) requires Now(6, s) ensures Next(6, s) { Moved(6, s, 2, Step(s.nodes[2], Rv2)); }
  lemma Next7(s: Sys) requires Now(7, s) ensures Next(7, s) {
    Wins(s.nodes[1], 1, 2, [], 2);
    Moved(7, s, 1, Step(s.nodes[1], Vr2));
  }
  lemma Next8(s: Sys) requires Now(8, s) ensures Next(8, s) { Moved(8, s, 2, Step(s.nodes[2], Old)); }
  lemma Next9(s: Sys) requires Now(9, s) ensures Next(9, s) {
    Proposes(s.nodes[1], 1, 2, [], 2, 2);
    Proposes(s.nodes[1], 1, 2, [], 2, 3);
    assert [] + [E] == [E];
    Moved(9, s, 1, Propose(s.nodes[1], []));
  }
  lemma Next10(s: Sys) requires Now(10, s) ensures Next(10, s) { Moved(10, s, 2, Step(s.nodes[2], Ae2)); }
  lemma Next11(s: Sys) requires Now(11, s) ensures Next(11, s) { Moved(11, s, 3, Step(s.nodes[3], Ae3)); }
  lemma Next12(s: Sys) requires Now(12, s) ensures Next(12, s) {
    Commits(s.nodes[1], 1, 2, [E], 2);
    Moved(12, s, 1, Step(s.nodes[1], Ok2));
  }
  lemma Next13(s: Sys) requires Now(13, s) ensures Next(13, s) {
    Campaigns(s.nodes[2], 2, 2, [E], 3);
    Moved(13, s, 2, Tick(s.nodes[2], Due, true));
  }
  lemma Next14(s: Sys) requires Now(14, s) ensures Next(14, s) { Moved(14, s, 3, Step(s.nodes[3], Rv3)); }
  lemma Next15(s: Sys) requires Now(15, s) ensures Next(15, s) {
    Wins(s.nodes[2], 2, 3, [E], 3);
    Moved(15, s, 2, Step(s.nodes[2], Vr3));
  }
  lemma Next16(s: Sys) requires Now(16, s) ensures Next(16, s) {
    Proposes(s.nodes[2], 2, 3, [E], 3, 3);
    assert [E] + [F] == [E, F];
    Moved(16, s, 2, Propose(s.nodes[2], []));
  }
  lemma Next17(s: Sys) requires Now(17, s) ensures Next(17, s) { Moved(17, s, 3, Step(s.nodes[3], Af3)); }
  lemma Next18(s: Sys) requires Now(18, s) ensures Next(18, s) {
    Commits(s.nodes[2], 2, 3, [E, F], 3);
    Moved(18, s, 2, Step(s.nodes[2], Ok3));
  }
  lemma Next19(s: Sys) requires Now(19, s) ensures Next(19, s) {
    Reads(s.nodes[1]);
    Moved(19, s, 1, ReadIndex(s.nodes[1], 9));
  }
  lemma Next20(s: Sys) requires Now(20, s) ensures Next(20, s) {
    ConfirmsStale(s.nodes[1]);
    Moved(20, s, 1, Step(s.nodes[1], Echo));
  }

  lemma FirstNext(k: nat, s: Sys)
    requires 0 <= k < 7 && Now(k, s)
    ensures Next(k, s)
  {
    if k == 0 { Next0(s); } else if k == 1 { Next1(s); } else if k == 2 { Next2(s); }
    else if k == 3 { Next3(s); } else if k == 4 { Next4(s); } else if k == 5 { Next5(s); } else { Next6(s); }
  }

  lemma MiddleNext(k: nat, s: Sys)
    requires 7 <= k < 14 && Now(k, s)
    ensures Next(k, s)
  {
    if k == 7 { Next7(s); } else if k == 8 { Next8(s); } else if k == 9 { Next9(s); }
    else if k == 10 { Next10(s); } else if k == 11 { Next11(s); } else if k == 12 { Next12(s); } else { Next13(s); }
  }

  lemma LastNext(k: nat, s: Sys)
    requires 14 <= k < 21 && Now(k, s)
    ensures Next(k, s)
  {
    if k == 14 { Next14(s); } else if k == 15 { Next15(s); } else if k == 16 { Next16(s); }
    else if k == 17 { Next17(s); } else if k == 18 { Next18(s); } else if k == 19 { Next19(s); } else { Next20(s); }
  }

  lemma EveryNext(k: nat, s: Sys)
    requires k < Length && Now(k, s)
    ensures Next(k, s)
  {
    if k < 7 { FirstNext(k, s); } else if k < 14 { MiddleNext(k, s); } else { LastNext(k, s); }
  }

  lemma EveryStep()
    ensures forall i: nat, s: Sys {:trigger HandsOn(false, Act, Now, i, s)} | i < Length ::
      HandsOn(false, Act, Now, i, s)
  {
    forall i: nat, s: Sys | i < Length ensures HandsOn(false, Act, Now, i, s) {
      if Now(i, s) { EveryNext(i, s); }
    }
  }

  /** Restarting from round 0, a confirmed read misses an index committed before it was registered. */
  lemma StaleRead() returns (acts: seq<Action>, st: seq<Sys>)
    ensures Answered(V, false, acts, st, 19, 21, Confirmed(9, 2, 1, 1)) && Restarted(acts, 19)
    ensures !Linearizable(V, st, 19, Confirmed(9, 2, 1, 1))
  {
    EveryStep();
    acts, st := PlanRuns(V, false, Act, Now, Length);
    assert Now(19, st[19]) && Now(21, st[21]);
    assert acts[19] == Act(19) && acts[4] == Act(4);
    assert RestartsAt(acts, 19, 4);
    assert 2 in st[19].nodes && st[19].nodes[2].commit == 2;
  }

  /** The code as it is: of the reads registered by nodes that did, or did not, restart before. */
  ghost predicate ReadsLinearizableAfter(restarted: bool) {
    forall V: set<NodeId>, acts, st, a: nat, b: nat, c {:trigger Answered(V, false, acts, st, a, b, c)} |
      Answered(V, false, acts, st, a, b, c) && Restarted(acts, a) == restarted :: Linearizable(V, st, a, c)
  }

  /** Reads are linearizable exactly on nodes that have not restarted. */
  lemma LinearizableIffNotRestarted(restarted: bool)
    ensures ReadsLinearizableAfter(restarted) <==> !restarted
  {
    if restarted {
      var acts, st := StaleRead();
      assert Answered(V, false, acts, st, 19, 21, Confirmed(9, 2, 1, 1));
    } else {
      forall V: set<NodeId>, acts, st, a: nat, b: nat, c |
        Answered(V, false, acts, st, a, b, c) && Restarted(acts, a) == restarted
        ensures Linearizable(V, st, a, c)
      {
        UnbrokenReadLinearizable(V, false, acts, st, a, b, c);
      }
    }
  }

  /** Every run answers only linearizable reads. */
  ghost predicate ReadsAlwaysLinearizable(keepRound: bool) {
    forall V: set<NodeId>, acts, st, a: nat, b: nat, c {:trigger Answered(V, keepRound, acts, st, a, b, c)} |
      Answered(V, keepRound, acts, st, a, b, c) :: Linearizable(V, st, a, c)
  }

  /** ReadIndex is linearizable in every run exactly when a restart keeps the round counter. */
  lemma LinearizableIffRoundsKept(keepRound: bool)
    ensures ReadsAlwaysLinearizable(keepRound) <==> keepRound
  {
    if keepRound {
      forall V: set<NodeId>, acts, st, a: nat, b: nat, c | Answered(V, keepRound, acts, st, a, b, c)
        ensures Linearizable(V, st, a, c)
      {
        KeptRoundsLinearizable(V, acts, st, a, b, c);
      }
    } else {
      var acts, st := StaleRead();
      assert Answered(V, keepRound, acts, st, 19, 21, Confirmed(9, 2, 1, 1));
    }
  }
}
