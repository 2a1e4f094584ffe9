/** Linearizable reads over whole runs: when a confirmed ReadIndex covers everything committed before
    it was registered, and what a restart has to keep for that to hold always. */
module RaftReads {
  import opened Basics
  import opened RaftNode
  import opened RaftHistory
  import opened RaftOps
  import opened RaftSystem

  /** A read of leader `p` registered by action `a` and found confirmed as `c` in state `b`. */
  ghost predicate Answered(V: set<NodeId>, keepRound: bool, acts: seq<Action>, st: seq<Sys>, a: nat, b: nat, c: Confirmed) {
    && Run(V, keepRound, acts, st) && a < |acts| && b < |st| && a < b
    && acts[a].DoRead? && acts[a].p in st[a].nodes && acts[a].p in st[b].nodes && acts[a].p in V
    && var n := st[a].nodes[acts[a].p];
    && n.role == Leader && c in st[b].nodes[acts[a].p].ready && c.term == n.term && c.round == n.round + 1
  }

  /** No node had committed past `c.index` in any state up to the registration. */
  ghost predicate Linearizable(V: set<NodeId>, st: seq<Sys>, a: nat, c: Confirmed)
    requires a < |st|
  {
    forall k: nat, q | k <= a && q in V && q in st[k].nodes :: st[k].nodes[q].commit <= c.index
  }

  /** The read is linearizable whenever the round it uses is new: no append this node ever sent, in
      this incarnation or an earlier one, carries it. */
  lemma ReadIndexLinearizable(V: set<NodeId>, keepRound: bool, acts: seq<Action>, st: seq<Sys>, a: nat, b: nat, c: Confirmed)
    requires Answered(V, keepRound, acts, st, a, b, c)
    requires RoundIsNew(st[a].net, st[a].nodes[acts[a].p])
    ensures Linearizable(V, st, a, c)
  {
    var hs := Chronicles(V, keepRound, acts, st);
    AnswerCovers(V, acts, st, hs, a, b, acts[a].p, st[a].nodes[acts[a].p], c);
    forall k: nat, q | k <= a && q in V && q in st[k].nodes ensures st[k].nodes[q].commit <= c.index {
      CommitKnown(V, acts, st, hs, k, a, q, c.index);
    }
  }

  /** The answer is at or past every commit on record when the read was registered. */
  lemma AnswerCovers(V: set<NodeId>, acts: seq<Action>, st: seq<Sys>, hs: seq<Hist>, a: nat, b: nat, p: NodeId, n: Node, c: Confirmed)
    requires Chronicle(V, acts, st, hs) && a < |acts| && a < b < |st| && acts[a].DoRead? && acts[a].p == p && p in V
    requires p in st[a].nodes && n == st[a].nodes[p] && n.role == Leader && RoundIsNew(st[a].net, n)
    requires p in st[b].nodes && c in st[b].nodes[p].ready && c.term == n.term && c.round == n.round + 1
    ensures Covers(c.index, hs[a].past.commits.Keys)
  {
    ReadRecorded(V, acts, st, hs, a, b, p, n);
    ChronicleAt(V, acts, st, hs, b);
    ReadyCovers(V, st[b], hs[b], p, c);
  }

  lemma ReadRecorded(V: set<NodeId>, acts: seq<Action>, st: seq<Sys>, hs: seq<Hist>, a: nat, b: nat, p: NodeId, n: Node)
    requires Chronicle(V, acts, st, hs) && a < |acts| && a < b < |st| && acts[a].DoRead? && acts[a].p == p && p in V
    requires p in st[a].nodes && n == st[a].nodes[p] && n.role == Leader && RoundIsNew(st[a].net, n)
    ensures IsRecorded(hs[b], (p, n.term, n.round + 1), hs[a].past.commits.Keys)
  {
    RecordedAtOnce(V, acts, st, hs, a, p, n);
    GrowsOver(V, acts, st, hs, a + 1, b);
    StaysRecorded(hs[a + 1], hs[b], (p, n.term, n.round + 1), hs[a].past.commits.Keys);
  }

  lemma RecordedAtOnce(V: set<NodeId>, acts: seq<Action>, st: seq<Sys>, hs: seq<Hist>, a: nat, p: NodeId, n: Node)
    requires Chronicle(V, acts, st, hs) && a < |acts| && acts[a].DoRead? && acts[a].p == p && p in V
    requires p in st[a].nodes && n == st[a].nodes[p] && n.role == Leader && RoundIsNew(st[a].net, n)
    ensures IsRecorded(hs[a + 1], (p, n.term, n.round + 1), hs[a].past.commits.Keys)
  {
    ChronicleAt(V, acts, st, hs, a);
    NowRecorded(V, st[a], acts[a], p, n, hs[a], hs[a + 1]);
  }

  lemma StaysRecorded(h: Hist, g: Hist, key: (NodeId, Term, nat), before: set<(Term, nat)>)
    requires IsRecorded(h, key, before) && Grows(h, g)
    ensures IsRecorded(g, key, before)
  {
  }

  ghost predicate IsRecorded(h: Hist, key: (NodeId, Term, nat), before: set<(Term, nat)>) {
    key in h.regs && h.regs[key] == before
  }

  lemma NowRecorded(V: set<NodeId>, s: Sys, a: Action, p: NodeId, n: Node, h: Hist, g: Hist)
    requires Inv(V, s, h) && a.DoRead? && a.p == p && p in V && n == s.nodes[p] && n.role == Leader && RoundIsNew(s.net, n)
    requires RegisteredIn(s, a, h, g)
    ensures IsRecorded(g, (p, n.term, n.round + 1), h.past.commits.Keys)
  {
    assert PeerOk(V, h, s, p);
    StaysRecorded(RegisterHist(h, n), g, (p, n.term, n.round + 1), h.past.commits.Keys);
  }

  lemma ReadyCovers(V: set<NodeId>, s: Sys, h: Hist, p: NodeId, c: Confirmed)
    requires Inv(V, s, h) && p in V && c in s.nodes[p].ready && (p, c.term, c.round) in h.regs
    ensures Covers(c.index, h.regs[(p, c.term, c.round)])
  {
    assert PeerOk(V, h, s, p);
    assert ConfirmedOk(h, p, c);
  }

  lemma CommitKnown(V: set<NodeId>, acts: seq<Action>, st: seq<Sys>, hs: seq<Hist>, k: nat, a: nat, q: NodeId, index: nat)
    requires Chronicle(V, acts, st, hs) && k <= a < |st| && q in V && q in st[k].nodes
    requires Covers(index, hs[a].past.commits.Keys)
    ensures st[k].nodes[q].commit <= index
  {
    ChronicleAt(V, acts, st, hs, k);
    GrowsOver(V, acts, st, hs, k, a);
    assert PeerOk(V, hs[k], st[k], q);
    var n := st[k].nodes[q];
    if n.commit > 0 {
      var t0, j :| (t0, j) in hs[k].past.commits && SettledBy(hs[k].past, n.log, n.commit, n.term, t0, j);
      assert (t0, j) in hs[a].past.commits.Keys;
    }
  }

  // ---- rounds over restarts ------------------------------------------------------

  /** An operation's appends carry rounds no newer than the node's, which only grows. */
  ghost predicate RoundsGrow(n: Node, m: Node) {
    && m.id == n.id && n.round <= m.round
    && (forall x | x in m.outbox && x !in n.outbox && x.body.Append? :: x.from == n.id && x.body.round <= m.round)
    && (forall x | x in m.outbox && x !in n.outbox :: x.from == n.id)
  }

  lemma AdvanceRounds(n: Node)
    ensures RoundsGrow(n, AdvanceReads(n)) && RoundsGrow(n, MaybeAdvanceCommit(n))
    ensures AdvanceReads(n).outbox == n.outbox && MaybeAdvanceCommit(n).outbox == n.outbox
    ensures AdvanceReads(n).round == n.round && MaybeAdvanceCommit(n).round == n.round
  {
  }

  lemma ElectionRounds(n: Node)
    ensures RoundsGrow(n, StartElection(n)) && RoundsGrow(n, BecomeLeader(n))
  {
  }

  lemma AppendRespRounds(n: Node, m: Message)
    requires m.body.AppendResp?
    ensures RoundsGrow(n, Handle(n, m))
  {
    if n.role == Leader && m.term == n.term {
      var a := NoteAnswer(n, m.from, m.body.echo);
      if m.body.success {
        var d := NoteMatch(a, m.from, m.body.matchIndex);
        AdvanceRounds(d);
        var b := MaybeAdvanceCommit(d);
        var c := if b.transfer == Some(m.from) && MatchOf(b, m.from) >= |b.log| then FireTimeoutNow(b, m.from) else b;
        AdvanceRounds(c);
      } else {
        AdvanceRounds(SendAppend(BackOff(a, m.from), m.from));
      }
    }
  }

  lemma AppendRounds(n: Node, m: Message)
    requires m.body.Append?
    ensures RoundsGrow(n, Handle(n, m))
  {
  }

  lemma VoteRespRounds(n: Node, m: Message)
    requires m.body.VoteResp?
    ensures RoundsGrow(n, Handle(n, m))
  {
    ElectionRounds(n.(votes := n.votes + {m.from}));
  }

  lemma VoteRequestRounds(n: Node, m: Message)
    requires m.body.RequestVote?
    ensures RoundsGrow(n, Handle(n, m))
  {
  }

  lemma TimeoutRounds(n: Node, m: Message)
    requires m.body.TimeoutNow?
    ensures RoundsGrow(n, Handle(n, m))
  {
    ElectionRounds(n);
  }

  lemma HandleRounds(n: Node, m: Message)
    ensures RoundsGrow(n, Handle(n, m))
  {
    if m.body.VoteResp? {
      VoteRespRounds(n, m);
    } else if m.body.AppendResp? {
      AppendRespRounds(n, m);
    } else if m.body.Append? {
      AppendRounds(n, m);
    } else if m.body.RequestVote? {
      VoteRequestRounds(n, m);
    } else {
      TimeoutRounds(n, m);
    }
  }

  lemma TickRounds(n: Node, t: Timers, checkQuorum: bool)
    ensures RoundsGrow(n, Tick(n, t, checkQuorum))
  {
    ElectionRounds(n);
  }

  lemma DeliverRounds(n: Node, m: Message)
    ensures RoundsGrow(n, Step(n, m))
  {
    HandleRounds(AdoptTerm(n, m), m);
  }

  lemma ProposeRounds(n: Node, data: Bytes)
    ensures RoundsGrow(n, Propose(n, data))
  {
    AdvanceRounds(AppendLocal(n, data));
  }

  lemma ReadRounds(n: Node, ctx: nat)
    ensures RoundsGrow(n, ReadIndex(n, ctx))
  {
    AdvanceRounds(BroadcastAppend(Register(n, ctx)));
  }

  lemma RestartRounds(n: Node, a: Action)
    requires IsCrash(a)
    ensures RoundsGrow(n, NodeAfter(n, a, true))
  {
  }

  lemma ActionRounds(n: Node, a: Action)
    ensures RoundsGrow(n, NodeAfter(n, a, true))
  {
    match a
    case DoTick(_, t, cq) => TickRounds(n, t, cq);
    case Deliver(m) => DeliverRounds(n, m);
    case DoPropose(_, data) => ProposeRounds(n, data);
    case DoRead(_, ctx) => ReadRounds(n, ctx);
    case DoTransfer(_, _) =>
    case DoTakeCommitted(_) =>
    case DoTakeReads(_) =>
    case _ => RestartRounds(n, a);
  }

  /** Node `p` has yet to use the round its next read will carry. */
  ghost predicate RoundKnown(V: set<NodeId>, s: Sys, p: NodeId) {
    && s.nodes.Keys == V && p in V && RoundIsNew(s.net, s.nodes[p])
    && (forall q | q in V :: s.nodes[q].id == q && s.nodes[q].outbox == {})
  }

  /** The node keeps its round at this action. */
  predicate Keeps(keepRound: bool, p: NodeId, a: Action) { keepRound || !IsCrash(a) || Actor(a) != p }

  /** Whatever happens to the counter, an operation sends under its own name. */
  lemma ActionSends(n: Node, a: Action, keepRound: bool)
    requires n.outbox == {}
    ensures var m := NodeAfter(n, a, keepRound); m.id == n.id && forall x | x in m.outbox :: x.from == n.id
    ensures keepRound || !IsCrash(a) ==> RoundsGrow(n, NodeAfter(n, a, keepRound))
  {
    ActionRounds(n, a);
    if IsCrash(a) { CrashSendsNothing(n, a, keepRound); } else { SameWithoutCrash(n, a, keepRound); }
  }

  lemma CrashSendsNothing(n: Node, a: Action, keepRound: bool)
    requires IsCrash(a)
    ensures var m := NodeAfter(n, a, keepRound); m.id == n.id && m.outbox == {}
  {
  }

  lemma SameWithoutCrash(n: Node, a: Action, keepRound: bool)
    requires !IsCrash(a)
    ensures NodeAfter(n, a, keepRound) == NodeAfter(n, a, true)
  {
  }

  /** As long as a node keeps its counter, no append on the network carries a round it has yet to use. */
  lemma {:induction false} UnusedRound(V: set<NodeId>, keepRound: bool, acts: seq<Action>, st: seq<Sys>, i: nat, p: NodeId)
    requires Run(V, keepRound, acts, st) && i < |st| && p in V
    requires forall j: nat | j < i :: Keeps(keepRound, p, acts[j])
    ensures RoundKnown(V, st[i], p)
  {
    if i > 0 {
      UnusedRound(V, keepRound, acts, st, i - 1, p);
      assert Moves(keepRound, acts, st, i - 1);
      assert Keeps(keepRound, p, acts[i - 1]);
      var s, a := st[i - 1], acts[i - 1];
      ActionSends(s.nodes[Actor(a)], a, keepRound);
      RoundMoves(V, s, st[i], p, Actor(a), NodeAfter(s.nodes[Actor(a)], a, keepRound));
    }
  }

  lemma RoundMoves(V: set<NodeId>, s: Sys, s': Sys, p: NodeId, q: NodeId, n: Node)
    requires RoundKnown(V, s, p) && q in V && n.id == q && (forall x | x in n.outbox :: x.from == q)
    requires q == p ==> RoundsGrow(s.nodes[q], n)
    requires s'.nodes == s.nodes[q := n.(outbox := {})] && s'.net == s.net + n.outbox
    ensures RoundKnown(V, s', p)
  {
  }

  /** The code as it is: a confirmed read of a node that has not restarted before registering it is linearizable,
      whatever the others did. */
  lemma UnbrokenReadLinearizable(V: set<NodeId>, keepRound: bool, acts: seq<Action>, st: seq<Sys>, a: nat, b: nat, c: Confirmed)
    requires Answered(V, keepRound, acts, st, a, b, c) && !Restarted(acts, a)
    ensures Linearizable(V, st, a, c)
  {
    forall j: nat | j < a ensures Keeps(keepRound, acts[a].p, acts[j]) {
      assert !RestartsAt(acts, a, j);
    }
    UnusedRound(V, keepRound, acts, st, a, acts[a].p);
    ReadIndexLinearizable(V, keepRound, acts, st, a, b, c);
  }

  predicate RestartsAt(acts: seq<Action>, a: nat, j: nat)
    requires j < a < |acts| && acts[a].DoRead?
  {
    IsCrash(acts[j]) && Actor(acts[j]) == acts[a].p
  }

  /** The node that registers the read at `a` went down before. */
  ghost predicate Restarted(acts: seq<Action>, a: nat)
    requires a < |acts| && acts[a].DoRead?
  {
    exists j: nat | j < a :: RestartsAt(acts, a, j)
  }

  /** If a restart kept the round counter, every confirmed read of every run would be linearizable. */
  lemma KeptRoundsLinearizable(V: set<NodeId>, acts: seq<Action>, st: seq<Sys>, a: nat, b: nat, c: Confirmed)
    requires Answered(V, true, acts, st, a, b, c)
    ensures Linearizable(V, st, a, c)
  {
    UnusedRound(V, true, acts, st, a, acts[a].p);
    ReadIndexLinearizable(V, true, acts, st, a, b, c);
  }
}
