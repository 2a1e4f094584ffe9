/** Every driver input of a node carries the invariant. */
module RaftOps {
  import opened Basics
  import opened RaftNode
  import opened RaftHistory
  import opened RaftSteps

  // ---- reads -------------------------------------------------------------------

  lemma {:induction false} ConfirmCountMeans(n: Node, pending: seq<Pending>)
    ensures forall i | 0 <= i < ConfirmCount(n, pending) :: |Ackers(n, pending[i].round)| >= Majority(n)
  {
    if pending != [] && |Ackers(n, pending[0].round)| >= Majority(n) {
      ConfirmCountMeans(n, pending[1..]);
      forall i | 0 <= i < ConfirmCount(n, pending) ensures |Ackers(n, pending[i].round)| >= Majority(n) {
        if i > 0 { assert pending[1..][i - 1] == pending[i]; }
      }
    }
  }

  lemma AdvanceReadsStep(V: set<NodeId>, h: Hist, p: NodeId, n: Node)
    requires Good(V, h, p, n)
    ensures Carries(V, h, h, p, AdvanceReads(n))
  {
    if n.role == Leader && n.pending != [] && TermAt(n.log, n.commit) == Some(n.term) {
      var k := ConfirmCount(n, n.pending);
      ConfirmCountMeans(n, n.pending);
      var done := ConfirmAll(n.pending[..k], n.term, n.commit);
      forall i | 0 <= i < k ensures ConfirmedOk(h, p, done[i]) {
        assert done[i].round == n.pending[i].round;
        if (p, n.term, done[i].round) in h.regs { ConfirmedCovers(V, h, p, n, done[i].round); }
      }
      ReadsMoveStep(V, h, p, n, k, done);
    } else {
      Idle(V, h, p, n);
    }
  }

  lemma ReadsMoveStep(V: set<NodeId>, h: Hist, p: NodeId, n: Node, k: nat, done: seq<Confirmed>)
    requires Good(V, h, p, n) && n.role == Leader && k <= |n.pending| && |done| == k
    requires forall i | 0 <= i < k :: ConfirmedOk(h, p, done[i]) && done[i].round == n.pending[i].round
    ensures Carries(V, h, h, p, n.(ready := n.ready + done, pending := n.pending[k..]))
  {
  }

  /** Nothing this node ever sent carries a round as new as the one a read registered now would use. */
  ghost predicate RoundIsNew(sent: set<Message>, n: Node) {
    forall m | m in sent && m.from == n.id && m.body.Append? :: m.body.round <= n.round
  }

  ghost function RegisterHist(h: Hist, n: Node): Hist {
    if RoundIsNew(h.sent, n) then h.(regs := h.regs[(n.id, n.term, n.round + 1) := h.past.commits.Keys]) else h
  }

  lemma RegisterMsgs(V: set<NodeId>, h: Hist, p: NodeId, n: Node, g: Hist)
    requires Good(V, h, p, n) && n.role == Leader && RoundIsNew(h.sent, n) && g == RegisterHist(h, n)
    ensures HistOk(V, g) && MsgsOk(V, g)
  {
    forall q, t, x | (q, t, x) in g.regs ensures RegOk(g, q, t, x) {
      if (q, t, x) in h.regs { assert RegOk(h, q, t, x); }
    }
    forall m | m in g.sent ensures MsgOk(V, g, m) && (m.body.AppendResp? ==> EchoOk(g, m)) {
      assert MsgOk(V, h, m);
      MsgGrows(V, h, g, m);
      if m.body.AppendResp? { EchoSurvives(h, g, n, m); }
    }
  }

  lemma RegisterNode(V: set<NodeId>, h: Hist, p: NodeId, n: Node, ctx: nat, g: Hist)
    requires NodeOk(V, h, p, n) && n.role == Leader && g == RegisterHist(h, n)
    ensures NodeOk(V, g, p, Register(n, ctx))
  {
    forall q | q in n.acked && n.acked[q] > 0 ensures Echoed(g, p, n.term, q, n.acked[q]) { assert Echoed(h, p, n.term, q, n.acked[q]); }
    forall k | 0 <= k < |n.ready| ensures ConfirmedOk(g, p, n.ready[k]) { assert ConfirmedOk(h, p, n.ready[k]); }
  }

  lemma RegisterStep(V: set<NodeId>, h: Hist, p: NodeId, n: Node, ctx: nat)
    requires Good(V, h, p, n) && n.role == Leader
    ensures Carries(V, h, RegisterHist(h, n), p, Register(n, ctx))
  {
    var g := RegisterHist(h, n);
    RegisterNode(V, h, p, n, ctx, g);
    if RoundIsNew(h.sent, n) {
      assert (p, n.term, n.round + 1) !in h.regs;
      RegisterMsgs(V, h, p, n, g);
    }
  }

  lemma EchoSurvives(h: Hist, g: Hist, n: Node, m: Message)
    requires g == RegisterHist(h, n) && RoundIsNew(h.sent, n)
    requires m.body.AppendResp? && AppendRespOk(h, m) && EchoOk(h, m)
    ensures EchoOk(g, m)
  {
    var a :| a in h.sent && Answers(m, a);
  }

  lemma ReadIndexStep(V: set<NodeId>, h: Hist, p: NodeId, n: Node, ctx: nat) returns (g: Hist)
    requires Good(V, h, p, n)
    ensures Carries(V, h, g, p, ReadIndex(n, ctx))
    ensures n.role == Leader ==> Grows(RegisterHist(h, n), g)
  {
    if n.role == Leader {
      var f := RegisterHist(h, n);
      var a := Register(n, ctx);
      RegisterStep(V, h, p, n, ctx);
      g := BroadcastStep(V, f, p, a);
      AdvanceReadsStep(V, g, p, BroadcastAppend(a));
      Chain(V, h, f, g, p, ReadIndex(n, ctx));
    } else {
      g := h;
      Idle(V, h, p, n);
    }
  }

  // ---- replication ---------------------------------------------------------------

  lemma MaybeAdvanceStep(V: set<NodeId>, h: Hist, p: NodeId, n: Node) returns (g: Hist)
    requires Good(V, h, p, n) && n.role == Leader
    ensures Carries(V, h, g, p, MaybeAdvanceCommit(n))
  {
    var c := CommitScan(n, |n.log|);
    CommitScanFinds(n, |n.log|);
    if c > n.commit {
      g := CommitStep(V, h, p, n, c);
      AdvanceReadsStep(V, g, p, n.(commit := c));
    } else {
      g := h;
      Idle(V, h, p, n);
    }
  }

  lemma AppendCountStep(V: set<NodeId>, h: Hist, p: NodeId, n: Node, data: Bytes) returns (g: Hist)
    requires Good(V, h, p, n) && n.role == Leader
    ensures Carries(V, h, g, p, MaybeAdvanceCommit(AppendLocal(n, data)))
  {
    var e := AppendLocalStep(V, h, p, n, data);
    g := MaybeAdvanceStep(V, e, p, AppendLocal(n, data));
    Chain(V, h, e, g, p, MaybeAdvanceCommit(AppendLocal(n, data)));
  }

  lemma ProposeStep(V: set<NodeId>, h: Hist, p: NodeId, n: Node, data: Bytes) returns (g: Hist)
    requires Good(V, h, p, n)
    ensures Carries(V, h, g, p, Propose(n, data))
  {
    if MayPropose(n) {
      var f := AppendCountStep(V, h, p, n, data);
      MaybeAdvanceFrame(AppendLocal(n, data));
      g := BroadcastStep(V, f, p, MaybeAdvanceCommit(AppendLocal(n, data)));
      Chain(V, h, f, g, p, Propose(n, data));
    } else {
      g := h;
      Idle(V, h, p, n);
    }
  }

  lemma NoteAnswerStep(V: set<NodeId>, h: Hist, p: NodeId, n: Node, m: Message)
    requires Good(V, h, p, n) && n.role == Leader && m in h.sent && m.body.AppendResp? && m.to == p && m.term == n.term
    ensures Carries(V, h, h, p, NoteAnswer(n, m.from, m.body.echo))
  {
    var a := NoteAnswer(n, m.from, m.body.echo);
    forall q | q in a.acked && a.acked[q] > 0 ensures Echoed(h, p, n.term, q, a.acked[q]) {
      if q in n.acked && a.acked[q] == n.acked[q] { assert Echoed(h, p, n.term, q, n.acked[q]); }
    }
  }

  lemma NoteMatchCore(V: set<NodeId>, h: Past, p: NodeId, n: Node, from: NodeId, index: nat)
    requires PastOk(V, h) && CoreOk(h, p, n) && n.role == Leader && (from, n.term, index) in h.acks
    ensures CoreOk(h, p, NoteMatch(n, from, index))
  {
    assert AckOk(h, from, n.term, index);
    if MatchOf(n, from) > 0 { assert AckOk(h, from, n.term, MatchOf(n, from)); }
  }

  lemma NoteMatchStep(V: set<NodeId>, h: Hist, p: NodeId, n: Node, from: NodeId, index: nat)
    requires Good(V, h, p, n) && n.role == Leader && (from, n.term, index) in h.past.acks
    ensures Carries(V, h, h, p, NoteMatch(n, from, index))
  {
    NoteMatchCore(V, h.past, p, n, from, index);
    CoreStays(V, h, p, n, NoteMatch(n, from, index));
  }

  lemma BackOffStep(V: set<NodeId>, h: Hist, p: NodeId, n: Node, from: NodeId)
    requires Good(V, h, p, n) && n.role == Leader
    ensures Carries(V, h, h, p, BackOff(n, from))
  {
  }

  lemma MaybeAdvanceFrame(n: Node)
    ensures var m := MaybeAdvanceCommit(n);
      m.role == n.role && m.term == n.term && m.log == n.log && m.matched == n.matched
  {
  }

  lemma SuccessStep(V: set<NodeId>, h: Hist, p: NodeId, n: Node, from: NodeId, index: nat) returns (g: Hist)
    requires Good(V, h, p, n) && n.role == Leader && from in V && (from, n.term, index) in h.past.acks
    ensures var b := MaybeAdvanceCommit(NoteMatch(n, from, index));
      var c := if b.transfer == Some(from) && MatchOf(b, from) >= |b.log| then FireTimeoutNow(b, from) else b;
      Carries(V, h, g, p, c)
  {
    NoteMatchStep(V, h, p, n, from, index);
    var b := MaybeAdvanceCommit(NoteMatch(n, from, index));
    var f := MaybeAdvanceStep(V, h, p, NoteMatch(n, from, index));
    if b.transfer == Some(from) && MatchOf(b, from) >= |b.log| {
      g := TimeoutNowStep(V, f, p, b, from);
      Chain(V, h, f, g, p, FireTimeoutNow(b, from));
    } else {
      g := f;
    }
  }

  lemma AckedStep(V: set<NodeId>, h: Hist, p: NodeId, a: Node, from: NodeId, index: nat, out: Node) returns (g: Hist)
    requires Good(V, h, p, a) && a.role == Leader && from in V && (from, a.term, index) in h.past.acks
    requires out == AdvanceReads(var b := MaybeAdvanceCommit(NoteMatch(a, from, index));
                                 if b.transfer == Some(from) && MatchOf(b, from) >= |b.log| then FireTimeoutNow(b, from) else b)
    ensures Carries(V, h, g, p, out)
  {
    g := SuccessStep(V, h, p, a, from, index);
    var b := MaybeAdvanceCommit(NoteMatch(a, from, index));
    var c := if b.transfer == Some(from) && MatchOf(b, from) >= |b.log| then FireTimeoutNow(b, from) else b;
    ReadsAfter(V, h, g, p, c, out);
  }

  lemma ReadsAfter(V: set<NodeId>, h: Hist, g: Hist, p: NodeId, c: Node, out: Node)
    requires Carries(V, h, g, p, c) && out == AdvanceReads(c)
    ensures Carries(V, h, g, p, out)
  {
    AdvanceReadsStep(V, g, p, c);
  }

  lemma RefusedStep(V: set<NodeId>, h: Hist, p: NodeId, a: Node, from: NodeId, out: Node) returns (g: Hist)
    requires Good(V, h, p, a) && a.role == Leader && from in V && out == AdvanceReads(SendAppend(BackOff(a, from), from))
    ensures Carries(V, h, g, p, out)
  {
    BackOffStep(V, h, p, a, from);
    g := SendAppendStep(V, h, p, BackOff(a, from), from);
    ReadsAfter(V, h, g, p, SendAppend(BackOff(a, from), from), out);
  }

  lemma AppendRespStep(V: set<NodeId>, h: Hist, p: NodeId, n: Node, m: Message) returns (g: Hist)
    requires Good(V, h, p, n) && m in h.sent && m.body.AppendResp? && m.to == p
    ensures Carries(V, h, g, p, Handle(n, m))
  {
    if n.role == Leader && m.term == n.term {
      assert MsgOk(V, h, m);
      var a := NoteAnswer(n, m.from, m.body.echo);
      NoteAnswerStep(V, h, p, n, m);
      if m.body.success {
        g := AckedStep(V, h, p, a, m.from, m.body.matchIndex, Handle(n, m));
      } else {
        g := RefusedStep(V, h, p, a, m.from, Handle(n, m));
      }
    } else {
      g := h;
      Idle(V, h, p, n);
    }
  }

  // ---- the remaining inputs --------------------------------------------------------

  lemma TransferStep(V: set<NodeId>, h: Hist, p: NodeId, n: Node, target: NodeId) returns (g: Hist)
    requires Good(V, h, p, n)
    ensures Carries(V, h, g, p, TransferLeadership(n, target))
  {
    if n.role != Leader || target !in n.voters || target == n.id {
      g := h;
      Idle(V, h, p, n);
    } else {
      var m := n.(transfer := Some(target));
      QuietStep(V, h, p, n, m);
      if target in m.matched && m.matched[target] >= |m.log| {
        g := TimeoutNowStep(V, h, p, m, target);
      } else {
        g := SendAppendStep(V, h, p, m, target);
      }
    }
  }

  lemma CheckQuorumStep(V: set<NodeId>, h: Hist, p: NodeId, n: Node)
    requires Good(V, h, p, n)
    ensures Carries(V, h, h, p, CheckQuorum(n))
  {
    QuietStep(V, h, p, n, n.(recent := {}));
    FollowerStep(V, h, p, n.(recent := {}), n.term, None);
  }

  lemma HeartbeatStep(V: set<NodeId>, h: Hist, p: NodeId, n: Node, t: Timers) returns (g: Hist)
    requires Good(V, h, p, n) && n.role == Leader
    ensures var a := if t.transferExpired then n.(transfer := None) else n;
      Carries(V, h, g, p, if t.heartbeatDue then BroadcastAppend(a) else a)
  {
    var a := if t.transferExpired then n.(transfer := None) else n;
    QuietStep(V, h, p, n, a);
    g := h;
    if t.heartbeatDue { g := BroadcastStep(V, h, p, a); }
  }

  lemma QuorumStep(V: set<NodeId>, h: Hist, p: NodeId, n: Node, t: Timers, checkQuorum: bool)
    requires Good(V, h, p, n)
    ensures Carries(V, h, h, p, if t.quorumDue then (if checkQuorum then CheckQuorum(n) else n.(recent := {})) else n)
  {
    Idle(V, h, p, n);
    if t.quorumDue {
      if checkQuorum { CheckQuorumStep(V, h, p, n); } else { QuietStep(V, h, p, n, n.(recent := {})); }
    }
  }

  lemma LeaderTickStep(V: set<NodeId>, h: Hist, p: NodeId, n: Node, t: Timers, checkQuorum: bool, b: Node, out: Node)
    returns (g: Hist)
    requires Good(V, h, p, n) && n.role == Leader
    requires b == var a := if t.transferExpired then n.(transfer := None) else n; if t.heartbeatDue then BroadcastAppend(a) else a
    requires out == if t.quorumDue then (if checkQuorum then CheckQuorum(b) else b.(recent := {})) else b
    ensures Carries(V, h, g, p, out)
  {
    g := HeartbeatStep(V, h, p, n, t);
    QuorumStep(V, g, p, b, t, checkQuorum);
    assert out.outbox == b.outbox;
    Chain(V, h, g, g, p, out);
  }

  lemma TickStep(V: set<NodeId>, h: Hist, p: NodeId, n: Node, t: Timers, checkQuorum: bool) returns (g: Hist)
    requires Good(V, h, p, n)
    ensures Carries(V, h, g, p, Tick(n, t, checkQuorum))
  {
    if n.role == Leader {
      var a := if t.transferExpired then n.(transfer := None) else n;
      var b := if t.heartbeatDue then BroadcastAppend(a) else a;
      g := LeaderTickStep(V, h, p, n, t, checkQuorum, b, Tick(n, t, checkQuorum));
    } else if t.electionDue && n.id in n.voters {
      g := StartElectionStep(V, h, p, n);
    } else {
      g := h;
      Idle(V, h, p, n);
    }
  }

  lemma AdoptTermStep(V: set<NodeId>, h: Hist, p: NodeId, n: Node, m: Message)
    requires Good(V, h, p, n)
    ensures Carries(V, h, h, p, AdoptTerm(n, m)) && m.term <= AdoptTerm(n, m).term
  {
    Idle(V, h, p, n);
    if m.term > n.term {
      FollowerStep(V, h, p, n, m.term, if m.body.Append? then Some(m.from) else None);
    }
  }

  lemma DeliverStep(V: set<NodeId>, h: Hist, p: NodeId, n: Node, m: Message) returns (g: Hist)
    requires Good(V, h, p, n) && m in h.sent && m.to == p
    ensures Carries(V, h, g, p, Step(n, m))
  {
    AdoptTermStep(V, h, p, n, m);
    var a := AdoptTerm(n, m);
    match m.body
    case RequestVote(_, _) => g := RequestVoteStep(V, h, p, a, m);
    case VoteResp(_) => g := VoteRespStep(V, h, p, a, m);
    case Append(_, _, _, _, _) => g := AppendMsgStep(V, h, p, a, m);
    case AppendResp(_, _, _) => g := AppendRespStep(V, h, p, a, m);
    case TimeoutNow =>
      if m.term < a.term || a.id !in a.voters {
        g := h;
        Idle(V, h, p, a);
      } else {
        g := StartElectionStep(V, h, p, a);
      }
  }

  lemma CrashMidwayStep(V: set<NodeId>, h: Hist, p: NodeId, n: Node, m: Message, upTo: nat, keepRound: bool)
    requires Good(V, h, p, n) && m in h.sent
    ensures Carries(V, h, h, p, CrashMidway(n, m, upTo, keepRound))
  {
    AdoptTermStep(V, h, p, n, m);
    var a := AdoptTerm(n, m);
    var b := m.body;
    if !b.Append? || m.term < a.term || b.prevIndex + |b.entries| == 0 || !Anchored(a, b.prevIndex, b.prevTerm) {
      RestartStep(V, h, p, a, keepRound);
    } else {
      var f := Follow(a, m.from);
      QuietStep(V, h, p, a, f);
      assert MsgOk(V, h, m);
      SpliceStep(V, h, p, f, m, upTo);
      RestartStep(V, h, p, f.(log := SpliceUpTo(f.log, b.prevIndex, b.entries, upTo)), keepRound);
    }
  }
}
