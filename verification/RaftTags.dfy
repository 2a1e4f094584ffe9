/** Reads over whole runs: what a leader confirms is what was registered with it, under the tag, term and round it was
    registered under, in the order of registration and once each. */
module RaftTags {
  import opened Basics
  import opened RaftNode
  import opened RaftSystem

  /** A read, wherever it stands. */
  datatype Read = Read(ctx: nat, round: nat, term: Term)

  function Done(cs: seq<Confirmed>): seq<Read> { seq(|cs|, i requires 0 <= i < |cs| => Read(cs[i].ctx, cs[i].round, cs[i].term)) }

  function Waiting(ps: seq<Pending>, t: Term): seq<Read> { seq(|ps|, i requires 0 <= i < |ps| => Read(ps[i].ctx, ps[i].round, t)) }

  /** Confirmed reads not yet taken, then the ones a leader has waiting. */
  function Queue(n: Node): seq<Read> { Done(n.ready) + if n.role == Leader then Waiting(n.pending, n.term) else [] }

  ghost predicate SameOffice(n: Node, m: Node) { n.role == Leader && m.role == Leader && m.term == n.term }

  /** Reads move from waiting to confirmed, without loss, repetition or change of order. */
  ghost predicate Keeps(n: Node, m: Node) { Queue(m) == Queue(n) && m.round == n.round && m.role == n.role && m.term == n.term }

  /** What an input that neither registers nor takes reads does to them: while the node stays in office they are kept; else
      none is added, and an office begins with none. */
  ghost predicate Passes(n: Node, m: Node) {
    if SameOffice(n, m) then Keeps(n, m) else Queue(m) <= Queue(n) && (m.role == Leader ==> Queue(m) == [])
  }

  lemma ConfirmedQueue(ready: seq<Confirmed>, pending: seq<Pending>, term: Term, index: nat, k: nat)
    requires k <= |pending|
    ensures Done(ready + ConfirmAll(pending[..k], term, index)) + Waiting(pending[k..], term) == Done(ready) + Waiting(pending, term)
  {
  }

  lemma AdvanceKeeps(n: Node)
    ensures Keeps(n, AdvanceReads(n))
  {
    if n.role == Leader && n.pending != [] && TermAt(n.log, n.commit) == Some(n.term) {
      ConfirmedQueue(n.ready, n.pending, n.term, n.commit, ConfirmCount(n, n.pending));
    }
  }

  lemma MaybeKeeps(n: Node)
    ensures Keeps(n, MaybeAdvanceCommit(n))
  {
    var c := CommitScan(n, |n.log|);
    if c > n.commit { AdvanceKeeps(n.(commit := c)); }
  }

  /** A node out of office has only what it confirmed. */
  lemma OutOfOffice(n: Node, m: Node)
    requires m.role != Leader && (m.ready == n.ready || m.ready == [])
    ensures Passes(n, m)
  {
    assert Queue(m) == Done(m.ready);
  }

  lemma NewOffice(n: Node, m: Node)
    requires !SameOffice(n, m) && m.ready == [] && m.pending == []
    ensures Passes(n, m)
  {
    assert Queue(m) == [];
  }

  lemma ElectionPasses(n: Node)
    ensures Passes(n, StartElection(n)) && (n.role != Leader ==> Passes(n, BecomeLeader(n)))
  {
    var m := StartElection(n);
    if m.role == Leader { NewOffice(n, m); } else { OutOfOffice(n, m); }
    if n.role != Leader { NewOffice(n, BecomeLeader(n)); }
  }

  lemma TickPasses(n: Node, t: Timers, cq: bool)
    ensures Passes(n, Tick(n, t, cq))
  {
    ElectionPasses(n);
    var m := Tick(n, t, cq);
    if n.role == Leader && m.role != Leader { OutOfOffice(n, m); }
  }

  lemma ProposePasses(n: Node, data: Bytes)
    ensures Passes(n, Propose(n, data))
  {
    MaybeKeeps(AppendLocal(n, data));
  }

  lemma SuccessKeeps(a: Node, from: NodeId, index: nat, out: Node)
    requires out == AdvanceReads(var b := MaybeAdvanceCommit(NoteMatch(a, from, index));
                                 if b.transfer == Some(from) && MatchOf(b, from) >= |b.log| then FireTimeoutNow(b, from) else b)
    ensures Keeps(a, out)
  {
    var b := MaybeAdvanceCommit(NoteMatch(a, from, index));
    MaybeKeeps(NoteMatch(a, from, index));
    AdvanceKeeps(if b.transfer == Some(from) && MatchOf(b, from) >= |b.log| then FireTimeoutNow(b, from) else b);
  }

  lemma AppendRespKeeps(n: Node, m: Message)
    requires m.body.AppendResp?
    ensures Keeps(n, Handle(n, m))
  {
    if n.role == Leader && m.term == n.term {
      var a := NoteAnswer(n, m.from, m.body.echo);
      if m.body.success {
        SuccessKeeps(a, m.from, m.body.matchIndex, Handle(n, m));
      } else {
        AdvanceKeeps(SendAppend(BackOff(a, m.from), m.from));
      }
    }
  }

  lemma AppendPasses(n: Node, m: Message)
    requires m.body.Append?
    ensures Passes(n, Handle(n, m))
  {
    var h := Handle(n, m);
    if m.term >= n.term { OutOfOffice(n, h); }
  }

  lemma HandlePasses(n: Node, m: Message)
    ensures Passes(n, Handle(n, m))
  {
    if m.body.AppendResp? {
      AppendRespKeeps(n, m);
    } else if m.body.Append? {
      AppendPasses(n, m);
    } else if m.body.VoteResp? {
      ElectionPasses(n.(votes := n.votes + {m.from}));
    } else if m.body.TimeoutNow? {
      ElectionPasses(n);
    }
  }

  lemma HandleRaises(n: Node, m: Message)
    ensures Handle(n, m).term >= n.term
  {
    if m.body.AppendResp? { AppendRespKeeps(n, m); }
  }

  lemma DeliverPasses(n: Node, m: Message)
    ensures Passes(n, Step(n, m))
  {
    var a := AdoptTerm(n, m);
    HandlePasses(a, m);
    HandleRaises(a, m);
    if m.term > n.term { assert Queue(a) == []; }
  }

  lemma InputPasses(n: Node, a: Action, keepRound: bool)
    requires !a.DoRead? && !a.DoTakeReads?
    ensures Passes(n, NodeAfter(n, a, keepRound))
  {
    match a
    case DoTick(_, t, cq) => TickPasses(n, t, cq);
    case Deliver(m) => DeliverPasses(n, m);
    case DoPropose(_, data) => ProposePasses(n, data);
    case DoTransfer(_, _) =>
    case DoTakeCommitted(_) =>
    case Crash(_) => OutOfOffice(n, NodeAfter(n, a, keepRound));
    case CrashIn(_, _) => OutOfOffice(n, NodeAfter(n, a, keepRound));
  }

  /** A registered read joins the end of the queue, under the round after the node's. */
  lemma RegisterQueues(n: Node, ctx: nat)
    requires n.role == Leader
    ensures var m := ReadIndex(n, ctx);
      && Queue(m) == Queue(n) + [Read(ctx, n.round + 1, n.term)]
      && m.round == n.round + 1 && m.role == Leader && m.term == n.term
  {
    var a := BroadcastAppend(Register(n, ctx));
    assert Waiting(a.pending, n.term) == Waiting(n.pending, n.term) + [Read(ctx, n.round + 1, n.term)];
    assert Queue(a) == Queue(n) + [Read(ctx, n.round + 1, n.term)];
    AdvanceKeeps(a);
  }

  /** Taking reads hands over what was confirmed, in order, and leaves the rest. */
  lemma TakeLeaves(n: Node)
    ensures Queue(n) == Done(n.ready) + Queue(TakeReads(n)) && TakeReads(n).ready == []
  {
  }

  // ---- over runs ------------------------------------------------------------------------------

  /** Step `a` registers the read with `p`, leader of its term, under its tag and the round after the node's. */
  ghost predicate RegisteredAt(acts: seq<Action>, st: seq<Sys>, a: nat, p: NodeId, r: Read) {
    && a < |acts| && a < |st| && acts[a] == DoRead(p, r.ctx) && p in st[a].nodes
    && st[a].nodes[p].role == Leader && st[a].nodes[p].term == r.term && st[a].nodes[p].round + 1 == r.round
  }

  ghost predicate Registered(acts: seq<Action>, st: seq<Sys>, i: nat, p: NodeId, r: Read) {
    exists a: nat | a < i :: RegisteredAt(acts, st, a, p, r)
  }

  ghost predicate Rising(q: seq<Read>) { forall i: nat, j: nat | i < j < |q| :: q[i].round < q[j].round }

  ghost predicate AllRegistered(acts: seq<Action>, st: seq<Sys>, i: nat, p: NodeId, q: seq<Read>) {
    forall r | r in q :: Registered(acts, st, i, p, r)
  }

  ghost predicate RoundsUpTo(q: seq<Read>, round: nat) { forall r | r in q :: r.round <= round }

  ghost predicate TagsOk(acts: seq<Action>, st: seq<Sys>, i: nat, p: NodeId, n: Node) {
    Rising(Queue(n)) && AllRegistered(acts, st, i, p, Queue(n)) && (n.role == Leader ==> RoundsUpTo(Queue(n), n.round))
  }

  lemma AllStay(acts: seq<Action>, st: seq<Sys>, i: nat, p: NodeId, q: seq<Read>)
    requires AllRegistered(acts, st, i, p, q)
    ensures AllRegistered(acts, st, i + 1, p, q)
  {
    forall r | r in q ensures Registered(acts, st, i + 1, p, r) {
      assert Registered(acts, st, i, p, r);
      var a: nat :| a < i && RegisteredAt(acts, st, a, p, r);
      assert a < i + 1;
    }
  }

  lemma PassedTags(acts: seq<Action>, st: seq<Sys>, i: nat, p: NodeId, n: Node, m: Node)
    requires TagsOk(acts, st, i, p, n) && Passes(n, m)
    ensures TagsOk(acts, st, i + 1, p, m)
  {
    AllStay(acts, st, i, p, Queue(n));
    assert Queue(m) <= Queue(n);
  }

  lemma TakenTags(acts: seq<Action>, st: seq<Sys>, i: nat, p: NodeId, n: Node)
    requires TagsOk(acts, st, i, p, n)
    ensures TagsOk(acts, st, i + 1, p, TakeReads(n))
  {
    AllStay(acts, st, i, p, Queue(n));
    TakeLeaves(n);
    SuffixRises(Done(n.ready), Queue(TakeReads(n)));
  }

  lemma SuffixRises(a: seq<Read>, b: seq<Read>)
    requires Rising(a + b)
    ensures Rising(b)
  {
    forall i: nat, j: nat | i < j < |b| ensures b[i].round < b[j].round {
      assert b[i] == (a + b)[|a| + i] && b[j] == (a + b)[|a| + j];
    }
  }

  lemma JoinRises(q: seq<Read>, r: Read, round: nat)
    requires Rising(q) && RoundsUpTo(q, round) && r.round == round + 1
    ensures Rising(q + [r]) && RoundsUpTo(q + [r], round + 1)
  {
    forall i: nat, j: nat | i < j < |q + [r]| ensures (q + [r])[i].round < (q + [r])[j].round { assert q[i] in q; }
  }

  lemma ReadTags(acts: seq<Action>, st: seq<Sys>, i: nat, p: NodeId, n: Node, ctx: nat)
    requires TagsOk(acts, st, i, p, n) && i < |acts| && i < |st| && acts[i] == DoRead(p, ctx) && p in st[i].nodes && n == st[i].nodes[p]
    ensures TagsOk(acts, st, i + 1, p, ReadIndex(n, ctx))
  {
    AllStay(acts, st, i, p, Queue(n));
    if n.role == Leader {
      var r := Read(ctx, n.round + 1, n.term);
      RegisterQueues(n, ctx);
      JoinRises(Queue(n), r, n.round);
      assert RegisteredAt(acts, st, i, p, r) && i < i + 1;
    }
  }

  lemma StepTags(acts: seq<Action>, st: seq<Sys>, i: nat, p: NodeId, n: Node, keepRound: bool)
    requires TagsOk(acts, st, i, p, n) && i < |acts| && i < |st| && Actor(acts[i]) == p && p in st[i].nodes && n == st[i].nodes[p]
    ensures TagsOk(acts, st, i + 1, p, NodeAfter(n, acts[i], keepRound))
  {
    if acts[i].DoRead? {
      ReadTags(acts, st, i, p, n, acts[i].ctx);
    } else if acts[i].DoTakeReads? {
      TakenTags(acts, st, i, p, n);
    } else {
      InputPasses(n, acts[i], keepRound);
      PassedTags(acts, st, i, p, n, NodeAfter(n, acts[i], keepRound));
    }
  }

  lemma {:induction false} TagsKept(V: set<NodeId>, keepRound: bool, acts: seq<Action>, st: seq<Sys>, i: nat, p: NodeId)
    requires Run(V, keepRound, acts, st) && i < |st| && p in V
    ensures p in st[i].nodes && TagsOk(acts, st, i, p, st[i].nodes[p])
  {
    if i > 0 {
      TagsKept(V, keepRound, acts, st, i - 1, p);
      assert RaftSystem.Moves(keepRound, acts, st, i - 1);
      var n := st[i - 1].nodes[p];
      if Actor(acts[i - 1]) == p {
        StepTags(acts, st, i - 1, p, n, keepRound);
        Drained(acts, st, i, p, NodeAfter(n, acts[i - 1], keepRound));
      } else {
        AllStay(acts, st, i - 1, p, Queue(n));
      }
    }
  }

  lemma Drained(acts: seq<Action>, st: seq<Sys>, i: nat, p: NodeId, n: Node)
    requires TagsOk(acts, st, i, p, n)
    ensures TagsOk(acts, st, i, p, n.(outbox := {}))
  {
    assert Queue(n.(outbox := {})) == Queue(n);
  }

  /** Over any run: a confirmed read was registered before, with this node, in the term, under the round and with the tag it
      is confirmed with; and confirmed reads stand in the order of their rounds, each once. */
  lemma ConfirmedWasRegistered(V: set<NodeId>, keepRound: bool, acts: seq<Action>, st: seq<Sys>, b: nat, p: NodeId, k: nat)
    requires Run(V, keepRound, acts, st) && b < |st| && p in V && p in st[b].nodes && k < |st[b].nodes[p].ready|
    ensures var c := st[b].nodes[p].ready[k];
      exists a: nat | a < b :: RegisteredAt(acts, st, a, p, Read(c.ctx, c.round, c.term))
    ensures forall j: nat | j < k :: st[b].nodes[p].ready[j].round < st[b].nodes[p].ready[k].round
  {
    TagsKept(V, keepRound, acts, st, b, p);
    var n := st[b].nodes[p];
    assert Queue(n)[k] == Done(n.ready)[k] && Queue(n)[k] in Queue(n);
    forall j: nat | j < k ensures n.ready[j].round < n.ready[k].round { assert Queue(n)[j] == Done(n.ready)[j]; }
  }
}
