/** Where the contents of logs and answers come from, over whole runs: every entry is a command some leader of its term
    was given, in the place it was told; every confirmed read carries the tag it was registered under, once and in turn. */
module RaftOrigin {
  import opened Basics
  import opened RaftNode
  import opened RaftOps
  import opened RaftSystem

  // ---- entries ------------------------------------------------------------------------------

  /** Every entry of `a` is in `k`. */
  ghost predicate Within(a: Log, k: set<Entry>) { forall e | e in a :: e in k }

  /** What a message brings. */
  ghost function Brought(a: Action): Log {
    match a
    case Deliver(m) => if m.body.Append? then m.body.entries else []
    case CrashIn(m, _) => if m.body.Append? then m.body.entries else []
    case _ => []
  }

  /** The entry a leader makes of a command. */
  ghost function Made(n: Node, a: Action): set<Entry> {
    if a.DoPropose? && n.role == Leader && n.transfer == None then {Entry(n.term, |n.log| + 1, a.data)} else {}
  }

  lemma SpliceWithin(log: Log, prev: nat, entries: Log, upTo: nat, k: set<Entry>)
    requires prev <= |log| && Within(log, k) && Within(entries, k)
    ensures Within(SpliceUpTo(log, prev, entries, upTo), k)
  {
  }

  /** All a node holds and has sent since is in `k`. */
  ghost predicate NodeWithin(n: Node, k: set<Entry>) {
    Within(n.log, k) && forall x | x in n.outbox && x.body.Append? :: Within(x.body.entries, k)
  }

  lemma SendsWithin(n: Node, to: NodeId, k: set<Entry>)
    requires NodeWithin(n, k)
    ensures NodeWithin(SendAppend(n, to), k) && NodeWithin(BroadcastAppend(n), k)
  {
    forall x | x in AppendsOf(n) ensures Within(x.body.entries, k) {}
  }

  lemma AdvanceWithin(n: Node, k: set<Entry>)
    requires NodeWithin(n, k)
    ensures NodeWithin(AdvanceReads(n), k) && NodeWithin(MaybeAdvanceCommit(n), k)
  {
  }

  lemma ElectionWithin(n: Node, k: set<Entry>)
    requires NodeWithin(n, k)
    ensures NodeWithin(StartElection(n), k) && NodeWithin(BecomeLeader(n), k)
  {
    SendsWithin(Crown(n), 0, k);
    SendsWithin(Crown(Campaign(n)), 0, k);
  }

  lemma TickWithin(n: Node, t: Timers, cq: bool, k: set<Entry>)
    requires NodeWithin(n, k)
    ensures NodeWithin(Tick(n, t, cq), k)
  {
    ElectionWithin(n, k);
    SendsWithin(if t.transferExpired then n.(transfer := None) else n, 0, k);
  }

  lemma ProposeWithin(n: Node, data: Bytes, k: set<Entry>)
    requires NodeWithin(n, k) && Made(n, DoPropose(n.id, data)) <= k
    ensures NodeWithin(Propose(n, data), k)
  {
    if MayPropose(n) {
      var a := AppendLocal(n, data);
      assert NodeWithin(a, k);
      AdvanceWithin(a, k);
      SendsWithin(MaybeAdvanceCommit(a), 0, k);
    }
  }

  lemma AppendRespWithin(n: Node, m: Message, k: set<Entry>)
    requires NodeWithin(n, k) && m.body.AppendResp?
    ensures NodeWithin(Handle(n, m), k)
  {
    if n.role == Leader && m.term == n.term {
      var a := NoteAnswer(n, m.from, m.body.echo);
      if m.body.success {
        var d := NoteMatch(a, m.from, m.body.matchIndex);
        AdvanceWithin(d, k);
        var b := MaybeAdvanceCommit(d);
        AdvanceWithin(if b.transfer == Some(m.from) && MatchOf(b, m.from) >= |b.log| then FireTimeoutNow(b, m.from) else b, k);
      } else {
        SendsWithin(BackOff(a, m.from), m.from, k);
        AdvanceWithin(SendAppend(BackOff(a, m.from), m.from), k);
      }
    }
  }

  lemma AppendWithin(n: Node, m: Message, k: set<Entry>)
    requires NodeWithin(n, k) && m.body.Append? && Within(m.body.entries, k)
    ensures NodeWithin(Handle(n, m), k)
  {
    var b := m.body;
    if m.term >= n.term && b.prevIndex + |b.entries| > 0 && Anchored(n, b.prevIndex, b.prevTerm) {
      SpliceWithin(n.log, b.prevIndex, b.entries, |b.entries|, k);
    }
  }

  lemma DeliverWithin(n: Node, m: Message, k: set<Entry>)
    requires NodeWithin(n, k) && (m.body.Append? ==> Within(m.body.entries, k))
    ensures NodeWithin(Step(n, m), k)
  {
    var a := AdoptTerm(n, m);
    match m.body
    case AppendResp(_, _, _) => AppendRespWithin(a, m, k);
    case Append(_, _, _, _, _) => AppendWithin(a, m, k);
    case VoteResp(_) => ElectionWithin(a.(votes := a.votes + {m.from}), k);
    case TimeoutNow => ElectionWithin(a, k);
    case RequestVote(_, _) =>
  }

  lemma CrashWithin(n: Node, m: Message, upTo: nat, keepRound: bool, k: set<Entry>)
    requires NodeWithin(n, k) && (m.body.Append? ==> Within(m.body.entries, k))
    ensures NodeWithin(CrashMidway(n, m, upTo, keepRound), k)
  {
    var a := AdoptTerm(n, m);
    if m.body.Append? && m.body.prevIndex <= |a.log| { SpliceWithin(a.log, m.body.prevIndex, m.body.entries, upTo, k); }
  }

  /** An input adds nothing but what it brings and what a leader makes of it. */
  lemma ActionWithin(n: Node, a: Action, keepRound: bool, k: set<Entry>)
    requires NodeWithin(n, k) && Within(Brought(a), k) && Made(n, a) <= k
    ensures NodeWithin(NodeAfter(n, a, keepRound), k)
  {
    match a
    case DoTick(_, t, cq) => TickWithin(n, t, cq, k);
    case Deliver(m) => DeliverWithin(n, m, k);
    case DoPropose(_, data) => ProposeWithin(n, data, k);
    case DoRead(_, ctx) =>
      SendsWithin(Register(n, ctx), 0, k);
      AdvanceWithin(BroadcastAppend(Register(n, ctx)), k);
    case DoTransfer(_, target) => SendsWithin(n.(transfer := Some(target)), target, k);
    case CrashIn(m, upTo) => CrashWithin(n, m, upTo, keepRound, k);
    case _ =>
  }

  // ---- over runs ---------------------------------------------------------------------------

  /** Step `j` gives a leader a command, and `e` is the entry it makes of it: of its term, next in its log, with that
      command. */
  ghost predicate ProposedAt(acts: seq<Action>, st: seq<Sys>, j: nat, e: Entry) {
    && j < |acts| && j < |st| && acts[j].DoPropose? && acts[j].p in st[j].nodes
    && var n := st[j].nodes[acts[j].p];
    n.role == Leader && e == Entry(n.term, |n.log| + 1, acts[j].data)
  }

  /** Every entry in `k` was proposed before step `i`. */
  ghost predicate AllProposed(acts: seq<Action>, st: seq<Sys>, i: nat, k: set<Entry>) {
    forall e | e in k :: exists j: nat | j < i :: ProposedAt(acts, st, j, e)
  }

  /** All that is in the group is in `k`. */
  ghost predicate SysWithin(s: Sys, k: set<Entry>) {
    && (forall p | p in s.nodes :: NodeWithin(s.nodes[p], k))
    && (forall m | m in s.net && m.body.Append? :: Within(m.body.entries, k))
    && (forall p | p in s.emitted :: Within(s.emitted[p], k))
  }

  lemma EmittedWithin(n: Node, emitted: Log, a: Action, k: set<Entry>)
    requires Within(n.log, k) && Within(emitted, k)
    ensures Within(EmittedAfter(n, emitted, a), k)
  {
  }

  lemma StepWithin(s: Sys, a: Action, keepRound: bool, k: set<Entry>, z: Sys, g: set<Entry>)
    requires Enabled(s, a) && SysWithin(s, k) && z == Do(s, a, keepRound) && g == k + Made(s.nodes[Actor(a)], a)
    ensures SysWithin(z, g)
  {
    var p := Actor(a);
    var n := s.nodes[p];
    ActionWithin(n, a, keepRound, g);
    EmittedWithin(n, s.emitted[p], a, g);
  }

  lemma MadeProposed(acts: seq<Action>, st: seq<Sys>, i: nat, k: set<Entry>, g: set<Entry>)
    requires i < |acts| && i < |st| && Actor(acts[i]) in st[i].nodes && AllProposed(acts, st, i, k)
    requires g == k + Made(st[i].nodes[Actor(acts[i])], acts[i])
    ensures AllProposed(acts, st, i + 1, g)
  {
    forall e | e in g ensures exists j: nat | j < i + 1 :: ProposedAt(acts, st, j, e) {
      if e in k {
        var j: nat :| j < i && ProposedAt(acts, st, j, e);
      } else {
        assert ProposedAt(acts, st, i, e);
      }
    }
  }

  lemma {:induction false} Known(V: set<NodeId>, keepRound: bool, acts: seq<Action>, st: seq<Sys>, i: nat) returns (k: set<Entry>)
    requires Run(V, keepRound, acts, st) && i < |st|
    ensures SysWithin(st[i], k) && AllProposed(acts, st, i, k)
  {
    if i == 0 {
      k := {};
    } else {
      var f := Known(V, keepRound, acts, st, i - 1);
      assert Moves(keepRound, acts, st, i - 1);
      k := f + Made(st[i - 1].nodes[Actor(acts[i - 1])], acts[i - 1]);
      StepWithin(st[i - 1], acts[i - 1], keepRound, f, st[i], k);
      MadeProposed(acts, st, i - 1, f, k);
    }
  }

  /** Validity: every entry of every log, of every append on the network and of every applied stream was proposed before,
      to the leader of its term, at its index, with its data. */
  lemma EntriesWereProposed(V: set<NodeId>, keepRound: bool, acts: seq<Action>, st: seq<Sys>, i: nat, p: NodeId, e: Entry)
    requires Run(V, keepRound, acts, st) && i < |st| && p in st[i].nodes && p in st[i].emitted
    requires e in st[i].nodes[p].log || e in st[i].emitted[p] || exists m :: m in st[i].net && m.body.Append? && e in m.body.entries
    ensures exists j: nat | j < i :: ProposedAt(acts, st, j, e)
  {
    var k := Known(V, keepRound, acts, st, i);
    assert NodeWithin(st[i].nodes[p], k);
  }

  /** And what a leader is given while it may take it is in its log at once. */
  lemma CommandTaken(n: Node, data: Bytes)
    requires n.role == Leader && n.transfer == None
    ensures Propose(n, data).log == n.log + [Entry(n.term, |n.log| + 1, data)]
    ensures MatchOf(Propose(n, data), n.id) == |n.log| + 1
  {
    MaybeAdvanceFrame(AppendLocal(n, data));
  }
}
