/** What Raft does when messages get through to a majority: a leader commits all it has and says so; a candidate is elected;
    leadership goes where it is sent; a read is answered; and a leader out of touch steps down. */
module RaftReach {
  import opened Basics
  import opened RaftNode
  import opened RaftHistory
  import opened RaftSystem
  import opened RaftProgress

  // ---- replication -------------------------------------------------------------------------------

  ghost function Ids(fs: seq<Node>): set<NodeId> { set f | f in fs :: f.id }

  ghost predicate Apart(fs: seq<Node>) { forall i: nat, j: nat | i < j < |fs| :: fs[i].id != fs[j].id }

  /** A peer that will follow. */
  ghost predicate Reachable(h: Past, l: Node, f: Node) {
    f.id in l.voters && f.id != l.id && f.term <= l.term && GoodLog(h, f.log)
  }

  /** A heartbeat to `f`, then rounds until it is answered with success: at most one more than there are entries. */
  ghost predicate Serves(l: Node, f: Node, checkQuorum: bool, k: Node, g: Node) {
    exists m, n: nat ::
      && m in Tick(l, HEARTBEAT, checkQuorum).outbox && m.to == f.id && n <= |l.log| + 1
      && Exchanged(Tick(l, HEARTBEAT, checkQuorum), f, m, n, k, g)
  }

  /** The same for these followers in turn. */
  ghost predicate Served(l: Node, fs: seq<Node>, checkQuorum: bool, k: Node, gs: seq<Node>)
    decreases |fs|
  {
    if fs == [] then k == l && gs == []
    else gs != [] && exists k1 :: Serves(l, fs[0], checkQuorum, k1, gs[0]) && Served(k1, fs[1..], checkQuorum, k, gs[1..])
  }

  ghost predicate Holding(l: Node, f: Node, g: Node) { g.id == f.id && g.term == l.term && Agree(g.log, l.log, |l.log|) }

  /** The same leader, further on. */
  ghost predicate StillLeads(l: Node, k: Node) {
    && InOffice(k) && k.id == l.id && k.voters == l.voters && k.term == l.term && k.log == l.log && k.commit >= l.commit
    && forall v :: MatchOf(k, v) >= MatchOf(l, v)
  }

  ghost predicate CommitsHeld(k: Node) {
    |Holders(k, |k.log|)| >= Majority(k) && k.log != [] && LastTerm(k.log) == k.term ==> k.commit == |k.log|
  }

  lemma ServedFirst(l: Node, fs: seq<Node>, checkQuorum: bool, k1: Node, g: Node, k: Node, rest: seq<Node>)
    requires fs != [] && Serves(l, fs[0], checkQuorum, k1, g) && Served(k1, fs[1..], checkQuorum, k, rest)
    ensures Served(l, fs, checkQuorum, k, [g] + rest)
  {
    assert ([g] + rest)[1..] == rest;
  }

  lemma LeadsOn(l: Node, f: Node, k: Node, g: Node)
    requires InOffice(k) && Repaired(l, f, k, g)
    ensures StillLeads(l, k) && Holding(l, f, g) && CommitsHeld(k) && MatchOf(k, f.id) == |l.log|
  {
  }

  /** Everyone reached holds the leader's log. */
  lemma {:induction false} ServesAll(h: Past, l: Node, fs: seq<Node>, checkQuorum: bool) returns (k: Node, gs: seq<Node>)
    requires InOffice(l) && GoodLog(h, l.log) && forall f | f in fs :: Reachable(h, l, f)
    ensures Served(l, fs, checkQuorum, k, gs) && |gs| == |fs| && StillLeads(l, k)
    ensures forall i: nat | i < |fs| :: Holding(l, fs[i], gs[i]) && GoodLog(h, gs[i].log) && MatchOf(k, fs[i].id) == |l.log|
    ensures fs != [] ==> CommitsHeld(k)
    decreases |fs|
  {
    if fs == [] {
      k, gs := l, [];
    } else {
      var f := fs[0];
      assert Reachable(h, l, f);
      var m, n, k1, g := HeartbeatRepairs(h, l, f, checkQuorum);
      LeadsOn(l, f, k1, g);
      forall x | x in fs[1..] ensures Reachable(h, k1, x) { assert Reachable(h, l, x); }
      var rest;
      k, rest := ServesAll(h, k1, fs[1..], checkQuorum);
      gs := [g] + rest;
      assert Serves(l, f, checkQuorum, k1, g);
      ServedFirst(l, fs, checkQuorum, k1, g, k, rest);
      ServedRest(h, l, k1, fs, k, g, rest);
    }
  }

  lemma ServedRest(h: Past, l: Node, k1: Node, fs: seq<Node>, k: Node, g: Node, rest: seq<Node>)
    requires fs != [] && StillLeads(l, k1) && StillLeads(k1, k) && |rest| == |fs| - 1
    requires Holding(l, fs[0], g) && GoodLog(h, g.log) && MatchOf(k1, fs[0].id) == |l.log| && fs[0].id in l.voters
    requires forall i: nat | i < |rest| :: Holding(k1, fs[1..][i], rest[i]) && GoodLog(h, rest[i].log) && MatchOf(k, fs[1..][i].id) == |l.log|
    ensures StillLeads(l, k)
    ensures forall i: nat | i < |fs| :: Holding(l, fs[i], ([g] + rest)[i]) && GoodLog(h, ([g] + rest)[i].log) && MatchOf(k, fs[i].id) == |l.log|
  {
    var gs := [g] + rest;
    forall i: nat | i < |fs| ensures Holding(l, fs[i], gs[i]) && GoodLog(h, gs[i].log) && MatchOf(k, fs[i].id) == |l.log| {
      if i > 0 {
        assert fs[1..][i - 1] == fs[i];
      } else {
        assert |l.log| <= MatchOf(k, fs[0].id) <= |k.log|;
      }
    }
  }

  lemma {:induction false} IdsCount(fs: seq<Node>)
    requires Apart(fs)
    ensures |Ids(fs)| == |fs|
  {
    if fs != [] {
      var n := |fs| - 1;
      IdsCount(fs[..n]);
      assert fs == fs[..n] + [fs[n]];
      assert Ids(fs) == Ids(fs[..n]) + {fs[n].id};
      assert fs[n].id !in Ids(fs[..n]);
    }
  }

  lemma HeldByMany(l: Node, fs: seq<Node>, k: Node)
    requires StillLeads(l, k) && l.id in l.voters && MatchOf(l, l.id) == |l.log| && Apart(fs) && |fs| + 1 >= Majority(l)
    requires forall i: nat | i < |fs| :: fs[i].id in l.voters && fs[i].id != l.id && MatchOf(k, fs[i].id) == |l.log|
    ensures |Holders(k, |k.log|)| >= Majority(k)
  {
    var q := Ids(fs) + {l.id};
    IdsCount(fs);
    assert l.id !in Ids(fs);
    SubsetSize(q, Holders(k, |k.log|));
  }

  /** A leader with an entry of its own term that reaches a majority commits all it has, and each of them holds it. */
  lemma MajorityCommits(h: Past, l: Node, fs: seq<Node>, checkQuorum: bool) returns (k: Node, gs: seq<Node>)
    requires InOffice(l) && GoodLog(h, l.log) && l.id in l.voters && MatchOf(l, l.id) == |l.log| && LastTerm(l.log) == l.term && l.log != []
    requires (forall f | f in fs :: Reachable(h, l, f)) && Apart(fs) && fs != [] && |fs| + 1 >= Majority(l)
    ensures Served(l, fs, checkQuorum, k, gs) && StillLeads(l, k) && k.commit == |l.log|
    ensures |gs| == |fs| && forall i: nat | i < |fs| :: Holding(k, fs[i], gs[i]) && GoodLog(h, gs[i].log)
  {
    k, gs := ServesAll(h, l, fs, checkQuorum);
    forall i: nat | i < |fs| ensures fs[i].id in l.voters && fs[i].id != l.id { assert Reachable(h, l, fs[i]); }
    HeldByMany(l, fs, k);
  }

  /** The heartbeat after tells a follower that holds the log what is committed. */
  lemma Told(h: Past, k: Node, g: Node, checkQuorum: bool) returns (m: Message, e: Node, r: Message)
    requires InOffice(k) && k.log != [] && GoodLog(h, k.log) && GoodLog(h, g.log) && g.id in k.voters && g.id != k.id
    requires g.term == k.term && Agree(g.log, k.log, |k.log|)
    ensures m in Tick(k, HEARTBEAT, checkQuorum).outbox && m.to == g.id && Replies(g, m, e, r)
    ensures r.body.success && e.commit == RaftNode.Max(g.commit, k.commit)
  {
    m := HeartbeatOffers(k, checkQuorum, g.id);
    var p := k.next[g.id] - 1;
    assert Fits(g, m);
    e, r := FollowerAnswers(h, k, g, p, m);
  }

  // ---- in runs ----------------------------------------------------------------------------------------

  /** A leader has a place in mind for every voter. */
  ghost predicate Plans(n: Node) { n.role == Leader ==> n.voters <= n.next.Keys }

  lemma AdvancePlans(n: Node)
    requires Plans(n)
    ensures Plans(AdvanceReads(n)) && Plans(MaybeAdvanceCommit(n))
  {
    ReadsShape(n);
    CommittedShape(n, MaybeAdvanceCommit(n));
  }

  lemma AnswerPlans(n: Node, m: Message)
    requires Plans(n) && m.body.AppendResp?
    ensures Plans(Handle(n, m))
  {
    if n.role == Leader && m.term == n.term {
      var a := NoteAnswer(n, m.from, m.body.echo);
      if m.body.success {
        var d := NoteMatch(a, m.from, m.body.matchIndex);
        AdvancePlans(d);
        var b := MaybeAdvanceCommit(d);
        AdvancePlans(if b.transfer == Some(m.from) && MatchOf(b, m.from) >= |b.log| then FireTimeoutNow(b, m.from) else b);
      } else {
        AdvancePlans(SendAppend(BackOff(a, m.from), m.from));
      }
    }
  }

  lemma ElectionPlans(n: Node)
    requires Plans(n)
    ensures Plans(StartElection(n)) && Plans(BecomeLeader(n))
  {
    assert n.voters <= Crown(n).next.Keys;
  }

  lemma DeliverPlans(n: Node, m: Message)
    requires Plans(n)
    ensures Plans(Step(n, m))
  {
    var a := AdoptTerm(n, m);
    if m.body.AppendResp? {
      AnswerPlans(a, m);
    } else if m.body.VoteResp? {
      ElectionPlans(a.(votes := a.votes + {m.from}));
    } else if m.body.TimeoutNow? {
      ElectionPlans(a);
    }
  }

  lemma TickPlans(n: Node, t: Timers, checkQuorum: bool)
    requires Plans(n)
    ensures Plans(Tick(n, t, checkQuorum))
  {
    ElectionPlans(n);
  }

  lemma ActionPlans(n: Node, a: Action, keepRound: bool)
    requires Plans(n)
    ensures Plans(NodeAfter(n, a, keepRound))
  {
    match a
    case DoTick(_, t, cq) => TickPlans(n, t, cq);
    case Deliver(m) => DeliverPlans(n, m);
    case DoPropose(_, data) => AdvancePlans(AppendLocal(n, data));
    case DoRead(_, ctx) => AdvancePlans(BroadcastAppend(Register(n, ctx)));
    case _ =>
  }

  lemma {:induction false} AlwaysPlans(V: set<NodeId>, keepRound: bool, acts: seq<Action>, st: seq<Sys>, i: nat, p: NodeId)
    requires Run(V, keepRound, acts, st) && i < |st| && p in V
    ensures p in st[i].nodes && Plans(st[i].nodes[p])
  {
    if i > 0 {
      AlwaysPlans(V, keepRound, acts, st, i - 1, p);
      assert Moves(keepRound, acts, st, i - 1);
      ActionPlans(st[i - 1].nodes[p], acts[i - 1], keepRound);
    }
  }

  lemma LeaderInOffice(V: set<NodeId>, h: Hist, s: Sys, p: NodeId)
    requires Inv(V, s, h) && p in V && s.nodes[p].role == Leader && Plans(s.nodes[p])
    ensures InOffice(s.nodes[p]) && GoodLog(h.past, s.nodes[p].log)
  {
    assert PeerOk(V, h, s, p);
    var l := s.nodes[p];
    forall v | v in l.voters ensures v in l.next && MatchOf(l, v) <= |l.log| {
      if MatchOf(l, v) > 0 { assert AckOk(h.past, v, l.term, MatchOf(l, v)); }
    }
  }

  lemma NodeFacts(V: set<NodeId>, h: Hist, s: Sys, q: NodeId, f: Node)
    requires Inv(V, s, h) && q in V && f == s.nodes[q]
    ensures f.id == q && f.voters == V && GoodLog(h.past, f.log)
  {
    assert PeerOk(V, h, s, q);
  }

  lemma StateRepairs(V: set<NodeId>, h: Hist, s: Sys, p: NodeId, q: NodeId, l: Node, f: Node, checkQuorum: bool) returns (k: Node, g: Node)
    requires Inv(V, s, h) && p in V && q in V && p != q && l == s.nodes[p] && f == s.nodes[q]
    requires l.role == Leader && f.term <= l.term && Plans(l)
    ensures Serves(l, f, checkQuorum, k, g) && StillLeads(l, k) && MatchOf(k, q) == |l.log| && Agree(g.log, l.log, |l.log|)
  {
    NodeFacts(V, h, s, p, l);
    NodeFacts(V, h, s, q, f);
    LeaderInOffice(V, h, s, p);
    var m, n;
    m, n, k, g := HeartbeatRepairs(h.past, l, f, checkQuorum);
    assert Serves(l, f, checkQuorum, k, g);
    LeadsOn(l, f, k, g);
  }

  /** In any state of any run, a leader whose heartbeat reaches a follower of no later term, and goes on being answered, has
      that follower's log repaired within one round more than it has entries. */
  lemma RunRepairs(V: set<NodeId>, keepRound: bool, acts: seq<Action>, st: seq<Sys>, i: nat, p: NodeId, q: NodeId, checkQuorum: bool)
      returns (k: Node, g: Node)
    requires Run(V, keepRound, acts, st) && i < |st| && p in V && q in V && p != q && p in st[i].nodes && q in st[i].nodes
    requires st[i].nodes[p].role == Leader && st[i].nodes[q].term <= st[i].nodes[p].term
    ensures var l := st[i].nodes[p];
      && Serves(l, st[i].nodes[q], checkQuorum, k, g) && StillLeads(l, k) && MatchOf(k, q) == |l.log|
      && |l.log| <= |g.log| && g.log[..|l.log|] == l.log
  {
    var hs := Chronicles(V, keepRound, acts, st);
    ChronicleAt(V, acts, st, hs, i);
    AlwaysPlans(V, keepRound, acts, st, i, p);
    k, g := StateRepairs(V, hs[i], st[i], p, q, st[i].nodes[p], st[i].nodes[q], checkQuorum);
  }
}
