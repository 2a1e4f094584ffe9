/** Snapshots between nodes (raft/src/node.rs, `send_snapshot`, `handle_install_snapshot` and its answer), on top of the
    group of `RaftSystem`. Installing replaces the follower's log by the snapshot, whatever the log held beyond it.
    `guarded` is the rule the code lacks: a log that holds the snapshot's last entry at its term is kept. With it every
    run is safe. */
module RaftInstall {
  import opened Basics
  import opened RaftNode
  import opened RaftHistory
  import opened RaftSteps
  import opened RaftOps
  import opened RaftSystem

  /** A snapshot stands for the entries it covers; its state is what they produce. */
  datatype Snap = Snap(from: NodeId, to: NodeId, term: Term, prefix: Log)
  datatype SnapResp = SnapResp(from: NodeId, to: NodeId, term: Term, index: nat)

  datatype Group = Group(core: Sys, snaps: set<Snap>, resps: set<SnapResp>)

  datatype Input =
    | Plain(a: Action)
    | SendSnap(p: NodeId, to: NodeId, upTo: nat)
    | DeliverSnap(m: Snap)
    | DeliverResp(r: SnapResp)

  // ---- the handlers ----------------------------------------------------------------

  predicate HoldsLast(log: Log, prefix: Log) { prefix != [] && TermAt(log, |prefix|) == Some(LastTerm(prefix)) }

  function Adopted(n: Node, term: Term, leader: Option<NodeId>): Node {
    if term > n.term then BecomeFollower(n, term, leader) else n
  }

  /** The node after a snapshot of its term or later. */
  function Installed(n: Node, prefix: Log, guarded: bool): Node {
    if |prefix| <= n.commit then n
    else
      n.(log := if guarded && HoldsLast(n.log, prefix) then n.log else prefix, commit := |prefix|, applied := |prefix|)
  }

  function Install(n: Node, m: Snap, guarded: bool): Node {
    var a := Adopted(n, m.term, Some(m.from));
    if m.term < a.term then a else Installed(Follow(a, m.from), m.prefix, guarded)
  }

  /** What it answers: nothing held for an older leader, else its commit index. */
  function Answer(n: Node, m: Snap, guarded: bool): SnapResp {
    var a := Install(n, m, guarded);
    SnapResp(m.to, m.from, a.term, if m.term < a.term then 0 else a.commit)
  }

  function Answered(n: Node, r: SnapResp): Node {
    var a := Adopted(n, r.term, None);
    if a.role != Leader || r.term != a.term then a
    else MaybeAdvanceCommit(NoteMatch(a.(recent := a.recent + {r.from}), r.from, r.index))
  }

  /** The state machine is loaded from an installed snapshot. */
  function Loaded(n: Node, emitted: Log, m: Snap): Log {
    var a := Adopted(n, m.term, Some(m.from));
    if m.term < a.term || |m.prefix| <= a.commit then emitted else m.prefix
  }

  /** A snapshot that reaches past what a node of no later term has committed brings it that far, whatever it had, and it says
      so; one that does not changes nothing but whom it follows. */
  lemma SnapshotCatchesUp(n: Node, m: Snap, guarded: bool, k: Node, r: SnapResp)
    requires m.term >= n.term && m.to == n.id && m.prefix != [] && k == Install(n, m, guarded) && r == Answer(n, m, guarded)
    ensures k.role == Follower && k.term == m.term && k.leader == Some(m.from) && r == SnapResp(n.id, m.from, m.term, k.commit)
    ensures |m.prefix| > n.commit ==> k.commit == |m.prefix| == k.applied && (!guarded ==> k.log == m.prefix) && HoldsLast(k.log, m.prefix)
    ensures |m.prefix| <= n.commit ==> k.commit == n.commit && k.log == n.log && k.applied == n.applied
  {
    var a := Follow(Adopted(n, m.term, Some(m.from)), m.from);
    assert a.commit == n.commit && a.log == n.log && a.applied == n.applied && a.term == m.term && a.leader == Some(m.from);
    assert k == Installed(a, m.prefix, guarded);
  }

  /** And a leader that is told goes on from there. */
  lemma AnswerGoesOn(l: Node, r: SnapResp)
    requires l.role == Leader && r.term == l.term && r.to == l.id
    ensures var k := Answered(l, r);
      && r.from in k.recent && r.from in k.next && k.next[r.from] == MatchOf(k, r.from) + 1
      && MatchOf(k, r.from) == RaftNode.Max(r.index, MatchOf(l, r.from))
  {
    var d := NoteMatch(l.(recent := l.recent + {r.from}), r.from, r.index);
    MaybeAdvanceFrame(d);
    KeepsPlans(d);
  }

  lemma KeepsPlans(d: Node)
    ensures MaybeAdvanceCommit(d).next == d.next && MaybeAdvanceCommit(d).recent == d.recent
  {
  }

  // ---- the group -----------------------------------------------------------------------

  function Start(V: set<NodeId>): Group { Group(Init(V), {}, {}) }

  /** A leader may send a snapshot of anything it has applied; the code does so to a peer behind its compacted log. */
  predicate Ready(s: Group, i: Input) {
    match i
    case Plain(a) => Enabled(s.core, a)
    case SendSnap(p, to, k) =>
      && p in s.core.nodes && to in s.core.nodes && s.core.nodes[p].role == Leader
      && 1 <= k <= s.core.nodes[p].applied <= |s.core.nodes[p].log|
    case DeliverSnap(m) => m in s.snaps && m.to in s.core.nodes && m.to in s.core.emitted
    case DeliverResp(r) => r in s.resps && r.to in s.core.nodes && r.to in s.core.emitted
  }

  /** Node `p` becomes `n`, having emitted `out`. */
  function Put(s: Sys, p: NodeId, n: Node, out: Log): Sys {
    Sys(s.nodes[p := n.(outbox := {})], s.net + n.outbox, s.emitted[p := out])
  }

  function Take(s: Group, i: Input, keepRound: bool, guarded: bool): Group
    requires Ready(s, i)
  {
    match i
    case Plain(a) => s.(core := Do(s.core, a, keepRound))
    case SendSnap(p, to, k) => var n := s.core.nodes[p]; s.(snaps := s.snaps + {Snap(p, to, n.term, n.log[..k])})
    case DeliverSnap(m) =>
      var n := s.core.nodes[m.to];
      Group(Put(s.core, m.to, Install(n, m, guarded), Loaded(n, s.core.emitted[m.to], m)), s.snaps, s.resps + {Answer(n, m, guarded)})
    case DeliverResp(r) => s.(core := Put(s.core, r.to, Answered(s.core.nodes[r.to], r), s.core.emitted[r.to]))
  }

  ghost predicate Goes(keepRound: bool, guarded: bool, ins: seq<Input>, st: seq<Group>, i: nat)
    requires i < |ins| && i + 1 < |st|
  {
    Ready(st[i], ins[i]) && st[i + 1] == Take(st[i], ins[i], keepRound, guarded)
  }

  ghost predicate GroupRun(V: set<NodeId>, keepRound: bool, guarded: bool, ins: seq<Input>, st: seq<Group>) {
    && |st| == |ins| + 1
    && st[0] == Start(V)
    && forall i: nat {:trigger Goes(keepRound, guarded, ins, st, i)} | i < |ins| :: Goes(keepRound, guarded, ins, st, i)
  }

  // ---- the invariant ---------------------------------------------------------------------

  /** A snapshot is a committed prefix of its sender's log. */
  ghost predicate SnapOk(V: set<NodeId>, h: Past, m: Snap) {
    && m.from in V && m.to in V && m.prefix != []
    && m.term in h.reigns && h.reigns[m.term].leader == m.from
    && Agree(m.prefix, h.reigns[m.term].log, |m.prefix|)
    && Settled(h, m.prefix, |m.prefix|, m.term)
  }

  ghost predicate RespOk(V: set<NodeId>, h: Past, r: SnapResp) {
    r.from in V && r.to in V && (r.index > 0 ==> (r.from, r.term, r.index) in h.acks)
  }

  ghost predicate GroupInv(V: set<NodeId>, s: Group, h: Hist) {
    && Inv(V, s.core, h)
    && (forall m {:trigger SnapOk(V, h.past, m)} | m in s.snaps :: SnapOk(V, h.past, m))
    && (forall r {:trigger RespOk(V, h.past, r)} | r in s.resps :: RespOk(V, h.past, r))
  }

  lemma SnapGrows(V: set<NodeId>, h: Past, g: Past, m: Snap)
    requires SnapOk(V, h, m) && PastGrows(h, g)
    ensures SnapOk(V, g, m)
  {
    SettledGrows(h, g, m.prefix, |m.prefix|, m.term);
  }

  /** What is on its way stays right as the history grows. */
  lemma MailGrows(V: set<NodeId>, s: Group, h: Hist, g: Hist, core: Sys, snaps: set<Snap>, resps: set<SnapResp>)
    requires GroupInv(V, s, h) && Grows(h, g) && Inv(V, core, g)
    requires forall m | m in snaps && m !in s.snaps :: SnapOk(V, g.past, m)
    requires forall r | r in resps && r !in s.resps :: RespOk(V, g.past, r)
    ensures GroupInv(V, Group(core, snaps, resps), g)
  {
    forall m | m in snaps ensures SnapOk(V, g.past, m) {
      if m in s.snaps { assert SnapOk(V, h.past, m); SnapGrows(V, h.past, g.past, m); }
    }
    forall r | r in resps ensures RespOk(V, g.past, r) {
      if r in s.resps { assert RespOk(V, h.past, r); }
    }
  }

  // ---- sending -----------------------------------------------------------------------------

  lemma SettledPart(h: Past, log: Log, c: nat, t: Term, k: nat)
    requires Settled(h, log, c, t) && 1 <= k <= c
    ensures Settled(h, log[..k], k, t)
  {
    var t0, j :| (t0, j) in h.commits && SettledBy(h, log, c, t, t0, j);
    assert SettledBy(h, log[..k], k, t, t0, j);
  }

  lemma SendStep(V: set<NodeId>, s: Group, h: Hist, p: NodeId, to: NodeId, k: nat)
    requires GroupInv(V, s, h) && Ready(s, SendSnap(p, to, k))
    ensures GroupInv(V, Take(s, SendSnap(p, to, k), false, false), h)
  {
    assert PeerOk(V, h, s.core, p);
    var n := s.core.nodes[p];
    SettledPart(h.past, n.log, n.commit, n.term, k);
    MailGrows(V, s, h, h, s.core, s.snaps + {Snap(p, to, n.term, n.log[..k])}, s.resps);
  }

  // ---- installing ------------------------------------------------------------------------------

  lemma AdoptedStep(V: set<NodeId>, h: Hist, p: NodeId, n: Node, term: Term, leader: Option<NodeId>)
    requires Good(V, h, p, n)
    ensures Carries(V, h, h, p, Adopted(n, term, leader)) && term <= Adopted(n, term, leader).term
  {
    Idle(V, h, p, n);
    if term > n.term { FollowerStep(V, h, p, n, term, leader); }
  }

  lemma LastShared(log: Log, prefix: Log, leader: Log, c: nat)
    requires prefix != [] && Agree(prefix, leader, |prefix|) && Agree(log, leader, c) && c >= |prefix|
    ensures HoldsLast(log, prefix)
  {
    var k := |prefix| - 1;
    assert log[k] == leader[k] && prefix[k] == leader[k];
  }

  /** Under the guard, whatever the follower shares with the leader it still has. */
  lemma GuardKeeps(h: Past, log: Log, prefix: Log, leader: Log, out: Log)
    requires GoodLog(h, log) && GoodLog(h, leader) && prefix != [] && Agree(prefix, leader, |prefix|)
    requires out == if HoldsLast(log, prefix) then log else prefix
    ensures Agree(out, prefix, |prefix|) && forall c: nat | Agree(log, leader, c) :: Agree(out, log, c)
  {
    var k: nat := |prefix| - 1;
    if HoldsLast(log, prefix) {
      LogsMatch(h, log, leader, k);
    } else {
      forall c: nat | Agree(log, leader, c) ensures Agree(out, log, c) {
        if c > k { LastShared(log, prefix, leader, c); }
      }
    }
  }

  lemma InstalledCore(V: set<NodeId>, h: Past, p: NodeId, n: Node, m: Snap, out: Node)
    requires PastOk(V, h) && CoreOk(h, p, n) && n.role == Follower && SnapOk(V, h, m) && m.term == n.term
    requires |m.prefix| > n.commit && out == Installed(n, m.prefix, true)
    ensures CoreOk(h, p, out) && Agree(out.log, h.reigns[n.term].log, |m.prefix|) && Agree(m.prefix, out.log, |m.prefix|)
  {
    var leader := h.reigns[n.term].log;
    ReignLogGood(V, h, n.term);
    GuardKeeps(h, n.log, m.prefix, leader, out.log);
    if out.log != n.log { PrefixOfGoodIsGood(V, h, n.term, out.log); }
    SpliceAcks(V, h, p, n, out.log);
    SettledMoves(h, m.prefix, out.log, |m.prefix|, n.term);
  }

  lemma InstalledStep(V: set<NodeId>, h: Hist, p: NodeId, n: Node, m: Snap, out: Node) returns (g: Hist)
    requires Good(V, h, p, n) && n.role == Follower && SnapOk(V, h.past, m) && m.term == n.term && out == Installed(n, m.prefix, true)
    ensures Carries(V, h, g, p, out) && (p, out.term, out.commit) in g.past.acks
    ensures |m.prefix| > n.commit ==> Agree(m.prefix, out.log, |m.prefix|)
  {
    if |m.prefix| <= n.commit {
      SettledInReign(V, h.past, n.log, n.commit, n.term, n.term);
      g := AckStep(V, h, p, n, n.commit);
    } else {
      InstalledCore(V, h.past, p, n, m, out);
      CoreStays(V, h, p, n, out);
      g := AckStep(V, h, p, out, |m.prefix|);
    }
  }

  lemma InstallShape(n: Node, m: Snap, a: Node)
    requires a == Adopted(n, m.term, Some(m.from))
    ensures a.applied == n.applied && a.log == n.log && a.commit == n.commit
    ensures m.term < a.term ==> Install(n, m, true) == a
    ensures m.term >= a.term ==> Install(n, m, true) == Installed(Follow(a, m.from), m.prefix, true)
  {
  }

  lemma InstallStep(V: set<NodeId>, h: Hist, p: NodeId, n: Node, m: Snap, out: Node) returns (g: Hist)
    requires Good(V, h, p, n) && SnapOk(V, h.past, m) && m.to == p && out == Install(n, m, true)
    ensures Carries(V, h, g, p, out) && (m.term >= out.term ==> (p, out.term, out.commit) in g.past.acks)
    ensures m.term >= out.term && |m.prefix| > n.commit ==> Agree(m.prefix, out.log, |m.prefix|)
  {
    var a := Adopted(n, m.term, Some(m.from));
    InstallShape(n, m, a);
    AdoptedStep(V, h, p, n, m.term, Some(m.from));
    g := h;
    if m.term >= a.term {
      QuietStep(V, h, p, a, Follow(a, m.from));
      g := InstalledStep(V, h, p, Follow(a, m.from), m, out);
    }
  }

  /** What was loaded or applied is the log up to the applied index. */
  lemma LoadedFits(n: Node, m: Snap, emitted: Log, out: Node)
    requires |emitted| == n.applied && Agree(emitted, n.log, n.applied) && out == Install(n, m, true)
    requires m.term >= out.term && |m.prefix| > n.commit ==> Agree(m.prefix, out.log, |m.prefix|)
    ensures |Loaded(n, emitted, m)| == out.applied && Agree(Loaded(n, emitted, m), out.log, out.applied)
  {
    InstallShape(n, m, Adopted(n, m.term, Some(m.from)));
  }

  lemma SnapCore(V: set<NodeId>, s: Sys, h: Hist, m: Snap, n: Node, emitted: Log, core: Sys) returns (g: Hist)
    requires Inv(V, s, h) && SnapOk(V, h.past, m) && m.to in s.nodes && m.to in s.emitted && n == s.nodes[m.to] && emitted == s.emitted[m.to]
    requires core == Put(s, m.to, Install(n, m, true), Loaded(n, emitted, m))
    ensures Inv(V, core, g) && Grows(h, g) && RespOk(V, g.past, Answer(n, m, true))
  {
    assert PeerOk(V, h, s, m.to);
    g := InstallStep(V, h, m.to, n, m, Install(n, m, true));
    LoadedFits(n, m, emitted, Install(n, m, true));
    UpdateInv(V, s, h, g, m.to, Install(n, m, true), Loaded(n, emitted, m), core);
  }

  lemma SnapStep(V: set<NodeId>, s: Group, h: Hist, m: Snap, n: Node, core: Sys) returns (g: Hist)
    requires GroupInv(V, s, h) && Ready(s, DeliverSnap(m)) && n == s.core.nodes[m.to]
    requires core == Put(s.core, m.to, Install(n, m, true), Loaded(n, s.core.emitted[m.to], m))
    ensures GroupInv(V, Group(core, s.snaps, s.resps + {Answer(n, m, true)}), g) && Grows(h, g)
  {
    assert SnapOk(V, h.past, m);
    g := SnapCore(V, s.core, h, m, n, s.core.emitted[m.to], core);
    MailGrows(V, s, h, g, core, s.snaps, s.resps + {Answer(n, m, true)});
  }

  // ---- the answer ---------------------------------------------------------------------------------

  lemma NoteNothing(V: set<NodeId>, h: Hist, p: NodeId, n: Node, from: NodeId)
    requires Good(V, h, p, n) && n.role == Leader
    ensures Carries(V, h, h, p, NoteMatch(n, from, 0))
  {
    var m := NoteMatch(n, from, 0);
    if MatchOf(n, from) > 0 { assert AckOk(h.past, from, n.term, MatchOf(n, from)); }
    CoreStays(V, h, p, n, m);
  }

  lemma CountedStep(V: set<NodeId>, h: Hist, p: NodeId, n: Node, r: SnapResp) returns (g: Hist)
    requires Good(V, h, p, n) && n.role == Leader && RespOk(V, h.past, r) && r.term == n.term
    ensures Carries(V, h, g, p, MaybeAdvanceCommit(NoteMatch(n, r.from, r.index)))
  {
    if r.index == 0 { NoteNothing(V, h, p, n, r.from); } else { NoteMatchStep(V, h, p, n, r.from, r.index); }
    g := MaybeAdvanceStep(V, h, p, NoteMatch(n, r.from, r.index));
  }

  lemma AnsweredStep(V: set<NodeId>, h: Hist, p: NodeId, n: Node, r: SnapResp, out: Node) returns (g: Hist)
    requires Good(V, h, p, n) && RespOk(V, h.past, r) && out == Answered(n, r)
    ensures Carries(V, h, g, p, out)
  {
    var a := Adopted(n, r.term, None);
    AdoptedStep(V, h, p, n, r.term, None);
    g := h;
    if a.role == Leader && r.term == a.term {
      var b := a.(recent := a.recent + {r.from});
      QuietStep(V, h, p, a, b);
      g := CountedStep(V, h, p, b, r);
    }
  }

  lemma AnsweredKeeps(n: Node, r: SnapResp)
    ensures Answered(n, r).applied == n.applied && Answered(n, r).log == n.log
  {
    var a := Adopted(n, r.term, None);
    var b := NoteMatch(a.(recent := a.recent + {r.from}), r.from, r.index);
    MaybeAdvanceApplied(b);
    MaybeAdvanceFrame(b);
  }

  lemma RespStep(V: set<NodeId>, s: Group, h: Hist, r: SnapResp, keepRound: bool, guarded: bool) returns (g: Hist)
    requires GroupInv(V, s, h) && Ready(s, DeliverResp(r))
    ensures GroupInv(V, Take(s, DeliverResp(r), keepRound, guarded), g) && Grows(h, g)
  {
    var p := r.to;
    var n := s.core.nodes[p];
    assert PeerOk(V, h, s.core, p) && RespOk(V, h.past, r);
    g := AnsweredStep(V, h, p, n, r, Answered(n, r));
    AnsweredKeeps(n, r);
    var core := Put(s.core, p, Answered(n, r), s.core.emitted[p]);
    UpdateInv(V, s.core, h, g, p, Answered(n, r), s.core.emitted[p], core);
    MailGrows(V, s, h, g, core, s.snaps, s.resps);
  }

  /** Every input of a guarded group keeps the invariant. */
  lemma GuardedStep(V: set<NodeId>, s: Group, h: Hist, i: Input, keepRound: bool) returns (g: Hist)
    requires GroupInv(V, s, h) && Ready(s, i)
    ensures GroupInv(V, Take(s, i, keepRound, true), g) && Grows(h, g)
  {
    match i
    case Plain(a) =>
      g := StepInv(V, s.core, h, a, keepRound);
      MailGrows(V, s, h, g, Do(s.core, a, keepRound), s.snaps, s.resps);
    case SendSnap(p, to, k) =>
      g := h;
      SendStep(V, s, h, p, to, k);
    case DeliverSnap(m) =>
      var n := s.core.nodes[m.to];
      g := SnapStep(V, s, h, m, n, Put(s.core, m.to, Install(n, m, true), Loaded(n, s.core.emitted[m.to], m)));
    case DeliverResp(r) => g := RespStep(V, s, h, r, keepRound, true);
  }

  // ---- runs --------------------------------------------------------------------------------------------

  /** What a later history still says of a node as it was. */
  ghost predicate SeenOk(h: Past, p: NodeId, n: Node, emitted: Log) {
    && Settled(h, n.log, n.commit, n.term) && n.applied <= n.commit && |emitted| == n.applied && Agree(emitted, n.log, n.applied)
    && GoodLog(h, n.log)
    && (n.role == Leader ==>
          && n.term in h.reigns && h.reigns[n.term].leader == p
          && Agree(h.reigns[n.term].start, n.log, |h.reigns[n.term].start|))
  }

  ghost predicate StateSeen(V: set<NodeId>, h: Past, s: Group) {
    && s.core.nodes.Keys == V && s.core.emitted.Keys == V
    && forall p {:trigger s.core.nodes[p]} | p in V :: SeenOk(h, p, s.core.nodes[p], s.core.emitted[p])
  }

  lemma SeenGrows(V: set<NodeId>, h: Past, g: Past, s: Group)
    requires StateSeen(V, h, s) && PastGrows(h, g)
    ensures StateSeen(V, g, s)
  {
    forall p | p in V ensures SeenOk(g, p, s.core.nodes[p], s.core.emitted[p]) {
      var n := s.core.nodes[p];
      assert SeenOk(h, p, n, s.core.emitted[p]);
      GoodLogGrows(h, g, n.log);
      SettledGrows(h, g, n.log, n.commit, n.term);
    }
  }

  lemma SeenNow(V: set<NodeId>, h: Hist, s: Group)
    requires GroupInv(V, s, h)
    ensures StateSeen(V, h.past, s)
  {
    forall p | p in V ensures SeenOk(h.past, p, s.core.nodes[p], s.core.emitted[p]) {
      assert PeerOk(V, h, s.core, p);
      if s.core.nodes[p].role == Leader { ReignFacts(V, h.past, s.core.nodes[p].term); }
    }
  }

  lemma StartInv(V: set<NodeId>)
    ensures GroupInv(V, Start(V), NoHist) && AllSeen(V, NoHist.past, [Start(V)])
  {
    InitInv(V);
    SeenNow(V, NoHist, Start(V));
  }

  ghost predicate AllSeen(V: set<NodeId>, h: Past, st: seq<Group>) { forall s | s in st :: StateSeen(V, h, s) }

  lemma LastInput(V: set<NodeId>, keepRound: bool, guarded: bool, ins: seq<Input>, st: seq<Group>, k: nat)
    requires GroupRun(V, keepRound, guarded, ins, st) && |ins| == k + 1
    ensures Ready(st[k], ins[k]) && st[k + 1] == Take(st[k], ins[k], keepRound, guarded) && st == st[..k + 1] + [st[k + 1]]
  {
    assert Goes(keepRound, guarded, ins, st, k);
  }

  lemma GroupRunPrefix(V: set<NodeId>, keepRound: bool, guarded: bool, ins: seq<Input>, st: seq<Group>, k: nat)
    requires GroupRun(V, keepRound, guarded, ins, st) && k <= |ins|
    ensures GroupRun(V, keepRound, guarded, ins[..k], st[..k + 1])
  {
    var ins', st' := ins[..k], st[..k + 1];
    forall i: nat | i < k ensures Goes(keepRound, guarded, ins', st', i) { assert Goes(keepRound, guarded, ins, st, i); }
  }

  lemma HistoryGrows(V: set<NodeId>, keepRound: bool, before: seq<Group>, s: Group, f: Hist, i: Input, z: Group) returns (h: Hist)
    requires GroupInv(V, s, f) && AllSeen(V, f.past, before) && Ready(s, i) && z == Take(s, i, keepRound, true)
    ensures GroupInv(V, z, h) && AllSeen(V, h.past, before + [z])
  {
    h := GuardedStep(V, s, f, i, keepRound);
    SeenNow(V, h, z);
    SeenOn(V, f.past, h.past, before, z);
  }

  lemma SeenOn(V: set<NodeId>, f: Past, h: Past, before: seq<Group>, z: Group)
    requires AllSeen(V, f, before) && StateSeen(V, h, z) && PastGrows(f, h)
    ensures AllSeen(V, h, before + [z])
  {
    forall x | x in before ensures StateSeen(V, h, x) { SeenGrows(V, f, h, x); }
  }

  lemma GroupRunExtends(V: set<NodeId>, keepRound: bool, guarded: bool, ins: seq<Input>, st: seq<Group>, i: Input, z: Group)
    requires GroupRun(V, keepRound, guarded, ins, st) && Ready(st[|ins|], i) && z == Take(st[|ins|], i, keepRound, guarded)
    ensures GroupRun(V, keepRound, guarded, ins + [i], st + [z])
  {
    var ins', st' := ins + [i], st + [z];
    forall k: nat | k < |ins'| ensures Goes(keepRound, guarded, ins', st', k) {
      if k < |ins| { assert Goes(keepRound, guarded, ins, st, k); }
    }
  }

  /** One history accounts for every state of a guarded run. */
  lemma {:induction false} GuardedHistory(V: set<NodeId>, keepRound: bool, ins: seq<Input>, st: seq<Group>) returns (h: Hist)
    requires GroupRun(V, keepRound, true, ins, st)
    ensures GroupInv(V, st[|ins|], h) && AllSeen(V, h.past, st)
    decreases |ins|
  {
    if ins == [] {
      StartInv(V);
      h := NoHist;
      assert st == [Start(V)];
    } else {
      var k := |ins| - 1;
      var before := st[..k + 1];
      GroupRunPrefix(V, keepRound, true, ins, st, k);
      LastInput(V, keepRound, true, ins, st, k);
      var f := GuardedHistory(V, keepRound, ins[..k], before);
      h := HistoryGrows(V, keepRound, before, before[k], f, ins[k], st[k + 1]);
    }
  }

  // ---- safety ---------------------------------------------------------------------------------------------

  /** Two nodes, at two times: a leader holds what was committed before its term, both agree on what both committed, and
      what they loaded and applied is a prefix one of the other. */
  ghost predicate SafeTogether(a: Node, x: Log, b: Node, y: Log) {
    && a.commit <= |a.log| && b.commit <= |b.log|
    && (b.role == Leader && a.term < b.term ==> a.log[..a.commit] <= b.log)
    && (forall k: nat | k < a.commit && k < b.commit :: a.log[k] == b.log[k])
    && (x <= y || y <= x)
  }

  ghost predicate SafeAt(st: seq<Group>, i: nat, j: nat, p: NodeId, q: NodeId) {
    i < |st| && j < |st| && p in st[i].core.nodes && p in st[i].core.emitted && q in st[j].core.nodes && q in st[j].core.emitted ==>
      SafeTogether(st[i].core.nodes[p], st[i].core.emitted[p], st[j].core.nodes[q], st[j].core.emitted[q])
  }

  lemma SeenSafe(V: set<NodeId>, h: Past, p: NodeId, a: Node, x: Log, q: NodeId, b: Node, y: Log)
    requires PastOk(V, h) && SeenOk(h, p, a, x) && SeenOk(h, q, b, y)
    ensures SafeTogether(a, x, b, y)
  {
    SettledAgree(V, h, a.log, a.commit, a.term, b.log, b.commit, b.term);
    if b.role == Leader && a.term < b.term { CommittedInLater(V, h, a.log, a.commit, a.term, b.log, b.term); }
    StreamsAgree(V, h, a, x, b, y);
  }

  lemma GuardedIsSafe(V: set<NodeId>, keepRound: bool, ins: seq<Input>, st: seq<Group>, i: nat, j: nat, p: NodeId, q: NodeId)
    requires GroupRun(V, keepRound, true, ins, st)
    ensures SafeAt(st, i, j, p, q)
  {
    var h := GuardedHistory(V, keepRound, ins, st);
    if i < |st| && j < |st| && p in st[i].core.nodes && q in st[j].core.nodes {
      assert StateSeen(V, h.past, st[i]) && StateSeen(V, h.past, st[j]);
      var s, t := st[i].core, st[j].core;
      SeenSafe(V, h.past, p, s.nodes[p], s.emitted[p], q, t.nodes[q], t.emitted[q]);
    }
  }
}
