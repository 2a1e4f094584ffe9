/** A Raft group: nodes and a network that may lose, duplicate and reorder, driven by any sequence of
    inputs, crashes and restarts. The safety theorems are about whole runs. */
module RaftSystem {
  import opened Basics
  import opened RaftNode
  import opened RaftHistory
  import opened RaftSteps
  import opened RaftOps

  datatype Action =
    | DoTick(p: NodeId, timers: Timers, checkQuorum: bool)
    | Deliver(m: Message)
    | DoPropose(p: NodeId, data: Bytes)
    | DoRead(p: NodeId, ctx: nat)
    | DoTransfer(p: NodeId, target: NodeId)
    | DoTakeCommitted(p: NodeId)
    | DoTakeReads(p: NodeId)
    | Crash(p: NodeId)
    | CrashIn(m: Message, upTo: nat)

  /** `net` holds every message ever sent: a message may be delivered late, twice or never.
      `emitted` is what each node's current incarnation has handed to its state machine. */
  datatype Sys = Sys(nodes: map<NodeId, Node>, net: set<Message>, emitted: map<NodeId, Log>)

  function Init(V: set<NodeId>): Sys {
    Sys(map p | p in V :: Fresh(p, V), {}, map p | p in V :: [])
  }

  function Actor(a: Action): NodeId {
    match a
    case Deliver(m) => m.to
    case CrashIn(m, _) => m.to
    case _ => a.p
  }

  predicate IsCrash(a: Action) { a.Crash? || a.CrashIn? }

  predicate Enabled(s: Sys, a: Action) {
    && Actor(a) in s.nodes && Actor(a) in s.emitted
    && (a.Deliver? || a.CrashIn? ==> a.m in s.net)
  }

  function NodeAfter(n: Node, a: Action, keepRound: bool): Node {
    match a
    case DoTick(_, t, cq) => Tick(n, t, cq)
    case Deliver(m) => Step(n, m)
    case DoPropose(_, data) => Propose(n, data)
    case DoRead(_, ctx) => ReadIndex(n, ctx)
    case DoTransfer(_, target) => TransferLeadership(n, target)
    case DoTakeCommitted(_) => TakeCommitted(n)
    case DoTakeReads(_) => TakeReads(n)
    case Crash(_) => Restart(n, keepRound)
    case CrashIn(m, upTo) => CrashMidway(n, m, upTo, keepRound)
  }

  /** What a node has emitted after an input. */
  function EmittedAfter(n: Node, emitted: Log, a: Action): Log {
    if IsCrash(a) then [] else if a.DoTakeCommitted? then emitted + NewlyCommitted(n) else emitted
  }

  function Do(s: Sys, a: Action, keepRound: bool): Sys
    requires Enabled(s, a)
  {
    var p := Actor(a);
    var n := NodeAfter(s.nodes[p], a, keepRound);
    Sys(s.nodes[p := n.(outbox := {})], s.net + n.outbox, s.emitted[p := EmittedAfter(s.nodes[p], s.emitted[p], a)])
  }

  ghost predicate Run(V: set<NodeId>, keepRound: bool, acts: seq<Action>, st: seq<Sys>) {
    && |st| == |acts| + 1
    && st[0] == Init(V)
    && forall i: nat {:trigger Moves(keepRound, acts, st, i)} | i < |acts| :: Moves(keepRound, acts, st, i)
  }

  ghost predicate Moves(keepRound: bool, acts: seq<Action>, st: seq<Sys>, i: nat)
    requires i < |acts| && i + 1 < |st|
  {
    Enabled(st[i], acts[i]) && st[i + 1] == Do(st[i], acts[i], keepRound)
  }

  // ---- the invariant of the whole group ----------------------------------------

  ghost predicate PeerOk(V: set<NodeId>, h: Hist, s: Sys, p: NodeId)
    requires p in s.nodes && p in s.emitted
  {
    && NodeOk(V, h, p, s.nodes[p])
    && s.nodes[p].outbox == {}
    && |s.emitted[p]| == s.nodes[p].applied
    && Agree(s.emitted[p], s.nodes[p].log, s.nodes[p].applied)
  }

  ghost predicate Inv(V: set<NodeId>, s: Sys, h: Hist) {
    && s.nodes.Keys == V && s.emitted.Keys == V && s.net == h.sent
    && HistOk(V, h) && MsgsOk(V, h)
    && (forall p {:trigger PeerOk(V, h, s, p)} | p in V :: PeerOk(V, h, s, p))
  }

  const NoHist: Hist := Hist(Past(map[], map[], map[], {}, map[]), {}, map[])

  lemma InitInv(V: set<NodeId>)
    ensures Inv(V, Init(V), NoHist)
  {
  }

  /** Taking what is ready and going down add nothing to the history. */
  predicate IsSilent(a: Action) { a.DoTakeCommitted? || a.DoTakeReads? || IsCrash(a) }

  lemma SilentStep(V: set<NodeId>, h: Hist, n: Node, a: Action, keepRound: bool)
    requires IsSilent(a) && Good(V, h, Actor(a), n) && (a.CrashIn? ==> a.m in h.sent)
    ensures Carries(V, h, h, Actor(a), NodeAfter(n, a, keepRound))
  {
    var p := Actor(a);
    match a
    case DoTakeCommitted(_) => QuietStep(V, h, p, n, TakeCommitted(n));
    case DoTakeReads(_) => QuietStep(V, h, p, n, TakeReads(n));
    case Crash(_) => RestartStep(V, h, p, n, keepRound);
    case CrashIn(m, upTo) => CrashMidwayStep(V, h, p, n, m, upTo, keepRound);
  }

  lemma DriverStep(V: set<NodeId>, h: Hist, n: Node, a: Action, out: Node) returns (g: Hist)
    requires (a.DoTick? || a.DoPropose? || a.DoTransfer?) && Good(V, h, Actor(a), n) && out == NodeAfter(n, a, true)
    ensures Carries(V, h, g, Actor(a), out)
  {
    match a
    case DoTick(p, t, cq) => g := TickStep(V, h, p, n, t, cq);
    case DoPropose(p, data) => g := ProposeStep(V, h, p, n, data);
    case DoTransfer(p, target) => g := TransferStep(V, h, p, n, target);
  }

  lemma NodeStep(V: set<NodeId>, h: Hist, n: Node, a: Action, keepRound: bool) returns (g: Hist)
    requires Good(V, h, Actor(a), n)
    requires a.Deliver? || a.CrashIn? ==> a.m in h.sent
    ensures Carries(V, h, g, Actor(a), NodeAfter(n, a, keepRound))
    ensures a.DoRead? && n.role == Leader ==> Grows(RegisterHist(h, n), g)
  {
    if IsSilent(a) {
      g := h;
      SilentStep(V, h, n, a, keepRound);
    } else if a.Deliver? {
      g := DeliverStep(V, h, a.m.to, n, a.m);
    } else if a.DoRead? {
      g := ReadIndexStep(V, h, a.p, n, a.ctx);
    } else {
      g := DriverStep(V, h, n, a, NodeAfter(n, a, keepRound));
    }
  }

  /** Within one incarnation the commit index never decreases. It rests on what appends promise: a
      leader never advertises a commit index beyond the entries it anchors. */
  lemma CommitNeverDrops(V: set<NodeId>, h: Hist, p: NodeId, n: Node, a: Action, keepRound: bool)
    requires Good(V, h, p, n) && !IsCrash(a) && (a.Deliver? ==> a.m in h.sent)
    ensures NodeAfter(n, a, keepRound).commit >= n.commit
  {
    if a.Deliver? {
      assert MsgOk(V, h, a.m);
      DeliveryKeepsCommit(n, a.m);
    } else {
      InputKeepsCommit(n, a, keepRound);
    }
  }

  lemma DeliveryKeepsCommit(n: Node, m: Message)
    requires m.body.Append? ==> m.body.leaderCommit <= m.body.prevIndex + |m.body.entries|
    ensures Step(n, m).commit >= n.commit
  {
    HandleKeepsCommit(AdoptTerm(n, m), m);
  }

  lemma InputKeepsCommit(n: Node, a: Action, keepRound: bool)
    requires !IsCrash(a) && !a.Deliver?
    ensures NodeAfter(n, a, keepRound).commit >= n.commit
  {
    if a.DoPropose? { MaybeAdvanceRaises(AppendLocal(n, a.data)); }
  }

  lemma MaybeAdvanceRaises(n: Node)
    ensures MaybeAdvanceCommit(n).commit >= n.commit
  {
    CommitScanFinds(n, |n.log|);
  }

  lemma HandleKeepsCommit(n: Node, m: Message)
    requires m.body.Append? ==> m.body.leaderCommit <= m.body.prevIndex + |m.body.entries|
    ensures Handle(n, m).commit >= n.commit
  {
    if m.body.AppendResp? {
      MaybeAdvanceRaises(NoteMatch(NoteAnswer(n, m.from, m.body.echo), m.from, m.body.matchIndex));
    }
  }

  /** What was committed stays where it was. */
  lemma CommittedStays(V: set<NodeId>, h: Hist, g: Hist, n: Node, n': Node)
    requires HistOk(V, g) && Grows(h, g) && n.commit <= n'.commit
    requires Settled(h.past, n.log, n.commit, n.term) && Settled(g.past, n'.log, n'.commit, n'.term)
    ensures Agree(n'.log, n.log, n.commit)
  {
    SettledGrows(h.past, g.past, n.log, n.commit, n.term);
    SettledAgree(V, g.past, n.log, n.commit, n.term, n'.log, n'.commit, n'.term);
  }

  lemma MaybeAdvanceApplied(n: Node)
    ensures MaybeAdvanceCommit(n).applied == n.applied
  {
  }

  lemma HandleKeepsApplied(n: Node, m: Message)
    ensures Handle(n, m).applied == n.applied
  {
    if m.body.AppendResp? {
      MaybeAdvanceApplied(NoteMatch(NoteAnswer(n, m.from, m.body.echo), m.from, m.body.matchIndex));
    }
  }

  lemma AppliedAfter(n: Node, a: Action, keepRound: bool)
    requires !IsCrash(a) && !a.DoTakeCommitted?
    ensures NodeAfter(n, a, keepRound).applied == n.applied
  {
    match a
    case Deliver(m) => HandleKeepsApplied(AdoptTerm(n, m), m);
    case DoPropose(_, data) => MaybeAdvanceApplied(AppendLocal(n, data));
    case _ =>
  }

  /** What an incarnation had committed is still in its log after a step. */
  lemma CommittedSurvives(V: set<NodeId>, h: Hist, g: Hist, p: NodeId, n: Node, n': Node, a: Action, keepRound: bool)
    requires Good(V, h, p, n) && (a.Deliver? ==> a.m in h.sent) && !IsCrash(a)
    requires n' == NodeAfter(n, a, keepRound) && Carries(V, h, g, p, n')
    ensures Agree(n'.log, n.log, n.commit)
  {
    CommitNeverDrops(V, h, p, n, a, keepRound);
    CommittedStays(V, h, g, n, n');
  }

  /** What a step does to the applied index and to what was taken. */
  lemma EmittedFollows(n: Node, n': Node, emitted: Log, a: Action)
    requires |emitted| == n.applied <= n.commit <= |n.log| && Agree(emitted, n.log, n.applied)
    requires IsCrash(a) ==> n'.applied == 0
    requires a.DoTakeCommitted? ==> n' == TakeCommitted(n)
    requires !IsCrash(a) && !a.DoTakeCommitted? ==> n'.applied == n.applied && Agree(n'.log, n.log, n.commit)
    ensures var out := EmittedAfter(n, emitted, a); |out| == n'.applied && Agree(out, n'.log, n'.applied)
  {
  }

  lemma CrashForgets(n: Node, a: Action, keepRound: bool)
    ensures IsCrash(a) ==> NodeAfter(n, a, keepRound).applied == 0
    ensures a.DoTakeCommitted? ==> NodeAfter(n, a, keepRound) == TakeCommitted(n)
  {
  }

  lemma EmittedStays(V: set<NodeId>, h: Hist, g: Hist, p: NodeId, n: Node, n': Node, emitted: Log, a: Action, keepRound: bool)
    requires Good(V, h, p, n) && (a.Deliver? || a.CrashIn? ==> a.m in h.sent)
    requires n' == NodeAfter(n, a, keepRound) && Carries(V, h, g, p, n')
    requires |emitted| == n.applied && Agree(emitted, n.log, n.applied)
    ensures var out := EmittedAfter(n, emitted, a); |out| == n'.applied && Agree(out, n'.log, n'.applied)
  {
    CrashForgets(n, a, keepRound);
    if !IsCrash(a) && !a.DoTakeCommitted? {
      CommittedSurvives(V, h, g, p, n, n', a, keepRound);
      AppliedAfter(n, a, keepRound);
    }
    EmittedFollows(n, n', emitted, a);
  }

  lemma Drained(V: set<NodeId>, h: Hist, p: NodeId, n: Node)
    requires NodeOk(V, h, p, n)
    ensures NodeOk(V, h, p, n.(outbox := {}))
  {
  }

  lemma BystanderStays(V: set<NodeId>, s: Sys, h: Hist, g: Hist, p: NodeId, q: NodeId, s': Sys)
    requires HistOk(V, h) && GrowsBy(h, g, p) && q != p && q in s.nodes && q in s.emitted && PeerOk(V, h, s, q)
    requires q in s'.nodes && q in s'.emitted && s'.nodes[q] == s.nodes[q] && s'.emitted[q] == s.emitted[q]
    ensures PeerOk(V, g, s', q)
  {
    NodeFrame(V, h, g, p, q, s.nodes[q]);
  }

  lemma ActorSettles(V: set<NodeId>, g: Hist, p: NodeId, n: Node, out: Log, s': Sys)
    requires NodeOk(V, g, p, n) && |out| == n.applied && Agree(out, n.log, n.applied)
    requires p in s'.nodes && p in s'.emitted && s'.nodes[p] == n.(outbox := {}) && s'.emitted[p] == out
    ensures PeerOk(V, g, s', p)
  {
    Drained(V, g, p, n);
  }

  lemma PeersStay(V: set<NodeId>, s: Sys, h: Hist, g: Hist, p: NodeId, s': Sys)
    requires HistOk(V, h) && GrowsBy(h, g, p) && s.nodes.Keys == V && s.emitted.Keys == V
    requires forall q {:trigger PeerOk(V, h, s, q)} | q in V :: PeerOk(V, h, s, q)
    requires p in V && p in s'.nodes && p in s'.emitted
    requires s'.nodes == s.nodes[p := s'.nodes[p]] && s'.emitted == s.emitted[p := s'.emitted[p]]
    requires PeerOk(V, g, s', p)
    ensures forall q {:trigger PeerOk(V, g, s', q)} | q in V :: PeerOk(V, g, s', q)
  {
    forall q | q in V ensures PeerOk(V, g, s', q) {
      if q != p {
        assert PeerOk(V, h, s, q);
        BystanderStays(V, s, h, g, p, q, s');
      }
    }
  }

  lemma UpdateInv(V: set<NodeId>, s: Sys, h: Hist, g: Hist, p: NodeId, n: Node, out: Log, s': Sys)
    requires Inv(V, s, h) && p in V && Carries(V, h, g, p, n) && |out| == n.applied && Agree(out, n.log, n.applied)
    requires s' == Sys(s.nodes[p := n.(outbox := {})], s.net + n.outbox, s.emitted[p := out])
    ensures Inv(V, s', g)
  {
    ActorSettles(V, g, p, n, out, s');
    PeersStay(V, s, h, g, p, s');
  }

  lemma StepInv(V: set<NodeId>, s: Sys, h: Hist, a: Action, keepRound: bool) returns (g: Hist)
    requires Inv(V, s, h) && Enabled(s, a)
    ensures Inv(V, Do(s, a, keepRound), g) && Grows(h, g)
    ensures a.DoRead? && s.nodes[a.p].role == Leader ==> Grows(RegisterHist(h, s.nodes[a.p]), g)
  {
    var p := Actor(a);
    var n := s.nodes[p];
    assert PeerOk(V, h, s, p);
    g := NodeStep(V, h, n, a, keepRound);
    EmittedStays(V, h, g, p, n, NodeAfter(n, a, keepRound), s.emitted[p], a, keepRound);
    UpdateInv(V, s, h, g, p, NodeAfter(n, a, keepRound), EmittedAfter(n, s.emitted[p], a), Do(s, a, keepRound));
  }

  // ---- runs ----------------------------------------------------------------------

  /** A history beside every state of a run. */
  ghost predicate Chronicle(V: set<NodeId>, acts: seq<Action>, st: seq<Sys>, hs: seq<Hist>)
    decreases |acts|
  {
    && |st| == |acts| + 1 == |hs|
    && Inv(V, st[|acts|], hs[|acts|])
    && (acts != [] ==>
          var k := |acts| - 1;
          && Chronicle(V, acts[..k], st[..k + 1], hs[..k + 1])
          && Grows(hs[k], hs[k + 1])
          && RegisteredIn(st[k], acts[k], hs[k], hs[k + 1]))
  }

  ghost predicate RegisteredIn(s: Sys, a: Action, h: Hist, g: Hist) {
    a.DoRead? && a.p in s.nodes && s.nodes[a.p].role == Leader ==> Grows(RegisterHist(h, s.nodes[a.p]), g)
  }

  lemma RunPrefix(V: set<NodeId>, keepRound: bool, acts: seq<Action>, st: seq<Sys>, k: nat)
    requires Run(V, keepRound, acts, st) && k <= |acts|
    ensures Run(V, keepRound, acts[..k], st[..k + 1])
  {
    var acts', st' := acts[..k], st[..k + 1];
    forall i: nat | i < k ensures Moves(keepRound, acts', st', i) {
      assert Moves(keepRound, acts, st, i);
    }
  }

  lemma RunExtends(V: set<NodeId>, keepRound: bool, acts: seq<Action>, st: seq<Sys>, a: Action)
    requires Run(V, keepRound, acts, st) && Enabled(st[|acts|], a)
    ensures Run(V, keepRound, acts + [a], st + [Do(st[|acts|], a, keepRound)])
  {
    var acts', st' := acts + [a], st + [Do(st[|acts|], a, keepRound)];
    forall i: nat | i < |acts'| ensures Moves(keepRound, acts', st', i) {
      if i < |acts| { assert Moves(keepRound, acts, st, i); }
    }
  }

  /** What holds at step `i` of a plan lets its action happen and hands on. */
  ghost predicate HandsOn(keepRound: bool, plan: nat -> Action, now: (nat, Sys) -> bool, i: nat, s: Sys) {
    now(i, s) ==> Enabled(s, plan(i)) && now(i + 1, Do(s, plan(i), keepRound))
  }

  /** A plan that hands on at every step is a run. */
  lemma {:induction false} PlanRuns(V: set<NodeId>, keepRound: bool, plan: nat -> Action, now: (nat, Sys) -> bool, k: nat)
      returns (acts: seq<Action>, st: seq<Sys>)
    requires now(0, Init(V))
    requires forall i: nat, s: Sys {:trigger HandsOn(keepRound, plan, now, i, s)} | i < k :: HandsOn(keepRound, plan, now, i, s)
    ensures Run(V, keepRound, acts, st) && |acts| == k
    ensures (forall i: nat | i < k :: acts[i] == plan(i)) && forall i: nat | i <= k :: now(i, st[i])
  {
    if k == 0 {
      acts, st := [], [Init(V)];
    } else {
      var acts', st' := PlanRuns(V, keepRound, plan, now, k - 1);
      assert HandsOn(keepRound, plan, now, k - 1, st'[k - 1]);
      RunExtends(V, keepRound, acts', st', plan(k - 1));
      acts, st := acts' + [plan(k - 1)], st' + [Do(st'[k - 1], plan(k - 1), keepRound)];
    }
  }

  lemma ChronicleGrows(V: set<NodeId>, acts: seq<Action>, st: seq<Sys>, earlier: seq<Hist>, g: Hist, k: nat)
    requires |acts| == k + 1 && |st| == k + 2 && Chronicle(V, acts[..k], st[..k + 1], earlier)
    requires Inv(V, st[k + 1], g) && Grows(earlier[k], g) && RegisteredIn(st[k], acts[k], earlier[k], g)
    ensures Chronicle(V, acts, st, earlier + [g])
  {
    assert (earlier + [g])[..k + 1] == earlier;
  }

  lemma ChronicleStep(V: set<NodeId>, keepRound: bool, s: Sys, h: Hist, a: Action, z: Sys) returns (g: Hist)
    requires Inv(V, s, h) && Enabled(s, a) && z == Do(s, a, keepRound)
    ensures Inv(V, z, g) && Grows(h, g) && RegisteredIn(s, a, h, g)
  {
    g := StepInv(V, s, h, a, keepRound);
  }

  lemma {:induction false} Chronicles(V: set<NodeId>, keepRound: bool, acts: seq<Action>, st: seq<Sys>) returns (hs: seq<Hist>)
    requires Run(V, keepRound, acts, st)
    ensures Chronicle(V, acts, st, hs)
    decreases |acts|
  {
    if acts == [] {
      InitInv(V);
      hs := [NoHist];
    } else {
      var k := |acts| - 1;
      RunPrefix(V, keepRound, acts, st, k);
      var earlier := Chronicles(V, keepRound, acts[..k], st[..k + 1]);
      assert Moves(keepRound, acts, st, k);
      ChronicleLast(V, acts[..k], st[..k + 1], earlier);
      var g := ChronicleStep(V, keepRound, st[k], earlier[k], acts[k], st[k + 1]);
      ChronicleGrows(V, acts, st, earlier, g, k);
      hs := earlier + [g];
    }
  }

  lemma {:induction false} ChronicleAt(V: set<NodeId>, acts: seq<Action>, st: seq<Sys>, hs: seq<Hist>, i: nat)
    requires Chronicle(V, acts, st, hs) && i < |st|
    ensures Inv(V, st[i], hs[i])
    ensures i < |acts| ==> Grows(hs[i], hs[i + 1]) && RegisteredIn(st[i], acts[i], hs[i], hs[i + 1])
    decreases |acts|
  {
    var k := |acts| - 1;
    if i < k { ChronicleAt(V, acts[..k], st[..k + 1], hs[..k + 1], i); }
    if i == k { ChronicleLast(V, acts[..k], st[..k + 1], hs[..k + 1]); }
  }

  lemma ChronicleLast(V: set<NodeId>, acts: seq<Action>, st: seq<Sys>, hs: seq<Hist>)
    requires Chronicle(V, acts, st, hs)
    ensures Inv(V, st[|acts|], hs[|acts|])
  {
  }

  lemma GrowsChain(a: Hist, b: Hist, c: Hist)
    requires Grows(a, b) && Grows(b, c)
    ensures Grows(a, c)
  {
    forall t | t in a.past.reigns ensures ReignGrows(a.past.reigns[t], c.past.reigns[t]) {
      assert ReignGrows(a.past.reigns[t], b.past.reigns[t]) && ReignGrows(b.past.reigns[t], c.past.reigns[t]);
    }
  }

  lemma {:induction false} GrowsOver(V: set<NodeId>, acts: seq<Action>, st: seq<Sys>, hs: seq<Hist>, i: nat, j: nat)
    requires Chronicle(V, acts, st, hs) && i <= j < |hs|
    ensures Grows(hs[i], hs[j])
    decreases j - i
  {
    if i < j {
      ChronicleAt(V, acts, st, hs, i);
      GrowsOver(V, acts, st, hs, i + 1, j);
      GrowsChain(hs[i], hs[i + 1], hs[j]);
    }
  }

  /** A node of any state of a run, seen from the end of the run. */
  lemma Seen(V: set<NodeId>, acts: seq<Action>, st: seq<Sys>, hs: seq<Hist>, i: nat, p: NodeId)
    requires Chronicle(V, acts, st, hs) && i < |st| && p in V
    ensures p in st[i].nodes && p in st[i].emitted
    ensures var n := st[i].nodes[p]; var h := hs[|hs| - 1].past;
      && GoodLog(h, n.log) && Settled(h, n.log, n.commit, n.term) && n.applied <= n.commit
      && |st[i].emitted[p]| == n.applied && Agree(st[i].emitted[p], n.log, n.applied)
      && (n.role == Leader ==>
            && n.term in h.reigns && h.reigns[n.term].leader == p
            && Agree(h.reigns[n.term].start, n.log, |h.reigns[n.term].start|))
  {
    var last := |hs| - 1;
    ChronicleAt(V, acts, st, hs, i);
    assert PeerOk(V, hs[i], st[i], p);
    GrowsOver(V, acts, st, hs, i, last);
    var n := st[i].nodes[p];
    GoodLogGrows(hs[i].past, hs[last].past, n.log);
    SettledGrows(hs[i].past, hs[last].past, n.log, n.commit, n.term);
    if n.role == Leader { ReignFacts(V, hs[i].past, n.term); }
  }

  /** Election Safety: over a whole run, restarts included, a term has at most one leader. */
  lemma ElectionSafety(V: set<NodeId>, keepRound: bool, acts: seq<Action>, st: seq<Sys>, i: nat, j: nat, p: NodeId, q: NodeId)
    requires Run(V, keepRound, acts, st) && i < |st| && j < |st| && p in st[i].nodes && q in st[j].nodes && p in V && q in V
    requires st[i].nodes[p].role == Leader && st[j].nodes[q].role == Leader
    requires st[i].nodes[p].term == st[j].nodes[q].term
    ensures p == q
  {
    var hs := Chronicles(V, keepRound, acts, st);
    Seen(V, acts, st, hs, i, p);
    Seen(V, acts, st, hs, j, q);
  }

  /** Log Matching: two logs, of any nodes at any times, with the same term at an index agree up to it. */
  lemma LogMatching(V: set<NodeId>, keepRound: bool, acts: seq<Action>, st: seq<Sys>, i: nat, j: nat, p: NodeId, q: NodeId, k: nat)
    requires Run(V, keepRound, acts, st) && i < |st| && j < |st| && p in V && q in V && p in st[i].nodes && q in st[j].nodes
    requires k < |st[i].nodes[p].log| && k < |st[j].nodes[q].log|
    requires st[i].nodes[p].log[k].term == st[j].nodes[q].log[k].term
    ensures st[i].nodes[p].log[..k + 1] == st[j].nodes[q].log[..k + 1]
  {
    var hs := Chronicles(V, keepRound, acts, st);
    Seen(V, acts, st, hs, i, p);
    Seen(V, acts, st, hs, j, q);
    LogsMatch(hs[|hs| - 1].past, st[i].nodes[p].log, st[j].nodes[q].log, k);
  }

  lemma CommittedInLater(V: set<NodeId>, h: Past, log: Log, c: nat, t: Term, leader: Log, u: Term)
    requires PastOk(V, h) && Settled(h, log, c, t) && t < u && u in h.reigns && Agree(h.reigns[u].start, leader, |h.reigns[u].start|)
    ensures c <= |log| && log[..c] <= leader
  {
    if c > 0 {
      var t0, k :| (t0, k) in h.commits && SettledBy(h, log, c, t, t0, k);
      LeaderCompleteness(V, h, t0, k, u);
      assert Agree(log, leader, c);
    }
  }

  /** Leader Completeness: what any node has committed in a term is in the log of every leader of a
      later term, whenever that leader is looked at. */
  lemma LeadersAreComplete(V: set<NodeId>, keepRound: bool, acts: seq<Action>, st: seq<Sys>, i: nat, j: nat, p: NodeId, q: NodeId)
    requires Run(V, keepRound, acts, st) && i < |st| && j < |st| && p in V && q in V && p in st[i].nodes && q in st[j].nodes
    requires st[j].nodes[q].role == Leader && st[i].nodes[p].term < st[j].nodes[q].term
    ensures st[i].nodes[p].commit <= |st[i].nodes[p].log|
    ensures st[i].nodes[p].log[..st[i].nodes[p].commit] <= st[j].nodes[q].log
  {
    var hs := Chronicles(V, keepRound, acts, st);
    Seen(V, acts, st, hs, i, p);
    Seen(V, acts, st, hs, j, q);
    ChronicleAt(V, acts, st, hs, |acts|);
    var n, l := st[i].nodes[p], st[j].nodes[q];
    CommittedInLater(V, hs[|hs| - 1].past, n.log, n.commit, n.term, l.log, l.term);
  }

  /** State Machine Safety: any two nodes, at any two times, agree on everything both had committed. */
  lemma StateMachineSafety(V: set<NodeId>, keepRound: bool, acts: seq<Action>, st: seq<Sys>, i: nat, j: nat, p: NodeId, q: NodeId, k: nat)
    requires Run(V, keepRound, acts, st) && i < |st| && j < |st| && p in V && q in V && p in st[i].nodes && q in st[j].nodes
    requires k < st[i].nodes[p].commit && k < st[j].nodes[q].commit
    ensures k < |st[i].nodes[p].log| && k < |st[j].nodes[q].log| && st[i].nodes[p].log[k] == st[j].nodes[q].log[k]
  {
    var hs := Chronicles(V, keepRound, acts, st);
    Seen(V, acts, st, hs, i, p);
    Seen(V, acts, st, hs, j, q);
    var h := hs[|hs| - 1];
    ChronicleAt(V, acts, st, hs, |acts|);
    var a, b := st[i].nodes[p], st[j].nodes[q];
    SettledAgree(V, h.past, a.log, a.commit, a.term, b.log, b.commit, b.term);
  }

  lemma StreamsAgree(V: set<NodeId>, h: Past, a: Node, x: Log, b: Node, y: Log)
    requires PastOk(V, h) && Settled(h, a.log, a.commit, a.term) && Settled(h, b.log, b.commit, b.term) && GoodLog(h, a.log)
    requires |x| == a.applied <= a.commit && Agree(x, a.log, |x|) && |y| == b.applied <= b.commit && Agree(y, b.log, |y|)
    ensures (x <= y || y <= x) && forall k | 0 <= k < |x| :: x[k].index == k + 1
  {
    SettledAgree(V, h, a.log, a.commit, a.term, b.log, b.commit, b.term);
    forall k | 0 <= k < |x| ensures x[k].index == k + 1 { assert GoodAt(h, a.log, k); }
  }

  /** Applied streams: what two incarnations hand to their state machines, each index once and in
      order, are prefixes of one another. */
  lemma StreamsComparable(V: set<NodeId>, keepRound: bool, acts: seq<Action>, st: seq<Sys>, i: nat, j: nat, p: NodeId, q: NodeId)
    requires Run(V, keepRound, acts, st) && i < |st| && j < |st| && p in V && q in V && p in st[i].emitted && q in st[j].emitted
    ensures st[i].emitted[p] <= st[j].emitted[q] || st[j].emitted[q] <= st[i].emitted[p]
    ensures forall k | 0 <= k < |st[i].emitted[p]| :: st[i].emitted[p][k].index == k + 1
  {
    var hs := Chronicles(V, keepRound, acts, st);
    Seen(V, acts, st, hs, i, p);
    Seen(V, acts, st, hs, j, q);
    ChronicleAt(V, acts, st, hs, |acts|);
    StreamsAgree(V, hs[|hs| - 1].past, st[i].nodes[p], st[i].emitted[p], st[j].nodes[q], st[j].emitted[q]);
  }

  /** Within an incarnation the commit index and the applied stream only grow. */
  lemma IncarnationGrows(V: set<NodeId>, keepRound: bool, acts: seq<Action>, st: seq<Sys>, i: nat, p: NodeId)
    requires Run(V, keepRound, acts, st) && i < |acts| && p in V && p in st[i].nodes && p in st[i].emitted
    requires !(IsCrash(acts[i]) && Actor(acts[i]) == p)
    ensures p in st[i + 1].nodes && p in st[i + 1].emitted
    ensures st[i].nodes[p].commit <= st[i + 1].nodes[p].commit
    ensures st[i].emitted[p] <= st[i + 1].emitted[p]
  {
    var hs := Chronicles(V, keepRound, acts, st);
    ChronicleAt(V, acts, st, hs, i);
    assert Moves(keepRound, acts, st, i);
    StepKeepsCommitted(V, st[i], hs[i], acts[i], keepRound, p);
  }

  lemma StepKeepsCommitted(V: set<NodeId>, s: Sys, h: Hist, a: Action, keepRound: bool, p: NodeId)
    requires Inv(V, s, h) && Enabled(s, a) && p in V && !(IsCrash(a) && Actor(a) == p)
    ensures var t := Do(s, a, keepRound);
      p in t.nodes && p in t.emitted && s.nodes[p].commit <= t.nodes[p].commit && s.emitted[p] <= t.emitted[p]
  {
    assert PeerOk(V, h, s, p);
    if Actor(a) == p { CommitNeverDrops(V, h, p, s.nodes[p], a, keepRound); }
  }
}
