/** Without the guard a late snapshot undoes a commit. One run of a three-voter group:

    node 1 leads term 1 and appends two entries; node 3 takes the first, which commits and is applied, and node 1 sends
    node 2 a snapshot of it; the append of both entries reaches node 2 before the snapshot does, and its answer commits
    the second; then the snapshot arrives and takes the second entry away. Nodes 3 and 2 elect node 3 for term 2, and
    another entry commits in its place. */
module RaftSnapshotLoss {
  import opened Basics
  import opened RaftNode
  import opened RaftSystem
  import opened RaftInstall
  import S = RaftStaleRead

  const V: set<NodeId> := S.V
  const E1: Entry := Entry(1, 1, [])
  const E2: Entry := Entry(1, 2, [])
  const F: Entry := Entry(2, 2, [])

  const Ae3: Message := Message(1, 3, 1, Append(0, 0, [E1], 0, 0))
  const Ae2: Message := Message(1, 2, 1, Append(0, 0, [E1, E2], 0, 0))
  const Ok3: Message := Message(3, 1, 1, AppendResp(true, 1, 0))
  const Ok2: Message := Message(2, 1, 1, AppendResp(true, 2, 0))
  const Late: Snap := Snap(1, 2, 1, [E1])
  const Rv3: Message := Message(3, 2, 2, RequestVote(1, 1))
  const Vr3: Message := Message(2, 3, 2, VoteResp(true))
  const Af2: Message := Message(3, 2, 2, Append(1, 1, [F], 0, 0))
  const Okf: Message := Message(2, 3, 2, AppendResp(true, 2, 0))

  const Length: nat := 18

  function Act(k: nat): Input {
    if k == 0 then Plain(DoTick(1, S.Due, true))
    else if k == 1 then Plain(Deliver(S.Rv1))
    else if k == 2 then Plain(Deliver(S.Vr1))
    else if k <= 4 then Plain(DoPropose(1, []))
    else if k == 5 then Plain(Deliver(Ae3))
    else if k == 6 then Plain(Deliver(Ok3))
    else if k == 7 then Plain(DoTakeCommitted(1))
    else if k == 8 then SendSnap(1, 2, 1)
    else if k == 9 then Plain(Deliver(Ae2))
    else if k == 10 then Plain(Deliver(Ok2))
    else if k == 11 then DeliverSnap(Late)
    else if k == 12 then Plain(DoTick(3, S.Due, true))
    else if k == 13 then Plain(Deliver(Rv3))
    else if k == 14 then Plain(Deliver(Vr3))
    else if k == 15 then Plain(DoPropose(3, []))
    else if k == 16 then Plain(Deliver(Af2))
    else Plain(Deliver(Okf))
  }

  ghost predicate One(k: nat, n: Node) { Leads(k, n) && (k <= 7 ==> n.applied == 0) && (8 <= k <= 10 ==> n.applied == 1) }

  ghost predicate Leads(k: nat, n: Node) {
    if k == 0 then S.Basic(n, 1, Follower, 0, [], 0, 0)
    else if k <= 2 then S.Running(n, 1, 1, [])
    else if k == 3 then S.Leading(n, 1, 1, [], 0, 0, 2, 0) && n.pending == [] && S.Sends(n, 2, 1) && S.Sends(n, 3, 1)
    else if k == 4 then S.Leading(n, 1, 1, [E1], 0, 0, 2, 0) && n.pending == [] && S.Sends(n, 2, 1)
    else if k <= 6 then S.Leading(n, 1, 1, [E1, E2], 0, 0, 3, 0) && n.pending == []
    else if k <= 10 then S.Leading(n, 1, 1, [E1, E2], 1, 0, 3, 1) && n.pending == []
    else n.log == [E1, E2] && n.commit == 2
  }

  ghost predicate Two(k: nat, n: Node) {
    if k <= 1 then S.Basic(n, 2, Follower, 0, [], 0, 0) && n.vote == None
    else if k <= 9 then S.Basic(n, 2, Follower, 1, [], 0, 0)
    else if k <= 11 then S.Basic(n, 2, Follower, 1, [E1, E2], 0, 0)
    else if k <= 13 then S.Basic(n, 2, Follower, 1, [E1], 1, 0)
    else if k <= 16 then S.Basic(n, 2, Follower, 2, [E1], 1, 0)
    else true
  }

  ghost predicate Three(k: nat, n: Node) {
    if k <= 5 then S.Basic(n, 3, Follower, 0, [], 0, 0)
    else if k <= 12 then S.Basic(n, 3, Follower, 1, [E1], 0, 0)
    else if k <= 14 then S.Running(n, 3, 2, [E1])
    else if k == 15 then S.Leading(n, 3, 2, [E1], 0, 0, 2, 0) && n.pending == [] && S.Sends(n, 2, 2)
    else if k <= 17 then S.Leading(n, 3, 2, [E1, F], 0, 0, 2, 0) && n.pending == []
    else n.log == [E1, F] && n.commit == 2
  }

  ghost predicate Wire(k: nat, net: set<Message>, snaps: set<Snap>) {
    && (k == 1 ==> S.Rv1 in net) && (k == 2 ==> S.Vr1 in net) && (4 <= k <= 5 ==> Ae3 in net) && (5 <= k <= 9 ==> Ae2 in net)
    && (k == 6 ==> Ok3 in net) && (9 <= k <= 11 ==> Late in snaps) && (k == 10 ==> Ok2 in net)
    && (k == 13 ==> Rv3 in net) && (k == 14 ==> Vr3 in net) && (k == 16 ==> Af2 in net) && (k == 17 ==> Okf in net)
  }

  ghost predicate Now(k: nat, s: Group) {
    && s.core.nodes.Keys == V && s.core.emitted.Keys == V && Wire(k, s.core.net, s.snaps)
    && One(k, s.core.nodes[1]) && Two(k, s.core.nodes[2]) && Three(k, s.core.nodes[3])
  }

  // ---- what each input does to its node ------------------------------------------------

  lemma ProposeKeepsNext(n: Node, to: NodeId)
    requires MayPropose(n) && to != n.id && to in n.next
    ensures to in Propose(n, []).next && Propose(n, []).next[to] == n.next[to]
  {
    var a := AppendLocal(n, []);
    assert MaybeAdvanceCommit(a).next == a.next;
  }

  /** Node 2 has answered nothing yet, so it is sent both entries. */
  lemma SentBoth(a: Node)
    requires a.id == 1 && a.voters == V && a.term == 1 && a.log == [E1, E2] && a.commit == 0 && a.round == 0 && S.Sends(a, 2, 1)
    ensures Ae2 in BroadcastAppend(a).outbox
  {
    assert a.log[0..] == [E1, E2];
    assert AppendFor(a, 2) == Ae2;
    assert AppendFor(a, 2) in AppendsOf(a);
  }

  lemma Uncounted(n: Node, a: Node)
    requires S.Leading(n, 1, 1, [E1], 0, 0, 2, 0) && a == AppendLocal(n, [])
    ensures a.log == [E1, E2] && MatchOf(a, 1) == 2 && (forall v | v in V && v != 1 :: MatchOf(a, v) == 0) && MaybeAdvanceCommit(a) == a
  {
    forall v | v in V && v != 1 ensures MatchOf(a, v) == 0 { assert MatchOf(n, v) == 0; }
    S.NoCommit(a, 1);
  }

  lemma SecondEntry(n: Node)
    requires S.Leading(n, 1, 1, [E1], 0, 0, 2, 0) && n.pending == [] && S.Sends(n, 2, 1)
    ensures var m := Propose(n, []); S.Leading(m.(outbox := {}), 1, 1, [E1, E2], 0, 0, 3, 0) && m.pending == [] && Ae2 in m.outbox
  {
    var a := AppendLocal(n, []);
    Uncounted(n, a);
    SentBoth(a);
    var m := BroadcastAppend(a).(outbox := {});
    assert m.matched == a.matched;
  }

  lemma FirstCommits(n: Node)
    requires S.Leading(n, 1, 1, [E1, E2], 0, 0, 3, 0) && n.pending == []
    ensures var m := Step(n, Ok3).(outbox := {}); S.Leading(m, 1, 1, [E1, E2], 1, 0, 3, 1) && m.pending == []
  {
    var b := NoteMatch(NoteAnswer(n, 3, 0), 3, 1);
    assert Holders(b, 2) == {1} && Holders(b, 1) == {1, 3};
    S.Sizes();
    assert |{1, 3}| == 2 && |{1}| == 1;
    assert CommitScan(b, 1) == 1;
    assert CommitScan(b, 2) == 1;
  }

  lemma SecondCommits(n: Node)
    requires S.Leading(n, 1, 1, [E1, E2], 1, 0, 3, 1) && n.pending == []
    ensures var m := Step(n, Ok2); m.log == [E1, E2] && m.commit == 2
  {
    var b := NoteMatch(NoteAnswer(n, 2, 0), 2, 2);
    assert Holders(b, 2) == {1, 2};
    S.Sizes();
    assert CommitScan(b, 2) == 2;
  }

  // ---- the run, input by input ---------------------------------------------------------------

  ghost predicate Next(k: nat, s: Group, keepRound: bool) { Ready(s, Act(k)) && Now(k + 1, Take(s, Act(k), keepRound, false)) }

  /** The actor's new state, what it sent, and the others as they were. */
  ghost predicate Fits(k: nat, s: Group, p: NodeId, m: Node)
    requires s.core.nodes.Keys == V
  {
    && Wire(k, s.core.net + m.outbox, s.snaps)
    && One(k, if p == 1 then m.(outbox := {}) else s.core.nodes[1])
    && Two(k, if p == 2 then m.(outbox := {}) else s.core.nodes[2])
    && Three(k, if p == 3 then m.(outbox := {}) else s.core.nodes[3])
  }

  lemma NodesMoved(k: nat, s: Group, p: NodeId, m: Node, z: Group)
    requires s.core.nodes.Keys == V && s.core.emitted.Keys == V && p in V && Fits(k, s, p, m)
    requires z.core.nodes == s.core.nodes[p := m.(outbox := {})] && z.core.net == s.core.net + m.outbox && z.core.emitted.Keys == V
    requires z.snaps == s.snaps
    ensures Now(k, z)
  {
  }

  lemma PlainMoves(s: Group, a: Action, p: NodeId, m: Node, keepRound: bool)
    requires s.core.nodes.Keys == V && s.core.emitted.Keys == V && p in V && Actor(a) == p && !a.CrashIn? && (a.Deliver? ==> a.m in s.core.net)
    requires m == NodeAfter(s.core.nodes[p], a, keepRound)
    ensures Ready(s, Plain(a))
    ensures var z := Take(s, Plain(a), keepRound, false);
      && z.core.nodes == s.core.nodes[p := m.(outbox := {})] && z.core.net == s.core.net + m.outbox && z.core.emitted.Keys == V
      && z.snaps == s.snaps
  {
  }

  lemma MovedBy(k: nat, s: Group, a: Action, p: NodeId, m: Node, keepRound: bool)
    requires s.core.nodes.Keys == V && s.core.emitted.Keys == V && p in V && Actor(a) == p && !a.CrashIn? && (a.Deliver? ==> a.m in s.core.net)
    requires m == NodeAfter(s.core.nodes[p], a, keepRound) && Fits(k + 1, s, p, m)
    ensures Ready(s, Plain(a)) && Now(k + 1, Take(s, Plain(a), keepRound, false))
  {
    PlainMoves(s, a, p, m, keepRound);
    NodesMoved(k + 1, s, p, m, Take(s, Plain(a), keepRound, false));
  }

  lemma Moved(k: nat, s: Group, a: Action, p: NodeId, m: Node, keepRound: bool)
    requires Now(k, s) && Act(k) == Plain(a) && p in V && Actor(a) == p && !a.CrashIn? && (a.Deliver? ==> a.m in s.core.net)
    requires m == NodeAfter(s.core.nodes[p], a, keepRound) && Fits(k + 1, s, p, m)
    ensures Next(k, s, keepRound)
  {
    MovedBy(k, s, a, p, m, keepRound);
  }

  lemma Next0(s: Group, kr: bool) requires Now(0, s) ensures Next(0, s, kr) {
    S.Campaigns(s.core.nodes[1], 1, 0, [], 2);
    AppliedAfter(s.core.nodes[1], Act(0).a, kr);
    Moved(0, s, Act(0).a, 1, Tick(s.core.nodes[1], S.Due, true), kr);
  }
  lemma Next1(s: Group, kr: bool) requires Now(1, s) ensures Next(1, s, kr) {
    Moved(1, s, Act(1).a, 2, Step(s.core.nodes[2], S.Rv1), kr);
  }
  lemma Next2(s: Group, kr: bool) requires Now(2, s) ensures Next(2, s, kr) {
    S.Wins(s.core.nodes[1], 1, 1, [], 2);
    AppliedAfter(s.core.nodes[1], Act(2).a, kr);
    Moved(2, s, Act(2).a, 1, Step(s.core.nodes[1], S.Vr1), kr);
  }
  lemma Next3(s: Group, kr: bool) requires Now(3, s) ensures Next(3, s, kr) {
    S.Proposes(s.core.nodes[1], 1, 1, [], 2, 3);
    ProposeKeepsNext(s.core.nodes[1], 2);
    assert [] + [E1] == [E1];
    AppliedAfter(s.core.nodes[1], Act(3).a, kr);
    Moved(3, s, Act(3).a, 1, Propose(s.core.nodes[1], []), kr);
  }
  lemma Next4(s: Group, kr: bool) requires Now(4, s) ensures Next(4, s, kr) {
    SecondEntry(s.core.nodes[1]);
    AppliedAfter(s.core.nodes[1], Act(4).a, kr);
    Moved(4, s, Act(4).a, 1, Propose(s.core.nodes[1], []), kr);
  }
  lemma Next5(s: Group, kr: bool) requires Now(5, s) ensures Next(5, s, kr) {
    Moved(5, s, Act(5).a, 3, Step(s.core.nodes[3], Ae3), kr);
  }
  lemma Next6(s: Group, kr: bool) requires Now(6, s) ensures Next(6, s, kr) {
    FirstCommits(s.core.nodes[1]);
    AppliedAfter(s.core.nodes[1], Act(6).a, kr);
    Moved(6, s, Act(6).a, 1, Step(s.core.nodes[1], Ok3), kr);
  }
  lemma Next7(s: Group, kr: bool) requires Now(7, s) ensures Next(7, s, kr) {
    Moved(7, s, Act(7).a, 1, TakeCommitted(s.core.nodes[1]), kr);
  }
  lemma Next8(s: Group, kr: bool) requires Now(8, s) ensures Next(8, s, kr) {
    assert [E1, E2][..1] == [E1];
  }
  lemma Next9(s: Group, kr: bool) requires Now(9, s) ensures Next(9, s, kr) {
    Moved(9, s, Act(9).a, 2, Step(s.core.nodes[2], Ae2), kr);
  }
  lemma Next10(s: Group, kr: bool) requires Now(10, s) ensures Next(10, s, kr) {
    SecondCommits(s.core.nodes[1]);
    Moved(10, s, Act(10).a, 1, Step(s.core.nodes[1], Ok2), kr);
  }
  lemma Next11(s: Group, kr: bool) requires Now(11, s) ensures Next(11, s, kr) {
    NodesMoved(12, s, 2, Install(s.core.nodes[2], Late, false), Take(s, Act(11), kr, false));
  }
  lemma Next12(s: Group, kr: bool) requires Now(12, s) ensures Next(12, s, kr) {
    S.Campaigns(s.core.nodes[3], 3, 1, [E1], 2);
    Moved(12, s, Act(12).a, 3, Tick(s.core.nodes[3], S.Due, true), kr);
  }
  lemma Next13(s: Group, kr: bool) requires Now(13, s) ensures Next(13, s, kr) {
    Moved(13, s, Act(13).a, 2, Step(s.core.nodes[2], Rv3), kr);
  }
  lemma Next14(s: Group, kr: bool) requires Now(14, s) ensures Next(14, s, kr) {
    S.Wins(s.core.nodes[3], 3, 2, [E1], 2);
    Moved(14, s, Act(14).a, 3, Step(s.core.nodes[3], Vr3), kr);
  }
  lemma Next15(s: Group, kr: bool) requires Now(15, s) ensures Next(15, s, kr) {
    S.Proposes(s.core.nodes[3], 3, 2, [E1], 2, 2);
    assert [E1] + [F] == [E1, F];
    Moved(15, s, Act(15).a, 3, Propose(s.core.nodes[3], []), kr);
  }
  lemma Next16(s: Group, kr: bool) requires Now(16, s) ensures Next(16, s, kr) {
    Moved(16, s, Act(16).a, 2, Step(s.core.nodes[2], Af2), kr);
  }
  lemma Next17(s: Group, kr: bool) requires Now(17, s) ensures Next(17, s, kr) {
    S.Commits(s.core.nodes[3], 3, 2, [E1, F], 2);
    Moved(17, s, Act(17).a, 3, Step(s.core.nodes[3], Okf), kr);
  }

  lemma EarlyNext(k: nat, s: Group, kr: bool)
    requires k < 9 && Now(k, s)
    ensures Next(k, s, kr)
  {
    if k == 0 { Next0(s, kr); } else if k == 1 { Next1(s, kr); } else if k == 2 { Next2(s, kr); }
    else if k == 3 { Next3(s, kr); } else if k == 4 { Next4(s, kr); } else if k == 5 { Next5(s, kr); }
    else if k == 6 { Next6(s, kr); } else if k == 7 { Next7(s, kr); } else { Next8(s, kr); }
  }

  lemma LateNext(k: nat, s: Group, kr: bool)
    requires 9 <= k < Length && Now(k, s)
    ensures Next(k, s, kr)
  {
    if k == 9 { Next9(s, kr); } else if k == 10 { Next10(s, kr); } else if k == 11 { Next11(s, kr); }
    else if k == 12 { Next12(s, kr); } else if k == 13 { Next13(s, kr); } else if k == 14 { Next14(s, kr); }
    else if k == 15 { Next15(s, kr); } else if k == 16 { Next16(s, kr); } else { Next17(s, kr); }
  }

  lemma {:induction false} Runs(keepRound: bool, k: nat) returns (ins: seq<Input>, st: seq<Group>)
    requires k <= Length
    ensures GroupRun(V, keepRound, false, ins, st) && |ins| == k && Now(k, st[k])
  {
    if k == 0 {
      ins, st := [], [Start(V)];
    } else {
      var ins', st' := Runs(keepRound, k - 1);
      var s := st'[k - 1];
      if k - 1 < 9 { EarlyNext(k - 1, s, keepRound); } else { LateNext(k - 1, s, keepRound); }
      var z := Take(s, Act(k - 1), keepRound, false);
      GroupRunExtends(V, keepRound, false, ins', st', Act(k - 1), z);
      ins, st := ins' + [Act(k - 1)], st' + [z];
    }
  }

  /** In the code as it is two nodes commit different entries at one index. */
  lemma CommitUndone(keepRound: bool) returns (ins: seq<Input>, st: seq<Group>)
    ensures GroupRun(V, keepRound, false, ins, st) && |ins| == Length
    ensures st[Length].core.nodes.Keys == V == st[Length].core.emitted.Keys && 1 in V && 3 in V
    ensures var a, b := st[Length].core.nodes[1], st[Length].core.nodes[3];
      a.commit == 2 && b.commit == 2 && |a.log| == 2 && |b.log| == 2 && a.log[1] != b.log[1]
  {
    ins, st := Runs(keepRound, Length);
  }

  ghost predicate AlwaysSafe(keepRound: bool, guarded: bool) {
    forall V: set<NodeId>, ins: seq<Input>, st: seq<Group>, i: nat, j: nat, p: NodeId, q: NodeId
      {:trigger GroupRun(V, keepRound, guarded, ins, st), SafeAt(st, i, j, p, q)} |
      GroupRun(V, keepRound, guarded, ins, st) :: SafeAt(st, i, j, p, q)
  }

  /** Every run with snapshots is safe exactly when a log that holds the snapshot's last entry is kept. */
  lemma SafeIffGuarded(keepRound: bool, guarded: bool)
    ensures AlwaysSafe(keepRound, guarded) <==> guarded
  {
    if guarded {
      forall V: set<NodeId>, ins: seq<Input>, st: seq<Group>, i: nat, j: nat, p: NodeId, q: NodeId | GroupRun(V, keepRound, true, ins, st)
        ensures SafeAt(st, i, j, p, q)
      {
        GuardedIsSafe(V, keepRound, ins, st, i, j, p, q);
      }
    } else {
      var ins, st := CommitUndone(keepRound);
      var s := st[Length].core;
      assert SafeAt(st, Length, Length, 1, 3) ==> SafeTogether(s.nodes[1], s.emitted[1], s.nodes[3], s.emitted[3]);
    }
  }
}
