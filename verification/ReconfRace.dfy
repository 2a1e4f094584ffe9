/** Without the guard two leaders' successive changes leave majorities that do not meet. One run, from voters 1 to 4:

    node 1 leads term 1 and appends the addition of node 5, which reaches no one; node 2 leads term 2, removes node 1, and
    with node 3 commits that under the membership 2, 3, 4; node 1, which still counts 1 to 5, leads term 3 with the votes
    of 4 and 5, and commits the addition at the same index. */
module ReconfRace {
  import opened Basics
  import opened ConfChange
  import opened Reconf
  import opened ReconfRuns

  const C0: Conf := Conf([1, 2, 3, 4], [])
  const FIVE: Conf := Conf([1, 2, 3, 4, 5], [])
  const THREE: Conf := Conf([2, 3, 4], [])
  const U: set<NodeId> := {1, 2, 3, 4, 5}

  const X: Item := Item(1, Some(AddNode(5)), FIVE)
  const Y: Item := Item(2, Some(RemoveNode(1)), THREE)
  const Z: Item := Item(3, None, FIVE)

  lemma Changed()
    ensures ApplyChange(C0, AddNode(5)) == FIVE && ApplyChange(C0, RemoveNode(1)) == THREE
  {
    assert [1, 2, 3, 4][..3] == [1, 2, 3] && [1, 2, 3][..2] == [1, 2] && [1, 2][..1] == [1];
    assert Without([1], 1) == [];
    assert Without([1, 2], 1) == [2];
    assert Without([1, 2, 3], 1) == [2, 3];
    assert Without([1, 2, 3, 4], 1) == [2, 3, 4];
  }

  lemma OfFour()
    ensures Majority({1, 2, 3}, C0.voters) && Majority({2, 3, 4}, C0.voters)
  {
    assert Members(C0.voters) == {1, 2, 3, 4};
    assert |{1, 2, 3, 4}| == 4 && |{1, 2, 3}| == 3 && |{2, 3, 4}| == 3;
  }

  lemma OfThree()
    ensures Majority({2, 3}, THREE.voters)
  {
    assert Members(THREE.voters) == {2, 3, 4};
    assert |{2, 3, 4}| == 3 && |{2, 3}| == 2;
  }

  lemma OfFive()
    ensures Majority({1, 4, 5}, FIVE.voters)
  {
    assert Members(FIVE.voters) == {1, 2, 3, 4, 5};
    assert |{1, 2, 3, 4, 5}| == 5 && |{1, 4, 5}| == 3;
  }

  // ---- the run -----------------------------------------------------------------------------------

  const Length: nat := 21

  function Act(k: nat): Deed {
    if k == 0 then Campaign(1)
    else if k == 1 then Grant(2, 1, 1)
    else if k == 2 then Grant(3, 1, 1)
    else if k == 3 then Crown(1, {1, 2, 3})
    else if k == 4 then Append(1, Some(AddNode(5)))
    else if k == 5 then Campaign(2)
    else if k == 6 then Grant(3, 2, 2)
    else if k == 7 then Grant(4, 2, 2)
    else if k == 8 then Crown(2, {2, 3, 4})
    else if k == 9 then Append(2, Some(RemoveNode(1)))
    else if k == 10 then Accept(3, 2, 1, 0)
    else if k == 11 then Count(2, 1, {2, 3})
    else if k == 12 then Adopt(1, 2)
    else if k == 13 then Campaign(1)
    else if k == 14 then Grant(4, 1, 3)
    else if k == 15 then Grant(5, 1, 3)
    else if k == 16 then Crown(1, {1, 4, 5})
    else if k == 17 then Append(1, None)
    else if k == 18 then Accept(4, 3, 2, 0)
    else if k == 19 then Accept(5, 3, 2, 0)
    else Count(1, 2, {1, 4, 5})
  }

  ghost predicate One(k: nat, n: Peer) {
    if k == 0 then n == Peer(Follower, 0, [], 0)
    else if k <= 3 then n == Peer(Candidate, 1, [], 0)
    else if k == 4 then n == Peer(Leader, 1, [], 0)
    else if k <= 12 then n == Peer(Leader, 1, [X], 0)
    else if k == 13 then n == Peer(Follower, 2, [X], 0)
    else if k <= 16 then n == Peer(Candidate, 3, [X], 0)
    else if k == 17 then n == Peer(Leader, 3, [X], 0)
    else if k <= 20 then n == Peer(Leader, 3, [X, Z], 0)
    else n == Peer(Leader, 3, [X, Z], 2)
  }

  ghost predicate Two(k: nat, n: Peer) {
    if k <= 1 then n == Peer(Follower, 0, [], 0)
    else if k <= 5 then n == Peer(Follower, 1, [], 0)
    else if k <= 8 then n == Peer(Candidate, 2, [], 0)
    else if k == 9 then n == Peer(Leader, 2, [], 0)
    else if k <= 11 then n == Peer(Leader, 2, [Y], 0)
    else n == Peer(Leader, 2, [Y], 1)
  }

  ghost predicate Three(k: nat, n: Peer) {
    if k <= 2 then n == Peer(Follower, 0, [], 0)
    else if k <= 6 then n == Peer(Follower, 1, [], 0)
    else k <= 10 ==> n == Peer(Follower, 2, [], 0)
  }

  ghost predicate Four(k: nat, n: Peer) {
    if k <= 7 then n == Peer(Follower, 0, [], 0)
    else if k <= 14 then n == Peer(Follower, 2, [], 0)
    else k <= 18 ==> n == Peer(Follower, 3, [], 0)
  }

  ghost predicate Five(k: nat, n: Peer) {
    if k <= 15 then n == Peer(Follower, 0, [], 0) else k <= 19 ==> n == Peer(Follower, 3, [], 0)
  }

  ghost predicate Votes(k: nat, h: Past) {
    && (1 <= k <= 3 ==> VotedFor(h, 1, 1, 1)) && (2 <= k <= 3 ==> VotedFor(h, 2, 1, 1)) && (k == 3 ==> VotedFor(h, 3, 1, 1))
    && (6 <= k <= 8 ==> VotedFor(h, 2, 2, 2)) && (7 <= k <= 8 ==> VotedFor(h, 3, 2, 2)) && (k == 8 ==> VotedFor(h, 4, 2, 2))
    && (14 <= k <= 16 ==> VotedFor(h, 1, 3, 1)) && (15 <= k <= 16 ==> VotedFor(h, 4, 3, 1)) && (k == 16 ==> VotedFor(h, 5, 3, 1))
    && (k <= 1 ==> (2, 1) !in h.ballots) && (k <= 2 ==> (3, 1) !in h.ballots) && (k <= 6 ==> (3, 2) !in h.ballots)
    && (k <= 7 ==> (4, 2) !in h.ballots) && (k <= 14 ==> (4, 3) !in h.ballots) && (k <= 15 ==> (5, 3) !in h.ballots)
  }

  ghost predicate Runs(h: Past, c: NodeId, t: Term, log: Track) { (c, t) in h.cands && h.cands[(c, t)] == log }

  ghost predicate Leads(h: Past, c: NodeId, t: Term, log: Track) { t in h.reigns && h.reigns[t].leader == c && h.reigns[t].log == log }

  ghost predicate Record(k: nat, h: Past) {
    && (1 <= k <= 2 ==> Runs(h, 1, 1, [])) && (6 <= k <= 7 ==> Runs(h, 2, 2, [])) && (14 <= k <= 15 ==> Runs(h, 1, 3, [X]))
    && (k == 4 ==> Leads(h, 1, 1, [])) && (k == 9 ==> Leads(h, 2, 2, [])) && (10 <= k <= 11 ==> Leads(h, 2, 2, [Y]))
    && (k == 17 ==> Leads(h, 1, 3, [X])) && (18 <= k <= 20 ==> Leads(h, 1, 3, [X, Z]))
    && (10 <= k <= 11 ==> (2, 2, 1) in h.acks) && (k == 11 ==> (3, 2, 1) in h.acks)
    && (18 <= k <= 20 ==> (1, 3, 2) in h.acks) && (19 <= k <= 20 ==> (4, 3, 2) in h.acks) && (k == 20 ==> (5, 3, 2) in h.acks)
  }

  ghost predicate Now(k: nat, w: World) {
    && w.peers.Keys == U && Votes(k, w.past) && Record(k, w.past)
    && One(k, w.peers[1]) && Two(k, w.peers[2]) && Three(k, w.peers[3]) && Four(k, w.peers[4]) && Five(k, w.peers[5])
  }

  ghost predicate Next(k: nat, w: World) { Enabled(C0, w, Act(k), false) && Now(k + 1, Do(C0, w, Act(k))) }

  lemma Next0(w: World) requires Now(0, w) ensures Next(0, w) { }
  lemma Next1(w: World) requires Now(1, w) ensures Next(1, w) { }
  lemma Next2(w: World) requires Now(2, w) ensures Next(2, w) { }
  lemma Next3(w: World) requires Now(3, w) ensures Next(3, w) { OfFour(); }
  lemma Next4(w: World) requires Now(4, w) ensures Next(4, w) { Changed(); }
  lemma Next5(w: World) requires Now(5, w) ensures Next(5, w) { }
  lemma Next6(w: World) requires Now(6, w) ensures Next(6, w) { }
  lemma Next7(w: World) requires Now(7, w) ensures Next(7, w) { }
  lemma Next8(w: World) requires Now(8, w) ensures Next(8, w) { OfFour(); }
  lemma Next9(w: World) requires Now(9, w) ensures Next(9, w) { Changed(); }
  lemma Next10(w: World) requires Now(10, w) ensures Next(10, w) { }
  lemma Next11(w: World) requires Now(11, w) ensures Next(11, w) { OfThree(); }
  lemma Next12(w: World) requires Now(12, w) ensures Next(12, w) { }
  lemma Next13(w: World) requires Now(13, w) ensures Next(13, w) { }
  lemma Next14(w: World) requires Now(14, w) ensures Next(14, w) { }
  lemma Next15(w: World) requires Now(15, w) ensures Next(15, w) { }
  lemma Next16(w: World) requires Now(16, w) ensures Next(16, w) { OfFive(); }
  lemma Next17(w: World) requires Now(17, w) ensures Next(17, w) { Changed(); }
  lemma Next18(w: World) requires Now(18, w) ensures Next(18, w) { }
  lemma Next19(w: World) requires Now(19, w) ensures Next(19, w) { }
  lemma Next20(w: World) requires Now(20, w) ensures Next(20, w) { OfFive(); }

  lemma EarlyNext(k: nat, w: World)
    requires k < 7 && Now(k, w)
    ensures Next(k, w)
  {
    if k == 0 { Next0(w); } else if k == 1 { Next1(w); } else if k == 2 { Next2(w); } else if k == 3 { Next3(w); }
    else if k == 4 { Next4(w); } else if k == 5 { Next5(w); } else { Next6(w); }
  }

  lemma MiddleNext(k: nat, w: World)
    requires 7 <= k < 14 && Now(k, w)
    ensures Next(k, w)
  {
    if k == 7 { Next7(w); } else if k == 8 { Next8(w); } else if k == 9 { Next9(w); } else if k == 10 { Next10(w); }
    else if k == 11 { Next11(w); } else if k == 12 { Next12(w); } else { Next13(w); }
  }

  lemma LateNext(k: nat, w: World)
    requires 14 <= k < Length && Now(k, w)
    ensures Next(k, w)
  {
    if k == 14 { Next14(w); } else if k == 15 { Next15(w); } else if k == 16 { Next16(w); } else if k == 17 { Next17(w); }
    else if k == 18 { Next18(w); } else if k == 19 { Next19(w); } else { Next20(w); }
  }

  lemma EveryNext()
    ensures forall i: nat, w: World {:trigger HandsOn(C0, Act, Now, i, w)} | i < Length :: HandsOn(C0, Act, Now, i, w)
  {
    forall i: nat, w: World | i < Length ensures HandsOn(C0, Act, Now, i, w) {
      if Now(i, w) {
        if i < 7 { EarlyNext(i, w); } else if i < 14 { MiddleNext(i, w); } else { LateNext(i, w); }
      }
    }
  }

  /** In the code as it is, two nodes commit different memberships at one index, each by a majority of its own. */
  lemma ChangesCollide() returns (deeds: seq<Deed>, st: seq<World>)
    ensures Run(C0, U, false, deeds, st) && |deeds| == Length && 1 in st[Length].peers && 2 in st[Length].peers
    ensures var a, b := st[Length].peers[1], st[Length].peers[2];
      a.log == [X, Z] && a.commit == 2 && b.log == [Y] && b.commit == 1
  {
    EveryNext();
    deeds, st := PlanRuns(C0, U, Act, Now, Length);
    assert Now(Length, st[Length]);
  }

  ghost predicate AlwaysSafe(guarded: bool) {
    forall c0: Conf, U: set<NodeId>, deeds: seq<Deed>, st: seq<World>, i: nat, j: nat, p: NodeId, q: NodeId
      {:trigger Run(c0, U, guarded, deeds, st), SafeAt(st, i, j, p, q)} |
      Run(c0, U, guarded, deeds, st) :: SafeAt(st, i, j, p, q)
  }

  /** Every run is safe exactly when leaders commit an entry of their own term before changing the membership. */
  lemma SafeIffGuarded(guarded: bool)
    ensures AlwaysSafe(guarded) <==> guarded
  {
    if guarded {
      forall c0: Conf, U: set<NodeId>, deeds: seq<Deed>, st: seq<World>, i: nat, j: nat, p: NodeId, q: NodeId |
        Run(c0, U, true, deeds, st)
        ensures SafeAt(st, i, j, p, q)
      {
        GuardedIsSafe(c0, U, deeds, st, i, j, p, q);
      }
    } else {
      var deeds, st := ChangesCollide();
      var a, b := st[Length].peers[1], st[Length].peers[2];
      assert a.log[0] != b.log[0];
      assert SafeAt(st, Length, Length, 1, 2) ==> SafeTogether(1, a, 2, b);
    }
  }
}
