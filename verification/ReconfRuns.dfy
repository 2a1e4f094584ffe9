/** Groups that change their members, over whole runs: safe in every run exactly when a leader changes the membership
    only after committing an entry of its own term. */
module ReconfRuns {
  import opened ConfChange
  import opened Reconf
  import opened ReconfProof
  import opened ReconfSteps

  const Nothing: Past := Past(map[], map[], map[], {}, map[])

  function Init(U: set<NodeId>): World { World(map p | p in U :: Peer(Follower, 0, [], 0), Nothing) }

  ghost predicate Goes(c0: Conf, guarded: bool, deeds: seq<Deed>, st: seq<World>, i: nat)
    requires i < |deeds| && i + 1 < |st|
  {
    Enabled(c0, st[i], deeds[i], guarded) && Enabled(c0, st[i], deeds[i], false) && st[i + 1] == Do(c0, st[i], deeds[i])
  }

  ghost predicate Run(c0: Conf, U: set<NodeId>, guarded: bool, deeds: seq<Deed>, st: seq<World>) {
    && |st| == |deeds| + 1 && st[0] == Init(U)
    && forall i: nat {:trigger Goes(c0, guarded, deeds, st, i)} | i < |deeds| :: Goes(c0, guarded, deeds, st, i)
  }

  lemma RunPrefix(c0: Conf, U: set<NodeId>, guarded: bool, deeds: seq<Deed>, st: seq<World>, k: nat)
    requires Run(c0, U, guarded, deeds, st) && k <= |deeds|
    ensures Run(c0, U, guarded, deeds[..k], st[..k + 1])
  {
    var deeds', st' := deeds[..k], st[..k + 1];
    forall i: nat | i < k ensures Goes(c0, guarded, deeds', st', i) { assert Goes(c0, guarded, deeds, st, i); }
  }

  lemma RunExtends(c0: Conf, U: set<NodeId>, guarded: bool, deeds: seq<Deed>, st: seq<World>, d: Deed, z: World)
    requires Run(c0, U, guarded, deeds, st) && Enabled(c0, st[|deeds|], d, guarded) && Enabled(c0, st[|deeds|], d, false)
    requires z == Do(c0, st[|deeds|], d)
    ensures Run(c0, U, guarded, deeds + [d], st + [z])
  {
    var deeds', st' := deeds + [d], st + [z];
    forall i: nat | i < |deeds'| ensures Goes(c0, guarded, deeds', st', i) {
      if i < |deeds| { assert Goes(c0, guarded, deeds, st, i); }
    }
  }

  /** What holds at step `i` of a plan lets its deed happen and hands on. */
  ghost predicate HandsOn(c0: Conf, plan: nat -> Deed, now: (nat, World) -> bool, i: nat, w: World) {
    now(i, w) ==> Enabled(c0, w, plan(i), false) && now(i + 1, Do(c0, w, plan(i)))
  }

  /** A plan that hands on at every step is a run. */
  lemma {:induction false} PlanRuns(c0: Conf, U: set<NodeId>, plan: nat -> Deed, now: (nat, World) -> bool, k: nat)
      returns (deeds: seq<Deed>, st: seq<World>)
    requires now(0, Init(U))
    requires forall i: nat, w: World {:trigger HandsOn(c0, plan, now, i, w)} | i < k :: HandsOn(c0, plan, now, i, w)
    ensures Run(c0, U, false, deeds, st) && |deeds| == k && now(k, st[k])
  {
    if k == 0 {
      deeds, st := [], [Init(U)];
    } else {
      var deeds', st' := PlanRuns(c0, U, plan, now, k - 1);
      var w := st'[k - 1];
      assert HandsOn(c0, plan, now, k - 1, w);
      RunExtends(c0, U, false, deeds', st', plan(k - 1), Do(c0, w, plan(k - 1)));
      deeds, st := deeds' + [plan(k - 1)], st' + [Do(c0, w, plan(k - 1))];
    }
  }

  /** Taking a leader's append leaves its first entries, and its commit index if that is news, and no one else is touched. */
  lemma AcceptTakes(c0: Conf, w: World, p: NodeId, t: Term, k: nat, lc: nat)
    requires Enabled(c0, w, Accept(p, t, k, lc), false)
    ensures var n, m := w.peers[p], Do(c0, w, Accept(p, t, k, lc)).peers[p];
      && m.term == t && m.role == Follower && Shares(m.log, w.past.reigns[t].log, k)
      && (Shares(n.log, w.past.reigns[t].log, k) ==> m.log == n.log)
      && m.commit >= n.commit && m.commit >= lc && (m.commit == n.commit || m.commit == lc)
      && forall q | q in w.peers && q != p :: Do(c0, w, Accept(p, t, k, lc)).peers[q] == w.peers[q]
  {
  }

  // ---- one history for a run --------------------------------------------------------------------

  /** What a later history still says of a peer as it was. */
  ghost predicate SeenOk(h: Past, p: NodeId, n: Peer) {
    && Settled(h, n.log, n.commit, n.term)
    && (n.role == Leader ==>
          && n.term in h.reigns && h.reigns[n.term].leader == p
          && Shares(h.reigns[n.term].start, n.log, |h.reigns[n.term].start|))
  }

  ghost predicate WorldSeen(h: Past, w: World) { forall p {:trigger w.peers[p]} | p in w.peers :: SeenOk(h, p, w.peers[p]) }

  lemma SeenGrows(h: Past, g: Past, w: World)
    requires WorldSeen(h, w) && Grows(h, g)
    ensures WorldSeen(g, w)
  {
    forall p | p in w.peers ensures SeenOk(g, p, w.peers[p]) {
      var n := w.peers[p];
      SettledGrows(h, g, n.log, n.commit, n.term, n.term);
    }
  }

  lemma SeenNow(c0: Conf, w: World)
    requires Inv(c0, w)
    ensures WorldSeen(w.past, w)
  {
    forall p | p in w.peers ensures SeenOk(w.past, p, w.peers[p]) {
      assert PeerOk(w.past, p, w.peers[p]);
      if w.peers[p].role == Leader { ReignFacts(c0, w.past, w.peers[p].term); }
    }
  }

  lemma SeenNext(c0: Conf, w: World, d: Deed, z: World, before: seq<World>)
    requires Inv(c0, w) && Enabled(c0, w, d, true) && Enabled(c0, w, d, false) && z == Do(c0, w, d)
    requires forall x | x in before :: WorldSeen(w.past, x)
    ensures Inv(c0, z) && forall x | x in before + [z] :: WorldSeen(z.past, x)
  {
    StepInv(c0, w, d);
    SeenNow(c0, z);
    forall x | x in before ensures WorldSeen(z.past, x) { SeenGrows(w.past, z.past, x); }
  }

  /** The last state's history accounts for every state of a guarded run. */
  lemma {:induction false} GuardedHistory(c0: Conf, U: set<NodeId>, deeds: seq<Deed>, st: seq<World>)
    requires Run(c0, U, true, deeds, st)
    ensures Inv(c0, st[|deeds|]) && forall w | w in st :: WorldSeen(st[|deeds|].past, w)
    decreases |deeds|
  {
    if deeds == [] {
      SeenNow(c0, st[0]);
    } else {
      var k := |deeds| - 1;
      RunPrefix(c0, U, true, deeds, st, k);
      var before := st[..k + 1];
      GuardedHistory(c0, U, deeds[..k], before);
      assert Goes(c0, true, deeds, st, k);
      SeenNext(c0, before[k], deeds[k], st[k + 1], before);
      assert st == before + [st[k + 1]];
    }
  }

  // ---- safety ---------------------------------------------------------------------------------------

  /** Two peers, at two times: agreement on what both committed, a leader of a later term holds what was committed, and a
      term has one leader. */
  ghost predicate SafeTogether(p: NodeId, a: Peer, q: NodeId, b: Peer) {
    && a.commit <= |a.log| && b.commit <= |b.log|
    && (forall k: nat | k < a.commit && k < b.commit :: a.log[k] == b.log[k])
    && (b.role == Leader && a.term < b.term ==> a.log[..a.commit] <= b.log)
    && (a.role == Leader && b.role == Leader && a.term == b.term ==> p == q)
  }

  ghost predicate SafeAt(st: seq<World>, i: nat, j: nat, p: NodeId, q: NodeId) {
    i < |st| && j < |st| && p in st[i].peers && q in st[j].peers ==> SafeTogether(p, st[i].peers[p], q, st[j].peers[q])
  }

  lemma ReignCovers(c0: Conf, h: Past, t: Term, i: nat, u: Term)
    requires PastOk(c0, h) && (t, i) in h.commits && u in h.reigns
    ensures t in h.reigns && (t < u ==> Shares(h.reigns[u].start, h.reigns[t].log, i)) && (t <= u ==> Shares(h.reigns[u].log, h.reigns[t].log, i))
  {
    CommitFacts(c0, h, t, i);
    ReignFacts(c0, h, u);
    if t < u { Complete(c0, h, t, i, h.reigns[u].leader, u, h.reigns[u].electors); }
  }

  lemma SettledAgree(c0: Conf, h: Past, a: Peer, b: Peer, k: nat)
    requires PastOk(c0, h) && Settled(h, a.log, a.commit, a.term) && Settled(h, b.log, b.commit, b.term) && k < a.commit && k < b.commit
    ensures a.log[k] == b.log[k]
  {
    var s, i :| (s, i) in h.commits && SettledBy(h, a.log, a.commit, a.term, s, i);
    var t, j :| (t, j) in h.commits && SettledBy(h, b.log, b.commit, b.term, t, j);
    ReignCovers(c0, h, s, i, t);
    ReignCovers(c0, h, t, j, s);
  }

  lemma SettledInLater(c0: Conf, h: Past, a: Peer, q: NodeId, b: Peer)
    requires PastOk(c0, h) && Settled(h, a.log, a.commit, a.term) && SeenOk(h, q, b) && b.role == Leader && a.term < b.term
    ensures a.commit <= |a.log| && a.log[..a.commit] <= b.log
  {
    if a.commit > 0 {
      var s, i :| (s, i) in h.commits && SettledBy(h, a.log, a.commit, a.term, s, i);
      ReignCovers(c0, h, s, i, b.term);
      assert Shares(a.log, b.log, a.commit);
    }
  }

  lemma SeenSafe(c0: Conf, h: Past, p: NodeId, a: Peer, q: NodeId, b: Peer)
    requires PastOk(c0, h) && SeenOk(h, p, a) && SeenOk(h, q, b)
    ensures SafeTogether(p, a, q, b)
  {
    forall k: nat | k < a.commit && k < b.commit ensures a.log[k] == b.log[k] { SettledAgree(c0, h, a, b, k); }
    if b.role == Leader && a.term < b.term { SettledInLater(c0, h, a, q, b); }
  }

  /** Under the guard every run is safe, whatever the memberships and however they change. */
  lemma GuardedIsSafe(c0: Conf, U: set<NodeId>, deeds: seq<Deed>, st: seq<World>, i: nat, j: nat, p: NodeId, q: NodeId)
    requires Run(c0, U, true, deeds, st)
    ensures SafeAt(st, i, j, p, q)
  {
    GuardedHistory(c0, U, deeds, st);
    var h := st[|deeds|].past;
    if i < |st| && j < |st| && p in st[i].peers && q in st[j].peers {
      assert WorldSeen(h, st[i]) && WorldSeen(h, st[j]);
      SeenSafe(c0, h, p, st[i].peers[p], q, st[j].peers[q]);
    }
  }
}
