/** `RaftNode` of raft/src/node.rs as the object it is: fields updated in place, loops over voters,
    entries and pending reads. Every method is proved to do what its function in `RaftNode` says, so
    the theorems about runs hold of this code. Timers arrive as arguments of `Tick`. */
module RaftPeer {
  import opened Basics
  import opened RaftNode

  ghost function SetOf<T>(s: seq<T>): set<T> { set x | x in s }

  ghost predicate Distinct<T>(s: seq<T>) { forall i, j | 0 <= i < j < |s| :: s[i] != s[j] }

  lemma TakeOneMore<T>(s: seq<T>, i: nat)
    requires Distinct(s) && i < |s|
    ensures SetOf(s[..i + 1]) == SetOf(s[..i]) + {s[i]} && s[i] !in SetOf(s[..i])
  {
    assert s[..i + 1] == s[..i] + [s[i]];
  }

  datatype Result = Appended(index: nat) | Registered | Refused(error: ProposeError)

  class Peer {
    const id: NodeId
    const voters: seq<NodeId>
    const checkQuorum: bool

    // durable: written through storage before anything is sent
    var term: Term
    var vote: Option<NodeId>
    var log: Log

    var role: Role
    var commit: nat
    var applied: nat
    var leader: Option<NodeId>
    var votes: set<NodeId>
    var next: map<NodeId, nat>
    var matched: map<NodeId, nat>
    var transfer: Option<NodeId>
    var recent: set<NodeId>
    var round: nat
    var acked: map<NodeId, nat>
    var pending: seq<Pending>
    var ready: seq<Confirmed>
    var messages: seq<Message>

    ghost predicate Valid() { Distinct(voters) }

    ghost function Abs(): Node
      reads this
    {
      Node(id, SetOf(voters), role, term, vote, log, commit, applied, leader, votes, next, matched, transfer, recent,
           round, acked, pending, ready, SetOf(messages))
    }

    /** A node over what storage kept: term, vote and log. */
    constructor (id: NodeId, voters: seq<NodeId>, checkQuorum: bool, term: Term, vote: Option<NodeId>, log: Log)
      requires Distinct(voters)
      ensures Valid() && this.id == id && this.voters == voters
      ensures Abs() == Fresh(id, SetOf(voters)).(term := term, vote := vote, log := log)
    {
      this.id, this.voters, this.checkQuorum := id, voters, checkQuorum;
      this.term, this.vote, this.log := term, vote, log;
      role, commit, applied, leader, votes := Follower, 0, 0, None, {};
      next, matched, transfer, recent := map[], map[], None, {};
      round, acked, pending, ready, messages := 0, map[], [], [], [];
    }

    method Majority() returns (m: nat)
      requires Valid()
      ensures m == RaftNode.Majority(Abs())
    {
      m := |voters| / 2 + 1;
      VoterCount();
    }

    lemma VoterCount()
      requires Valid()
      ensures |SetOf(voters)| == |voters|
    {
      DistinctSize(voters);
    }

    static lemma {:induction false} DistinctSize(s: seq<NodeId>)
      requires Distinct(s)
      ensures |SetOf(s)| == |s|
    {
      if s != [] {
        var k := |s| - 1;
        DistinctSize(s[..k]);
        TakeOneMore(s, k);
        assert s[..k + 1] == s;
      }
    }

    // ---- small utilities -------------------------------------------------------

    method Send(to: NodeId, t: Term, body: Body)
      modifies `messages
      ensures Abs() == RaftNode.Send(old(Abs()), to, t, body)
    {
      messages := messages + [Message(id, to, t, body)];
    }

    method SendAppend(to: NodeId)
      modifies `messages
      ensures Abs() == RaftNode.SendAppend(old(Abs()), to)
    {
      var nx := if to in next then next[to] else |log| + 1;
      if nx >= 1 {
        var prev := nx - 1;
        var prevTerm := match TermAt(log, prev) case Some(t) => t case None => 0;
        var entries := if nx <= |log| then log[nx - 1..] else [];
        Send(to, term, Append(prev, prevTerm, entries, commit, round));
      }
    }

    static ghost function AppendsTo(n: Node, ps: set<NodeId>): set<Message> {
      set p | p in ps && p != n.id && NextFor(n, p) >= 1 :: AppendFor(n, p)
    }

    static ghost function OneAppend(n: Node, p: NodeId): set<Message> {
      if p != n.id && NextFor(n, p) >= 1 then {AppendFor(n, p)} else {}
    }

    static lemma AppendsToOneMore(n: Node, ps: set<NodeId>, p: NodeId)
      ensures AppendsTo(n, ps + {p}) == AppendsTo(n, ps) + OneAppend(n, p)
    {
    }

    /** What `SendAppend` puts on the wire does not depend on what is already there. */
    static lemma SendAppendAdds(n: Node, m: Node, out: set<Message>, p: NodeId)
      requires m == n.(outbox := out)
      ensures (if p != n.id then RaftNode.SendAppend(m, p) else m) == n.(outbox := out + OneAppend(n, p))
    {
      assert NextFor(m, p) == NextFor(n, p);
    }

    static lemma OnePeerMore(n: Node, m: Node, voters: seq<NodeId>, i: nat)
      requires Distinct(voters) && i < |voters| && m == n.(outbox := n.outbox + AppendsTo(n, SetOf(voters[..i])))
      ensures (if voters[i] != n.id then RaftNode.SendAppend(m, voters[i]) else m)
        == n.(outbox := n.outbox + AppendsTo(n, SetOf(voters[..i + 1])))
    {
      TakeOneMore(voters, i);
      AppendsToOneMore(n, SetOf(voters[..i]), voters[i]);
      SendAppendAdds(n, m, n.outbox + AppendsTo(n, SetOf(voters[..i])), voters[i]);
    }

    method BroadcastAppend()
      requires Valid()
      modifies `messages
      ensures Abs() == RaftNode.BroadcastAppend(old(Abs()))
    {
      ghost var n := Abs();
      var i := 0;
      assert voters[..0] == [] && AppendsTo(n, SetOf(voters[..0])) == {};
      while i < |voters|
        invariant 0 <= i <= |voters|
        invariant Abs() == n.(outbox := n.outbox + AppendsTo(n, SetOf(voters[..i])))
      {
        OnePeerMore(n, Abs(), voters, i);
        if voters[i] != id { SendAppend(voters[i]); }
        i := i + 1;
      }
      assert voters[..i] == voters;
    }

    // ---- commit and reads --------------------------------------------------------

    static ghost function Where(vs: set<NodeId>, p: NodeId -> bool): set<NodeId> { set v | v in vs && p(v) }

    static lemma WhereMore(vs: set<NodeId>, p: NodeId -> bool, x: NodeId)
      requires x !in vs
      ensures Where(vs + {x}, p) == Where(vs, p) + (if p(x) then {x} else {}) && x !in Where(vs, p)
    {
    }

    static lemma WhereCount(vs: set<NodeId>, p: NodeId -> bool, x: NodeId)
      requires x !in vs
      ensures |Where(vs + {x}, p)| == |Where(vs, p)| + if p(x) then 1 else 0
    {
      WhereMore(vs, p, x);
    }

    /** `filter(p).count()` over the voters. */
    static method Count(voters: seq<NodeId>, p: NodeId -> bool) returns (count: nat)
      requires Distinct(voters)
      ensures count == |Where(SetOf(voters), p)|
    {
      count := 0;
      assert voters[..0] == [] && Where(SetOf(voters[..0]), p) == {};
      for i := 0 to |voters|
        invariant count == |Where(SetOf(voters[..i]), p)|
      {
        TakeOneMore(voters, i);
        WhereCount(SetOf(voters[..i]), p, voters[i]);
        if p(voters[i]) { count := count + 1; }
      }
      assert voters[..|voters|] == voters;
    }

    method CountHolders(index: nat) returns (count: nat)
      requires Valid()
      ensures count == |Holders(Abs(), index)|
    {
      var m := matched;
      var p := (v: NodeId) => (if v in m then m[v] else 0) >= index;
      count := Count(voters, p);
      assert Holders(Abs(), index) == Where(SetOf(voters), p);
    }

    method CountAckers(r: nat) returns (count: nat)
      requires Valid()
      ensures count == |Ackers(Abs(), r)|
    {
      var a, me := acked, id;
      var p := (v: NodeId) => v == me || (v in a && a[v] >= r);
      count := Count(voters, p);
      assert Ackers(Abs(), r) == Where(SetOf(voters), p);
    }

    method CountHeard() returns (count: nat)
      requires Valid()
      ensures count == |Heard(Abs())|
    {
      var h, me := recent, id;
      var p := (v: NodeId) => v == me || v in h;
      count := Count(voters, p);
      assert Heard(Abs()) == Where(SetOf(voters), p);
    }

    static lemma ConfirmNext(n: Node, pending: seq<Pending>, k: nat)
      requires k < |pending|
      ensures ConfirmCount(n, pending[k..]) ==
        if |Ackers(n, pending[k].round)| < RaftNode.Majority(n) then 0 else 1 + ConfirmCount(n, pending[k + 1..])
    {
      assert pending[k..][0] == pending[k] && pending[k..][1..] == pending[k + 1..];
    }

    static lemma ConfirmAllNext(pending: seq<Pending>, term: Term, commit: nat, k: nat)
      requires k < |pending|
      ensures ConfirmAll(pending[..k + 1], term, commit) ==
        ConfirmAll(pending[..k], term, commit) + [Confirmed(pending[k].ctx, term, pending[k].round, commit)]
    {
    }

    /** The reads at the front of the queue that a majority has confirmed. */
    method Confirmable() returns (k: nat, done: seq<Confirmed>)
      requires Valid()
      ensures k == ConfirmCount(Abs(), pending) && done == ConfirmAll(pending[..k], term, commit)
    {
      var majority := Majority();
      k, done := 0, [];
      assert pending[0..] == pending && pending[..0] == [];
      while k < |pending|
        invariant 0 <= k <= |pending| && done == ConfirmAll(pending[..k], term, commit)
        invariant k + ConfirmCount(Abs(), pending[k..]) == ConfirmCount(Abs(), pending)
      {
        var acks := CountAckers(pending[k].round);
        ConfirmNext(Abs(), pending, k);
        if acks < majority { break; }
        ConfirmAllNext(pending, term, commit, k);
        done := done + [Confirmed(pending[k].ctx, term, pending[k].round, commit)];
        k := k + 1;
      }
    }

    method AdvanceReads()
      requires Valid()
      modifies `pending, `ready
      ensures Abs() == RaftNode.AdvanceReads(old(Abs()))
    {
      if role != Leader || pending == [] || TermAt(log, commit) != Some(term) { return; }
      var k, done := Confirmable();
      ready, pending := ready + done, pending[k..];
    }

    method MaybeAdvanceCommit()
      requires Valid()
      modifies `commit, `pending, `ready
      ensures Abs() == RaftNode.MaybeAdvanceCommit(old(Abs()))
    {
      var majority := Majority();
      ghost var n := Abs();
      var i := |log|;
      while i > commit
        invariant 0 <= i <= |log| && Abs() == n && CommitScan(n, i) == CommitScan(n, |log|)
      {
        if TermAt(log, i) == Some(term) {
          var count := CountHolders(i);
          if count >= majority {
            commit := i;
            AdvanceReads();
            return;
          }
        }
        i := i - 1;
      }
    }

    // ---- role transitions ----------------------------------------------------------

    method BecomeFollower(t: Term, lead: Option<NodeId>)
      modifies `term, `vote, `role, `leader, `transfer, `pending, `ready
      ensures Abs() == RaftNode.BecomeFollower(old(Abs()), t, lead)
    {
      if t > term { AdoptTerm(t); }
      StepDown(lead);
    }

    method AdoptTerm(t: Term)
      modifies `term, `vote
      ensures Abs() == old(Abs()).(term := t, vote := None)
    {
      term, vote := t, None;
    }

    method StepDown(lead: Option<NodeId>)
      modifies `role, `leader, `transfer, `pending, `ready
      ensures Abs() == old(Abs()).(role := Follower, leader := lead, transfer := None, pending := [], ready := [])
    {
      role, leader, transfer, pending, ready := Follower, lead, None, [], [];
    }

    /** The leader's view of every voter at the start of its term. */
    static method Progress(voters: seq<NodeId>, last: nat) returns (next: map<NodeId, nat>, matched: map<NodeId, nat>)
      requires Distinct(voters)
      ensures next.Keys == matched.Keys == SetOf(voters)
      ensures forall p | p in next :: next[p] == last + 1
      ensures forall p | p in matched :: matched[p] == 0
    {
      next, matched := map[], map[];
      for i := 0 to |voters|
        invariant next.Keys == matched.Keys == SetOf(voters[..i])
        invariant forall p | p in next :: next[p] == last + 1
        invariant forall p | p in matched :: matched[p] == 0
      {
        TakeOneMore(voters, i);
        next, matched := next[voters[i] := last + 1], matched[voters[i] := 0];
      }
      assert voters[..|voters|] == voters;
    }

    static lemma NextAtStart(n: Node)
      ensures Crown(n).next.Keys == n.voters && forall p | p in n.voters :: Crown(n).next[p] == |n.log| + 1
    {
    }

    static lemma MatchedAtStart(n: Node)
      ensures Crown(n).matched.Keys == n.voters + {n.id} && Crown(n).matched[n.id] == |n.log|
      ensures forall p | p in n.voters && p != n.id :: Crown(n).matched[p] == 0
    {
    }

    static lemma CrownIs(n: Node, nx: map<NodeId, nat>, ma: map<NodeId, nat>)
      requires nx.Keys == ma.Keys == n.voters
      requires (forall p | p in nx :: nx[p] == |n.log| + 1) && forall p | p in ma :: ma[p] == 0
      ensures Crown(n) == n.(role := Leader, leader := Some(n.id), next := nx, matched := ma[n.id := |n.log|],
                             transfer := None, recent := {}, acked := map[], pending := [], ready := [])
    {
      assert Crown(n).next == nx by { NextAtStart(n); }
      assert Crown(n).matched == ma[n.id := |n.log|] by { MatchedAtStart(n); }
    }

    method TakeOffice(nx: map<NodeId, nat>, ma: map<NodeId, nat>)
      modifies this
      ensures Abs() == old(Abs()).(role := Leader, leader := Some(id), next := nx, matched := ma[id := |old(log)|],
                                   transfer := None, recent := {}, acked := map[], pending := [], ready := [])
    {
      role, leader, next, matched := Leader, Some(id), nx, ma[id := |log|];
      ResetRounds();
    }

    method ResetRounds()
      modifies `transfer, `recent, `acked, `pending, `ready
      ensures Abs() == old(Abs()).(transfer := None, recent := {}, acked := map[], pending := [], ready := [])
    {
      transfer, recent, acked, pending, ready := None, {}, map[], [], [];
    }

    method BecomeLeader()
      requires Valid()
      modifies this
      ensures Abs() == RaftNode.BecomeLeader(old(Abs()))
    {
      var nx, ma := Progress(voters, |log|);
      CrownIs(Abs(), nx, ma);
      TakeOffice(nx, ma);
      BroadcastAppend();
    }

    /** Solicit every other voter. */
    method SolicitVotes()
      requires Valid()
      modifies `messages
      ensures Abs() == old(Abs()).(outbox := old(Abs()).outbox + Solicitations(old(Abs())))
    {
      ghost var c := Abs();
      var body := RequestVote(|log|, LastTerm(log));
      var i := 0;
      while i < |voters|
        invariant 0 <= i <= |voters|
        invariant Abs() == c.(outbox := Abs().outbox)
        invariant forall m :: m in Abs().outbox <==> m in c.outbox || Solicits(c, SetOf(voters[..i]), m)
      {
        TakeOneMore(voters, i);
        if voters[i] != id { Send(voters[i], term, body); }
        i := i + 1;
      }
      assert voters[..i] == voters;
      assert Abs().outbox == c.outbox + Solicitations(c);
    }

    static ghost predicate Solicits(c: Node, ps: set<NodeId>, m: Message) {
      m.to in ps && m.to != c.id && m == Message(c.id, m.to, c.term, RequestVote(|c.log|, LastTerm(c.log)))
    }

    method StartElection()
      requires Valid()
      modifies this
      ensures Abs() == RaftNode.StartElection(old(Abs()))
    {
      BeginCampaign();
      var majority := Majority();
      if |votes| >= majority {
        BecomeLeader();
      } else {
        SolicitVotes();
      }
    }

    method BeginCampaign()
      modifies `role, `term, `vote, `leader, `votes
      ensures Abs() == Campaign(old(Abs()))
    {
      role, term, vote, leader, votes := Candidate, term + 1, Some(id), None, {id};
    }

    // ---- driver inputs ----------------------------------------------------------------

    method Tick(t: Timers)
      requires Valid()
      modifies this
      ensures Abs() == RaftNode.Tick(old(Abs()), t, checkQuorum)
    {
      if role == Leader {
        if t.transferExpired { transfer := None; }
        if t.heartbeatDue { BroadcastAppend(); }
        if t.quorumDue {
          var heard := CountHeard();
          var majority := Majority();
          recent := {};
          if checkQuorum && heard < majority { BecomeFollower(term, None); }
        }
      } else if t.electionDue && id in voters {
        StartElection();
      }
    }

    method AppendLocal(data: Bytes) returns (index: nat)
      modifies `log, `matched, `next
      ensures Abs() == RaftNode.AppendLocal(old(Abs()), data) && index == old(|log|) + 1
    {
      index := |log| + 1;
      log := log + [Entry(term, index, data)];
      matched := matched[id := index];
      next := next[id := index + 1];
    }

    method Propose(data: Bytes) returns (r: Result)
      requires Valid()
      modifies this
      ensures Abs() == RaftNode.Propose(old(Abs()), data)
      ensures r == if old(role) != Leader then Refused(NotLeader)
                   else if old(transfer) != None then Refused(TransferInProgress)
                   else Appended(old(|log|) + 1)
      ensures log == if r.Appended? then old(log) + [Entry(old(term), r.index, data)] else old(log)
    {
      if role != Leader { return Refused(NotLeader); }
      if transfer != None { return Refused(TransferInProgress); }
      var index := AppendLocal(data);
      MaybeAdvanceCommit();
      BroadcastAppend();
      r := Appended(index);
    }

    method ReadIndex(ctx: nat) returns (r: Result)
      requires Valid()
      modifies this
      ensures Abs() == RaftNode.ReadIndex(old(Abs()), ctx)
      ensures r.Refused? <==> old(role) != Leader
    {
      if role != Leader { return Refused(NotLeader); }
      round := round + 1;
      pending := pending + [Pending(ctx, round)];
      BroadcastAppend();
      AdvanceReads();
      r := Registered;
    }

    method FireTimeoutNow(target: NodeId)
      modifies `messages, `transfer
      ensures Abs() == RaftNode.FireTimeoutNow(old(Abs()), target)
    {
      Send(target, term, TimeoutNow);
      transfer := None;
    }

    method TransferLeadership(target: NodeId) returns (r: Result)
      requires Valid()
      modifies this
      ensures Abs() == RaftNode.TransferLeadership(old(Abs()), target)
      ensures r.Refused? <==> old(role) != Leader || target !in voters || target == id
    {
      if role != Leader { return Refused(NotLeader); }
      if target !in voters || target == id { return Refused(NotAVoter); }
      transfer := Some(target);
      if target in matched && matched[target] >= |log| {
        FireTimeoutNow(target);
      } else {
        SendAppend(target);
      }
      r := Registered;
    }

    /** Hands over each newly committed entry once, in order. */
    method TakeCommitted() returns (entries: Log)
      requires commit <= |log|
      modifies `applied
      ensures Abs() == RaftNode.TakeCommitted(old(Abs())) && entries == NewlyCommitted(old(Abs()))
    {
      if commit <= applied { return []; }
      entries := log[applied..commit];
      applied := commit;
    }

    method TakeReadStates() returns (done: seq<Confirmed>)
      modifies `ready
      ensures Abs() == TakeReads(old(Abs())) && done == old(ready)
    {
      done, ready := ready, [];
    }

    // ---- RPC handlers --------------------------------------------------------------------

    method HandleRequestVote(from: NodeId, t: Term, lastIndex: nat, lastTerm: Term)
      modifies `vote, `messages
      ensures Abs() == RaftNode.HandleRequestVote(old(Abs()), from, t, lastIndex, lastTerm)
    {
      var granted := false;
      if t >= term {
        var logOk := lastTerm > LastTerm(log) || (lastTerm == LastTerm(log) && lastIndex >= |log|);
        var canVote := vote == None || vote == Some(from);
        if canVote && logOk {
          granted, vote := true, Some(from);
        }
      }
      Send(from, term, VoteResp(granted));
    }

    method HandleVoteResp(from: NodeId, t: Term, granted: bool)
      requires Valid()
      modifies this
      ensures Abs() == RaftNode.HandleVoteResp(old(Abs()), from, t, granted)
    {
      if role != Candidate || t != term { return; }
      if granted && from in voters {
        votes := votes + {from};
        var majority := Majority();
        if |votes| >= majority { BecomeLeader(); }
      }
    }

    method HandleTimeoutNow(t: Term)
      requires Valid()
      modifies this
      ensures Abs() == RaftNode.HandleTimeoutNow(old(Abs()), t)
    {
      if t < term || id !in voters { return; }
      StartElection();
    }

    /** The splice loop: skip what is already there, truncate at the first conflict, append the rest. */
    method SpliceEntries(prev: nat, entries: Log)
      requires prev <= |log|
      modifies `log
      ensures log == Splice(old(log), prev, entries)
    {
      var k := 0;
      while k < |entries|
        invariant 0 <= k <= |entries| && prev + k <= |log| && log == old(log)
        invariant Divergence(log, prev, entries, k) == Divergence(log, prev, entries, 0)
      {
        var idx := prev + 1 + k;
        if idx <= |log| {
          if TermAt(log, idx) != Some(entries[k].term) {
            log := log[..idx - 1];
            log := log + entries[k..];
            return;
          }
        } else {
          log := log + entries[k..];
          assert old(log)[..prev + k] == old(log);
          return;
        }
        k := k + 1;
      }
    }

    method HandleAppendEntries(from: NodeId, t: Term, prev: nat, prevTerm: Term, entries: Log, leaderCommit: nat, r: nat)
      modifies `role, `leader, `log, `commit, `messages
      ensures Abs() == RaftNode.HandleAppend(old(Abs()), from, t, prev, prevTerm, entries, leaderCommit, r)
    {
      if t < term {
        Send(from, term, AppendResp(false, 0, r));
        return;
      }
      Follow(from);
      var last := prev + |entries|;
      if last <= 0 {
        Send(from, term, AppendResp(true, 0, r));
        return;
      }
      if TermAt(log, prev) != Some(prevTerm) {
        Send(from, term, AppendResp(false, 0, r));
        return;
      }
      SpliceEntries(prev, entries);
      TakeCommit(leaderCommit, last);
      Send(from, term, AppendResp(true, last, r));
    }

    method Follow(from: NodeId)
      modifies `role, `leader
      ensures Abs() == old(Abs()).(role := Follower, leader := Some(from))
    {
      role, leader := Follower, Some(from);
    }

    method TakeCommit(leaderCommit: nat, last: nat)
      modifies `commit
      ensures Abs() == old(Abs()).(commit := if leaderCommit <= old(commit) then old(commit) else if leaderCommit < last then leaderCommit else last)
    {
      if leaderCommit > commit {
        commit := if leaderCommit < last then leaderCommit else last;
      }
    }

    /** The follower holds the log up to `index`: note it, commit what that allows, finish a transfer. */
    method NoteSuccess(from: NodeId, index: nat)
      requires Valid()
      modifies this
      ensures Abs() == var b := RaftNode.MaybeAdvanceCommit(NoteMatch(old(Abs()), from, index));
        if b.transfer == Some(from) && MatchOf(b, from) >= |b.log| then RaftNode.FireTimeoutNow(b, from) else b
    {
      var m := Max(index, if from in matched then matched[from] else 0);
      matched := matched[from := m];
      next := next[from := m + 1];
      assert Abs() == NoteMatch(old(Abs()), from, index);
      MaybeAdvanceCommit();
      if transfer == Some(from) && m >= |log| { FireTimeoutNow(from); }
    }

    method NoteContact(from: NodeId, echo: nat)
      modifies `recent, `acked
      ensures Abs() == NoteAnswer(old(Abs()), from, echo)
    {
      recent := recent + {from};
      acked := acked[from := Max(if from in acked then acked[from] else 0, echo)];
    }

    method StepBack(from: NodeId)
      modifies `next
      ensures Abs() == BackOff(old(Abs()), from)
    {
      var nx := if from in next then next[from] else 1;
      next := next[from := if nx <= 1 then 1 else nx - 1];
    }

    method HandleAppendResp(from: NodeId, t: Term, success: bool, index: nat, echo: nat)
      requires Valid()
      modifies this
      ensures Abs() == RaftNode.HandleAppendResp(old(Abs()), from, t, success, index, echo)
    {
      if role != Leader || t != term { return; }
      NoteContact(from, echo);
      if success {
        NoteSuccess(from, index);
      } else {
        StepBack(from);
        SendAppend(from);
      }
      AdvanceReads();
    }

    /** Process one inbound message: the uniform term rule, then the handler. */
    method Step(m: Message)
      requires Valid()
      modifies this
      ensures Abs() == RaftNode.Step(old(Abs()), m)
    {
      if m.term > term {
        BecomeFollower(m.term, if m.body.Append? then Some(m.from) else None);
      }
      match m.body
      case RequestVote(i, t) => HandleRequestVote(m.from, m.term, i, t);
      case VoteResp(granted) => HandleVoteResp(m.from, m.term, granted);
      case Append(prev, prevTerm, entries, c, r) => HandleAppendEntries(m.from, m.term, prev, prevTerm, entries, c, r);
      case AppendResp(success, i, echo) => HandleAppendResp(m.from, m.term, success, i, echo);
      case TimeoutNow => HandleTimeoutNow(m.term);
    }
  }
}
