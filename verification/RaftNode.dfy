/** One Raft peer, as values: the entry, message and node records of raft/src/message.rs and
    raft/src/node.rs, and each handler of node.rs as a function from node to node.

    Scope: the voter set is fixed and the log is uncompacted, so `first_index` is 1 and the
    snapshot boundary is 0. Timers are parameters of `Tick`. */
module RaftNode {
  import opened Basics

  type NodeId = nat
  type Term = nat

  datatype Entry = Entry(term: Term, index: nat, data: Bytes)
  type Log = seq<Entry>

  datatype Role = Follower | Candidate | Leader

  datatype Body =
    | RequestVote(lastIndex: nat, lastTerm: Term)
    | VoteResp(granted: bool)
    | Append(prevIndex: nat, prevTerm: Term, entries: Log, leaderCommit: nat, round: nat)
    | AppendResp(success: bool, matchIndex: nat, echo: nat)
    | TimeoutNow

  datatype Message = Message(from: NodeId, to: NodeId, term: Term, body: Body)

  /** A registered read: the caller's tag and the heartbeat round that must be acknowledged. */
  datatype Pending = Pending(ctx: nat, round: nat)
  /** A confirmed read. Term and round are carried along so that a confirmation names its registration. */
  datatype Confirmed = Confirmed(ctx: nat, term: Term, round: nat, index: nat)

  datatype Node = Node(
    id: NodeId, voters: set<NodeId>, role: Role,
    term: Term, vote: Option<NodeId>, log: Log,
    commit: nat, applied: nat, leader: Option<NodeId>,
    votes: set<NodeId>,
    next: map<NodeId, nat>, matched: map<NodeId, nat>,
    transfer: Option<NodeId>,
    recent: set<NodeId>,
    round: nat, acked: map<NodeId, nat>, pending: seq<Pending>, ready: seq<Confirmed>,
    outbox: set<Message>)

  /** Which timers expired on this tick. */
  datatype Timers = Timers(transferExpired: bool, heartbeatDue: bool, quorumDue: bool, electionDue: bool)

  datatype ProposeError = NotLeader | TransferInProgress | NotAVoter

  // ---- the log, with the sentinel at index 0 ---------------------------------

  function LastTerm(log: Log): Term {
    if log == [] then 0 else log[|log| - 1].term
  }

  /** The term at a 1-based index; index 0 is the sentinel and anything past the end is absent. */
  function TermAt(log: Log, index: nat): Option<Term> {
    if index == 0 then Some(0)
    else if index <= |log| then Some(log[index - 1].term)
    else None
  }

  /** Section 5.4.1 of the Raft paper: a candidate's log is at least as up-to-date as ours. */
  predicate UpToDate(lastIndex: nat, lastTerm: Term, log: Log) {
    lastTerm > LastTerm(log) || (lastTerm == LastTerm(log) && lastIndex >= |log|)
  }

  // ---- node construction -----------------------------------------------------

  function Fresh(id: NodeId, voters: set<NodeId>): Node {
    Node(id, voters, Follower, 0, None, [], 0, 0, None, {}, map[], map[], None, {}, 0, map[], [], [], {})
  }

  /** `RaftNode::new` over what storage kept: term, vote and log. The round counter is volatile in
      the code; `keepRound` says whether a restart would keep it. */
  function Restart(n: Node, keepRound: bool): Node {
    Fresh(n.id, n.voters).(term := n.term, vote := n.vote, log := n.log, round := if keepRound then n.round else 0)
  }

  function Majority(n: Node): nat { |n.voters| / 2 + 1 }

  function Send(n: Node, to: NodeId, term: Term, body: Body): Node {
    n.(outbox := n.outbox + {Message(n.id, to, term, body)})
  }

  // ---- replication -----------------------------------------------------------

  function NextFor(n: Node, to: NodeId): nat {
    if to in n.next then n.next[to] else |n.log| + 1
  }

  function AppendFor(n: Node, to: NodeId): Message {
    var next := NextFor(n, to);
    var prev := if next == 0 then 0 else next - 1;
    var prevTerm := match TermAt(n.log, prev) case Some(t) => t case None => 0;
    var entries := if 1 <= next <= |n.log| then n.log[next - 1..] else [];
    Message(n.id, to, n.term, Append(prev, prevTerm, entries, n.commit, n.round))
  }

  /** A peer at `next` 0 would need a snapshot, and an uncompacted log has none to send. */
  function SendAppend(n: Node, to: NodeId): Node {
    if NextFor(n, to) < 1 then n else n.(outbox := n.outbox + {AppendFor(n, to)})
  }

  function AppendsOf(n: Node): set<Message> {
    set p | p in n.voters && p != n.id && NextFor(n, p) >= 1 :: AppendFor(n, p)
  }

  function BroadcastAppend(n: Node): Node {
    n.(outbox := n.outbox + AppendsOf(n))
  }

  // ---- commit and reads ------------------------------------------------------

  function MatchOf(n: Node, v: NodeId): nat {
    if v in n.matched then n.matched[v] else 0
  }

  function Holders(n: Node, index: nat): set<NodeId> {
    set v | v in n.voters && MatchOf(n, v) >= index
  }

  predicate CanCommit(n: Node, index: nat) {
    TermAt(n.log, index) == Some(n.term) && |Holders(n, index)| >= Majority(n)
  }

  /** The highest index in (commit, top] that a majority holds and that is of the current term,
      or the old commit index. */
  function CommitScan(n: Node, top: nat): nat
    decreases top
  {
    if top <= n.commit then n.commit
    else if CanCommit(n, top) then top
    else CommitScan(n, top - 1)
  }

  function Ackers(n: Node, round: nat): set<NodeId> {
    set v | v in n.voters && (v == n.id || (v in n.acked && n.acked[v] >= round))
  }

  /** How many pending reads, oldest first, a majority has confirmed. */
  function ConfirmCount(n: Node, pending: seq<Pending>): nat
    ensures ConfirmCount(n, pending) <= |pending|
  {
    if pending == [] || |Ackers(n, pending[0].round)| < Majority(n) then 0
    else 1 + ConfirmCount(n, pending[1..])
  }

  function ConfirmAll(pending: seq<Pending>, term: Term, index: nat): seq<Confirmed> {
    seq(|pending|, i requires 0 <= i < |pending| => Confirmed(pending[i].ctx, term, pending[i].round, index))
  }

  function AdvanceReads(n: Node): Node {
    if n.role != Leader || n.pending == [] || TermAt(n.log, n.commit) != Some(n.term) then n
    else
      var k := ConfirmCount(n, n.pending);
      n.(ready := n.ready + ConfirmAll(n.pending[..k], n.term, n.commit), pending := n.pending[k..])
  }

  function MaybeAdvanceCommit(n: Node): Node {
    var c := CommitScan(n, |n.log|);
    if c > n.commit then AdvanceReads(n.(commit := c)) else n
  }

  // ---- role transitions ------------------------------------------------------

  function BecomeFollower(n: Node, term: Term, leader: Option<NodeId>): Node {
    var m := if term > n.term then n.(term := term, vote := None) else n;
    m.(role := Follower, leader := leader, transfer := None, pending := [], ready := [])
  }

  function Crown(n: Node): Node {
    n.(role := Leader, leader := Some(n.id),
       next := map p | p in n.voters :: |n.log| + 1,
       matched := (map p | p in n.voters :: 0)[n.id := |n.log|],
       transfer := None, recent := {}, acked := map[], pending := [], ready := [])
  }

  function BecomeLeader(n: Node): Node { BroadcastAppend(Crown(n)) }

  function Campaign(n: Node): Node {
    n.(role := Candidate, term := n.term + 1, vote := Some(n.id), leader := None, votes := {n.id})
  }

  function Solicitations(n: Node): set<Message> {
    set p | p in n.voters && p != n.id :: Message(n.id, p, n.term, RequestVote(|n.log|, LastTerm(n.log)))
  }

  function StartElection(n: Node): Node {
    var c := Campaign(n);
    if |c.votes| >= Majority(c) then BecomeLeader(c)
    else c.(outbox := c.outbox + Solicitations(c))
  }

  // ---- driver inputs ---------------------------------------------------------

  function Heard(n: Node): set<NodeId> {
    set v | v in n.voters && (v == n.id || v in n.recent)
  }

  function CheckQuorum(n: Node): Node {
    var m := n.(recent := {});
    if |Heard(n)| < Majority(n) then BecomeFollower(m, n.term, None) else m
  }

  function Tick(n: Node, t: Timers, checkQuorum: bool): Node {
    if n.role == Leader then
      var a := if t.transferExpired then n.(transfer := None) else n;
      var b := if t.heartbeatDue then BroadcastAppend(a) else a;
      if t.quorumDue then (if checkQuorum then CheckQuorum(b) else b.(recent := {})) else b
    else if t.electionDue && n.id in n.voters then StartElection(n)
    else n
  }

  function AppendLocal(n: Node, data: Bytes): Node {
    var index := |n.log| + 1;
    n.(log := n.log + [Entry(n.term, index, data)],
       matched := n.matched[n.id := index], next := n.next[n.id := index + 1])
  }

  predicate MayPropose(n: Node) { n.role == Leader && n.transfer == None }

  function Propose(n: Node, data: Bytes): Node {
    if !MayPropose(n) then n
    else BroadcastAppend(MaybeAdvanceCommit(AppendLocal(n, data)))
  }

  function Register(n: Node, ctx: nat): Node {
    n.(round := n.round + 1, pending := n.pending + [Pending(ctx, n.round + 1)])
  }

  function ReadIndex(n: Node, ctx: nat): Node {
    if n.role != Leader then n else AdvanceReads(BroadcastAppend(Register(n, ctx)))
  }

  function FireTimeoutNow(n: Node, target: NodeId): Node {
    Send(n, target, n.term, TimeoutNow).(transfer := None)
  }

  function TransferLeadership(n: Node, target: NodeId): Node {
    if n.role != Leader || target !in n.voters || target == n.id then n
    else
      var m := n.(transfer := Some(target));
      if target in m.matched && m.matched[target] >= |m.log| then FireTimeoutNow(m, target)
      else SendAppend(m, target)
  }

  function TakeCommitted(n: Node): Node { if n.commit <= n.applied then n else n.(applied := n.commit) }

  /** What `take_committed` hands to the state machine. */
  function NewlyCommitted(n: Node): Log {
    if n.commit <= n.applied || n.commit > |n.log| then [] else n.log[n.applied..n.commit]
  }

  function TakeReads(n: Node): Node { n.(ready := []) }

  // ---- RPC handlers ----------------------------------------------------------

  predicate Grants(n: Node, from: NodeId, term: Term, lastIndex: nat, lastTerm: Term) {
    && term >= n.term
    && (n.vote == None || n.vote == Some(from))
    && UpToDate(lastIndex, lastTerm, n.log)
  }

  function HandleRequestVote(n: Node, from: NodeId, term: Term, lastIndex: nat, lastTerm: Term): Node {
    var granted := Grants(n, from, term, lastIndex, lastTerm);
    var m := if granted then n.(vote := Some(from)) else n;
    Send(m, from, m.term, VoteResp(granted))
  }

  function HandleVoteResp(n: Node, from: NodeId, term: Term, granted: bool): Node {
    if n.role != Candidate || term != n.term || !granted || from !in n.voters then n
    else
      var m := n.(votes := n.votes + {from});
      if |m.votes| >= Majority(m) then BecomeLeader(m) else m
  }

  function HandleTimeoutNow(n: Node, term: Term): Node {
    if term < n.term || n.id !in n.voters then n else StartElection(n)
  }

  /** The first position of `entries` that is missing from the log or disagrees with it. */
  function Divergence(log: Log, prev: nat, entries: Log, k: nat): nat
    requires k <= |entries|
    ensures k <= Divergence(log, prev, entries, k) <= |entries|
    decreases |entries| - k
  {
    if k == |entries| then k
    else if prev + k < |log| && log[prev + k].term == entries[k].term then Divergence(log, prev, entries, k + 1)
    else k
  }

  /** Skip what is already there, truncate at the first conflict, append the rest. `upTo` cuts the
      append short: a crash may leave only part of it durable. */
  function SpliceUpTo(log: Log, prev: nat, entries: Log, upTo: nat): Log
    requires prev <= |log|
  {
    var k := Divergence(log, prev, entries, 0);
    if k == |entries| then log
    else
      DivergenceInLog(log, prev, entries, 0);
      log[..prev + k] + entries[k..if k <= upTo <= |entries| then upTo else k]
  }

  lemma DivergenceInLog(log: Log, prev: nat, entries: Log, k: nat)
    requires prev <= |log| && k <= |entries| && prev + k <= |log|
    ensures prev + Divergence(log, prev, entries, k) <= |log|
    decreases |entries| - k
  {
  }

  function Splice(log: Log, prev: nat, entries: Log): Log
    requires prev <= |log|
  {
    SpliceUpTo(log, prev, entries, |entries|)
  }

  /** A current-term append whose anchor matches: take the entries, then the leader's commit. */
  function Accept(n: Node, prev: nat, entries: Log, leaderCommit: nat): Node
    requires prev <= |n.log|
  {
    var last := prev + |entries|;
    n.(log := Splice(n.log, prev, entries),
       commit := if leaderCommit > n.commit then (if leaderCommit < last then leaderCommit else last) else n.commit)
  }

  function Follow(n: Node, from: NodeId): Node { n.(role := Follower, leader := Some(from)) }

  predicate Anchored(n: Node, prev: nat, prevTerm: Term) { TermAt(n.log, prev) == Some(prevTerm) }

  function HandleAppend(n: Node, from: NodeId, term: Term, prev: nat, prevTerm: Term, entries: Log,
                        leaderCommit: nat, round: nat): Node
  {
    if term < n.term then Send(n, from, n.term, AppendResp(false, 0, round))
    else
      var f := Follow(n, from);
      if prev + |entries| == 0 then Send(f, from, f.term, AppendResp(true, 0, round))
      else if !Anchored(f, prev, prevTerm) then Send(f, from, f.term, AppendResp(false, 0, round))
      else Send(Accept(f, prev, entries, leaderCommit), from, f.term, AppendResp(true, prev + |entries|, round))
  }

  function Max(a: nat, b: nat): nat { if a >= b then a else b }

  /** Any answer of this term counts as contact and acknowledges the round it echoes. */
  function NoteAnswer(n: Node, from: NodeId, echo: nat): Node {
    n.(recent := n.recent + {from},
       acked := n.acked[from := Max(if from in n.acked then n.acked[from] else 0, echo)])
  }

  function NoteMatch(n: Node, from: NodeId, index: nat): Node {
    var m := Max(index, MatchOf(n, from));
    n.(matched := n.matched[from := m], next := n.next[from := m + 1])
  }

  function BackOff(n: Node, from: NodeId): Node {
    var next := if from in n.next then n.next[from] else 1;
    n.(next := n.next[from := if next <= 1 then 1 else next - 1])
  }

  function HandleAppendResp(n: Node, from: NodeId, term: Term, success: bool, index: nat, echo: nat): Node {
    if n.role != Leader || term != n.term then n
    else
      var a := NoteAnswer(n, from, echo);
      if success then
        var b := MaybeAdvanceCommit(NoteMatch(a, from, index));
        var c := if b.transfer == Some(from) && MatchOf(b, from) >= |b.log| then FireTimeoutNow(b, from) else b;
        AdvanceReads(c)
      else AdvanceReads(SendAppend(BackOff(a, from), from))
  }

  /** The uniform term rule, then the handler. */
  function AdoptTerm(n: Node, m: Message): Node {
    if m.term > n.term
    then BecomeFollower(n, m.term, if m.body.Append? then Some(m.from) else None)
    else n
  }

  function Handle(n: Node, m: Message): Node {
    match m.body
    case RequestVote(lastIndex, lastTerm) => HandleRequestVote(n, m.from, m.term, lastIndex, lastTerm)
    case VoteResp(granted) => HandleVoteResp(n, m.from, m.term, granted)
    case Append(prev, prevTerm, entries, leaderCommit, round) =>
      HandleAppend(n, m.from, m.term, prev, prevTerm, entries, leaderCommit, round)
    case AppendResp(success, index, echo) => HandleAppendResp(n, m.from, m.term, success, index, echo)
    case TimeoutNow => HandleTimeoutNow(n, m.term)
  }

  function Step(n: Node, m: Message): Node { Handle(AdoptTerm(n, m), m) }

  /** A crash while a message is being handled: the term it brought is durable, and of an append the splice up to
      `upTo` of its entries; a vote or anything sent is not. */
  function CrashMidway(n: Node, m: Message, upTo: nat, keepRound: bool): Node {
    var a := AdoptTerm(n, m);
    if !m.body.Append? || m.term < a.term || m.body.prevIndex + |m.body.entries| == 0 || !Anchored(a, m.body.prevIndex, m.body.prevTerm)
    then Restart(a, keepRound)
    else Restart(a.(log := SpliceUpTo(a.log, m.body.prevIndex, m.body.entries, upTo)), keepRound)
  }
}
