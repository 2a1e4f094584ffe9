/** Membership changes (raft/src/message.rs, raft/src/node.rs): one member at a time, recorded in the log with the
    membership that results. */
module ConfChange {
  import opened Basics
  import opened ByteOrder
  import opened Codec
  import opened RaftHistory
  import opened SortedIds

  datatype Change = AddNode(id: nat) | RemoveNode(id: nat) | AddLearner(id: nat)

  /** Voters and learners, each sorted without repetition. */
  datatype Conf = Conf(voters: Ids, learners: Ids)

  function Tidy(c: Conf): Conf { Conf(Norm(c.voters), Norm(c.learners)) }

  // ---- one change --------------------------------------------------------------------------------

  function Without(s: Ids, x: nat): (r: Ids)
    ensures forall y :: y in r <==> y in s && y != x
  {
    if s == [] then [] else Without(s[..|s| - 1], x) + if s[|s| - 1] == x then [] else [s[|s| - 1]]
  }

  function ApplyChange(c: Conf, cc: Change): Conf {
    match cc
    case AddNode(id) => Conf(if id in c.voters then c.voters else c.voters + [id], Without(c.learners, id))
    case RemoveNode(id) => Conf(Without(c.voters, id), Without(c.learners, id))
    case AddLearner(id) => if id in c.voters || id in c.learners then c else c.(learners := c.learners + [id])
  }

  ghost function Members(s: Ids): set<nat> { set x | x in s }

  ghost predicate Majority(q: set<nat>, s: Ids) { q <= Members(s) && |q| >= |Members(s)| / 2 + 1 }

  /** What a change means, whatever the lists look like: a node added votes and no longer learns; one removed does neither;
      one taken on as a learner was neither before. Nobody else is touched. */
  ghost predicate IsChange(c: Conf, cc: Change, d: Conf) {
    var v, l := Members(c.voters), Members(c.learners);
    match cc
    case AddNode(x) => Members(d.voters) == v + {x} && Members(d.learners) == l - {x}
    case RemoveNode(x) => Members(d.voters) == v - {x} && Members(d.learners) == l - {x}
    case AddLearner(x) => Members(d.voters) == v && Members(d.learners) == if x in v then l else l + {x}
  }

  lemma ChangeIs(c: Conf, cc: Change)
    ensures IsChange(c, cc, ApplyChange(c, cc)) && IsChange(c, cc, Tidy(ApplyChange(c, cc)))
  {
    var d := ApplyChange(c, cc);
    WithoutMembers(c.voters, cc.id);
    WithoutMembers(c.learners, cc.id);
    WithMember(c.voters, cc.id);
    WithMember(c.learners, cc.id);
    NormMembers(d.voters);
    NormMembers(d.learners);
  }

  lemma WithoutMembers(s: Ids, x: nat)
    ensures Members(Without(s, x)) == Members(s) - {x}
  {
  }

  lemma WithMember(s: Ids, x: nat)
    ensures Members(s + [x]) == Members(s) + {x} && (x in s ==> Members(s) + {x} == Members(s))
  {
  }

  lemma NormMembers(s: Ids)
    ensures Members(Norm(s)) == Members(s)
  {
  }

  /** Nobody both votes and learns. */
  ghost predicate Disjoint(c: Conf) { Members(c.voters) !! Members(c.learners) }

  lemma ChangeKeepsDisjoint(c: Conf, cc: Change, d: Conf)
    requires Disjoint(c) && IsChange(c, cc, d)
    ensures Disjoint(d)
  {
  }

  /** At most one voter comes or goes. */
  lemma OneVoter(c: Conf, cc: Change)
    ensures var n := ApplyChange(c, cc);
      || Members(n.voters) == Members(c.voters)
      || Members(n.voters) == Members(c.voters) + {cc.id}
      || Members(n.voters) == Members(c.voters) - {cc.id}
  {
  }

  /** Any majority before a single change meets any majority after it. */
  lemma MajoritiesMeet(c: Conf, cc: Change, p: set<nat>, q: set<nat>)
    requires Majority(p, c.voters) && Majority(q, ApplyChange(c, cc).voters)
    ensures p * q != {}
  {
    var v, w := Members(c.voters), Members(ApplyChange(c, cc).voters);
    OneVoter(c, cc);
    SizeAround(v, cc.id);
    var all := if w == v + {cc.id} then w else v;
    assert p * q == {} ==> |p + q| == |p| + |q|;
    SubsetSize(p + q, all);
  }

  lemma SizeAround(v: set<nat>, x: nat)
    ensures |v| <= |v + {x}| <= |v| + 1 && |v| - 1 <= |v - {x}| <= |v|
    ensures x !in v ==> |v + {x}| == |v| + 1
    ensures x in v ==> |v - {x}| == |v| - 1
  {
    if x in v { assert v + {x} == v; } else { assert v - {x} == v; }
  }

  // ---- the entry's payload ---------------------------------------------------------------------------

  function EncodeIds(s: Ids): Bytes { if s == [] then [] else Be(s[0], 8) + EncodeIds(s[1..]) }

  function DecodeIds(buf: Bytes, n: nat): Option<(Ids, Bytes)>
    decreases n
  {
    if n == 0 then Some(([], buf))
    else if |buf| < 8 then None
    else
      match DecodeIds(buf[8..], n - 1)
      case None => None
      case Some((s, rest)) => Some(([FromBe(buf[..8])] + s, rest))
  }

  function Op(cc: Change): Byte { match cc case AddNode(_) => 1 case RemoveNode(_) => 2 case AddLearner(_) => 3 }

  function Encode(cc: Change, c: Conf): Bytes {
    [Op(cc)] + (Be(cc.id, 8) + (Be(|c.voters|, 4) + (EncodeIds(c.voters) + (Be(|c.learners|, 4) + EncodeIds(c.learners)))))
  }

  /** The membership a payload records; an entry without a learner section has no learners. */
  function Decode(b: Bytes): Option<Conf> {
    if |b| < 13 || b[0] < 1 || b[0] > 3 then None
    else
      match DecodeIds(b[1..][8..][4..], FromBe(b[1..][8..][..4]))
      case None => None
      case Some((voters, rest)) =>
        if |rest| < 4 then Some(Conf(voters, []))
        else
          match DecodeIds(rest[4..], FromBe(rest[..4]))
          case None => None
          case Some((learners, _)) => Some(Conf(voters, learners))
  }

  ghost predicate Fits(s: Ids) { |s| < U32 && forall x | x in s :: x < U64 }

  lemma {:induction false} IdsRoundTrip(s: Ids, rest: Bytes)
    requires forall x | x in s :: x < U64
    ensures DecodeIds(EncodeIds(s) + rest, |s|) == Some((s, rest))
  {
    if s == [] {
      assert EncodeIds(s) + rest == rest;
    } else {
      assert s[0] in s;
      Widths();
      Assoc(Be(s[0], 8), EncodeIds(s[1..]), rest);
      BeFront(s[0], 8, EncodeIds(s[1..]) + rest);
      assert forall x | x in s[1..] :: x in s;
      IdsRoundTrip(s[1..], rest);
      assert [s[0]] + s[1..] == s;
    }
  }

  lemma Head(op: Byte, id: nat, rest: Bytes)
    ensures var b := [op] + (Be(id, 8) + rest); b[0] == op && b[1..][8..] == rest && |b| == 9 + |rest|
  {
  }

  /** Any replica reads from the entry the membership the leader recorded. */
  lemma PayloadRoundTrip(cc: Change, c: Conf)
    requires Fits(c.voters) && Fits(c.learners)
    ensures Decode(Encode(cc, c)) == Some(c)
  {
    Widths();
    var learners := Be(|c.learners|, 4) + EncodeIds(c.learners);
    var voters := EncodeIds(c.voters) + learners;
    Head(Op(cc), cc.id, Be(|c.voters|, 4) + voters);
    BeFront(|c.voters|, 4, voters);
    IdsRoundTrip(c.voters, learners);
    BeFront(|c.learners|, 4, EncodeIds(c.learners));
    IdsRoundTrip(c.learners, []);
    assert EncodeIds(c.learners) + [] == EncodeIds(c.learners);
  }
}
