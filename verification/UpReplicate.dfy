/** Growing a region's group toward the voters it should have (server/src/upreplicate.rs): a pure planner, one
    membership change at a time, learner first. */
module UpReplicate {
  import opened Basics
  import opened RaftHistory
  import opened SortedIds
  import opened ConfChange

  /** Desired ids that are not voters yet. */
  function Missing(voters: Ids, desired: Ids): (r: Ids)
    ensures forall x :: x in r <==> x in desired && x !in voters
  {
    if desired == [] then []
    else
      var x := desired[|desired| - 1];
      Missing(voters, desired[..|desired| - 1]) + if x in voters then [] else [x]
  }

  function NextStep(c: Conf, desired: Ids, caughtUp: nat -> bool): Option<Change> {
    var missing := Norm(Missing(c.voters, desired));
    if missing == [] then None
    else if missing[0] !in c.learners then Some(AddLearner(missing[0]))
    else if caughtUp(missing[0]) then Some(AddNode(missing[0]))
    else None
  }

  /** Two for each missing node that is no learner yet, one for each that is. */
  ghost function Distance(c: Conf, desired: Ids): nat {
    var missing := Members(desired) - Members(c.voters);
    |missing| + |missing - Members(c.learners)|
  }

  lemma Picks(c: Conf, desired: Ids, caughtUp: nat -> bool)
    requires NextStep(c, desired, caughtUp).Some?
    ensures var x := NextStep(c, desired, caughtUp).value.id;
      && x in desired && x !in c.voters
      && forall y | y in desired && y !in c.voters :: x <= y
  {
    var missing := Norm(Missing(c.voters, desired));
    assert missing[0] in missing;
    forall y | y in desired && y !in c.voters ensures missing[0] <= y {
      assert y in missing;
    }
  }

  /** Every step keeps every voter and brings the group strictly closer. */
  lemma StepCloses(c: Conf, desired: Ids, caughtUp: nat -> bool)
    requires NextStep(c, desired, caughtUp).Some?
    ensures var n := ApplyChange(c, NextStep(c, desired, caughtUp).value);
      Members(c.voters) <= Members(n.voters) && Distance(n, desired) < Distance(c, desired)
  {
    Picks(c, desired, caughtUp);
    var cc := NextStep(c, desired, caughtUp).value;
    var n := ApplyChange(c, cc);
    var was, now := Members(desired) - Members(c.voters), Members(desired) - Members(n.voters);
    match cc
    case AddLearner(x) =>
      assert now == was;
      assert now - Members(n.learners) == (was - Members(c.learners)) - {x};
      Shrinks(was - Members(c.learners), x);
    case AddNode(x) =>
      assert now == was - {x};
      Shrinks(was, x);
      assert now - Members(n.learners) <= was - Members(c.learners);
      SubsetSize(now - Members(n.learners), was - Members(c.learners));
  }

  lemma Shrinks(s: set<nat>, x: nat)
    requires x in s
    ensures |s - {x}| == |s| - 1
  {
  }

  /** The planner rests exactly when every desired node votes, or the next one is a learner still catching up. */
  lemma RestsWhen(c: Conf, desired: Ids, caughtUp: nat -> bool)
    ensures NextStep(c, desired, caughtUp).None? <==>
      || Members(desired) <= Members(c.voters)
      || exists x :: Lowest(c, desired, x) && x in c.learners && !caughtUp(x)
  {
    var missing := Norm(Missing(c.voters, desired));
    if missing == [] {
      forall x | x in desired ensures x in c.voters { assert x !in missing; }
    } else {
      assert missing[0] in missing;
      assert missing[0] in Members(desired) && missing[0] !in Members(c.voters);
      forall y | y in desired && y !in c.voters ensures missing[0] <= y { assert y in missing; }
      assert Lowest(c, desired, missing[0]);
      forall x | Lowest(c, desired, x) ensures x == missing[0] { assert x in missing; }
    }
  }

  ghost predicate Lowest(c: Conf, desired: Ids, x: nat) {
    x in desired && x !in c.voters && forall y | y in desired && y !in c.voters :: x <= y
  }

  /** Driven with learners that catch up, the group comes to include every desired voter and loses none. */
  ghost function Grow(c: Conf, desired: Ids): (n: Conf)
    ensures Members(desired) <= Members(n.voters) && Members(c.voters) <= Members(n.voters)
    decreases Distance(c, desired)
  {
    var step := NextStep(c, desired, _ => true);
    RestsWhen(c, desired, _ => true);
    if step.None? then c
    else
      StepCloses(c, desired, _ => true);
      Grow(ApplyChange(c, step.value), desired)
  }

  /** A pass of the driver: propose the next step, or wait. */
  ghost predicate Pass(c: Conf, n: Conf, desired: Ids) {
    n == c || exists caughtUp: nat -> bool {:trigger NextStep(c, desired, caughtUp)} ::
      NextStep(c, desired, caughtUp).Some? && n == ApplyChange(c, NextStep(c, desired, caughtUp).value)
  }

  lemma PassOk(c: Conf, n: Conf, desired: Ids)
    requires Pass(c, n, desired)
    ensures Members(c.voters) <= Members(n.voters) && Distance(n, desired) <= Distance(c, desired)
    ensures n != c ==> Distance(n, desired) < Distance(c, desired)
  {
    if n != c {
      var caughtUp: nat -> bool {:trigger NextStep(c, desired, caughtUp)} :|
        NextStep(c, desired, caughtUp).Some? && n == ApplyChange(c, NextStep(c, desired, caughtUp).value);
      StepCloses(c, desired, caughtUp);
    }
  }

  /** However the learners catch up, no run of passes drops a voter, and one makes at most as many changes as the
      distance it started at. */
  lemma {:induction false} RunsAreShort(cs: seq<Conf>, desired: Ids)
    requires |cs| > 0 && forall i: nat | i + 1 < |cs| :: Pass(cs[i], cs[i + 1], desired) && cs[i] != cs[i + 1]
    ensures Members(cs[0].voters) <= Members(cs[|cs| - 1].voters)
    ensures |cs| - 1 + Distance(cs[|cs| - 1], desired) <= Distance(cs[0], desired)
  {
    if |cs| > 1 {
      var n := |cs| - 1;
      forall i: nat | i + 1 < n ensures Pass(cs[..n][i], cs[..n][i + 1], desired) && cs[..n][i] != cs[..n][i + 1] {}
      RunsAreShort(cs[..n], desired);
      assert Pass(cs[n - 1], cs[n - 1 + 1], desired);
      PassOk(cs[n - 1], cs[n], desired);
    }
  }
}
