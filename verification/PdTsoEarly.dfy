/** `hand_out` itself does not look at a pending reset, so the driver must: with the check ranges are always
    apart, without it a run hands the same timestamp out twice. */
module PdTsoEarly {
  import opened Basics
  import opened PdTso
  import opened PdTsoProof

  ghost predicate ApartIn(st: seq<Pd>, n: nat, i: nat, j: nat) {
    n < |st| && i < |st[n].ranges| && j < |st[n].ranges| && i != j ==> Apart(st[n].ranges[i], st[n].ranges[j])
  }

  ghost predicate AlwaysApart(guarded: bool) {
    forall st: seq<Pd>, n: nat, i: nat, j: nat {:trigger ApartIn(st, n, i, j)} | Run(st, guarded) :: ApartIn(st, n, i, j)
  }

  // ---- a run without the check: replica 1 leads term 1, replica 2 term 2, replica 1 term 3 ------------

  function Act(i: nat): Action {
    match i
    case 0 => Driver(1, News(1, true, 1, 0))
    case 1 => CommitEntry(E1)
    case 2 => Driver(1, News(1, true, 1, 1))
    case 3 => CommitEntry(E2)
    case 4 => Driver(2, News(2, true, 3, 2))
    case 5 => CommitEntry(E3)
    case 6 => Driver(2, News(2, true, 3, 3))
    case 7 => CommitEntry(E4)
    case 8 => Driver(2, News(2, true, 3, 4))
    case 9 => HandOut(2, 1)
    case 10 => Driver(1, News(2, false, 0, 4))
    case 11 => Driver(1, News(3, true, 5, 4))
    case _ => HandOut(1, 0x1_0002)
  }

  // no-op and reservation of term 1, then of term 2
  const E1: Entry := Entry(1, 0)
  const E2: Entry := Entry(1, 0x1_0001)
  const E3: Entry := Entry(2, 0)
  const E4: Entry := Entry(2, 0x2_0002)

  function Scene(log: seq<Entry>, wins: map<Term, (Id, nat)>, one: Replica, two: Replica, ranges: seq<Range>): Pd {
    Pd(log, wins, map[1 := one, 2 := two], ranges)
  }

  /** The states of the run, one after another. */
  function State(i: nat): Pd {
    var idle := Replica(0, false, 0, 0, None);
    var led := Replica(1, true, 1, 0, None);
    var w1 := map[1 := (1, 1)];
    var w2 := map[1 := (1, 1), 2 := (2, 3)];
    var two := Replica(2, true, 4, 0x1_0002, None);
    var spent := [Range(2, 0x1_0001, 0x1_0002)];
    match i
    case 0 => Scene([], map[], idle, idle, [])
    case 1 => Scene([], w1, Replica(1, true, 0, 0, Some(1)), idle, [])
    case 2 => Scene([E1], w1, Replica(1, true, 0, 0, Some(1)), idle, [])
    case 3 => Scene([E1], w1, led, idle, [])
    case 4 => Scene([E1, E2], w1, led, idle, [])
    case 5 => Scene([E1, E2], w2, led, Replica(2, true, 2, 0, Some(3)), [])
    case 6 => Scene([E1, E2, E3], w2, led, Replica(2, true, 2, 0, Some(3)), [])
    case 7 => Scene([E1, E2, E3], w2, led, Replica(2, true, 3, 0x1_0001, None), [])
    case 8 => Scene([E1, E2, E3, E4], w2, led, Replica(2, true, 3, 0x1_0001, None), [])
    case 9 => Scene([E1, E2, E3, E4], w2, led, Replica(2, true, 4, 0x1_0001, None), [])
    case 10 => Scene([E1, E2, E3, E4], w2, led, two, spent)
    case 11 => Scene([E1, E2, E3, E4], w2, Replica(2, false, 4, 0, None), two, spent)
    case 12 => Scene([E1, E2, E3, E4], w2[3 := (1, 5)], Replica(3, true, 4, 0, Some(5)), two, spent)
    case _ =>
      Scene([E1, E2, E3, E4], w2[3 := (1, 5)], Replica(3, true, 4, 0x1_0002, Some(5)), two, spent + [Range(3, 0, 0x1_0002)])
  }

  lemma Uppers(log: seq<Entry>)
    requires [E1, E2, E3] <= log
    ensures Upper(log, 1) == 0 && Upper(log, 2) == 0x1_0001 && Upper(log, 3) == 0x1_0001
    ensures |log| >= 4 && log[3] == E4 ==> Upper(log, 4) == 0x2_0002
  {
    assert log[0] == E1 && log[1] == E2 && log[2] == E3;
    assert Upper(log, 1) == 0;
    assert Upper(log, 2) == 0x1_0001;
  }

  ghost predicate Follows(i: nat) { Enabled(State(i), Act(i), false) && Do(State(i), Act(i)) == State(i + 1) }

  lemma FirstTerm()
    ensures Follows(0) && Follows(1) && Follows(2) && Follows(3)
  {
    assert Upper([E1], 1) == 0;
  }

  lemma SecondTerm()
    ensures Follows(4) && Follows(5) && Follows(6) && Follows(7)
  {
    Uppers([E1, E2, E3]);
    assert [E1, E2, E3] + [E4] == [E1, E2, E3, E4];
  }

  lemma Spent()
    ensures Follows(8) && Follows(9)
  {
    Uppers([E1, E2, E3, E4]);
  }

  lemma ThirdTerm()
    ensures Follows(10) && Follows(11)
  {
  }

  lemma TooEarly()
    ensures Follows(12)
  {
    Uppers([E1, E2, E3, E4]);
  }

  lemma Moving(i: nat)
    requires i < 13
    ensures Moves(State(i), State(i + 1), false)
  {
    if i < 4 { FirstTerm(); }
    else if i < 8 { SecondTerm(); }
    else if i < 10 { Spent(); }
    else if i < 12 { ThirdTerm(); }
    else { TooEarly(); }
    assert Follows(i);
  }

  lemma Begins()
    ensures State(0) == Start({1, 2})
  {
  }

  /** A leader that has not yet reset its cursor hands out timestamps its predecessor already gave. */
  lemma HandedOutTwice(st: seq<Pd>)
    requires |st| == 14 && forall i | 0 <= i < 14 :: st[i] == State(i)
    ensures Run(st, false) && !ApartIn(st, 13, 0, 1)
  {
    Begins();
    forall i | 0 <= i < |st| - 1 ensures Moves(st[i], st[i + 1], false) { Moving(i); }
    assert st[0] == Start({1, 2});
  }

  /** Timestamps are unique across failover exactly when `hand_out` waits for the pending reset. */
  lemma UniqueIffGuarded(guarded: bool)
    ensures AlwaysApart(guarded) <==> guarded
  {
    if guarded {
      forall st: seq<Pd>, n: nat, i: nat, j: nat | Run(st, guarded) ensures ApartIn(st, n, i, j) {
        if n < |st| && i < |st[n].ranges| && j < |st[n].ranges| && i != j { RangesApart(st, n, i, j); }
      }
    } else {
      var st := seq(14, i requires 0 <= i < 14 => State(i));
      assert forall i | 0 <= i < 14 :: st[i] == State(i);
      HandedOutTwice(st);
    }
  }
}
