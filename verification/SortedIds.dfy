/** Lists of ids sorted without repetition, as `sort_unstable` and `dedup` leave them. */
module SortedIds {
  type Ids = seq<nat>

  ghost predicate Ascending(s: Ids) { forall i: nat, j: nat | i < j < |s| :: s[i] < s[j] }

  function Insert(x: nat, s: Ids): (r: Ids)
    requires Ascending(s)
    ensures Ascending(r) && (forall y :: y in r <==> y == x || y in s)
  {
    if s == [] then [x]
    else if x < s[0] then [x] + s
    else if x == s[0] then s
    else
      var r := Insert(x, s[1..]);
      Fronted(s[0], r);
      [s[0]] + r
  }

  lemma Fronted(x: nat, r: Ids)
    requires Ascending(r) && forall y | y in r :: x < y
    ensures Ascending([x] + r)
  {
    var s := [x] + r;
    forall i: nat, j: nat | i < j < |s| ensures s[i] < s[j] {
      assert s[j] == r[j - 1] && s[j] in r;
      if i > 0 { assert s[i] == r[i - 1]; }
    }
  }

  /** `sort_unstable` then `dedup`. */
  function Norm(s: Ids): (r: Ids)
    ensures Ascending(r) && forall y :: y in r <==> y in s
  {
    if s == [] then [] else Insert(s[|s| - 1], Norm(s[..|s| - 1]))
  }

  /** A sorted list is determined by its members. */
  lemma {:induction false} SameMembers(a: Ids, b: Ids)
    requires Ascending(a) && Ascending(b) && forall y :: y in a <==> y in b
    ensures a == b
  {
    assert b != [] ==> b[0] in b;
    if a != [] {
      assert a[0] in a;
      assert a[0] in b;
      var i: nat :| i < |b| && b[i] == a[0];
      var j: nat :| j < |a| && a[j] == b[0];
      assert a[0] == b[0];
      forall y ensures y in a[1..] <==> y in b[1..] {
        assert y in a <==> y == a[0] || y in a[1..];
        assert y in b <==> y == b[0] || y in b[1..];
        assert a[0] !in a[1..] && b[0] !in b[1..];
      }
      SameMembers(a[1..], b[1..]);
      assert a == [a[0]] + a[1..] && b == [b[0]] + b[1..];
    }
  }

  lemma NormStable(s: Ids)
    requires Ascending(s)
    ensures Norm(s) == s
  {
    SameMembers(Norm(s), s);
  }
}
