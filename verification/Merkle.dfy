/** The Merkle comparison of two replicas (server/src/anti_entropy.rs): a heap-shaped tree over the leaf hashes, and a
    descent that prunes equal subtrees. The hash that combines two children is any function. */
module Merkle {
  import opened SortedIds

  const LEAVES: nat := 256

  type Mix = (nat, nat) -> nat

  ghost predicate Combines(nodes: seq<nat>, mix: Mix, i: nat) {
    1 <= i < LEAVES && |nodes| == 2 * LEAVES ==> nodes[i] == mix(nodes[2 * i], nodes[2 * i + 1])
  }

  /** A tree: leaves at `LEAVES` and above, each inner node the mix of its two children. */
  ghost predicate IsTree(nodes: seq<nat>, leaves: seq<nat>, mix: Mix) {
    && |leaves| == LEAVES && |nodes| == 2 * LEAVES
    && (forall i: nat | i < LEAVES :: nodes[LEAVES + i] == leaves[i])
    && forall i: nat {:trigger Combines(nodes, mix, i)} :: Combines(nodes, mix, i)
  }

  /** `from_digest`: copy the leaves, then combine upward in place. */
  method FromDigest(leaves: seq<nat>, mix: Mix) returns (nodes: array<nat>)
    requires |leaves| == LEAVES
    ensures fresh(nodes) && IsTree(nodes[..], leaves, mix)
  {
    nodes := new nat[2 * LEAVES](i => 0);
    var i := 0;
    while i < LEAVES
      invariant i <= LEAVES && forall j: nat | j < i :: nodes[LEAVES + j] == leaves[j]
    {
      nodes[LEAVES + i] := leaves[i];
      i := i + 1;
    }
    i := LEAVES - 1;
    while i >= 1
      invariant 0 <= i < LEAVES
      invariant forall j: nat | j < LEAVES :: nodes[LEAVES + j] == leaves[j]
      invariant forall j: nat {:trigger Combines(nodes[..], mix, j)} | i < j :: Combines(nodes[..], mix, j)
    {
      ghost var was := nodes[..];
      nodes[i] := mix(nodes[2 * i], nodes[2 * i + 1]);
      forall j: nat | i <= j ensures Combines(nodes[..], mix, j) { assert j > i ==> Combines(was, mix, j); }
      i := i - 1;
    }
    forall j: nat ensures Combines(nodes[..], mix, j) {}
  }

  // ---- ancestors ---------------------------------------------------------------------------------

  /** `s` is `l` or above it. */
  predicate Above(s: nat, l: nat)
    decreases l
  {
    s == l || (l > s && l > 1 && Above(s, l / 2))
  }

  lemma {:induction false} AboveOrder(s: nat, l: nat)
    requires Above(s, l)
    ensures s <= l
    decreases l
  {
  }

  lemma {:induction false} AboveTrans(a: nat, b: nat, c: nat)
    requires Above(a, b) && Above(b, c)
    ensures Above(a, c)
    decreases c
  {
    if b != c {
      AboveTrans(a, b, c / 2);
      AboveOrder(a, c / 2);
    }
  }

  /** What lies below an inner node lies below one of its children, or is the node. */
  lemma {:induction false} BelowChild(s: nat, l: nat)
    requires s >= 1 && Above(s, l) && s != l
    ensures Above(2 * s, l) || Above(2 * s + 1, l)
    decreases l
  {
    if l / 2 != s {
      BelowChild(s, l / 2);
      AboveOrder(s, l / 2);
    }
  }

  // ---- the descent -----------------------------------------------------------------------------------

  /** A node whose hash differs, as do the hashes of all above it. */
  ghost predicate Exposed(a: seq<nat>, b: seq<nat>, i: nat)
    requires |a| == |b| == 2 * LEAVES && 1 <= i < 2 * LEAVES
    decreases i
  {
    a[i] != b[i] && (i == 1 || Exposed(a, b, i / 2))
  }

  lemma {:induction false} ExposedAbove(a: seq<nat>, b: seq<nat>, s: nat, l: nat)
    requires |a| == |b| == 2 * LEAVES && 1 <= s && Above(s, l) && l < 2 * LEAVES && Exposed(a, b, l)
    ensures s < 2 * LEAVES && Exposed(a, b, s)
    decreases l
  {
    AboveOrder(s, l);
    if s != l { ExposedAbove(a, b, s, l / 2); }
  }

  lemma {:induction false} RootAbove(l: nat)
    requires l >= 1
    ensures Above(1, l)
    decreases l
  {
    if l > 1 { RootAbove(l / 2); }
  }

  /** How many nodes the subtree of a node has, by its depth: what bounds the descent. */
  function Size(i: nat): nat {
    if i >= 256 then 1
    else if i >= 128 then 3
    else if i >= 64 then 7
    else if i >= 32 then 15
    else if i >= 16 then 31
    else if i >= 8 then 63
    else if i >= 4 then 127
    else if i >= 2 then 255
    else 511
  }

  lemma SizeSplits(i: nat)
    requires 1 <= i < LEAVES
    ensures Size(i) == 1 + Size(2 * i) + Size(2 * i + 1)
  {
  }

  function TotalSize(stack: seq<nat>): nat {
    if stack == [] then 0 else TotalSize(stack[..|stack| - 1]) + Size(stack[|stack| - 1])
  }

  ghost predicate Waiting(stack: seq<nat>, l: nat) { exists i: nat | i < |stack| :: Above(stack[i], l) }

  // The parts of the descent's invariant, one instance each.

  /** A node on the stack hangs below an exposed parent. */
  ghost predicate Edge(a: seq<nat>, b: seq<nat>, stack: seq<nat>, i: nat)
    requires |a| == |b| == 2 * LEAVES
  {
    i < |stack| ==> 1 <= stack[i] < 2 * LEAVES && (stack[i] == 1 || Exposed(a, b, stack[i] / 2))
  }

  ghost predicate Separate(stack: seq<nat>, i: nat, j: nat) {
    i < |stack| && j < |stack| && i != j ==> !Above(stack[i], stack[j])
  }

  ghost predicate Right(a: seq<nat>, b: seq<nat>, stack: seq<nat>, out: seq<nat>, x: nat)
    requires |a| == |b| == 2 * LEAVES
  {
    x in out ==> x < LEAVES && Exposed(a, b, LEAVES + x) && !Waiting(stack, LEAVES + x)
  }

  ghost predicate Kept(a: seq<nat>, b: seq<nat>, stack: seq<nat>, out: seq<nat>, x: nat)
    requires |a| == |b| == 2 * LEAVES
  {
    x < LEAVES && Exposed(a, b, LEAVES + x) ==> x in out || Waiting(stack, LEAVES + x)
  }

  /** The stack is a frontier: nodes below exposed parents, none above another. Every exposed leaf is found or
      still below it, not both, and none is found twice. */
  ghost predicate Descending(a: seq<nat>, b: seq<nat>, stack: seq<nat>, out: seq<nat>)
    requires |a| == |b| == 2 * LEAVES
  {
    && (forall i: nat {:trigger Edge(a, b, stack, i)} :: Edge(a, b, stack, i))
    && (forall i: nat, j: nat {:trigger Separate(stack, i, j)} :: Separate(stack, i, j))
    && (forall x: nat {:trigger Right(a, b, stack, out, x)} :: Right(a, b, stack, out, x))
    && (forall x: nat {:trigger Kept(a, b, stack, out, x)} :: Kept(a, b, stack, out, x))
  }

  lemma WaitingPop(stack: seq<nat>, l: nat)
    requires stack != []
    ensures Waiting(stack, l) <==> Waiting(stack[..|stack| - 1], l) || Above(stack[|stack| - 1], l)
  {
    var n := |stack| - 1;
    if Waiting(stack[..n], l) {
      var i: nat :| i < n && Above(stack[..n][i], l);
      assert Above(stack[i], l);
    }
    if Waiting(stack, l) {
      var i: nat :| i < |stack| && Above(stack[i], l);
      if i < n { assert Above(stack[..n][i], l); }
    }
  }

  lemma WaitingPush(rest: seq<nat>, i: nat, l: nat)
    ensures Waiting(rest + [2 * i, 2 * i + 1], l) <==> Waiting(rest, l) || Above(2 * i, l) || Above(2 * i + 1, l)
  {
    var s := rest + [2 * i, 2 * i + 1];
    assert s[|rest|] == 2 * i && s[|rest| + 1] == 2 * i + 1;
    if Waiting(rest, l) {
      var k: nat :| k < |rest| && Above(rest[k], l);
      assert Above(s[k], l);
    }
    if Waiting(s, l) {
      var k: nat :| k < |s| && Above(s[k], l);
      assert k < |rest| ==> Above(rest[k], l);
    }
  }

  // ---- one step of the descent ----------------------------------------------------------------------------

  lemma PopFrontier(a: seq<nat>, b: seq<nat>, stack: seq<nat>, out: seq<nat>, i: nat, j: nat)
    requires |a| == |b| == 2 * LEAVES && stack != [] && Descending(a, b, stack, out)
    ensures Edge(a, b, stack[..|stack| - 1], i) && Separate(stack[..|stack| - 1], i, j)
  {
    assert Edge(a, b, stack, i) && Separate(stack, i, j);
  }

  /** Nothing below a node of equal hashes is exposed. */
  lemma Prune(a: seq<nat>, b: seq<nat>, stack: seq<nat>, out: seq<nat>)
    requires |a| == |b| == 2 * LEAVES && stack != [] && Descending(a, b, stack, out)
    requires Edge(a, b, stack, |stack| - 1) && a[stack[|stack| - 1]] == b[stack[|stack| - 1]]
    ensures Descending(a, b, stack[..|stack| - 1], out)
  {
    var rest, top := stack[..|stack| - 1], stack[|stack| - 1];
    forall i: nat ensures Edge(a, b, rest, i) { PopFrontier(a, b, stack, out, i, i); }
    forall i: nat, j: nat ensures Separate(rest, i, j) { PopFrontier(a, b, stack, out, i, j); }
    forall x: nat ensures Right(a, b, rest, out, x) && Kept(a, b, rest, out, x) {
      assert Right(a, b, stack, out, x) && Kept(a, b, stack, out, x);
      WaitingPop(stack, LEAVES + x);
      if x < LEAVES && Exposed(a, b, LEAVES + x) && Above(top, LEAVES + x) { ExposedAbove(a, b, top, LEAVES + x); }
    }
  }

  lemma LeafAlone(i: nat, l: nat)
    requires LEAVES <= i < 2 * LEAVES && l < 2 * LEAVES && Above(i, l)
    ensures l == i
  {
    if l != i { BelowChild(i, l); }
  }

  lemma TakeLeaf(a: seq<nat>, b: seq<nat>, stack: seq<nat>, out: seq<nat>)
    requires |a| == |b| == 2 * LEAVES && stack != [] && Descending(a, b, stack, out)
    requires Edge(a, b, stack, |stack| - 1) && a[stack[|stack| - 1]] != b[stack[|stack| - 1]] && stack[|stack| - 1] >= LEAVES
    ensures Descending(a, b, stack[..|stack| - 1], out + [stack[|stack| - 1] - LEAVES])
  {
    var rest, top := stack[..|stack| - 1], stack[|stack| - 1];
    var grown := out + [top - LEAVES];
    forall i: nat ensures Edge(a, b, rest, i) { PopFrontier(a, b, stack, out, i, i); }
    forall i: nat, j: nat ensures Separate(rest, i, j) { PopFrontier(a, b, stack, out, i, j); }
    forall k: nat | k < |rest| ensures !Above(rest[k], top) { assert Separate(stack, k, |stack| - 1); }
    forall x: nat ensures Right(a, b, rest, grown, x) && Kept(a, b, rest, grown, x) {
      assert Right(a, b, stack, out, x) && Kept(a, b, stack, out, x);
      WaitingPop(stack, LEAVES + x);
      assert grown[|out|] == top - LEAVES;
      if x < LEAVES && Above(top, LEAVES + x) { LeafAlone(top, LEAVES + x); }
    }
  }

  lemma Children(i: nat, t: nat)
    requires i >= 1 && t >= 1 && !Above(i, t) && !Above(t, i)
    ensures !Above(2 * i, t) && !Above(t, 2 * i) && !Above(2 * i + 1, t) && !Above(t, 2 * i + 1)
  {
    assert Above(i, 2 * i) && Above(i, 2 * i + 1);
    if Above(2 * i, t) { AboveTrans(i, 2 * i, t); }
    if Above(2 * i + 1, t) { AboveTrans(i, 2 * i + 1, t); }
    assert (2 * i) / 2 == i && (2 * i + 1) / 2 == i;
  }

  lemma DescendSeparate(stack: seq<nat>, p: nat, q: nat)
    requires stack != [] && stack[|stack| - 1] >= 1 && forall i: nat | i < |stack| :: stack[i] >= 1
    requires forall i: nat, j: nat {:trigger Separate(stack, i, j)} :: Separate(stack, i, j)
    ensures Separate(stack[..|stack| - 1] + [2 * stack[|stack| - 1], 2 * stack[|stack| - 1] + 1], p, q)
  {
    var n, top := |stack| - 1, stack[|stack| - 1];
    assert Separate(stack, p, q);
    if p < n { assert Separate(stack, p, n) && Separate(stack, n, p); Children(top, stack[p]); }
    if q < n { assert Separate(stack, q, n) && Separate(stack, n, q); Children(top, stack[q]); }
  }

  lemma DescendWaiting(stack: seq<nat>, l: nat)
    requires stack != [] && 1 <= stack[|stack| - 1] && l > stack[|stack| - 1]
    ensures Waiting(stack[..|stack| - 1] + [2 * stack[|stack| - 1], 2 * stack[|stack| - 1] + 1], l) <==> Waiting(stack, l)
  {
    var rest, i := stack[..|stack| - 1], stack[|stack| - 1];
    WaitingPop(stack, l);
    WaitingPush(rest, i, l);
    if Above(i, l) { BelowChild(i, l); }
    assert Above(i, 2 * i) && Above(i, 2 * i + 1);
    if Above(2 * i, l) { AboveTrans(i, 2 * i, l); }
    if Above(2 * i + 1, l) { AboveTrans(i, 2 * i + 1, l); }
  }

  lemma Descend(a: seq<nat>, b: seq<nat>, stack: seq<nat>, out: seq<nat>)
    requires |a| == |b| == 2 * LEAVES && stack != [] && Descending(a, b, stack, out)
    requires Edge(a, b, stack, |stack| - 1) && a[stack[|stack| - 1]] != b[stack[|stack| - 1]] && stack[|stack| - 1] < LEAVES
    ensures Descending(a, b, stack[..|stack| - 1] + [2 * stack[|stack| - 1], 2 * stack[|stack| - 1] + 1], out)
  {
    var rest, top := stack[..|stack| - 1], stack[|stack| - 1];
    var next := rest + [2 * top, 2 * top + 1];
    forall i: nat | i < |stack| ensures stack[i] >= 1 { assert Edge(a, b, stack, i); }
    forall i: nat ensures Edge(a, b, next, i) {
      assert Edge(a, b, stack, i);
      assert (2 * top) / 2 == top && (2 * top + 1) / 2 == top;
    }
    forall i: nat, j: nat ensures Separate(next, i, j) { DescendSeparate(stack, i, j); }
    forall x: nat ensures Right(a, b, next, out, x) && Kept(a, b, next, out, x) {
      assert Right(a, b, stack, out, x) && Kept(a, b, stack, out, x);
      DescendWaiting(stack, LEAVES + x);
    }
  }

  lemma PushSize(rest: seq<nat>, x: nat, y: nat)
    ensures TotalSize(rest + [x, y]) == TotalSize(rest) + Size(x) + Size(y)
  {
    var s := rest + [x, y];
    assert s[..|s| - 1] == rest + [x];
    assert (rest + [x])[..|rest|] == rest;
  }

  /** The stack after looking at the top node. */
  function Next(a: seq<nat>, b: seq<nat>, stack: seq<nat>): seq<nat>
    requires |a| == |b| == 2 * LEAVES && stack != [] && stack[|stack| - 1] < 2 * LEAVES
  {
    var i, rest := stack[|stack| - 1], stack[..|stack| - 1];
    if a[i] != b[i] && i < LEAVES then rest + [2 * i, 2 * i + 1] else rest
  }

  function Found(a: seq<nat>, b: seq<nat>, stack: seq<nat>, out: seq<nat>): seq<nat>
    requires |a| == |b| == 2 * LEAVES && stack != [] && stack[|stack| - 1] < 2 * LEAVES
  {
    var i := stack[|stack| - 1];
    if a[i] != b[i] && i >= LEAVES then out + [i - LEAVES] else out
  }

  lemma VisitOk(a: seq<nat>, b: seq<nat>, stack: seq<nat>, out: seq<nat>)
    requires |a| == |b| == 2 * LEAVES && stack != [] && Descending(a, b, stack, out)
    ensures 1 <= stack[|stack| - 1] < 2 * LEAVES
    ensures Descending(a, b, Next(a, b, stack), Found(a, b, stack, out))
  {
    assert Edge(a, b, stack, |stack| - 1);
    var i := stack[|stack| - 1];
    if a[i] == b[i] {
      Prune(a, b, stack, out);
    } else if i >= LEAVES {
      TakeLeaf(a, b, stack, out);
    } else {
      Descend(a, b, stack, out);
    }
  }

  lemma Shrinks(stack: seq<nat>, rest: seq<nat>, i: nat, next: seq<nat>)
    requires stack != [] && rest == stack[..|stack| - 1] && i == stack[|stack| - 1] && i >= 1
    requires next == rest || (i < LEAVES && next == rest + [2 * i, 2 * i + 1])
    ensures TotalSize(next) < TotalSize(stack)
  {
    PopSize(stack, rest, i);
    if next != rest { PushedSize(rest, i, next); }
  }

  lemma PushedSize(rest: seq<nat>, i: nat, next: seq<nat>)
    requires 1 <= i < LEAVES && next == rest + [2 * i, 2 * i + 1]
    ensures TotalSize(next) == TotalSize(rest) + Size(i) - 1
  {
    PushSize(rest, 2 * i, 2 * i + 1);
    SizeSplits(i);
  }

  lemma PopSize(stack: seq<nat>, rest: seq<nat>, top: nat)
    requires stack != [] && rest == stack[..|stack| - 1] && top == stack[|stack| - 1]
    ensures TotalSize(stack) == TotalSize(rest) + Size(top) && Size(top) >= 1
  {
  }

  lemma AtStart(a: seq<nat>, b: seq<nat>, stack: seq<nat>)
    requires |a| == |b| == 2 * LEAVES && |stack| == 1 && stack[0] == 1
    ensures Descending(a, b, stack, [])
  {
    forall x: nat ensures Kept(a, b, stack, [], x) {
      RootAbove(LEAVES + x);
      assert Above(stack[0], LEAVES + x);
    }
  }

  lemma AtEnd(a: seq<nat>, b: seq<nat>, out: seq<nat>)
    requires |a| == |b| == 2 * LEAVES && Descending(a, b, [], out)
    ensures forall x: nat :: x in out <==> x < LEAVES && Exposed(a, b, LEAVES + x)
  {
    forall x: nat ensures x in out <==> x < LEAVES && Exposed(a, b, LEAVES + x) {
      assert Right(a, b, [], out, x) && Kept(a, b, [], out, x);
    }
  }

  /** `differing_leaves`: the leaves that differ together with everything above them, in order. */
  method DifferingLeaves(a: array<nat>, b: array<nat>) returns (leaves: Ids)
    requires a.Length == b.Length == 2 * LEAVES
    ensures Ascending(leaves)
    ensures forall x: nat :: x in leaves <==> x < LEAVES && Exposed(a[..], b[..], LEAVES + x)
  {
    ghost var p, q := a[..], b[..];
    var out: seq<nat> := [];
    var stack: seq<nat> := [1];
    AtStart(p, q, stack);
    while stack != []
      invariant Descending(p, q, stack, out)
      decreases TotalSize(stack)
    {
      VisitOk(p, q, stack, out);
      Shrinks(stack, stack[..|stack| - 1], stack[|stack| - 1], Next(p, q, stack));
      var i := stack[|stack| - 1];
      stack := stack[..|stack| - 1];
      if a[i] != b[i] {
        if i >= LEAVES {
          out := out + [i - LEAVES];
        } else {
          stack := stack + [2 * i, 2 * i + 1];
        }
      }
    }
    AtEnd(p, q, out);
    leaves := Norm(out);
  }

  // ---- what the descent reports ---------------------------------------------------------------------------

  /** Different children give different parents, at every node of the two trees. */
  ghost predicate CollisionFree(a: seq<nat>, b: seq<nat>)
    requires |a| == |b| == 2 * LEAVES
  {
    forall i: nat {:trigger Surfaces(a, b, i)} :: Surfaces(a, b, i)
  }

  ghost predicate Surfaces(a: seq<nat>, b: seq<nat>, i: nat)
    requires |a| == |b| == 2 * LEAVES
  {
    1 <= i < LEAVES && (a[2 * i] != b[2 * i] || a[2 * i + 1] != b[2 * i + 1]) ==> a[i] != b[i]
  }

  lemma {:induction false} DifferenceSurfaces(a: seq<nat>, b: seq<nat>, i: nat)
    requires |a| == |b| == 2 * LEAVES && 1 <= i < 2 * LEAVES && CollisionFree(a, b) && a[i] != b[i]
    ensures Exposed(a, b, i)
    decreases i
  {
    if i > 1 {
      var h := i / 2;
      assert i == 2 * h || i == 2 * h + 1;
      assert Surfaces(a, b, h);
      DifferenceSurfaces(a, b, h);
    }
  }

  /** Without collisions the reported leaves are exactly those that differ; with them, never any other. */
  lemma ReportsDifferences(a: seq<nat>, b: seq<nat>, x: nat)
    requires |a| == |b| == 2 * LEAVES && x < LEAVES
    ensures Exposed(a, b, LEAVES + x) ==> a[LEAVES + x] != b[LEAVES + x]
    ensures CollisionFree(a, b) && a[LEAVES + x] != b[LEAVES + x] ==> Exposed(a, b, LEAVES + x)
  {
    if CollisionFree(a, b) && a[LEAVES + x] != b[LEAVES + x] { DifferenceSurfaces(a, b, LEAVES + x); }
  }

  /** `diff`: build both trees and descend. */
  method Diff(local: seq<nat>, remote: seq<nat>, mix: Mix) returns (leaves: Ids, ghost a: seq<nat>, ghost b: seq<nat>)
    requires |local| == |remote| == LEAVES
    ensures IsTree(a, local, mix) && IsTree(b, remote, mix) && Ascending(leaves)
    ensures forall x | x in leaves :: x < LEAVES && local[x] != remote[x]
    ensures CollisionFree(a, b) ==> forall x: nat | x < LEAVES && local[x] != remote[x] :: x in leaves
  {
    var s := FromDigest(local, mix);
    var t := FromDigest(remote, mix);
    a, b := s[..], t[..];
    leaves := DifferingLeaves(s, t);
    forall x: nat | x < LEAVES
      ensures Exposed(a, b, LEAVES + x) ==> local[x] != remote[x]
      ensures CollisionFree(a, b) && local[x] != remote[x] ==> Exposed(a, b, LEAVES + x)
    {
      ReportsDifferences(a, b, x);
    }
  }
}
