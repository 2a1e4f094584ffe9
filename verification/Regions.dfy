/** Regions tile the keyspace (pd/src/region.rs), and declared tables carve it one region each
    (pd/src/replicated.rs). */
module Regions {
  import opened Basics
  import opened ByteOrder

  /** An empty `end` is the end of the keyspace. */
  datatype Region = Region(id: nat, start: Bytes, end: Bytes, epoch: nat)

  predicate Contains(r: Region, k: Bytes) { Le(r.start, k) && (r.end == [] || Lt(k, r.end)) }

  /** A region ends where the next begins, and is not empty. */
  ghost predicate Meets(rs: seq<Region>, i: nat) {
    i < |rs| - 1 ==> rs[i].end == rs[i + 1].start && Lt(rs[i].start, rs[i].end)
  }

  /** Sorted, gap-free, without overlap. */
  ghost predicate Tiled(rs: seq<Region>) {
    && |rs| > 0 && rs[0].start == [] && rs[|rs| - 1].end == []
    && forall i: nat {:trigger Meets(rs, i)} :: Meets(rs, i)
  }

  ghost predicate UniqueIds(rs: seq<Region>, nextId: nat) {
    && (forall r | r in rs :: r.id < nextId)
    && forall i: nat, j: nat | i < j < |rs| :: rs[i].id != rs[j].id
  }

  // ---- every key has one home -----------------------------------------------------------

  lemma {:induction false} StartsAscend(rs: seq<Region>, i: nat, j: nat)
    requires Tiled(rs) && i < j < |rs|
    ensures Lt(rs[i].start, rs[j].start) && rs[i].end != [] && Le(rs[i].end, rs[j].start)
    decreases j - i
  {
    assert Meets(rs, j - 1);
    if i < j - 1 {
      StartsAscend(rs, i, j - 1);
      LtTrans(rs[i].start, rs[j - 1].start, rs[j].start);
      LeLtTrans(rs[i].end, rs[j - 1].start, rs[j].start);
    }
  }

  lemma OneHome(rs: seq<Region>, k: Bytes, i: nat, j: nat)
    requires Tiled(rs) && i < |rs| && j < |rs| && Contains(rs[i], k) && Contains(rs[j], k)
    ensures i == j
  {
    if i != j {
      var a, b := if i < j then i else j, if i < j then j else i;
      StartsAscend(rs, a, b);
      LeTrans(rs[a].end, rs[b].start, k);
      NotLt(k, rs[a].end);
    }
  }

  /** The region a key belongs to, searching from `i`. */
  lemma {:induction false} HomeFrom(rs: seq<Region>, k: Bytes, i: nat) returns (j: nat)
    requires Tiled(rs) && i < |rs| && Le(rs[i].start, k)
    ensures j < |rs| && Contains(rs[j], k)
    decreases |rs| - i
  {
    if Contains(rs[i], k) {
      j := i;
    } else {
      NotLt(k, rs[i].end);
      assert Meets(rs, i);
      j := HomeFrom(rs, k, i + 1);
    }
  }

  /** Every key is in exactly one region. */
  lemma ExactlyOne(rs: seq<Region>, k: Bytes)
    requires Tiled(rs)
    ensures exists i: nat | i < |rs| :: Contains(rs[i], k) && forall j: nat | j < |rs| :: Contains(rs[j], k) ==> j == i
  {
    var i := HomeFrom(rs, k, 0);
    forall j: nat | j < |rs| && Contains(rs[j], k) ensures j == i { OneHome(rs, k, i, j); }
  }

  // ---- split and merge --------------------------------------------------------------------

  function Halves(r: Region, key: Bytes, id: nat): seq<Region> {
    [Region(r.id, r.start, key, r.epoch + 1), Region(id, key, r.end, r.epoch + 1)]
  }

  function SplitAt(rs: seq<Region>, i: nat, key: Bytes, id: nat): seq<Region>
    requires i < |rs|
  {
    rs[..i] + Halves(rs[i], key, id) + rs[i + 1..]
  }

  function Joined(a: Region, b: Region): Region {
    Region(a.id, a.start, b.end, (if a.epoch >= b.epoch then a.epoch else b.epoch) + 1)
  }

  function MergeAt(rs: seq<Region>, i: nat): seq<Region>
    requires 0 < i < |rs|
  {
    rs[..i - 1] + [Joined(rs[i - 1], rs[i])] + rs[i + 1..]
  }

  lemma SplitTiles(rs: seq<Region>, i: nat, key: Bytes, id: nat)
    requires Tiled(rs) && i < |rs| && Contains(rs[i], key) && rs[i].start != key
    ensures Tiled(SplitAt(rs, i, key, id))
  {
    var out := SplitAt(rs, i, key, id);
    forall j: nat ensures Meets(out, j) {
      if j < i {
        assert Meets(rs, j);
      } else if j > i {
        assert Meets(rs, j - 1);
      }
    }
  }

  lemma SplitIds(rs: seq<Region>, i: nat, key: Bytes, nextId: nat)
    requires UniqueIds(rs, nextId) && i < |rs|
    ensures UniqueIds(SplitAt(rs, i, key, nextId), nextId + 1)
  {
    var out := SplitAt(rs, i, key, nextId);
    forall j: nat | j < |out| ensures out[j].id == if j <= i then rs[j].id else if j == i + 1 then nextId else rs[j - 1].id {}
    forall r | r in out ensures r.id < nextId + 1 {
      var j: nat :| j < |out| && out[j] == r;
    }
  }

  lemma MergeTiles(rs: seq<Region>, i: nat)
    requires Tiled(rs) && 0 < i < |rs|
    ensures Tiled(MergeAt(rs, i))
  {
    var out := MergeAt(rs, i);
    assert Meets(rs, i - 1);
    forall j: nat ensures Meets(out, j) {
      if j < i - 1 {
        assert Meets(rs, j);
      } else {
        assert Meets(rs, j + 1);
        if j == i - 1 && i < |rs| - 1 { LtTrans(rs[j].start, rs[i].start, rs[i].end); }
      }
    }
  }

  lemma MergeIds(rs: seq<Region>, i: nat, nextId: nat)
    requires UniqueIds(rs, nextId) && 0 < i < |rs|
    ensures UniqueIds(MergeAt(rs, i), nextId)
  {
    var out := MergeAt(rs, i);
    forall j: nat | j < |out| ensures out[j].id == rs[if j < i then j else j + 1].id {}
    forall r | r in out ensures r.id < nextId {
      var j: nat :| j < |out| && out[j] == r;
    }
  }

  /** Merging at the key of a split gives the region back, two epochs on. */
  lemma MergeUndoesSplit(rs: seq<Region>, i: nat, key: Bytes, id: nat)
    requires i < |rs|
    ensures MergeAt(SplitAt(rs, i, key, id), i + 1) == rs[i := rs[i].(epoch := rs[i].epoch + 2)]
  {
  }

  // ---- the region table under any sequence of splits and merges --------------------------------

  datatype Table = Table(regions: seq<Region>, nextId: nat)

  ghost predicate Ok(t: Table) { Tiled(t.regions) && UniqueIds(t.regions, t.nextId) }

  const WHOLE: Table := Table([Region(1, [], [], 1)], 2)

  /** The first region from `i` on that contains `k`. */
  function Home(rs: seq<Region>, k: Bytes, i: nat): (j: nat)
    requires i <= |rs|
    ensures i <= j <= |rs| && (j < |rs| ==> Contains(rs[j], k))
    decreases |rs| - i
  {
    if i == |rs| || Contains(rs[i], k) then i else Home(rs, k, i + 1)
  }

  /** The first region from `i` on that starts at `k`. */
  function StartingAt(rs: seq<Region>, k: Bytes, i: nat): (j: nat)
    requires i <= |rs|
    ensures i <= j <= |rs| && (j < |rs| ==> rs[j].start == k)
    decreases |rs| - i
  {
    if i == |rs| || rs[i].start == k then i else StartingAt(rs, k, i + 1)
  }

  function Split(t: Table, key: Bytes): Table {
    var i := Home(t.regions, key, 0);
    if i == |t.regions| || Le(key, t.regions[i].start) then t
    else Table(SplitAt(t.regions, i, key, t.nextId), t.nextId + 1)
  }

  function Merge(t: Table, boundary: Bytes): Table {
    var i := StartingAt(t.regions, boundary, 0);
    if i == |t.regions| || i == 0 then t else t.(regions := MergeAt(t.regions, i))
  }

  datatype Op = SplitOp(key: Bytes) | MergeOp(boundary: Bytes)

  function Apply(t: Table, op: Op): Table {
    match op
    case SplitOp(key) => Split(t, key)
    case MergeOp(boundary) => Merge(t, boundary)
  }

  function ApplyAll(t: Table, ops: seq<Op>): Table {
    if ops == [] then t else Apply(ApplyAll(t, ops[..|ops| - 1]), ops[|ops| - 1])
  }

  lemma ApplyKeeps(t: Table, op: Op)
    requires Ok(t)
    ensures Ok(Apply(t, op)) && t.nextId <= Apply(t, op).nextId
  {
    match op
    case SplitOp(key) =>
      var i := Home(t.regions, key, 0);
      if i < |t.regions| && !Le(key, t.regions[i].start) {
        SplitTiles(t.regions, i, key, t.nextId);
        SplitIds(t.regions, i, key, t.nextId);
      }
    case MergeOp(boundary) =>
      var i := StartingAt(t.regions, boundary, 0);
      if 0 < i < |t.regions| {
        MergeTiles(t.regions, i);
        MergeIds(t.regions, i, t.nextId);
      }
  }

  lemma {:induction false} AlwaysOk(ops: seq<Op>)
    ensures Ok(ApplyAll(WHOLE, ops))
  {
    if ops != [] {
      AlwaysOk(ops[..|ops| - 1]);
      ApplyKeeps(ApplyAll(WHOLE, ops[..|ops| - 1]), ops[|ops| - 1]);
    }
  }

  /** After any splits and merges every key routes to exactly one region. */
  lemma KeyspaceTiled(ops: seq<Op>, k: Bytes)
    ensures var rs := ApplyAll(WHOLE, ops).regions;
      && Tiled(rs) && Home(rs, k, 0) < |rs|
      && forall j: nat | j < |rs| :: Contains(rs[j], k) <==> j == Home(rs, k, 0)
  {
    AlwaysOk(ops);
    HomeIsHome(ApplyAll(WHOLE, ops).regions, k);
  }

  lemma HomeIsHome(rs: seq<Region>, k: Bytes)
    requires Tiled(rs)
    ensures Home(rs, k, 0) < |rs| && forall j: nat | j < |rs| :: Contains(rs[j], k) <==> j == Home(rs, k, 0)
  {
    ExactlyOne(rs, k);
    var i: nat :| i < |rs| && Contains(rs[i], k) && forall j: nat | j < |rs| :: Contains(rs[j], k) ==> j == i;
    HomeReaches(rs, k, 0, i);
  }

  lemma {:induction false} HomeReaches(rs: seq<Region>, k: Bytes, i: nat, j: nat)
    requires i <= j < |rs| && Contains(rs[j], k)
    ensures Home(rs, k, i) <= j
    decreases j - i
  {
    if i < j { HomeReaches(rs, k, i + 1, j); }
  }

  // ---- the registry -------------------------------------------------------------------------

  class Registry {
    var regions: seq<Region>
    var nextId: nat

    ghost predicate Valid()
      reads this
    {
      Ok(Now())
    }

    ghost function Now(): Table
      reads this
    {
      Table(regions, nextId)
    }

    /** One region over the whole keyspace. */
    constructor ()
      ensures Valid() && Now() == WHOLE
    {
      regions, nextId := [Region(1, [], [], 1)], 2;
    }

    /** The position of the first region that contains `key`. */
    method Find(key: Bytes) returns (i: nat)
      ensures i == Home(regions, key, 0)
    {
      i := 0;
      while i < |regions|
        invariant i <= |regions| && Home(regions, key, i) == Home(regions, key, 0)
      {
        if Contains(regions[i], key) { return; }
        i := i + 1;
      }
    }

    /** Routing finds the one region that contains the key. */
    method Route(key: Bytes) returns (r: Region)
      requires Valid()
      ensures r in regions && Contains(r, key) && forall q | q in regions && Contains(q, key) :: q == r
    {
      var i := Find(key);
      HomeIsHome(regions, key);
      r := regions[i];
    }

    /** Cut the region that contains `key` in two; refused exactly where a region already starts. */
    method SplitRegion(key: Bytes) returns (ok: bool)
      requires Valid()
      modifies this
      ensures Valid() && Now() == Split(old(Now()), key)
      ensures !ok <==> exists r | r in old(regions) :: r.start == key
      ensures !ok ==> Now() == old(Now())
    {
      ApplyKeeps(Now(), SplitOp(key));
      AtBoundary(regions, key);
      var i := Find(key);
      if Le(key, regions[i].start) { return false; }
      regions := regions[..i] + Halves(regions[i], key, nextId) + regions[i + 1..];
      nextId := nextId + 1;
      ok := true;
    }

    /** The first region that starts at `boundary`. */
    method FindStart(boundary: Bytes) returns (i: nat)
      ensures i == StartingAt(regions, boundary, 0) <= |regions| && forall j: nat | j < i :: regions[j].start != boundary
    {
      i := 0;
      while i < |regions| && regions[i].start != boundary
        invariant i <= |regions| && forall j: nat | j < i :: regions[j].start != boundary
        invariant StartingAt(regions, boundary, i) == StartingAt(regions, boundary, 0)
      {
        i := i + 1;
      }
    }

    /** Join the region that starts at `boundary` to its left neighbour; refused exactly when there is no
        such region or it has no neighbour. */
    method MergeRegion(boundary: Bytes) returns (ok: bool)
      requires Valid()
      modifies `regions
      ensures Valid() && Now() == Merge(old(Now()), boundary)
      ensures ok <==> boundary != [] && exists r | r in old(regions) :: r.start == boundary
    {
      ApplyKeeps(Now(), MergeOp(boundary));
      var i := FindStart(boundary);
      if i == |regions| || i == 0 { return false; }
      StartsAscend(regions, 0, i);
      JoinRegions(i);
      ok := true;
    }

    /** Replace a region and its left neighbour by their union. */
    method JoinRegions(i: nat)
      requires 0 < i < |regions|
      modifies `regions
      ensures regions == MergeAt(old(regions), i)
    {
      regions := regions[..i - 1] + [Joined(regions[i - 1], regions[i])] + regions[i + 1..];
    }
  }

  lemma LeIsEq(a: Bytes, b: Bytes)
    requires Le(a, b) && Le(b, a)
    ensures a == b
  {
    if Lt(a, b) { LtAsym(a, b); }
  }

  /** A key cannot split its region exactly when some region starts there. */
  lemma AtBoundary(rs: seq<Region>, key: Bytes)
    requires Tiled(rs)
    ensures var i := Home(rs, key, 0); i < |rs| && (Le(key, rs[i].start) <==> exists r | r in rs :: r.start == key)
  {
    HomeIsHome(rs, key);
    var i := Home(rs, key, 0);
    if Le(key, rs[i].start) {
      LeIsEq(key, rs[i].start);
      assert rs[i] in rs;
    } else {
      NoBoundary(rs, i, key);
    }
  }

  /** A key strictly inside a region is no region's start. */
  lemma NoBoundary(rs: seq<Region>, i: nat, key: Bytes)
    requires Tiled(rs) && i < |rs| && Contains(rs[i], key) && rs[i].start != key
    ensures forall r | r in rs :: r.start != key
  {
    forall r | r in rs ensures r.start != key {
      var j: nat :| j < |rs| && rs[j] == r;
      if r.start == key { SelfContained(rs, j); OneHome(rs, key, i, j); }
    }
  }

  lemma SelfContained(rs: seq<Region>, j: nat)
    requires Tiled(rs) && j < |rs|
    ensures Contains(rs[j], rs[j].start)
  {
    assert Meets(rs, j);
  }

  // ---- what a split and a merge do to the boundaries ------------------------------------------------

  /** Region `id` starts at `x`. */
  ghost predicate Starts(rs: seq<Region>, x: Bytes, id: nat) { exists r | r in rs :: r.start == x && r.id == id }

  ghost predicate Boundary(rs: seq<Region>, x: Bytes) { exists r | r in rs :: r.start == x }

  lemma {:induction false} StartingFinds(rs: seq<Region>, k: Bytes, i: nat, j: nat)
    requires i <= j < |rs| && rs[j].start == k
    ensures StartingAt(rs, k, i) <= j
    decreases j - i
  {
    if i < j { StartingFinds(rs, k, i + 1, j); }
  }

  lemma OneStart(rs: seq<Region>, i: nat, j: nat)
    requires Tiled(rs) && i < |rs| && j < |rs| && rs[i].start == rs[j].start
    ensures i == j
  {
    if i != j {
      StartsAscend(rs, if i < j then i else j, if i < j then j else i);
      LtIrreflexive(rs[i].start);
    }
  }

  lemma InMerged(rs: seq<Region>, i: nat, j: nat)
    requires 0 < i < |rs| && j < |rs| && j != i
    ensures var out := MergeAt(rs, i); var q := out[if j < i then j else j - 1];
      q in out && q.start == rs[j].start && q.id == rs[j].id && (j != i - 1 ==> q == rs[j])
  {
    var out := MergeAt(rs, i);
    assert out[if j < i then j else j - 1] in out;
  }

  lemma FromMerged(rs: seq<Region>, i: nat, q: Region) returns (j: nat)
    requires 0 < i < |rs| && q in MergeAt(rs, i)
    ensures j < |rs| && j != i && q.start == rs[j].start && q.id == rs[j].id
  {
    var out := MergeAt(rs, i);
    var k: nat :| k < |out| && out[k] == q;
    j := if k < i then k else k + 1;
  }

  lemma MergePoint(t: Table, boundary: Bytes) returns (b: nat, out: seq<Region>)
    requires Ok(t) && boundary != [] && Boundary(t.regions, boundary)
    ensures 0 < b < |t.regions| && t.regions[b].start == boundary && out == MergeAt(t.regions, b) && Tiled(out)
    ensures Merge(t, boundary) == t.(regions := out)
  {
    var rs := t.regions;
    var m: nat :| m < |rs| && rs[m].start == boundary;
    StartingFinds(rs, boundary, 0, m);
    b := StartingAt(rs, boundary, 0);
    out := MergeAt(rs, b);
    MergeTiles(rs, b);
  }

  /** Merging takes one boundary away; every other keeps its region's id, and regions that do not touch it stay as they were. */
  lemma MergeMeans(t: Table, boundary: Bytes)
    requires Ok(t) && boundary != [] && Boundary(t.regions, boundary)
    ensures var u := Merge(t, boundary);
      && (forall x: Bytes, id: nat :: Starts(u.regions, x, id) <==> Starts(t.regions, x, id) && x != boundary)
      && (forall r | r in t.regions && r.start != boundary && r.end != boundary :: r in u.regions)
      && u.nextId == t.nextId
  {
    var rs := t.regions;
    var i, out := MergePoint(t, boundary);
    forall x: Bytes, id: nat ensures Starts(out, x, id) <==> Starts(rs, x, id) && x != boundary {
      if Starts(out, x, id) {
        var q :| q in out && q.start == x && q.id == id;
        var j := FromMerged(rs, i, q);
        assert rs[j] in rs;
        if x == boundary { OneStart(rs, i, j); }
      }
      if Starts(rs, x, id) && x != boundary {
        var r :| r in rs && r.start == x && r.id == id;
        var j: nat :| j < |rs| && rs[j] == r;
        InMerged(rs, i, j);
      }
    }
    forall r | r in rs && r.start != boundary && r.end != boundary ensures r in out {
      var j: nat :| j < |rs| && rs[j] == r;
      assert Meets(rs, i - 1);
      InMerged(rs, i, j);
    }
  }

  /** Where a key goes when the region starting at `rs[b].start` is merged away. */
  lemma MergedHome(rs: seq<Region>, b: nat, out: seq<Region>, k: Bytes, i: nat, j: nat)
    requires Tiled(rs) && 0 < b < |rs| && out == MergeAt(rs, b) && Tiled(out)
    requires i == Home(rs, k, 0) < |rs| && j == Home(out, k, 0) < |out|
    ensures j == if i < b then i else i - 1
  {
    HomeIsHome(rs, k);
    HomeIsHome(out, k);
    assert Meets(rs, b - 1) && Meets(rs, b);
    if i == b {
      LeLtTrans(rs[b - 1].start, rs[b].start, k);
      assert Contains(out[b - 1], k);
    } else if i == b - 1 {
      if rs[b].end != [] { LtTrans(k, rs[b].start, rs[b].end); }
      assert Contains(out[b - 1], k);
    } else {
      assert Contains(out[if i < b then i else i - 1], k);
    }
  }

  lemma EndsAt(rs: seq<Region>, b: nat, i: nat)
    requires Tiled(rs) && 0 < b < |rs| && i < |rs|
    ensures (rs[i].end == rs[b].start <==> i == b - 1) && (rs[i].start == rs[b].start <==> i == b)
  {
    StartsAscend(rs, 0, b);
    assert Meets(rs, i) && Meets(rs, b - 1);
    var n: nat := i + 1;
    if n < |rs| && rs[n].start == rs[b].start { OneStart(rs, n, b); }
    if rs[i].start == rs[b].start { OneStart(rs, i, b); }
  }

  lemma MergedRegion(rs: seq<Region>, b: nat, out: seq<Region>, i: nat, j: nat)
    requires 0 < b < |rs| && out == MergeAt(rs, b) && i < |rs| && j == if i < b then i else i - 1
    ensures (i == b || i == b - 1 ==> out[j].epoch > rs[i].epoch) && (i != b ==> out[j].id == rs[i].id && out[j].start == rs[i].start)
    ensures i != b && i != b - 1 ==> out[j] == rs[i]
  {
  }

  /** Every key the two regions held is the union's, which keeps the left one's id and whose epoch is past both; a key
      elsewhere stays with its region. */
  lemma MergeUnites(t: Table, boundary: Bytes, k: Bytes, i: nat, j: nat)
    requires Ok(t) && boundary != [] && Boundary(t.regions, boundary)
    requires i == Home(t.regions, k, 0) && j == Home(Merge(t, boundary).regions, k, 0)
    ensures i < |t.regions| && j < |Merge(t, boundary).regions|
    ensures var r, q := t.regions[i], Merge(t, boundary).regions[j];
      && (r.start == boundary || r.end == boundary ==> q.epoch > r.epoch)
      && (r.start != boundary ==> q.id == r.id && q.start == r.start)
      && (r.start != boundary && r.end != boundary ==> q == r)
  {
    var rs := t.regions;
    var b, out := MergePoint(t, boundary);
    HomeIsHome(rs, k);
    HomeIsHome(out, k);
    MergedHome(rs, b, out, k, i, j);
    MergedRegion(rs, b, out, i, j);
    EndsAt(rs, b, i);
  }

  lemma InSplit(rs: seq<Region>, i: nat, key: Bytes, id: nat, j: nat)
    requires i < |rs| && j < |rs|
    ensures var out := SplitAt(rs, i, key, id); var q := out[if j <= i then j else j + 1];
      q in out && q.start == rs[j].start && q.id == rs[j].id && (j != i ==> q == rs[j])
  {
    var out := SplitAt(rs, i, key, id);
    assert out[if j <= i then j else j + 1] in out;
  }

  /** What is new after a split is one epoch past the region it was cut from. */
  lemma SplitEpochs(t: Table, key: Bytes, q: Region)
    requires Ok(t) && !Boundary(t.regions, key) && q in Split(t, key).regions && q !in t.regions
    ensures exists r | r in t.regions :: Contains(r, key) && q.epoch == r.epoch + 1
  {
    var rs := t.regions;
    AtBoundary(rs, key);
    var i := Home(rs, key, 0);
    SplitParts(rs, i, key, t.nextId, q);
    assert rs[i] in rs;
  }

  lemma SplitParts(rs: seq<Region>, i: nat, key: Bytes, id: nat, q: Region)
    requires i < |rs| && q in SplitAt(rs, i, key, id)
    ensures q in rs || q.epoch == rs[i].epoch + 1
  {
    var out := SplitAt(rs, i, key, id);
    var k: nat :| k < |out| && out[k] == q;
    if k < i { assert q == rs[k]; }
    if k > i + 1 { assert q == rs[k - 1]; }
  }

  lemma SplitStarts(rs: seq<Region>, i: nat, key: Bytes, next: nat, x: Bytes, id: nat)
    requires i < |rs|
    ensures Starts(SplitAt(rs, i, key, next), x, id) <==> Starts(rs, x, id) || (x == key && id == next)
  {
    var out := SplitAt(rs, i, key, next);
    assert out[i + 1] in out;
    if Starts(out, x, id) {
      var q :| q in out && q.start == x && q.id == id;
      var k: nat :| k < |out| && out[k] == q;
      var j := if k <= i then k else k - 1;
      assert rs[j] in rs;
    }
    if Starts(rs, x, id) {
      var r :| r in rs && r.start == x && r.id == id;
      var j: nat :| j < |rs| && rs[j] == r;
      InSplit(rs, i, key, next, j);
    }
  }

  /** Splitting adds one boundary, with the next id; every other keeps its region's id, and the other regions stay. */
  lemma SplitMeans(t: Table, key: Bytes)
    requires Ok(t) && !Boundary(t.regions, key)
    ensures var u := Split(t, key);
      && (forall x: Bytes, id: nat :: Starts(u.regions, x, id) <==> Starts(t.regions, x, id) || (x == key && id == t.nextId))
      && (forall r | r in t.regions && !Contains(r, key) :: r in u.regions)
      && u.nextId == t.nextId + 1
  {
    var rs := t.regions;
    AtBoundary(rs, key);
    var i := Home(rs, key, 0);
    var out := SplitAt(rs, i, key, t.nextId);
    forall x: Bytes, id: nat ensures Starts(out, x, id) <==> Starts(rs, x, id) || (x == key && id == t.nextId) {
      SplitStarts(rs, i, key, t.nextId, x, id);
    }
    forall r | r in rs && !Contains(r, key) ensures r in out {
      var j: nat :| j < |rs| && rs[j] == r;
      InSplit(rs, i, key, t.nextId, j);
    }
  }
}
