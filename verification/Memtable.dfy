/** The in-memory write buffer (engine/src/memtable.rs): an ordered map of storage keys, written batch by batch. */
module Memtable {
  import opened Basics
  import opened ByteOrder
  import opened Codec
  import opened SstTable
  import opened SstWriter
  import opened Runs

  ghost predicate WellFormed(run: Run) { Ascending(run) && StorageKeys(run) }

  /** Where `k` is or would go. */
  function Pos(run: Run, k: Bytes): (p: nat)
    ensures p <= |run| && (p < |run| ==> Le(k, run[p].key))
    ensures forall i: nat | i < p :: !Le(k, run[i].key)
  {
    if run == [] then 0
    else
      var p := Pos(run[..|run| - 1], k);
      if p < |run| - 1 || Le(k, run[|run| - 1].key) then p else |run|
  }

  function Insert(run: Run, k: Bytes, v: MemValue): Run {
    var p := Pos(run, k);
    if p < |run| && run[p].key == k then run[p := Kv(k, v)] else run[..p] + [Kv(k, v)] + run[p..]
  }

  /** `lower_bound`, within one column family. */
  function RunSeek(run: Run, cf: Cf, from: Bytes): Option<Kv> {
    var p := Pos(run, Sk(cf, from));
    if p < |run| && run[p].key != [] && run[p].key[0] == cf then Some(Kv(run[p].key[1..], run[p].value)) else None
  }

  function RunGet(run: Run, k: Bytes): Option<MemValue> {
    var p := Pos(run, k);
    if p < |run| && run[p].key == k then Some(run[p].value) else None
  }

  lemma Neighbours(run: Run, k: Bytes, i: nat)
    requires Ascending(run) && i < |run|
    ensures i < Pos(run, k) ==> Lt(run[i].key, k)
    ensures i >= Pos(run, k) ==> Le(k, run[i].key)
    ensures i > Pos(run, k) ==> Lt(k, run[i].key)
  {
    var p := Pos(run, k);
    NotLt(run[i].key, k);
    if i > p { LeLtTrans(k, run[p].key, run[i].key); }
  }

  lemma InsertKeeps(run: Run, k: Bytes, v: MemValue)
    requires WellFormed(run) && k != [] && k[0] < 3
    ensures WellFormed(Insert(run, k, v))
  {
    var p := Pos(run, k);
    var out := Insert(run, k, v);
    forall i: nat, j: nat | i < j < |out| ensures Lt(out[i].key, out[j].key) {
      if out[i] == Kv(k, v) && i == p {
        var x := if |out| == |run| then j else j - 1;
        Neighbours(run, k, x);
        LtTotal(k, run[x].key);
      } else if j == p {
        Neighbours(run, k, i);
      }
    }
  }

  lemma InsertedAt(run: Run, k: Bytes, v: MemValue, out: Run)
    requires Ascending(out) && out == Insert(run, k, v)
    ensures k in Contents(out) && Contents(out)[k] == v
  {
    assert out[Pos(run, k)] == Kv(k, v);
    ContentsHas(out, k);
  }

  /** Where an entry of another key ends up. */
  lemma Moved(run: Run, k: Bytes, v: MemValue, i: nat) returns (j: nat)
    requires i < |run| && run[i].key != k
    ensures j < |Insert(run, k, v)| && Insert(run, k, v)[j] == run[i]
  {
    j := if |Insert(run, k, v)| == |run| || i < Pos(run, k) then i else i + 1;
  }

  lemma CameFrom(run: Run, k: Bytes, v: MemValue, j: nat) returns (i: nat)
    requires j < |Insert(run, k, v)| && Insert(run, k, v)[j].key != k
    ensures i < |run| && Insert(run, k, v)[j] == run[i]
  {
    i := if |Insert(run, k, v)| == |run| || j < Pos(run, k) then j else j - 1;
  }

  lemma OthersKept(run: Run, k: Bytes, v: MemValue, out: Run, x: Bytes)
    requires Ascending(run) && Ascending(out) && out == Insert(run, k, v) && x != k
    ensures x in Contents(run) <==> x in Contents(out)
    ensures x in Contents(run) ==> Contents(run)[x] == Contents(out)[x]
  {
    ContentsHas(out, x);
    ContentsHas(run, x);
    if x in Contents(run) {
      var i: nat :| i < |run| && run[i].key == x;
      var j := Moved(run, k, v, i);
    }
    if x in Contents(out) {
      var j: nat :| j < |out| && out[j].key == x;
      var i := CameFrom(run, k, v, j);
    }
  }

  lemma InsertContents(run: Run, k: Bytes, v: MemValue)
    requires WellFormed(run) && k != [] && k[0] < 3
    ensures Contents(Insert(run, k, v)) == Contents(run)[k := v]
  {
    var out := Insert(run, k, v);
    InsertKeeps(run, k, v);
    InsertedAt(run, k, v, out);
    forall x: Bytes | x != k
      ensures (x in Contents(run) <==> x in Contents(out)) && (x in Contents(run) ==> Contents(run)[x] == Contents(out)[x])
    {
      OthersKept(run, k, v, out, x);
    }
  }

  lemma GetIsLookup(run: Run, k: Bytes)
    requires WellFormed(run)
    ensures RunGet(run, k) == if k in Contents(run) then Some(Contents(run)[k]) else None
  {
    ContentsHas(run, k);
    if i: nat :| i < |run| && run[i].key == k {
      Neighbours(run, k, i);
      LtIrreflexive(k);
    }
  }

  lemma SeekIsSeek(run: Run, cf: Cf, from: Bytes)
    requires WellFormed(run)
    ensures IsSeek(Contents(run), cf, from, RunSeek(run, cf, from))
  {
    if run == [] {
    } else {
      var bs := [Raw(run)];
      assert Flatten(bs) == Raw(run) by { assert bs[..0] == [] && Flatten([]) == []; }
      RunRepresented(run, bs);
      var sk := Sk(cf, from);
      var p := Pos(run, sk);
      forall i: nat | i < p ensures Lt(Raw(run)[i].key, sk) { Neighbours(run, sk, i); }
      if p < |run| {
        FirstFound(bs, 0, p, sk);
        ValueRoundTrip(run[p].value);
        FirstIsSeek(bs, Contents(run), cf, from, Some(Raw(run)[p]));
      } else {
        NoneFound(bs, sk);
        FirstIsSeek(bs, Contents(run), cf, from, None);
      }
    }
  }

  // ---- batches --------------------------------------------------------------------------------

  /** A batch on a flat map: each operation in turn, tombstones stored. */
  ghost function ApplyFlat(m: Flat, ops: Batch): Flat {
    if ops == [] then m
    else var op := ops[|ops| - 1]; ApplyFlat(m, ops[..|ops| - 1])[Sk(op.cf, op.key) := op.value]
  }

  method Apply(run: Run, ops: Batch) returns (out: Run)
    requires WellFormed(run)
    ensures WellFormed(out) && Contents(out) == ApplyFlat(Contents(run), ops)
  {
    out := run;
    var i := 0;
    while i < |ops|
      invariant i <= |ops| && WellFormed(out) && Contents(out) == ApplyFlat(Contents(run), ops[..i])
    {
      var k := Sk(ops[i].cf, ops[i].key);
      InsertKeeps(out, k, ops[i].value);
      InsertContents(out, k, ops[i].value);
      assert ops[..i + 1][..i] == ops[..i];
      out := Insert(out, k, ops[i].value);
      i := i + 1;
    }
    assert ops[..i] == ops;
  }
}
