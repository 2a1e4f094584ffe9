/** Looking a key up in a sorted-string table (engine/src/sstable/reader.rs): the index narrows to a block by binary
    search, the block is scanned. Whatever the block boundaries, the answers are those of the map written. */
module SstTable {
  import opened Basics
  import opened ByteOrder
  import opened Codec
  import opened Wal
  import opened SstFile
  import opened Runs

  // ---- ordered blocks -----------------------------------------------------------------------

  ghost predicate Rising(b: Block) { forall i: nat, j: nat | i < j < |b| :: Lt(b[i].key, b[j].key) }

  ghost predicate Below(a: Block, b: Block) { forall i: nat, j: nat | i < |a| && j < |b| :: Lt(a[i].key, b[j].key) }

  ghost predicate Ordered(bs: seq<Block>) {
    && (forall i: nat | i < |bs| :: bs[i] != [] && Rising(bs[i]))
    && forall i: nat, j: nat | i < j < |bs| :: Below(bs[i], bs[j])
  }

  ghost predicate Has(bs: seq<Block>, e: Entry) { exists i: nat | i < |bs| :: e in bs[i] }

  /** `e` is the first entry at or after `sk`, if there is one. */
  ghost predicate IsFirst(bs: seq<Block>, sk: Bytes, r: Option<Entry>) {
    && (r.Some? ==> Has(bs, r.value) && Le(sk, r.value.key))
    && forall e: Entry | Has(bs, e) && Le(sk, e.key) :: r.Some? && Le(r.value.key, e.key)
  }

  /** Everything before the `j`-th entry of block `i` is below `sk` if that entry's predecessors are. */
  ghost predicate Passed(bs: seq<Block>, i: nat, j: nat, sk: Bytes) {
    && (forall p: nat, q: nat | p < i && p < |bs| && q < |bs[p]| :: Lt(bs[p][q].key, sk))
    && (i < |bs| ==> forall q: nat | q < j && q < |bs[i]| :: Lt(bs[i][q].key, sk))
  }

  lemma FirstFound(bs: seq<Block>, i: nat, j: nat, sk: Bytes)
    requires Ordered(bs) && i < |bs| && j < |bs[i]| && Passed(bs, i, j, sk) && Le(sk, bs[i][j].key)
    ensures IsFirst(bs, sk, Some(bs[i][j]))
  {
    assert bs[i][j] in bs[i];
    forall e: Entry | Has(bs, e) && Le(sk, e.key) ensures Le(bs[i][j].key, e.key) {
      var p: nat :| p < |bs| && e in bs[p];
      var q: nat :| q < |bs[p]| && bs[p][q] == e;
      if p < i || (p == i && q < j) {
        NotLt(e.key, sk);
      } else if p > i {
        assert Below(bs[i], bs[p]);
      }
    }
  }

  lemma NoneFound(bs: seq<Block>, sk: Bytes)
    requires Passed(bs, |bs|, 0, sk)
    ensures IsFirst(bs, sk, None)
  {
    forall e: Entry | Has(bs, e) ensures !Le(sk, e.key) {
      var p: nat :| p < |bs| && e in bs[p];
      var q: nat :| q < |bs[p]| && bs[p][q] == e;
      NotLt(e.key, sk);
    }
  }

  lemma PassedBlock(bs: seq<Block>, i: nat, sk: Bytes)
    requires i < |bs| && Passed(bs, i, |bs[i]|, sk)
    ensures Passed(bs, i + 1, 0, sk)
  {
  }

  /** Blocks before one that starts at or below `sk` hold only smaller keys. */
  lemma SkipTo(bs: seq<Block>, i: nat, sk: Bytes)
    requires Ordered(bs) && i < |bs| && Le(bs[i][0].key, sk)
    ensures Passed(bs, i, 0, sk)
  {
    forall p: nat, q: nat | p < i && q < |bs[p]| ensures Lt(bs[p][q].key, sk) {
      assert Below(bs[p], bs[i]);
      LeLtTrans(bs[p][q].key, bs[i][0].key, sk);
    }
  }

  /** A key that starts no earlier than block `i` and before block `i + 1` can only be in block `i`. */
  lemma OnlyIn(bs: seq<Block>, i: nat, e: Entry)
    requires Ordered(bs) && i < |bs| && Has(bs, e)
    requires Le(bs[i][0].key, e.key) && (i + 1 < |bs| ==> Lt(e.key, bs[i + 1][0].key))
    ensures e in bs[i]
  {
    var p: nat :| p < |bs| && e in bs[p];
    var q: nat :| q < |bs[p]| && bs[p][q] == e;
    if p < i {
      assert Below(bs[p], bs[i]);
      NotLt(e.key, bs[i][0].key);
    } else if p > i {
      AfterNext(bs, i, p, q);
      LtAsym(e.key, bs[i + 1][0].key);
    }
  }

  lemma AfterNext(bs: seq<Block>, i: nat, p: nat, q: nat)
    requires Ordered(bs) && i < p < |bs| && q < |bs[p]|
    ensures Le(bs[i + 1][0].key, bs[p][q].key)
  {
    if p > i + 1 { assert Below(bs[i + 1], bs[p]); }
  }

  // ---- blocks as a map ---------------------------------------------------------------------------

  /** The blocks hold exactly the map's entries, under storage keys. */
  ghost predicate Represents(bs: seq<Block>, m: Flat) {
    && (forall e: Entry | Has(bs, e) :: e.key in m && e.value == EncodeValue(m[e.key]))
    && (forall k: Bytes | k in m :: k != [] && k[0] < 3 && Has(bs, Entry(k, EncodeValue(m[k]))))
  }

  lemma Absent(bs: seq<Block>, m: Flat, k: Bytes)
    requires Represents(bs, m) && forall e: Entry | Has(bs, e) :: e.key != k
    ensures k !in m
  {
    assert k in m ==> Has(bs, Entry(k, EncodeValue(m[k])));
  }

  lemma SkOrder(cf: Cf, a: Bytes, b: Bytes)
    ensures Le(Sk(cf, a), Sk(cf, b)) <==> Le(a, b)
  {
    LtPrefix([cf], a, b);
    SkInjective(cf, a, b);
  }

  lemma SkSplit(cf: Cf, k: Bytes)
    requires k != [] && k[0] == cf
    ensures Sk(cf, k[1..]) == k
  {
  }

  /** The first entry at or after `[cf] + from` is the seek's answer, unless it belongs to a later family:
      then this family has nothing left. */
  lemma FirstIsSeek(bs: seq<Block>, m: Flat, cf: Cf, from: Bytes, e: Option<Entry>)
    requires Represents(bs, m) && IsFirst(bs, Sk(cf, from), e)
    ensures e.None? ==> IsSeek(m, cf, from, None)
    ensures e.Some? ==> e.value.key != []
    ensures e.Some? && e.value.key[0] != cf ==> IsSeek(m, cf, from, None)
    ensures e.Some? && e.value.key[0] == cf ==>
      && DecodeValue(e.value.value).Some?
      && IsSeek(m, cf, from, Some(Kv(e.value.key[1..], DecodeValue(e.value.value).value)))
  {
    forall k: Bytes | Sk(cf, k) in m && Le(from, k) ensures e.Some? && Le(e.value.key, Sk(cf, k)) {
      assert Has(bs, Entry(Sk(cf, k), EncodeValue(m[Sk(cf, k)])));
      SkOrder(cf, from, k);
    }
    if e.Some? {
      var x := e.value.key;
      if x[0] == cf {
        ValueRoundTrip(m[x]);
        SkSplit(cf, x);
        SkOrder(cf, from, x[1..]);
        forall k: Bytes | Sk(cf, k) in m && Le(from, k) ensures Le(x[1..], k) { SkOrder(cf, x[1..], k); }
      } else {
        forall k: Bytes | Sk(cf, k) in m && Le(from, k) ensures false { LaterFamily(cf, from, k, x); }
      }
    }
  }

  lemma LaterFamily(cf: Cf, from: Bytes, k: Bytes, x: Bytes)
    requires x != [] && x[0] != cf && Le(Sk(cf, from), x)
    ensures !Le(x, Sk(cf, k))
  {
  }

  // ---- the reader -----------------------------------------------------------------------------

  class Reader {
    const crc: Checksum
    const file: Bytes
    const index: seq<Index>
    ghost const blocks: seq<Block>

    /** The index describes the blocks, and each reads back. */
    ghost predicate Valid() {
      && Ordered(blocks) && |index| == |blocks|
      && forall i: nat {:trigger blocks[i]} | i < |blocks| ::
           && index[i].first == blocks[i][0].key && BlockFits(blocks[i])
           && ReadBlock(crc, file, index[i]) == Some(EncodeEntries(blocks[i]))
    }

    /** Open a file some writer finished. */
    constructor (crc: Checksum, file: Bytes, ghost bs: seq<Block>)
      requires file == Finished(crc, bs) && SstFile.Fits(crc, bs) && Ordered(bs)
      ensures Valid() && this.crc == crc && this.blocks == bs
    {
      OpenFinished(crc, bs);
      this.crc, this.file, this.blocks := crc, file, bs;
      this.index := Open(crc, file).value.index;
      forall i: nat | i < |bs|
        ensures IndexOf(crc, bs)[i].first == bs[i][0].key && BlockFits(bs[i])
        ensures ReadBlock(crc, file, IndexOf(crc, bs)[i]) == Some(EncodeEntries(bs[i]))
      {
        ReadFinished(crc, bs, i);
        BlockAt(crc, bs, i, []);
        assert bs[i] in bs;
      }
    }

    method LoadBlock(i: nat) returns (b: Block)
      requires Valid() && i < |index|
      ensures b == blocks[i]
    {
      EntriesRoundTrip(blocks[i]);
      b := Entries(ReadBlock(crc, file, index[i]).value);
    }

    /** How many blocks start at or below `sk`, by binary search. */
    method PartitionPoint(sk: Bytes) returns (n: nat)
      requires Valid()
      ensures n <= |blocks|
      ensures forall i: nat | i < n :: Le(blocks[i][0].key, sk)
      ensures forall i: nat | n <= i < |blocks| :: Lt(sk, blocks[i][0].key)
    {
      var hi: nat;
      n, hi := 0, |index|;
      while n < hi
        invariant n <= hi <= |blocks|
        invariant forall i: nat | i < n :: Le(blocks[i][0].key, sk)
        invariant forall i: nat | hi <= i < |blocks| :: Lt(sk, blocks[i][0].key)
      {
        var mid := (n + hi) / 2;
        assert index[mid].first == blocks[mid][0].key;
        NotLt(sk, index[mid].first);
        if Le(index[mid].first, sk) {
          StartsBelow(blocks, mid, sk);
          n := mid + 1;
        } else {
          StartsAbove(blocks, mid, sk);
          hi := mid;
        }
      }
    }

    /** `get`: the value, or tombstone, stored for a key of a column family. */
    method Get(cf: Cf, key: Bytes, ghost m: Flat) returns (v: Option<MemValue>)
      requires Valid() && Represents(blocks, m)
      ensures v.Some? <==> Sk(cf, key) in m
      ensures v.Some? ==> v.value == m[Sk(cf, key)]
    {
      var e := Lookup(Sk(cf, key));
      if e.None? {
        Absent(blocks, m, Sk(cf, key));
        return None;
      }
      ghost var x := Entry(Sk(cf, key), e.value);
      assert Has(blocks, x);
      ValueRoundTrip(m[x.key]);
      v := DecodeValue(e.value);
    }

    /** `seek`: the first entry of the column family at or after `from`, and nothing of the next family. */
    method Seek(cf: Cf, from: Bytes, ghost m: Flat) returns (r: Option<Kv>)
      requires Valid() && Represents(blocks, m)
      ensures IsSeek(m, cf, from, r)
    {
      var e := First(Sk(cf, from));
      FirstIsSeek(blocks, m, cf, from, e);
      if e.None? { return None; }
      if e.value.key[0] != cf { return None; }
      r := Some(Kv(e.value.key[1..], DecodeValue(e.value.value).value));
    }

    /** Exact lookup. */
    method Lookup(sk: Bytes) returns (v: Option<Bytes>)
      requires Valid()
      ensures v.Some? ==> Has(blocks, Entry(sk, v.value))
      ensures v.None? ==> forall e: Entry | Has(blocks, e) :: e.key != sk
    {
      var n := PartitionPoint(sk);
      if n == 0 {
        NotInAny(blocks, sk);
        return None;
      }
      var b := LoadBlock(n - 1);
      var i := 0;
      while i < |b|
        invariant i <= |b| && forall j: nat | j < i :: b[j].key != sk
      {
        if b[i].key == sk {
          assert b[i] in blocks[n - 1];
          return Some(b[i].value);
        }
        if Lt(sk, b[i].key) {
          PastIt(b, i, sk);
          break;
        }
        i := i + 1;
      }
      MissesBlock(blocks, n - 1, sk);
      v := None;
    }

    /** The first entry at or after `sk`, from the candidate block on. */
    method First(sk: Bytes) returns (r: Option<Entry>)
      requires Valid()
      ensures IsFirst(blocks, sk, r)
    {
      var n := PartitionPoint(sk);
      var bi := if n == 0 then 0 else n - 1;
      if n > 0 { SkipTo(blocks, n - 1, sk); }
      while bi < |index|
        invariant bi <= |blocks| && Passed(blocks, bi, 0, sk)
      {
        var b := LoadBlock(bi);
        var i := 0;
        while i < |b|
          invariant i <= |b| && Passed(blocks, bi, i, sk)
        {
          NotLt(b[i].key, sk);
          if Le(sk, b[i].key) {
            FirstFound(blocks, bi, i, sk);
            return Some(b[i]);
          }
          i := i + 1;
        }
        PassedBlock(blocks, bi, sk);
        bi := bi + 1;
      }
      NoneFound(blocks, sk);
      r := None;
    }
  }

  lemma StartsBelow(bs: seq<Block>, m: nat, sk: Bytes)
    requires Ordered(bs) && m < |bs| && Le(bs[m][0].key, sk)
    ensures forall i: nat | i <= m :: Le(bs[i][0].key, sk)
  {
    forall i: nat | i < m ensures Le(bs[i][0].key, sk) {
      assert Below(bs[i], bs[m]);
      LeTrans(bs[i][0].key, bs[m][0].key, sk);
    }
  }

  lemma StartsAbove(bs: seq<Block>, m: nat, sk: Bytes)
    requires Ordered(bs) && m < |bs| && Lt(sk, bs[m][0].key)
    ensures forall i: nat | m <= i < |bs| :: Lt(sk, bs[i][0].key)
  {
    forall i: nat | m < i < |bs| ensures Lt(sk, bs[i][0].key) {
      assert Below(bs[m], bs[i]);
      LtTrans(sk, bs[m][0].key, bs[i][0].key);
    }
  }

  lemma NotInAny(bs: seq<Block>, sk: Bytes)
    requires Ordered(bs) && forall i: nat | i < |bs| :: Lt(sk, bs[i][0].key)
    ensures forall e: Entry | Has(bs, e) :: e.key != sk
  {
    forall e: Entry | Has(bs, e) ensures e.key != sk {
      var p: nat :| p < |bs| && e in bs[p];
      var q: nat :| q < |bs[p]| && bs[p][q] == e;
      LeLtTrans(sk, bs[p][0].key, e.key);
      LtIrreflexive(sk);
    }
  }

  lemma MissesBlock(bs: seq<Block>, i: nat, sk: Bytes)
    requires Ordered(bs) && i < |bs| && Le(bs[i][0].key, sk) && (i + 1 < |bs| ==> Lt(sk, bs[i + 1][0].key))
    requires forall j: nat | j < |bs[i]| :: bs[i][j].key != sk
    ensures forall e: Entry | Has(bs, e) :: e.key != sk
  {
    forall e: Entry | Has(bs, e) ensures e.key != sk {
      if e.key == sk { OnlyIn(bs, i, e); }
    }
  }

  lemma PastIt(b: Block, i: nat, sk: Bytes)
    requires Rising(b) && i < |b| && Lt(sk, b[i].key)
    ensures forall j: nat | i <= j < |b| :: b[j].key != sk
  {
    forall j: nat | i <= j < |b| ensures b[j].key != sk {
      LeLtTrans(sk, b[i].key, b[j].key);
      LtIrreflexive(sk);
    }
  }
}
