/** Writing a sorted run as a table (engine/src/sstable/writer.rs, `write_sst` of engine/src/db.rs): entries fill a
    block until it reaches the target size, blocks are sealed and indexed as they go. */
module SstWriter {
  import opened Basics
  import opened ByteOrder
  import opened Codec
  import opened Wal
  import opened SstFile
  import opened SstTable
  import opened Runs

  const BLOCK_SIZE: nat := 4096

  // ---- blocks as one sequence -----------------------------------------------------------------

  function Flatten(bs: seq<Block>): seq<Entry> {
    if bs == [] then [] else Flatten(bs[..|bs| - 1]) + bs[|bs| - 1]
  }

  lemma {:induction false} FlattenHas(bs: seq<Block>, e: Entry)
    ensures Has(bs, e) <==> e in Flatten(bs)
  {
    if bs != [] {
      var n := |bs| - 1;
      FlattenHas(bs[..n], e);
      if Has(bs, e) {
        var i: nat :| i < |bs| && e in bs[i];
        if i < n { assert e in bs[..n][i]; }
      }
      if Has(bs[..n], e) {
        var i: nat :| i < n && e in bs[..n][i];
        assert e in bs[i];
      }
    }
  }

  ghost predicate NonEmpty(bs: seq<Block>) { forall i: nat | i < |bs| :: bs[i] != [] }

  lemma RisingParts(a: Block, b: Block)
    requires Rising(a + b)
    ensures Rising(a) && Rising(b) && Below(a, b)
  {
    forall i: nat, j: nat | i < j < |a| ensures Lt(a[i].key, a[j].key) { assert (a + b)[i] == a[i] && (a + b)[j] == a[j]; }
    forall i: nat, j: nat | i < j < |b| ensures Lt(b[i].key, b[j].key) {
      assert (a + b)[|a| + i] == b[i] && (a + b)[|a| + j] == b[j];
    }
    forall i: nat, j: nat | i < |a| && j < |b| ensures Lt(a[i].key, b[j].key) {
      assert (a + b)[i] == a[i] && (a + b)[|a| + j] == b[j];
    }
  }

  /** However a rising sequence is cut into blocks, the blocks are ordered. */
  lemma {:induction false} CutsAreOrdered(bs: seq<Block>)
    requires NonEmpty(bs) && Rising(Flatten(bs))
    ensures Ordered(bs)
  {
    if bs != [] {
      var n := |bs| - 1;
      RisingParts(Flatten(bs[..n]), bs[n]);
      CutsAreOrdered(bs[..n]);
      forall i: nat, j: nat | i < j < |bs| ensures Below(bs[i], bs[j]) {
        if j == n { PartBelow(bs[..n], i, bs[n]); } else { assert Below(bs[..n][i], bs[..n][j]); }
      }
      forall i: nat | i < |bs| ensures Rising(bs[i]) { if i < n { assert Rising(bs[..n][i]); } }
    }
  }

  lemma PartBelow(bs: seq<Block>, i: nat, b: Block)
    requires i < |bs| && Below(Flatten(bs), b)
    ensures Below(bs[i], b)
  {
    forall p: nat, q: nat | p < |bs[i]| && q < |b| ensures Lt(bs[i][p].key, b[q].key) {
      FlattenHas(bs, bs[i][p]);
      assert bs[i][p] in bs[i];
      var x: nat :| x < |Flatten(bs)| && Flatten(bs)[x] == bs[i][p];
    }
  }

  // ---- the writer --------------------------------------------------------------------------------

  predicate IsLaid(crc: Checksum, bs: seq<Block>, file: Bytes, offset: nat, ix: seq<Index>) {
    file == FileOf(crc, bs) && offset == |file| && ix == IndexOf(crc, bs)
  }

  /** The file and the index of these blocks; said so that `FileOf` and `IndexOf` are unfolded only on request. */
  ghost predicate Laid(crc: Checksum, bs: seq<Block>, file: Bytes, offset: nat, ix: seq<Index>) {
    forall x: Bytes {:trigger IsLaid(crc, bs, x, offset, ix)} | x == file :: IsLaid(crc, bs, x, offset, ix)
  }

  lemma LaidIs(crc: Checksum, bs: seq<Block>, file: Bytes, offset: nat, ix: seq<Index>)
    ensures Laid(crc, bs, file, offset, ix) <==> IsLaid(crc, bs, file, offset, ix)
  {
    assert Laid(crc, bs, file, offset, ix) ==> IsLaid(crc, bs, file, offset, ix);
  }

  /** One block more in the file and in the index. */
  lemma BlockAdded(crc: Checksum, bs: seq<Block>, b: Block, file: Bytes, offset: nat, ix: seq<Index>, disk: Bytes)
    requires b != [] && Laid(crc, bs, file, offset, ix) && disk == DiskBlock(crc, b) && NonEmpty(bs)
    ensures Laid(crc, bs + [b], file + disk, offset + |disk|, ix + [Index(b[0].key, offset, |disk|)])
    ensures Flatten(bs + [b]) == Flatten(bs) + b && NonEmpty(bs + [b])
  {
    assert (bs + [b])[..|bs|] == bs;
    LaidIs(crc, bs, file, offset, ix);
    LaidIs(crc, bs + [b], file + disk, offset + |disk|, ix + [Index(b[0].key, offset, |disk|)]);
  }

  class Writer {
    const crc: Checksum
    var file: Bytes
    var offset: nat
    var block: Bytes
    var firstKey: Option<Bytes>
    var index: seq<Index>
    ghost var blocks: seq<Block>
    ghost var open: Block

    ghost predicate Valid()
      reads this
    {
      && NonEmpty(blocks) && Laid(crc, blocks, file, offset, index)
      && block == EncodeEntries(open) && (open != [] ==> firstKey == Some(open[0].key))
    }

    /** Everything added so far. */
    ghost function Added(): seq<Entry>
      reads this
    {
      Flatten(blocks) + open
    }

    constructor (crc: Checksum)
      ensures Valid() && this.crc == crc && Added() == []
    {
      LaidIs(crc, [], [], 0, []);
      this.crc, file, offset, block, firstKey, index := crc, [], 0, [], None, [];
      blocks, open := [], [];
    }

    method Add(key: Bytes, value: Bytes)
      requires Valid()
      modifies this
      ensures Valid() && Added() == old(Added()) + [Entry(key, value)] && |block| < BLOCK_SIZE
    {
      if |block| == 0 {
        NothingEncoded(open);
        firstKey := Some(key);
      }
      EncodeAppend(open, Entry(key, value));
      block := block + Field(key) + Field(value);
      Assoc(EncodeEntries(open), Field(key), Field(value));
      open := open + [Entry(key, value)];
      assert Added() == old(Added()) + [Entry(key, value)];
      if |block| >= BLOCK_SIZE { FlushBlock(); }
    }

    static lemma NothingEncoded(b: Block)
      requires EncodeEntries(b) == []
      ensures b == []
    {
    }

    method FlushBlock()
      requires Valid()
      modifies this
      ensures Valid() && open == [] && |block| == 0 && Added() == old(Added())
    {
      if |block| == 0 {
        NothingEncoded(open);
        return;
      }
      BlockAdded(crc, blocks, open, file, offset, index, block + Be(crc(block), 4));
      block := block + Be(crc(block), 4);
      var len := |block|;
      file := file + block;
      index := index + [Index(firstKey.value, offset, len)];
      firstKey := None;
      offset := offset + len;
      block := [];
      blocks, open := blocks + [open], [];
    }

    method Finish() returns (bytes: Bytes)
      requires Valid()
      modifies this
      ensures Valid() && Added() == old(Added()) == Flatten(blocks) && bytes == Finished(crc, blocks)
    {
      FlushBlock();
      LaidIs(crc, blocks, file, offset, index);
      assert Added() == Flatten(blocks);
      var idx := [];
      var i := 0;
      while i < |index|
        invariant i <= |index| && idx + EncodeIndex(index[i..]) == EncodeIndex(index)
      {
        idx := idx + EncodeIndexEntry(index[i]);
        assert index[i..][1..] == index[i + 1..];
        i := i + 1;
      }
      assert index[i..] == [] && idx == EncodeIndex(index);
      idx := idx + Be(crc(idx), 4);
      bytes := file + (idx + Footer(offset, |idx|));
    }
  }

  // ---- sizes ---------------------------------------------------------------------------------------

  /** More than an entry can take in the file, alone in its block. */
  function Cost(e: Entry): nat { 2 * |e.key| + |e.value| + 28 }

  function Weight(es: seq<Entry>): nat { if es == [] then 0 else Weight(es[..|es| - 1]) + Cost(es[|es| - 1]) }

  lemma {:induction false} WeightSplit(a: seq<Entry>, b: seq<Entry>)
    ensures Weight(a + b) == Weight(a) + Weight(b)
    decreases |b|
  {
    if b == [] {
      assert a + b == a;
    } else {
      var n := |b| - 1;
      WeightSplit(a, b[..n]);
      assert (a + b)[..|a + b| - 1] == a + b[..n];
    }
  }

  lemma {:induction false} BlockCost(b: Block)
    requires b != []
    ensures |EncodeEntries(b)| + 20 + |b[0].key| <= Weight(b)
  {
    var n := |b| - 1;
    EncodeAppend(b[..n], b[n]);
    assert b[..n] + [b[n]] == b;
    if n == 0 {
      assert b[..0] == [] && EncodeEntries([]) == [] && Weight([]) == 0;
    } else {
      BlockCost(b[..n]);
    }
  }

  lemma {:induction false} IndexAppend(ix: seq<Index>, e: Index)
    ensures EncodeIndex(ix + [e]) == EncodeIndex(ix) + EncodeIndexEntry(e)
  {
    if ix == [] {
      assert [] + [e] == [e] && [e][1..] == [] && EncodeIndex([]) == [];
    } else {
      IndexAppend(ix[1..], e);
      assert (ix + [e])[1..] == ix[1..] + [e];
      Assoc(EncodeIndexEntry(ix[0]), EncodeIndex(ix[1..]), EncodeIndexEntry(e));
    }
  }

  lemma {:induction false} FileCost(crc: Checksum, bs: seq<Block>)
    requires NonEmpty(bs)
    ensures |FileOf(crc, bs)| + |EncodeIndex(IndexOf(crc, bs))| <= Weight(Flatten(bs))
  {
    if bs != [] {
      var n := |bs| - 1;
      FileCost(crc, bs[..n]);
      WeightSplit(Flatten(bs[..n]), bs[n]);
      BlockCost(bs[n]);
      IndexAppend(IndexOf(crc, bs[..n]), Index(FirstKey(bs[n]), |FileOf(crc, bs[..n])|, |DiskBlock(crc, bs[n])|));
    }
  }

  lemma {:induction false} EntryCost(es: seq<Entry>, e: Entry)
    requires e in es
    ensures Cost(e) <= Weight(es)
  {
    var n := |es| - 1;
    if es[n] != e {
      assert e in es[..n];
      EntryCost(es[..n], e);
    }
  }

  /** A table lighter than its 32-bit lengths can count has no length cut. */
  lemma LightFits(crc: Checksum, bs: seq<Block>)
    requires NonEmpty(bs) && Weight(Flatten(bs)) + 4 < U32
    ensures SstFile.Fits(crc, bs)
  {
    FileCost(crc, bs);
    forall b | b in bs ensures BlockFits(b) {
      forall e | e in b ensures EntryFits(e) {
        var i: nat :| i < |bs| && bs[i] == b;
        FlattenHas(bs, e);
        EntryCost(Flatten(bs), e);
      }
    }
    forall x | x in IndexOf(crc, bs) ensures IndexFits(x) {
      var i: nat :| i < |bs| && IndexOf(crc, bs)[i] == x;
      BlockAt(crc, bs, i, []);
      assert FileOf(crc, bs) + [] == FileOf(crc, bs);
      var e := bs[i][0];
      assert e in bs[i];
      FlattenHas(bs, e);
      EntryCost(Flatten(bs), e);
    }
  }

  // ---- a run as a table -----------------------------------------------------------------------------

  function Raw(run: Run): seq<Entry> { seq(|run|, i requires 0 <= i < |run| => Entry(run[i].key, EncodeValue(run[i].value))) }

  /** Storage keys begin with a column family. */
  ghost predicate StorageKeys(run: Run) { forall i: nat | i < |run| :: run[i].key != [] && run[i].key[0] < 3 }

  lemma RunRepresented(run: Run, bs: seq<Block>)
    requires Ascending(run) && StorageKeys(run) && NonEmpty(bs) && Flatten(bs) == Raw(run)
    ensures Ordered(bs) && Represents(bs, Contents(run))
  {
    assert Rising(Raw(run));
    CutsAreOrdered(bs);
    forall e: Entry | Has(bs, e) ensures e.key in Contents(run) && e.value == EncodeValue(Contents(run)[e.key]) {
      FlattenHas(bs, e);
      var i: nat :| i < |Raw(run)| && Raw(run)[i] == e;
      ContentsHas(run, run[i].key);
    }
    forall k: Bytes | k in Contents(run)
      ensures k != [] && k[0] < 3 && Has(bs, Entry(k, EncodeValue(Contents(run)[k])))
    {
      ContentsHas(run, k);
      var i: nat :| i < |run| && run[i].key == k;
      FlattenHas(bs, Raw(run)[i]);
      assert Raw(run)[i] in Flatten(bs);
    }
  }

  lemma RawNext(run: Run, i: nat)
    requires i < |run|
    ensures Raw(run)[..i + 1] == Raw(run)[..i] + [Entry(run[i].key, EncodeValue(run[i].value))]
  {
  }

  method AddAll(w: Writer, run: Run)
    requires w.Valid() && w.Added() == []
    modifies w
    ensures w.Valid() && w.Added() == Raw(run)
  {
    var i := 0;
    while i < |run|
      invariant i <= |run| && w.Valid() && w.Added() == Raw(run)[..i]
    {
      w.Add(run[i].key, EncodeValue(run[i].value));
      RawNext(run, i);
      i := i + 1;
    }
    assert Raw(run)[..i] == Raw(run);
  }

  /** `write_sst`: every entry of a frozen memtable in storage-key order. Opened again, the table answers for
      exactly that memtable. */
  method WriteTable(crc: Checksum, run: Run) returns (file: Bytes, ghost bs: seq<Block>)
    requires Ascending(run) && StorageKeys(run)
    ensures file == Finished(crc, bs) && Ordered(bs) && Represents(bs, Contents(run))
    ensures Weight(Raw(run)) + 4 < U32 ==> SstFile.Fits(crc, bs)
  {
    var w := new Writer(crc);
    AddAll(w, run);
    file := w.Finish();
    bs := w.blocks;
    RunRepresented(run, bs);
    if Weight(Raw(run)) + 4 < U32 { LightFits(crc, bs); }
  }
}
