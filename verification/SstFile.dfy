/** Sorted-string tables on disk (engine/src/sstable/writer.rs, reader.rs): data blocks with a checksum each, an
    index of first keys and positions, and a footer. Reading a written file gives the blocks back. */
module SstFile {
  import opened Basics
  import opened ByteOrder
  import opened Codec
  import opened Wal

  type Block = seq<Entry>

  datatype Index = Index(first: Bytes, offset: nat, len: nat)

  /** An open table: the file and its index. */
  datatype Sst = Sst(file: Bytes, index: seq<Index>)

  const MAGIC: nat := 0x5353_5442_5f56_3031
  const FOOTER_LEN: nat := 20

  // ---- what the writer produces ------------------------------------------------------------

  function Sealed(crc: Checksum, b: Bytes): (r: Bytes)
    ensures |r| == |b| + 4
  {
    b + Be(crc(b), 4)
  }

  function DiskBlock(crc: Checksum, b: Block): Bytes { Sealed(crc, EncodeEntries(b)) }

  function FileOf(crc: Checksum, bs: seq<Block>): Bytes {
    if bs == [] then [] else FileOf(crc, bs[..|bs| - 1]) + DiskBlock(crc, bs[|bs| - 1])
  }

  function FirstKey(b: Block): Bytes { if b == [] then [] else b[0].key }

  function IndexOf(crc: Checksum, bs: seq<Block>): (ix: seq<Index>)
    ensures |ix| == |bs|
  {
    if bs == [] then []
    else
      var n := |bs| - 1;
      IndexOf(crc, bs[..n]) + [Index(FirstKey(bs[n]), |FileOf(crc, bs[..n])|, |DiskBlock(crc, bs[n])|)]
  }

  function EncodeIndexEntry(e: Index): Bytes { Field(e.first) + (Be(e.offset, 8) + Be(e.len, 4)) }

  function EncodeIndex(ix: seq<Index>): Bytes {
    if ix == [] then [] else EncodeIndexEntry(ix[0]) + EncodeIndex(ix[1..])
  }

  function Footer(offset: nat, len: nat): (b: Bytes)
    ensures |b| == FOOTER_LEN
  {
    Be(offset, 8) + (Be(len, 4) + Be(MAGIC, 8))
  }

  /** The index block and the footer after `data` bytes of blocks. */
  function Trailer(crc: Checksum, ix: seq<Index>, data: nat): Bytes {
    var idx := Sealed(crc, EncodeIndex(ix));
    idx + Footer(data, |idx|)
  }

  /** `finish`: the blocks, the index, the footer. */
  function Finished(crc: Checksum, bs: seq<Block>): Bytes {
    FileOf(crc, bs) + Trailer(crc, IndexOf(crc, bs), |FileOf(crc, bs)|)
  }

  // ---- what the reader does ------------------------------------------------------------------

  /** The bytes before a checksum, if it matches. */
  function Unseal(crc: Checksum, buf: Bytes): Option<Bytes> {
    if |buf| < 4 then None
    else if FromBe(buf[|buf| - 4..]) != crc(buf[..|buf| - 4]) then None
    else Some(buf[..|buf| - 4])
  }

  function ParseIndex(body: Bytes): Option<seq<Index>>
    decreases |body|
  {
    if body == [] then Some([])
    else
      match GetField(body)
      case None => None
      case Some((first, rest)) =>
        if |rest| < 12 then None
        else
          match ParseIndex(rest[12..])
          case None => None
          case Some(ix) => Some([Index(first, FromBe(rest[..8]), FromBe(rest[8..12]))] + ix)
  }

  /** The index bytes the footer points at. */
  function IndexBody(crc: Checksum, file: Bytes): Option<Bytes> {
    if |file| < FOOTER_LEN then None
    else
      var footer := file[|file| - FOOTER_LEN..];
      var offset, len := FromBe(footer[..8]), FromBe(footer[8..12]);
      if FromBe(footer[12..]) != MAGIC || offset + len > |file| then None
      else Unseal(crc, file[offset..offset + len])
  }

  function Open(crc: Checksum, file: Bytes): Option<Sst> {
    match IndexBody(crc, file)
    case None => None
    case Some(body) =>
      match ParseIndex(body)
      case None => None
      case Some(ix) => Some(Sst(file, ix))
  }

  function ReadBlock(crc: Checksum, file: Bytes, e: Index): Option<Bytes> {
    if e.offset + e.len > |file| then None else Unseal(crc, file[e.offset..e.offset + e.len])
  }

  // ---- reading what was written ---------------------------------------------------------------

  lemma UnsealSealed(crc: Checksum, b: Bytes)
    ensures Unseal(crc, Sealed(crc, b)) == Some(b)
  {
    Widths();
    BeRoundTrip(crc(b), 4);
    assert Sealed(crc, b)[|b|..] == Be(crc(b), 4) && Sealed(crc, b)[..|b|] == b;
  }

  /** What the widths of the format can carry. */
  predicate IndexFits(e: Index) { |e.first| < U32 && e.offset < U64 && e.len < U32 }

  lemma IndexEntryFront(e: Index, rest: Bytes)
    requires IndexFits(e)
    ensures GetField(EncodeIndexEntry(e) + rest) == Some((e.first, Be(e.offset, 8) + Be(e.len, 4) + rest))
    ensures var r := Be(e.offset, 8) + Be(e.len, 4) + rest;
      FromBe(r[..8]) == e.offset && FromBe(r[8..12]) == e.len && r[12..] == rest
  {
    Widths();
    var tail := Be(e.offset, 8) + Be(e.len, 4);
    Assoc(Field(e.first), tail, rest);
    FieldRoundTrip(e.first, tail + rest);
    BeRoundTrip(e.offset, 8);
    BeRoundTrip(e.len, 4);
    assert (tail + rest)[..8] == Be(e.offset, 8) && (tail + rest)[8..12] == Be(e.len, 4) && (tail + rest)[12..] == rest;
  }

  lemma {:induction false} IndexRoundTrip(ix: seq<Index>)
    requires forall e | e in ix :: IndexFits(e)
    ensures ParseIndex(EncodeIndex(ix)) == Some(ix)
  {
    if ix != [] {
      assert ix[0] in ix;
      IndexEntryFront(ix[0], EncodeIndex(ix[1..]));
      IndexRoundTrip(ix[1..]);
      assert [ix[0]] + ix[1..] == ix;
    }
  }

  lemma Slice(a: Bytes, b: Bytes, c: Bytes)
    ensures (a + b + c)[|a|..|a| + |b|] == b
  {
  }

  /** A block lies in the file where the index says. */
  lemma {:induction false} BlockAt(crc: Checksum, bs: seq<Block>, i: nat, tail: Bytes)
    requires i < |bs|
    ensures var e := IndexOf(crc, bs)[i]; var file := FileOf(crc, bs) + tail;
      && e.first == FirstKey(bs[i]) && e.offset + e.len <= |file|
      && file[e.offset..e.offset + e.len] == DiskBlock(crc, bs[i])
    decreases |bs|
  {
    var n := |bs| - 1;
    var before, last := FileOf(crc, bs[..n]), DiskBlock(crc, bs[n]);
    Assoc(before, last, tail);
    if i == n {
      Slice(before, last, tail);
    } else {
      BlockAt(crc, bs[..n], i, last + tail);
    }
  }

  predicate BlockFits(b: Block) { forall e | e in b :: EntryFits(e) }

  predicate Fits(crc: Checksum, bs: seq<Block>) {
    && (forall b | b in bs :: BlockFits(b))
    && (forall e | e in IndexOf(crc, bs) :: IndexFits(e))
    && |FileOf(crc, bs)| < U64 && |EncodeIndex(IndexOf(crc, bs))| + 4 < U32
  }

  lemma FooterFields(offset: nat, len: nat)
    requires offset < U64 && len < U32
    ensures FromBe(Footer(offset, len)[..8]) == offset && FromBe(Footer(offset, len)[8..12]) == len
    ensures FromBe(Footer(offset, len)[12..]) == MAGIC
  {
    Widths();
    BeRoundTrip(offset, 8);
    BeRoundTrip(len, 4);
    BeRoundTrip(MAGIC, 8);
    var f := Footer(offset, len);
    assert f[..8] == Be(offset, 8) && f[8..12] == Be(len, 4) && f[12..] == Be(MAGIC, 8);
  }

  lemma BodyIs(crc: Checksum, file: Bytes, footer: Bytes, offset: nat, len: nat)
    requires |file| >= FOOTER_LEN && file[|file| - FOOTER_LEN..] == footer && offset + len <= |file|
    requires FromBe(footer[..8]) == offset && FromBe(footer[8..12]) == len && FromBe(footer[12..]) == MAGIC
    ensures IndexBody(crc, file) == Unseal(crc, file[offset..offset + len])
  {
  }

  lemma Parts(a: Bytes, b: Bytes, c: Bytes)
    ensures (a + (b + c))[|a|..|a| + |b|] == b && (a + (b + c))[|a| + |b|..] == c
  {
  }

  lemma BodyOf(crc: Checksum, data: Bytes, idx: Bytes, body: Bytes, footer: Bytes, file: Bytes)
    requires |data| < U64 && |idx| < U32 && Unseal(crc, idx) == Some(body) && footer == Footer(|data|, |idx|)
    requires file == data + (idx + footer)
    ensures IndexBody(crc, file) == Some(body)
  {
    Parts(data, idx, footer);
    FooterFields(|data|, |idx|);
    assert |file| == |data| + |idx| + FOOTER_LEN;
    assert file[|file| - FOOTER_LEN..] == footer && file[|data|..|data| + |idx|] == idx;
    BodyIs(crc, file, footer, |data|, |idx|);
  }

  lemma OpenFrom(crc: Checksum, file: Bytes, ix: seq<Index>)
    requires IndexBody(crc, file) == Some(EncodeIndex(ix)) && forall e | e in ix :: IndexFits(e)
    ensures Open(crc, file) == Some(Sst(file, ix))
  {
    IndexRoundTrip(ix);
  }

  lemma OpenParts(crc: Checksum, data: Bytes, ix: seq<Index>, file: Bytes)
    requires |data| < U64 && |EncodeIndex(ix)| + 4 < U32 && (forall e | e in ix :: IndexFits(e))
    requires file == data + Trailer(crc, ix, |data|)
    ensures Open(crc, file) == Some(Sst(file, ix))
  {
    var idx := Sealed(crc, EncodeIndex(ix));
    UnsealSealed(crc, EncodeIndex(ix));
    BodyOf(crc, data, idx, EncodeIndex(ix), Footer(|data|, |idx|), file);
    OpenFrom(crc, file, ix);
  }

  /** Opening a finished file recovers its index. */
  lemma OpenFinished(crc: Checksum, bs: seq<Block>)
    requires Fits(crc, bs)
    ensures Open(crc, Finished(crc, bs)) == Some(Sst(Finished(crc, bs), IndexOf(crc, bs)))
  {
    OpenParts(crc, FileOf(crc, bs), IndexOf(crc, bs), Finished(crc, bs));
  }

  lemma ReadAt(crc: Checksum, file: Bytes, e: Index, b: Bytes, disk: Bytes)
    requires e.offset + e.len <= |file| && file[e.offset..e.offset + e.len] == disk == Sealed(crc, b)
    ensures ReadBlock(crc, file, e) == Some(b)
  {
    UnsealSealed(crc, b);
  }

  /** Every block of a finished file reads back as it was written. */
  lemma ReadFinished(crc: Checksum, bs: seq<Block>, i: nat)
    requires i < |bs|
    ensures ReadBlock(crc, Finished(crc, bs), IndexOf(crc, bs)[i]) == Some(EncodeEntries(bs[i]))
  {
    var data, e := FileOf(crc, bs), IndexOf(crc, bs)[i];
    BlockAt(crc, bs, i, Trailer(crc, IndexOf(crc, bs), |data|));
    ReadAt(crc, Finished(crc, bs), e, EncodeEntries(bs[i]), DiskBlock(crc, bs[i]));
  }
}
