/** Readers accept exactly what writers write: whatever a decoder takes is the encoding of what it gives, checksum and magic
    included (engine/src/encoding.rs, engine/src/batch.rs, engine/src/wal.rs, engine/src/keys.rs,
    engine/src/sstable/reader.rs). With the round trips, each is an if-and-only-if. */
module Exact {
  import opened Basics
  import opened ByteOrder
  import opened Codec
  import opened Wal
  import opened SstFile
  import opened Mvcc
  import P = Percolator

  lemma Cut(b: Bytes, n: nat)
    requires n <= |b|
    ensures b == b[..n] + b[n..]
  {
  }

  lemma Begins(p: Bytes, b: Bytes)
    requires p <= b
    ensures b == p + b[|p|..]
  {
  }

  /** Four or eight bytes are the encoding of the number they give. */
  lemma Number(b: Bytes)
    requires |b| == 4 || |b| == 8
    ensures Be(FromBe(b), |b|) == b && FromBe(b) < if |b| == 4 then U32 else U64
  {
    Widths();
    FromBeRoundTrip(b);
  }

  lemma FieldExact(buf: Bytes, f: Bytes, rest: Bytes)
    ensures GetField(buf) == Some((f, rest)) <==> |f| < U32 && buf == Field(f) + rest
  {
    if GetField(buf) == Some((f, rest)) {
      Number(buf[..4]);
      Cut(buf, 4);
      Cut(buf[4..], |f|);
      Assoc(buf[..4], f, rest);
    }
    if |f| < U32 && buf == Field(f) + rest { FieldRoundTrip(f, rest); }
  }

  lemma ValueExact(x: Bytes, v: MemValue)
    ensures DecodeValue(x) == Some(v) <==> if v.Put? then x == EncodeValue(v) else EncodeValue(v) <= x
  {
    if x != [] { Cut(x, 1); }
  }

  lemma OpExact(buf: Bytes, op: WriteOp, rest: Bytes)
    ensures DecodeOp(buf) == Some((op, rest)) <==> OpFits(op) && buf == EncodeOp(op) + rest
  {
    if DecodeOp(buf) == Some((op, rest)) { OpTaken(buf, op, rest); }
    if OpFits(op) && buf == EncodeOp(op) + rest { OpRoundTrip(op, rest); }
  }

  lemma OpTaken(buf: Bytes, op: WriteOp, rest: Bytes)
    requires DecodeOp(buf) == Some((op, rest))
    ensures OpFits(op) && buf == EncodeOp(op) + rest
  {
    var (key, after) := GetField(buf[2..]).value;
    FieldExact(buf[2..], key, after);
    Cut(buf, 2);
    assert buf[..2] == [buf[0], buf[1]];
    match op.value
    case Put(v) =>
      FieldExact(after, v, rest);
      Assoc(Field(key), Field(v), rest);
      Assoc(buf[..2], Field(key), Field(v) + rest);
      Assoc(buf[..2] + Field(key), Field(v), rest);
    case Delete =>
      Assoc(buf[..2], Field(key), rest);
  }

  ghost predicate AllFit(ops: Batch) { forall op | op in ops :: OpFits(op) }

  ghost predicate IsSpelt(buf: Bytes, ops: Batch, rest: Bytes) { AllFit(ops) && buf == EncodeOps(ops) + rest }

  /** `buf` is the encoding of `ops`, which all fit, and `rest`. */
  ghost predicate Spells(buf: Bytes, ops: Batch, rest: Bytes) {
    forall x: Batch {:trigger IsSpelt(buf, x, rest)} | x == ops :: IsSpelt(buf, x, rest)
  }

  lemma Spelt(buf: Bytes, ops: Batch, rest: Bytes)
    ensures Spells(buf, ops, rest) <==> AllFit(ops) && buf == EncodeOps(ops) + rest
  {
    assert Spells(buf, ops, rest) ==> IsSpelt(buf, ops, rest);
  }

  ghost predicate IsDecoded(buf: Bytes, n: nat, ops: Batch) { DecodeOps(buf, n) == Some(ops) }

  ghost predicate Decodes(buf: Bytes, n: nat, ops: Batch) {
    forall x: nat {:trigger IsDecoded(buf, x, ops)} | x == n :: IsDecoded(buf, x, ops)
  }

  lemma Decoded(buf: Bytes, n: nat, ops: Batch)
    ensures Decodes(buf, n, ops) <==> DecodeOps(buf, n) == Some(ops)
  {
    assert Decodes(buf, n, ops) ==> IsDecoded(buf, n, ops);
  }

  lemma {:induction false} OpsTaken(buf: Bytes, n: nat, ops: Batch) returns (rest: Bytes)
    requires Decodes(buf, n, ops)
    ensures |ops| == n && Spells(buf, ops, rest)
    decreases n
  {
    if n == 0 {
      rest := buf;
      NoOps(buf, n, ops);
    } else {
      var after, more := OpsSplit(buf, n, ops);
      rest := OpsTaken(after, n - 1, more);
      OpsJoined(buf, after, more, rest, ops);
    }
  }

  lemma NoOps(buf: Bytes, n: nat, ops: Batch)
    requires n == 0 && Decodes(buf, n, ops)
    ensures |ops| == 0 && Spells(buf, ops, buf)
  {
    Decoded(buf, n, ops);
    assert EncodeOps(ops) == [];
    Spelt(buf, ops, buf);
  }

  /** `ops` is an operation and `more`, and `buf` its encoding and `after`. */
  ghost predicate Extends(buf: Bytes, ops: Batch, after: Bytes, more: Batch) {
    exists op :: OpFits(op) && buf == EncodeOp(op) + after && ops == [op] + more
  }

  lemma OpExtends(buf: Bytes, op: WriteOp, after: Bytes, more: Batch, ops: Batch)
    requires DecodeOp(buf) == Some((op, after)) && ops == [op] + more
    ensures Extends(buf, ops, after, more)
  {
    OpTaken(buf, op, after);
  }

  lemma Unfold(buf: Bytes, n: nat, ops: Batch) returns (op: WriteOp, after: Bytes, more: Batch)
    requires n > 0 && Decodes(buf, n, ops)
    ensures DecodeOp(buf) == Some((op, after)) && Decodes(after, n - 1, more) && ops == [op] + more
  {
    Decoded(buf, n, ops);
    var r := DecodeOp(buf).value;
    op, after := r.0, r.1;
    more := DecodeOps(after, n - 1).value;
    Decoded(after, n - 1, more);
  }

  lemma OpsSplit(buf: Bytes, n: nat, ops: Batch) returns (after: Bytes, more: Batch)
    requires n > 0 && Decodes(buf, n, ops)
    ensures Decodes(after, n - 1, more) && Extends(buf, ops, after, more) && |ops| == |more| + 1
  {
    var op;
    op, after, more := Unfold(buf, n, ops);
    OpExtends(buf, op, after, more, ops);
  }

  lemma OpsJoined(buf: Bytes, after: Bytes, more: Batch, rest: Bytes, ops: Batch)
    requires Extends(buf, ops, after, more) && Spells(after, more, rest)
    ensures Spells(buf, ops, rest)
  {
    Spelt(after, more, rest);
    Spelt(buf, ops, rest);
    var op :| OpFits(op) && buf == EncodeOp(op) + after && ops == [op] + more;
    OneMoreOp(op, more);
    Assoc(EncodeOp(op), EncodeOps(more), rest);
  }

  lemma OneMoreOp(op: WriteOp, more: Batch)
    ensures EncodeOps([op] + more) == EncodeOp(op) + EncodeOps(more) && (AllFit([op] + more) <==> OpFits(op) && AllFit(more))
  {
    assert ([op] + more)[1..] == more;
    assert op in [op] + more;
    assert forall x | x in more :: x in [op] + more;
  }

  lemma {:induction false} OpsGiven(ops: Batch, rest: Bytes)
    requires AllFit(ops)
    ensures DecodeOps(EncodeOps(ops) + rest, |ops|) == Some(ops)
  {
    if ops != [] {
      var op, more := ops[0], ops[1..];
      assert ops == [op] + more;
      OneMoreOp(op, more);
      OpsGiven(more, rest);
      OpRoundTrip(op, EncodeOps(more) + rest);
      Assoc(EncodeOp(op), EncodeOps(more), rest);
    }
  }

  /** A payload decodes to a batch exactly when it begins with that batch's encoding. */
  lemma BatchExact(buf: Bytes, ops: Batch)
    ensures DecodeBatch(buf) == Some(ops) <==> BatchFits(ops) && EncodeBatch(ops) <= buf
  {
    if DecodeBatch(buf) == Some(ops) { BatchTaken(buf, ops); }
    if BatchFits(ops) && EncodeBatch(ops) <= buf { BatchGiven(buf, ops); }
  }

  lemma BatchTaken(buf: Bytes, ops: Batch)
    requires DecodeBatch(buf) == Some(ops)
    ensures BatchFits(ops) && EncodeBatch(ops) <= buf
  {
    var n := FromBe(buf[..4]);
    Decoded(buf[4..], n, ops);
    var rest := OpsTaken(buf[4..], n, ops);
    Spelt(buf[4..], ops, rest);
    Number(buf[..4]);
    Cut(buf, 4);
    Assoc(buf[..4], EncodeOps(ops), rest);
  }

  lemma BatchGiven(buf: Bytes, ops: Batch)
    requires BatchFits(ops) && EncodeBatch(ops) <= buf
    ensures DecodeBatch(buf) == Some(ops)
  {
    Begins(EncodeBatch(ops), buf);
    BatchFront(ops, EncodeOps(ops), buf[|EncodeBatch(ops)|..]);
  }

  lemma BatchFront(ops: Batch, e: Bytes, rest: Bytes)
    requires BatchFits(ops) && e == EncodeOps(ops)
    ensures DecodeBatch((Be(|ops|, 4) + e) + rest) == Some(ops)
  {
    Assoc(Be(|ops|, 4), e, rest);
    Counted(|ops|);
    OpsGiven(ops, rest);
    BatchParts(Be(|ops|, 4), e + rest);
  }

  lemma Counted(n: nat)
    requires n < U32
    ensures FromBe(Be(n, 4)) == n
  {
    Widths();
    BeRoundTrip(n, 4);
  }

  lemma BatchParts(n: Bytes, body: Bytes)
    requires |n| == 4
    ensures DecodeBatch(n + body) == DecodeOps(body, FromBe(n))
  {
    assert (n + body)[..4] == n && (n + body)[4..] == body;
  }

  /** The log reader takes a record exactly when a frame of it, checksum and all, is what comes next. */
  lemma FrameExact(crc: Checksum, buf: Bytes, r: Record, rest: Bytes)
    ensures NextRecord(crc, buf) == Some((r, rest)) <==> Wal.Fits(r) && buf == Frame(crc, r) + rest
  {
    if NextRecord(crc, buf) == Some((r, rest)) { FrameTaken(crc, buf, r, rest); }
    if Wal.Fits(r) && buf == Frame(crc, r) + rest { FrameRoundTrip(crc, r, rest); }
  }

  lemma FrameTaken(crc: Checksum, buf: Bytes, r: Record, rest: Bytes)
    requires NextRecord(crc, buf) == Some((r, rest))
    ensures Wal.Fits(r) && buf == Frame(crc, r) + rest
  {
    var a, b, c := buf[..4], buf[4..][..4], buf[4..][4..];
    var len := FromBe(a);
    var body := c[..len];
    Number(a);
    Number(b);
    Number(body[..8]);
    Cut(buf, 4);
    Cut(buf[4..], 4);
    Cut(c, len);
    Cut(body, 8);
    assert body == Body(r);
    Assoc(b, body, rest);
    Assoc(a, b + body, rest);
  }

  /** What replay gives is what the file begins with, frame by frame, and after it no record follows. */
  lemma {:induction false} ReplayExact(crc: Checksum, buf: Bytes) returns (tail: Bytes)
    ensures buf == Frames(crc, ReadAll(crc, buf)) + tail && NextRecord(crc, tail).None?
    ensures forall r | r in ReadAll(crc, buf) :: Wal.Fits(r)
    decreases |buf|
  {
    match NextRecord(crc, buf)
    case None => tail := buf;
    case Some((r, rest)) =>
      FrameExact(crc, buf, r, rest);
      tail := ReplayExact(crc, rest);
      var more := ReadAll(crc, rest);
      assert ([r] + more)[1..] == more;
      Assoc(Frame(crc, r), Frames(crc, more), tail);
  }

  /** A block is taken exactly when its checksum is its own. */
  lemma UnsealExact(crc: Checksum, buf: Bytes, b: Bytes)
    ensures Unseal(crc, buf) == Some(b) <==> buf == Sealed(crc, b)
  {
    if Unseal(crc, buf) == Some(b) {
      Number(buf[|buf| - 4..]);
      Cut(buf, |buf| - 4);
    }
    if buf == Sealed(crc, b) { UnsealSealed(crc, b); }
  }

  lemma IndexEntryTaken(body: Bytes, first: Bytes, rest: Bytes, e: Index)
    requires GetField(body) == Some((first, rest)) && |rest| >= 12 && e == Index(first, FromBe(rest[..8]), FromBe(rest[8..12]))
    ensures IndexFits(e) && body == EncodeIndexEntry(e) + rest[12..]
  {
    FieldExact(body, first, rest);
    Number(rest[..8]);
    Number(rest[8..12]);
    Cut(rest, 12);
    Cut(rest[..12], 8);
    assert rest[..12][..8] == rest[..8] && rest[..12][8..] == rest[8..12];
    Assoc(Field(first), rest[..12], rest[12..]);
  }

  lemma {:induction false} IndexExact(body: Bytes, ix: seq<Index>)
    ensures ParseIndex(body) == Some(ix) <==> (forall e | e in ix :: IndexFits(e)) && body == EncodeIndex(ix)
    decreases |body|
  {
    if ParseIndex(body) == Some(ix) && body != [] {
      var (first, rest) := GetField(body).value;
      var e := Index(first, FromBe(rest[..8]), FromBe(rest[8..12]));
      IndexEntryTaken(body, first, rest, e);
      var more := ParseIndex(rest[12..]).value;
      IndexExact(rest[12..], more);
      assert ([e] + more)[1..] == more;
    }
    if (forall e | e in ix :: IndexFits(e)) && body == EncodeIndex(ix) { IndexRoundTrip(ix); }
  }

  /** The file ends in a footer that points at this sealed index. */
  ghost predicate Indexed(crc: Checksum, file: Bytes, ix: seq<Index>, offset: nat, len: nat) {
    && |file| >= FOOTER_LEN && file[|file| - FOOTER_LEN..] == Footer(offset, len) && offset < U64 && len < U32 && offset + len <= |file|
    && file[offset..offset + len] == Sealed(crc, EncodeIndex(ix)) && forall e | e in ix :: IndexFits(e)
  }

  /** A table opens exactly when its footer, magic included, points at a sealed index. */
  lemma OpenExact(crc: Checksum, file: Bytes, ix: seq<Index>)
    ensures SstFile.Open(crc, file) == Some(Sst(file, ix)) <==> exists offset: nat, len: nat :: Indexed(crc, file, ix, offset, len)
    ensures SstFile.Open(crc, file).Some? ==> SstFile.Open(crc, file).value.file == file
  {
    if SstFile.Open(crc, file) == Some(Sst(file, ix)) { OpenTaken(crc, file, ix); }
    forall offset: nat, len: nat | Indexed(crc, file, ix, offset, len) ensures SstFile.Open(crc, file) == Some(Sst(file, ix)) {
      FooterFields(offset, len);
      BodyIs(crc, file, Footer(offset, len), offset, len);
      UnsealSealed(crc, EncodeIndex(ix));
      OpenFrom(crc, file, ix);
    }
  }

  lemma FooterTaken(footer: Bytes, offset: nat, len: nat)
    requires |footer| == FOOTER_LEN && FromBe(footer[..8]) == offset && FromBe(footer[8..12]) == len && FromBe(footer[12..]) == MAGIC
    ensures footer == Footer(offset, len) && offset < U64 && len < U32
  {
    var a, b, c := footer[..8], footer[8..12], footer[12..];
    Number(a);
    Number(b);
    Number(c);
    assert footer == a + (b + c);
  }

  lemma IndexTaken(crc: Checksum, file: Bytes, ix: seq<Index>, body: Bytes)
    requires SstFile.Open(crc, file) == Some(Sst(file, ix)) && IndexBody(crc, file) == Some(body)
    ensures body == EncodeIndex(ix) && forall e | e in ix :: IndexFits(e)
  {
    IndexExact(body, ix);
  }

  lemma BodyTaken(crc: Checksum, file: Bytes, body: Bytes) returns (offset: nat, len: nat)
    requires IndexBody(crc, file) == Some(body)
    ensures |file| >= FOOTER_LEN && file[|file| - FOOTER_LEN..] == Footer(offset, len) && offset < U64 && len < U32 && offset + len <= |file|
    ensures Unseal(crc, file[offset..offset + len]) == Some(body)
  {
    var footer := file[|file| - FOOTER_LEN..];
    offset, len := FromBe(footer[..8]), FromBe(footer[8..12]);
    FooterTaken(footer, offset, len);
  }

  lemma OpenTaken(crc: Checksum, file: Bytes, ix: seq<Index>)
    requires SstFile.Open(crc, file) == Some(Sst(file, ix))
    ensures exists offset: nat, len: nat :: Indexed(crc, file, ix, offset, len)
  {
    var body := IndexBody(crc, file).value;
    var offset, len := BodyTaken(crc, file, body);
    UnsealExact(crc, file[offset..offset + len], body);
    IndexTaken(crc, file, ix, body);
    assert Indexed(crc, file, ix, offset, len);
  }

  /** Bytes decode to a lock exactly when they begin with an encoding of it, of either kind. */
  lemma LockExact(b: Bytes, l: P.Lock)
    ensures DecodeLock(b) == Some(l) <==> LockFits(l) && exists kind: Byte | kind <= 1 :: EncodeLock(l, kind) <= b
  {
    if DecodeLock(b) == Some(l) { LockTaken(b, l); }
    forall kind: Byte | kind <= 1 && LockFits(l) && EncodeLock(l, kind) <= b ensures DecodeLock(b) == Some(l) { LockGiven(b, l, kind); }
  }

  lemma LockTaken(b: Bytes, l: P.Lock)
    requires DecodeLock(b) == Some(l)
    ensures LockFits(l) && b[0] <= 1 && EncodeLock(l, b[0]) <= b
  {
    var (primary, rest) := GetField(b[17..]).value;
    FieldExact(b[17..], primary, rest);
    Number(b[1..9]);
    Number(b[9..17]);
    LockSplit(b);
    LockJoin([b[0]], b[1..9], b[9..17], Field(primary), rest);
  }

  lemma LockSplit(b: Bytes)
    requires |b| >= 17
    ensures b == [b[0]] + (b[1..9] + (b[9..17] + b[17..]))
  {
  }

  lemma LockJoin(a: Bytes, b: Bytes, c: Bytes, d: Bytes, e: Bytes)
    ensures a + (b + (c + (d + e))) == (a + (b + (c + d))) + e
  {
  }

  lemma LockGiven(b: Bytes, l: P.Lock, kind: Byte)
    requires kind <= 1 && LockFits(l) && EncodeLock(l, kind) <= b
    ensures DecodeLock(b) == Some(l)
  {
    var rest := b[|EncodeLock(l, kind)|..];
    Begins(EncodeLock(l, kind), b);
    LockJoin([kind], Be(l.start, 8), Be(l.ttl, 8), Field(l.primary), rest);
    Widths();
    LockParts(kind, Be(l.start, 8), Be(l.ttl, 8), Field(l.primary) + rest);
    BeRoundTrip(l.start, 8);
    BeRoundTrip(l.ttl, 8);
    FieldRoundTrip(l.primary, rest);
  }
}
