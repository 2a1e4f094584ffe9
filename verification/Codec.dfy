/** The byte formats of the engine: length-prefixed fields (engine/src/encoding.rs), memtable values and write
    batches (engine/src/memtable.rs, engine/src/batch.rs), and block entries (engine/src/sstable/block.rs).
    A decoder takes what is left of the buffer and returns what follows the part it read. */
module Codec {
  import opened Basics
  import opened ByteOrder

  const U32: nat := 0x1_0000_0000
  const U64: nat := 0x1_0000_0000_0000_0000

  lemma Widths()
    ensures Pow256(4) == U32 && Pow256(8) == U64
  {
    assert Pow256(2) == 0x1_0000;
    assert Pow256(4) == U32;
    assert Pow256(6) == 0x1_0000_0000_0000;
  }

  /** A fixed-width integer reads back from the front of a buffer. */
  lemma BeFront(v: nat, w: nat, rest: Bytes)
    requires v < Pow256(w)
    ensures FromBe((Be(v, w) + rest)[..w]) == v && (Be(v, w) + rest)[w..] == rest
  {
    BeRoundTrip(v, w);
    assert (Be(v, w) + rest)[..w] == Be(v, w);
  }

  lemma Assoc(a: Bytes, b: Bytes, c: Bytes)
    ensures (a + b) + c == a + (b + c)
  {
  }

  // ---- length-prefixed fields -------------------------------------------------------------

  /** `put_length_prefixed`; a longer field than 32 bits can count would be cut in the length. */
  function Field(b: Bytes): (r: Bytes)
    ensures |r| == 4 + |b|
  {
    Be(|b|, 4) + b
  }

  function GetField(buf: Bytes): (r: Option<(Bytes, Bytes)>)
    ensures r.Some? ==> |r.value.1| + 4 <= |buf|
  {
    if |buf| < 4 then None
    else
      var len := FromBe(buf[..4]);
      if 4 + len > |buf| then None else Some((buf[4..][..len], buf[4..][len..]))
  }

  lemma FieldRoundTrip(b: Bytes, rest: Bytes)
    requires |b| < U32
    ensures GetField(Field(b) + rest) == Some((b, rest))
  {
    Widths();
    BeFront(|b|, 4, b + rest);
    Assoc(Be(|b|, 4), b, rest);
    assert (b + rest)[..|b|] == b && (b + rest)[|b|..] == rest;
  }

  // ---- memtable values ---------------------------------------------------------------------

  /** `Delete` is a tombstone: it shadows older levels. */
  datatype MemValue = Put(value: Bytes) | Delete

  function EncodeValue(v: MemValue): Bytes {
    match v
    case Put(b) => [0] + b
    case Delete => [1]
  }

  function DecodeValue(b: Bytes): Option<MemValue> {
    if b == [] then None
    else if b[0] == 0 then Some(Put(b[1..]))
    else if b[0] == 1 then Some(Delete)
    else None
  }

  lemma ValueRoundTrip(v: MemValue)
    ensures DecodeValue(EncodeValue(v)) == Some(v)
  {
    match v
    case Put(b) => assert ([0] + b)[1..] == b;
    case Delete =>
  }

  // ---- write batches ------------------------------------------------------------------------

  type Cf = c: Byte | c < 3

  /** One operation of a batch. `Put` with the value, `Delete` for a tombstone. */
  datatype WriteOp = WriteOp(cf: Cf, key: Bytes, value: MemValue)

  type Batch = seq<WriteOp>

  function EncodeOp(op: WriteOp): Bytes {
    match op.value
    case Put(v) => [0, op.cf] + Field(op.key) + Field(v)
    case Delete => [1, op.cf] + Field(op.key)
  }

  function EncodeOps(ops: Batch): Bytes {
    if ops == [] then [] else EncodeOp(ops[0]) + EncodeOps(ops[1..])
  }

  function EncodeBatch(ops: Batch): Bytes { Be(|ops|, 4) + EncodeOps(ops) }

  function DecodeOp(buf: Bytes): Option<(WriteOp, Bytes)> {
    if |buf| < 2 || buf[1] >= 3 then None
    else
      match GetField(buf[2..])
      case None => None
      case Some((key, rest)) =>
        if buf[0] == 0 then
          match GetField(rest)
          case None => None
          case Some((v, after)) => Some((WriteOp(buf[1], key, Put(v)), after))
        else if buf[0] == 1 then Some((WriteOp(buf[1], key, Delete), rest))
        else None
  }

  function DecodeOps(buf: Bytes, count: nat): Option<Batch>
    decreases count
  {
    if count == 0 then Some([])
    else
      match DecodeOp(buf)
      case None => None
      case Some((op, rest)) =>
        match DecodeOps(rest, count - 1)
        case None => None
        case Some(ops) => Some([op] + ops)
  }

  function DecodeBatch(buf: Bytes): Option<Batch> {
    if |buf| < 4 then None else DecodeOps(buf[4..], FromBe(buf[..4]))
  }

  /** What the 32-bit lengths can carry. */
  predicate OpFits(op: WriteOp) { |op.key| < U32 && (op.value.Put? ==> |op.value.value| < U32) }

  predicate BatchFits(ops: Batch) { |ops| < U32 && forall op | op in ops :: OpFits(op) }

  lemma OpHead(tag: Byte, cf: Cf, body: Bytes)
    ensures ([tag, cf] + body)[2..] == body && ([tag, cf] + body)[0] == tag && ([tag, cf] + body)[1] == cf
  {
  }

  lemma OpRoundTrip(op: WriteOp, rest: Bytes)
    requires OpFits(op)
    ensures DecodeOp(EncodeOp(op) + rest) == Some((op, rest))
  {
    match op.value
    case Put(v) =>
      Assoc([0, op.cf] + Field(op.key), Field(v), rest);
      Assoc([0, op.cf], Field(op.key), Field(v) + rest);
      OpHead(0, op.cf, Field(op.key) + (Field(v) + rest));
      FieldRoundTrip(op.key, Field(v) + rest);
      FieldRoundTrip(v, rest);
    case Delete =>
      Assoc([1, op.cf], Field(op.key), rest);
      OpHead(1, op.cf, Field(op.key) + rest);
      FieldRoundTrip(op.key, rest);
  }

  lemma {:induction false} OpsRoundTrip(ops: Batch)
    requires forall op | op in ops :: OpFits(op)
    ensures DecodeOps(EncodeOps(ops), |ops|) == Some(ops)
  {
    if ops != [] {
      assert ops[0] in ops;
      OpRoundTrip(ops[0], EncodeOps(ops[1..]));
      OpsRoundTrip(ops[1..]);
      assert [ops[0]] + ops[1..] == ops;
    }
  }

  lemma BatchRoundTrip(ops: Batch)
    requires BatchFits(ops)
    ensures DecodeBatch(EncodeBatch(ops)) == Some(ops)
  {
    Widths();
    BeFront(|ops|, 4, EncodeOps(ops));
    OpsRoundTrip(ops);
  }

  // ---- block entries -----------------------------------------------------------------------------

  datatype Entry = Entry(key: Bytes, value: Bytes)

  function EncodeEntry(e: Entry): (b: Bytes)
    ensures |b| == 8 + |e.key| + |e.value|
  {
    Field(e.key) + Field(e.value)
  }

  function EncodeEntries(es: seq<Entry>): Bytes {
    if es == [] then [] else EncodeEntry(es[0]) + EncodeEntries(es[1..])
  }

  function GetEntry(block: Bytes): (r: Option<(Entry, Bytes)>)
    ensures r.Some? ==> |r.value.1| < |block|
  {
    match GetField(block)
    case None => None
    case Some((k, rest)) =>
      match GetField(rest)
      case None => None
      case Some((v, after)) => Some((Entry(k, v), after))
  }

  /** The entries of a block, up to the first field that does not parse. */
  function Entries(block: Bytes): seq<Entry>
    decreases |block|
  {
    match GetEntry(block)
    case None => []
    case Some((e, rest)) => [e] + Entries(rest)
  }

  predicate EntryFits(e: Entry) { |e.key| < U32 && |e.value| < U32 }

  lemma EntryRoundTrip(e: Entry, rest: Bytes)
    requires EntryFits(e)
    ensures GetEntry(EncodeEntry(e) + rest) == Some((e, rest))
  {
    Assoc(Field(e.key), Field(e.value), rest);
    FieldRoundTrip(e.key, Field(e.value) + rest);
    FieldRoundTrip(e.value, rest);
  }

  /** A block reads back as the entries it was built from. */
  lemma {:induction false} EntriesRoundTrip(es: seq<Entry>)
    requires forall e | e in es :: EntryFits(e)
    ensures Entries(EncodeEntries(es)) == es
  {
    if es != [] {
      assert es[0] in es;
      EntryRoundTrip(es[0], EncodeEntries(es[1..]));
      EntriesRoundTrip(es[1..]);
      assert [es[0]] + es[1..] == es;
    }
  }

  lemma {:induction false} EncodeAppend(es: seq<Entry>, e: Entry)
    ensures EncodeEntries(es + [e]) == EncodeEntries(es) + EncodeEntry(e)
  {
    if es == [] {
      assert [] + [e] == [e] && [e][1..] == [] && EncodeEntries([]) == [];
    } else {
      EncodeAppend(es[1..], e);
      assert (es + [e])[1..] == es[1..] + [e];
    }
  }
}
