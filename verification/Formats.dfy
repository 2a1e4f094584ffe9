/** The bytes the formats put on disk and on the wire, in small cases (engine/src/memtable.rs, engine/src/batch.rs,
    engine/src/wal.rs, engine/src/keys.rs, raft-wal/src/lib.rs, raft/src/message.rs): what an earlier or a later build of the same code must read. */
module Formats {
  import opened Basics
  import opened ByteOrder
  import opened Codec
  import opened Wal
  import opened Mvcc
  import C = ConfChange
  import W = WalStorage
  import S = RaftStorage
  import P = Percolator

  lemma Zeros(w: nat, z: Bytes)
    requires z == Be(0, w)
    ensures Be(0, w + 1) == z + [0]
  {
  }

  lemma ZeroBytes()
    ensures Be(0, 2) == [0, 0] && Be(0, 3) == [0, 0, 0] && Be(0, 7) == [0, 0, 0, 0, 0, 0, 0]
  {
    Zeros(0, []);
    Zeros(1, [0]);
    Zeros(2, [0, 0]);
    Zeros(3, [0, 0, 0]);
    Zeros(4, [0, 0, 0, 0]);
    Zeros(5, [0, 0, 0, 0, 0]);
    Zeros(6, [0, 0, 0, 0, 0, 0]);
  }

  lemma LastByte(v: nat, w: nat, z: Bytes)
    requires v < 256 && z == Be(0, w)
    ensures Be(v, w + 1) == z + [v as Byte]
  {
  }

  /** Integers are big-endian. */
  lemma SmallBe(v: nat)
    requires v < 256
    ensures Be(v, 4) == [0, 0, 0, v as Byte] && Be(v, 8) == [0, 0, 0, 0, 0, 0, 0, v as Byte]
  {
    ZeroBytes();
    LastByte(v, 3, [0, 0, 0]);
    LastByte(v, 7, [0, 0, 0, 0, 0, 0, 0]);
  }

  /** A value is a tag and the bytes; a tombstone is the other tag. */
  lemma ValueBytes()
    ensures EncodeValue(Put([7, 8])) == [0, 7, 8] && EncodeValue(Delete) == [1]
  {
  }

  /** A batch: how many operations, then of each a tag, the family, the key and for a put the value. */
  lemma BatchBytes(a: WriteOp, b: WriteOp)
    requires a == WriteOp(1, [65], Put([7])) && b == WriteOp(2, [66], Delete)
    ensures EncodeBatch([a, b]) == [0, 0, 0, 2] + [0, 1, 0, 0, 0, 1, 65, 0, 0, 0, 1, 7] + [1, 2, 0, 0, 0, 1, 66]
  {
    SmallBe(2);
    PutBytes(a);
    DeleteBytes(b);
    TwoOps(a, b, EncodeOp(a), EncodeOp(b));
    assert [a] + ([b] + []) == [a, b];
  }

  lemma FieldByte(x: Byte, b: Bytes)
    requires b == [x]
    ensures Field(b) == [0, 0, 0, 1, x]
  {
    SmallBe(|b|);
  }

  lemma PutBytes(a: WriteOp)
    requires a == WriteOp(1, [65], Put([7]))
    ensures EncodeOp(a) == [0, 1, 0, 0, 0, 1, 65, 0, 0, 0, 1, 7]
  {
    FieldByte(65, a.key);
    FieldByte(7, a.value.value);
  }

  lemma DeleteBytes(b: WriteOp)
    requires b == WriteOp(2, [66], Delete)
    ensures EncodeOp(b) == [1, 2, 0, 0, 0, 1, 66]
  {
    FieldByte(66, b.key);
  }

  lemma OpsCons(op: WriteOp, more: Batch)
    ensures EncodeOps([op] + more) == EncodeOp(op) + EncodeOps(more)
  {
    assert ([op] + more)[1..] == more;
  }

  lemma NoOps(none: Batch)
    requires none == []
    ensures EncodeOps(none) == []
  {
  }

  lemma TwoOps(a: WriteOp, b: WriteOp, x: Bytes, y: Bytes)
    requires x == EncodeOp(a) && y == EncodeOp(b)
    ensures EncodeBatch([a] + ([b] + [])) == Be(2, 4) + x + y
  {
    var none: Batch := [];
    NoOps(none);
    OpsCons(b, none);
    OpsCons(a, [b] + none);
    JoinEmpty(Be(2, 4), x, y);
  }

  lemma JoinEmpty(n: Bytes, x: Bytes, y: Bytes)
    ensures n + (x + (y + [])) == n + x + y
  {
  }

  /** A frame: the length of what follows the header, its checksum, the number, the payload. */
  lemma FrameBytes(crc: Checksum)
    ensures Frame(crc, Record(3, [9])) == [0, 0, 0, 9] + (Be(crc([0, 0, 0, 0, 0, 0, 0, 3, 9]), 4) + [0, 0, 0, 0, 0, 0, 0, 3, 9])
  {
    SmallBe(3);
    SmallBe(9);
    assert Body(Record(3, [9])) == [0, 0, 0, 0, 0, 0, 0, 3, 9];
  }

  /** A lock: kind, start, expiry, primary. */
  lemma LockBytes(kind: Byte)
    ensures EncodeLock(P.Lock([65], 4, 6), kind) ==
      [kind] + [0, 0, 0, 0, 0, 0, 0, 4] + [0, 0, 0, 0, 0, 0, 0, 6] + [0, 0, 0, 1, 65]
  {
    SmallBe(4);
    SmallBe(6);
    FieldByte(65, [65]);
  }

  /** A Raft log record's payload: the term, whether it changes the membership, the data. */
  lemma EntryBytes()
    ensures W.EncodeEntry(S.LogEntry(2, 5, true, [9])) == [0, 0, 0, 0, 0, 0, 0, 2, 1, 9]
    ensures W.EncodeEntry(S.LogEntry(2, 5, false, [])) == [0, 0, 0, 0, 0, 0, 0, 2, 0]
  {
    SmallBe(2);
  }

  /** A recorded membership: the operation, the node, the voters, the learners. */
  lemma ChangeBytes()
    ensures C.Encode(C.RemoveNode(5), C.Conf([1], [])) ==
      [2] + [0, 0, 0, 0, 0, 0, 0, 5] + [0, 0, 0, 1] + [0, 0, 0, 0, 0, 0, 0, 1] + [0, 0, 0, 0]
    ensures C.Op(C.AddNode(0)) == 1 && C.Op(C.AddLearner(0)) == 3
  {
    SmallBe(0);
    SmallBe(1);
    SmallBe(5);
    OneId();
  }

  lemma OneId()
    ensures C.EncodeIds([]) == [] && C.EncodeIds([1]) == [0, 0, 0, 0, 0, 0, 0, 1]
  {
    SmallBe(1);
    var one: seq<nat> := [1];
    assert one[1..] == [];
    assert C.EncodeIds(one) == Be(1, 8) + C.EncodeIds([]);
  }
}
