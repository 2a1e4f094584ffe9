/** The write-ahead log's record frames (engine/src/wal.rs): `[len][crc][seq][payload]`, and what replay makes of a
    segment cut anywhere. The checksum is any function. */
module Wal {
  import opened Basics
  import opened ByteOrder
  import opened Codec

  type Word = x: nat | x < 0x1_0000_0000
  type Checksum = Bytes -> Word

  datatype Record = Record(number: nat, payload: Bytes)

  const HEADER_LEN: nat := 8
  const SEQ_LEN: nat := 8

  function Body(r: Record): (b: Bytes)
    ensures |b| == SEQ_LEN + |r.payload|
  {
    Be(r.number, 8) + r.payload
  }

  function Frame(crc: Checksum, r: Record): (b: Bytes)
    ensures |b| == HEADER_LEN + SEQ_LEN + |r.payload|
  {
    Be(|Body(r)|, 4) + (Be(crc(Body(r)), 4) + Body(r))
  }

  /** The record at the front of a buffer, if it is intact, and what follows. */
  function NextRecord(crc: Checksum, buf: Bytes): (r: Option<(Record, Bytes)>)
    ensures r.Some? ==> |r.value.1| + HEADER_LEN + SEQ_LEN <= |buf|
  {
    if |buf| < HEADER_LEN then None
    else
      var len := FromBe(buf[..4]);
      var sum := FromBe(buf[4..][..4]);
      var rest := buf[4..][4..];
      if len > |rest| || crc(rest[..len]) != sum || len < SEQ_LEN then None
      else Some((Record(FromBe(rest[..len][..8]), rest[..len][8..]), rest[len..]))
  }

  /** Replay: every intact record, up to the torn tail. */
  function ReadAll(crc: Checksum, buf: Bytes): seq<Record>
    decreases |buf|
  {
    match NextRecord(crc, buf)
    case None => []
    case Some((r, rest)) => [r] + ReadAll(crc, rest)
  }

  function Frames(crc: Checksum, rs: seq<Record>): Bytes {
    if rs == [] then [] else Frame(crc, rs[0]) + Frames(crc, rs[1..])
  }

  /** What the frame's integers can carry. */
  predicate Fits(r: Record) { SEQ_LEN + |r.payload| < U32 && r.number < U64 }

  // ---- one frame ---------------------------------------------------------------------------

  lemma Header(a: Bytes, b: Bytes, c: Bytes)
    requires |a| == 4 && |b| == 4
    ensures (a + (b + c))[..4] == a && (a + (b + c))[4..][..4] == b && (a + (b + c))[4..][4..] == c
  {
  }

  lemma Front(a: Bytes, b: Bytes)
    ensures (a + b)[..|a|] == a && (a + b)[|a|..] == b
  {
  }

  lemma FrameRoundTrip(crc: Checksum, r: Record, rest: Bytes)
    requires Fits(r)
    ensures NextRecord(crc, Frame(crc, r) + rest) == Some((r, rest))
  {
    var body := Body(r);
    var len, sum := Be(|body|, 4), Be(crc(body), 4);
    Widths();
    BeRoundTrip(|body|, 4);
    BeRoundTrip(crc(body), 4);
    BeRoundTrip(r.number, 8);
    Assoc(len, sum + body, rest);
    Assoc(sum, body, rest);
    Header(len, sum, body + rest);
    Front(body, rest);
    Front(Be(r.number, 8), r.payload);
  }

  /** A frame cut anywhere is no record: the length in front gives it away. */
  lemma FrameCut(crc: Checksum, r: Record, n: nat)
    requires Fits(r) && n < |Frame(crc, r)|
    ensures NextRecord(crc, Frame(crc, r)[..n]).None?
  {
    if n >= HEADER_LEN {
      var body := Body(r);
      Widths();
      BeRoundTrip(|body|, 4);
      assert Frame(crc, r)[..n][..4] == Be(|body|, 4);
    }
  }

  // ---- a segment ------------------------------------------------------------------------------

  /** How many whole frames the first `n` bytes hold. */
  function Intact(crc: Checksum, rs: seq<Record>, n: nat): (k: nat)
    ensures k <= |rs|
  {
    if rs == [] || n < |Frame(crc, rs[0])| then 0 else 1 + Intact(crc, rs[1..], n - |Frame(crc, rs[0])|)
  }

  lemma TakePast(a: Bytes, b: Bytes, n: nat)
    requires |a| <= n <= |a| + |b|
    ensures (a + b)[..n] == a + b[..n - |a|]
  {
  }

  lemma TakeWithin(a: Bytes, b: Bytes, n: nat)
    requires n <= |a|
    ensures (a + b)[..n] == a[..n]
  {
  }

  /** Replay of a segment that kept any `n` bytes yields exactly the records whose frames are whole. */
  lemma {:induction false} TornTail(crc: Checksum, rs: seq<Record>, n: nat)
    requires (forall r | r in rs :: Fits(r)) && n <= |Frames(crc, rs)|
    ensures ReadAll(crc, Frames(crc, rs)[..n]) == rs[..Intact(crc, rs, n)]
  {
    if rs == [] {
      assert NextRecord(crc, []).None?;
    } else {
      var f, rest := Frame(crc, rs[0]), Frames(crc, rs[1..]);
      assert rs[0] in rs;
      if n < |f| {
        TakeWithin(f, rest, n);
        FrameCut(crc, rs[0], n);
      } else {
        TakePast(f, rest, n);
        FrameRoundTrip(crc, rs[0], rest[..n - |f|]);
        TornTail(crc, rs[1..], n - |f|);
        FirstThenRest(rs, Intact(crc, rs[1..], n - |f|));
      }
    }
  }

  lemma FirstThenRest(rs: seq<Record>, k: nat)
    requires rs != [] && k < |rs|
    ensures [rs[0]] + rs[1..][..k] == rs[..k + 1]
  {
  }

  /** A frame that is whole on disk is replayed. */
  lemma {:induction false} WholeIsIntact(crc: Checksum, rs: seq<Record>, k: nat, n: nat)
    requires k <= |rs| && |Frames(crc, rs[..k])| <= n
    ensures k <= Intact(crc, rs, n)
  {
    if k > 0 {
      assert rs[..k][0] == rs[0] && rs[..k][1..] == rs[1..][..k - 1];
      WholeIsIntact(crc, rs[1..], k - 1, n - |Frame(crc, rs[0])|);
    }
  }

  lemma {:induction false} AllIntact(crc: Checksum, rs: seq<Record>)
    ensures Intact(crc, rs, |Frames(crc, rs)|) == |rs|
  {
    if rs != [] { AllIntact(crc, rs[1..]); }
  }

  lemma {:induction false} FramesAppend(crc: Checksum, rs: seq<Record>, r: Record)
    ensures Frames(crc, rs + [r]) == Frames(crc, rs) + Frame(crc, r)
  {
    if rs == [] {
      assert [] + [r] == [r] && [r][1..] == [] && Frames(crc, []) == [];
    } else {
      FramesAppend(crc, rs[1..], r);
      assert (rs + [r])[1..] == rs[1..] + [r];
      Assoc(Frame(crc, rs[0]), Frames(crc, rs[1..]), Frame(crc, r));
    }
  }

  /** What was appended, in order, is what replay reads. */
  lemma ReplayRoundTrip(crc: Checksum, rs: seq<Record>)
    requires forall r | r in rs :: Fits(r)
    ensures ReadAll(crc, Frames(crc, rs)) == rs
  {
    var all := Frames(crc, rs);
    AllIntact(crc, rs);
    TornTail(crc, rs, |all|);
    assert all[..|all|] == all && rs[..|rs|] == rs;
  }

  // ---- the writer and the reader ------------------------------------------------------------------

  class Writer {
    const crc: Checksum
    var file: Bytes
    var written: nat

    constructor (crc: Checksum)
      ensures this.crc == crc && file == [] && written == 0
    {
      this.crc, file, written := crc, [], 0;
    }

    /** Build the frame with an empty checksum, fill the checksum in, append. */
    method Append(r: Record)
      modifies `file, `written
      ensures file == old(file) + Frame(crc, r) && written == old(written) + |Frame(crc, r)|
    {
      var bodyLen := SEQ_LEN + |r.payload|;
      var frame := Be(bodyLen, 4) + [0, 0, 0, 0] + Be(r.number, 8) + r.payload;
      var body := frame[HEADER_LEN..];
      assert body == Body(r);
      frame := frame[..4] + Be(crc(body), 4) + body;
      assert frame == Frame(crc, r);
      file := file + frame;
      written := written + |frame|;
    }
  }

  class Reader {
    const crc: Checksum
    const data: Bytes
    var pos: nat

    ghost predicate Valid()
      reads this
    {
      pos <= |data|
    }

    constructor (crc: Checksum, data: Bytes)
      ensures this.crc == crc && this.data == data && pos == 0 && Valid()
    {
      this.crc, this.data, pos := crc, data, 0;
    }

    /** The next intact record; at a clean end or a torn tail the position stays where a writer would cut. */
    method Next() returns (r: Option<Record>)
      requires Valid()
      modifies `pos
      ensures Valid()
      ensures match NextRecord(crc, data[old(pos)..])
        case None => r == None && pos == old(pos)
        case Some((rec, rest)) => r == Some(rec) && data[pos..] == rest
    {
      ghost var buf := data[pos..];
      if pos + HEADER_LEN > |data| { return None; }
      assert data[pos..pos + 4] == buf[..4] && data[pos + 4..pos + 8] == buf[4..][..4];
      var len := FromBe(data[pos..pos + 4]);
      var sum := FromBe(data[pos + 4..pos + 8]);
      var bodyStart := pos + HEADER_LEN;
      var bodyEnd := bodyStart + len;
      if bodyEnd > |data| { return None; }
      var body := data[bodyStart..bodyEnd];
      assert body == buf[4..][4..][..len];
      if crc(body) != sum { return None; }
      if |body| < SEQ_LEN { return None; }
      r := Some(Record(FromBe(body[..SEQ_LEN]), body[SEQ_LEN..]));
      assert data[bodyEnd..] == buf[4..][4..][len..];
      pos := bodyEnd;
    }
  }
}
