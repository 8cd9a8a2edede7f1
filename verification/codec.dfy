/**
 * The record codec: length-delimited records (a varint byte count followed by
 * the body, as protobuf's delimited streams frame them) and the bodies of the
 * records the writer emits. The body layouts are this model's own; only the
 * LUT and vector-block bodies are read back, so only they have decoders.
 */
module Codec {
  import opened Wrappers
  import opened Bytes
  import opened Messages
  import opened Seqs

  const U64Limit: nat := 0x1_0000_0000_0000_0000

  /** Base-128 varint: seven bits per byte, low group first, high bit set on all but the last. */
  function Varint(n: nat): (r: seq<Byte>)
    ensures 1 <= |r|
    decreases n
  {
    if n < 128 then [n] else [128 + n % 128] + Varint(n / 128)
  }

  /** A signed integer field: its 64-bit two's complement, as a varint. */
  function SignedVarint(x: int): seq<Byte> {
    Varint(x % U64Limit)
  }

  /** Reads a varint at `p`; gives its value and the position after it. */
  function DecodeVarintAt(d: seq<Byte>, p: nat): (r: Option<(nat, nat)>)
    ensures r.Some? ==> p < r.value.1 <= |d|
    decreases |d| - p
  {
    if p >= |d| then None
    else if d[p] < 128 then Some((d[p], p + 1))
    else
      match DecodeVarintAt(d, p + 1)
      case None => None
      case Some(rest) => Some((d[p] - 128 + 128 * rest.0, rest.1))
  }

  /** A varint written at `p` reads back as its value, ending where it ends. */
  lemma {:induction false} VarintRead(d: seq<Byte>, p: nat, n: nat)
    requires Window(d, p, Varint(n))
    ensures DecodeVarintAt(d, p) == Some((n, p + |Varint(n)|))
    decreases n
  {
    var v := Varint(n);
    assert d[p] == v[0];
    if n >= 128 {
      assert v == [128 + n % 128] + Varint(n / 128);
      assert d[p + 1..p + |v|] == v[1..];
      VarintRead(d, p + 1, n / 128);
    }
  }

  /** A length-delimited record: the body's byte count as a varint, then the body. */
  function Delimited(body: seq<Byte>): (r: seq<Byte>)
    ensures |r| > |body|
  {
    Varint(|body|) + body
  }

  /** Reads the length-delimited record at offset `p`, as a reader seeking to `p` does. */
  function ReadFrameAt(d: seq<Byte>, p: nat): (r: Option<seq<Byte>>)
    ensures r.Some? ==> p + |r.value| < |d|
  {
    match DecodeVarintAt(d, p)
    case None => None
    case Some(prefix) =>
      var len, start := prefix.0, prefix.1;
      if start + len <= |d| then Some(d[start..start + len]) else None
  }

  /** A record written at `p` reads back as its body. */
  lemma {:induction false} FrameRead(d: seq<Byte>, p: nat, body: seq<Byte>)
    requires Window(d, p, Delimited(body))
    ensures ReadFrameAt(d, p) == Some(body)
  {
    WindowSplit(d, p, Varint(|body|), body);
    VarintRead(d, p, |body|);
    WindowSlice(d, p + |Varint(|body|)|, body);
  }

  /** Fixed-width little-endian words, one after another. */
  function Words(xs: seq<nat>, width: nat): seq<Byte> {
    if xs == [] then [] else LeBytes(xs[0], width) + Words(xs[1..], width)
  }

  /** Every word takes exactly `width` bytes. */
  lemma {:induction false} WordsLength(xs: seq<nat>, width: nat)
    ensures |Words(xs, width)| == |xs| * width
    decreases |xs|
  {
    if xs != [] {
      WordsLength(xs[1..], width);
    }
  }

  /** Reads `n` words of `width` bytes at `p`; gives them and the position after them. */
  function ReadWordsAt(d: seq<Byte>, p: nat, width: nat, n: nat): (r: Option<(seq<nat>, nat)>)
    ensures r.Some? ==> |r.value.0| == n && p <= r.value.1 <= |d|
    decreases n
  {
    if n == 0 then (if p <= |d| then Some(([], p)) else None)
    else if p + width > |d| then None
    else
      match ReadWordsAt(d, p + width, width, n - 1)
      case None => None
      case Some(rest) => Some(([LeValue(d[p..p + width])] + rest.0, rest.1))
  }

  /** Words that fit their width read back as written. */
  lemma {:induction false} WordsRead(d: seq<Byte>, p: nat, width: nat, xs: seq<nat>)
    requires Window(d, p, Words(xs, width))
    requires forall i :: 0 <= i < |xs| ==> xs[i] < Pow256(width)
    ensures ReadWordsAt(d, p, width, |xs|) == Some((xs, p + |Words(xs, width)|))
    decreases |xs|
  {
    if xs != [] {
      var first := LeBytes(xs[0], width);
      var rest := Words(xs[1..], width);
      assert Words(xs, width) == first + rest;
      WindowSplit(d, p, first, rest);
      WindowSlice(d, p, first);
      LeRoundTrip(xs[0], width);
      WordsRead(d, p + width, width, xs[1..]);
      HeadTail(xs);
    }
  }

  /** A count followed by that many words: repeated fixed-width fields. */
  function Counted(xs: seq<nat>, width: nat): seq<Byte> {
    Varint(|xs|) + Words(xs, width)
  }

  function ReadCountedAt(d: seq<Byte>, p: nat, width: nat): (r: Option<(seq<nat>, nat)>)
    ensures r.Some? ==> p < r.value.1 <= |d|
  {
    match DecodeVarintAt(d, p)
    case None => None
    case Some(count) => ReadWordsAt(d, count.1, width, count.0)
  }

  lemma {:induction false} CountedRead(d: seq<Byte>, p: nat, width: nat, xs: seq<nat>)
    requires Window(d, p, Counted(xs, width))
    requires forall i :: 0 <= i < |xs| ==> xs[i] < Pow256(width)
    ensures ReadCountedAt(d, p, width) == Some((xs, p + |Counted(xs, width)|))
  {
    var v, w := Varint(|xs|), Words(xs, width);
    WindowSplit(d, p, v, w);
    var q := p + |v|;
    VarintRead(d, p, |xs|);
    ReadCountedAfterCount(d, p, width, |xs|, q);
    WordsRead(d, q, width, xs);
  }

  lemma {:induction false} ReadCountedAfterCount(d: seq<Byte>, p: nat, width: nat, n: nat, q: nat)
    requires DecodeVarintAt(d, p) == Some((n, q))
    ensures ReadCountedAt(d, p, width) == ReadWordsAt(d, q, width, n)
  {
  }

  // ----- Vector blocks -----

  function EncodeVectorBlock(vb: VectorBlock): seq<Byte> {
    Counted(vb.points, 4)
  }

  function ParseVectorBlock(body: seq<Byte>): Option<VectorBlock> {
    var points :- ReadCountedAt(body, 0, 4);
    if points.1 == |body| && forall i | 0 <= i < |points.0| :: points.0[i] < 0x1_0000_0000 then
      Some(LineSequence(points.0))
    else None
  }

  /** Decoding an encoded vector block gives the same block. */
  lemma {:induction false} VectorBlockRoundTrip(vb: VectorBlock)
    ensures ParseVectorBlock(EncodeVectorBlock(vb)) == Some(vb)
  {
    var body := EncodeVectorBlock(vb);
    assert Pow256(4) == 0x1_0000_0000;
    assert body[0..|body|] == body;
    CountedRead(body, 0, 4, vb.points);
  }

  // ----- Look-up tables -----

  /** Positions first, then the shell position, as one fixed 8-byte word. */
  function EncodeLut(positions: seq<nat>, shellPosition: nat): seq<Byte> {
    Counted(positions, 8) + LeBytes(shellPosition, 8)
  }

  function ParseLut(body: seq<Byte>): Option<(seq<nat>, nat)> {
    var positions :- ReadCountedAt(body, 0, 8);
    if positions.1 + 8 == |body| then Some((positions.0, LeValue(body[positions.1..]))) else None
  }

  ghost predicate FitsU64(xs: seq<nat>) {
    forall i :: 0 <= i < |xs| ==> xs[i] < U64Limit
  }

  lemma {:induction false} LutRoundTrip(positions: seq<nat>, shellPosition: nat)
    requires FitsU64(positions) && shellPosition < U64Limit
    ensures ParseLut(EncodeLut(positions, shellPosition)) == Some((positions, shellPosition))
  {
    var body := EncodeLut(positions, shellPosition);
    var c := Counted(positions, 8);
    assert Pow256(8) == U64Limit;
    assert body[0..|c|] == c;
    CountedRead(body, 0, 8, positions);
    assert body[|c|..] == LeBytes(shellPosition, 8);
    LeRoundTrip(shellPosition, 8);
  }

  function EncodeJobLut(lut: JobLut): seq<Byte> {
    EncodeLut(lut.workPlanePositions, lut.jobShellPosition)
  }

  function ParseJobLut(body: seq<Byte>): Option<JobLut> {
    var l :- ParseLut(body);
    Some(JobLut(l.0, l.1))
  }

  /** A Job LUT whose offsets fit 64 bits reads back unchanged. */
  lemma {:induction false} JobLutRoundTrip(lut: JobLut)
    requires FitsU64(lut.workPlanePositions) && lut.jobShellPosition < U64Limit
    ensures ParseJobLut(EncodeJobLut(lut)) == Some(lut)
  {
    LutRoundTrip(lut.workPlanePositions, lut.jobShellPosition);
  }

  function EncodeWorkPlaneLut(lut: WorkPlaneLut): seq<Byte> {
    EncodeLut(lut.vectorBlocksPositions, lut.workPlaneShellPosition)
  }

  function ParseWorkPlaneLut(body: seq<Byte>): Option<WorkPlaneLut> {
    var l :- ParseLut(body);
    Some(WorkPlaneLut(l.0, l.1))
  }

  /** A work-plane LUT whose offsets fit 64 bits reads back unchanged. */
  lemma {:induction false} WorkPlaneLutRoundTrip(lut: WorkPlaneLut)
    requires FitsU64(lut.vectorBlocksPositions) && lut.workPlaneShellPosition < U64Limit
    ensures ParseWorkPlaneLut(EncodeWorkPlaneLut(lut)) == Some(lut)
  {
    LutRoundTrip(lut.vectorBlocksPositions, lut.workPlaneShellPosition);
  }

  /** The size of a LUT record does not depend on the shell position it records. */
  lemma {:induction false} LutSize(positions: seq<nat>, s1: nat, s2: nat)
    ensures |Delimited(EncodeLut(positions, s1))| == |Delimited(EncodeLut(positions, s2))|
  {
  }

  // ----- Shell records (written, not read back here) -----

  function EncodeOptional(o: Option<Blob>): seq<Byte> {
    match o
    case None => [0]
    case Some(b) => [1] + Delimited(b)
  }

  lemma {:induction false} MinExists(s: set<int>)
    requires s != {}
    ensures exists k :: k in s && forall x :: x in s ==> k <= x
  {
    if forall y :: y !in s {
      assert false;
    }
    var y :| y in s;
    var rest := s - {y};
    if rest == {} {
      forall x | x in s
        ensures y <= x
      {
        assert x !in rest;
      }
    } else {
      MinExists(rest);
      var m :| m in rest && forall x :: x in rest ==> m <= x;
      var k := if y < m then y else m;
      forall x | x in s
        ensures k <= x
      {
        if x != y {
          assert x in rest;
        }
      }
      assert k in s;
    }
  }

  function MinKey(s: set<int>): (k: int)
    requires s != {}
    ensures k in s && forall x :: x in s ==> k <= x
  {
    MinExists(s);
    var k :| k in s && forall x :: x in s ==> k <= x;
    k
  }

  /** The entries of `m` whose keys are in `keys`, in ascending key order. */
  function EncodeEntries(m: map<int, Blob>, keys: set<int>): seq<Byte>
    requires keys <= m.Keys
    decreases keys
  {
    if keys == {} then []
    else
      var k := MinKey(keys);
      SignedVarint(k) + Delimited(m[k]) + EncodeEntries(m, keys - {k})
  }

  function EncodeMap(m: map<int, Blob>): seq<Byte> {
    Varint(|m.Keys|) + EncodeEntries(m, m.Keys)
  }

  function EncodeVectorBlocks(vbs: seq<VectorBlock>): seq<Byte> {
    if vbs == [] then [] else Delimited(EncodeVectorBlock(vbs[0])) + EncodeVectorBlocks(vbs[1..])
  }

  function EncodeWorkPlane(wp: WorkPlane): seq<Byte> {
    Words([wp.xPosInMm, wp.yPosInMm, wp.zPosInMm, wp.xRotInDeg, wp.yRotInDeg, wp.zRotInDeg], 4)
    + SignedVarint(wp.repeats)
    + SignedVarint(wp.workPlaneNumber)
    + SignedVarint(wp.machineType)
    + Counted(wp.additionalAxisPositions, 4)
    + EncodeOptional(wp.metaData)
    + SignedVarint(wp.numBlocks)
    + Varint(|wp.vectorBlocks|) + EncodeVectorBlocks(wp.vectorBlocks)
  }

  function EncodeWorkPlanes(wps: seq<WorkPlane>): seq<Byte> {
    if wps == [] then [] else Delimited(EncodeWorkPlane(wps[0])) + EncodeWorkPlanes(wps[1..])
  }

  function EncodeJob(job: Job): seq<Byte> {
    EncodeOptional(job.jobMetaData)
    + EncodeOptional(job.jobParameters)
    + EncodeMap(job.markingParamsMap)
    + EncodeMap(job.partsMap)
    + SignedVarint(job.numWorkPlanes)
    + Varint(|job.workPlanes|) + EncodeWorkPlanes(job.workPlanes)
  }
}
