/**
 * What a reader finds in an OVF file. The reader follows the file's
 * indirections: bytes [4, 12) give the Job LUT's offset; each Job LUT entry
 * points at an 8-byte slot holding that work plane's LUT offset; each
 * work-plane LUT entry points straight at a vector-block record.
 */
module OvfReader {
  import opened Wrappers
  import opened Bytes
  import opened Messages
  import opened Codec
  import opened Seqs
  import opened OvfUtil

  /** The file identifier "OVF!". */
  const Magic: seq<Byte> := [0x4F, 0x56, 0x46, 0x21]

  /**
   * One work plane as read back: its shell record's body and its vector-block
   * records' bodies, in LUT order (`Codec.ParseVectorBlock` turns a body back
   * into its block).
   */
  datatype PlaneView = PlaneView(shell: seq<Byte>, blocks: seq<seq<Byte>>)

  /** A whole file as read back: the job shell record's body and the work planes, in Job LUT order. */
  datatype FileView = FileView(jobShell: seq<Byte>, workPlanes: seq<PlaneView>)

  /** Reads an 8-byte little-endian offset at `p`. */
  function ReadU64At(d: seq<Byte>, p: nat): (r: Option<nat>)
    ensures r.Some? ==> r.value < U64Limit
  {
    if p + 8 <= |d| then
      assert Pow256(8) == U64Limit;
      Some(LeValue(d[p..p + 8]))
    else None
  }

  /**
   * The test fixtures' offset reader as written: it reinterprets the eight
   * bytes at `p` as a `uint64_t`, so it reads them in the host's byte order.
   * On a little-endian host it agrees with `ReadU64At`.
   */
  function ReadNativeU64At(d: seq<Byte>, p: nat, hostBigEndian: bool): (r: Option<nat>)
    ensures r.Some? <==> ReadU64At(d, p).Some?
    ensures !hostBigEndian ==> r == ReadU64At(d, p)
  {
    if p + 8 <= |d| then Some(LeValue(if hostBigEndian then Reverse(d[p..p + 8]) else d[p..p + 8]))
    else None
  }

  /** The native read gives back what a native-memory write of `value` put down, on either host. */
  lemma {:induction false} NativeRoundTrip(value: U64, hostBigEndian: bool)
    ensures ReadNativeU64At(NativeBytes(value, hostBigEndian), 0, hostBigEndian) == Some(value)
  {
    var b := NativeBytes(value, hostBigEndian);
    assert b[0..8] == b;
    ReverseReverse(LeBytes(value, 8));
    assert Pow256(8) == U64Limit;
    LeRoundTrip(value, 8);
  }

  /**
   * On a big-endian host the native read misreads the little-endian offset
   * the writer puts down: the offset 132 (0x84) reads back as
   * 0x8400_0000_0000_0000. A native-memory write of 132 would not have put
   * down the little-endian bytes either.
   */
  lemma {:induction false} NativeMisreadsOnBigEndianHost()
    ensures ReadU64At(LeBytes(132, 8), 0) == Some(132)
    ensures ReadNativeU64At(LeBytes(132, 8), 0, true) == Some(0x8400_0000_0000_0000)
    ensures NativeBytes(132, true) != LeBytes(132, 8)
  {
    var b := LeBytes(132, 8);
    assert b == [132, 0, 0, 0, 0, 0, 0, 0];
    assert b[0..8] == b;
    var r := Reverse(b);
    assert r == [0, 0, 0, 0, 0, 0, 0, 132];
    assert Pow256(8) == U64Limit;
    LeRoundTrip(132, 8);
    assert LeValue(r) == 0x8400_0000_0000_0000 by {
      assert LeValue(r[7..]) == 0x84;
      assert LeValue(r[6..]) == 0x8400;
      assert LeValue(r[5..]) == 0x84_0000;
      assert LeValue(r[4..]) == 0x8400_0000;
      assert LeValue(r[3..]) == 0x84_0000_0000;
      assert LeValue(r[2..]) == 0x8400_0000_0000;
      assert LeValue(r[1..]) == 0x84_0000_0000_0000;
    }
    assert NativeBytes(132, true)[0] == 0;
  }

  /** Reads the records at `positions`, in order. */
  function ReadFrames(d: seq<Byte>, positions: seq<nat>): (r: Option<seq<seq<Byte>>>)
    ensures r.Some? ==> |r.value| == |positions|
  {
    if positions == [] then Some([])
    else
      match ReadFrameAt(d, positions[0])
      case None => None
      case Some(first) =>
        match ReadFrames(d, positions[1..])
        case None => None
        case Some(rest) => Some([first] + rest)
  }

  /** Where each position holds a record, the records read back in order. */
  lemma {:induction false} ReadFramesAll(d: seq<Byte>, ps: seq<nat>, bodies: seq<seq<Byte>>)
    requires |ps| == |bodies|
    requires forall i :: 0 <= i < |ps| ==> ReadFrameAt(d, ps[i]) == Some(bodies[i])
    ensures ReadFrames(d, ps) == Some(bodies)
    decreases |ps|
  {
    if ps != [] {
      assert ReadFrameAt(d, ps[0]) == Some(bodies[0]);
      ReadFramesAll(d, ps[1..], bodies[1..]);
      HeadTail(bodies);
    }
  }

  /** Reads the work plane whose LUT-offset slot is at `p`. */
  function ReadWorkPlaneAt(d: seq<Byte>, p: nat): (r: Option<PlaneView>)
    ensures r.Some? ==>
              ReadU64At(d, p).Some? && ReadWorkPlaneLutAt(d, ReadU64At(d, p).value).Some? &&
              |r.value.blocks| == |ReadWorkPlaneLutAt(d, ReadU64At(d, p).value).value.vectorBlocksPositions|
  {
    var lutOffset :- ReadU64At(d, p);
    var lut :- ReadWorkPlaneLutAt(d, lutOffset);
    var shell :- ReadFrameAt(d, lut.workPlaneShellPosition);
    var blocks :- ReadFrames(d, lut.vectorBlocksPositions);
    Some(PlaneView(shell, blocks))
  }

  /** The work-plane LUT record at `p`; there is none at or past the end of the file. */
  function ReadWorkPlaneLutAt(d: seq<Byte>, p: nat): (r: Option<WorkPlaneLut>)
    ensures r.Some? ==> p < |d|
  {
    var body :- ReadFrameAt(d, p);
    ParseWorkPlaneLut(body)
  }

  function ReadWorkPlanes(d: seq<Byte>, positions: seq<nat>): (r: Option<seq<PlaneView>>)
    ensures r.Some? ==> |r.value| == |positions|
  {
    if positions == [] then Some([])
    else
      match ReadWorkPlaneAt(d, positions[0])
      case None => None
      case Some(first) =>
        match ReadWorkPlanes(d, positions[1..])
        case None => None
        case Some(rest) => Some([first] + rest)
  }

  /** Where each slot leads to a work plane, the work planes read back in order. */
  lemma {:induction false} ReadWorkPlanesAll(d: seq<Byte>, ps: seq<nat>, vs: seq<PlaneView>)
    requires |ps| == |vs|
    requires forall i :: 0 <= i < |ps| ==> ReadWorkPlaneAt(d, ps[i]) == Some(vs[i])
    ensures ReadWorkPlanes(d, ps) == Some(vs)
    decreases |ps|
  {
    if ps != [] {
      assert ReadWorkPlaneAt(d, ps[0]) == Some(vs[0]);
      ReadWorkPlanesAll(d, ps[1..], vs[1..]);
      HeadTail(vs);
    }
  }

  /** Reads a whole file: identifier, Job LUT offset, Job LUT, job shell, then every work plane. */
  function ReadFile(d: seq<Byte>): (r: Option<FileView>)
    ensures r.Some? ==>
              12 <= |d| && d[..4] == Magic && ReadJobLutAt(d).Some? &&
              |r.value.workPlanes| == |ReadJobLutAt(d).value.workPlanePositions|
  {
    if |d| < 12 || d[..4] != Magic then None
    else
      var lut :- ReadJobLutAt(d);
      var shell :- ReadFrameAt(d, lut.jobShellPosition);
      var planes :- ReadWorkPlanes(d, lut.workPlanePositions);
      Some(FileView(shell, planes))
  }

  /** The Job LUT, found through the offset in bytes [4, 12); that offset lies inside the file. */
  function ReadJobLutAt(d: seq<Byte>): (r: Option<JobLut>)
    ensures r.Some? ==> 12 <= |d| && ReadU64At(d, 4).Some? && ReadU64At(d, 4).value < |d|
  {
    var offset :- ReadU64At(d, 4);
    var body :- ReadFrameAt(d, offset);
    ParseJobLut(body)
  }

  // ----- Reading back what was written -----

  /** An offset written at `p` reads back as itself. */
  lemma {:induction false} U64Read(d: seq<Byte>, p: nat, value: nat)
    requires Window(d, p, LeBytes(value, 8)) && value < U64Limit
    ensures ReadU64At(d, p) == Some(value)
  {
    assert Pow256(8) == U64Limit;
    WindowSlice(d, p, LeBytes(value, 8));
    LeRoundTrip(value, 8);
  }

  /** A work-plane LUT record at `p` whose offsets fit 64 bits reads back as the LUT. */
  lemma {:induction false} WorkPlaneLutRead(d: seq<Byte>, p: nat, lut: WorkPlaneLut)
    requires Window(d, p, Delimited(EncodeWorkPlaneLut(lut)))
    requires FitsU64(lut.vectorBlocksPositions) && lut.workPlaneShellPosition < U64Limit
    ensures ReadWorkPlaneLutAt(d, p) == Some(lut)
  {
    FrameRead(d, p, EncodeWorkPlaneLut(lut));
    WorkPlaneLutRoundTrip(lut);
  }

  /** A Job LUT record at `p`, with `p` in bytes [4, 12), reads back as the LUT. */
  lemma {:induction false} JobLutRead(d: seq<Byte>, p: nat, lut: JobLut)
    requires Window(d, 4, LeBytes(p, 8)) && p < U64Limit
    requires Window(d, p, Delimited(EncodeJobLut(lut)))
    requires FitsU64(lut.workPlanePositions) && lut.jobShellPosition < U64Limit
    ensures ReadJobLutAt(d) == Some(lut)
  {
    U64Read(d, 4, p);
    FrameRead(d, p, EncodeJobLut(lut));
    JobLutRoundTrip(lut);
  }

  /** A work plane is read from the four things its slot leads to. */
  lemma {:induction false} WorkPlaneRead(d: seq<Byte>, p: nat, offset: nat, lut: WorkPlaneLut, shell: seq<Byte>, blocks: seq<seq<Byte>>)
    requires ReadU64At(d, p) == Some(offset) && ReadWorkPlaneLutAt(d, offset) == Some(lut)
    requires ReadFrameAt(d, lut.workPlaneShellPosition) == Some(shell)
    requires ReadFrames(d, lut.vectorBlocksPositions) == Some(blocks)
    ensures ReadWorkPlaneAt(d, p) == Some(PlaneView(shell, blocks))
  {
  }

  /** A file is read from its identifier, its Job LUT, its job shell and its work planes. */
  lemma {:induction false} FileRead(d: seq<Byte>, lut: JobLut, shell: seq<Byte>, planes: seq<PlaneView>)
    requires |d| >= 12 && d[..4] == Magic && ReadJobLutAt(d) == Some(lut)
    requires ReadFrameAt(d, lut.jobShellPosition) == Some(shell)
    requires ReadWorkPlanes(d, lut.workPlanePositions) == Some(planes)
    ensures ReadFile(d) == Some(FileView(shell, planes))
  {
  }
}
