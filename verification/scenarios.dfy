/**
 * The writer driven as its tests drive it, with the tests' fixtures: a
 * closed square and a triangle as line sequences, a job whose metadata names
 * it and a work plane raised to z = 0.05 mm. Each scenario writes a whole
 * file through the writer's own methods and states what a reader of that
 * file finds, following the same indirections the tests follow.
 */
module Scenarios {
  import opened Wrappers
  import opened Bytes
  import opened Messages
  import opened Codec
  import opened OvfUtil
  import opened OvfReader
  import opened OvfLayout
  import opened OvfWriter

  /** Bit patterns of the single-precision coordinates the fixtures use. */
  const Five: F32 := 0x40A0_0000
  const Ten: F32 := 0x4120_0000
  /** 0.05f, the work plane's z position. */
  const ZPos: F32 := 0x3D4C_CCCD
  /** 0.1f, the second work plane's z position in the two-plane scenario. */
  const ZNext: F32 := 0x3DCC_CCCD

  /** The square fixture: (0, 0), (10, 0), (10, 10), (0, 10), back to (0, 0). */
  const Square: VectorBlock := LineSequence([0, 0, Ten, 0, Ten, Ten, 0, Ten, 0, 0])

  /** The triangle fixture: (0, 0), (5, 10), (10, 0), back to (0, 0). */
  const Triangle: VectorBlock := LineSequence([0, 0, Five, Ten, Ten, 0, 0, 0])

  /** The job metadata, standing in as the ASCII bytes of the job name "TestFinalJob". */
  const JobName: Blob := [0x54, 0x65, 0x73, 0x74, 0x46, 0x69, 0x6E, 0x61, 0x6C, 0x4A, 0x6F, 0x62]

  /** The job handed to the writer: metadata only. */
  const TestJob: Job := Job(Some(JobName), None, map[], map[], 0, [])

  /** The work plane handed to the writer: z = 0.05, everything else zero or empty. */
  const TestPlane: WorkPlane := WorkPlane(0, 0, ZPos, 0, 0, 0, 0, 0, 0, [], None, 0, [])

  /** The second work plane of the two-plane scenario: the same as `TestPlane`, raised to z = 0.1. */
  const NextPlane: WorkPlane := WorkPlane(0, 0, ZNext, 0, 0, 0, 0, 0, 0, [], None, 0, [])

  /** The job shell a finished file holds after `n` work planes. */
  function JobShellAfter(n: nat): (shell: seq<Byte>)
    ensures shell == EncodeJob(TestJob.(numWorkPlanes := n))
  {
    EncodeJob(CreateJobShell(TestJob).(numWorkPlanes := n))
  }

  /** The shell a finished file holds for `plane`, numbered `number`, after `blocks` vector blocks. */
  function PlaneShellAfter(plane: WorkPlane, number: nat, blocks: nat): (shell: seq<Byte>)
    ensures shell == EncodeWorkPlane(plane.(vectorBlocks := [], workPlaneNumber := number, numBlocks := blocks))
  {
    EncodeWorkPlane(CreateWorkPlaneShell(plane).(workPlaneNumber := number, numBlocks := blocks))
  }

  /** A writer's shell state for `plane`, numbered and counted, is what `PlaneShellAfter` encodes. */
  lemma {:induction false} ShellIs(state: WorkPlane, plane: WorkPlane, number: nat, blocks: nat)
    requires plane.vectorBlocks == [] && state == plane.(workPlaneNumber := number, numBlocks := blocks)
    ensures EncodeWorkPlane(state) == PlaneShellAfter(plane, number, blocks)
  {
  }

  /** The sizes of the two fixtures' vector-block records. */
  lemma {:induction false} BlockSizes()
    ensures |Delimited(EncodeVectorBlock(Square))| == 42
    ensures |Delimited(EncodeVectorBlock(Triangle))| == 34
  {
    WordsLength(Square.points, 4);
    WordsLength(Triangle.points, 4);
  }

  /** The sizes of the records that close the square scenario's plane and job. */
  lemma {:induction false} SquareJobSizes()
    ensures |Delimited(PlaneShellAfter(TestPlane, 0, 1))| == 32
    ensures |Delimited(EncodeWorkPlaneLut(WorkPlaneLut([20], 0)))| == 18
    ensures |Delimited(JobShellAfter(1))| == 20
    ensures |Delimited(EncodeJobLut(JobLut([12], 0)))| == 18
  {
    WordsLength([0, 0, ZPos, 0, 0, 0], 4);
    WordsLength([20], 8);
    WordsLength([12], 8);
  }

  /** The sizes of the records that close the two-plane scenario's second plane and job. */
  lemma {:induction false} TriangleSizes()
    ensures |Delimited(PlaneShellAfter(NextPlane, 1, 1))| == 32
    ensures |Delimited(EncodeWorkPlaneLut(WorkPlaneLut([120], 0)))| == 18
    ensures |Delimited(JobShellAfter(2))| == 20
    ensures |Delimited(EncodeJobLut(JobLut([12, 112], 0)))| == 26
  {
    WordsLength([0, 0, ZNext, 0, 0, 0], 4);
    WordsLength([120], 8);
    WordsLength([12, 112], 8);
  }

  /** The square scenario up to the square's record: one job writer, its one open work plane, one block appended. */
  method StartSquareJob(hostBigEndian: bool) returns (writer: JobWriter, plane: WorkPlaneWriter)
    ensures fresh(writer) && fresh(writer.stream) && writer.Valid() && !writer.isFinalized
    ensures fresh(plane) && plane.Valid() && plane.parent == writer && !plane.isFinalized && writer.openChild == plane
    ensures writer.planes == [] && writer.shellState == TestJob && writer.lut == JobLut([12], 0)
    ensures |writer.stream.data| == 62
    ensures plane.shellState == TestPlane.(workPlaneNumber := 0, numBlocks := 1)
    ensures plane.blocks == [EncodeVectorBlock(Square)] && plane.lut == WorkPlaneLut([20], 0)
  {
    BlockSizes();
    writer := new JobWriter(TestJob, hostBigEndian);
    var started := writer.AppendWorkPlane(TestPlane);
    plane := started.value;
    assert plane.shellState == TestPlane.(workPlaneNumber := 0, numBlocks := 0);
    var appended := plane.AppendVectorBlock(Square);
  }

  /** The square scenario with the square's plane closed by its destructor: the job is open with one finished plane. */
  method SquarePlaneClosed(hostBigEndian: bool) returns (writer: JobWriter)
    ensures fresh(writer) && fresh(writer.stream) && writer.Valid() && !writer.isFinalized && writer.openChild == null
    ensures writer.planes == [PlaneView(PlaneShellAfter(TestPlane, 0, 1), [EncodeVectorBlock(Square)])]
    ensures writer.shellState == TestJob.(numWorkPlanes := 1) && writer.lut == JobLut([12], 0)
    ensures |writer.stream.data| == 112
  {
    var plane: WorkPlaneWriter;
    writer, plane := StartSquareJob(hostBigEndian);
    SquareJobSizes();
    ghost var closed := PlaneView(EncodeWorkPlane(plane.shellState), plane.blocks);
    plane.Destroy();
    assert writer.planes == [] + [closed] == [PlaneView(PlaneShellAfter(TestPlane, 0, 1), [EncodeVectorBlock(Square)])];
  }

  /**
   * One job, one work plane, one square, every writer closed by its
   * destructor. The eight bytes at offset 4 lead to a Job LUT with one work
   * plane; that plane's slot leads to a work-plane LUT with one block; the
   * record at that block's position parses back as the square. The whole
   * file reads back as the job shell and the one work plane.
   */
  method WriteSquareJob(hostBigEndian: bool) returns (file: seq<Byte>)
    ensures ReadJobLutAt(file).Some? && |ReadJobLutAt(file).value.workPlanePositions| == 1
    ensures var slot := ReadJobLutAt(file).value.workPlanePositions[0];
            ReadU64At(file, slot).Some? && ReadWorkPlaneLutAt(file, ReadU64At(file, slot).value).Some? &&
            var wpLut := ReadWorkPlaneLutAt(file, ReadU64At(file, slot).value).value;
            |wpLut.vectorBlocksPositions| == 1 &&
            ReadFrameAt(file, wpLut.vectorBlocksPositions[0]).Some? &&
            ParseVectorBlock(ReadFrameAt(file, wpLut.vectorBlocksPositions[0]).value) == Some(Square)
    ensures ReadFile(file) == Some(FileView(JobShellAfter(1), [PlaneView(PlaneShellAfter(TestPlane, 0, 1), [EncodeVectorBlock(Square)])]))
  {
    var writer := SquarePlaneClosed(hostBigEndian);
    SquareJobSizes();
    writer.Destroy();
    file := writer.stream.data;
    FinishedFileReads(writer);
    FilePlaneFound(EncodeJob(writer.shellState), writer.planes, 0);
    VectorBlockRoundTrip(Square);
  }

  /** The two-plane scenario up to the triangle's record: the square's plane closed, a second plane open holding the triangle. */
  method StartTwoPlaneJob(hostBigEndian: bool) returns (writer: JobWriter, plane: WorkPlaneWriter)
    ensures fresh(writer) && fresh(writer.stream) && writer.Valid() && !writer.isFinalized
    ensures fresh(plane) && plane.Valid() && plane.parent == writer && !plane.isFinalized && writer.openChild == plane
    ensures writer.planes == [PlaneView(PlaneShellAfter(TestPlane, 0, 1), [EncodeVectorBlock(Square)])]
    ensures writer.shellState == TestJob.(numWorkPlanes := 1) && writer.lut == JobLut([12, 112], 0)
    ensures |writer.stream.data| == 154
    ensures plane.shellState == NextPlane.(workPlaneNumber := 1, numBlocks := 1)
    ensures plane.blocks == [EncodeVectorBlock(Triangle)] && plane.lut == WorkPlaneLut([120], 0)
  {
    writer := SquarePlaneClosed(hostBigEndian);
    BlockSizes();
    var started := writer.AppendWorkPlane(NextPlane);
    plane := started.value;
    assert writer.lut.workPlanePositions == [12] + [112] == [12, 112];
    assert plane.shellState == NextPlane.(workPlaneNumber := 1, numBlocks := 0);
    var appended := plane.AppendVectorBlock(Triangle);
  }

  /** The two-plane scenario with both planes closed by their destructors: the job is open with two finished planes. */
  method TwoPlanesClosed(hostBigEndian: bool) returns (writer: JobWriter)
    ensures fresh(writer) && fresh(writer.stream) && writer.Valid() && !writer.isFinalized && writer.openChild == null
    ensures writer.planes == [PlaneView(PlaneShellAfter(TestPlane, 0, 1), [EncodeVectorBlock(Square)]),
                              PlaneView(PlaneShellAfter(NextPlane, 1, 1), [EncodeVectorBlock(Triangle)])]
    ensures writer.shellState == TestJob.(numWorkPlanes := 2) && writer.lut == JobLut([12, 112], 0)
    ensures |writer.stream.data| == 204
  {
    var plane: WorkPlaneWriter;
    writer, plane := StartTwoPlaneJob(hostBigEndian);
    TriangleSizes();
    ghost var first := writer.planes[0];
    ShellIs(plane.shellState, NextPlane, 1, 1);
    ghost var closed := PlaneView(EncodeWorkPlane(plane.shellState), plane.blocks);
    plane.Destroy();
    assert writer.planes == [first] + [closed] == [first, PlaneView(PlaneShellAfter(NextPlane, 1, 1), [EncodeVectorBlock(Triangle)])];
  }

  /**
   * One job, two work planes: the square in the first at z = 0.05, the
   * triangle in the second at z = 0.1, every writer closed by its
   * destructor. The Job LUT lists both planes in order, each plane's LUT
   * lists its one block, and the whole file reads back as the job shell and
   * both planes, each with its own shell; each block parses back as its
   * fixture.
   */
  method WriteTwoPlaneJob(hostBigEndian: bool) returns (file: seq<Byte>)
    ensures ReadJobLutAt(file).Some? && ReadJobLutAt(file).value.workPlanePositions == [12, 112]
    ensures ReadFile(file) == Some(FileView(JobShellAfter(2), [
              PlaneView(PlaneShellAfter(TestPlane, 0, 1), [EncodeVectorBlock(Square)]),
              PlaneView(PlaneShellAfter(NextPlane, 1, 1), [EncodeVectorBlock(Triangle)])]))
    ensures ParseVectorBlock(ReadFile(file).value.workPlanes[0].blocks[0]) == Some(Square)
    ensures ParseVectorBlock(ReadFile(file).value.workPlanes[1].blocks[0]) == Some(Triangle)
  {
    var writer := TwoPlanesClosed(hostBigEndian);
    TriangleSizes();
    writer.Destroy();
    file := writer.stream.data;
    FinishedFileReads(writer);
    VectorBlockRoundTrip(Square);
    VectorBlockRoundTrip(Triangle);
  }
}
