/**
 * The OVF records the writer handles, with the fields the writer reads or
 * sets. Nested messages the writer only copies (job metadata, job
 * parameters, marking parameters, parts, work-plane metadata) are carried as
 * their serialized bytes; floating-point fields are carried as their IEEE-754
 * single-precision bit patterns, because the writer only copies them.
 */
module Messages {
  import opened Wrappers
  import opened Bytes

  /** The bit pattern of a 32-bit float. */
  type F32 = x: int | 0 <= x < 0x1_0000_0000

  /** A nested message, as the bytes it serializes to. */
  type Blob = seq<Byte>

  /** A vector block: here, a line sequence of x, y coordinates. */
  datatype VectorBlock = LineSequence(points: seq<F32>)

  datatype WorkPlane = WorkPlane(
    xPosInMm: F32, yPosInMm: F32, zPosInMm: F32,
    xRotInDeg: F32, yRotInDeg: F32, zRotInDeg: F32,
    repeats: int,
    workPlaneNumber: int,
    machineType: int,
    additionalAxisPositions: seq<F32>,
    metaData: Option<Blob>,
    numBlocks: int,
    vectorBlocks: seq<VectorBlock>)

  datatype Job = Job(
    jobMetaData: Option<Blob>,
    jobParameters: Option<Blob>,
    markingParamsMap: map<int, Blob>,
    partsMap: map<int, Blob>,
    numWorkPlanes: int,
    workPlanes: seq<WorkPlane>)

  /** Offsets of each work plane's 8-byte LUT-offset slot, and of the job shell. */
  datatype JobLut = JobLut(workPlanePositions: seq<nat>, jobShellPosition: nat)

  /** Offsets of each vector block record, and of the work-plane shell. */
  datatype WorkPlaneLut = WorkPlaneLut(vectorBlocksPositions: seq<nat>, workPlaneShellPosition: nat)
}
