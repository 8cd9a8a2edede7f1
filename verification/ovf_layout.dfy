/**
 * The bytes of an OVF file, as functions of what was written into it: the
 * 12-byte header, then one block per finished work plane (its 8-byte
 * LUT-offset slot, its vector-block records, its shell record and its LUT
 * record), then the job shell record and the Job LUT record. Every offset a
 * LUT or a slot holds is where that record starts. The main result,
 * `FileRoundTrip`, is that a reader gets back exactly the job shell and the
 * work planes that were written.
 */
module OvfLayout {
  import opened Wrappers
  import opened Bytes
  import opened Messages
  import opened Codec
  import opened OutputStream
  import opened OvfReader
  import opened Seqs
  import opened Records

  /** The header: "OVF!" and the offset of the Job LUT record (0 until the job is finalized). */
  function Header(jobLutOffset: nat): (r: seq<Byte>)
    ensures |r| == 12
  {
    Magic + LeBytes(jobLutOffset, 8)
  }

  /** The record of a vector block, given its body; it holds no offsets, so it is the same wherever it lies. */
  function BlockRecord(at: nat, body: seq<Byte>): seq<Byte> {
    Delimited(body)
  }

  /** The records of these vector-block bodies, one after another. */
  function Frames(bodies: seq<seq<Byte>>): seq<Byte>
    decreases |bodies|
  {
    if bodies == [] then [] else Delimited(bodies[0]) + Frames(bodies[1..])
  }

  /** Where each of those records starts, the first at `at`. */
  function FrameStarts(at: nat, bodies: seq<seq<Byte>>): (r: seq<nat>)
    ensures |r| == |bodies|
    decreases |bodies|
  {
    if bodies == [] then [] else [at] + FrameStarts(at + |Delimited(bodies[0])|, bodies[1..])
  }

  /** `Frames` and `FrameStarts` are the records laid out by `BlockRecord`. */
  lemma {:induction false} FramesAreLaid(at: nat, bodies: seq<seq<Byte>>)
    ensures Frames(bodies) == Laid(at, bodies, BlockRecord)
    ensures FrameStarts(at, bodies) == Starts(at, bodies, BlockRecord)
    decreases |bodies|
  {
    if bodies != [] {
      FramesAreLaid(at + |Delimited(bodies[0])|, bodies[1..]);
    }
  }

  /** One more record goes at the end, and so does its start. */
  lemma {:induction false} FramesAppend(at: nat, bodies: seq<seq<Byte>>, body: seq<Byte>)
    ensures Frames(bodies + [body]) == Frames(bodies) + Delimited(body)
    ensures FrameStarts(at, bodies + [body]) == FrameStarts(at, bodies) + [at + |Frames(bodies)|]
  {
    FramesAreLaid(at, bodies);
    FramesAreLaid(at, bodies + [body]);
    LaidAppend(at, bodies, body, BlockRecord);
    StartsAppend(at, bodies, body, BlockRecord);
  }

  /** The vector-block records of work plane `v` whose slot is at `at`: they follow the slot. */
  function PlaneBlocks(at: nat, v: PlaneView): seq<Byte> {
    Frames(v.blocks)
  }

  /** The LUT of a finished work plane whose slot is at `at`: where its blocks are, and its shell right after them. */
  function PlaneLut(at: nat, v: PlaneView): WorkPlaneLut {
    WorkPlaneLut(FrameStarts(at + 8, v.blocks), at + 8 + |PlaneBlocks(at, v)|)
  }

  /** Where that work plane's LUT record starts: right after its shell record. */
  function PlaneLutOffset(at: nat, v: PlaneView): nat {
    at + 8 + |PlaneBlocks(at, v)| + |Delimited(v.shell)|
  }

  /** A finished work plane whose slot is at `at`: the slot, the blocks, the shell record, the LUT record. */
  function PlaneBytes(at: nat, v: PlaneView): seq<Byte> {
    LeBytes(PlaneLutOffset(at, v), 8) + PlaneBlocks(at, v) + Delimited(v.shell) + Delimited(EncodeWorkPlaneLut(PlaneLut(at, v)))
  }

  /** Finished work planes one after another, the first slot at `at`. */
  function Planes(at: nat, planes: seq<PlaneView>): seq<Byte> {
    Laid(at, planes, PlaneBytes)
  }

  /** Where each of those work planes' slots is. */
  function PlaneStarts(at: nat, planes: seq<PlaneView>): (r: seq<nat>)
    ensures |r| == |planes|
  {
    Starts(at, planes, PlaneBytes)
  }

  /** A file still being written, with these finished work planes: the header with a zero offset, then the planes. */
  function OpenFile(planes: seq<PlaneView>): (r: seq<Byte>)
    ensures |r| == 12 + |Planes(12, planes)|
  {
    Header(0) + Planes(12, planes)
  }

  /** The Job LUT of a finished file: where every work plane's slot is, and the job shell right after the last plane. */
  function FileLut(planes: seq<PlaneView>): JobLut {
    JobLut(PlaneStarts(12, planes), |OpenFile(planes)|)
  }

  /** Where the Job LUT record of a finished file starts: right after the job shell record. */
  function FileLutOffset(shell: seq<Byte>, planes: seq<PlaneView>): nat {
    |OpenFile(planes)| + |Delimited(shell)|
  }

  /** A finished file. */
  function FileBytes(shell: seq<Byte>, planes: seq<PlaneView>): seq<Byte> {
    Header(FileLutOffset(shell, planes)) + Planes(12, planes) + Delimited(shell) + Delimited(EncodeJobLut(FileLut(planes)))
  }

  // ----- Closing a scope -----

  /** A finished work plane goes at the end of an open file, its slot where the file ended. */
  lemma {:induction false} OpenFileAppend(planes: seq<PlaneView>, at: nat, v: PlaneView)
    requires at == |OpenFile(planes)|
    ensures OpenFile(planes) + PlaneBytes(at, v) == OpenFile(planes + [v])
  {
    LaidAppend(12, planes, v, PlaneBytes);
    Assoc(Header(0), Planes(12, planes), PlaneBytes(at, v));
  }

  /**
   * The same, as a work-plane writer sees it: the bytes `d` are `f`, the zero
   * slot and the records of `blocks`, and `lut` lists where those records
   * start and where the shell record goes.
   */
  lemma {:induction false} PlaneClosed(f: seq<Byte>, tail: seq<Byte>, shell: seq<Byte>, blocks: seq<seq<Byte>>,
                                       lut: WorkPlaneLut, d: seq<Byte>, slot: nat)
    requires d == f + tail && tail == LeBytes(0, 8) + Frames(blocks) && slot == |f|
    requires lut.vectorBlocksPositions == FrameStarts(slot + 8, blocks) && lut.workPlaneShellPosition == |d|
    ensures Overwrite(d + Delimited(shell) + Delimited(EncodeWorkPlaneLut(lut)), slot, LeBytes(|d| + |Delimited(shell)|, 8))
            == f + PlaneBytes(slot, PlaneView(shell, blocks))
  {
    var v := PlaneView(shell, blocks);
    assert lut == PlaneLut(slot, v);
    SlotBackpatched(f, LeBytes(0, 8), Frames(blocks), Delimited(shell), Delimited(EncodeWorkPlaneLut(lut)),
                    LeBytes(|d| + |Delimited(shell)|, 8));
  }

  /** The closed work plane's slot is listed after the others. */
  lemma {:induction false} PlaneStartsAppend(planes: seq<PlaneView>, v: PlaneView)
    ensures PlaneStarts(12, planes + [v]) == PlaneStarts(12, planes) + [|OpenFile(planes)|]
  {
    StartsAppend(12, planes, v, PlaneBytes);
  }

  /**
   * Closing the job of a file whose finished planes are `planes`: append the
   * job shell record and the Job LUT record, then backpatch bytes [4, 12)
   * with the Job LUT record's offset. The file is then finished.
   */
  lemma {:induction false} FileClosed(shell: seq<Byte>, planes: seq<PlaneView>)
    ensures Overwrite(OpenFile(planes) + Delimited(shell) + Delimited(EncodeJobLut(FileLut(planes))),
                      4, LeBytes(FileLutOffset(shell, planes), 8))
            == FileBytes(shell, planes)
  {
    var planesBytes, shellRecord := Planes(12, planes), Delimited(shell);
    var lutRecord := Delimited(EncodeJobLut(FileLut(planes)));
    var zero, slot := LeBytes(0, 8), LeBytes(FileLutOffset(shell, planes), 8);
    Assoc4(Magic + zero, planesBytes, shellRecord, lutRecord);
    OverwriteAfterPrefix(Magic, zero, slot, planesBytes + shellRecord + lutRecord);
    Assoc4(Magic + slot, planesBytes, shellRecord, lutRecord);
  }

  // ----- Reading back -----

  /** Vector-block records laid out from `lo` read back, at their positions, as the blocks' bodies; the positions fit 64 bits. */
  lemma {:induction false} BlocksRead(d: seq<Byte>, lo: nat, blocks: seq<seq<Byte>>)
    requires |d| <= U64Limit && Window(d, lo, Frames(blocks))
    ensures FitsU64(FrameStarts(lo, blocks))
    ensures ReadFrames(d, FrameStarts(lo, blocks)) == Some(blocks)
  {
    FramesAreLaid(lo, blocks);
    var ps := Starts(lo, blocks, BlockRecord);
    forall i | 0 <= i < |blocks|
      ensures ps[i] < U64Limit && ReadFrameAt(d, ps[i]) == Some(blocks[i])
    {
      LaidWindow(d, lo, blocks, BlockRecord, i);
      FrameRead(d, ps[i], blocks[i]);
    }
    ReadFramesAll(d, ps, blocks);
  }

  /** Where a finished work plane lies, so do its slot, its blocks, its shell record and its LUT record. */
  lemma {:induction false} PlaneParts(d: seq<Byte>, at: nat, v: PlaneView)
    requires Window(d, at, PlaneBytes(at, v))
    ensures Window(d, at, LeBytes(PlaneLutOffset(at, v), 8))
    ensures Window(d, at + 8, PlaneBlocks(at, v))
    ensures Window(d, PlaneLut(at, v).workPlaneShellPosition, Delimited(v.shell))
    ensures Window(d, PlaneLutOffset(at, v), Delimited(EncodeWorkPlaneLut(PlaneLut(at, v))))
  {
    WindowSplit4(d, at, LeBytes(PlaneLutOffset(at, v), 8), PlaneBlocks(at, v), Delimited(v.shell),
                 Delimited(EncodeWorkPlaneLut(PlaneLut(at, v))));
  }

  /** The slot of a finished work plane leads to its LUT, which reads back. */
  lemma {:induction false} PlaneLutFound(d: seq<Byte>, at: nat, v: PlaneView)
    requires |d| <= U64Limit && Window(d, at, PlaneBytes(at, v))
    ensures ReadU64At(d, at) == Some(PlaneLutOffset(at, v))
    ensures ReadWorkPlaneLutAt(d, PlaneLutOffset(at, v)) == Some(PlaneLut(at, v))
    ensures ReadFrames(d, PlaneLut(at, v).vectorBlocksPositions) == Some(v.blocks)
  {
    PlaneParts(d, at, v);
    U64Read(d, at, PlaneLutOffset(at, v));
    BlocksRead(d, at + 8, v.blocks);
    WorkPlaneLutRead(d, PlaneLutOffset(at, v), PlaneLut(at, v));
  }

  /** A finished work plane laid out at `at` reads back as itself. */
  lemma {:induction false} PlaneRead(d: seq<Byte>, at: nat, v: PlaneView)
    requires |d| <= U64Limit && Window(d, at, PlaneBytes(at, v))
    ensures ReadWorkPlaneAt(d, at) == Some(v)
  {
    var lut := PlaneLut(at, v);
    PlaneParts(d, at, v);
    PlaneLutFound(d, at, v);
    FrameRead(d, lut.workPlaneShellPosition, v.shell);
    WorkPlaneRead(d, at, PlaneLutOffset(at, v), lut, v.shell, v.blocks);
  }

  /** Finished work planes laid out from `at` read back, at their slots, as the planes; the slots' offsets fit 64 bits. */
  lemma {:induction false} PlanesRead(d: seq<Byte>, at: nat, planes: seq<PlaneView>)
    requires |d| <= U64Limit && Window(d, at, Planes(at, planes))
    ensures FitsU64(PlaneStarts(at, planes))
    ensures ReadWorkPlanes(d, PlaneStarts(at, planes)) == Some(planes)
  {
    var ps := Starts(at, planes, PlaneBytes);
    forall i | 0 <= i < |planes|
      ensures ps[i] < U64Limit && ReadWorkPlaneAt(d, ps[i]) == Some(planes[i])
    {
      LaidWindow(d, at, planes, PlaneBytes, i);
      PlaneRead(d, ps[i], planes[i]);
    }
    ReadWorkPlanesAll(d, ps, planes);
  }

  /**
   * In a finished file, the slot of work plane `i` leads to that plane's LUT,
   * which lists one position per vector block, and the records at those
   * positions are the plane's blocks.
   */
  lemma {:induction false} FilePlaneFound(shell: seq<Byte>, planes: seq<PlaneView>, i: nat)
    requires |FileBytes(shell, planes)| <= U64Limit && i < |planes|
    ensures var d, at := FileBytes(shell, planes), PlaneStarts(12, planes)[i];
            ReadU64At(d, at) == Some(PlaneLutOffset(at, planes[i])) &&
            ReadWorkPlaneLutAt(d, PlaneLutOffset(at, planes[i])) == Some(PlaneLut(at, planes[i])) &&
            |PlaneLut(at, planes[i]).vectorBlocksPositions| == |planes[i].blocks| &&
            ReadFrames(d, PlaneLut(at, planes[i]).vectorBlocksPositions) == Some(planes[i].blocks)
  {
    var d, at := FileBytes(shell, planes), PlaneStarts(12, planes)[i];
    FileParts(shell, planes);
    LaidWindow(d, 12, planes, PlaneBytes, i);
    PlaneLutFound(d, at, planes[i]);
  }

  /** A finished file starts with "OVF!" and the Job LUT record's offset; its planes, job shell record and Job LUT record follow. */
  lemma {:induction false} FileParts(shell: seq<Byte>, planes: seq<PlaneView>)
    ensures var d := FileBytes(shell, planes);
            |d| >= 12 && d[..4] == Magic
            && Window(d, 4, LeBytes(FileLutOffset(shell, planes), 8))
            && Window(d, 12, Planes(12, planes))
            && Window(d, FileLut(planes).jobShellPosition, Delimited(shell))
            && Window(d, FileLutOffset(shell, planes), Delimited(EncodeJobLut(FileLut(planes))))
  {
    var d := FileBytes(shell, planes);
    var offset := FileLutOffset(shell, planes);
    Concat4Windows(Header(offset), Planes(12, planes), Delimited(shell),
                   Delimited(EncodeJobLut(FileLut(planes))));
    WindowSplit(d, 0, Magic, LeBytes(offset, 8));
    WindowSlice(d, 0, Magic);
  }

  /**
   * A finished file reads back as what was written: its job shell record's
   * body and its work planes, in order. The file must be addressable with
   * 64-bit offsets.
   */
  lemma {:induction false} FileRoundTrip(shell: seq<Byte>, planes: seq<PlaneView>)
    requires |FileBytes(shell, planes)| <= U64Limit
    ensures ReadJobLutAt(FileBytes(shell, planes)) == Some(FileLut(planes))
    ensures ReadFile(FileBytes(shell, planes)) == Some(FileView(shell, planes))
  {
    var d := FileBytes(shell, planes);
    var lut := FileLut(planes);
    FileParts(shell, planes);
    PlanesRead(d, 12, planes);
    JobLutRead(d, FileLutOffset(shell, planes), lut);
    FrameRead(d, lut.jobShellPosition, shell);
    FileRead(d, lut, shell, planes);
  }
}
