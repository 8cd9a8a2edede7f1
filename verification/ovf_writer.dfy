/**
 * The streaming OVF writer: a JobWriter that owns the output file and a
 * WorkPlaneWriter per work plane. Each writer writes its records as it goes.
 * When it is finalized it writes its shell and its look-up table, then
 * backpatches the 8-byte slot that points at that table.
 *
 * Ghost state records what the bytes hold: the finished work planes
 * (`planes`), the bytes of the work plane still open (`tail`), the one
 * work-plane writer that is open (`openChild`) and the bodies of the vector
 * blocks appended so far (`blocks`). `Valid` ties that state to the bytes
 * through the layout functions of `OvfLayout`.
 */
module OvfWriter {
  import opened Wrappers
  import opened Bytes
  import opened OutputStream
  import opened Messages
  import opened Codec
  import opened OvfUtil
  import opened OvfReader
  import opened Seqs
  import opened Records
  import opened OvfLayout

  /** What the writer throws when a finalized scope is used again. */
  datatype WriterError = UseAfterFinalize

  /**
   * Closes a scope on stream `s`: appends the records `a` and `b`, then
   * backpatches the 8-byte slot at `slot` with `b`'s offset and returns the
   * cursor to the end. The file then holds `result`.
   */
  method CloseScope(s: OutStream, a: seq<Byte>, b: seq<Byte>, slot: nat, hostBigEndian: bool, ghost result: seq<Byte>)
    requires s.Valid() && s.isOpen && s.pos == |s.data| && slot + 8 <= |s.data|
    requires |s.data| + |a| + |b| <= MaxStreamPos
    requires Overwrite(s.data + a + b, slot, LeBytes(|s.data| + |a|, 8)) == result
    modifies s
    ensures s.Valid() && s.isOpen && s.owner == old(s.owner) && s.pos == |s.data|
    ensures s.data == result && |s.data| == old(|s.data|) + |a| + |b|
  {
    s.Write(a);
    var bAt: U64 := s.pos;
    s.Write(b);
    s.Seek(slot);
    WriteLittleEndian(bAt, s, hostBigEndian);
    s.SeekEnd();
  }

  /**
   * Closes the open work plane of a file whose finished planes are `planes`:
   * writes its shell record and its LUT record and backpatches its slot. The
   * file then has one more finished plane.
   */
  method ClosePlane(s: OutStream, ghost planes: seq<PlaneView>, ghost tail: seq<Byte>, shell: seq<Byte>,
                    ghost blocks: seq<seq<Byte>>, lut: WorkPlaneLut, slot: nat, hostBigEndian: bool)
    requires s.Valid() && s.isOpen && s.pos == |s.data|
    requires s.data == OpenFile(planes) + tail && tail == LeBytes(0, 8) + Frames(blocks) && slot == |OpenFile(planes)|
    requires lut.vectorBlocksPositions == FrameStarts(slot + 8, blocks) && lut.workPlaneShellPosition == s.pos
    requires |s.data| + |Delimited(shell)| + |Delimited(EncodeWorkPlaneLut(lut))| <= MaxStreamPos
    modifies s
    ensures s.Valid() && s.isOpen && s.owner == old(s.owner) && s.pos == |s.data|
    ensures s.data == OpenFile(planes + [PlaneView(shell, blocks)])
    ensures |s.data| == old(|s.data|) + |Delimited(shell)| + |Delimited(EncodeWorkPlaneLut(lut))|
    ensures PlaneStarts(12, planes + [PlaneView(shell, blocks)]) == PlaneStarts(12, planes) + [slot]
  {
    ghost var v := PlaneView(shell, blocks);
    PlaneClosed(OpenFile(planes), tail, shell, blocks, lut, s.data, slot);
    OpenFileAppend(planes, slot, v);
    PlaneStartsAppend(planes, v);
    CloseScope(s, Delimited(shell), Delimited(EncodeWorkPlaneLut(lut)), slot, hostBigEndian, OpenFile(planes) + PlaneBytes(slot, v));
  }

  /** Models `JobWriter`: the file's top-level scope. */
  class JobWriter {
    const stream: OutStream
    /** The host's byte order, which the model takes as a parameter. */
    const hostBigEndian: bool
    var shellState: Job
    var lut: JobLut
    /** Where the 8-byte Job LUT offset is stored. */
    var lutOffsetPos: nat
    var isFinalized: bool
    ghost var openChild: WorkPlaneWriter?
    ghost var planes: seq<PlaneView>
    ghost var tail: seq<Byte>

    /**
     * The file is the header and the finished work planes, then the open work
     * plane's bytes, if one is open. The Job LUT lists every finished work
     * plane's slot and then the open one's. Once finalized, the file is a
     * finished file holding the job shell, and it is closed.
     */
    ghost predicate Valid()
      reads this, stream
    {
      stream.Valid() && stream.owner == this && lutOffsetPos == 4 &&
      shellState.workPlanes == [] && shellState.numWorkPlanes == |planes| &&
      (isFinalized ==>
        openChild == null && !stream.isOpen && lut == FileLut(planes) &&
        stream.data == FileBytes(EncodeJob(shellState), planes)) &&
      (!isFinalized ==>
        stream.isOpen && stream.pos == |stream.data| && stream.data == OpenFile(planes) + tail &&
        (openChild == null ==> tail == [] && lut.workPlanePositions == PlaneStarts(12, planes)) &&
        (openChild != null ==> lut.workPlanePositions == PlaneStarts(12, planes) + [|OpenFile(planes)|]))
    }

    /** What a reader of the finished file sees: the job shell and every finished work plane. */
    ghost function Contents(): FileView
      reads this
    {
      FileView(EncodeJob(shellState), planes)
    }

    /** Everything about the job except which work-plane writer is its open one stays as it was. */
    twostate predicate Kept()
      reads this, stream
    {
      shellState == old(shellState) && lut == old(lut) && lutOffsetPos == old(lutOffsetPos) &&
      isFinalized == old(isFinalized) && planes == old(planes) && tail == old(tail) && unchanged(stream)
    }

    /** The bytes finalization appends. */
    ghost function FinalizeSize(): nat
      reads this
    {
      |Delimited(EncodeJob(shellState))| + |Delimited(EncodeJobLut(lut))|
    }

    /**
     * Finalization's effect: the job shell record and then the Job LUT record
     * (which records where the shell went) are appended, then bytes [4, 12)
     * are overwritten with the Job LUT record's offset; the file is closed.
     */
    twostate predicate Finalized()
      reads this, stream
    {
      var d0 := old(stream.data);
      var shellRecord := Delimited(EncodeJob(old(shellState)));
      isFinalized && !stream.isOpen && openChild == null &&
      shellState == old(shellState) && planes == old(planes) &&
      lut == old(lut).(jobShellPosition := |d0|) &&
      stream.data == Overwrite(d0 + shellRecord + Delimited(EncodeJobLut(lut)), 4, LeBytes(|d0| + |shellRecord|, 8))
    }

    /** Opens the file, writes "OVF!" and an 8-byte zero placeholder, and keeps the job's shell. */
    constructor (job: Job, hostBigEndian: bool)
      ensures Valid() && fresh(stream) && !isFinalized && openChild == null && planes == [] && tail == []
      ensures stream.data == Magic + LeBytes(0, 8) && stream.pos == 12 && lutOffsetPos == 4
      ensures shellState == CreateJobShell(job) && lut == JobLut([], 0)
      ensures this.hostBigEndian == hostBigEndian
    {
      var s := new OutStream.Open();
      s.Write(Magic);
      var p := s.pos;
      WriteLittleEndian(0, s, hostBigEndian);
      stream := s;
      this.hostBigEndian := hostBigEndian;
      lutOffsetPos := p;
      shellState := CreateJobShell(job);
      lut := JobLut([], 0);
      isFinalized := false;
      openChild := null;
      planes := [];
      tail := [];
      new;
      s.owner := this;
      OverwriteAtEnd(Magic, LeBytes(0, 8));
      assert OpenFile([]) == Header(0) + [];
    }

    /** Writes the job shell and the Job LUT, backpatches the Job LUT offset, and closes the file. */
    method Finalize()
      requires Valid() && !isFinalized && openChild == null
      requires |stream.data| + FinalizeSize() <= MaxStreamPos
      modifies this, stream
      ensures Valid() && Finalized()
    {
      ghost var d0, shell := stream.data, EncodeJob(shellState);
      LutSize(lut.workPlanePositions, lut.jobShellPosition, |d0|);
      lut := lut.(jobShellPosition := stream.pos);
      assert lut == FileLut(planes);
      var shellRecord := Delimited(EncodeJob(shellState));
      stream.Write(shellRecord);
      var jobLutOffset: U64 := stream.pos;
      var lutRecord := Delimited(EncodeJobLut(lut));
      stream.Write(lutRecord);
      stream.Seek(lutOffsetPos);
      WriteLittleEndian(jobLutOffset, stream, hostBigEndian);
      stream.Close();
      isFinalized := true;
      assert d0 == OpenFile(planes) && jobLutOffset == FileLutOffset(shell, planes);
      FileClosed(shell, planes);
    }

    /** Models the destructor: finalizes the file unless that already happened. */
    method Destroy()
      requires Valid() && openChild == null
      requires !isFinalized ==> |stream.data| + FinalizeSize() <= MaxStreamPos
      modifies this, stream
      ensures Valid() && isFinalized
      ensures old(isFinalized) ==> unchanged(this, stream)
      ensures !old(isFinalized) ==> Finalized()
    {
      if !isFinalized {
        Finalize();
      }
    }

    /** Counts a closed work plane `v` in the job shell; the job has no open work plane any more. */
    method CountPlane(ghost v: PlaneView)
      modifies this
      ensures shellState == old(shellState).(numWorkPlanes := old(shellState.numWorkPlanes) + 1)
      ensures planes == old(planes) + [v] && tail == [] && openChild == null
      ensures lut == old(lut) && isFinalized == old(isFinalized) && lutOffsetPos == old(lutOffsetPos)
    {
      shellState := shellState.(numWorkPlanes := shellState.numWorkPlanes + 1);
      planes := planes + [v];
      tail := [];
      openChild := null;
    }

    /** Makes `w` the job's open work-plane writer in place of the one that was. */
    method Adopt(w: WorkPlaneWriter)
      requires Valid() && openChild != null
      modifies this
      ensures Valid() && openChild == w
      ensures shellState == old(shellState) && lut == old(lut) && lutOffsetPos == old(lutOffsetPos)
      ensures isFinalized == old(isFinalized) && planes == old(planes) && tail == old(tail)
    {
      openChild := w;
    }

    /** Opens a work-plane scope; throws once the job is finalized. */
    method AppendWorkPlane(workPlane: WorkPlane) returns (r: Result<WorkPlaneWriter, WriterError>)
      requires Valid() && openChild == null
      requires !isFinalized ==> |stream.data| + 8 <= MaxStreamPos
      modifies this, stream
      ensures Valid()
      ensures old(isFinalized) ==> r == Failure(UseAfterFinalize) && unchanged(this, stream)
      ensures !old(isFinalized) ==>
                r.Success? && fresh(r.value) && r.value.Valid() && r.value.parent == this &&
                !r.value.isFinalized && openChild == r.value && r.value.lutOffsetPos == old(|stream.data|) &&
                stream.data == old(stream.data) + LeBytes(0, 8) &&
                lut == old(lut).(workPlanePositions := old(lut.workPlanePositions) + [old(|stream.data|)]) &&
                r.value.shellState == CreateWorkPlaneShell(workPlane).(workPlaneNumber := old(shellState.numWorkPlanes)) &&
                r.value.lut == WorkPlaneLut([], 0) && r.value.blocks == [] &&
                shellState == old(shellState) && planes == old(planes)
    {
      if isFinalized {
        return Failure(UseAfterFinalize);
      }
      var w := new WorkPlaneWriter(this, workPlane);
      return Success(w);
    }
  }

  /** Models `WorkPlaneWriter`: the scope of one work plane inside an open job. */
  class WorkPlaneWriter {
    var parent: JobWriter?
    var shellState: WorkPlane
    var lut: WorkPlaneLut
    /** Where this work plane's 8-byte LUT offset is stored: the start of its bytes. */
    var lutOffsetPos: nat
    var isFinalized: bool
    /** The bodies of the vector-block records appended so far. */
    ghost var blocks: seq<seq<Byte>>

    /** A writer that is not finalized is in scope; a moved-from writer has no parent and is finalized. */
    ghost predicate Valid()
      reads this, parent, if parent == null then {} else {parent.stream}
    {
      (parent == null ==> isFinalized) &&
      (!isFinalized ==> InScope())
    }

    /**
     * An open work plane: its job is open and has it as the open writer. Its
     * bytes follow the job's finished work planes: the zero slot, then every
     * vector-block record appended so far, in order, and its LUT lists where
     * each of those records starts.
     */
    ghost predicate InScope()
      reads this, parent, if parent == null then {} else {parent.stream}
    {
      parent != null && parent.Valid() && !parent.isFinalized && parent.openChild == this &&
      lutOffsetPos == |OpenFile(parent.planes)| &&
      parent.tail == LeBytes(0, 8) + Frames(blocks) &&
      lut.vectorBlocksPositions == FrameStarts(lutOffsetPos + 8, blocks) &&
      shellState.vectorBlocks == [] && shellState.numBlocks == |blocks| &&
      shellState.workPlaneNumber == |parent.planes|
    }

    /** The bytes finalization appends. */
    ghost function FinalizeSize(): nat
      reads this
    {
      |Delimited(EncodeWorkPlane(shellState))| + |Delimited(EncodeWorkPlaneLut(lut))|
    }

    /**
     * Finalization's effect on `job`: the work-plane shell record and then the
     * work-plane LUT record (which records where the shell went) are
     * appended, the slot is overwritten with the LUT record's offset, the
     * cursor is back at the end, and the job counts one more work plane,
     * recorded as finished.
     */
    twostate predicate Finalized(job: JobWriter)
      reads job, job.stream
    {
      job.stream.isOpen && job.stream.pos == |job.stream.data| &&
      job.shellState == old(job.shellState).(numWorkPlanes := old(job.shellState.numWorkPlanes) + 1) &&
      job.planes == old(job.planes) + [PlaneView(EncodeWorkPlane(old(shellState)), old(blocks))] &&
      job.lut == old(job.lut) && !job.isFinalized && job.tail == []
    }

    /**
     * Opens a work plane at the end of the file: records its start in the Job
     * LUT, writes the 8-byte placeholder there, and keeps the plane's shell
     * numbered after the job's finished work planes.
     */
    constructor (parent: JobWriter, workPlane: WorkPlane)
      requires parent.Valid() && !parent.isFinalized && parent.openChild == null
      requires |parent.stream.data| + 8 <= MaxStreamPos
      modifies parent, parent.stream
      ensures Valid() && this.parent == parent && !isFinalized && parent.openChild == this
      ensures lutOffsetPos == old(|parent.stream.data|)
      ensures parent.stream.data == old(parent.stream.data) + LeBytes(0, 8)
      ensures parent.lut == old(parent.lut).(workPlanePositions := old(parent.lut.workPlanePositions) + [lutOffsetPos])
      ensures shellState == CreateWorkPlaneShell(workPlane).(workPlaneNumber := old(parent.shellState.numWorkPlanes))
      ensures lut == WorkPlaneLut([], 0) && blocks == []
      ensures parent.shellState == old(parent.shellState) && parent.planes == old(parent.planes)
      ensures parent.isFinalized == old(parent.isFinalized)
    {
      var stream := parent.stream;
      ghost var d0 := stream.data;
      parent.lut := parent.lut.(workPlanePositions := parent.lut.workPlanePositions + [stream.pos]);
      lutOffsetPos := stream.pos;
      WriteLittleEndian(0, stream, parent.hostBigEndian);
      shellState := CreateWorkPlaneShell(workPlane).(workPlaneNumber := parent.shellState.numWorkPlanes);
      this.parent := parent;
      lut := WorkPlaneLut([], 0);
      isFinalized := false;
      blocks := [];
      new;
      parent.openChild := this;
      parent.tail := LeBytes(0, 8);
      OverwriteAtEnd(d0, LeBytes(0, 8));
      assert parent.tail == LeBytes(0, 8) + Frames(blocks);
    }

    /** Writes one vector block record at the end of the file; throws once the work plane is finalized. */
    method AppendVectorBlock(vb: VectorBlock) returns (r: Result<(), WriterError>)
      requires Valid()
      requires !isFinalized ==> |parent.stream.data| + |Delimited(EncodeVectorBlock(vb))| <= MaxStreamPos
      modifies this, parent, if parent == null then {} else {parent.stream}
      ensures Valid() && parent == old(parent) && lutOffsetPos == old(lutOffsetPos) && isFinalized == old(isFinalized)
      ensures old(isFinalized) ==> r == Failure(UseAfterFinalize) && unchanged(this) &&
                                   (parent != null ==> unchanged(parent, parent.stream))
      ensures !old(isFinalized) ==>
                r == Success(()) &&
                parent.stream.data == old(parent.stream.data) + Delimited(EncodeVectorBlock(vb)) &&
                lut == old(lut).(vectorBlocksPositions := old(lut.vectorBlocksPositions) + [old(|parent.stream.data|)]) &&
                shellState == old(shellState).(numBlocks := old(shellState.numBlocks) + 1) &&
                blocks == old(blocks) + [EncodeVectorBlock(vb)] &&
                parent.planes == old(parent.planes) && parent.lut == old(parent.lut) &&
                parent.shellState == old(parent.shellState)
    {
      if isFinalized {
        return Failure(UseAfterFinalize);
      }
      var stream := parent.stream;
      ghost var d0, at := stream.data, lutOffsetPos + 8;
      ghost var body := EncodeVectorBlock(vb);
      var record := Delimited(EncodeVectorBlock(vb));
      lut := lut.(vectorBlocksPositions := lut.vectorBlocksPositions + [stream.pos]);
      stream.Write(record);
      shellState := shellState.(numBlocks := shellState.numBlocks + 1);
      parent.tail := parent.tail + record;
      blocks := blocks + [body];
      BlockAppended();
      return Success(());
    }

    /**
     * Writes the work-plane shell and its LUT, backpatches the slot with the
     * LUT's offset, returns the cursor to the end and counts the work plane
     * in the job.
     */
    method Finalize()
      requires Valid() && !isFinalized
      requires |parent.stream.data| + FinalizeSize() <= MaxStreamPos
      modifies this, parent, parent.stream
      ensures Valid() && isFinalized && parent == old(parent)
      ensures parent.openChild == null && Finalized(parent) && parent.Valid()
      ensures shellState == old(shellState) && blocks == old(blocks) && lutOffsetPos == old(lutOffsetPos)
      ensures lut == old(lut).(workPlaneShellPosition := old(|parent.stream.data|))
      ensures |parent.stream.data| == old(|parent.stream.data|) + old(FinalizeSize())
    {
      var job := parent;
      var stream := job.stream;
      ghost var planes0 := job.planes;
      var shell := EncodeWorkPlane(shellState);
      LutSize(lut.vectorBlocksPositions, lut.workPlaneShellPosition, stream.pos);
      lut := lut.(workPlaneShellPosition := stream.pos);
      ClosePlane(stream, planes0, job.tail, shell, blocks, lut, lutOffsetPos, job.hostBigEndian);
      job.CountPlane(PlaneView(shell, blocks));
      isFinalized := true;
    }

    /** Models the destructor: finalizes unless finalized already or moved from. */
    method Destroy()
      requires Valid()
      requires !isFinalized ==> |parent.stream.data| + FinalizeSize() <= MaxStreamPos
      modifies this, parent, if parent == null then {} else {parent.stream}
      ensures Valid() && isFinalized && parent == old(parent)
      ensures old(isFinalized) ==> unchanged(this) && (parent != null ==> unchanged(parent, parent.stream))
      ensures !old(isFinalized) ==> Finalized(parent) && parent.Valid() && parent.openChild == null
      ensures !old(isFinalized) ==> |parent.stream.data| == old(|parent.stream.data|) + old(FinalizeSize())
    {
      if !isFinalized && parent != null {
        Finalize();
      }
    }

    /** Models the move constructor: takes over `other`'s scope and leaves `other` inert. */
    constructor MoveFrom(other: WorkPlaneWriter)
      requires other.Valid()
      modifies other, other.parent
      ensures Valid() && other.Valid() && other.parent == null && other.isFinalized
      ensures parent == old(other.parent) && shellState == old(other.shellState) && lut == old(other.lut)
      ensures lutOffsetPos == old(other.lutOffsetPos) && isFinalized == old(other.isFinalized) && blocks == old(other.blocks)
      ensures parent != null && !isFinalized ==> parent.openChild == this
      ensures parent != null ==> parent.Kept()
      ensures parent != null && isFinalized ==> unchanged(parent)
    {
      parent := other.parent;
      shellState := other.shellState;
      lut := other.lut;
      lutOffsetPos := other.lutOffsetPos;
      isFinalized := other.isFinalized;
      blocks := other.blocks;
      new;
      other.parent := null;
      other.isFinalized := true;
      if parent != null && !isFinalized {
        parent.Adopt(this);
      }
    }

    /**
     * Models move assignment: unless `other` is this writer, finalizes this
     * writer's open scope, then takes over `other`'s scope and leaves `other`
     * inert.
     */
    method MoveAssign(other: WorkPlaneWriter)
      requires Valid() && other.Valid()
      requires this != other && !isFinalized ==> |parent.stream.data| + FinalizeSize() <= MaxStreamPos
      modifies this, other, parent, other.parent, if parent == null then {} else {parent.stream}
      ensures Valid() && other.Valid()
      ensures this == other ==> unchanged(this) && (parent != null ==> unchanged(parent, parent.stream))
      ensures old(isFinalized) && old(parent) != null ==> old(parent).Kept()
      ensures this != other && old(other.parent) != null && (!old(other.isFinalized) || old(isFinalized)) ==>
                old(other.parent).Kept()
      ensures this != other && old(other.parent) != null && old(other.parent) != old(parent) &&
              (old(parent) == null || old(other.parent).stream != old(parent).stream) ==>
                old(other.parent).Kept()
      ensures this != other && !old(isFinalized) ==>
                old(parent).Valid() && old(parent).openChild == null &&
                |old(parent).stream.data| == old(|parent.stream.data|) + old(FinalizeSize())
      ensures this != other ==>
                other.parent == null && other.isFinalized &&
                parent == old(other.parent) && shellState == old(other.shellState) && lut == old(other.lut) &&
                lutOffsetPos == old(other.lutOffsetPos) && isFinalized == old(other.isFinalized) &&
                blocks == old(other.blocks) &&
                (parent != null && !isFinalized ==> parent.openChild == this) &&
                (!old(isFinalized) ==> Finalized(old(parent)))
    {
      if this != other {
        if !isFinalized && parent != null {
          assert other.isFinalized || (other.parent != parent && other.parent.stream != parent.stream);
          Finalize();
        }
        TakeOver(other);
      }
    }

    /** The second half of move assignment: takes over `other`'s scope and leaves `other` inert. */
    method TakeOver(other: WorkPlaneWriter)
      requires this != other && isFinalized && other.Valid()
      modifies this, other, other.parent
      ensures Valid() && other.Valid() && other.parent == null && other.isFinalized
      ensures parent == old(other.parent) && shellState == old(other.shellState) && lut == old(other.lut)
      ensures lutOffsetPos == old(other.lutOffsetPos) && isFinalized == old(other.isFinalized) && blocks == old(other.blocks)
      ensures parent != null && !isFinalized ==> parent.openChild == this
      ensures parent != null ==> parent.Kept()
      ensures parent != null && isFinalized ==> unchanged(parent)
    {
      parent := other.parent;
      shellState := other.shellState;
      lut := other.lut;
      lutOffsetPos := other.lutOffsetPos;
      isFinalized := other.isFinalized;
      blocks := other.blocks;
      other.parent := null;
      other.isFinalized := true;
      if parent != null && !isFinalized {
        parent.Adopt(this);
      }
    }

    /** Appending one more block record keeps an open work plane in scope. */
    twostate lemma BlockAppended()
      requires old(Valid()) && !old(isFinalized) && blocks != []
      requires parent == old(parent) && !isFinalized && lutOffsetPos == old(lutOffsetPos)
      requires blocks == old(blocks) + [blocks[|blocks| - 1]]
      requires lut.vectorBlocksPositions == old(lut.vectorBlocksPositions) + [old(|parent.stream.data|)]
      requires shellState == old(shellState).(numBlocks := old(shellState.numBlocks) + 1)
      requires parent.stream.Valid() && parent.stream.owner == old(parent.stream.owner)
      requires parent.stream.data == old(parent.stream.data) + Delimited(blocks[|blocks| - 1])
      requires parent.stream.isOpen && parent.stream.pos == |parent.stream.data|
      requires parent.tail == old(parent.tail) + Delimited(blocks[|blocks| - 1])
      requires parent.planes == old(parent.planes) && parent.lut == old(parent.lut)
      requires parent.shellState == old(parent.shellState) && parent.isFinalized == old(parent.isFinalized)
      requires parent.openChild == old(parent.openChild) && parent.lutOffsetPos == old(parent.lutOffsetPos)
      ensures Valid()
    {
      var job, body, before := parent, blocks[|blocks| - 1], old(blocks);
      FramesAppend(lutOffsetPos + 8, before, body);
      Assoc(OpenFile(job.planes), old(job.tail), Delimited(body));
      Assoc(LeBytes(0, 8), Frames(before), Delimited(body));
      assert old(|job.stream.data|) == lutOffsetPos + 8 + |Frames(before)|;
      assert job.Valid();
    }
  }

  /**
   * Once a job is finalized, its file reads back as the job shell and every
   * finished work plane, in order, and bytes [4, 12) lead to the job's LUT.
   */
  lemma {:induction false} FinishedFileReads(job: JobWriter)
    requires job.Valid() && job.isFinalized
    ensures ReadJobLutAt(job.stream.data) == Some(job.lut)
    ensures ReadFile(job.stream.data) == Some(job.Contents())
  {
    FileRoundTrip(EncodeJob(job.shellState), job.planes);
  }
}
