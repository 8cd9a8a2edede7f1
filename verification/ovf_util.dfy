/**
 * OvfUtil: the host-independent little-endian offset writer and the shell
 * projectors that strip a Job or a WorkPlane of its children.
 */
module OvfUtil {
  import opened Bytes
  import opened OutputStream
  import opened Messages

  /** `s` back to front. */
  function Reverse(s: seq<Byte>): (r: seq<Byte>)
    ensures |r| == |s| && forall i :: 0 <= i < |s| ==> r[i] == s[|s| - 1 - i]
  {
    seq(|s|, i requires 0 <= i < |s| => s[|s| - 1 - i])
  }

  /** Reversing twice gives the bytes back. */
  lemma {:induction false} ReverseReverse(s: seq<Byte>)
    ensures Reverse(Reverse(s)) == s
  {
    var r := Reverse(Reverse(s));
    forall i | 0 <= i < |s|
      ensures r[i] == s[i]
    {
      assert r[i] == Reverse(s)[|s| - 1 - i];
    }
  }

  /**
   * The eight bytes of a `uint64_t` as the host keeps them in memory: what
   * reinterpreting `&value` as a byte pointer yields. A big-endian host keeps
   * the most significant byte first.
   */
  function NativeBytes(value: U64, hostBigEndian: bool): (r: seq<Byte>)
    ensures |r| == 8
    ensures forall i :: 0 <= i < 8 ==> r[i] == (value / Pow256(if hostBigEndian then 7 - i else i)) % 256
  {
    var le := LeBytes(value, 8);
    assert forall j :: 0 <= j < 8 ==> le[j] == (value / Pow256(j)) % 256 by {
      forall j | 0 <= j < 8
        ensures le[j] == (value / Pow256(j)) % 256
      {
        LeBytesAt(value, 8, j);
      }
    }
    if hostBigEndian then Reverse(le) else le
  }

  /**
   * Writes `value` as eight little-endian bytes at the stream's cursor. On a
   * big-endian host it builds the bytes one by one; on a little-endian host
   * it writes the value's own memory. Either way the same bytes land.
   */
  method WriteLittleEndian(value: U64, os: OutStream, hostBigEndian: bool)
    requires os.Valid()
    requires os.isOpen ==> os.pos + 8 <= MaxStreamPos
    modifies os
    ensures os.Valid() && os.isOpen == old(os.isOpen) && os.owner == old(os.owner)
    ensures old(os.isOpen) ==>
              os.data == Overwrite(old(os.data), old(os.pos), LeBytes(value, 8)) && os.pos == old(os.pos) + 8
    ensures !old(os.isOpen) ==> os.data == old(os.data) && os.pos == old(os.pos)
  {
    if hostBigEndian {
      var buf := new Byte[8];
      for i := 0 to 8
        modifies buf
        invariant forall j :: 0 <= j < i ==> buf[j] == (value / Pow256(j)) % 256
      {
        buf[i] := (value / Pow256(i)) % 256;
      }
      forall j | 0 <= j < 8
        ensures buf[j] == LeBytes(value, 8)[j]
      {
        LeBytesAt(value, 8, j);
      }
      os.Write(buf[..]);
    } else {
      os.Write(NativeBytes(value, false));
    }
  }

  /**
   * The Job with its work planes dropped and its work-plane count reset to
   * 0; metadata and parameters are copied exactly when present, and both
   * maps are copied entry for entry.
   */
  function CreateJobShell(full: Job): (shell: Job)
    ensures shell == full.(workPlanes := [], numWorkPlanes := 0)
  {
    Job(
      jobMetaData := full.jobMetaData,
      jobParameters := full.jobParameters,
      markingParamsMap := full.markingParamsMap,
      partsMap := full.partsMap,
      numWorkPlanes := 0,
      workPlanes := [])
  }

  /**
   * The WorkPlane with its vector blocks dropped and its block count reset
   * to 0; pose, repeats, number, machine type, axis positions and metadata
   * (when present) are copied.
   */
  function CreateWorkPlaneShell(full: WorkPlane): (shell: WorkPlane)
    ensures shell == full.(vectorBlocks := [], numBlocks := 0)
  {
    WorkPlane(
      xPosInMm := full.xPosInMm, yPosInMm := full.yPosInMm, zPosInMm := full.zPosInMm,
      xRotInDeg := full.xRotInDeg, yRotInDeg := full.yRotInDeg, zRotInDeg := full.zRotInDeg,
      repeats := full.repeats,
      workPlaneNumber := full.workPlaneNumber,
      machineType := full.machineType,
      additionalAxisPositions := full.additionalAxisPositions,
      metaData := full.metaData,
      numBlocks := 0,
      vectorBlocks := [])
  }

  /** Projecting a shell again changes nothing. */
  lemma {:induction false} JobShellIdempotent(full: Job)
    ensures CreateJobShell(CreateJobShell(full)) == CreateJobShell(full)
  {
  }

  /** Projecting a shell again changes nothing. */
  lemma {:induction false} WorkPlaneShellIdempotent(full: WorkPlane)
    ensures CreateWorkPlaneShell(CreateWorkPlaneShell(full)) == CreateWorkPlaneShell(full)
  {
  }

  /** Two jobs that differ only in their work planes and count have the same shell. */
  lemma {:induction false} JobShellIgnoresWorkPlanes(a: Job, b: Job)
    requires a.(workPlanes := [], numWorkPlanes := 0) == b.(workPlanes := [], numWorkPlanes := 0)
    ensures CreateJobShell(a) == CreateJobShell(b)
  {
  }

  /** Two work planes that differ only in their vector blocks and count have the same shell. */
  lemma {:induction false} WorkPlaneShellIgnoresBlocks(a: WorkPlane, b: WorkPlane)
    requires a.(vectorBlocks := [], numBlocks := 0) == b.(vectorBlocks := [], numBlocks := 0)
    ensures CreateWorkPlaneShell(a) == CreateWorkPlaneShell(b)
  {
  }
}
