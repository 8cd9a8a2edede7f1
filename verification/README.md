# OVF container writer: a Dafny model

This project models the streaming writer of the Open Vector Format (OVF)
container in CadToOvfConverter. It models `JobWriter` and `WorkPlaneWriter`
(`OvfWriterLib/OvfWriter.cpp`), and the utilities `WriteLittleEndian`,
`CreateJobShell` and `CreateWorkPlaneShell` (`OvfWriterLib/OvfUtil.cpp`).

The writer produces a file in one forward pass:
- the identifier "OVF!", then an 8-byte placeholder for the Job LUT's offset;
- per work plane, an 8-byte placeholder for that plane's LUT offset, then its vector-block records, its shell record and its LUT record;
- finally the job shell record and the Job LUT record.

When a scope closes, the writer seeks back and backpatches its placeholder with the offset of the LUT it has just written. A work-plane scope then returns to the end of the file; the job scope closes the file instead.

The model follows that code step by step:
- `OutStream` is the `std::ofstream`: a byte buffer with a put cursor that `Write` overwrites or extends.
- `JobWriter` and `WorkPlaneWriter` are classes whose methods update their fields and the shared stream in place.
- Ghost state tracks what the bytes hold: the finished work planes, the open plane's bytes and the appended block bodies.
- Each class's `Valid` predicate ties that state to the bytes through the layout functions of `OvfLayout`.
- The reader in `OvfReader` follows the same indirections the tests follow: bytes [4, 12), then the Job LUT, then each plane's slot, then its LUT, then its records.
- `OvfLayout.FileRoundTrip` and `OvfWriter.FinishedFileReads` prove that a finalized file reads back as exactly the job shell and the work planes that were written.

The modules:
- `Bytes`: little-endian words.
- `OutputStream`: the stream.
- `Codec`: delimited records and record bodies.
- `Records`: generic back-to-back layout.
- `OvfLayout`: the file as a function of its contents.
- `OvfReader`: reading back.
- `OvfUtil`: the utilities.
- `OvfWriter`: the writers.
- `Scenarios`: the tests' fixtures written end to end.

Two points of the code shape the model's contracts:
- **One open work plane per job.** The code does not check that a job has only one open work-plane writer. The model states it as a precondition (see "Left out").
- **Finalization at most once.** `Finalize` is private and does not check `m_is_finalized`; the destructors and move assignment do. So the model's `Finalize` methods require an open scope, and the `Destroy` methods are the entry points that may run more than once.

## Model

| member | source | states |
|---|---|---|
| Bytes.LeBytes | OvfWriterLib/OvfUtil.cpp:16-27 | the little-endian encoding of a value has exactly `width` bytes (8 for every offset the writer emits) |
| Bytes.LeValue | CadToOvfConverterTests/TestFixtures.h:36-42 | decoding `n` little-endian bytes gives a value below 256^n |
| Bytes.LeBytesAt | OvfWriterLib/OvfUtil.cpp:19-21 | byte i of the encoding is `(value >> 8i) & 0xFF` |
| Bytes.LeRoundTrip | CadToOvfConverterTests/TestFixtures.h:36-42 | reading the 8 written bytes as a little-endian integer gives back every value that fits 64 bits |
| Bytes.LeValueRoundTrip | CadToOvfConverterTests/TestFixtures.h:36-42 | every byte string is the encoding of the value it reads as, so two different values never write the same bytes |
| OutputStream.Overwrite | OvfWriterLib/OvfWriter.cpp:47-48 | writing at the cursor keeps the length when it lands inside the file and extends it to the write's end otherwise |
| OutputStream.OverwriteFrame | OvfWriterLib/OvfWriter.cpp:114-116 | a backpatch changes only the bytes it writes: the bytes before are kept, the new bytes are in place, the bytes after are kept |
| OutputStream.OverwriteKeepsWindow | OvfWriterLib/OvfWriter.cpp:114-116 | every record of the file that the backpatched slot does not overlap is still in place |
| OutputStream.OverwriteAtEnd | OvfWriterLib/OvfWriter.cpp:98 | writing at the end of the file appends |
| OutputStream.OverwriteAfterPrefix | OvfWriterLib/OvfWriter.cpp:47-48 | overwriting the bytes that follow a prefix with as many new bytes replaces exactly them |
| OutputStream.SlotBackpatched | OvfWriterLib/OvfWriter.cpp:106-116 | after the shell and LUT records are appended, backpatching the zero slot yields the slot's new bytes with everything else unchanged |
| OutputStream.OutStream.Open | OvfWriterLib/OvfWriter.cpp:13 | a freshly opened file is empty and open, with the cursor at 0 |
| OutputStream.OutStream.Write | OvfWriterLib/OvfWriter.cpp:20 | an open stream overwrites at the cursor and advances it by the bytes written; a closed stream is unchanged |
| OutputStream.OutStream.Seek | OvfWriterLib/OvfWriter.cpp:47 | the cursor moves to the given position; the bytes are unchanged |
| OutputStream.OutStream.SeekEnd | OvfWriterLib/OvfWriter.cpp:119 | the cursor moves to the end; the bytes are unchanged |
| OutputStream.OutStream.Close | OvfWriterLib/OvfWriter.cpp:50 | the stream takes no more writes and keeps its bytes |
| OvfUtil.WriteLittleEndian | OvfWriterLib/OvfUtil.cpp:16-27 | on either host byte order, exactly the 8 little-endian bytes of the value land at the cursor, which advances by 8 |
| OvfUtil.NativeBytes | OvfWriterLib/OvfUtil.cpp:24-26 | the memory of a `uint64_t` is 8 bytes; byte i holds the value's byte of significance i on a little-endian host and 7 - i on a big-endian host |
| OvfUtil.CreateJobShell | OvfWriterLib/OvfUtil.cpp:29-48 | the shell equals the job with its work planes dropped and the count reset to 0: metadata and parameters are copied exactly when present, and both maps are copied |
| OvfUtil.CreateWorkPlaneShell | OvfWriterLib/OvfUtil.cpp:51-70 | the shell equals the plane with its vector blocks dropped and the count reset to 0: pose, repeats, number, machine type, axis positions and metadata are copied |
| OvfUtil.JobShellIdempotent | OvfWriterLib/OvfUtil.cpp:29-48 | projecting a job shell again changes nothing |
| OvfUtil.WorkPlaneShellIdempotent | OvfWriterLib/OvfUtil.cpp:51-70 | projecting a work-plane shell again changes nothing |
| OvfUtil.JobShellIgnoresWorkPlanes | OvfWriterLib/OvfUtil.cpp:45-47 | the job shell does not depend on the job's work planes or their count |
| OvfUtil.WorkPlaneShellIgnoresBlocks | OvfWriterLib/OvfUtil.cpp:66-68 | the work-plane shell does not depend on the plane's vector blocks or their count |
| Codec.Varint | OvfWriterLib/OvfWriter.cpp:40 | the length prefix of a delimited record takes at least one byte |
| Codec.Delimited | OvfWriterLib/OvfWriter.cpp:40 | a delimited record is longer than its body |
| Codec.DecodeVarintAt | CadToOvfConverterTests/TestFixtures.h:44-56 | a length prefix that is read ends inside the file, after where it starts |
| Codec.VarintRead | CadToOvfConverterTests/TestFixtures.h:44-56 | a written length prefix reads back as the length, ending where it ends |
| Codec.ReadFrameAt | CadToOvfConverterTests/TestFixtures.h:44-56 | a record that is read lies inside the file |
| Codec.FrameRead | CadToOvfConverterTests/TestFixtures.h:44-56 | a delimited record written at an offset reads back, at that offset, as its body |
| Codec.ReadWordsAt | CadToOvfConverterTests/TestFixtures.h:44-56 | reading n words gives n words and ends inside the file |
| Codec.WordsRead | CadToOvfConverterTests/TestFixtures.h:44-56 | fixed-width words that fit their width read back as written |
| Codec.ReadCountedAt | CadToOvfConverterTests/TestFixtures.h:44-56 | a counted field that is read ends inside the file |
| Codec.CountedRead | CadToOvfConverterTests/TestFixtures.h:44-56 | a count and its words read back as the words |
| Codec.VectorBlockRoundTrip | CadToOvfConverterTests/OvfWriterTests.cpp:98-103 | a vector block's body parses back as the same block |
| Codec.LutRoundTrip | CadToOvfConverterTests/OvfWriterTests.cpp:78-95 | a LUT body parses back as its positions and its shell position when all fit 64 bits |
| Codec.JobLutRoundTrip | CadToOvfConverterTests/OvfWriterTests.cpp:78-82 | a Job LUT body parses back as the same Job LUT |
| Codec.WorkPlaneLutRoundTrip | CadToOvfConverterTests/OvfWriterTests.cpp:92-96 | a work-plane LUT body parses back as the same work-plane LUT |
| OvfReader.ReadU64At | CadToOvfConverterTests/TestFixtures.h:36-42 | an offset that is read fits 64 bits (the bytes are decoded little-endian on every host; see "Findings") |
| OvfReader.ReadNativeU64At | CadToOvfConverterTests/TestFixtures.h:36-42 | the helper as written, reading in the host's byte order: it succeeds exactly where `ReadU64At` does and agrees with it on a little-endian host |
| OvfReader.NativeRoundTrip | CadToOvfConverterTests/TestFixtures.h:36-42 | on either host, the native read gives back exactly the value a native-memory write put down |
| OvfReader.NativeMisreadsOnBigEndianHost | CadToOvfConverterTests/TestFixtures.h:40 | on a big-endian host, the little-endian offset 132 (where the square file's Job LUT lies in the model's layout) reads back as 0x8400_0000_0000_0000, and a native-memory write of 132 differs from its little-endian bytes, which is why the writer builds the bytes itself there |
| OvfReader.ReadJobLutAt | CadToOvfConverterTests/OvfWriterTests.cpp:69-81 | a Job LUT is found only in a file of at least 12 bytes, through the offset in bytes [4, 12), and that offset lies inside the file |
| OvfReader.ReadWorkPlaneLutAt | CadToOvfConverterTests/TestFixtures.h:44-56 | a record is found only at an offset inside the file, as the helper fails at or past the end |
| OvfReader.ReadWorkPlaneAt | CadToOvfConverterTests/OvfWriterTests.cpp:84-96 | a work plane is read through its slot's offset to its LUT, and it has one block per LUT entry |
| OvfReader.ReadFile | CadToOvfConverterTests/OvfWriterTests.cpp:68-100 | a file reads back only if it starts with "OVF!" and its Job LUT is found, and it yields one work plane per Job LUT entry |
| OvfReader.ReadFrames | CadToOvfConverterTests/OvfWriterTests.cpp:96-100 | reading the records at n positions gives n bodies |
| OvfReader.ReadFramesAll | CadToOvfConverterTests/OvfWriterTests.cpp:96-100 | where each position holds a record, the records read back in order |
| OvfReader.ReadWorkPlanes | CadToOvfConverterTests/OvfWriterTests.cpp:82-95 | reading the work planes at n slots gives n planes |
| OvfReader.ReadWorkPlanesAll | CadToOvfConverterTests/OvfWriterTests.cpp:82-95 | where each slot leads to a work plane, the planes read back in order |
| OvfReader.U64Read | CadToOvfConverterTests/TestFixtures.h:36-42 | an 8-byte little-endian offset written at a position reads back as itself |
| OvfReader.WorkPlaneLutRead | CadToOvfConverterTests/OvfWriterTests.cpp:92-95 | a work-plane LUT record reads back as the LUT |
| OvfReader.JobLutRead | CadToOvfConverterTests/OvfWriterTests.cpp:69-80 | the offset in bytes [4, 12) leads to a Job LUT record that reads back as the LUT |
| OvfReader.WorkPlaneRead | CadToOvfConverterTests/OvfWriterTests.cpp:84-100 | a work plane is read from its slot, its LUT, its shell record and its block records |
| OvfReader.FileRead | CadToOvfConverterTests/OvfWriterTests.cpp:69-100 | a file is read from its identifier, its Job LUT, its job shell record and its work planes |
| OvfLayout.Header | OvfWriterLib/OvfWriter.cpp:18-24 | the header, the identifier and the Job LUT offset, is 12 bytes |
| OvfLayout.FrameStarts | OvfWriterLib/OvfWriter.cpp:97 | a work plane's LUT holds one position per vector block |
| OvfLayout.PlaneStarts | OvfWriterLib/OvfWriter.cpp:71 | the Job LUT holds one position per work plane |
| OvfLayout.OpenFile | OvfWriterLib/OvfWriter.cpp:18-24 | a file still being written is the 12-byte header followed by its finished work planes |
| OvfLayout.FramesAreLaid | OvfWriterLib/OvfWriter.cpp:97-98 | the block records and their positions are the generic back-to-back layout of the blocks |
| OvfLayout.FramesAppend | OvfWriterLib/OvfWriter.cpp:97-98 | one more block record goes at the end, and its position, where the file ended, is added last to the LUT |
| OvfLayout.OpenFileAppend | OvfWriterLib/OvfWriter.cpp:103-127 | a closed work plane's bytes follow the finished planes, with its slot where the file ended |
| OvfLayout.PlaneClosed | OvfWriterLib/OvfWriter.cpp:103-119 | writing the plane's shell and LUT and then backpatching its slot turns the open plane's bytes into a finished plane's bytes |
| OvfLayout.PlaneStartsAppend | OvfWriterLib/OvfWriter.cpp:71 | the closed plane's slot is listed after those of the earlier planes |
| OvfLayout.FileClosed | OvfWriterLib/OvfWriter.cpp:37-52 | writing the job shell and the Job LUT and then backpatching bytes [4, 12) turns an open file into a finished file |
| OvfLayout.BlocksRead | CadToOvfConverterTests/OvfWriterTests.cpp:93-100 | block records laid out in a file read back, at their LUT positions, as the blocks |
| OvfLayout.PlaneParts | OvfWriterLib/OvfWriter.cpp:65-127 | a finished plane is its slot, its blocks, its shell record and its LUT record, in that order |
| OvfLayout.PlaneLutFound | CadToOvfConverterTests/OvfWriterTests.cpp:84-95 | a finished plane's slot holds its LUT's offset, and the LUT there reads back |
| OvfLayout.PlaneRead | CadToOvfConverterTests/OvfWriterTests.cpp:84-100 | a finished plane reads back, from its slot, as itself |
| OvfLayout.PlanesRead | CadToOvfConverterTests/OvfWriterTests.cpp:82-100 | the finished planes read back, at their slots, as themselves |
| OvfLayout.FilePlaneFound | CadToOvfConverterTests/OvfWriterTests.cpp:82-100 | in a finished file, plane i's slot leads to a LUT with one position per block, and the records there are the plane's blocks |
| OvfLayout.FileParts | OvfWriterLib/OvfWriter.cpp:18-52 | a finished file starts with "OVF!" and the Job LUT's offset, followed by the planes, the job shell record and the Job LUT record |
| OvfLayout.FileRoundTrip | CadToOvfConverterTests/OvfWriterTests.cpp:69-103 | a finished file reads back as exactly the job shell and the work planes written into it, in order |
| OvfWriter.CloseScope | OvfWriterLib/OvfWriter.cpp:106-119 | the two records are appended, the slot is backpatched with the second record's offset, and the cursor is back at the end |
| OvfWriter.ClosePlane | OvfWriterLib/OvfWriter.cpp:103-119 | closing the open plane yields an open file with one more finished plane, grown by exactly its shell and LUT records |
| OvfWriter.JobWriter.constructor | OvfWriterLib/OvfWriter.cpp:12-28 | the file holds "OVF!" and 8 zero bytes, the cursor is at 12, the slot is at 4, and the state is the job's shell with an empty LUT |
| OvfWriter.JobWriter.Finalize | OvfWriterLib/OvfWriter.cpp:37-52 | the job shell and the Job LUT, which records the shell's offset, are appended; bytes [4, 12) get the LUT's offset; the file is closed and is a finished file |
| OvfWriter.JobWriter.Destroy | OvfWriterLib/OvfWriter.cpp:30-35 | finalizes at most once: a finalized job is left unchanged |
| OvfWriter.JobWriter.CountPlane | OvfWriterLib/OvfWriter.cpp:121-124 | the job's work-plane count goes up by one and the closed plane is recorded |
| OvfWriter.JobWriter.Adopt | OvfWriterLib/OvfWriter.cpp:132-142 | the job's open work-plane scope is now held by the writer moved into; nothing else changes |
| OvfWriter.JobWriter.AppendWorkPlane | OvfWriterLib/OvfWriter.cpp:54-60 | on a finalized job it fails and changes nothing; otherwise it opens a work-plane scope as the private constructor does |
| OvfWriter.WorkPlaneWriter.constructor | OvfWriterLib/OvfWriter.cpp:65-81 | the Job LUT gets the cursor position, 8 zero bytes are appended there, and the shell is numbered with the job's count |
| OvfWriter.WorkPlaneWriter.AppendVectorBlock | OvfWriterLib/OvfWriter.cpp:91-101 | on a finalized plane it fails and changes nothing; otherwise the block record is appended, its offset is added to the LUT and the block count goes up by one |
| OvfWriter.WorkPlaneWriter.Finalize | OvfWriterLib/OvfWriter.cpp:103-127 | the shell and LUT records are appended, the slot is backpatched, the cursor is back at the end, the job counts one more finished plane, and the job stays valid |
| OvfWriter.WorkPlaneWriter.Destroy | OvfWriterLib/OvfWriter.cpp:83-89 | finalizes an open plane once, appending exactly its shell and LUT records; a finalized or moved-from writer, its job and the job's file are left unchanged |
| OvfWriter.WorkPlaneWriter.MoveFrom | OvfWriterLib/OvfWriter.cpp:132-142 | the new writer takes over every field of the source, and the source has a null parent and is finalized; the job keeps its shell, LUT, planes and file, and only its open writer becomes the new one |
| OvfWriter.WorkPlaneWriter.MoveAssign | OvfWriterLib/OvfWriter.cpp:144-161 | self-assignment changes neither the writer, nor its job, nor the file; otherwise an open destination's plane is closed first, leaving its job valid with no open writer and the file longer by exactly the shell and LUT records; then the destination takes over the source and the source is left inert; a finalized destination's job keeps its state and file, and the source's job keeps its state and file apart from its open writer whenever it is not the job just written to |
| OvfWriter.WorkPlaneWriter.TakeOver | OvfWriterLib/OvfWriter.cpp:151-158 | the destination gets the source's fields, and the source has a null parent and is finalized; the job keeps its shell, LUT, planes and file |
| OvfWriter.WorkPlaneWriter.BlockAppended | OvfWriterLib/OvfWriter.cpp:91-101 | appending a block record and its offset keeps an open work plane in scope |
| OvfWriter.FinishedFileReads | OvfWriterLib/OvfWriter.cpp:37-52 | a finalized job's file leads from bytes [4, 12) to its Job LUT, and reads back as the job shell and every finished work plane |
| Scenarios.JobShellAfter | CadToOvfConverterTests/OvfWriterTests.cpp:55-56 | the test job's shell after n planes is the job with its count set to n |
| Scenarios.PlaneShellAfter | CadToOvfConverterTests/OvfWriterTests.cpp:57-58 | a plane's shell is the plane with its blocks dropped and its number and block count set |
| Scenarios.StartSquareJob | CadToOvfConverterTests/OvfWriterTests.cpp:62-65 | after the square is appended, the LUTs list offsets 12 and 20, and the file is 62 bytes in the model's record layout |
| Scenarios.SquarePlaneClosed | CadToOvfConverterTests/OvfWriterTests.cpp:62-66 | after the plane writer's destructor, the job has one finished plane holding the square, and the file is 112 bytes in the model's record layout |
| Scenarios.WriteSquareJob | CadToOvfConverterTests/OvfWriterTests.cpp:51-104 | the Job LUT has one entry, the plane's LUT has one entry, the record there parses as the square, and the file reads back whole |
| Scenarios.StartTwoPlaneJob | CadToOvfConverterTests/TestFixtures.h:24-34 | a second plane at z = 0.1, numbered 1 and holding the triangle, follows the closed square plane |
| Scenarios.TwoPlanesClosed | CadToOvfConverterTests/TestFixtures.h:24-34 | after the second plane writer's destructor, the job has two finished planes in order, each with its own shell and block, and its LUT lists slots 12 and 112 |
| Scenarios.WriteTwoPlaneJob | CadToOvfConverterTests/TestFixtures.h:11-34 | the Job LUT lists both planes in order, the file reads back as both planes with their own shells (z = 0.05 and z = 0.1), and each block parses as its fixture |

## Left out

- Opening the file can fail and throw (OvfWriterLib/OvfWriter.cpp:14-16). The model's stream always opens.
- Exceptions are modelled only as the `UseAfterFinalize` failure results of `AppendWorkPlane` and `AppendVectorBlock`.
- The protobuf wire format belongs to a library outside the model. Records keep protobuf's delimited framing (a varint byte count, then the body), but the bodies use this model's own layout.
  - Offsets are fixed 8-byte words.
  - Floats are IEEE-754 bit patterns.
  - Nested messages the writer only copies (job metadata, parameters, parts, work-plane metadata) are opaque byte strings.
  - Only the LUT and vector-block bodies are parsed back.
  - The scenarios' job metadata is the job name's ASCII bytes, not a serialized `JobMetaData` message.
- A vector block is modelled as a line sequence only, the one kind the tests write.
- Floating-point values are only copied, never computed, so they are carried as bit patterns.
- `IsSystemBigEndian` (OvfWriterLib/OvfUtil.cpp:11-14) reads the host's memory. The model takes the host's byte order as the parameter `hostBigEndian` instead.
- The file system is not modelled: the file is the stream's byte buffer.
- OvfReader.ReadU64At decodes the little-endian offsets the writer lays down, on every host. The test fixtures' reader (CadToOvfConverterTests/TestFixtures.h:36-42) reads in host order and agrees with it only on a little-endian host (`OvfReader.ReadNativeU64At`; see "Findings"). The scenarios' read-back claims for `hostBigEndian = true` hold for the little-endian reader, not for that helper.
- The real `std::streampos` limit is kept. Every writing method requires that the file stays within 2^63 - 1 bytes; the source does not check this.
- OvfWriter.JobWriter.AppendWorkPlane requires that the job has no open work-plane writer. The source does not check this: a second open plane would interleave its records with the first's and take the same work-plane number.
- OvfWriter.JobWriter.Finalize and OvfWriter.JobWriter.Destroy require that no work-plane writer is open. In the source, scoping destroys plane writers first. A job finalized early would list a plane whose slot is never backpatched.
- OvfWriter.WorkPlaneWriter.Finalized: does not restate the bytes after a plane closes. Those are stated by `OvfLayout.PlaneClosed`, `OvfWriter.ClosePlane` and the job's `Valid`, which `Finalize`, `Destroy` and `MoveAssign` ensure after closing a plane.
- The private constructor and `friend` access (OvfWriterLib/OvfWriter.h:53-54, 94-97) are not modelled as access control. `AppendWorkPlane` is the only method the scenarios use to open a plane.
- The deleted copy operations (OvfWriterLib/OvfWriter.h:48-50, 89-91) have no counterpart. Dafny objects are references and are never copied.
- Moving a `JobWriter` is deleted in the source and absent here.
- Destructors run implicitly at the end of scope in C++. Here they are the explicit `Destroy` methods, called in the order C++ scoping calls them.
- A `WorkPlaneWriter` keeps only the vector blocks' record bodies (ghost state). The reader gives back bodies, and `Codec.ParseVectorBlock` turns them into blocks.

## Findings

| source | as written | input that shows it | evidently intended | confidence | as-written member | corrected member |
|---|---|---|---|---|---|---|
| CadToOvfConverterTests/TestFixtures.h:36-42 | the offset reader reinterprets the 8 bytes as a native `uint64_t`, so it decodes in host byte order, while the writer always writes little-endian | the finished square file on a big-endian host: in the model's record layout its Job LUT offset is 132, so bytes [4, 12) are `84 00 00 00 00 00 00 00`, which the helper reads as 0x8400_0000_0000_0000 | decode the 8 bytes as little-endian on every host, mirroring `WriteLittleEndian` | not executed; high | OvfReader.NativeMisreadsOnBigEndianHost | OvfReader.ReadU64At |
