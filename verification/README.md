# Clipboard helper: verified model

The helper moves clipboard content between an operating system's clipboard and a parent process, lazily: a copy is
announced by a hash, and its bytes are asked for only when somebody pastes. This project models the parts of the helper
that do not depend on an operating-system call and proves what they are for. `dafny verify dfyconfig.toml` checks all
of it.

| file | what it models |
|---|---|
| `bytes.dfy`, `layout.dfy` | bytes, fixed-width integers, decimal numbers, little-endian fields in buffers |
| `proto_wire.dfy` | the Protocol Buffers wire layer: `Writer`, `Reader`, and the grammar both meet |
| `dispatch_codec.dfy` | the HelperMessage encoders and decoders |
| `framing.dfy` | length-prefixed frames: the macOS incremental reader, the Linux exact read and write loops |
| `file_download.dfy` | the macOS pipelined download and the chunk server |
| `transfer_coordinator.dfy` | the macOS coordinator: downloads under keys, their replies, completions and cancels |
| `virtual_stream.dfy` | the Windows IStream over a remote file |
| `chunk_provider.dfy` | correlating chunk replies with nested fetches on Windows |
| `remote_read.dfy` | reads over the chunk provider, of one stream and of many with clones, with anything in between |
| `render_protocol.dfy` | delayed rendering on Windows: announce, request, provide, cache |
| `wayland_clipboard.dfy` | delayed pasting on Wayland: shared state and detached workers |
| `data_object_refs.dfy` | references to the data object behind a virtual-file clipboard |
| `pipe_writer.dfy`, `work_queue.dfy` | the outbound queue with its writer thread; the re-entrant work queue |
| `uri_list.dfy`, `dib.dfy`, `shell_layouts.dfy` | URI lists; DIB and DIBV5 bitmaps; descriptor arrays and drop lists |

Concurrent parts follow one pattern. A class has the fields of the source's object and one method for each piece of code
that runs under one acquisition of a lock (or between two calls that can re-enter); each method is proved equal to a
function on a `State`. A run is any sequence of such steps. A log records what the outside world saw, and an invariant
over all runs says which entries are justified by the entries before them. What a step does in any run is also stated
without those functions, in log entries, bytes and plain numbers (`BeginServes`, `CancelTakes`, `FetchEnds`, `WaitEnds`,
`EventEnds` and their like).

## Where code and text disagree

The model follows the code.

- FileTransferCoordinator.swift:31 says a download finishes when the received bytes equal the file size; the code
  (lines 387-402) finishes when no request is in flight and none is left to send, and its comment there takes that rule
  to be safe against a repeated chunk. With a repeated or short reply it too reports success over a file with holes
  (`DuplicateReplyEndsShort`, `ShortReplyEndsShort`); it is right exactly when the replies cover every byte
  (`SuccessIsWholeIffCovered`).
- FileTransferCoordinator.swift:112-114 says a download leaves the table when, and only when, its own task decides it is
  done. A second start under one key takes the entry over, and then receives the replies to both: over some ids every
  success is right in every run exactly when ids that share a key name one file of at most one chunk
  (`AlwaysWholeIffHarmless`, `StartedTwiceEndsShort`). And a completion that runs late takes out the entry of a newer
  download, which then never ends (`LateRemovalHangs`, and exactly then, `HangsIffTakenOut`). Without such starts every
  success is right and no download hangs (`CleanRunsDeliver`, `NothingHangs`).
- dispatch.cpp:309-311 says a `|` in an id can only lose a reply; it can also deliver another file's bytes
  (`BarMixesFiles`). It does so for some run exactly when two pairs of ids read the same around the bar
  (`OwnFileIffUnambiguous`), which transfer ids without `|` never do.
- dispatch.cpp:344 says DeliverChunk pops the queue's front; it leaves the slot in place until its fetch returns.
- clipboard_manager_ext.cpp:441-442 and 491-493 say superseded workers leave by the Stale outcome; that outcome is
  unreachable (`NeverStale`, `WakeWorker`) and such workers keep waiting (`SupersededKeepsWaiting`).
- pipe_server.cpp:359-362 says a reply appears before frames its handler enqueued; the queue is first in, first out, so
  it appears after them (`WiresInOrder`).
- clipboard_ops.cpp:675-680 says an unterminated name cannot be read past its slot; the scan stops only at the next NUL
  anywhere behind (`LongNameHappens`, `OverrunHappens`). It stays inside exactly when every counted field holds a
  terminator (`NamesInsideIffTerminated`).
- A snapshot with a data object and no virtual file is published as a list of paths and its reference is never released;
  `LeakHappens` is such a run, and `IdleBalanced` shows this is the only leak.
- A Seek that runs while a Read of the same stream waits for its chunk is not refused, and the cursor then ends past the
  seek's target (`SeekLost`); the seek holds exactly when no read is in flight or its reply brings no byte
  (`SeekInsideRead`).
- dispatch.cpp:1097-1101 compares hashes after the wait to keep other content out of a format; a hash announced again
  under another kind passes that check (`RenderProtocol.KindSwitched`, and exactly then, `KindsKeptIffOneKind`). On
  Wayland a paste is given the kind of the moment its payload arrives, and the same holds (`WaylandClipboard.KindSwitched`,
  `KindsKeptIffOneKind`).
- dispatch.cpp:942-943 keeps an empty answer like any other: it takes away the data accepted before it, and a render that
  has already woken is served nothing (`EmptyAnswerLoses`).
- dispatch.cpp:1110-1111 serves the cache to a woken render; no run gets there, because a render that wakes is the first
  to be served since the announcement (`FinishServes`), and the renders around it take the cache after their message loop
  (`OuterRendersServed`).
- SocketServer.swift:93-104 writes header and body whatever became of the write before: a message arrives exactly when
  all writes went out whole (`FramesArrive`).

## Model

| member | source | states |
|---|---|---|
| `ProtoWire.Writer.WriteVarint` | linux/src/proto_wire.cpp:9-15 | the byte loop appends exactly the base-128 form of the value |
| `ProtoWire.VarintRoundTrip` | linux/src/proto_wire.cpp:9-15 | a written uint64 followed by any bytes reads back as itself and reading stops at the suffix; 1 to 10 bytes |
| `ProtoWire.VarintMinimal` | linux/src/proto_wire.cpp:9-15 | no shorter byte sequence reads as the same value: the written form is minimal |
| `ProtoWire.Int32RoundTrip` | linux/src/proto_wire.cpp:24-32 | every int32 survives its sign-extended 64-bit form, ten bytes when negative |
| `ProtoWire.VarintMeaning` | linux/src/proto_wire.cpp:74-85 | any bytes read as base-128 digits, low digits first, up to the first byte below 128, cut to 64 bits; no such byte among the first ten is an error |
| `ProtoWire.FieldByByte` | linux/src/proto_wire.cpp:17-70 | a written field byte by byte: the number above three bits of wire type, then the payload |
| `ProtoWire.FieldMeaning` | linux/src/proto_wire.cpp:87-127 | what any bytes read as, by wire type 0, 1, 2 and 5; the other four types and cut payloads are errors |
| `ProtoWire.Reader.ReadVarint` | linux/src/proto_wire.cpp:74-88 | on any bytes the loop agrees with the grammar and keeps the position inside the buffer |
| `ProtoWire.Reader.SkipField` | linux/src/proto_wire.cpp:108-127 | skipping consumes exactly one payload of the wire type, or fails when it is incomplete or unknown |
| `ProtoWire.FieldsRoundTrip` | linux/src/proto_wire.cpp:9-70 | a printed field sequence scans back to the same fields in the same order |
| `ProtoWire.ScanFieldsConcat` | linux/src/proto_wire.cpp:74-127 | scanning a concatenation of complete field sequences is scanning each: reading is local |
| `DispatchCodec.DecodeConcat` | windows/src/dispatch_codec.cpp:206-251 | parsing two buffers in a row is parsing the second from the state the first left |
| `DispatchCodec.ForwardCompatible` | windows/src/dispatch_codec.cpp:206-279 | fields a decoder ignores, inserted at any field boundary, change nothing |
| `DispatchCodec.UnknownFieldSkipped` | windows/src/dispatch_codec.cpp:206-279 | one encoded unrecognised field of any wire type, at any boundary, leaves the parse unchanged |
| `DispatchCodec.HelperIgnores` | windows/src/dispatch_codec.cpp:206-251 | ignored are exactly the unknown numbers and the known numbers with another wire type |
| `DispatchCodec.HelperMessageMeaning` | windows/src/dispatch_codec.cpp:206-251 | the type and each of the five sub-messages are the last ones on the wire |
| `DispatchCodec.ClipboardDataIgnores` | windows/src/dispatch_codec.cpp:253-279 | the same for ClipboardData |
| `DispatchCodec.ChunkDataIgnores` | windows/src/dispatch_codec.cpp:435-480 | the same for FileChunkData |
| `DispatchCodec.ChunkRequestIgnores` | windows/src/dispatch_codec.cpp:399-433 | the same for FileChunkRequest |
| `DispatchCodec.MetadataIgnores` | windows/src/dispatch_codec.cpp:319-372 | the same for FileMetadata |
| `DispatchCodec.ParseHelperMessage` | windows/src/dispatch_codec.cpp:206-251 | the loop succeeds exactly on well-formed buffers and folds the fields in wire order |
| `DispatchCodec.ParseClipboardData` | windows/src/dispatch_codec.cpp:253-279 | the same for ClipboardData with its repeated files |
| `DispatchCodec.ClipboardDataMeaning` | windows/src/dispatch_codec.cpp:253-279 | the last content type and the last payload win, repeated files are kept in wire order |
| `DispatchCodec.ParseFileMetadataForVirtualFile` | windows/src/dispatch_codec.cpp:319-372 | a file specification comes out exactly when the entry is well formed and has an id and a name |
| `DispatchCodec.MetadataMeaning` | windows/src/dispatch_codec.cpp:319-372 | every field of an entry is the last value on the wire |
| `DispatchCodec.SpecMeaning` | windows/src/dispatch_codec.cpp:319-372 | the specification an entry yields: its last id, name, size and directory flag, and none without an id or a name |
| `DispatchCodec.ParseFileChunkRequest` | windows/src/dispatch_codec.cpp:399-433 | the loop succeeds exactly on well-formed buffers and folds the fields in wire order |
| `DispatchCodec.ChunkRequestMeaning` | windows/src/dispatch_codec.cpp:399-433 | every field of a request is the last value on the wire |
| `DispatchCodec.ParseFileChunkData` | windows/src/dispatch_codec.cpp:435-480 | the loop succeeds exactly on well-formed buffers and folds the fields in wire order |
| `DispatchCodec.ChunkDataMeaning` | windows/src/dispatch_codec.cpp:435-480 | every field of a chunk is the last value on the wire |
| `DispatchCodec.ExtractRelativePath` | windows/src/dispatch_codec.cpp:482-499 | the loop returns what the first-wins reading of the entry returns, malformed tails included |
| `DispatchCodec.FirstWins` | windows/src/dispatch_codec.cpp:482-499 | on well-formed entries that is the first occurrence, unlike the other decoders |
| `DispatchCodec.EncodeClipboardData` | windows/src/dispatch_codec.cpp:99-134 | the writer prints the snapshot's fields, one sub-message per file, then per virtual file |
| `DispatchCodec.EncodeFileChunkRequest` | windows/src/dispatch_codec.cpp:160-177 | the frame is the printed envelope of the printed request |
| `DispatchCodec.EncodeFileChunkData` | windows/src/dispatch_codec.cpp:179-202 | the frame is the printed envelope of the printed chunk |
| `DispatchCodec.EnvelopeRoundTrip` | windows/src/dispatch_codec.cpp:136-144 | parsing an envelope gives its type and exactly its one sub-message, even an empty one |
| `DispatchCodec.FileChunkRequestRoundTrip` | windows/src/dispatch_codec.cpp:160-177 | outer then inner parse of a request frame returns every id, offset and size, defaults included |
| `DispatchCodec.FileChunkDataRoundTrip` | windows/src/dispatch_codec.cpp:179-202 | outer then inner parse of a chunk frame returns ids, offset, payload, flag and error text |
| `DispatchCodec.ClipboardFrameRoundTrip` | windows/src/dispatch_codec.cpp:99-144 | a clipboard frame gives back content type, payload and files in order |
| `DispatchCodec.SnapshotReadBack` | windows/src/dispatch_codec.cpp:99-144 | what the parent decodes for each kind of snapshot: type 0 and nothing, 1 and the text, 2 and the image, 3 and one entry per file, each with its position, name, path and size |
| `DispatchCodec.EnvelopeOnWire` | windows/src/dispatch_codec.cpp:136-144 | the fields of an envelope by number: type 1, the sub-message even when empty, timestamp 7 unless zero |
| `DispatchCodec.SnapshotOnWire` | windows/src/dispatch_codec.cpp:99-134 | the fields of a snapshot by number: content type 1, payload 2, one field 4 per file |
| `DispatchCodec.PathOnWire` | windows/src/dispatch_codec.cpp:57-83 | the fields of a file on disk by number: position 1, base name 2, path 3, size 4 |
| `DispatchCodec.VirtualOnWire` | windows/src/dispatch_codec.cpp:85-97 | the fields of a virtual file by number: position 1, name 2, size 4, and no path |
| `DispatchCodec.ChunkRequestOnWire` | windows/src/dispatch_codec.cpp:160-177 | the fields of a request frame by number: type 15, sub-message 8 with ids 1 and 2, offset 3, size 4 |
| `DispatchCodec.ChunkDataOnWire` | windows/src/dispatch_codec.cpp:179-202 | the fields of a chunk frame by number: type 16, sub-message 9 with ids 1 and 2, offset 3, data 4, last flag 5, error 6 |
| `DispatchCodec.VirtualFilesRoundTrip` | windows/src/dispatch_codec.cpp:85-134 | each virtual file reads back in its place with its position as id; a nameless one is refused |
| `DispatchCodec.PathsRoundTrip` | windows/src/dispatch_codec.cpp:57-134 | each file on disk reads back in its place under its path, by both readers of paths |
| `Framing.SocketReader.ProcessFrames` | macos/Sources/ClipboardHelper/SocketServer.swift:169-197 | the loop hands out and leaves over what parsing the buffer yields |
| `Framing.ParseConcat` | macos/Sources/ClipboardHelper/SocketServer.swift:156-197 | parsing a stream in two parts, carrying the leftover, is parsing it at once |
| `Framing.ParseRest` | macos/Sources/ClipboardHelper/SocketServer.swift:169-197 | what is left over never holds a complete frame: fewer bytes than its header announces, or a header above the cap exactly when the parse stopped for it |
| `Framing.ParseWhole` | macos/Sources/ClipboardHelper/SocketServer.swift:169-197 | parsing loses no byte: the frames encoded again, then the leftover, are the stream |
| `Framing.FramesRoundTrip` | macos/Sources/ClipboardHelper/SocketServer.swift:90-104 | frames encoded back to back parse into the same bodies with nothing left |
| `Framing.ReadsAreParse` | macos/Sources/ClipboardHelper/SocketServer.swift:156-197 | after any reads, the frames delivered are those of the whole stream up to the first header above 64 MiB |
| `Framing.EndOfFileStops` | macos/Sources/ClipboardHelper/SocketServer.swift:156-163 | from an empty read on nothing more is handed out, whatever follows |
| `Framing.FragmentationIndependent` | macos/Sources/ClipboardHelper/SocketServer.swift:156-197 | two ways of cutting a stream deliver the same frames and keep the same leftover |
| `Framing.WriteAll` | macos/Sources/ClipboardHelper/SocketServer.swift:199-212 | the loop puts a prefix of the data on the wire and stops short exactly at one write that takes nothing, saying nothing about it |
| `Framing.SendMessage` | macos/Sources/ClipboardHelper/SocketServer.swift:90-104 | a prefix of the header, then a prefix of the body even behind a broken header; each is short exactly for one write that took nothing |
| `Framing.FramesArrive` | macos/Sources/ClipboardHelper/SocketServer.swift:90-212 | what send puts on the wire for messages within the cap, cut anywhere, arrives as exactly those messages if and only if no write broke off; those before the first that did arrive in any case |
| `Framing.ReadExact` | linux/src/socket_server.cpp:250-266 | short reads and interruptions leave no trace: success is exactly the next bytes of the stream |
| `Framing.WriteExact` | linux/src/socket_server.cpp:268-281 | success puts exactly the data on the wire, failure a proper prefix of it |
| `Framing.ReadFrame` | linux/src/socket_server.cpp:283-308 | success takes exactly one encoded frame off the stream; failure means a broken socket, an oversized header or a body buffer that cannot be allocated |
| `Framing.WriteFrame` | linux/src/socket_server.cpp:310-323 | success appends exactly one encoded frame, failure a proper prefix of it; an oversized body writes nothing |
| `Framing.ReadSession` | linux/src/socket_server.cpp:209-224 | the frames of a session are the first ones of the whole-stream parse and the wire holds the replies to them; it ends when a stop is seen, when a read fails (broken socket, failed allocation, or oversized header with all frames read), or when a reply fails (broken socket or reply above the cap), with a proper prefix of that reply sent |
| `FileDownload.FileDownloadTask.PrimeRequests` | macos/Sources/ClipboardHelper/FileTransferCoordinator.swift:313-326 | the window loop is the priming function, so the run theorems apply to it |
| `FileDownload.FileDownloadTask.HandleChunkData` | macos/Sources/ClipboardHelper/FileTransferCoordinator.swift:328-407 | one reply is one step: error, empty reply, a write that breaks off with any number of bytes on disk, success and completion |
| `FileDownload.EveryRunSound` | macos/Sources/ClipboardHelper/FileTransferCoordinator.swift:276-434 | in any mix of replies, errors and cancels: at most 4 in flight, and exactly 4 unless the whole file is asked for; offsets 0, 262144, ... below the size each sent once; at least one out while unfinished; one completion exactly when finished |
| `FileDownload.StartsAs` | macos/Sources/ClipboardHelper/FileTransferCoordinator.swift:276-307 | an empty file is done, one that cannot be created has failed, any other asks for its first chunks |
| `FileDownload.EventEnds` | macos/Sources/ClipboardHelper/FileTransferCoordinator.swift:328-434 | in any run, what one more event does: a server error, a write error with its first bytes on disk, a cancel, or a written chunk that ends the download as done exactly when it answers the last request of a file wholly asked for; nothing after the end |
| `FileDownload.DownloadEnds` | macos/Sources/ClipboardHelper/FileTransferCoordinator.swift:313-434 | as many replies as 262144-byte chunks, or a cancel, end the download with one report |
| `FileDownload.HonestDisk` | macos/Sources/ClipboardHelper/FileTransferCoordinator.swift:328-407 | true replies in any order leave on disk exactly the bytes they covered |
| `FileDownload.SuccessIsWholeIffCovered` | macos/Sources/ClipboardHelper/FileTransferCoordinator.swift:387-402 | a finished download has the right file exactly when the replies covered every byte |
| `FileDownload.DuplicateReplyEndsShort` | macos/Sources/ClipboardHelper/FileTransferCoordinator.swift:387-402 | a repeated reply ends a two-chunk download as a success with a byte missing |
| `FileDownload.ShortReplyEndsShort` | macos/Sources/ClipboardHelper/FileTransferCoordinator.swift:387-402 | one short reply ends a download as a success with a byte missing |
| `FileDownload.ExactlyOnceDelivers` | macos/Sources/ClipboardHelper/ClipboardHelperApp.swift:420-478 | each request answered once by the server's slice, in any order: success exactly at the last of ceil(size/C) replies, the disk then equals the source, and before that some request is open |
| `FileDownload.CanFinish` | macos/Sources/ClipboardHelper/FileTransferCoordinator.swift:313-407 | every legal order of replies extends to one that finishes |
| `FileDownload.EmptyFileDone` | macos/Sources/ClipboardHelper/FileTransferCoordinator.swift:276-307 | an empty file is reported done without a request |
| `FileDownload.ServedSlice` | macos/Sources/ClipboardHelper/ClipboardHelperApp.swift:420-478 | an answer is the slice at the offset of the size asked for, 262144 bytes when none is given, or what is left; it is marked last exactly when it reaches the end |
| `FileDownload.ReadInTurnReads` | macos/Sources/ClipboardHelper/ClipboardHelperApp.swift:420-478 | a client that asks for any sizes in turn gets the file from the offset on, as far as it asked, and the last answer is marked exactly when that reaches the end |
| `TransferCoordinator.FileTransferCoordinator.StartFileDownload` | macos/Sources/ClipboardHelper/FileTransferCoordinator.swift:102-142 | a start registers its task under the key, over whatever is registered there, and sends its first requests |
| `TransferCoordinator.FileTransferCoordinator.HandleChunkData` | macos/Sources/ClipboardHelper/FileTransferCoordinator.swift:154-160 | a reply is handed to the download registered under its key, or to nobody |
| `TransferCoordinator.FileTransferCoordinator.RemoveFinished` | macos/Sources/ClipboardHelper/FileTransferCoordinator.swift:118-122 | the completion of a finished download takes out its key, whichever download is registered there |
| `TransferCoordinator.FileTransferCoordinator.CancelTransfer` | macos/Sources/ClipboardHelper/FileTransferCoordinator.swift:165-175 | the loop cancels and takes out exactly the downloads whose key begins with the transfer id and a slash |
| `TransferCoordinator.CancelTakes` | macos/Sources/ClipboardHelper/FileTransferCoordinator.swift:165-175 | in every run a cancel of a transfer ends and unregisters exactly the registered downloads whose joined ids begin with its id and a slash, and leaves every other download and registration as it was |
| `TransferCoordinator.OwnTransferTaken` | macos/Sources/ClipboardHelper/FileTransferCoordinator.swift:165-175 | so every registered download of that transfer is cancelled, whatever its file id |
| `TransferCoordinator.OtherTransferSpared` | macos/Sources/ClipboardHelper/FileTransferCoordinator.swift:165-175 | and a download of another transfer keeps its task and its registration when neither id holds a slash |
| `TransferCoordinator.CleanRunsDeliver` | macos/Sources/ClipboardHelper/FileTransferCoordinator.swift:102-175 | in every run in which no key is started while requests under it are open, every download reported as done has the right file, whatever else is started, fails, errs or is cancelled |
| `TransferCoordinator.NothingHangs` | macos/Sources/ClipboardHelper/FileTransferCoordinator.swift:102-175 | if moreover no key is started before the completion of its last download has run, an unfinished download has a request of its own open and is the one its answer will reach |
| `TransferCoordinator.RegisteredUnlessTakenOut` | macos/Sources/ClipboardHelper/FileTransferCoordinator.swift:102-175 | in such a run an unfinished download is still registered if and only if no completion of an earlier download under its key has run since it was started |
| `TransferCoordinator.HangsIffTakenOut` | macos/Sources/ClipboardHelper/FileTransferCoordinator.swift:102-175 | in a run in which no key is started while requests are open under it: an unfinished download never ends, whatever follows, if a completion of an earlier download under its key has run since it was started; otherwise it is registered and has a request of its own open |
| `TransferCoordinator.AllDelivered` | macos/Sources/ClipboardHelper/FileTransferCoordinator.swift:102-175 | so when all is answered and nothing went wrong, every download has succeeded once with the right file |
| `TransferCoordinator.AlwaysWholeIffHarmless` | macos/Sources/ClipboardHelper/FileTransferCoordinator.swift:102-160 | without any discipline: over some ids every success is right in every run if and only if ids that share a key name one file of at most one chunk, empty files apart |
| `TransferCoordinator.StartedTwiceEndsShort` | macos/Sources/ClipboardHelper/FileTransferCoordinator.swift:102-160 | for every file of two or more chunks a run that starts it twice ends the second download as a success without the last chunk |
| `TransferCoordinator.OtherFileServed` | macos/Sources/ClipboardHelper/FileTransferCoordinator.swift:102-160 | two ids with one key: the second download ends as a success with the first one's file |
| `TransferCoordinator.LateRemovalHangs` | macos/Sources/ClipboardHelper/FileTransferCoordinator.swift:112-160 | a run without errors in which a finished download's completion takes out the next one, whose only answer is then lost |
| `VirtualStream.VirtualFileStream.Seek` | windows/src/virtual_file_provider.cpp:345-400 | the unsigned 64-bit arithmetic meets the exact integer cursor for every move, the most negative included: success exactly for targets in 0..2^63-1, otherwise the position stays |
| `VirtualStream.SeekTold` | windows/src/virtual_file_provider.cpp:345-400 | where a seek from the start (0), the cursor (1) or the end (2) leads, and the two errors that leave the cursor alone |
| `VirtualStream.VirtualFileStream.Read` | windows/src/virtual_file_provider.cpp:214-336 | a read is the two halves around the provider's answer, with every early return |
| `VirtualStream.ReadTold` | windows/src/virtual_file_provider.cpp:214-336 | for every provider: the request a read makes, the early returns, a refusal passed on with the cursor unmoved, an error for an empty chunk, S_FALSE exactly at the end of the file |
| `VirtualStream.EndTold` | windows/src/virtual_file_provider.cpp:257-336 | what each answer makes of the read that waits for it |
| `VirtualStream.HonestRead` | windows/src/virtual_file_provider.cpp:214-336 | from an honest provider a read returns the next bytes of the file, at least one unless none is left or asked for, and S_FALSE exactly at the end |
| `VirtualStream.ReadsDeliver` | windows/src/virtual_file_provider.cpp:214-336 | reads in sequence deliver the file from the cursor on without gap or overlap, reaching the end in no more reads than bytes are left |
| `VirtualStream.VirtualFileStream.CopyTo` | windows/src/virtual_file_provider.cpp:405-441 | for every provider a copy asks in blocks of 256 KiB and, unless it fails with what the provider or the destination failed with, has read cb bytes or reached the end; from an honest one it reads exactly the next cb bytes or what is left, and the destination has exactly them if and only if the totals agree |
| `VirtualStream.VirtualFileStream.Clone` | windows/src/virtual_file_provider.cpp:487-501 | a clone is a separate stream at the same position with no read in flight |
| `VirtualStream.RequestsInFile` | windows/src/virtual_file_provider.cpp:231-252 | however calls nest and whatever the provider answers, no request reaches past the file |
| `VirtualStream.SeekInsideRead` | windows/src/virtual_file_provider.cpp:244-400 | a granted seek is where the cursor is after the reply in flight exactly when no read was in flight or the reply holds no byte |
| `VirtualStream.SeekLost` | windows/src/virtual_file_provider.cpp:244-400 | a run in which a seek to 5 inside a read leaves the cursor at 6 |
| `VirtualStream.CallsFollowFile` | windows/src/virtual_file_provider.cpp:214-501 | over any sequence of seeks, reads and clones on all streams that come about, every read returns the file's bytes at the cursor, clipped, at least one unless none is left or asked for, and S_FALSE exactly at the end |
| `VirtualStream.CallMoves` | windows/src/virtual_file_provider.cpp:214-501 | each call moves its own stream as the exact cursor moves, and no other; a clone starts where its origin stands |
| `VirtualStream.FetchesAreHonest` | windows/src/virtual_file_provider.cpp:257-260 | the honest provider is the chunk provider: with unambiguous ids and true deliveries, errors apart, each successful fetch is an honest answer to the request it was staged for |
| `RemoteRead.BlocksAreOfFile` | windows/src/virtual_file_provider.cpp:214-336 | reads over the chunk provider, with any other fetches, deliveries, errors, cancels and seeks between and inside them: every block returned is the file's at the position where the read began |
| `RemoteRead.BlocksJoinToFile` | windows/src/virtual_file_provider.cpp:214-336 | without seeks the blocks joined are the file up to the cursor, all of it at the end, and each brings the end nearer |
| `RemoteRead.EveryBlockIsOwn` | windows/src/virtual_file_provider.cpp:214-501 | any number of streams of any files, clones included, over one provider run: every block any of them returns is a piece of its own file at the position where the read began |
| `RemoteRead.StreamsDeliver` | windows/src/virtual_file_provider.cpp:214-501 | without seeks what each of them has returned is its own file from where it came about to its cursor, whatever the others do |
| `RemoteRead.ReadAnswered` | windows/src/virtual_file_provider.cpp:214-336 | a read whose request is answered returns the bytes of the answer, not more than asked for, as its block and moves behind them; an error ends it where it began |
| `ChunkProvider.KeysAgree` | windows/src/dispatch.cpp:312-323 | two keys agree exactly when the offsets agree and the ids read the same around a bar |
| `ChunkProvider.KeyInjective` | windows/src/dispatch.cpp:312-323 | for transfer ids without a bar the key tells the triple apart |
| `ChunkProvider.DispatcherChunkProvider.StageRequest` | windows/src/dispatch.cpp:103-135 | staging appends one new slot to the queue of its key |
| `ChunkProvider.DispatcherChunkProvider.DeliverChunk` | windows/src/dispatch.cpp:240-264 | a delivery fills the front slot of its key, or nothing |
| `ChunkProvider.DispatcherChunkProvider.CancelAll` | windows/src/dispatch.cpp:273-287 | the nested loops mark every slot in flight and no other |
| `ChunkProvider.DispatcherChunkProvider.FinishFetch` | windows/src/dispatch.cpp:175-233 | the outcome of a fetch, and its slot removed from its queue, an empty queue with it |
| `ChunkProvider.PendingIsInFlight` | windows/src/dispatch.cpp:103-337 | in every interleaving the pending map is exactly the requests in flight, in staging order, without empty queues |
| `ChunkProvider.DeliveryReachesOldest` | windows/src/dispatch.cpp:240-264 | a delivery changes the oldest request of its key and nothing else, and with none in flight nothing at all |
| `ChunkProvider.FetchReturnsOwnData` | windows/src/dispatch.cpp:103-233 | S_OK returns data delivered under the fetch's own key since it was staged |
| `ChunkProvider.FetchEnds` | windows/src/dispatch.cpp:192-233 | how a fetch ends, told from what happened since it was staged: by its last answer, even one that came before a cancel; without one reverted if cancelled and failed if not; aborted on a quit |
| `ChunkProvider.FetchReturnsOwnFile` | windows/src/dispatch.cpp:103-233 | when no two id pairs of a run read the same around the bar, S_OK returns data delivered for the fetch's own transfer, file and offset |
| `ChunkProvider.OwnFileIffUnambiguous` | windows/src/dispatch.cpp:103-323 | every run over some ids returns own files if and only if the ids are unambiguous |
| `ChunkProvider.BarFreeUnambiguous` | windows/src/dispatch.cpp:304-311 | transfer ids without a bar are unambiguous |
| `ChunkProvider.TrueDeliveries` | windows/src/dispatch.cpp:103-264 | deliveries that, errors apart, are true pieces of the files they name make every fetch return a true piece of its own file |
| `ChunkProvider.StagedOnce` | windows/src/dispatch.cpp:103-135 | a request number stands for one transfer, file and offset |
| `ChunkProvider.CancelOnlyEarlier` | windows/src/dispatch.cpp:273-287 | a request is cancelled exactly when CancelAll ran since it was staged |
| `ChunkProvider.CancelReaches` | windows/src/dispatch.cpp:103-287 | a cancel marks every request in flight and nothing else; a stage adds one unmarked request, and none without ids |
| `ChunkProvider.BarMixesFiles` | windows/src/dispatch.cpp:309-323 | with a bar in an id a fetch can return another file's bytes |
| `RenderProtocol.Dispatcher.HandleAnnounceDelayed` | windows/src/dispatch.cpp:765-790 | an announcement replaces hash and kind and clears response, cache and event |
| `RenderProtocol.Dispatcher.HandleProvideData` | windows/src/dispatch.cpp:918-944 | data is kept exactly when its hash is the pending one, and then the event is set |
| `RenderProtocol.Dispatcher.OnRenderFormat` | windows/src/dispatch.cpp:946-1010 | the start of a render: its snapshot, the cache, the pending response, cache-only, or a request |
| `RenderProtocol.BeginServes` | windows/src/dispatch.cpp:946-1022 | over all runs, how a render of format 13 (text) or 8 or 17 (image) begins: served what was served last since the announcement, else the non-empty data accepted last, else it asks, or with cache-only leaves the slot empty; other formats and other kinds do nothing |
| `RenderProtocol.SendAsks` | windows/src/dispatch.cpp:1020-1026 | a render that asks sends the request for its own hash and waits, or gives up when no client is there |
| `RenderProtocol.WaitMoves` | windows/src/dispatch.cpp:1035-1094 | a wait ends on a message, on the event when it is set, or by giving up, which decides nothing |
| `RenderProtocol.Dispatcher.FinishAfterWake` | windows/src/dispatch.cpp:1060-1117 | the end of a render: what it adopts and serves, or that it serves nothing |
| `RenderProtocol.ServedIsAnnounced` | windows/src/dispatch.cpp:946-1116 | in every run, at the moment a render decides under the lock what to serve, those bytes had been accepted since the last announcement under the hash the render snapshotted |
| `RenderProtocol.FilledIsServed` | windows/src/dispatch.cpp:1117-1140 | what then fills the slot, outside the lock, is what its render decided on |
| `RenderProtocol.RendersAgree` | windows/src/dispatch.cpp:946-1116 | whatever the parent answers and however renders nest on the STA thread, all renders served between two announcements are served the same bytes |
| `RenderProtocol.OuterRendersServed` | windows/src/dispatch.cpp:1048-1082 | once a render was served, every render of the same hash around it is served the same bytes and fills its slot with them as the stack unwinds |
| `RenderProtocol.KindsKeptIffOneKind` | windows/src/dispatch.cpp:971-1116 | renders decide for the kind that is announced in every run over some announcements if and only if no renderable hash among them has two kinds |
| `RenderProtocol.KindSwitched` | windows/src/dispatch.cpp:1095-1116 | a hash announced again under another kind makes a waiting render show the answer to the second announcement |
| `RenderProtocol.NoRequestOnceServed` | windows/src/dispatch.cpp:946-1117 | once anything was served no request goes out until the next announcement; cache-only renders never send one |
| `RenderProtocol.AcceptedDataIsServed` | windows/src/dispatch.cpp:918-1116 | no signal is lost: once anything was accepted the innermost render, at its wait, can wake, and whatever the pipe thread does between its wake-up and its decision it is then served exactly its verdict; with nothing in between that is the non-empty data accepted last |
| `RenderProtocol.WakesOnNews` | windows/src/dispatch.cpp:765-944 | no render wakes for nothing: in every run the event is set exactly when something was accepted, or the render was cancelled, after the last announcement |
| `RenderProtocol.FinishServes` | windows/src/dispatch.cpp:1095-1116 | in every run a woken render is served exactly its verdict, the non-empty data accepted last for its hash if that is still announced, and is the first to be served since the announcement |
| `RenderProtocol.PumpServes` | windows/src/dispatch.cpp:1066-1082 | a render that has dispatched messages is served what has been decided on for its hash; otherwise it gives up when its hash is superseded and waits again when it is not |
| `RenderProtocol.EmptyAnswerLoses` | windows/src/dispatch.cpp:918-944 | a run of one render in which an empty answer behind the accepted one leaves the woken render without data |
| `RenderProtocol.ConsistentParent` | windows/src/dispatch.cpp:918-1117 | if the parent answers each hash with one content, empty answers apart, every render shows that content, whichever announcement of the hash it belongs to |
| `RenderProtocol.AgreeIffOneAnswer` | windows/src/dispatch.cpp:765-1116 | renders of one hash show the same data across all its announcements, in every run over some answers, if and only if no hash has two different non-empty ones among them |
| `RenderProtocol.AnsweredTwice` | windows/src/dispatch.cpp:765-1116 | a run that announces one hash twice and shows a different answer each time |
| `WaylandClipboard.ExtState.ProvideData` | linux/src/clipboard_manager_ext.cpp:480-501 | data is kept exactly for the current hash |
| `WaylandClipboard.ExtState.OnSourceSend` | linux/src/clipboard_manager_ext.cpp:602-657 | a paste is served at once from a matching payload, else requested and given to a worker |
| `WaylandClipboard.ExtState.WakeWorker` | linux/src/clipboard_manager_ext.cpp:241-272 | what a worker decides after its wait, the manager's destruction between its two looks included; never Stale |
| `WaylandClipboard.PayloadIsCurrent` | linux/src/clipboard_manager_ext.cpp:391-501 | in every reachable state a stored payload carries the current hash and is the latest for it |
| `WaylandClipboard.SelectionTaken` | linux/src/clipboard_manager_ext.cpp:391-501 | what a set, an announcement and provided data change: the current hash and kind, the payload, and nothing for another hash than the current one |
| `WaylandClipboard.SendServes` | linux/src/clipboard_manager_ext.cpp:602-657 | a paste is written in its form and closed when a payload for the current hash is here; otherwise the hash is requested and the paste waits |
| `WaylandClipboard.WaitEnds` | linux/src/clipboard_manager_ext.cpp:241-310 | how a wait ends: with the payload of its hash unless the manager stops, with nothing written on a stop or after ten seconds, and not at all otherwise |
| `WaylandClipboard.WritesWereCurrent` | linux/src/clipboard_manager_ext.cpp:241-310 | every write was taken while its captured hash was current, with the kind last selected and the latest payload, in its form: text as it is, an image as converted, files as a list that reads back as the lines of the payload |
| `WaylandClipboard.KindsKeptIffOneKind` | linux/src/clipboard_manager_ext.cpp:241-310 | pastes are given the kind selected when they were opened, in every run over some selections, if and only if no hash among them is selected under two kinds |
| `WaylandClipboard.KindSwitched` | linux/src/clipboard_manager_ext.cpp:241-310 | a hash announced again under another kind: a waiting paste gets the second answer in the form of the second kind |
| `WaylandClipboard.ClosedExactlyOnce` | linux/src/clipboard_manager_ext.cpp:241-310 | each paste descriptor is open or closed exactly once, and nothing is written after the close |
| `WaylandClipboard.PasteEnds` | linux/src/clipboard_manager_ext.cpp:241-310 | every open paste is closed once its wait is over |
| `WaylandClipboard.SupersededKeepsWaiting` | linux/src/clipboard_manager_ext.cpp:241-272 | through any run of steps without its payload, a stop or its timeout, replaced hashes included, a worker keeps waiting |
| `WaylandClipboard.LatePayloadIsWritten` | linux/src/clipboard_manager_ext.cpp:241-310 | a paste waiting for the current hash receives the payload then provided, whatever other pastes do in between |
| `DataObjectRefs.Dispatcher.UpdateFilePaths` | windows/src/dispatch.cpp:573-587 | paths replace the snapshot and the stored reference is released |
| `DataObjectRefs.Dispatcher.UpdateVirtualFiles` | windows/src/dispatch.cpp:589-601 | the new reference replaces the old one, which is released, with the ids of the new snapshot |
| `DataObjectRefs.SnapshotPublished` | windows/src/dispatch.cpp:553-601 | a snapshot read takes one reference; published with files it is what requests resolve against, without files or as a list of paths it leaves them nothing |
| `DataObjectRefs.PathsPublished` | windows/src/dispatch.cpp:573-587 | a list of paths is found under its positions as ids, each path under its own and nothing under any other |
| `DataObjectRefs.ShutdownReleases` | windows/src/dispatch.cpp:361-421 | shutdown takes the stored reference away from requests and then gives it back; without it the destructor does |
| `DataObjectRefs.Dispatcher.PinForRequest` | windows/src/dispatch.cpp:1172-1194 | a chunk request pins the stored object exactly when its id resolves to a virtual file |
| `DataObjectRefs.ByIdResolves` | windows/src/dispatch.cpp:597-600 | a file id stands for the position it spells and for no other |
| `DataObjectRefs.ReferencesConserved` | windows/src/dispatch.cpp:361-421 | in every interleaving the references held are one if stored plus one for each snapshot, read and shutdown in progress, plus the forgotten ones |
| `DataObjectRefs.NeverUsedDead` | windows/src/dispatch.cpp:1172-1216 | no read and no release goes to an object without a reference |
| `DataObjectRefs.PinsFollowSnapshot` | windows/src/dispatch.cpp:1172-1194 | a chunk request pins the object and the position its id spells in the current snapshot |
| `DataObjectRefs.PinServed` | windows/src/dispatch.cpp:1172-1194 | a request pins the k-th file of the published snapshot for the k-th id, and nothing for any other id |
| `DataObjectRefs.RequestServed` | windows/src/dispatch.cpp:1172-1216 | whatever is published in between, the pinned request reads that file and gives its reference back |
| `DataObjectRefs.UsesFollowPins` | windows/src/dispatch.cpp:1172-1216 | a chunk read uses the object and position of its own last pin, with a reference to that object, whatever was published since |
| `DataObjectRefs.IdleBalanced` | windows/src/dispatch.cpp:553-565 | when all is finished every reference was released exactly once, if and only if no snapshot without virtual files was published |
| `DataObjectRefs.LeakHappens` | windows/src/dispatch.cpp:553-565 | a run of two steps that ends idle with one reference kept |
| `PipeWriter.PipeServer.SendFrame` | windows/src/pipe_server.cpp:382-394 | a frame goes on to EnqueueOutbound exactly when a client is connected at that look |
| `PipeWriter.PipeServer.EnqueueOutbound` | windows/src/pipe_server.cpp:370-380 | and from there to the queue exactly when no stop is set at that later look |
| `PipeWriter.AcceptedIsQueued` | windows/src/pipe_server.cpp:370-394 | whatever the other threads do in between, a frame is put behind all others exactly when no stop was set at its check; after a stop it is dropped and nothing else changes |
| `PipeWriter.FrontFrameGoes` | windows/src/pipe_server.cpp:396-430 | in any run the writer takes the front frame to the client connected when it looks: on success it is on that wire and no other; without a client or after a failed write it is gone |
| `PipeWriter.EmptyQueue` | windows/src/pipe_server.cpp:396-408 | with nothing in the queue the writer waits on, and leaves once a stop is set |
| `PipeWriter.ClientChanges` | windows/src/pipe_server.cpp:432-497 | a client that connects is the one looked up from then on, with an empty wire; after a disconnect there is none |
| `PipeWriter.PipeServer.DrainOnStop` | windows/src/pipe_server.cpp:396-430 | after a stop, whenever the client leaves and whichever writes fail: the loop pops the whole queue in order, settles every frame and exits, and each wire grows by exactly the frames whose write to it succeeded, in order |
| `PipeWriter.DrainedWhole` | windows/src/pipe_server.cpp:396-430 | the whole queue reaches the client exactly when it stays and every write succeeds |
| `PipeWriter.QueueConserved` | windows/src/pipe_server.cpp:370-430 | the recorded pops, the frame in hand last, followed by the queue are the frames pushed, so each is popped at most once; all but the one in hand are settled |
| `PipeWriter.WiresInOrder` | windows/src/pipe_server.cpp:396-497 | each connection's wire holds exactly the popped frames whose write to it succeeded, in the order pushed, and earlier frames never go to later connections than later ones |
| `PipeWriter.ExitAfterDrain` | windows/src/pipe_server.cpp:396-414 | the writer leaves only after a stop, with every frame pushed by then settled |
| `WorkQueues.WorkQueue.Drain` | windows/src/work_queue.cpp:12-30 | the loop, with tasks that push, drain and drop, meets the queue's meaning; executed is the size of the snapshot, exceptions count its throwing tasks |
| `WorkQueues.CallsTold` | windows/src/work_queue.cpp:7-39 | what each call of a running task does: a push goes to the end, a drop empties the queue, a nested drain is a whole drain |
| `WorkQueues.PushedTasksWait` | windows/src/work_queue.cpp:12-30 | a drain over tasks that only push runs its snapshot and nothing else; what they push waits in order |
| `WorkQueues.ThrowingCounts` | windows/src/work_queue.cpp:12-30 | the exceptions counted are the throwing tasks of the snapshot |
| `WorkQueues.TasksConserve` | windows/src/work_queue.cpp:7-39 | every task pushed is run once, dropped once, queued, or held by a drain in progress |
| `WorkQueues.DrainConserves` | windows/src/work_queue.cpp:12-30 | over a whole drain no task is lost or doubled |
| `WorkQueues.SnapshotRuns` | windows/src/work_queue.cpp:12-30 | a drain runs every task of its snapshot, whatever those tasks do |
| `WorkQueues.DrainKeepsOrder` | windows/src/work_queue.cpp:12-39 | over an orderly set of tasks a drain runs its snapshot in the order pushed, and what was pushed and not dropped stays in that order |
| `WorkQueues.OrderKeptIffOrderly` | windows/src/work_queue.cpp:7-39 | for any set of tasks that contains what they push: every drain over them keeps the order if and only if none drains what it has just pushed and none drains what another left behind |
| `WorkQueues.NothingDropped` | windows/src/work_queue.cpp:7-39 | without drops, keeping the order means that what ran, followed by the queue, is what was pushed |
| `WorkQueues.NestedDrainOvertakes` | windows/src/work_queue.cpp:12-30 | a nested drain can run a later task before an earlier one |
| `UriList.PercentEncodePath` | linux/src/uri_list_format.cpp:16-30 | the loop computes the encoding |
| `UriList.DecodeEncode` | linux/src/uri_list_format.cpp:16-30 | percent-decoding gives the path back (RFC 3986 section 2.1) |
| `UriList.EncodedAlphabet` | linux/src/uri_list_format.cpp:8-30 | encoded text holds only letters, digits, - . _ ~ and slashes (RFC 3986 section 2.3) and percent signs; a path is its own encoding exactly when all its bytes are such |
| `UriList.EncodedByte` | linux/src/uri_list_format.cpp:8-30 | a plain byte stays itself, any other is a percent sign and two upper-case hexadecimal digits |
| `UriList.EncodedConcat` | linux/src/uri_list_format.cpp:16-30 | a path is encoded byte by byte |
| `UriList.ListText` | linux/src/uri_list_format.cpp:58-78 | both forms byte by byte: file:// before each path and CR LF behind it, or LF and file:// before each path after the word copy |
| `UriList.SplitPaths` | linux/src/uri_list_format.cpp:32-48 | the loop lists the non-empty lines without their final CR |
| `UriList.SplitText` | linux/src/uri_list_format.cpp:32-48 | lines are separated by LF, one CR is taken off the end of each, empty ones are left out |
| `UriList.FormatForMime` | linux/src/uri_list_format.cpp:80-95 | the form for the MIME type of the paths in the payload |
| `UriList.FormatRoundTrip` | linux/src/uri_list_format.cpp:58-95 | for every payload, reading either form back (RFC 2483 section 5) gives exactly the paths listed |
| `UriList.SplitInvertsJoin` | linux/src/uri_list_format.cpp:32-48 | splitting inverts joining exactly for non-empty paths without LF and without a final CR |
| `Dib.ReadClipboardDibToBgra` | windows/src/clipboard_ops.cpp:70-178 | accepts exactly the readable bitmaps and returns their rows |
| `Dib.ReadableExactly` | windows/src/clipboard_ops.cpp:70-147 | which blobs are accepted, field by field: header sizes, 24 or 32 bits, uncompressed or with masks, 1 to 16384 pixels each way, and every row present at its distance, the least multiple of 4 that holds a row |
| `Dib.EveryPixel` | windows/src/clipboard_ops.cpp:70-172 | each output byte, with all offsets written out, comes from inside the blob, behind header and masks, bottom-up rows reversed, padding skipped, alpha 255 where there is none |
| `Dib.PaddedRoundTrip` | windows/src/clipboard_ops.cpp:70-178 | an opaque image stored as 24-bit rows, bottom-up or top-down, with any padding bytes and any slack behind, reads back pixel for pixel |
| `Dib.BuildCfDibV5Payload` | windows/src/clipboard_format.cpp:112-154 | nothing for an illegal size or length, else header and pixels |
| `Dib.HeaderFields` | windows/src/clipboard_format.cpp:131-149 | every field of the header, and zero elsewhere |
| `Dib.BuiltExactly` | windows/src/clipboard_format.cpp:112-154 | a payload comes out exactly for 1 to 16384 pixels each way and all bytes present |
| `Dib.DibRoundTrip` | windows/src/clipboard_format.cpp:112-154 | reading a built payload, with any slack behind it, returns width, height and pixels |
| `ShellLayouts.ShownWellFormed` | windows/src/clipboard_format.cpp:82-106 | a well-formed name stays well formed (RFC 2781 section 2.1) and is cut no shorter than field and surrogates require |
| `ShellLayouts.BuildFileGroupDescriptorPayload` | windows/src/clipboard_format.cpp:46-110 | nothing for no or too many files, else the count and one filled slot per file |
| `ShellLayouts.SlotFilled` | windows/src/clipboard_format.cpp:57-106 | a slot of 592 bytes holds flags, attributes, time, size and name by offset, the name with backslashes for slashes and cut to the field, and nothing outside it changes |
| `ShellLayouts.GroupHolds` | windows/src/clipboard_format.cpp:46-110 | the built array: the count, and one after another a filled slot for each file |
| `ShellLayouts.ReadVirtualFiles` | windows/src/clipboard_ops.cpp:627-690 | rejects exactly by count and size, and lists the entries the blob holds |
| `ShellLayouts.InboundTells` | windows/src/clipboard_ops.cpp:627-690 | for any blob with a count: rejected exactly for more than 100000 files or missing descriptors; otherwise each entry says what its descriptor says, unless a name has no end in the blob |
| `ShellLayouts.DescriptorsRoundTrip` | windows/src/clipboard_format.cpp:46-110 | reading built descriptors returns each size, index and shown name up to its first NUL |
| `ShellLayouts.NameReadWhole` | windows/src/clipboard_format.cpp:82-106 | the whole shown name is read back exactly when the part that fits has no NUL |
| `ShellLayouts.NameStaysInside` | windows/src/clipboard_ops.cpp:675-681 | a name is read from its own field exactly when the field holds a terminator |
| `ShellLayouts.NamesInsideIffTerminated` | windows/src/clipboard_ops.cpp:638-690 | of a blob that is not rejected, every name is read from its own field if and only if every counted field holds a terminator |
| `ShellLayouts.TerminatedNamesSuffice` | windows/src/clipboard_ops.cpp:638-690 | so with terminated names the reader stays inside the blob |
| `ShellLayouts.OverrunHappens` | windows/src/clipboard_ops.cpp:675-681 | an accepted blob whose name scan runs past its end |
| `ShellLayouts.LongNameHappens` | windows/src/clipboard_ops.cpp:675-681 | an accepted blob whose name runs out of its field |
| `ShellLayouts.BuildCfHdropPayload` | windows/src/clipboard_format.cpp:156-188 | the moving pointer fills the buffer exactly with header, paths and terminators |
| `ShellLayouts.DropHeaderFields` | windows/src/clipboard_format.cpp:175-177 | the paths start right behind the header of 20 bytes, wide; no paths give nothing |
| `ShellLayouts.DropListRoundTrip` | windows/src/clipboard_format.cpp:156-188 | walking a built drop list returns the paths and ends at the buffer's end exactly when all are non-empty and NUL-free |

## Left out

- Operating-system and library calls (sockets, pipes, Win32 clipboard, COM, Qt, libwayland, AppKit, WIC, libwebp): they appear as parameters or as steps of the environment.
- UTF-8 and UTF-16 conversion, base names and file sizes from the file system, image conversion: names and payloads are opaque bytes or code units, conversion is a parameter.
- Wall-clock time: a timeout is a step that may come at any moment of a wait.
- Logging, user interface, command line, watchdogs, backend detection, echo suppression.
- linux/src/dispatch_codec.cpp: the Linux encoders and parsers are the same loops over the same wire layer with fewer messages; only the Windows file is modelled.
- linux/src/clipboard_manager_wayland.cpp and windows/src/proto_wire.cpp: the same machine and the same code as their modelled twins.
- The parsers of announcements and of PROVIDE_DATA: the same read loop over the same wire layer, with other field numbers.
- The outbound data object and its release at shutdown.
- The incoming half of the Wayland manager (draining another client's selection) and the X11 manager.
- DispatcherChunkProvider's send failure and pump loop are steps; the shared_ptr that keeps a slot alive is a number here.
- TransferCoordinator.FileTransferCoordinator.StartFileDownload: the task is kept as its value; the hop to the coordinator's queue is the order of the steps, the hop over the main queue is what may come before a RemoveFinished. Keys are compared byte by byte, where Swift compares strings up to canonical equivalence; sizes are unbounded; the table of announcements is not part of this model.
- Framing.ReadSession: the greeting sent before the first read is not part of this model.
- FileDownload.FileDownloadTask.HandleChunkData: the received count is unbounded, where the source would trap at 2^63.
- WaylandClipboard.ExtState.WriteAndClose: the write reaches the reader whole; a reader that goes away early is not modelled. Paste descriptors are numbered, so a number the system reuses counts as a new paste.
- PipeWriter.PipeServer.DrainOnStop: a client that ConnectClient publishes just after the stop, and producers past the stop check, are left to the step model (`WiresInOrder`, `ExitAfterDrain`).
- PipeWriter.WiresInOrder: connections are numbered; the writer holds a handle value, which the system may give to the next connection while a frame is on its way.
- PipeWriter.PipeServer.WriteOut: a write is whole or failed; the partial frame a failed write may leave on a dying connection is not modelled.
- VirtualStream.VirtualFileStream.Read: a call from inside the fetch is modelled by the halves BeginRead and EndRead, with any steps between them.
- WorkQueues.WorkQueue.Drain: two drains on two threads at once are not modelled; pushes from other threads look like pushes of the running task.
- DataObjectRefs.Dispatcher.ReadVirtualFileChunk: the apartment thread is alive; when it is gone the source leaves the request by an exception and keeps the pin.
- ShellLayouts.ReadVirtualFiles: a name without any terminator before the end of the blob ends in `Overrun`; what the source reads there is undefined.
- RenderProtocol.ServedIsAnnounced: holds at the decision; by the time the slot is filled another announcement may have come, because the source releases the lock in between.
- RenderProtocol.Dispatcher.OnRenderFormat: whatever else the STA thread runs from its message loops (other fetches included) only shows as the renders that begin there; rendering into a clipboard slot always succeeds, and creating the event is taken to have worked.
