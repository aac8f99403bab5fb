# Verified model of the firmware paths of summit-usbgadget

The daemon takes a firmware image from a host (USB DFU, fastboot over USB, fastboot over TCP) and streams it
into SWUpdate.  This project models the protocol machines on that path and proves what they keep, over every
run and every interleaving.  All theorems are lemmas about value-level step machines (`Step`, `Take`, `Run`);
the objects the daemon updates in place are classes whose methods are proved equal to the steps, or to runs of
them, so the theorems are about the code-shaped methods too.

| files | what they hold |
|---|---|
| `ByteSeq`, `Crc32` | byte strings, little- and big-endian integers, the CRC-32 of a byte string |
| `Swupdate`, `SwupdateSession` | the SWUpdate session: bounded queue, detached drain task, status task |
| `Dfu`, `DfuStream`, `DfuManifest`, `DfuSafety`, `DfuStatus`, `DfuFailure`, `DfuUpload`, `DfuDevice` | the DFU 1.1 handler (states and status of section 6.1.2, suffix of Appendix B of USB DFU 1.1) |
| `Proto`, `ProtoNames`, `Utf8`, `Dialog` | the fastboot command parser, its vocabulary as text, and a reference conversation independent of any transport |
| `FastbootUsb`, `FastbootUsbFraming`, `FastbootUsbReach`, `FastbootUsbReset`, `FastbootUsbDialog`, `FastbootUsbDevice` | fastboot over USB bulk endpoints |
| `TcpFraming`, `FastbootTcp`, `FastbootTcpDialog`, `FastbootTcpRuns`, `FastbootTcpSession`, `FastbootTcpService` | fastboot over TCP, down to the segmentation of the stream |
| `FastbootDifferences` | where the two transports differ |
| `Verdicts` | what the three kinds of host are told about the outcome of an update |
| `Aio`, `AioProofs`, `AioCancel`, `AioThreads`, `AioNotify` | the asynchronous I/O driver: submitter, worker thread, kernel, asynchronous waiter |
| `Controllers` | controller tracking under hotplug |
| `Ffs` | the FunctionFS descriptor encoder |

`dafny verify dfyconfig.toml` checks everything.

## How the code is represented

- Concurrency is interleaving.  The kernel, the worker thread, the drain and status tasks, udev and the host
  take steps of their own (`Move`, `Env`, `Complete`, `Signal`, `Plug`, ...); theorems quantify over all step
  sequences.  A call that suspends returns, as a ghost result, the moves made meanwhile.
- Read sizes, SWUpdate verdicts, write failures, timeouts and the success of `io_submit` and `io_cancel` are
  inputs.  The process-wide restart-pending flag is the parameter `restart`.
- `Handler.sink` and `Usb.sink` are plain fields: the optional session of the code is always present.
- `fed`, `discarded`, `written`, `retrieved`, `removed`, `commands` and `out` are histories the code does not
  keep; they record what a field or channel has carried.
- A kernel completion and its eventfd signal are two separate steps.
- Ids are 64 bits wide; the AIO results hold up to 2^64 submissions, after which ids repeat.

## Where the code does less than expected

The code is modelled as it is.  Where it departs from its documentation, or from what a host or an
administrator would expect, a lemma gives the exact condition and another a concrete run.

- The TCP session says its semantics match USB exactly.  They agree in undisturbed runs (`TransportsAgree`).  A
  command that does not parse is answered on TCP and ignored on USB, and payload inlined behind a download
  command is taken on USB and not on TCP (`RepliesAgreeExactly`, `CommandAgreesExactly`, `TransportsDiffer`).
  A verdict inside the data phase also separates them: after a success USB goes on feeding and TCP discards
  (`VerdictSeparates`, `EarlySuccessDiffers`), and a Close whose transfer is gone forgets the download on TCP
  only (`FinishWithoutTransfer`).
- A USB completion that crosses the announced boundary has its surplus fed as data.  Inside a download it is
  answered twice (`OneReplyExactlyWithoutSurplus`, `SurplusIsAnswered`); if it carries the command itself it is
  answered once (`InlinedPayload`, `InlinedSurplus`).
- CLRSTATUS outside Error and manifestation lets bytes of the old file into the next one
  (`ClrStatusKeepsOldBytes`, `ClrStatusLeaks`), and so does a SWUpdate failure unless the host clears it first or
  nothing is withheld (`FailureIsolatesExactly`, `FailureLeaks`); a zero-length DNLOAD then even manifests the
  old tail (`FailureManifestsOldTail`, `OldTailIsManifested`).  A refused request keeps everything
  (`RefusalJoinsFiles`, `RefusalLeaks`).
- A success reported while a full queue holds a block back does not mean that the firmware was handed over
  (`SuccessMeansHandedOver`, `SuccessWithHeldBlock`), and a repeated zero-length DNLOAD after the verdict
  forgets it (`EndAgainExactly`, `VerdictIsForgotten`).
- The selection of the first controller does not fall back to one it passed over (`FirstUnboundExactly`,
  `FirstDoesNotFallBack`).
- The parser looks for the colon in the whole chunk, so bytes behind a command can change what it is
  (`CloseParsesExactly`).
- On TCP an empty data frame is taken for a closed connection (`DrainsExactlyWhenAnnounced`).

## Model

| member | source | states |
|---|---|---|
| `Swupdate.QueueCapacityBounds` | crates/summit-usbgadget-swupdate/src/lib.rs:124-131 | For every block size, zero included, the capacity is at least two, covers 2 MiB, and above two it is the least that does |
| `Swupdate.SendHands` | crates/summit-usbgadget-swupdate/src/lib.rs:281-313 | With room, a block is handed over behind all earlier ones, whether it is accepted or answered Closed |
| `Swupdate.RunKeepsInv` | crates/summit-usbgadget-swupdate/src/lib.rs:241-376 | Every sequence of calls and background moves keeps queue, drain task and backend accounting for every byte in order |
| `Swupdate.FedIsAccepted` | crates/summit-usbgadget-swupdate/src/lib.rs:281-313 | The bytes in the transfer are exactly the blocks answered Ok since it was opened, read off the calls alone |
| `Swupdate.WrittenIsPrefixOfAccepted` | crates/summit-usbgadget-swupdate/src/stream.rs:83-96 | In every run the backend holds a prefix of the accepted blocks |
| `Swupdate.DrainProgress` | crates/summit-usbgadget-swupdate/src/stream.rs:83-96 | Once the sender is gone the drain task always has a move, and each move uses up work |
| `Swupdate.BackgroundTires` | crates/summit-usbgadget-swupdate/src/stream.rs:66-96 | Every background move uses up work, so no schedule goes on for ever |
| `Swupdate.EofDelivers` | crates/summit-usbgadget-swupdate/src/lib.rs:281-376 | After eof or abort, whatever calls and background moves interleave, a drain without write error that has nothing left to do has delivered every accepted byte and closed the writer |
| `Swupdate.SendUnblocks` | crates/summit-usbgadget-swupdate/src/lib.rs:299-313 | Under every schedule, background tasks that cannot go on have freed a slot or closed the queue |
| `Swupdate.VerdictArrives` | crates/summit-usbgadget-swupdate/src/lib.rs:323-395 | Under every schedule, background tasks that cannot go on have produced the verdict, and for a running transfer it is the one the status task settled on, or a failure if the connect failed |
| `Swupdate.VerdictIsStable` | crates/summit-usbgadget-swupdate/src/lib.rs:323-405 | Once observed, the verdict never changes until abort or a new transfer, whatever is called |
| `Swupdate.RulingIsObserved` | crates/summit-usbgadget-swupdate/src/lib.rs:323-395 | In every run of calls and moves, through any number of transfers, the verdict a client is told is none until the status task of the current transfer settles, and then the one it settled on |
| `Swupdate.SettledStands` | crates/summit-usbgadget-swupdate/src/lib.rs:379-395 | A settled verdict, or the failure of a failed connect, is what every later call of the same transfer is told |
| `Verdicts.UsbTellsTheVerdict` | crates/summit-usbgadget-fastboot-usb/src/state.rs:320-338 | Over every run, through failures and resets: the reply to Flash or Close waits for the status task and is OKAY if and only if it settled on success, else FAILclose; the look before a read fails a download if and only if it settled on failure |
| `Verdicts.TcpTellsTheVerdict` | crates/summit-usbgadget-fastboot-tcp/src/session.rs:160-225 | Over every run: the same for Flash and Close; a block in the data phase ends the connection with a FAIL if and only if the status task settled on failure; a closed connection has no transfer left |
| `Verdicts.LostConnectionEnds` | crates/summit-usbgadget-fastboot-tcp/src/session.rs:53-74 | After any run a lost connection sends nothing more, whatever the background tasks do, and its transfer is torn down |
| `Verdicts.DfuTellsTheVerdict` | crates/summit-usbgadget-dfu/src/handler.rs:413-440 | Over every run: a manifesting handler reports success if and only if the status task of its transfer settled on success, and a failed verification if and only if it settled on failure or there is no transfer; otherwise it waits |
| `Swupdate.EofIsFinal` | crates/summit-usbgadget-swupdate/src/lib.rs:271-319 | After eof no later call of the same transfer enqueues, reopens or reconnects |
| `SwupdateSession.Sink.constructor` | crates/summit-usbgadget-swupdate/src/lib.rs:206-216 | A new session is idle |
| `SwupdateSession.Sink.IsOpen` | crates/summit-usbgadget-swupdate/src/lib.rs:219-221 | Open while feeding or awaiting the verdict |
| `SwupdateSession.Sink.Open` | crates/summit-usbgadget-swupdate/src/lib.rs:241-269 | Refines the open step, refused while a restart is pending |
| `SwupdateSession.Sink.EnsureOpen` | crates/summit-usbgadget-swupdate/src/lib.rs:271-276 | Opens unless a transfer or a verdict is there |
| `SwupdateSession.Sink.TrySend` | crates/summit-usbgadget-swupdate/src/lib.rs:281-296 | Refines the send step: Ok, Full with the block back, Closed, or an error |
| `SwupdateSession.Sink.Send` | crates/summit-usbgadget-swupdate/src/lib.rs:299-313 | Is a try_send after some background moves, and never answers Full |
| `SwupdateSession.Sink.Eof` | crates/summit-usbgadget-swupdate/src/lib.rs:317-319 | Drops the sender only |
| `SwupdateSession.Sink.PollStatus` | crates/summit-usbgadget-swupdate/src/lib.rs:323-352 | Refines the status step: cached verdict, failure without a transfer, none while running |
| `SwupdateSession.Sink.Finished` | crates/summit-usbgadget-swupdate/src/lib.rs:340-342 | Is a status poll with a verdict after some background moves |
| `SwupdateSession.Sink.Abort` | crates/summit-usbgadget-swupdate/src/lib.rs:368-376 | Drops the sender and the status task, leaving a running drain task alone |
| `SwupdateSession.DrainData` | crates/summit-usbgadget-swupdate/src/stream.rs:83-96 | Writes the concatenated blocks up to the first failing write; the writer is closed exactly when nothing was lost |
| `Crc32.UpdateAppend` | crates/summit-usbgadget-dfu/src/handler.rs:402-403 | Hashing in pieces is hashing the whole |
| `Crc32.KnownValues` | crates/summit-usbgadget-dfu/src/handler.rs:449-463 | The hashes of FF FF FF FF and FF FF FF 7F, which fix the start value, the polynomial and the final complement |
| `Crc32.XorBits` | crates/summit-usbgadget-dfu/src/handler.rs:449-463 | The register arithmetic is exclusive or, bit by bit |
| `Crc32.BitsLowFirst` | crates/summit-usbgadget-dfu/src/handler.rs:449-463 | The bits of a byte enter the hash from the least significant on |
| `DfuStream.CleanRunStreams` | crates/summit-usbgadget-dfu/src/handler.rs:319-404 | In every clean run, session, held block and tail are in order exactly the received bytes, and the tail is the last min(16, n) of them |
| `DfuStream.CleanRunFrom` | crates/summit-usbgadget-dfu/src/handler.rs:319-404 | The same from any consistent state, with the bytes already there in front |
| `DfuStream.SuffixCheckIsGlobal` | crates/summit-usbgadget-dfu/src/handler.rs:449-463 | The check on rolling hash and tail succeeds exactly when the whole file carries a DFU suffix with a CRC over all of it |
| `DfuStream.ManifestStarts` | crates/summit-usbgadget-dfu/src/handler.rs:207-226 | After an accepted zero-length DNLOAD, session and held block are exactly the firmware |
| `DfuStream.WaitingRun` | crates/summit-usbgadget-dfu/src/handler.rs:340-440 | While the handler stays in Manifest, whatever is requested, that stays so, and the queue is closed exactly when nothing is held |
| `DfuStream.PollStaysExactly` | crates/summit-usbgadget-dfu/src/handler.rs:413-440 | A poll in Manifest stays there if and only if the transfer is open and undecided |
| `DfuStream.ManifestDelivers` | crates/summit-usbgadget-dfu/src/handler.rs:207-226 | Over whole runs: once end of stream is signalled the session was handed the payload minus a valid suffix, and a closed writer means the backend has exactly that |
| `DfuStream.SplitDoesNotMatter` | crates/summit-usbgadget-dfu/src/handler.rs:370-404 | Two runs with the same payload hand over the same bytes, however it was split into blocks |
| `DfuSafety.RunKeepsHeld` | crates/summit-usbgadget-dfu/src/handler.rs:94-440 | In every reachable state a held block implies a live queue, and dfuDNLOAD-IDLE implies nothing is held |
| `DfuSafety.ViolationExactly` | crates/summit-usbgadget-dfu/src/handler.rs:319-330 | The sequencing abort happens if and only if the held block is still stuck and the request needs its slot |
| `DfuSafety.IdleHostNeverAborted` | crates/summit-usbgadget-dfu/src/handler.rs:207-246 | In every reachable dfuDNLOAD-IDLE state no request triggers the abort |
| `DfuStatus.StepFollows` | crates/summit-usbgadget-dfu/src/handler.rs:94-299 | Every request moves the bytes bStatus and bState, in numbers, as the state diagram says: first what the poll found, then the request; a refused poll moves nothing |
| `DfuStatus.GetStatusShows` | crates/summit-usbgadget-dfu/src/protocol.rs:116-125 | A status reply is bStatus, the wait in three little-endian bytes (0 in state 5, 100 ms in 4, 6 and 7, else the configured time cut to 24 bits), bState and 0, of the device after the request |
| `ByteSeq.LeByPlace` | crates/summit-usbgadget-dfu/src/protocol.rs:121-124 | Little-endian fields carry the most significant byte last |
| `DfuStatus.GetStateShows` | crates/summit-usbgadget-dfu/src/handler.rs:186-199 | GETSTATE shows the device after the poll and equals byte 4 of the status outside the states GETSTATUS moves (3, 4 and 6) |
| `DfuStatus.FailureReadsAsVerify` | crates/summit-usbgadget-dfu/src/handler.rs:413-440 | In any run a GETSTATUS whose poll finds a failed update answers 7 and state 10 |
| `DfuStatus.RefusalReadsAsStalled` | crates/summit-usbgadget-dfu/src/handler.rs:126-130 | In any run an unknown request, or a block over a held one, is followed by a GETSTATUS that answers 15 and state 10 unless its own poll finds a failure |
| `DfuStatus.CleanRunReadsOk` | crates/summit-usbgadget-dfu/src/handler.rs:233-270 | In an undisturbed run byte 0 is 0 |
| `DfuStatus.WorkingIsOk` | crates/summit-usbgadget-dfu/src/handler.rs:94-299 | In every run a device in states 3 to 7 reports no error |
| `DfuStatus.ManifestReads` | crates/summit-usbgadget-dfu/src/handler.rs:233-270 | In any run a manifesting device answers 0, state 7 and 100 ms until the status task settles, 0 and state 2 after a success, 7 and state 10 after a failure |
| `DfuStatus.StatusTellsHeld` | crates/summit-usbgadget-dfu/src/handler.rs:233-270 | After a block, in any run, GETSTATUS answers 0, and state 5 without a wait exactly when nothing is held, state 4 with 100 ms exactly when something is |
| `DfuSafety.PoliteHostNeverAborted` | crates/summit-usbgadget-dfu/src/handler.rs:319-330 | A host that acts on the reported state is never cut off, in any run |
| `DfuSafety.TeardownIsolates` | crates/summit-usbgadget-dfu/src/handler.rs:134-174 | After an abort or reset the handler goes on exactly as a new one, so no earlier byte reaches a later session |
| `DfuSafety.ClrStatusKeepsOldBytes` | crates/summit-usbgadget-dfu/src/handler.rs:109-120 | CLRSTATUS keeps all but the tail of the old file in the stream; only a file of at most 16 bytes leaves no trace |
| `DfuFailure.ClrStatusLeaks` | crates/summit-usbgadget-dfu/src/handler.rs:109-120 | A 17-byte block and CLRSTATUS: its first byte is still on its way |
| `DfuFailure.FailureIsolatesExactly` | crates/summit-usbgadget-dfu/src/handler.rs:413-440 | After any run, once a failure was found, by any request and whatever was asked for since, the next file is free of old bytes if and only if the next move is CLRSTATUS, ABORT or a reset, or no bytes were withheld; none are in Manifest |
| `DfuFailure.StreamAfterFailure` | crates/summit-usbgadget-dfu/src/handler.rs:389-440 | The stream after that move is exactly the withheld tail, unless cleared, followed by the new file |
| `DfuFailure.FailureManifestsOldTail` | crates/summit-usbgadget-dfu/src/handler.rs:207-226 | After any run, a zero-length DNLOAD as the next move manifests the withheld tail alone, under status OK; nothing goes out exactly when nothing was withheld or the tail is a suffix by itself |
| `DfuFailure.FailureLeaks` | crates/summit-usbgadget-dfu/src/handler.rs:422-429 | A run in which 16 old bytes lead the new file |
| `DfuFailure.OldTailIsManifested` | crates/summit-usbgadget-dfu/src/handler.rs:207-226 | A run in which 16 old bytes are manifested as firmware |
| `DfuFailure.RunWithholds` | crates/summit-usbgadget-dfu/src/handler.rs:370-404 | In every reachable state at most 16 bytes are withheld, and none in Manifest |
| `DfuFailure.RefusalJoinsFiles` | crates/summit-usbgadget-dfu/src/handler.rs:126-130 | A refused request ends nothing: the next file continues the old one, and is kept apart if and only if the old one is empty |
| `DfuFailure.RefusalLeaks` | crates/summit-usbgadget-dfu/src/handler.rs:126-130 | A run in which an unsupported request leaves 17 old bytes in the stream |
| `DfuManifest.SuccessMeansHandedOver` | crates/summit-usbgadget-dfu/src/handler.rs:413-440 | Over whole runs: at a reported success the whole firmware was handed over if and only if no block was held by a full queue, otherwise a proper prefix was; with the writer closed the backend has exactly the firmware |
| `DfuManifest.SuccessWithHeldBlock` | crates/summit-usbgadget-dfu/src/handler.rs:413-440 | For every configuration a run in which success is reported and the held block dropped |
| `DfuManifest.EndAgainExactly` | crates/summit-usbgadget-dfu/src/handler.rs:207-226 | A repeated zero-length DNLOAD goes on waiting for the firmware if and only if the transfer is open and undecided before it; else the next poll reports a failure whatever SWUpdate said |
| `DfuManifest.VerdictIsForgotten` | crates/summit-usbgadget-dfu/src/handler.rs:207-226 | A run in which a success becomes a failure that way |
| `DfuSafety.MemoryBounded` | crates/summit-usbgadget-dfu/src/handler.rs:319-404 | With wTransferSize respected, queue, held block and tail stay below 2 MiB + 2 blocks + 16 bytes in every run |
| `DfuUpload.BlocksConcatenate` | crates/summit-usbgadget-dfu/src/handler.rs:273-298 | The first k uploaded blocks are the first k * wTransferSize bytes of the source, or all of it |
| `DfuUpload.UploadEndsExactly` | crates/summit-usbgadget-dfu/src/handler.rs:289-294 | A block is short, and the upload over, if and only if it reaches beyond the end of the source |
| `DfuUpload.UploadDelivers` | crates/summit-usbgadget-dfu/src/handler.rs:273-298 | A host that reads until a short block has the whole source |
| `DfuUpload.UploadCompletesExactly` | crates/summit-usbgadget-dfu/src/handler.rs:273-298 | The 16-bit block number reaches a short block if and only if the source is shorter than 65536 blocks |
| `DfuDevice.Device.constructor` | crates/summit-usbgadget-dfu/src/handler.rs:74-89 | A new handler is the fresh state |
| `DfuDevice.Device.AbortTransfer` | crates/summit-usbgadget-dfu/src/handler.rs:134-144 | Returns to the fresh state with a new session, the old one aborted |
| `DfuDevice.Device.PushPending` | crates/summit-usbgadget-dfu/src/handler.rs:340-363 | Refines one try at the queue |
| `DfuDevice.Device.Poll` | crates/summit-usbgadget-dfu/src/handler.rs:413-440 | Refines the poll step |
| `DfuDevice.Device.SubmitChunk` | crates/summit-usbgadget-dfu/src/handler.rs:319-330 | Refines the submission of a chunk, with the sequencing abort |
| `DfuDevice.Device.ReceiveBlock` | crates/summit-usbgadget-dfu/src/handler.rs:370-404 | Refines the reception of a block, with background moves during the awaited data stage |
| `DfuDevice.Device.TakeBlock` | crates/summit-usbgadget-dfu/src/handler.rs:387-404 | Refines what is done with a block behind the 16-byte window |
| `DfuDevice.Device.StartManifest` | crates/summit-usbgadget-dfu/src/handler.rs:207-226 | Refines the start of manifestation |
| `DfuDevice.Device.GetStatus` | crates/summit-usbgadget-dfu/src/handler.rs:233-270 | Refines the status request, whose six bytes `DfuStatus.GetStatusShows` gives in numbers |
| `DfuDevice.Device.ClearStatus` | crates/summit-usbgadget-dfu/src/handler.rs:109-120 | Refines CLRSTATUS |
| `DfuDevice.Device.Serve` | crates/summit-usbgadget-dfu/src/handler.rs:94-199 | Refines the dispatch of every request |
| `DfuDevice.Device.HandleEvent` | crates/summit-usbgadget-dfu/src/gadget.rs:97-183 | Any event on the object is one step of the machine |
| `Proto.DownloadParses` | crates/summit-usbgadget-fastboot-proto/src/lib.rs:95-129 | A download header after padding parses to its length and leaves any payload behind it untouched |
| `Proto.DownloadOnlyFromHeader` | crates/summit-usbgadget-fastboot-proto/src/lib.rs:95-129 | Conversely only padding and such a header parse to a download, and the length is below 2^32 |
| `Proto.DataHeaderRoundTrip` | crates/summit-usbgadget-fastboot-proto/src/lib.rs:202-204 | The DATA header decodes back to its length, and is 12 bytes exactly for lengths below 2^32 |
| `Proto.CloseParsesExactly` | crates/summit-usbgadget-fastboot-proto/src/lib.rs:95-169 | Close with trailing bytes is recognised if and only if padding follows and no colon does |
| `ProtoNames.WOpenAndFlashParse` | crates/summit-usbgadget-fastboot-proto/src/lib.rs:95-168 | Behind any padding and before any trailing bytes, "WOpen:" and "flash:" with any argument parse to their commands and take exactly name and argument |
| `ProtoNames.GetVarParses` | crates/summit-usbgadget-fastboot-proto/src/lib.rs:131-140 | "getvar:" and a non-empty text ask for that variable; otherwise the command is unsupported; the byte count is exact |
| `ProtoNames.FetchParses` | crates/summit-usbgadget-fastboot-proto/src/lib.rs:141-150 | "fetch:" reads its target up to a colon; an argument that is not text does not parse |
| `ProtoNames.SysinfoParses` | crates/summit-usbgadget-fastboot-proto/src/lib.rs:141-150 | "fetch:sysinfo" and "fetch:sysinfo.json" ask for the two documents |
| `ProtoNames.UnknownIsUnsupported` | crates/summit-usbgadget-fastboot-proto/src/lib.rs:152-154 | Any other name in front of a colon is unsupported, with the exact byte count |
| `ProtoNames.UnnamedParses` | crates/summit-usbgadget-fastboot-proto/src/lib.rs:155-168 | Without a colon only "Close" is known, any other word is unsupported, and padding alone is no command |
| `ProtoNames.CommandOnlyFromName` | crates/summit-usbgadget-fastboot-proto/src/lib.rs:95-169 | Conversely each of these commands arises only from padding, its own name and the argument it carries, with that byte count |
| `ProtoNames.SizeSpelling` | crates/summit-usbgadget-fastboot-proto/src/lib.rs:88-119 | Exactly NUL and ASCII white space are padding; hex digits are read in either case, and a plus sign in front is allowed |
| `ProtoNames.DigitsByPlace` | crates/summit-usbgadget-fastboot-proto/src/lib.rs:116-119 | Hex digits are read most significant first |
| `ProtoNames.HeaderText` | crates/summit-usbgadget-fastboot-proto/src/lib.rs:202-204 | The data reply is the text DATA and upper-case hex digits |
| `Utf8.Utf8Exactly` | crates/summit-usbgadget-fastboot-proto/src/lib.rs:131-143 | The text check accepts exactly the encodings of sequences of Unicode scalar values |
| `Dialog.MergeKeepsConversation` | crates/summit-usbgadget-fastboot-tcp/src/session.rs:6-11 | Replies and streams of a conversation do not depend on how data is cut into pieces |
| `FastbootUsbFraming.FlagsAlwaysAgree` | crates/summit-usbgadget-fastboot-usb/src/state.rs:320-545 | In every reachable state an awaited verdict excludes a download, a pending failure implies one, and no chunk is answered "bad size" |
| `FastbootUsbFraming.FlagsFromStart` | crates/summit-usbgadget-fastboot-usb/src/commands.rs:134-152 | The same from power-up, whatever the host sends, "bad size" included |
| `FastbootUsbFraming.DownloadFrames` | crates/summit-usbgadget-fastboot-usb/src/state.rs:438-545 | In every data phase: no byte is parsed as a command, one OKAY or FAIL is sent exactly at the boundary, OKAY means all bytes were handed over, and from the first recorded failure on nothing more is |
| `FastbootUsbFraming.FailureDrains` | crates/summit-usbgadget-fastboot-usb/src/state.rs:487-498 | Over every data phase from a failure to the boundary: nothing is handed over or said, then one FAIL and a session that was handed nothing |
| `FastbootUsbFraming.CommandAnnounces` | crates/summit-usbgadget-fastboot-usb/src/commands.rs:95-132 | A download command is refused or starts a framed download on the right transfer, inlined payload within the length being its first data |
| `FastbootUsbFraming.InlinedPayload` | crates/summit-usbgadget-fastboot-usb/src/state.rs:439-443 | Inlined payload of any length is acknowledged once, when it reaches the announced length, and all handed over; only announced bytes are if and only if it is no longer than announced |
| `FastbootUsbFraming.DownloadEndsOnce` | crates/summit-usbgadget-fastboot-usb/src/state.rs:438-545 | From the command to the boundary, with any inlined payload and on a full queue too: one command, one DATA, one final reply, and OKAY means all data was handed over |
| `FastbootUsbFraming.OneReplyExactlyWithoutSurplus` | crates/summit-usbgadget-fastboot-usb/src/state.rs:447-464 | Inside a download, a completion reaching the boundary is answered once if and only if it ends there, otherwise twice, with the surplus fed as data; for any waits and with or without a pending restart |
| `FastbootUsbFraming.CapacityRounds` | crates/summit-usbgadget-fastboot-usb/src/state.rs:194-201 | A command read is a full 16 KiB; a data read is a whole number of packets, covers what is asked for and exceeds it by less than a packet, within the buffer when the packet size divides it |
| `FastbootUsbFraming.CapacityExact` | crates/summit-usbgadget-fastboot-usb/src/state.rs:194-201 | When the packet size divides buffer and remainder, the read is exactly r |
| `FastbootUsbFraming.FullReadsFit` | crates/summit-usbgadget-fastboot-usb/src/state.rs:155-201 | Successive full reads then sum to exactly the download, each within the buffer, so no short packet (section 5.8.3 of USB 2.0) is needed |
| `FastbootUsbReach.AlwaysSteady` | crates/summit-usbgadget-fastboot-usb/src/state.rs:242-545 | In every state reachable from power-up, through failures, stalls and resets: flags agree, the session accounts for its bytes, a download that has not failed has a transfer |
| `FastbootUsbReach.DownloadsAreFramed` | crates/summit-usbgadget-fastboot-usb/src/state.rs:438-545 | Every reachable download is one the boundary results speak of |
| `FastbootUsbReach.FramingFromPowerUp` | crates/summit-usbgadget-fastboot-usb/src/state.rs:438-545 | After any run from power-up: an accepted download command is followed by exactly one OKAY or FAIL, when its bytes have arrived, none being taken for a command, and OKAY means all were handed over |
| `FastbootUsbReset.ResetIsolates` | crates/summit-usbgadget-fastboot-usb/src/state.rs:386-434 | After any run, a stall in a transfer or a broken read is answered with one "bad size" and a lost connection with nothing; from then on everything goes as after power-up; a stall outside a transfer changes nothing |
| `FastbootUsbReset.LostHeaderResets` | crates/summit-usbgadget-fastboot-usb/src/commands.rs:95-109 | A download whose DATA header cannot be sent resets the function silently and feeds nothing |
| `FastbootUsbDialog.CommandFollows` | crates/summit-usbgadget-fastboot-usb/src/commands.rs:24-202 | Every command answers and moves the state as the reference conversation does |
| `FastbootUsbDialog.RunFollows` | crates/summit-usbgadget-fastboot-usb/src/state.rs:242-545 | Every undisturbed run stays in step with the reference conversation |
| `FastbootUsbDialog.UsbFollowsDialog` | crates/summit-usbgadget-fastboot-usb/src/commands.rs:162-202 | From power-up, replies, the current transfer and every byte ever handed over are those of the reference conversation |
| `FastbootUsbDevice.Device.constructor` | crates/summit-usbgadget-fastboot-usb/src/state.rs:71-97 | A new function is the start state |
| `FastbootUsbDevice.Device.ResetState` | crates/summit-usbgadget-fastboot-usb/src/state.rs:99-107 | Refines the reset, with a new session |
| `FastbootUsbDevice.Device.HardReset` | crates/summit-usbgadget-fastboot-usb/src/state.rs:140-153 | Refines the hard reset; the old session is aborted |
| `FastbootUsbDevice.Device.FailDownload` | crates/summit-usbgadget-fastboot-usb/src/state.rs:120-125 | Marks the failure without touching the boundary |
| `FastbootUsbDevice.Device.Begin` | crates/summit-usbgadget-fastboot-usb/src/commands.rs:24-36 | Refines the opening of a session |
| `FastbootUsbDevice.Device.StartFinish` | crates/summit-usbgadget-fastboot-usb/src/commands.rs:38-59 | Refines the start of a finish |
| `FastbootUsbDevice.Device.StartDownload` | crates/summit-usbgadget-fastboot-usb/src/commands.rs:95-132 | Refines the announcement of a download |
| `FastbootUsbDevice.Device.FinishFlash` | crates/summit-usbgadget-fastboot-usb/src/commands.rs:134-152 | Refines the flash command |
| `FastbootUsbDevice.Device.Handle` | crates/summit-usbgadget-fastboot-usb/src/commands.rs:162-202 | Refines the dispatch of a command |
| `FastbootUsbDevice.Device.DownloadChunk` | crates/summit-usbgadget-fastboot-usb/src/state.rs:475-545 | Is the data step after the moves made while waiting for a slot |
| `FastbootUsbDevice.Device.Enqueue` | crates/summit-usbgadget-fastboot-usb/src/state.rs:505-513 | try_send and then send never leave the block unsent |
| `FastbootUsbDevice.Device.RxChunk` | crates/summit-usbgadget-fastboot-usb/src/state.rs:438-465 | Refines the routing of a completion, waits included; within the boundary it is the machine step after the wait |
| `FastbootUsbDevice.WaitingIsLater` | crates/summit-usbgadget-fastboot-usb/src/state.rs:438-465 | A completion that waits, inlined payload included, is the same completion arriving later, unless it crosses the boundary |
| `FastbootUsb.NoWaiting` | crates/summit-usbgadget-fastboot-usb/src/state.rs:438-465 | Without waiting, routing is the step of the machine, also across the boundary |
| `FastbootUsbDevice.Device.CheckFailed` | crates/summit-usbgadget-fastboot-usb/src/state.rs:257-266 | Refines the look at SWUpdate before a read |
| `FastbootUsbDevice.Device.Finish` | crates/summit-usbgadget-fastboot-usb/src/state.rs:320-338 | Awaits and answers the verdict |
| `TcpFraming.CommandRoundTrip` | crates/summit-usbgadget-fastboot-tcp/src/transport.rs:84-113 | A sent packet is received unchanged if and only if it is within the command limit, with the stream behind it untouched |
| `TcpFraming.CutPacket` | crates/summit-usbgadget-fastboot-tcp/src/transport.rs:103-131 | Every stream that ends inside a packet is a protocol error; only one that ends between packets is a disconnect |
| `ByteSeq.BeByPlace` | crates/summit-usbgadget-fastboot-tcp/src/transport.rs:117-131 | The frame length is read most significant byte first |
| `TcpFraming.DrainSplit` | crates/summit-usbgadget-fastboot-tcp/src/session.rs:245-268 | Reading a piece first and the rest later is reading at once |
| `TcpFraming.FramesDrain` | crates/summit-usbgadget-fastboot-tcp/src/session.rs:245-268 | Non-empty frames that sum to the total are read back exactly, up to the next frame boundary |
| `TcpFraming.DrainsExactlyWhenAnnounced` | crates/summit-usbgadget-fastboot-tcp/src/session.rs:245-268 | A data phase ends at a frame boundary if and only if leading frames are non-empty and sum to the total |
| `TcpFraming.Connection.ReadHeader` | crates/summit-usbgadget-fastboot-tcp/src/transport.rs:117-131 | However the bytes arrive: the length, a clean end exactly on an empty stream, an error exactly on a partial header |
| `TcpFraming.Connection.RecvCommand` | crates/summit-usbgadget-fastboot-tcp/src/transport.rs:103-113 | The command received is a function of the stream, not of its segmentation |
| `TcpFraming.Source.ReadBlock` | crates/summit-usbgadget-fastboot-tcp/src/session.rs:245-268 | A block is the next piece of the payload and shrinks what remains; it fails exactly where the frames do |
| `TcpFraming.Source.ReadAll` | crates/summit-usbgadget-fastboot-tcp/src/session.rs:245-268 | Blocks of any sizes concatenate to the payload, with the cursor behind it |
| `FastbootTcpDialog.CommandFollows` | crates/summit-usbgadget-fastboot-tcp/src/session.rs:79-158 | Every command answers and moves the state as the reference conversation does |
| `FastbootTcpDialog.RunFollows` | crates/summit-usbgadget-fastboot-tcp/src/session.rs:79-225 | Every undisturbed run stays in step with the reference conversation |
| `FastbootTcpDialog.TcpFollowsDialog` | crates/summit-usbgadget-fastboot-tcp/src/session.rs:79-225 | From connect, replies, the current transfer and every byte ever handed over are those of the reference conversation |
| `FastbootTcpDialog.TransportsAgree` | crates/summit-usbgadget-fastboot-tcp/src/session.rs:6-11 | A USB run and a TCP run carrying the same conversation send the same replies and hand over the same bytes over the whole run, finished transfers included, however pieces were cut and tasks scheduled |
| `Dialog.EventGains` | crates/summit-usbgadget-fastboot-tcp/src/session.rs:6-11 | Only data is handed to a transfer, and all of it |
| `FastbootDifferences.RepliesAgreeExactly` | crates/summit-usbgadget-fastboot-tcp/src/session.rs:79-99 | In matching states a command gets the same replies on both transports if and only if it parses and is not an accepted download whose whole payload is inlined |
| `FastbootDifferences.CommandAgreesExactly` | crates/summit-usbgadget-fastboot-usb/src/state.rs:438-445 | The transports also stay in step if and only if it parses and nothing is inlined behind an accepted download |
| `FastbootDifferences.TransportsDiffer` | crates/summit-usbgadget-fastboot-usb/src/state.rs:439-443 | A download command with its one byte of payload: DATA and OKAY on USB, DATA on TCP |
| `FastbootDifferences.TransportsDifferUnparsed` | crates/summit-usbgadget-fastboot-tcp/src/session.rs:82-84 | An empty chunk is answered on TCP only |
| `FastbootDifferences.SurplusIsAnswered` | crates/summit-usbgadget-fastboot-usb/src/state.rs:447-464 | From power-up: one byte announced, two received, two replies, both bytes handed over |
| `FastbootDifferences.InlinedSurplus` | crates/summit-usbgadget-fastboot-usb/src/state.rs:439-443 | From power-up: the command and two bytes for one announced give DATA and one OKAY, both bytes handed over |
| `FastbootDifferences.VerdictSeparates` | crates/summit-usbgadget-fastboot-tcp/src/session.rs:160-189 | With a verdict inside the data phase, a block is handed over alike if and only if it was no success, and answered alike if and only if it was no failure or the block ends the download |
| `FastbootDifferences.EarlyUsbIsReached` | crates/summit-usbgadget-fastboot-usb/src/state.rs:257-266 | A USB run from power-up to an early success |
| `FastbootDifferences.EarlyTcpIsReached` | crates/summit-usbgadget-fastboot-tcp/src/session.rs:160-189 | A TCP run from connect to an early success |
| `FastbootDifferences.EarlySuccessDiffers` | crates/summit-usbgadget-fastboot-tcp/src/session.rs:174-178 | In those two states the one byte is acknowledged on both transports and handed over on USB only |
| `FastbootDifferences.FinishWithoutTransfer` | crates/summit-usbgadget-fastboot-tcp/src/session.rs:191-225 | With a download pending but its transfer gone, flash is refused once with "close" and then with "flash before download" on both transports; Close forgets the download on TCP only |
| `FastbootTcpSession.Pump` | crates/summit-usbgadget-swupdate/src/lib.rs:409-431 | Forwards a prefix of what it read, all of it unless a verdict came first, and is a run of the machine |
| `FastbootTcpSession.Forward` | crates/summit-usbgadget-swupdate/src/lib.rs:421-429 | One turn: a block is handed over whole, or not at all because a verdict was there |
| `FastbootTcpSession.StreamDownload` | crates/summit-usbgadget-fastboot-tcp/src/session.rs:160-189 | OKAY only after every announced byte was read; SWUpdate got a prefix of the payload, all of it unless it reported a verdict meanwhile; the call is a run of the machine |
| `FastbootTcpService.Service.constructor` | crates/summit-usbgadget-fastboot-tcp/src/session.rs:36-47 | A new session is the start state |
| `FastbootTcpService.Service.WOpen` | crates/summit-usbgadget-fastboot-tcp/src/session.rs:101-109 | Refines the WOpen command |
| `FastbootTcpService.Service.Announce` | crates/summit-usbgadget-fastboot-tcp/src/session.rs:136-156 | Refines the answer to a download command, with a usable session when data follows |
| `FastbootTcpService.Service.Download` | crates/summit-usbgadget-fastboot-tcp/src/session.rs:136-158 | A download command with its data phase is a run of the machine |
| `FastbootTcpService.Service.Flash` | crates/summit-usbgadget-fastboot-tcp/src/session.rs:191-198 | The flash command with its wait is a run of the machine |
| `FastbootTcpService.Service.FinishDownload` | crates/summit-usbgadget-fastboot-tcp/src/session.rs:202-225 | End of stream, verdict and answer are a run of the machine, ending with a new session |
| `FastbootTcpService.Service.Handle` | crates/summit-usbgadget-fastboot-tcp/src/session.rs:79-99 | Dispatching a frame is a run of the machine |
| `FastbootTcpService.Service.Run` | crates/summit-usbgadget-fastboot-tcp/src/session.rs:53-74 | A whole connection ends and is one run of the machine, with a restart becoming pending at any time; after an error no transfer is left open |
| `AioProofs.InsertIsNew` | patches/usb-gadget/src/function/custom/aio/mod.rs:465-469 | The duplicate-id panic is unreachable |
| `AioProofs.RemoveIsKnown` | patches/usb-gadget/src/function/custom/aio/mod.rs:470-472 | The unknown-remove panic is unreachable |
| `AioProofs.RunKeepsInv` | patches/usb-gadget/src/function/custom/aio/mod.rs:340-537 | Every interleaving keeps each id in one place, explained by the kernel, an event or a pending command |
| `AioProofs.OperationsConserved` | patches/usb-gadget/src/function/custom/aio/mod.rs:340-537 | In every interleaving: no panic, every id in exactly one place and delivered at most once, queue_length - space counts what is outstanding |
| `AioProofs.WaitingIsInKernel` | patches/usb-gadget/src/function/custom/aio/mod.rs:340-375 | Between calls an undelivered operation is with the kernel, in an event, or about to be taken back |
| `AioProofs.NoLostWakeUp` | patches/usb-gadget/src/function/custom/aio/mod.rs:458-536 | A parked worker with the eventfd at zero has no command or unmatched head without a submitter write to come, and no event without a kernel signal to come |
| `AioProofs.WorkerAlwaysSteps` | patches/usb-gadget/src/function/custom/aio/mod.rs:458-537 | The worker blocks only in the eventfd read |
| `AioProofs.CompletedMakesProgress` | patches/usb-gadget/src/function/custom/aio/mod.rs:380-388 | A blocked wait for completions is never a deadlock |
| `AioProofs.WorkerSettles` | patches/usb-gadget/src/function/custom/aio/mod.rs:458-537 | Left alone, the worker parks after finitely many steps |
| `AioProofs.QuiescentMeansDelivered` | patches/usb-gadget/src/function/custom/aio/mod.rs:458-537 | When all is quiet every finished operation has been delivered, and active means in flight |
| `AioCancel.CancelDelivers` | patches/usb-gadget/src/function/custom/aio/mod.rs:434-505 | After any run that ends between calls, cancel or cancel_all and its eventfd write leave the worker a run of its own, without any kernel completion, that ends parked with none of the operations asked for in flight and each of them delivered; after cancel_all nothing is in flight |
| `AioNotify.NoLostNotification` | patches/usb-gadget/src/function/custom/aio/mod.rs:394-406 | In every interleaving, each completion being notified before the next is sent, a sleeping asynchronous waiter with completions in the channel has a notification still to come |
| `AioNotify.SleeperMakesProgress` | patches/usb-gadget/src/function/custom/aio/mod.rs:394-406 | A sleeping waiter is never stuck: a notification, a worker step, a signal or an operation is outstanding |
| `AioThreads.Shared.constructor` | patches/usb-gadget/src/function/custom/aio/mod.rs:294-327 | A new driver is the initial state |
| `AioThreads.Shared.Submit` | patches/usb-gadget/src/function/custom/aio/mod.rs:340-375 | Whatever the other threads do in between, an accepted call takes one slot, a refused one none, and the worker is notified; it is a run of atomic steps |
| `AioThreads.Shared.TryCompleted` | patches/usb-gadget/src/function/custom/aio/mod.rs:426-432 | Returns the oldest completion, never one returned before, and frees its slot within the bound |
| `AioThreads.Shared.RequestCancellation` | patches/usb-gadget/src/function/custom/aio/mod.rs:434-445 | Whatever the other threads do in between, the request is the call's first step, the worker ends notified, and no slot or completion is touched by the call |
| `AioThreads.Shared.RunCommand` | patches/usb-gadget/src/function/custom/aio/mod.rs:464-504 | Handling a command is a run that takes it off the channel and reaches no panic |
| `AioThreads.Shared.CancelOperations` | patches/usb-gadget/src/function/custom/aio/mod.rs:473-500 | For any answers of io_cancel and any interference: granted operations have left the kernel, nothing else leaves the active map, and what left it was delivered; left alone, exactly the granted ones are delivered, each once |
| `AioThreads.Shared.ProcessCommands` | patches/usb-gadget/src/function/custom/aio/mod.rs:463-505 | The command loop, with submissions going on, is a run that ends with the channel empty |
| `AioThreads.Shared.FetchEvents` | patches/usb-gadget/src/function/custom/aio/mod.rs:508-524 | Batches of sixteen, with events arriving meanwhile, move every event to the queue in order |
| `AioThreads.Shared.MatchEvents` | patches/usb-gadget/src/function/custom/aio/mod.rs:527-536 | Delivers in order and each once; a head it cannot deliver belongs to a command that is waiting |
| `AioThreads.Shared.WorkerPass` | patches/usb-gadget/src/function/custom/aio/mod.rs:458-537 | A pass amid any finite interference ends parked, without a panic, leaving only events whose command waits; left alone, everything is delivered |
| `Controllers.StepKeepsIndex` | crates/summit-usbgadget-usb/src/gadget.rs:652-713 | Bound set and gadget list always name the same controllers, without duplicates |
| `Controllers.StepFollows` | crates/summit-usbgadget-usb/src/gadget.rs:583-611 | Each step, builds being interruptible by hotplug, keeps the bound set in agreement with what the queued events still announce |
| `Controllers.BoundIsAttachedSelected` | crates/summit-usbgadget-usb/src/gadget.rs:567-713 | For All and Named, in every interleaving of startup, builds and hotplug, once things settle exactly the attached selected controllers are bound |
| `Controllers.BoundIsAttached` | crates/summit-usbgadget-usb/src/gadget.rs:652-713 | Under every selection an empty queue means gadgets run only on attached controllers |
| `Controllers.FirstBindsAtMostOne` | crates/summit-usbgadget-usb/src/udc.rs:60-69 | First never binds two |
| `Controllers.FirstUnboundExactly` | crates/summit-usbgadget-usb/src/udc.rs:60-69 | In every settled First run nothing is bound if and only if every attached controller was passed over when it was last offered |
| `Controllers.FirstDoesNotFallBack` | crates/summit-usbgadget-usb/src/udc.rs:60-69 | A run in which First stays unbound although a controller is attached |
| `Controllers.Tracker.Bind` | crates/summit-usbgadget-usb/src/gadget.rs:672-713 | Refines the bind step, with a build that succeeds or fails |
| `Controllers.Tracker.Unbind` | crates/summit-usbgadget-usb/src/gadget.rs:652-662 | Refines the unbind step by a search that always finds the gadget |
| `Controllers.Tracker.BindExisting` | crates/summit-usbgadget-usb/src/gadget.rs:624-633 | Startup binds exactly the enumerated, still attached, selected controllers |
| `Ffs.EncodingIsSelfDelimiting` | patches/usb-gadget/src/function/custom/ffs.rs:96-133 | Magic 3 and the size in front; walking bLength visits exactly the full-, high- and super-speed descriptors in order, walking dwLength the OS descriptors to the very end, and every piece has the fields of its descriptor at their offsets |
| `Ffs.DescLayout` | patches/usb-gadget/src/function/custom/ffs.rs:208-343 | Interface, endpoint, companion, association and custom descriptors: type byte and every field at its literal offset |
| `Ffs.OsLayout` | patches/usb-gadget/src/function/custom/ffs.rs:353-442 | OS descriptors: interface, length, version, index, count, then 24-byte compatible IDs or property sections walked by their sizes, field by field |
| `Ffs.CountsReadBack` | patches/usb-gadget/src/function/custom/ffs.rs:96-119 | Each flag is its own bit and the four lists are always announced; eventfd and the four counts read back from the header |
| `Ffs.RefusedExactly` | patches/usb-gadget/src/function/custom/ffs.rs:176-191 | A list fails to encode if and only if it holds a custom descriptor of more than 253 bytes of data |
| `Ffs.WalkReads` | patches/usb-gadget/src/function/custom/ffs.rs:176-191 | A list of descriptors is read back one by one through bLength, whatever follows |
| `Ffs.WalkOsReads` | patches/usb-gadget/src/function/custom/ffs.rs:353-365 | OS descriptors are read back one by one through dwLength, whatever follows |
| `Ffs.EndpointRoundTrip` | patches/usb-gadget/src/function/custom/ffs.rs:254-300 | Parsing inverts writing, with or without the audio part |
| `Ffs.EndpointParseSound` | patches/usb-gadget/src/function/custom/ffs.rs:269-300 | Only encodings parse: accepted bytes start with the encoding of the result |
| `Ffs.ParseWithCursor` | patches/usb-gadget/src/function/custom/ffs.rs:269-300 | The cursor form of the parser computes the same result and the same failures |
| `Ffs.Write` | patches/usb-gadget/src/function/custom/ffs.rs:208-343 | Appending the fields one by one gives the body whose offsets `Ffs.DescLayout` fixes |
| `Ffs.BuildDesc` | patches/usb-gadget/src/function/custom/ffs.rs:176-191 | The patched length byte gives the encoding |
| `Ffs.BuildProp` | patches/usb-gadget/src/function/custom/ffs.rs:428-442 | The property encoding; its length assertion holds |
| `Ffs.BuildOs` | patches/usb-gadget/src/function/custom/ffs.rs:353-365 | The OS descriptor encoding with its patched length |
| `Ffs.BuildExt` | patches/usb-gadget/src/function/custom/ffs.rs:374-399 | The extension part for both kinds |
| `Ffs.Build` | patches/usb-gadget/src/function/custom/ffs.rs:96-133 | Appending and patching in place gives the whole encoding, or the overflow error |

## Left out

- FastbootUsbDialog.UsbFollowsDialog: only undisturbed runs (parseable commands one per completion, no failure or verdict before the finish); an early verdict closes the queue and changes the reply to a later Flash or Close.
- FastbootTcpDialog.TransportsAgree: the same restriction on both sides, and it requires the two runs to carry the same conversation; what an earlier verdict changes is stated by `VerdictSeparates`.
- DfuStream.CleanRunStreams: runs end at manifestation, abort, CLRSTATUS, a failure or a refused request; beyond those the property is false and its exact failure is stated separately.
- DfuFailure.FailureIsolatesExactly: a DNLOAD that needs a session while a restart is pending is refused, and its lost bytes are not followed further.
- FastbootUsbFraming.DownloadFrames: completions stop at the boundary; what happens otherwise is stated by `OneReplyExactlyWithoutSurplus`.
- AioProofs.OperationsConserved: up to 2^64 submissions; ids repeat afterwards.
- Controllers.BoundIsAttachedSelected: a build only fails when its controller was unplugged meanwhile; a failed enumeration is not modelled.
- Ffs.EncodingIsSelfDelimiting: eventfd numbers are not negative, and the running kernel's bcdVersion is a parameter.
- Replies that fail to be sent are ignored, except the DATA header of a USB download, whose failure resets the function.
- An abort detaches the drain task; what it still writes is covered by `EofDelivers`, not by the handlers that replaced their session.
- AioCancel.CancelDelivers: that every `io_cancel` succeeds is one schedule among others; when the kernel refuses, an operation stays until it completes.
- The "bad size" answer to a flash inside a download and the feed error of the TCP data phase are modelled, but no run reaches them and nothing is stated of them.
- Worker exit after the driver is dropped.
- Recycled buffers and their capacity, and interface-association adjacency.
- `Selection::from_config`, lossy conversion of controller names, TOML configuration and the sorting of enumerated controllers.
- The fastboot handshake, timeouts other than as inputs, TLS and shutdown of connections.
- The getvar table and the sysinfo document are parameters of the machines.
- The strings block and the event parser of FunctionFS.
- SWUpdate IPC structures, progress sockets, restart and reboot, logging, configfs writes and the kernel function builders.
