# The storage stack: one flat byte array, failing closed

This project models the path of a byte range through canoe's storage stack and proves that the
path behaves as one flat byte array until something fails, and as nothing at all afterwards:

    filesystem engine -> guarded device -> chunks -> mailbox -> broker -> byte ranges -> SCSI -> Bulk-Only Transport -> device

`dafny verify dfyconfig.toml` checks everything.

## How it is modelled

- **Transport.** `Device.dfy` gives a conforming Bulk-Only Transport device over a byte disk as
  the set of moves it may make: it may answer early or short, fail or swallow part of any transfer,
  store any part of received data at any time, and refuse a command. A `Wire` carries a fixed list
  of the environment's turns, a log and a flag saying whether every turn so far was one a
  conforming device may make; a statement about all wires is a statement about all environments. Each
  await can complete, move fewer bytes, fail, or be dropped (`Dropped`, also the end of the turns).
- **Two forms.** What the source writes as methods on mutable objects is written here as methods of
  classes (`Scsi`, `RangeSession`, `Context`, `Guarded`, `FileSession`, `Io`, `Broker`), each
  proved equal to a specification function or transition relation; the theorems are about those.
- **Mailbox.** An interleaving transition system in which every `Atomics` operation is one step.
  `Context` holds the code of both sides: the worker's `request` and `chunks` against a broker that
  may take any step in between, and the broker's `io` against a worker that may. A terminated worker
  may go on running in the model, which only adds runs.
- **Session.** Every accepted call is a promise chained on the one before, as the source chains its
  queue; the tasks, replies, teardown and deadlines of the broker are events that may come at any
  time they are possible. `Linked.dfy` runs it beside the mailbox.
- **Engine.** FAT and ext4 are an arbitrary list of block calls, destructors included.
- **Integers.** The tag wraps at 2^32, sector counts are 16 bits, sector numbers 32, offsets 64; the
  shared sequence word is the signed 32-bit truncation of the worker's counter, and the width
  of `usize` is a parameter of the cursor.

## What came out of it

- `Io::read` casts the remaining length to `usize`. With a 32-bit `usize` a device of 8 GiB reads as
  empty at its start (`SpuriousEnd`). A cursor is a file if and only if at each of its reads what
  remains of the device fits `usize`, or its remainder covers the buffer (`CursorIsFile`,
  `StackIsFile`); a device that `usize` can measure always qualifies (`MeasurableIsLossless`).
- The mailbox sequence is compared with a 32-bit word, so from request 2^31 on no request returns
  normally. It fails closed (`NoReturnAfterWrap`).
- Both races on the state word happen (`TimeoutOverwritten`, `ShutdownReset`), and neither yields a
  false success (`ReturnsAreServed`, `PoisonIsFinal`, `NothingReturnsAfterShutdown`).
- Rounding reads up to whole packets is harmless for every packet size, not only for those that
  divide the chunk size (`ExactStageIsJudged`).
- A valid range is refused only if its sectors number more than 65535, which can happen only with
  sectors under 128 bytes (`SpanAccepts`, `NarrowSectorsCanBeRefused`).
- The check in `connect` for more than 2^32 - 1 blocks can never fire, because READ CAPACITY
  has already ruled that out; `ConnectOnDevice` states exactly which media are accepted.

## Model

| member | source | states |
|---|---|---|
| Codec.CbwRoundTrip | nusb-scsi/src/lib.rs:331-338 | decoding any command block wrapper the host builds gives back tag, length, direction, unit and command, and the rest is zero |
| Codec.CswRoundTrip | nusb-scsi/src/lib.rs:363-371 | a status block built for a tag passes the host's test for that tag and yields its residue and code |
| Codec.CswNamesOneCommand | nusb-scsi/src/lib.rs:364-366 | a status block accepted under one tag is accepted under no other |
| Codec.BlockRoundTrip | nusb-scsi/src/lib.rs:508-512 | opcode, sector number and count are recovered from a READ/WRITE(10) command |
| Codec.WireRoundTrip | nusb-scsi/src/lib.rs:331-338 | the device recovers every field from the 31 bytes, and two encodings are equal only if all fields are |
| Bot.DriveAwait | nusb-scsi/src/lib.rs:341-363 | one await followed by the rest of the command is one stretch of the step machine |
| Lockstep.StatusTaken | nusb-scsi/src/lib.rs:344-375 | conservation: once all the data and 13 more bytes were taken from a pipe that began empty, the data is what the device sent and the 13 bytes are its status |
| Lockstep.TracksAnswer | nusb-scsi/src/lib.rs:341-381 | every completed, failed or dropped transfer keeps host and device accounts equal, byte for byte |
| Lockstep.TracksMove | nusb-scsi/src/lib.rs:341-381 | so does everything the device does by itself between transfers |
| Lockstep.SettlingMove | nusb-scsi/src/lib.rs:356-362 | no later move of the device alone stores anything outside the command's own range |
| Lockstep.CommandOnDevice | nusb-scsi/src/lib.rs:315-382 | usable after a command implies framing is in step; success returns exactly the bytes the device sent and vouched for, or means the bytes are stored; whatever happened, only this command's range may hold new bytes; usable stays true exactly on success, refusal by the device, or refusal before the wire |
| Soundness.SuccessIsReceipted | nusb-scsi/src/lib.rs:315-382 | against any transport, success means one full wrapper, then the exact data stage in order, then a 13-byte status with this tag, residue 0 and code 0, and nothing else on the wire |
| Soundness.ReplyLength | nusb-scsi/src/lib.rs:344-355 | a reply always has the length asked for, so the callers' slices are in bounds |
| Soundness.LockstepForever | nusb-scsi/src/lib.rs:315-382 | in every run of any commands on a conforming device, a usable session faces a device that awaits a wrapper with both pipes empty |
| Soundness.RetiredIsSilent | nusb-scsi/src/lib.rs:321-323 | a retired session transfers nothing and never comes back |
| Soundness.TagCounts | nusb-scsi/src/lib.rs:329-330 | the tag is the number of commands that reached the wire, modulo 2^32 |
| Soundness.UsableIsReceipted | nusb-scsi/src/lib.rs:340-381 | against any transport, a session is usable after a command on the wire exactly when it succeeded or the device refused it, and then one full wrapper, the exact data stage and a 13-byte status with this tag were exchanged |
| Soundness.StaleStatusRefused | nusb-scsi/src/lib.rs:363-379 | the status accepted now, as success or as a refusal, would have been accepted for an earlier command exactly when a multiple of 2^32 commands lies between |
| Soundness.VerdictIsBytes | nusb-scsi/src/lib.rs:364-381 | a status counts as success or refusal exactly when its 13 bytes are the signature, this tag, a residue within the transfer, and code 0 with no residue, or code 1 |
| OnWire.CommandOnWire | nusb-scsi/src/lib.rs:321-343 | on any wire a command is either refused, for the reasons listed, and touches nothing, or first sends 31 bytes that carry the next tag, its length and direction, the session's own unit and its own command bytes; without data to send it sends nothing else |
| OnWire.ReadBlocksOnWire | nusb-scsi/src/lib.rs:434-442 | a block read sends opcode 0x28 with this sector number and count, to this session's unit, and nothing else, or is refused when they cannot be named |
| OnWire.WriteBlocksOnWire | nusb-scsi/src/lib.rs:443-455 | a block write first sends opcode 0x2a with this sector number and count, or is refused for a range or a length that does not fit |
| OnWire.EjectOnWire | nusb-scsi/src/lib.rs:411-416 | an eject sends 0x1b with the eject bit alone; the session stays usable exactly when the device refused it |
| OnWire.FlushOnWire | nusb-scsi/src/lib.rs:456-460 | a flush sends 0x35 alone; the session stays usable exactly when the device answered |
| OnWire.GeometryOnWire | nusb-scsi/src/lib.rs:420-423 | the geometry is asked for with 0x25 and eight bytes of reply |
| OnWire.InitializeOnWire | nusb-scsi/src/lib.rs:390-407 | becoming ready is one TEST UNIT READY; if the device refuses it, its sense data; and if that is a normal attention, TEST UNIT READY once more: the result and the state are those of the last command, for every sense |
| OnWire.ReadRangeOnWire | nusb-scsi/src/range.rs:70-77 | an accepted read is one READ(10) of its least cover |
| OnWire.WriteRangeOnWire | nusb-scsi/src/range.rs:85-100 | an accepted write of whole sectors is one WRITE(10) of its least cover; any other reads the cover first and writes it only if that succeeded |
| ScsiSpec.BlockLength | nusb-scsi/src/lib.rs:434-442 | a successful block read has exactly count times sector size bytes |
| ScsiObjects.Link.Transfer | nusb-scsi/src/lib.rs:264-281 | one awaited transfer, whatever the environment does first |
| ScsiObjects.Scsi.ReceiveData | nusb-scsi/src/lib.rs:345-355 | the data-in loop is the step machine from the wrapper to the status, or ends it where it fails |
| ScsiObjects.Scsi.SendData | nusb-scsi/src/lib.rs:356-362 | the data-out loop likewise |
| ScsiObjects.Scsi.TakeStatus | nusb-scsi/src/lib.rs:363-381 | the status decides result and usability as the step machine does |
| ScsiObjects.Scsi.Command | nusb-scsi/src/lib.rs:315-382 | the method with its loops and the step machine agree on session, wire and result, for every wire |
| ScsiObjects.Scsi.InitializeReady | nusb-scsi/src/lib.rs:390-407 | one retry, only after sense data of a reset or new medium |
| ScsiObjects.Scsi.Eject | nusb-scsi/src/lib.rs:412-416 | a successful eject retires the session |
| ScsiObjects.Scsi.Flush | nusb-scsi/src/lib.rs:456-460 | one SYNCHRONIZE CACHE command |
| ScsiObjects.Scsi.ReadGeometry | nusb-scsi/src/lib.rs:420-433 | the geometry specification, on the object's state |
| ScsiObjects.Scsi.ReadBlocks | nusb-scsi/src/lib.rs:434-442 | refusals leave the wire alone; otherwise one READ(10) |
| ScsiObjects.Scsi.WriteBlocks | nusb-scsi/src/lib.rs:443-455 | refusals leave the wire alone; otherwise one WRITE(10) |
| RangeSpec.CoverIsLeast | nusb-scsi/src/range.rs:63-66 | the sectors from floor to ceiling are exactly those the range reaches into |
| RangeSpec.WideSectorsSuffice | nusb-scsi/src/range.rs:65-66 | with sectors of 128 bytes or more no range of 4 MiB needs more than 65535 of them |
| RangeSpec.SpanAccepts | nusb-scsi/src/range.rs:54-68 | a range is accepted if and only if it is 1 byte to 4 MiB, lies on the medium and covers at most 65535 sectors |
| RangeSpec.SpanCasts | nusb-scsi/src/range.rs:65-67 | the casts of an accepted span lose nothing and it ends on the medium |
| RangeSpec.SpanIsLeastCover | nusb-scsi/src/range.rs:63-67 | an accepted span holds exactly the sectors the range reaches into |
| RangeSpec.SpanUsable | nusb-scsi/src/range.rs:54-68 | an accepted span holds the range at its offset, its byte count fits 32 bits, and the command builder never refuses it |
| RangeSpec.NarrowSectorsCanBeRefused | nusb-scsi/src/range.rs:65-66 | 4 MiB over 64-byte sectors is refused for its sector count |
| RangeSpec.Connect | nusb-scsi/src/range.rs:20-36 | only a supported geometry is ever admitted, whatever the transport says |
| RangeObjects.CopyInto | nusb-scsi/src/range.rs:96 | the in-place copy is the patch of the buffer |
| RangeObjects.RangeSession.Connect | nusb-scsi/src/range.rs:20-36 | a session exists only for a ready device of supported geometry |
| RangeObjects.RangeSession.ReadRange | nusb-scsi/src/range.rs:70-77 | the object agrees with the specification on session, wire and result |
| RangeObjects.RangeSession.WriteRange | nusb-scsi/src/range.rs:81-101 | the same for writes, the read-modify-write patching its buffer in place |
| RangeObjects.RangeSession.Sync | nusb-scsi/src/range.rs:102-104 | a flush of the SCSI session |
| RangeObjects.RangeSession.Eject | nusb-scsi/src/range.rs:105-107 | an eject of the SCSI session |
| FlatDisk.ReadBlocksOnDevice | nusb-scsi/src/lib.rs:434-442 | on a conforming device a block read changes nothing and, when it succeeds, is the slice of the medium |
| FlatDisk.WriteBlocksOnDevice | nusb-scsi/src/lib.rs:443-455 | a successful block write is the patch; any other is confined to its sectors, for ever |
| FlatDisk.ReadRangeFlat | nusb-scsi/src/range.rs:70-77 | a range read changes nothing and, when it succeeds, is the slice of the flat array |
| FlatDisk.ConfinedThroughSectors | nusb-scsi/src/range.rs:92-99 | storing any part of sectors that differ from the medium only in the range can change only the range |
| FlatDisk.SettlingForever | nusb-scsi/src/range.rs:81-101 | a confined change stays confined through every later move of the device |
| FlatDisk.RewriteFlat | nusb-scsi/src/range.rs:92-99 | a read-modify-write is the flat update of its range, or leaves only old or new bytes in it, for ever |
| FlatDisk.WriteRangeFlat | nusb-scsi/src/range.rs:81-101 | a successful write, aligned or not, is the flat update; after a failed or dropped one every byte outside the range is unchanged and each inside is old or new, now and later; refusals leave the wire alone |
| FlatDisk.InitializeReadyOnDevice | nusb-scsi/src/lib.rs:390-407 | becoming ready changes nothing on the medium |
| FlatDisk.CapacityRoundTrip | nusb-scsi/src/lib.rs:420-433 | parsing the capacity reply gives the medium's geometry, and refuses exactly what it cannot express |
| FlatDisk.ReadGeometryOnDevice | nusb-scsi/src/lib.rs:420-433 | the geometry read from a conforming device is the medium's |
| FlatDisk.ConnectOnDevice | nusb-scsi/src/range.rs:20-36 | connecting learns the true geometry, changes nothing, and accepts exactly the addressable media |
| FlatDisk.WriteThenFreshRead | nusb-scsi/src/range.rs:70-101 | write, sync, connect afresh and read back: the bytes written |
| Progress.CommandCanSucceed | nusb-scsi/src/lib.rs:315-382 | from every state between commands every unrefused command can succeed on a conforming device, with any data the device can vouch for |
| Progress.RangeCanBeRead | nusb-scsi/src/range.rs:70-77 | every accepted range can be read |
| Progress.RangeCanBeWritten | nusb-scsi/src/range.rs:81-101 | every accepted range can be written, aligned or by read-modify-write |
| Progress.AnyMediumCanBeServed | nusb-scsi/src/range.rs:20-36 | every medium of a supported geometry has a device and a session to start from |
| Witness.WideSectorsTake | browser/filesystem-worker.js:57-63 | with sectors of 128 bytes or more no request of an engine call within bounds is refused by the ranges, for every mailbox up to 4 MiB |
| Witness.CallCanBeServed | canoe-fs/src/lib.rs:49-71 | over every medium, every engine call whose requests the ranges accept, however many, can be served through the whole stack, and the results about the stack apply to that run |
| Packets.TransferIsAStreamRead | nusb-scsi/src/lib.rs:274-280 | a transfer takes bytes off the front of the packet stream and nothing else |
| Packets.TransferStaysInData | nusb-scsi/src/lib.rs:274-280 | a buffer of whole packets that fills up or meets the data's short packet takes data only |
| Packets.StreamInOrder | nusb-scsi/src/lib.rs:344-355 | from any stream sent in packets the host's data is a prefix, in order |
| Packets.ExactStageIsJudged | nusb-scsi/src/lib.rs:344-363 | for every packet size, rounding up never makes an exact data stage swallow status bytes: the host judges exactly that status holding exactly that data, and leaves nothing |
| Packets.ExactStageSucceeds | nusb-scsi/src/lib.rs:344-381 | so success, refusal and protocol error come out as the status says |
| Mailbox.WorkerKeeps | browser/filesystem-worker.js:10-54 | every worker step keeps the mailbox invariant |
| Mailbox.BrokerKeeps | browser/filesystem.js:116-212 | every broker step, completion and shutdown keeps it |
| Mailbox.ReturnJournals | browser/filesystem-worker.js:47-53 | a normal return adds exactly the one completed operation |
| MailboxProofs.ReturnsAreServed | browser/filesystem-worker.js:18-54 | over all interleavings the n-th normal return was served by the n-th storage operation and no other, completed, with the same kind, offset, length, data and sequence, and a read holds exactly its bytes |
| MailboxProofs.BufferIsOwned | browser/filesystem.js:178-205 | the broker fills the buffer only for the request the worker is asleep on or for a poisoned worker, and takes a write's data unchanged |
| MailboxProofs.PoisonIsFinal | browser/filesystem-worker.js:10-19 | a poisoned worker posts nothing, returns nothing and stays poisoned; at most one operation beyond the returned ones is ever started |
| MailboxProofs.NoReturnAfterWrap | browser/filesystem-worker.js:29-52 | no request returns normally once the sequence outgrows the shared 32-bit word |
| MailboxProofs.StartsArePermitted | browser/filesystem.js:168-195 | in every run every operation the broker starts lies within capacity and mailbox, and none writes in a read-only session |
| MailboxProofs.RunKeepsWord | browser/filesystem-worker.js:10-17 | for a live worker the state word is 0, 1 or, in a stopped session only, -1 |
| MailboxProofs.RetirementIsSeen | browser/filesystem-worker.js:10-15 | in every run a retired worker has left its mark, and every later look of the broker at the state word stops the session |
| MailboxProofs.LiveMatches | browser/filesystem.js:158-176 | for a live worker in a running session the checks before an operation pass |
| MailboxProofs.LiveCompletes | browser/filesystem.js:181-205 | and so do those after it, up to the published answer |
| MailboxProofs.FailedCheckStops | browser/filesystem.js:158-211 | a check that fails stops the session, and nothing is started, filled or published |
| MailboxRuns.IdleIsCalm | browser/filesystem.js:156-212 | whenever the worker is between requests in a running session, nothing is on its way |
| MailboxRuns.RequestCanReturn | browser/filesystem-worker.js:18-54 | from every such state every admissible read, write or sync can return, a read with whatever storage reads, and leaves such a state |
| MailboxRuns.TimeoutOverwritten | browser/filesystem-worker.js:42-46 | the broker's 1 can overwrite the worker's timeout mark, and still nothing is returned |
| MailboxRuns.ShutdownReset | browser/filesystem-worker.js:30-32 | the worker's reset can overwrite a shutdown mark, leaving a request nobody answers |
| MailboxRuns.StopWakesWorker | browser/filesystem.js:119-120 | a shutdown wakes a sleeping worker, which throws |
| MailboxRuns.NothingReturnsAfterShutdown | browser/filesystem.js:116-121 | after a shutdown no request returns unless its result had been published before |
| Chunking.PiecesPartition | browser/filesystem-worker.js:57-60 | the requests tile the transfer in order without gap or overlap, none empty, number the ceiling of length over mailbox size, and carry exactly its data |
| WorkerObjects.ChecksPass | browser/filesystem-worker.js:47-52 | in a running session, below 2^31 requests, the answer a live worker wakes to passes its checks |
| WorkerObjects.Context.Interfere | browser/filesystem-worker.js:42-46 | the broker takes exactly the steps of one beat that it can take |
| WorkerObjects.Context.AwaitAnswer | browser/filesystem-worker.js:41-46 | the wait loop ends with an answer seen, or because the wait lapsed in one beat that says so, or after the last beat, right after the word was seen 0 |
| WorkerObjects.Context.Conclude | browser/filesystem-worker.js:47-54 | the three checks return exactly when the journal gains this request, and fail only in a stopped session or past the width of the shared word |
| WorkerObjects.Context.BeginRequest | browser/filesystem-worker.js:18-29 | a request is numbered if it lies within mailbox and capacity, and retires the worker if not |
| WorkerObjects.Context.Request | browser/filesystem-worker.js:18-54 | a normal return adds this request and the bytes of the operation that completed for it; a throw adds nothing, leaves the worker poisoned, and happens only because it was so before, the range is bad, the wait lapsed, the session stopped or the sequence outgrew its word |
| WorkerObjects.Context.Chunks | browser/filesystem-worker.js:57-60 | success is all pieces in order; a throw at a piece, for one of those reasons, leaves exactly the earlier ones done and no later one made |
| WorkerObjects.Context.Io | browser/filesystem.js:156-196 | from a message the broker starts exactly the operation the worker's last request asks for, with its data, or none and the session is stopped; a live worker's permitted request in a running session is always started |
| WorkerObjects.Context.IoSettled | browser/filesystem.js:178-211 | what is published to a live worker is the completed operation of its own request, and every good outcome is published to it; otherwise the session is stopped |
| WorkerObjects.PublishingIsTrue | browser/filesystem.js:203-205 | the store of 1 tells a live worker the truth |
| GuardSpec.EveryTraceIsClean | canoe-fs/src/lib.rs:27-71 | for every engine, every call that reaches the device is in bounds, none writes a read-only session, only the last may have failed, and a retired guard lets nothing through |
| GuardSpec.RefusalReasons | canoe-fs/src/lib.rs:28-71 | an open guard refuses a range past the end first, then a write in a read-only session, and nothing else |
| GuardSpec.SessionTraceIsClean | canoe-fs/src/lib.rs:225-246 | the same over whole sessions, destructors included; and after abort, drop, a returned failed mutation or flush, or any finish nothing more reaches the device |
| GuardSpec.ClosedIsSilent | canoe-fs/src/lib.rs:225-233 | a closed or retired session never reaches the device again, whatever is called |
| GuardObjects.Guarded.Refusal | canoe-fs/src/lib.rs:28-41 | which calls are refused before the device, and why |
| GuardObjects.Guarded.Complete | canoe-fs/src/lib.rs:42-47 | a failure retires the device |
| GuardObjects.Guarded.Call | canoe-fs/src/lib.rs:49-71 | a call is refused without a trace, or answered by exactly its pieces in the mailbox, or fails after some of them, for one of the worker's reasons, and retires the guard |
| GuardObjects.ExplainedPlays | canoe-fs/src/lib.rs:49-71 | a run of calls on the objects is a run of the guard specification |
| GuardObjects.RunEngine | canoe-fs/src/lib.rs:200-224 | any list of engine calls is explained call by call |
| GuardObjects.FileSession.Query | canoe-fs/src/lib.rs:225-233 | a query makes exactly the calls asked for in a mounted session that is not retired, and none otherwise |
| GuardObjects.FileSession.Mutate | canoe-fs/src/lib.rs:234-246 | a mutation makes exactly the calls asked for when the session is mounted, not retired and writable, and none otherwise; the engine's failure retires the guard before it returns |
| GuardObjects.FileSession.FlushMount | canoe-fs/src/lib.rs:605-625 | flush and fresh read likewise, on read-only sessions too |
| GuardObjects.FileSession.Finish | canoe-fs/src/lib.rs:626-642 | a writable finish makes the engine's calls and, if they went well, the final flush, and succeeds only if that reached the device and succeeded; a read-only one lets nothing through |
| GuardObjects.FileSession.Abort | canoe-fs/src/lib.rs:643-651 | nothing the mount's destructor tries reaches the device |
| GuardObjects.FileSession.Live | canoe-fs/src/lib.rs:197-652 | a whole life of the object is a run of the session specification in which each operation is the one asked for, and every call its engines made is explained in order, with the guard perhaps retired in between |
| GuardObjects.CastIsLossless | canoe-fs/src/lib.rs:81-83 | a read asks for what it should if and only if the remaining length fits `usize` or its remainder covers the buffer |
| GuardObjects.SpuriousEnd | canoe-fs/src/lib.rs:81-83 | with 32 bits an 8 GiB device reads as empty |
| GuardObjects.Io.Read | canoe-fs/src/lib.rs:79-90 | only success moves the position, by what was read, and never past the end |
| GuardObjects.Io.Write | canoe-fs/src/lib.rs:91-98 | the same for writes |
| GuardObjects.Io.Seek | canoe-fs/src/lib.rs:103-116 | a seek succeeds exactly within the device and otherwise leaves the position |
| CursorProofs.CursorStep | canoe-fs/src/lib.rs:79-102 | one call of the cursor on a flat device replies as the file does if and only if the cast loses nothing that it wants |
| CursorProofs.CursorIsFile | canoe-fs/src/lib.rs:79-116 | any operations on a cursor over a flat device are those of a file of fixed size, with the same replies, position and content, if and only if the cast loses nothing at any read |
| CursorProofs.MeasurableIsLossless | canoe-fs/src/lib.rs:81-83 | it never does when `usize` can hold the device's length |
| CursorProofs.LossyRead | canoe-fs/src/lib.rs:81-89 | and where the remaining length is a multiple of what `usize` counts to, a read of any size reports the end of the file |
| CursorProofs.RunFile | canoe-fs/src/lib.rs:79-116 | the cursor object makes exactly the calls and gives exactly the replies the results speak of |
| CursorProofs.StackIsFile | canoe-fs/src/lib.rs:79-116 | the same over the whole stack, down to the medium, with the same exact condition, for as long as the guard is not retired |
| CursorProofs.UnbrokenStaysOpen | canoe-fs/src/lib.rs:42-47 | and calls alone never retire it unless one is broken |
| EndToEnd.ServeIsFlat | browser/filesystem.js:177-195 | one storage operation: success is the flat operation, and whatever comes of it and whatever the device does later, only a write's range may hold new bytes, old or new |
| EndToEnd.JournalIsFlat | browser/filesystem-worker.js:18-54 | in every run, the normal returns replayed on a flat array give the medium at that point |
| EndToEnd.ReadReplay | browser/filesystem-worker.js:57-61 | a chunked read has gathered the slice as far as it got and changed nothing |
| EndToEnd.WriteReplay | browser/filesystem-worker.js:57-62 | a chunked write has updated the range as far as it got |
| EndToEnd.ServedCall | canoe-fs/src/lib.rs:56-70 | one served engine call is one flat operation |
| EndToEnd.EngineIsFlat | canoe-fs/src/lib.rs:49-71 | any engine run without a device failure is the same run on one flat array |
| EndToEnd.StackIsFlat | canoe-fs/src/lib.rs:56-70 | as long as no device failure was returned, every reply of every call and the medium beneath are those of one flat byte array |
| EndToEnd.StackFailsClosed | canoe-fs/src/lib.rs:42-47 | the first device failure ends everything: before it the run was flat, after it every call is refused and nothing moves, and the medium differs from the flat array at most by old or new bytes in the failed write's range, also however an operation still under way ends and whatever the device goes on to store |
| EndToEnd.RunStack | canoe-fs/src/lib.rs:49-71 | guard, chunks and mailbox as objects run under these results, for every behaviour of the broker's context |
| EndToEnd.RunSession | canoe-fs/src/lib.rs:197-652 | so does the whole life of a session object, with failed mutations, finish, abort and destructors |
| Lifecycle.SessionIsOrderly | browser/filesystem.js:116-301 | in every run the final close is issued at most once and with no operation unsettled, teardown never waits on itself, the calls whose tasks ran are the first accepted, they reach the worker in that order with at most one without a reply, and each promise settles at most once, in order |
| Lifecycle.StepKeeps | browser/filesystem.js:92-301 | every event keeps the session invariant |
| Lifecycle.DueIsFirst | browser/filesystem.js:298-299 | the promise chain lets only the first unsettled call's task run |
| Lifecycle.RejectAllKeeps | browser/filesystem.js:92-99 | the loop over the unanswered calls settles the one there is |
| Lifecycle.StoppedSessionSettles | browser/filesystem.js:100-148 | once a session is stopping, each deadline or task does some of the remaining work, and nothing that storage, worker or caller do adds to it |
| Lifecycle.EveryRunSettles | browser/filesystem.js:92-148 | in every run of a stopped session a deadline or task is due until all is done, only so many can happen, and once they have the session is down and every accepted call has settled |
| Lifecycle.Drains | browser/filesystem.js:92-148 | such a run exists from every stopped session |
| Accounts.FateDecides | browser/filesystem.js:116-257 | in every run a session runs until the first fatal event: a message too early, out of order or out of bounds, a failed operation, a retired or finished reply to the call under way, trouble or abort; a finished one is down at once without closing, any other is closing its storage |
| Accounts.FailureCloses | browser/filesystem.js:126-133 | a failed or aborted session that is down has issued its final close, unless the pending abort failed or the operation did not settle in time |
| Accounts.EveryCallCounts | browser/filesystem.js:277-301 | while a session runs every call is accepted, every task that has its turn posts its call, every reply to the call under way settles it, and nothing else does |
| Accounts.FulfilledIsEarned | browser/filesystem.js:236-253 | a call's promise is fulfilled only by a good or finishing reply to that very call |
| Accounts.RepliesSettle | browser/filesystem.js:242-252 | a good reply to the call under way fulfils it and a bad one rejects it |
| Accounts.SessionsAreRuns | browser/filesystem.js:51-81 | every session of a history is the run of its own events |
| Accounts.StoragesAreAsUsed | browser/filesystem.js:51-148 | in every history a storage is consumed if and only if a session on it was failed or aborted, and owned if and only if one on it is not down |
| Accounts.FinishFreesStorage | browser/filesystem.js:51-54 | so a storage can be opened if and only if every session there was on it has finished |
| Lifecycle.WorldKeeps | browser/filesystem.js:51-54 | no event of any session breaks the ownership of storages |
| Lifecycle.OwnershipIsExclusive | browser/filesystem.js:51-81 | over every history a storage has at most one session that is not down, and a consumed storage is never owned again |
| Lifecycle.StorageClosesLast | browser/filesystem.js:116-148 | over every history of sessions that are told they finished only between requests, while one on a storage is not down no other has an operation on it unsettled; so none is when the final close is issued |
| Linked.FinishIsQuiet | browser/filesystem.js:156-253 | mailbox and session agree on what is running and unsettled in every run, and `finish` is replied to only when nothing is |
| Linked.StorageClosesLast | browser/filesystem.js:51-148 | the same order of closing over every history of any number of brokers with their workers, with nothing assumed of it |
| LifecycleObjects.Broker.Shutdown | browser/filesystem.js:116-148 | only the first shutdown has an effect, on all the session's variables |
| LifecycleObjects.Broker.Io | browser/filesystem.js:156-176 | a message starts an operation or the teardown |
| LifecycleObjects.Broker.IoSettled | browser/filesystem.js:206-221 | a settled operation is released, after starting the teardown if it failed |
| LifecycleObjects.Broker.RejectAll | browser/filesystem.js:92-99 | the loop settles every call without a reply when teardown is over |
| LifecycleObjects.Broker.OnReply | browser/filesystem.js:235-253 | a reply settles its own call, or retires or finishes the session |
| LifecycleObjects.Broker.Call | browser/filesystem.js:277-301 | a call is refused in a closed session, else chained on the queue |
| LifecycleObjects.Broker.RunTask | browser/filesystem.js:282-297 | a chained call is posted under the next number, or rejected when the session is closed |
| LifecycleObjects.Broker.Live | browser/filesystem.js:213-336 | a whole life of the object under any events is a run of the specification and keeps its invariant |

## Left out

- FAT and ext4 themselves (parsing, journal replay, checksums, `inspect`, `stat`, `list`, labels): an engine is any list of block calls, and its verdict on a mutation is arbitrary.
- `path` in canoe-fs: a check of text that no other part depends on.
- nusb, WebUSB and wasm-bindgen, descriptor and interface selection, closing, LUN discovery, the facades of canoe-usb-web and fastboot: the transport is whatever the turns say.
- INQUIRY (an informational reply that nothing reads), `validate_timeout` (a bound on a caller's argument) and `parse_max_lun` (the shape of one control reply): no modelled operation depends on them. `Scsi::new` is the type of admissible units.
- Real clocks: a wait or a deadline may expire at any step; settlement of calls assumes that deadlines fire.
- Engine strategies that react to replies: a strategy's run is the list of calls it came to make, and the results hold for every list.
- JavaScript type errors (results that are not byte arrays, unsafe integers beyond the checks): the broker sees well-typed messages; a short or failed result is an outcome.
- Opening a session: the worker's ready message changes nothing in the model, a mount that fails or times out is one `Trouble` event, and the mutation and argument checks of a call refuse it before it is accepted.
- Microtasks: the steps between a settlement and its handlers are merged with it.
- EndToEnd.StackIsFlat: takes from the storage only that its promises settle as the range session settles them, called in the order the broker starts them; the wrapper around the range session is not part of this model.
- The worker's dispatch of calls to the engine: the mailbox lets it begin a request whenever it is between two.
- Packets.ExactStageIsJudged: covers devices that send exactly the declared data before the status; early or short data at the level of transfers is covered by the results of `Lockstep`.
