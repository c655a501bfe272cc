# Verified model of the eufy client's protocol core

A Dafny model of the parts of the repository whose correctness is decided by their own code: the promise-based
bookkeeping of the client, its caches and registries, and the binary formats it reads and writes.

| files | what they model |
|---|---|
| `Lz4Block.dfy` | the LZ4 block decoder against the LZ4 Block Format Description |
| `RawDp.dfy`, `RawDpRoundTrip.dfy`, `ProtoRead.dfy` | the structured data-point writer, reader and field readers |
| `StoredImages.dfy`, `StoredImageRuns.dfy` | the passive image cache |
| `ObservedWrites.dfy`, `ObservedWriteRuns.dfy`, `ObservedWriteHistory.dfy` | observed writes and the keyed transaction queue |
| `Announcements.dfy` | the filter that announces each change of state once |
| `Realtime.dfy`, `RealtimeRuns.dfy`, `RealtimeReady.dfy`, `RealtimeTally.dfy` | realtime bring-up, secure MQTT transports, push client, disconnect |
| `Availability.dfy` | the order of availability observations |
| `DeviceRegistry.dfy`, `DeviceRegistryRuns.dfy`, `ListReuse.dfy` | the device list, the poll diff, reports over the cloud, the shared fetch |
| `VacuumMapStore.dfy`, `MapPixels.dfy`, `VacuumMap.dfy` | the map store, packed planes and grid arithmetic, the plane decoders |
| `Ff09.dfy`, `Ff09Results.dfy` | the `ff09` lock frames and the auto-lock write |
| `CleanRecord.dfy` | the clean-record container |
| `Common.dfy` | options, octets, slices, walking a set |

Code that changes state is modelled twice: as a class whose methods update its fields with the loops and branches of
the source, and as functions on the value of that state. Each method's contract says its new state is the function of
the old one; the results are then proved about those functions, over every run. A run is any sequence of steps, where a
step is what happens between two awaits, and completions, failures, pushes and disconnects come in any order.

What the results assume:

- Event listeners do not throw, and no transaction queues another before its first await.
- A login or an on-demand MQTT start waits until `disconnect()` has resolved.
- Polls do not overlap. A poll's refresh, its diff and its application are three steps, with anything in between.
- The protobuf reader reads 32-bit tags and lengths and 64-bit values, and fails on a truncated varint; base64 is an
  inverse pair; AES-128-CBC with padding is an inverse pair that pads to whole blocks. Each contract is shown to be
  satisfiable.
- Time is a non-decreasing integer.

Where the code is narrower or wider than its documentation, the model follows the code:

- The LZ4 decoder accepts a block that ends right after a match, and an empty block of size 0; the end-of-block
  conditions of the format would refuse them.
- The field readers take the first of repeated fields, where the Protocol Buffers encoding lets the last one win.
- The auto-lock write is documented to preserve everything but enable and delay
  (`src/transport/ff09.ts:712-716`); it sends A6, the schedule switch, as zero. `ScheduleSwitchIsKeptIff` says exactly when
  that preserves it, and `ScheduleIsTurnedOff` shows a reply for which it does not.
- A device can leave the poll's baseline without being reported removed: `LostSilentlyIff` gives the exact condition, and
  `AddedTwiceWithoutRemoval` and `CompletePollCanLoseSilently` two runs where it happens.
- A report that comes after a poll has landed and before the poll's changes are applied is retired with them although it
  is the newer value, when it is of a param the poll moved; `ReportSurvivesIff` gives the exact condition and
  `AReportCanBeDropped` such a run. Between those steps the code waits on settled promises only.
- Of a grid with more than 2^31 cells some are not answered, the index being shifted as a 32-bit integer;
  `EveryCellIsAnsweredIff` gives the exact condition.
- Between disconnects transactions of one key run one at a time; across a disconnect two can run together, and only then
  (`BesideOnlyAcrossEpochs`).

`dafny verify dfyconfig.toml` verifies the project.

## Model

| member | source | states |
|---|---|---|
| `Lz4Block.Decompress` | src/core/lz4-block.ts:46-96 | A block decompresses to the bytes one reading of it in the LZ4 block format means, whenever it has a reading of exactly `size` bytes; `undefined` exactly when it has none or the size is negative or over the 64 MiB cap. Every access is in bounds and the loop ends. |
| `Lz4Block.DecodeMeetsFormat` | src/core/lz4-block.ts:70-95 | What the cursor loop answers is what the format says, both ways: an answer is the meaning of a printed list of sequences, and every printed list of that size is answered. |
| `Lz4Block.DecodesEveryPrintedBlock` | src/core/lz4-block.ts:70-95 | From any position and any output so far, a block that goes on with the print of well-formed sequences decodes to their meaning, in exactly the size cases the code allows (a block may end after a match, an empty block is size 0). |
| `Lz4Block.AcceptsOnlyPrintedBlocks` | src/core/lz4-block.ts:70-95 | Conversely whatever the loop accepts is the print of a well-formed list of sequences, which the lemma produces. |
| `Lz4Block.AtMostOneReading` | src/core/lz4-block.ts:46-96 | No two readings of one block differ, so the decoder has no choice to make. |
| `Lz4Block.PrintIsInjective` | src/core/lz4-block.ts:59-93 | Different lists of sequences print to different blocks. |
| `Lz4Block.MatchIsPeriodic` | src/core/lz4-block.ts:91-92 | A match that overlaps its own output continues it periodically: each byte copied is the one `offset` back, for any offset and length. |
| `Lz4Block.ChainAddsUp` | src/core/lz4-block.ts:59-68 | A saturated length is fifteen and the sum of the octets that follow, each 255 but the last. |
| `Lz4Block.OneSequenceInOctets` | src/core/lz4-block.ts:70-93 | One sequence and a last literal in octets: literal count above match length less four in the token, offset little-endian, an overlapping copy. |
| `Lz4Block.LaxEnds` | src/core/lz4-block.ts:78-95 | An empty block answers nothing, and a block that ends on a match is accepted. |
| `Lz4Block.Extend` | src/core/lz4-block.ts:59-68 | The length chain is read to its end: each 255 continues it, running out of block is an error, and a nibble below 15 has no chain. |
| `Lz4Block.CopyLiterals` | src/core/lz4-block.ts:76 | The literal loop appends exactly the block's next `n` bytes to the output and moves nothing written before. |
| `Lz4Block.CopyBack` | src/core/lz4-block.ts:91-92 | The match loop appends the byte-by-byte copy that `MatchIsPeriodic` describes, overlap included. |
| `Lz4Block.TakeRun` | src/core/lz4-block.ts:71-76 | One literal run: refused when it would run past block or output, otherwise appended whole. |
| `Lz4Block.TakeMatch` | src/core/lz4-block.ts:81-92 | One match: refused for a missing, zero or too distant offset, an unfinished chain or an overflow; otherwise appended as its meaning. |
| `RawDp.EncodeVarint` | src/core/raw-dp-writer.ts:34-46 | The loop emits the base-128 varint of every non-negative safe integer and throws on everything else. |
| `RawDp.VarintMeansItsValue` | src/core/raw-dp-writer.ts:34-46 | A varint is self-delimiting (continuation bit on all but its last byte) and its seven-bit groups, lowest first, add up to the value. |
| `RawDpRoundTrip.ZigzagIsUndone` | src/core/raw-dp-writer.ts:57-60 | `signed` undoes `zigzag` for every integer. |
| `RawDp.RawDpWriter.Put` | src/core/raw-dp-writer.ts:78-112 | One writer call appends exactly the encoding of its item to the body, at any nesting, or throws. |
| `RawDp.RawDpWriter.Build` | src/core/raw-dp-writer.ts:78-112 | A list of writer calls leaves the body holding the encoding of that list, or throws. |
| `RawDp.RawDpWriter.Finish` | src/core/raw-dp-writer.ts:125-127 | `finish` is base64 of the length varint and the body. |
| `RawDpRoundTrip.WriterThrowsExactlyOutOfRange` | src/core/raw-dp-writer.ts:34-133 | For every message: the writer throws exactly when some field number is not positive or its tag not a safe integer, some value is outside the varint's or zig-zag's range, or some length is not a safe integer, at any depth; and an accepted message takes exactly the bytes counted for it. |
| `RawDp.ReadFields` | src/transport/raw-dp.ts:41-69 | The reader loop answers the fields the recursive reading of the body gives, and `undefined` exactly when that fails. |
| `RawDpRoundTrip.WrittenBodyReads` | src/transport/raw-dp.ts:41-97 | Any tree of `int`, `sint`, `bool`, `bytes` and `sub` calls the writer lets through, with 32-bit tags and lengths, is read back by `nested` as exactly those fields, in order and to every depth. |
| `RawDpRoundTrip.GuideExamples` | src/core/raw-dp-writer.ts:78-133 | The writer makes exactly the octets of the Protocol Buffers encoding guide's examples: a varint, a string, a sub-message, a zig-zagged number and a flag. |
| `RawDpRoundTrip.ZigzagTable` | src/core/raw-dp-writer.ts:57-60 | 0, -1, 1, -2, 2 are written 0, 1, 2, 3, 4. |
| `RawDpRoundTrip.FixedFieldsAreRead` | src/transport/raw-dp.ts:52-60 | Every eight-octet and four-octet fixed field is read as its little-endian value, and exactly its octets are taken. |
| `RawDpRoundTrip.OtherWireTypesAreRefused` | src/transport/raw-dp.ts:61-67 | Group markers, unassigned wire types and fixed fields cut short are no field. |
| `RawDpRoundTrip.ItemReads` | src/transport/raw-dp.ts:45-64 | One written item in front of any bytes is read as that one field, and the reader stands exactly behind it. |
| `RawDpRoundTrip.EnvelopeOpens` | src/model/vacuum-map.ts:633-642 | `decode(reframe(b))` is `nested(b)` for every body below 2^32 bytes, whether or not the body reads. |
| `RawDpRoundTrip.WriteThenRead` | src/transport/raw-dp.ts:75-97 | Building, finishing and decoding a message gives back the message exactly when it was in range, and fails otherwise. |
| `RawDpRoundTrip.DecodesIffLengthIsRight` | src/transport/raw-dp.ts:84-91 | Whatever the length prefix says, the value is read as its body exactly when it says the length of what follows, and refused otherwise. |
| `RawDpRoundTrip.WrongLengthIsRefused` | src/transport/raw-dp.ts:89-90 | A prefix that says too little is refused like one that says too much. |
| `RawDpRoundTrip.TruncatedEnvelopeIsRefused` | src/transport/raw-dp.ts:76-92 | No proper prefix of a framed message decodes: the reader never answers from part of one. |
| `RawDp.Reframe` | src/model/vacuum-map.ts:633-642 | The prefix loop of `reframe` builds the same envelope as `finish`. |
| `PlatformExists.ContractCanBeMet` | src/transport/raw-dp.ts:81-92 | The contract assumed of the protobuf reader and of base64 is met by an actual pair of functions. |
| `ProtoRead.ReadersAnswerTheFirstCall` | src/model/proto-read.ts:22-79 | On a written message every field reader answers the argument of the first call with its number (an empty byte string as absent), and the zero of its type when there is none: first-wins, not last-wins. |
| `ProtoRead.WrongKindIsAbsent` | src/model/proto-read.ts:22-79 | A reader that finds a field of another kind, or no fields at all, answers as if it were absent. |
| `ProtoRead.EachAnswersEveryRepeat` | src/model/proto-read.ts:82-92 | `each` answers every repeat of a sub-message, in order and readable to the bottom. |
| `ProtoRead.EachIsFieldByField` | src/model/proto-read.ts:87-91 | `each` over two lists of fields is `each` over the one and then over the other. |
| `ProtoRead.EachOfOne` | src/model/proto-read.ts:88-90 | `each` steps into a field exactly when it is bytes, has the number and can be read. |
| `StoredImages.StoredImageCache.ObserveUrl` | src/transport/stored-image-cache.ts:43-64 | Observing a URL makes the whole state step of an observation: a seen URL changes nothing, a new one is queued under the next sequence and the slots are filled; the downloads started are answered. |
| `StoredImages.StoredImageCache.Finish` | src/transport/stored-image-cache.ts:99-123 | A finished download frees its slot, changes its device only if it is still that device's current download of this generation, and refills the slots. |
| `StoredImages.StoredImageCache.FillSlots` | src/transport/stored-image-cache.ts:81-97 | The pump loop starts queued devices in map order until two downloads run or none is ready, and each download it starts is the device's queued candidate. |
| `StoredImages.StoredImageCache.ReadStored` | src/transport/stored-image-cache.ts:67-73 | A passive read changes nothing and answers from the device's state alone: a life-cycle error when nothing is pending, else the retained image, else the reason. |
| `StoredImages.StoredImageCache.ClearAll` | src/transport/stored-image-cache.ts:76-79 | Clearing starts a new generation and forgets every device while downloads still running keep their slots. |
| `StoredImages.FirstReady` | src/transport/stored-image-cache.ts:83-85 | The device found is the first in order with a queued candidate and no download of its own; none is found only when no listed device is ready. |
| `StoredImages.ValidJpegIff` | src/transport/stored-image-cache.ts:125-137 | An image is valid exactly when it is at most 10 MiB and is ff d8 ff, anything, ff d9. |
| `StoredImageRuns.ServedInOrderObserved` | src/transport/stored-image-cache.ts:44-53 | In every run devices are served in the order in which they were first observed since the last clear. |
| `StoredImageRuns.NewsGoesOutAsObserved` | src/transport/stored-image-cache.ts:54-63 | A URL not seen before is queued or handed out with its device, address, time and generation. |
| `StoredImageRuns.SlotsInEveryRun` | src/transport/stored-image-cache.ts:75-123 | In every run, across clears, the counter is the number of devices downloading and of downloads outstanding, at most two and never two for one device; a queued device waits only because both slots are taken or its own download is outstanding. |
| `StoredImageRuns.OrderInEveryRun` | src/transport/stored-image-cache.ts:43-64 | In every run, per device, retained sequence < in-flight sequence < queued sequence. |
| `StoredImageRuns.ValidImageIsAlwaysRetained` | src/transport/stored-image-cache.ts:116-120 | A valid image arriving for the current generation is always retained: the sequence guard never refuses one. |
| `StoredImageRuns.RetainedOnlyRises` | src/transport/stored-image-cache.ts:116-120 | Between clears a retained image is replaced only by one with a greater sequence. |
| `StoredImageRuns.StaleCompletionChangesNoAnswer` | src/transport/stored-image-cache.ts:99-103 | A completion from before a clear changes no device's retained image and no passive answer. |
| `StoredImageRuns.PassiveReadFollowsHistory` | src/transport/stored-image-cache.ts:67-123 | In every run the passive answer is a function of the URLs observed and the outcomes delivered since the last clear: the newest observed image once it arrived whole, until then the newest good one before it, and the reason otherwise. |
| `StoredImageRuns.StartKeeps` | src/transport/stored-image-cache.ts:81-97 | A download is only ever started for a candidate that is not already outstanding, so comparing candidates by value is comparing them by identity. |
| `StoredImageRuns.PumpChangesNoAnswer` | src/transport/stored-image-cache.ts:81-97 | Starting downloads changes no passive answer and no retained image. |
| `StoredImageRuns.InvInEveryRun` | src/transport/stored-image-cache.ts:29-123 | The invariant behind these results holds initially and is kept by every observation, completion and clear in any order. |
| `ObservedWrites.EufyMega.EnqueueStateTransition` | src/client/eufy-mega.ts:756-771 | Queuing takes the key's tail as predecessor, becomes the tail itself, and starts at once exactly when there is no predecessor. |
| `ObservedWrites.EufyMega.DispatchObserved` | src/client/eufy-mega.ts:1006-1056 | Dispatching takes the key's counter of this epoch, or a fresh one, up by one and queues the write. |
| `ObservedWrites.EufyMega.EmitSemantic` | src/client/eufy-mega.ts:658-675 | A push that asks for a refresh is swallowed, queued behind the key's transactions, or passed on to be announced, with the state left exactly as that answer requires. |
| `Announcements.EufyMega.EmitNow` | src/client/eufy-mega.ts:676-680 | Past the refresh, a signal is noted and given to the listeners unless it asks for the filter and repeats the last one. |
| `Announcements.EufyMega.NoteState` | src/client/eufy-mega.ts:888-899 | A signal's state is noted under its device and event, and compared with the last one; one that states nothing, or of no device, is neither. |
| `Announcements.EufyMega.ForgetAnnounced` | src/client/eufy-mega.ts:2213-2215 | A tear-down forgets every state announced. |
| `Announcements.AnnouncedIff` | src/client/eufy-mega.ts:676-680 | In every run a signal is announced exactly when it does not ask for the filter, or states nothing of a device, or states something else than the last one of its device and event since the last tear-down. |
| `Announcements.KeysTellApart` | src/client/eufy-mega.ts:895 | Signals share a key exactly when device and event are the same, for devices without a colon in their serial number; of one device always. |
| `Announcements.EachChangeIsAnnouncedOnce` | src/client/eufy-mega.ts:872-899 | Between tear-downs the filtered signals of one device and event are announced as the received ones with repeats collapsed to their first. |
| `ObservedWrites.EufyMega.ReleaseOwner` | src/client/eufy-mega.ts:1028-1033 | Releasing takes down the counter this write took and no other, and removes it at zero. |
| `ObservedWrites.EufyMega.Resume` | src/client/eufy-mega.ts:1034-1054 | Each continuation of a transaction (predecessor settled, routed, refreshed, recycled, finished) makes exactly its step on phase, counter, map and what the outside was told. |
| `ObservedWrites.EufyMega.BeginDisconnect` | src/client/eufy-mega.ts:2179-2184 | The synchronous part of a disconnect starts a new epoch with both maps empty and every transaction where it was. |
| `ObservedWriteRuns.OneAtATimeInQueueOrder` | src/client/eufy-mega.ts:756-771 | In every run, of two transactions of one key queued in one epoch the later starts only once the earlier has finished, so they never overlap. |
| `ObservedWriteRuns.HeldExactlyWhileUnfinished` | src/client/eufy-mega.ts:766-769 | In every run the map holds a key exactly while a transaction of this epoch on it is unfinished, and then holds the last one queued. |
| `ObservedWriteRuns.FirstUnfinishedCanMove` | src/client/eufy-mega.ts:759-765 | No failed predecessor blocks: the first unfinished transaction of a key and epoch is in flight or can move on by itself. |
| `ObservedWriteRuns.PushSwallowedExactlyWhileWriting` | src/client/eufy-mega.ts:658-675 | In every run the counter of a key is its number of unreleased writes of this epoch; a push is swallowed exactly while there is one, otherwise queued as a refresh exactly when the device is held, and only then does anything change. |
| `ObservedWriteRuns.EachWriteSettlesOnce` | src/client/eufy-mega.ts:1018-1054 | In every run a write's acknowledgement settles at most once, exactly once when the write is over, its counter is given back exactly once, and it never yields both its event and `commandUnconfirmed`; the outer rejection handler is never reached. |
| `ObservedWriteRuns.SettledAnswerStands` | src/client/eufy-mega.ts:1018-1054 | No later step changes a settled acknowledgement or takes back what was announced, and a write is announced only in the epoch it was dispatched in. |
| `ObservedWriteHistory.ToldExactlyWhatHappened` | src/client/eufy-mega.ts:1034-1054 | In every run what a finished transaction told is exactly what is due on what happened to it, from the events alone: when its turn came, how its command was routed, how its wait ended and whether in time, how the recycle ended; and a write takes no other course. |
| `ObservedWriteHistory.OvertakenWriteNeverRuns` | src/client/eufy-mega.ts:1036 | A write still waiting when a disconnect has ended its epoch is never routed, waited for or recycled in any continuation of the run, and once over was rejected and has told nothing else. |
| `ObservedWriteHistory.OvertakenWriteIsNeverAnswered` | src/client/eufy-mega.ts:1036 | No outcome of such a write's command, wait or recycle can ever arrive. |
| `ObservedWriteHistory.ConvergedWriteIsAnnounced` | src/client/eufy-mega.ts:1039-1041 | A write whose wait converges is announced there and then exactly when its epoch still lasts. |
| `ObservedWriteRuns.BesideOnlyAcrossEpochs` | src/client/eufy-mega.ts:2180-2182 | In every run a transaction under way beside an unfinished earlier one of its key is of another epoch. |
| `ObservedWriteRuns.StartsAtOnceIff` | src/client/eufy-mega.ts:756-765 | In every run a dispatched write is queued as what it is, and starts at once exactly when every earlier transaction of its key in this epoch has finished. |
| `ObservedWriteRuns.AcrossDisconnectTwoCanRun` | src/client/eufy-mega.ts:2180-2182 | A concrete run where two of different epochs are in flight together. |
| `ObservedWriteRuns.InvInEveryRun` | src/client/eufy-mega.ts:756-1056 | The invariant behind these results is kept by every dispatch, push, continuation and disconnect in any order. |
| `Realtime.EufyMega.EnsureRealtimeGeneration` | src/client/eufy-mega.ts:1322-1343 | A login joins the generation of its epoch or creates it; the generation answered is of the current epoch. |
| `Realtime.EufyMega.StartRealtimeGeneration` | src/client/eufy-mega.ts:1346-1390 | When the device list arrives, a superseded generation settles and ends, a current one starts its push client, one shared MQTT attempt per scope in use and its wired stations. |
| `Realtime.EufyMega.PushStartConnected` | src/client/eufy-mega.ts:1355 | A push client that connected is open and held by its generation before its handler runs. |
| `Realtime.EufyMega.PushStartSucceeded` | src/client/eufy-mega.ts:1356-1360 | A connected push client is handed to its generation and moved from pending to ready. |
| `Realtime.EufyMega.PushStartFailed` | src/client/eufy-mega.ts:1361-1366 | A failed push start is moved from pending to failed unless it was superseded. |
| `Realtime.EufyMega.ScopeStartEnded` | src/client/eufy-mega.ts:1368-1378 | A scope's end is moved from pending to ready or failed as its attempt resolved or rejected. |
| `Realtime.EufyMega.StationStartEnded` | src/client/eufy-mega.ts:1659-1669 | A station's end is moved from pending to ready or failed, a failure after the abort left pending. |
| `Realtime.EufyMega.FinishRealtimeGeneration` | src/client/eufy-mega.ts:1391-1399 | When every start is over the push client is installed and the verdict given, or, in a later epoch, the client is closed and the generation superseded. |
| `Realtime.EufyMega.FailRealtimeGeneration` | src/client/eufy-mega.ts:1400-1405 | A device list that cannot be had turns the pending push into a failure and settles the generation as partial or superseded. |
| `Realtime.EufyMega.SettleRealtimeGeneration` | src/client/eufy-mega.ts:1409-1415 | The first verdict is kept with a snapshot of the counts; a later one changes nothing. |
| `Realtime.EufyMega.EnsureMqttStarted` | src/client/eufy-mega.ts:481-498 | Callers of a scope share its attempt; a new one is started for the current epoch only when there is no memo. |
| `Realtime.EufyMega.MqttAttemptConnected` | src/client/eufy-mega.ts:485 | A transport that connected is open and its attempt's own before the epoch check. |
| `Realtime.EufyMega.CheckEpoch` | src/client/eufy-mega.ts:485-491 | A connected transport is installed under its scope in its own epoch and closed in any later one. |
| `Realtime.EufyMega.MqttAttemptFailed` | src/client/eufy-mega.ts:492-495 | A failed attempt removes its scope's memo exactly when the memo is its own. |
| `Realtime.EufyMega.BeginDisconnect` | src/client/eufy-mega.ts:2179-2189 | The synchronous part of a disconnect: new epoch, last generation superseded and aborted, every installed transport told to close. |
| `Realtime.EufyMega.CloseInstalled` | src/client/eufy-mega.ts:2199-2200 | Exactly the installed transports are closed, and no other. |
| `Realtime.EufyMega.ForgetTransports` | src/client/eufy-mega.ts:2201-2202 | Once they are closed both maps are empty. |
| `Realtime.EufyMega.ClosePushClient` | src/client/eufy-mega.ts:2217-2219 | The installed push client is closed and uninstalled. |
| `RealtimeRuns.PlanesBalance` | src/client/eufy-mega.ts:1355-1390 | In every interleaving each plane of every generation keeps required = ready + failed + pending with none negative. |
| `RealtimeRuns.VerdictsMeanWhatTheySay` | src/client/eufy-mega.ts:1391-1415 | In every run a ready verdict has every required channel of every plane up, a partial one nothing pending, every verdict balanced counts, and the report after a disconnect is the same counts marked superseded. |
| `RealtimeRuns.SettledAnswerStands` | src/client/eufy-mega.ts:1409-1415 | No step changes a settled generation's result, its superseded report or its epoch. |
| `RealtimeRuns.AnswersStandForGood` | src/client/eufy-mega.ts:1409-1415 | Nor does any continuation of a run. |
| `RealtimeRuns.NothingStaleIsInstalled` | src/client/eufy-mega.ts:485-491 | In every run, outside a disconnect, every installed transport and the installed push client are open and belong to the current epoch. |
| `RealtimeRuns.StaleTransportIsClosed` | src/client/eufy-mega.ts:486-489 | In every run, outside a disconnect, an open transport of an older epoch is one whose epoch check is still to come, and that check closes it and leaves the installed ones alone. |
| `RealtimeRuns.StalePushClientIsClosed` | src/client/eufy-mega.ts:1392-1395 | In every run, outside a disconnect, an open push client of an older epoch belongs to a bring-up still running, whose end closes it and leaves the installed one alone. |
| `RealtimeRuns.StaleFailureForgetsNothing` | src/client/eufy-mega.ts:492-495 | In every run, outside a disconnect, an attempt of an older epoch that fails removes no memo. |
| `RealtimeRuns.OneBringUpPerScope` | src/client/eufy-mega.ts:481-498 | In every run at most one attempt of a scope is alive in the current epoch, and one about to install finds its scope free, so no transport is overwritten. |
| `RealtimeRuns.NoClientToOverwrite` | src/client/eufy-mega.ts:1396 | A generation about to install its push client finds none installed. |
| `RealtimeReady.ReadyMeansConnected` | src/client/eufy-mega.ts:1391-1399 | A generation that answered ready is connected for as long as its epoch lasts: for every scope it started a transport is installed and open, and the installed push client is its own and open. |
| `RealtimeReady.CountsAreTheChannels` | src/client/eufy-mega.ts:1355-1378 | In every run a generation's MQTT counts are exactly the scopes it started, those of them whose attempt came up and those whose attempt failed, as far as their outcome has reached it; its push count says whether it holds a client. |
| `RealtimeReady.VerdictsHaveGrounds` | src/client/eufy-mega.ts:1391-1415 | In every run a ready verdict was given with no failure, a partial one with some, and a superseded one only when a disconnect had moved the epoch on. |
| `RealtimeTally.CountsAreWhatWasTold` | src/client/eufy-mega.ts:1355-1390 | In every run a generation's counts are exactly what the events told it: the scopes and stations of its list, how its push start ended, the stations that came up, and those that failed before a disconnect. |
| `RealtimeTally.ReadyLostNoStation` | src/client/eufy-mega.ts:1659-1669 | No station of a generation that answered ready ever failed, and every one its list had came up. |
| `RealtimeTally.AttemptsEndAsTold` | src/client/eufy-mega.ts:484-495 | In every run an attempt is rejected exactly when it was, and resolved exactly when it had subscribed or closed. |
| `RealtimeReady.ReadyInvInEveryRun` | src/client/eufy-mega.ts:481-498 | The invariants behind these results are kept by every step in any order. |
| `RealtimeRuns.InvInEveryRun` | src/client/eufy-mega.ts:481-498 | The invariants behind these results are kept by every login, load, completion, failure, epoch check and disconnect in any order. |
| `Availability.EufyMega.ApplyAvailabilityObservation` | src/client/eufy-mega.ts:1878-1907 | An observation is refused or retained, and emitted, exactly as the ordering rule says. |
| `Availability.EufyMega.ProcessAvailabilityMessage` | src/client/eufy-mega.ts:1857-1869 | Every state message is applied with the one verified source, whatever stamps it lacks. |
| `Availability.EmittedStatesAlternate` | src/client/eufy-mega.ts:1905-1906 | For every delivery, stamped or not, a device's emitted states strictly alternate and the last emitted is the one retained. |
| `Availability.DevicesAreIndependent` | src/client/eufy-mega.ts:1878-1880 | What is retained for a device depends on its own observations only. |
| `Availability.WhatIsRetained` | src/client/eufy-mega.ts:1881-1903 | Case by case: a newer time wins and an older loses; with equal or incomparable times another source wins, and from one source the sequence decides, an equal one only in agreement, with arrival deciding where nothing can be compared. |
| `Availability.FirstIsRetained` | src/client/eufy-mega.ts:1905-1906 | A device's first observation is retained and emitted whatever it lacks. |
| `Availability.TheLatestStampWins` | src/client/eufy-mega.ts:1881-1903 | From one source, fully stamped, every order of delivery retains the lexicographically greatest (observedAt, sequence), and of those that carry it the first to arrive decides the state. |
| `Availability.OrderDoesNotMatter` | src/client/eufy-mega.ts:1881-1903 | So with no contradicting duplicates any two orders of the same observations end in the same stamp and state. |
| `Availability.OrderFreeIffNewestShareSource` | src/client/eufy-mega.ts:1882-1903 | With several sources, the outcome is the same for every order exactly when the observations with the latest observedAt come from one source. |
| `DeviceRegistry.DeviceRegistry.GetDevices` | src/client/device-registry.ts:290-329 | A refresh indexes the response by serial, the last record of a serial winning, and keeps previous devices exactly when it was partial. |
| `DeviceRegistry.DeviceRegistry.KeepPrevious` | src/client/device-registry.ts:327 | The merge loop adds exactly the previous devices the answer did not return. |
| `DeviceRegistry.DeviceRegistry.PollChangesLands` | src/client/device-registry.ts:360-364 | The refresh half of a poll lands like any other refresh, and the poll holds on to the list it brought. |
| `DeviceRegistry.DeviceRegistry.PollChangesDiffs` | src/client/device-registry.ts:365-390 | The diff half of a poll answers moved params, added, removed and re-reported devices against the baseline and replaces the baseline by copies. |
| `DeviceRegistry.DeviceRegistry.DiffDevices` | src/client/device-registry.ts:365-381 | The loop over the listed devices finds the moved params of every device in the baseline, the newcomers when the baseline was complete, and the devices seen since. |
| `DeviceRegistry.DeviceRegistry.MovedParams` | src/client/device-registry.ts:374-380 | A param is a change exactly when it was there before with another value. |
| `DeviceRegistry.DeviceRegistry.ApplyPolledParams` | src/client/eufy-mega.ts:1511-1523 | Applying a poll retires the reported value of every moved param, of every device, and nothing else. |
| `DeviceRegistry.DeviceRegistry.RetireRealtimeParams` | src/client/device-registry.ts:568-572 | Retiring drops just those ids from the device's reports and keeps the map itself. |
| `DeviceRegistry.DeviceRegistry.ApplyRealtimeParams` | src/client/device-registry.ts:534-545 | A report merges over what was reported before and stamps the live record in place; an empty one does nothing. |
| `DeviceRegistryRuns.ReplayIsTheLastPolledValue` | src/client/device-registry.ts:359-391 | In any interleaving of polls, other refreshes and reports, replaying a param's reported changes from its first baseline gives its value at the last poll. |
| `DeviceRegistryRuns.ReportedExactlyWhenMoved` | src/client/device-registry.ts:374-380 | A poll reports a change exactly when it brings another value than the replay holds, and from that value. |
| `DeviceRegistryRuns.LivenessIsNotAbsorbed` | src/client/device-registry.ts:221-240 | A device is reported as seen exactly when its stamp advanced since the last poll found it, although every report in between stamps the shared record. |
| `DeviceRegistryRuns.LeavesOnlyByRemoval` | src/client/device-registry.ts:382-386 | When polls make every refresh, a serial is reported removed exactly when it leaves the baseline. |
| `DeviceRegistryRuns.AddedIff` | src/client/device-registry.ts:366-371 | In every run a poll reports a device added exactly when there was a complete baseline without it and this poll knew it when it landed; told by the responses alone. |
| `DeviceRegistryRuns.LastRecordCounts` | src/client/device-registry.ts:311-323 | Of several records of one serial in a response the list takes the last. |
| `DeviceRegistryRuns.ReportStamps` | src/client/device-registry.ts:536-538 | A report stamps the record the list holds with the time it came, no other record, and moves no param of any. |
| `DeviceRegistryRuns.AddedTwiceIsRemovedBetween` | src/client/device-registry.ts:366-371 | When polls make every refresh, the last thing said of a serial about to be added is never that it was added. |
| `DeviceRegistryRuns.RosterIsConserved` | src/client/device-registry.ts:382-390 | When polls make every refresh and all are complete, first roster + added - removed = current roster. |
| `DeviceRegistryRuns.LostSilentlyIff` | src/client/device-registry.ts:326-390 | In every run, whatever other refreshes land and whenever they do, a poll about to diff loses a device without reporting it exactly when the last diff had it, this poll did not know it when it landed, and the last refresh to land before the diff, its own or another caller's, was partial; all three told by the responses alone. |
| `DeviceRegistryRuns.LossIsReportedIff` | src/client/device-registry.ts:382-386 | A device of the baseline that a landed poll lacks is reported removed exactly when the last refresh was complete, whoever made it. |
| `DeviceRegistryRuns.CompletePollCanLoseSilently` | src/client/device-registry.ts:326-390 | A concrete run: a complete poll loses a device unreported, because another caller's partial refresh landed before it diffed. |
| `DeviceRegistryRuns.AddedTwiceWithoutRemoval` | src/client/device-registry.ts:326-390 | A concrete run where that happens: another caller's complete refresh drops a device, and it is added twice with nothing removed. |
| `DeviceRegistryRuns.ReportSurvivesIff` | src/client/device-registry.ts:534-572 | In every run, with no poll on its way that moves the param: the report held is the last one, unless a poll that landed later saw the cloud move it, exactly when that report did not come between the landing and the application of a poll that moves it; one that did is gone. |
| `DeviceRegistryRuns.WhileAMoveIsPending` | src/client/eufy-mega.ts:1473-1478 | While a poll that moves the param has landed and is not applied, a report since it landed still stands, and one from before is superseded. |
| `DeviceRegistryRuns.JoinedIsLastReportOrCloud` | src/client/device-registry.ts:462-486 | Outside those two cases the joined value of a param is its last report unless a later poll saw the cloud move it, and then it is the value the list holds. |
| `DeviceRegistryRuns.AReportCanBeDropped` | src/client/eufy-mega.ts:1511-1523 | A concrete run: a report between a poll's diff and its application is dropped, and the join answers the cloud's older value. |
| `DeviceRegistryRuns.ValidInEveryRun` | src/client/device-registry.ts:359-391 | In every run everything that holds a device record holds one that exists, so a landed poll can always go on to diff. |
| `ListReuse.DeviceRegistry.RefreshedList` | src/client/device-registry.ts:506-521 | A caller reuses a list younger than five seconds, joins the fetch in the slot, or starts one. |
| `ListReuse.DeviceRegistry.FetchEnds` | src/client/device-registry.ts:508-512 | Only a fetch that resolved opens the reuse window. |
| `ListReuse.DeviceRegistry.FetchCleared` | src/client/device-registry.ts:513-515 | The slot is given up once its fetch has ended, however it ended. |
| `ListReuse.AtMostOneInFlight` | src/client/device-registry.ts:506-521 | With any number of callers at most one of the fetches started has not ended, and it is the latest. |
| `ListReuse.CallerIsAnswered` | src/client/device-registry.ts:506-521 | In every run a caller is answered from the list at hand exactly within 5000 ms of the last fetch that resolved; otherwise it waits for the latest fetch, which it starts exactly when none holds the slot. |
| `ListReuse.StartsAreSpaced` | src/client/device-registry.ts:507-511 | In every run the fetch after one that resolved starts at least 5000 ms after that one did, and starts never go back. |
| `ListReuse.FewStartsInAnyWindow` | src/client/device-registry.ts:188 | So any window of T ms holds at most T / 5000 + 1 starts, and one more for each of them that failed. |
| `ListReuse.FailuresAreNotSpaced` | src/client/device-registry.ts:508-515 | The bound is sharp: any number of failing fetches can start at one instant. |
| `VacuumMapStore.VacuumMapStore.ApplyPiece` | src/model/vacuum-map-store.ts:101-120 | A piece is stored, dropped, or, if it is a pose or a backup, taken apart, as the state step says, and the answer says whether anything changed. |
| `VacuumMapStore.VacuumMapStore.PutPiece` | src/model/vacuum-map-store.ts:161-178 | Storing one stamped piece: another map's name starts over with the pose kept, an older revision is refused, everything else replaces its kind. |
| `VacuumMapStore.VacuumMapStore.ApplyBackup` | src/model/vacuum-map-store.ts:148-152 | The loop over a backup's parts is the parts applied one after the other, the answer the disjunction of theirs. |
| `VacuumMapStore.VacuumMapStore.Parts` | src/model/vacuum-map-store.ts:182-190 | The parts listed are those the device sent, in the order description, plane, outline, rooms, zones. |
| `VacuumMapStore.VacuumMapStore.Clear` | src/model/vacuum-map-store.ts:123-126 | Clearing forgets pieces, map, pose and revisions. |
| `VacuumMapStore.HeldPiecesBelongTogether` | src/model/vacuum-map-store.ts:101-178 | After any sequence of calls each kind offered since the last switch or clear is held as the last of its offers with the greatest revision, nothing else is held, and every held piece that names a map names the snapshot's. |
| `VacuumMapStore.RefusedChangesNothing` | src/model/vacuum-map-store.ts:172-177 | A refused piece leaves the whole store as it was, and a piece is refused exactly when it does not switch the map and an offer of its kind had a greater revision. |
| `VacuumMapStore.OlderRecordsAreRefused` | src/model/vacuum-map-store.ts:108-119 | For each of the five kinds: once a record is held, one of the same map with a smaller revision is refused. |
| `VacuumMapStore.HeldRecordsNameTheMap` | src/model/vacuum-map-store.ts:108-119 | Record by record, a held one that names a map names the snapshot's, and is held under its own kind. |
| `VacuumMapStore.PoseSurvivesSwitches` | src/model/vacuum-map-store.ts:106-107 | In every run the position held is the last one given since everything was forgotten: map switches keep it. |
| `VacuumMapStore.BackupIsItsParts` | src/model/vacuum-map-store.ts:148-152 | A backup acts as the parts it carries applied in turn, a part it lacks clearing nothing. |
| `VacuumMapStore.CurrentRoomNeverMixesMaps` | src/model/vacuum-map-store.ts:135-139 | A room is answered only from an outline and a room list that, where they name a map, name the snapshot's. |
| `VacuumMapStore.HeldUnderItsKind` | src/model/vacuum-map-store.ts:175-177 | What is held under a kind is a piece of that kind. |
| `MapPixels.CellsTileThePlane` | src/model/map-pixels.ts:55-73 | A point is answered a cell exactly when the cell is in the grid and the point lies in the half-open square of one side centred on the cell's anchor, which is its column and row of sides away from the origin. |
| `MapPixels.CellsAndPointsRoundTrip` | src/model/map-pixels.ts:55-73 | `cellAtPoint(pointAtCell(c))` is `c`, and `pointAtCell(cellAtPoint(p))` is within half a cell of `p` on each axis. |
| `MapPixels.PackedValuesAreAnswered` | src/model/map-pixels.ts:82-89 | Every cell of a grid packed two bits to the cell, low bits first, is answered the value packed there, whatever follows, up to 2^31 cells. |
| `MapPixels.OneByteOfCells` | src/model/map-pixels.ts:82-89 | One byte in bits: 0xe4 is unknown, obstacle, free and carpet, from the left. |
| `MapPixels.EveryCellIsAnsweredIff` | src/model/map-pixels.ts:82-89 | A plane long enough for its grid answers every cell exactly when the grid has at most 2^31 cells; beyond, the 32-bit shift loses some. |
| `MapPixels.AnchorAnswersItsCell` | src/model/map-pixels.ts:92-95 | Looking up the point a cell is anchored at is looking up the cell. |
| `MapPixels.RoomAtPointMeans` | src/model/map-pixels.ts:108-136 | A room is answered exactly when a cell covers the point, the id above the low two bits of its byte is not zero, and it is the first listed room of that id. |
| `VacuumMap.PlaneIsWhatWasSent` | src/model/vacuum-map.ts:430-437 | A plane is accepted exactly when the bytes have the stated size, or are an LZ4 block that reads as that many bytes, and there are enough; and it is those bytes. |
| `VacuumMap.AcceptedMapAnswersEveryCell` | src/model/vacuum-map.ts:468-489 | Every map the decoder accepts answers every cell of its grid up to 2^31 cells and no further. |
| `VacuumMap.AcceptedOutlineAnswersEveryCell` | src/model/vacuum-map.ts:492-513 | Every outline the decoder accepts has a byte for every cell, row by row, and names the room id above its low two bits or none for zero. |
| `VacuumMap.WrittenOutlineIsReadBack` | src/model/vacuum-map.ts:492-513 | End to end: an outline written field by field, framed and decoded has the width, height, resolution, origin, map id and revision written, and every cell names the room written for it. |
| `VacuumMap.AcceptedPlanesHaveAGrid` | src/model/vacuum-map.ts:401-404 | Nothing without a width and a height is accepted. |
| `VacuumMap.BackupPartsReadAlone` | src/model/vacuum-map.ts:606-642 | Each of the five parts of a backup is decoded exactly as its own decoder reads the part's bytes in place: the envelope put back around them changes nothing. |
| `VacuumMap.WrittenMapIsReadBack` | src/model/vacuum-map.ts:468-489 | End to end: a grid packed, written as a map message, framed and decoded answers every cell the value it was packed with, with its geometry, map id and revision. |
| `Ff09.WriteTlv` | src/transport/ff09.ts:268-276 | The field loop writes every field under counted separators and throws exactly when one is longer than 255. |
| `Ff09.ParseSettingsResponse` | src/transport/ff09.ts:642-656 | The parser loop answers the status octet and the fields of the recursive reading, and throws on an empty plaintext only. |
| `Ff09.AssembleFrame` | src/transport/ff09.ts:343-368 | The frame is header, length, cipher text and the XOR of all of it. |
| `Ff09Results.AssembledOctets` | src/transport/ff09.ts:360-365 | An assembled frame octet by octet: marker, length low octet first, 03 00 02, command with its flag high octet first, cipher text, checksum. |
| `Ff09Results.WordsInOctets` | src/transport/ff09.ts:353-362 | The order of octets in every word of the format, as numbers. |
| `Ff09Results.KeyAndVector` | src/transport/ff09.ts:352-355 | The key is the last twelve characters of the account id and the key time, high octet first; the vector is the serial number cut off or filled up to sixteen. |
| `Ff09Results.DecryptAsksFirst` | src/transport/ff09.ts:604-624 | Decryption uses the cipher exactly when identity, marker, length and checksum are right, on what lies between. |
| `Ff09.DecryptFrame` | src/transport/ff09.ts:598-624 | Decryption checks identity, magic, length and checksum before the cipher text, and throws exactly when one fails or the cipher does. |
| `Ff09.XorOf` | src/transport/ff09.ts:363-364 | The checksum loop computes the exclusive or of all octets. |
| `Ff09Results.XorIsBitwise` | src/transport/ff09.ts:363-364 | That operation sets a bit exactly where one of the two has it. |
| `Ff09.BuildAutolockSetFrame` | src/transport/ff09.ts:720-746 | The read-modify-write decrypts, parses, reads delay, start and end, and builds the settings frame, throwing where any of them does. |
| `Ff09Results.DecryptUndoesAssemble` | src/transport/ff09.ts:343-368 | A frame decrypts under its key and identity to exactly the plaintext sealed in it when its length fits the two-octet header, and is refused otherwise. |
| `Ff09Results.AnyOneOctetIsDetected` | src/transport/ff09.ts:610-616 | Changing any one octet of a frame that passes its self-checks makes it fail them. |
| `Ff09Results.TamperedFrameIsRefused` | src/transport/ff09.ts:598-624 | So an assembled frame with one octet changed never decrypts, under any key. |
| `Ff09Results.ParserRecoversFields` | src/transport/ff09.ts:642-656 | The parser recovers, behind a status octet and in spite of any zero padding, exactly the first 95 fields written, each under its separator. |
| `Ff09Results.FieldInOctets` | src/transport/ff09.ts:268-276 | Each field written is its separator, its length and itself, at the offset of those before it. |
| `Ff09Results.CutFieldIsNoField` | src/transport/ff09.ts:648-651 | A field cut short ends the parse and is not answered. |
| `Ff09Results.LaterFieldCounts` | src/transport/ff09.ts:652 | Of two fields with one separator the later one counts. |
| `Ff09Results.PaddingIsLeast` | src/transport/ff09.ts:279-284 | Padding appends zeros only, to the next whole block and at least one. |
| `Ff09Results.SettingsAreSent` | src/transport/ff09.ts:466-496 | A settings frame is built exactly for an account id of at most 255 characters and decrypts to its nine fields and no other. |
| `Ff09Results.SettingsAreBuiltIff` | src/transport/ff09.ts:375-390 | A settings frame is built exactly for an account id of 12 to 255 characters and a serial number of 1 to 16. |
| `Ff09Results.AutolockWritePreserves` | src/transport/ff09.ts:720-746 | The auto-lock write is sent exactly when the reply decrypts and carries delay, start and end and the identity can be written; it carries the reply's start, end and (unless given) delay bit for bit, the new enable state, and zero for A3, A6 and A9. |
| `Ff09Results.ScheduleSwitchIsKeptIff` | src/transport/ff09.ts:476-486 | For every reply that carries the schedule switch (0xa3), the A6 sent is the switch received exactly when that was a single zero octet: off is kept, on is not. |
| `Ff09Results.ScheduleIsTurnedOff` | src/transport/ff09.ts:476-486 | A concrete reply whose schedule is on: the write is built and sends A6 as zero, under every cipher and identity. |
| `Ff09Results.SomeCipherIsSound` | src/transport/ff09.ts:355-356 | The contract assumed of the cipher is met by an actual pair of functions. |
| `CleanRecord.UnwrapCleanRecordBlob` | src/model/clean-record-detail.ts:63-83 | The loops compute checksum and declared length as defined, and the first width that fits decides. |
| `CleanRecord.UnwrapsExactlyContainers` | src/model/clean-record-detail.ts:63-83 | In whatever order the widths 1, 2 and 4 are tried, the reader answers a body exactly when the blob is the container of that body at one of them. |
| `CleanRecord.AtMostOneWidthFits` | src/model/clean-record-detail.ts:75-81 | At most one width fits any blob. |
| `CleanRecord.OrderIsIrrelevant` | src/model/clean-record-detail.ts:75-81 | Any two orders of trying the three widths answer the same. |
| `CleanRecord.ContainerFits` | src/model/clean-record-detail.ts:63-83 | A container written at any width that can hold its length is accepted and brackets exactly its body. |
| `CleanRecord.FittingIsContainer` | src/model/clean-record-detail.ts:63-83 | Whatever is accepted and fits a width is the container of the bytes it brackets. |
| `CleanRecord.SumAddsUp` | src/model/clean-record-detail.ts:67-68 | The checksum adds every octet once, wherever the blob is cut. |
| `CleanRecord.OneContainerInOctets` | src/model/clean-record-detail.ts:63-70 | Two containers in octets, of widths 2 and 1: marker, length, body, checksum, most significant octet first. |

## Left out

- HTTP, MQTT, P2P, push and Tuya clients: a connection is a success, a failure or a delay, in any order.
- The convergence loop of `refreshEventState` (`src/client/eufy-mega.ts:701-753`): how the wait ends is an input; its deadlines and property matching are not modelled.
- The listeners: an announcement is counted or listed, not delivered; which field of an event carries its state is an input.
- A transport whose `disconnect()` rejects during a teardown, which would leave the MQTT maps uncleared.
- `setPollInterval` called while a poll runs, which could overlap two polls.
- The poll timer, P2P session lifecycle and power tiers: which scopes are in use and how many stations are wired are inputs.
- The order of entries inside one poll diff: its four parts are maps and sets by serial and id.
- The per-device param overlay of `record` and its owner-gated refusal: the cloud half of a join is the device list's.
- Capability caches, `awaitRealtimeState`, device classification and every table of data.
- Logging, including the image cache's rate-limited diagnostics.
- The WeakRef behind a live device: whether a device is held is an input to `EmitSemantic`.
- `text` of the field readers (UTF-8 decoding), and the rounding of integers above 2^53 in `int`.
- A non-integer `size` argument of the LZ4 decoder, which the code refuses; sizes here are integers.
- Floating-point rounding in the grid arithmetic: world coordinates are reals.
- Map names, frame kinds, docks, room settings and the decoding of rooms, zones and descriptions: field lookups over tables.
- The hexadecimal text of `ff09` frames, the random nonce in their key time, and the lock, query and single-setting frames, which share the framing proved here.
- The inside of AES, base64 and the protobuf library.
- `parseCleanRecordDetail`: a row of field lookups over the unwrapped body.
- VacuumMapStore.CurrentRoomNeverMixesMaps: says nothing of pieces that name no map, because the store accepts those into whatever map it holds.
- Realtime.EufyMega.StartRealtimeGeneration: the scopes in use are given as a list without repeats, as the source's set of scopes is.
