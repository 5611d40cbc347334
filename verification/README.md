# canal-rs: delivery from the binlog to acknowledged client events

canal-rs reads the MySQL binlog, turns rows into events, keeps the latest of them in a bounded
in-memory store, and serves them over a length-prefixed protobuf protocol to clients that poll,
acknowledge and roll back. This project models that path in Dafny and proves what it delivers, and
under exactly which conditions.

| file | what it models |
|---|---|
| `CanalTypes.dfy` | positions, rows, events, batches, client filters |
| `JournalOrder.dfy` | the order of positions: the numeric suffix of the file name, then the offset |
| `EventLog.dfy` | the unbounded log of everything put, the window of it that is retained, and cursor reads |
| `MemoryStore.dfy` | `MemoryEventStore` as a class, proved against that log |
| `WakeUp.dfy` | the waiting loop of `get_batch` against concurrent writers, step by step |
| `Codec.dfy` | the server's incremental framing and the client's blocking framing |
| `Conversion.dfy` | event to protobuf entry on the server, entry to event on the client |
| `Replication.dfy` | table map cache, row conversion with the update diff, replication loop |
| `ReplicationFacts.dfy` | order and wire fitness of what the replication loop sends |
| `Pipeline.dfy` | the batching loop, the sink and its dispatch queue |
| `Session.dfy` | the packet handlers and the session table, as methods proved against functions on values |
| `SessionRuns.dfy` | one connection against the shared store, over every interleaving of steps |
| `Server.dfy` | the server process as objects whose methods are the steps of those runs |
| `SessionSafety.dfy` | what acks, rollbacks and reads mean for delivery over those runs |
| `LossyRuns.dfy` | concrete runs that lose an entry, one for each way of leaving the discipline |
| `Delivery.dfy` | the client's poll loop composed with the server: delivery and progress |
| `Wire.dfy` | the same loop over two byte streams that arrive in arbitrary chunks |
| `EndToEnd.dfy` | from the binlog to the consumer |

Code that works by changing state (the store, the codec buffers, the table map cache, the replication
loop, the batching loop, the sink, the packet handlers) is modelled by classes and methods with loops.
Each is proved equal to a function on values; the results over whole runs are lemmas about those
functions. A run is any sequence of steps; a step that is not enabled changes nothing.

## Main results

- The store is exactly the last `capacity` entries of the log after any puts, and with ordered puts its
  watermark has the key of the last entry dropped, also when one put both drains the buffer and
  truncates the batch (`MemoryEventStore.PutBatch`, `WatermarkFollowsDrops`). Comparing a cursor with
  the watermark detects a gap exactly (`GapDetectionExact`), and without a gap the bounded store
  answers as an unbounded one would (`BoundedReadMatchesLog`).
- Whatever the chunks in which bytes arrive, well-formed or not, the frames are those of the whole
  stream (`ChunkingInvariance`); both framings agree (`ReadPackets`).
- Decoding an encoded event gives a stated normal form, which is the event itself if and only if the
  event is canonical (`WireRoundTrip`, `LosslessIffCanonical`).
- What the replication loop sends is determined by the history of each binlog event
  (`RunReplication`), is sorted when the binlog is (`OutputIsSorted`), and stays so through every
  batching and filtering, so that every put of a run is in order (`RunServer`).
- No cursor and no ack ever passes an entry that was not sent, counted from where the connection began to
  read, over every run that is safe since then (`AckRollbackSafety`). The server's watermark check is what
  makes it so: it holds when a Get begins to wait (`GetIsChecked`), still holds at the read if no put
  overtakes the cursor in between (`AtomicRunIsPrudent`), and then the read skips nothing
  (`PrudentRunIsDisciplined`). A connection begins at its start time or at the
  default position (`ConnectionStart`), and what that means in the log is exact (`BatchBegins`,
  `DefaultStartIsFirst`).
- A read loses something if and only if it starts further on than everything served so far
  (`ServeKeepsCoverageIff`), which for a client that has not gone back is the comparison with the watermark
  (`FrontReadKeepsCoverageIff`) and for one that rolled back before any ack is whether the default position
  or the oldest entry retained lies beyond its old cursor (`UnackedRollbackIff`). A put loses something for
  a caught-up reader if and only if it continues the tail's position group (`PutKeepsCoverageIff`).
- A consumer receives the matching entries of one contiguous segment of the log, which begins exactly where
  the first read of its start cursor began, in order and once each (`EndToEndDelivery`); what is acked has
  been forwarded (`AckedWasForwarded`). A client that is not refused can always catch up, one full batch a
  round (`CatchesUp`), and under every safe schedule has caught up once enough reads were answered
  (`EnoughReadsReachEnd`). All of this holds from any reachable state of the server, and over byte streams
  in arbitrary chunks (`DeliveryOverTheWire`).
- The batching loop keeps position groups whole if and only if no flush stands between two events of one
  key that pass the sink's filter (`PutsStrictIff`). For such flush timings the consumer receives the events
  of the binlog (`BinlogReachesConsumer`).
- In every run, an authenticated connection has given the right password since it was made
  (`AuthenticatedGavePassword`). Under every schedule, a refusal or a failure ends the client's loop for
  good, and nothing else does (`RefusalIsFinal`, `FailureIsFinal`, `BatchGoesOn`). In every run a waiting
  call ends only by looking and finding a batch or by its timeout (`CallsEndByLooking`), no wakeup is lost
  (`NoLostWakeup`), and a sleeper with something to read gets it (`WokenReaderIsServed`).
- The objects of the server, under any schedule of their methods, are in the state that the run of the
  machine says (`ServerProcess.PerformAll`).

## Conditions the code does not enforce

The delivery results hold for safe runs (`SessionSafety.SafeRun`, `Delivery.SafePlay`), in any of three
senses, all of which ask that a put does not continue the position group at the tail:

- Atomic: no put lets the watermark overtake the cursor of a Get that waits, which is so when the check and
  the read are one step; and rollbacks follow accepted acks.
- Prudent: the watermark has not overtaken the cursor when the store is read; and rollbacks follow accepted
  acks.
- Disciplined: no read starts further on than what the connection has been served; rollbacks come at any
  time. Step by step this is the exact condition (`ServeKeepsCoverageIff`).

For a connection that has been served nothing, the first implies the second and the second the third
(`SafeRunIsDisciplined`). The code enforces none of this; by that chain of implications, these are the only
ways in which a run that is not safe can come about:

- `put_batch` allows a put that continues the position group at the tail
  (crates/canal-store/src/memory.rs:95-102), and the batching loop produces it when it cuts a multi-row
  binlog event at 256 events (`Pipeline.BatchingSplitsGroup`) or at a timer tick
  (`Pipeline.TickSplitsGroup`). A caught-up reader then misses the rest of the group
  (`LossyRuns.PutLosesEntry`).
- The watermark is checked when the Get comes in (crates/canal-server/src/server.rs:433), and the read may
  come much later (`LossyRuns.OvertakenReadLosesEntry`).
- A rollback before any accepted ack makes the server forget the cursor
  (crates/canal-server/src/server.rs:536-538): the next Get is treated as that of a fresh client, which is
  never refused and starts at the default position, beyond entries that have been dropped
  (`LossyRuns.UnackedRollbackLosesEntry`) or, with nothing dropped, beyond the client's own cursor
  (`LossyRuns.DefaultBeyondCursorLosesEntry`).

Acks are not monotone: `SessionSafety.AckMovesBackIff` says when an
ack moves back, and `SessionSafety.AcksMoveForward` that it never does without a rollback.

## Where the code and its documentation differ

- Comments speak of a stored ack that a later connection inherits
  (crates/canal-server/src/server.rs:251-253) and that a Get falls back on
  (crates/canal-server/src/server.rs:420-428). Authenticating registers a new session without an ack
  (crates/canal-server/src/session.rs:65-69), so the stored ack never survives a reconnection
  (`SessionSafety.ReconnectForgetsAck`), is always the connection's own (`SessionSafety.StoredAckIsOwn`), and
  is what a Get starts from only after a rollback that came before an ack (`SessionSafety.StoredAckUnused`).
- `subscribe` looks at the type of the server's reply only: a refused subscription goes unnoticed, and
  delivery starts under the filter of the authentication (`Delivery.HandshakeSubscribes`).
- The end of a stream and the idle timeout unregister a session; every error exit of `handle_client`
  leaves it registered (crates/canal-server/src/server.rs:174-188, 222-224).
- `binlog_suffix` also accepts a plus sign in front of the number (`JournalOrder.SuffixExact`).
- A client is configured with a black list (crates/canal-common/src/types.rs:247-252), but no packet
  carries it: a subscription made through the handshake has none (`Delivery.HandshakeSubscribes`).
- `put_batch` compares the tail with the new events only in debug builds, and does not look at the
  order within a batch (crates/canal-store/src/memory.rs:94-102).

## Model

| member | source | states |
|---|---|---|
| JournalOrder.ParseDigitsExact | crates/canal-common/src/types.rs:52-58 | the checked digit-by-digit parse accepts exactly the numerals below 2^64 and returns their value |
| JournalOrder.SuffixExact | crates/canal-common/src/types.rs:50-58 | the suffix is the value of the last segment if that is such a numeral, with or without a plus sign, and u64::MAX for every other name |
| JournalOrder.SuffixOfRotatedFile | crates/canal-common/src/types.rs:50-58 | a rotated file name, zero-padded to any width, has its rotation number as suffix, or u64::MAX from 2^64 on |
| JournalOrder.RotationOrder | crates/canal-common/src/types.rs:40-58 | position order is the order of (rotation number, offset), whatever the stems and padding widths |
| JournalOrder.DecimalIsUsual | crates/canal-binlog/src/column_serde.rs:14 | a rendered number is made of digits, has no superfluous zero in front and has the number as its value |
| CanalTypes.SelectMembers | crates/canal-filter/src/lib.rs:72-102 | filtering keeps exactly the events that pass, each as often as it occurs |
| CanalTypes.SelectConcat | crates/canal-sink/src/sink.rs:156-160 | filtering batch by batch is filtering the whole |
| CanalTypes.SelectKeeps | crates/canal-filter/src/lib.rs:72-102 | what filtering keeps, by the regular expressions alone: the events whose schema, dot and table are matched by the pattern, if it compiles, and not by a black list that is not empty and compiles |
| CanalTypes.BrokenPatternKeepsAll | crates/canal-server/src/server.rs:459-475 | a pattern that does not compile keeps everything that is not black-listed |
| CanalTypes.NoBlackListBlocksNothing | crates/canal-server/src/server.rs:459-475 | a black list that is empty or does not compile blocks nothing |
| CanalTypes.RangeOfBatch | crates/canal-common/src/types.rs:218-236 | the range of a batch goes from the position of its first event to that of its last |
| CanalTypes.CastsWrap | crates/canal-server/src/conversion.rs:35-36 | the casts between signed and unsigned 64-bit numbers keep a number modulo 2^64 and undo each other |
| CanalTypes.Utf8LenIsEncoded | crates/canal-server/src/server.rs:349-350 | the length by which filters and statements are limited is that of the UTF-8 encoding |
| EventLog.FirstAfter | crates/canal-store/src/memory.rs:140-146 | the partition point of an exclusive cursor: everything before it is at or below the cursor, what stands there is above |
| EventLog.FirstSince | crates/canal-store/src/memory.rs:131-139 | the first event executed at or after a start time |
| EventLog.GroupEnd | crates/canal-store/src/memory.rs:151-160 | the end of the position group in which a base slice ends |
| EventLog.ReadEndsAtBoundary | crates/canal-store/src/memory.rs:150-161 | a batch ends where the next key is strictly greater, its end as a cursor stands right behind it, and it has the requested size unless less is left |
| EventLog.ReadIsContiguous | crates/canal-store/src/memory.rs:140-166 | a batch is the contiguous slice from the first entry past the cursor and never splits a position group |
| EventLog.ChainCoversSuffix | crates/canal-store/src/memory.rs:120-172 | reads chained by their ends return a prefix of what remains, in order and once each, and all of it after as many reads as entries remain |
| EventLog.WindowAfterPut | crates/canal-store/src/memory.rs:53-80 | draining the front and truncating the batch leaves exactly the last `capacity` entries of the log |
| EventLog.SortedAppend | crates/canal-store/src/memory.rs:94-102 | puts in order keep the log sorted |
| EventLog.GapDetectionExact | crates/canal-server/src/server.rs:430-449 | the cursor is below the watermark if and only if an entry above the cursor has been dropped |
| EventLog.BoundedRead | crates/canal-store/src/memory.rs:127-172 | a read of the window is the read of the log that starts at the later of the cursor and the oldest entry retained |
| EventLog.BoundedReadMatchesLog | crates/canal-server/src/server.rs:430-451 | a cursor not below the watermark gets the batch an unbounded store would give; one below it would skip entries |
| EventLog.CaughtUpReaderSeesPut | crates/canal-store/src/memory.rs:94-102 | a caught-up reader sees the whole of the next put if and only if that put does not continue the tail's position group |
| EventLog.CursorStable | crates/canal-store/src/memory.rs:140-146 | strictly later puts do not move the entry a cursor stands for |
| MemoryStore.PartitionPoint | crates/canal-store/src/memory.rs:140-146 | the binary search finds the first entry past the cursor |
| MemoryStore.ExtendGroup | crates/canal-store/src/memory.rs:151-160 | the loop past the base slice finds the end of its position group |
| MemoryStore.WatermarkFollowsDrops | crates/canal-store/src/memory.rs:50-87 | taking the greatest of drained, truncated and recorded positions gives the key of the last entry dropped |
| MemoryStore.MemoryEventStore.constructor | crates/canal-store/src/memory.rs:27-39 | a new store holds nothing, has no positions and starts its counter at 0 |
| MemoryStore.MemoryEventStore.PutBatch | crates/canal-store/src/memory.rs:41-118 | the log grows by the batch, the buffer stays its window with both end positions right, ordered puts keep the watermark exact, and an empty put changes nothing |
| MemoryStore.MemoryEventStore.TryGetBatch | crates/canal-store/src/memory.rs:127-176 | one pass returns the batch that the window holds for the cursor under a fresh id, its range from the first to the last event, or nothing when it would wait |
| WakeUp.StepKeepsInv | crates/canal-store/src/memory.rs:114-184 | a reader that looked and has not been notified since has nothing to read outside a writer's change |
| WakeUp.RunKeepsInv | crates/canal-store/src/memory.rs:114-184 | the same over every run |
| WakeUp.NoLostWakeup | crates/canal-store/src/memory.rs:124-184 | no reachable state has a reader asleep un-notified with an event past its cursor, except while a writer is between its change and its notification |
| WakeUp.NotifyWakesEveryone | crates/canal-store/src/memory.rs:114-115 | that notification leaves nobody asleep un-notified |
| WakeUp.StepEndsCall | crates/canal-store/src/memory.rs:124-184 | one step ends a call only by a look under the lock that finds a batch, which is then returned, or by the timeout of a reader asleep |
| WakeUp.CallsEndByLooking | crates/canal-store/src/memory.rs:124-184 | in every run a call that has ended did so at some such step: being woken is not enough |
| WakeUp.CallAsks | crates/canal-store/src/memory.rs:120-124 | in every run a call keeps the cursor and batch size it was made with, however often it is woken |
| WakeUp.WokenReaderIsServed | crates/canal-store/src/memory.rs:124-184 | in every reachable state with the lock free, a reader asleep with an event past its cursor wakes, looks again and returns the batch the buffer holds for it |
| WakeUp.LateFutureLosesWakeup | crates/canal-store/src/memory.rs:125-128 | creating the future after the look at the buffer would lose a wakeup |
| Codec.HeaderRoundTrip | crates/canal-server/src/codec.rs:31-33 | the big-endian length header reads back |
| Codec.FramingFacts | crates/canal-server/src/codec.rs:31-43 | the most significant byte comes first, and the limit is 8388608 bytes |
| Codec.DecodeFrame | crates/canal-server/src/codec.rs:25-64 | a decode takes the frame at the front of the buffer and advances past it, or leaves the buffer alone |
| Codec.EncodeFrame | crates/canal-server/src/codec.rs:70-76 | encoding appends one frame, its length cut to 32 bits |
| Codec.NextIsStable | crates/canal-server/src/codec.rs:25-64 | bytes that arrive later do not change what a decode has found |
| Codec.DrainThenFeed | crates/canal-server/src/codec.rs:25-64 | decoding, receiving more and decoding again is decoding everything at once |
| Codec.ChunkingInvariance | crates/canal-server/src/codec.rs:25-64 | for every byte stream, frames, leftover and failure do not depend on the chunks |
| Codec.FramesSurviveChunking | crates/canal-server/src/codec.rs:25-76 | frames within the limit arrive whole, in order and once each, with an empty buffer at the end, in any chunks |
| Codec.PartialStream | crates/canal-server/src/codec.rs:25-64 | at every point of the stream a prefix of the frames has come out and the buffer is precisely the undecoded bytes, less than a frame |
| Codec.RoundTripIffFits | crates/canal-server/src/codec.rs:70-76 | a payload survives encoding and decoding if and only if it is at most 8 MiB |
| Codec.SendPacket | crates/canal-client/src/lib.rs:259-270 | the client writes the bytes the server's encoder would |
| Codec.ReadPacket | crates/canal-client/src/lib.rs:273-301 | the blocking reader returns the non-empty frame the server's decoder would, and the error for each other case |
| Codec.ReadPackets | crates/canal-client/src/lib.rs:273-301 | on every byte stream the client's reader extracts the server's frames up to the first empty one, and all of them if none is empty |
| Conversion.CanalEventToEntry | crates/canal-server/src/conversion.rs:8-107 | the column loops build the entry that the specification function gives |
| Conversion.ImagesRoundTrip | crates/canal-client/src/lib.rs:348-390 | row images come back column by column, null apart from empty string; only the after image keeps its flags; an empty image comes back absent |
| Conversion.WireRoundTrip | crates/canal-client/src/lib.rs:305-432 | the server refuses exactly unknown event types; every other event is decoded to its normal form with 64-bit casts undone |
| Conversion.ReencodingIsStable | crates/canal-server/src/conversion.rs:8-107 | encoding a decoded event gives the same entry again, and the normal form is reached after one trip |
| Conversion.LosslessIffCanonical | crates/canal-client/src/lib.rs:305-432 | an event arrives unchanged, raw bytes apart, if and only if it is canonical |
| Conversion.NotUpdatedIffUnflagged | crates/canal-server/src/conversion.rs:64-75 | clearing the flags of a before image changes nothing if and only if none was set |
| Conversion.EntryFields | crates/canal-server/src/conversion.rs:8-107 | every field of the entry of an event and of the row change in it: enum numbers, names, offsets, images, flags, DDL text and schema, length |
| Conversion.ColumnIsShown | crates/canal-server/src/conversion.rs:109-124 | a column on the wire carries name, value, null mark, key flag and SQL type, and the MySQL type as decimal text |
| Conversion.ForeignEntries | crates/canal-client/src/lib.rs:305-432 | what the client makes of entries its own server would not send: errors, unknown numbers, row changes that do not decode, several rows |
| Conversion.ForeignColumns | crates/canal-client/src/lib.rs:348-390 | an empty value is a null only if it is marked |
| Replication.BuildColumnInfos | crates/canal-binlog/src/column_serde.rs:7-45 | column names, types, key flags from both key lists and nullability, with the defaults for missing metadata |
| Replication.TableMapCache.Put | crates/canal-binlog/src/table_map.rs:32-35 | a name alone forgets the columns known for its id |
| Replication.TableMapCache.PutWithColumns | crates/canal-binlog/src/table_map.rs:37-46 | names and columns of an id change together; column ids stay a subset of name ids |
| Replication.TableMapCache.Clear | crates/canal-binlog/src/table_map.rs:56-59 | both maps are empty |
| Replication.EventConverter.HandleRowEvent | crates/canal-binlog/src/converter.rs:46-78 | the row change of an insert or delete, or the error for an unknown table or another type |
| Replication.EventConverter.HandleUpdateRowEvent | crates/canal-binlog/src/converter.rs:81-113 | exactly the changed columns of the after image are flagged, in place |
| Replication.ReflectsNext | crates/canal-binlog/src/connector.rs:292-307 | the two cache operations of the loop keep the cache equal to what the history says: the latest table map of an id since the last rotation |
| Replication.SendRowEvents | crates/canal-binlog/src/connector.rs:385-428 | one event or one error per row, in order, as the history determines |
| Replication.SendUpdateEvents | crates/canal-binlog/src/connector.rs:430-472 | the same for updates |
| Replication.RunReplication | crates/canal-binlog/src/connector.rs:184-281 | for every stream, what is sent is the concatenation of what each item's own history determines |
| ReplicationFacts.EmittedKey | crates/canal-binlog/src/connector.rs:284-472 | everything one binlog event produces carries that event's file and position |
| ReplicationFacts.OutputIsSorted | crates/canal-binlog/src/connector.rs:184-281 | if positions do not decrease within a file and rotations raise the suffix, what is sent is sorted by key |
| ReplicationFacts.OutputIsCanonical | crates/canal-binlog/src/connector.rs:311-381 | everything sent is of a known type and canonical, given rows with at least one cell |
| ReplicationFacts.UpdatePatchReachesClient | crates/canal-binlog/src/converter.rs:95-100 | overlaying the flagged columns on the before image the client received gives the after-update values, and the flags are minimal |
| ReplicationFacts.CellsAreShown | crates/canal-binlog/src/column_serde.rs:91-109 | every cell of a row has its value, the name of the metadata or `col_i`, its type, and is a key if and only if either key list says so, with the defaults beyond the known columns |
| ReplicationFacts.NullableUnlessCleared | crates/canal-binlog/src/column_serde.rs:42 | a column takes nulls unless the null bitmap says that it does not |
| ReplicationFacts.UpdateIsShown | crates/canal-binlog/src/converter.rs:95-100 | the after image of an update is its row, flagged exactly where the value differs from the row before |
| ReplicationFacts.RowsAreSent | crates/canal-binlog/src/connector.rs:385-428 | for each inserted or deleted row, an error for an unknown table and else one event with the fields of the header, the history and the table map, and the row as its one image on the right side |
| ReplicationFacts.UpdatesAreSent | crates/canal-binlog/src/connector.rs:430-472 | the same for updated rows, with both images |
| ReplicationFacts.StatementIsSent | crates/canal-binlog/src/connector.rs:311-341 | a statement is sent as DDL, whole up to 65536 bytes and else its first 65536 characters |
| ReplicationFacts.OthersAreSilent | crates/canal-binlog/src/connector.rs:210-219 | a broken item is reported, and no other kind of event sends anything |
| ReplicationFacts.OutputOfMore | crates/canal-binlog/src/connector.rs:184-281 | one more item adds what it makes the connector send at the end |
| ReplicationFacts.FileIsOfLastRotation | crates/canal-binlog/src/connector.rs:236-238 | the file of an event is that of the last rotation up to it, or the one the stream started in |
| ReplicationFacts.GtidIsLastAnnounced | crates/canal-binlog/src/connector.rs:223-234 | the GTID of an event is the one announced last, across rotations |
| ReplicationFacts.TableIsLastMapped | crates/canal-binlog/src/connector.rs:292-307 | the table of an id is the one mapped to it last, unless the log has been rotated since |
| Pipeline.BatchesConserve | crates/canal-cli/src/main.rs:165-203 | the fed batches and the pending events are the received events in order |
| Pipeline.BatchSizes | crates/canal-cli/src/main.rs:171-203 | a fed batch has between 1 and 256 events |
| Pipeline.BatchingSplitsGroup | crates/canal-cli/src/main.rs:171-177 | 257 events of which the last two share a position are fed as two puts that share a position group |
| Pipeline.TickSplitsGroup | crates/canal-cli/src/main.rs:188-194 | a timer tick between two events of one position does the same |
| Pipeline.PutsStrictIff | crates/canal-cli/src/main.rs:165-203 | every put of the loop comes strictly after the log if and only if no flush stands between two events of one key that pass the sink's filter |
| Pipeline.FedStrictIff | crates/canal-cli/src/main.rs:165-203 | the same for the fed batches before filtering |
| Pipeline.SelectKeepsOrder | crates/canal-sink/src/sink.rs:156-160 | filtering keeps a batch sorted |
| Pipeline.SelectFits | crates/canal-sink/src/sink.rs:156-175 | the filtered batch fits behind the filtered log if the unfiltered stream is sorted |
| Pipeline.KeptConserves | crates/canal-sink/src/sink.rs:156-175 | filtering batch by batch puts what filtering the whole stream keeps, and never an empty batch |
| Pipeline.SinkKeeps | crates/canal-sink/src/sink.rs:156-160 | what the sink keeps, by the regular expressions alone |
| Pipeline.DefaultEventSink.Sink | crates/canal-sink/src/sink.rs:152-193 | the store grows by exactly the events that pass, the batch is queued once, and parsed = filtered out + stored |
| Pipeline.DefaultEventSink.DispatchOne | crates/canal-sink/src/sink.rs:119-132 | the oldest queued batch goes to every connector, keeping handed + queued = stored |
| Pipeline.DefaultEventSink.DispatchAll | crates/canal-sink/src/sink.rs:119-132 | a worker that catches up has handed every connector the stored batches in their order |
| Pipeline.RunServer | crates/canal-cli/src/main.rs:165-203 | for every timing of the flushes: the order `put_batch` asserts holds at every put, nothing is lost, duplicated or reordered, the store takes exactly the events that pass, and the puts are those of the fed batches |
| Pipeline.Feed | crates/canal-instance/src/instance.rs:86-95 | one feed in the middle of that loop keeps the loop's claim |
| Session.SessionManager.Register | crates/canal-server/src/session.rs:65-69 | registering replaces the session, its stored ack included |
| Session.SessionManager.Unregister | crates/canal-server/src/session.rs:71-73 | only that session is removed |
| Session.SessionManager.UpdateAck | crates/canal-server/src/session.rs:79-83 | only the ack of an existing session changes |
| Session.ClientState.constructor | crates/canal-server/src/server.rs:229-239 | the state of a new connection |
| Session.ClientState.HandleAuth | crates/canal-server/src/server.rs:241-331 | state, session table, reply and whether the connection ends, for every authentication |
| Session.ClientState.HandleSub | crates/canal-server/src/server.rs:333-387 | the same for a subscription |
| Session.ClientState.BeginGet | crates/canal-server/src/server.rs:396-449 | which cursor a Get starts from, and that one below the watermark of the log is refused |
| Session.ClientState.FinishGet | crates/canal-server/src/server.rs:451-511 | the answer and the new cursor for what the window of the log holds, or an empty answer after a timeout |
| Session.ClientState.HandleClientAck | crates/canal-server/src/server.rs:513-530 | an ack counts only for the batch sent last |
| Session.ClientState.HandleClientRollback | crates/canal-server/src/server.rs:532-540 | the cursor becomes the last ack, or nothing |
| Session.ClientState.HandleFrame | crates/canal-server/src/server.rs:157-220 | one pass of the packet loop, for every frame and state |
| Session.EncodeInOrder | crates/canal-server/src/server.rs:498-501 | the entries of a batch in order, or nothing from the first event without an encoding |
| SessionRuns.HandlePermitted | crates/canal-server/src/server.rs:181-220 | no handler answers twice, takes back an authentication, miscounts a failed password or passes a limit |
| SessionRuns.GetPermitted | crates/canal-server/src/server.rs:451-511 | nor does answering a Get |
| SessionRuns.StepKeepsSession | crates/canal-server/src/server.rs:146-227 | every step keeps the session invariant |
| SessionRuns.RunKeepsSession | crates/canal-server/src/server.rs:146-227 | so does every run |
| SessionRuns.SessionMachine | crates/canal-server/src/server.rs:184-331 | in every reachable state: authenticated if and only if there is an identity, nothing but refusals sent before, at most three failed passwords, the third closing the connection |
| SessionRuns.IdentityNeverChanges | crates/canal-server/src/server.rs:251-257 | an identity stays until the connection is replaced |
| SessionRuns.UnknownPacketsDisconnect | crates/canal-server/src/server.rs:206-214 | in every run: ten unknown packets without a known one in between end the connection, whatever keepalives, authentications, puts, other clients and timeouts come between |
| SessionRuns.OnlyPasswordAuthenticates | crates/canal-server/src/server.rs:259-281 | no step authenticates a connection but an authentication with the right password, whatever came before |
| SessionRuns.WrongPasswordIsRefused | crates/canal-server/src/server.rs:259-281 | a wrong password gets one refusal, changes nothing but the count, and ends the connection if it is the third |
| SessionRuns.AuthenticatedGavePassword | crates/canal-server/src/server.rs:259-330 | in every run an authenticated connection has given the right password since it was made |
| SessionRuns.ThreeWrongPasswords | crates/canal-server/src/server.rs:271-276 | the third wrong password ends a connection, the second does not |
| SessionRuns.TenUnknownPackets | crates/canal-server/src/server.rs:206-219 | the tenth unknown packet in a row ends a connection, the ninth does not, and none does anything else |
| SessionRuns.HeartbeatIsAnswered | crates/canal-server/src/server.rs:542-552 | a heartbeat is answered with one acknowledgement, a keepalive not at all |
| SessionRuns.UnauthenticatedIsRefused | crates/canal-server/src/server.rs:184-190 | before an authentication every other packet is refused, after it another authentication is; neither changes anything |
| SessionRuns.UndecodableEndsConnection | crates/canal-server/src/server.rs:157-205 | what does not decode ends the connection without an answer, except an ack or a rollback, which is passed over |
| SessionRuns.EndOfStreamUnregisters | crates/canal-server/src/server.rs:222-226 | the end of a stream unregisters the session of the connection and no other; a failed send leaves it |
| SessionRuns.FetchSizeIsClamped | crates/canal-server/src/server.rs:399-401 | a read has the size asked for, between 1 and 10000, and 100 for a negative one |
| SessionRuns.SubscriptionReplacesSession | crates/canal-server/src/server.rs:333-387 | exactly when a subscription is accepted, the whole new state, and which refusal comes first |
| SessionRuns.AuthenticationRegisters | crates/canal-server/src/server.rs:282-330 | the same for an authentication with the right password |
| SessionSafety.HandledWithoutBatch | crates/canal-server/src/server.rs:184-219 | a frame that is handled at once sends no batch and leaves the last batch as it was |
| SessionSafety.ServeStep | crates/canal-server/src/server.rs:451-511 | the whole state after a read, in terms of the log |
| SessionSafety.StepKeepsHistory | crates/canal-server/src/server.rs:389-530 | every step keeps ids growing and the replies equal to the answers of the batches served |
| SessionSafety.BatchIdsIdentify | crates/canal-server/src/server.rs:513-530 | ids are positive and increasing, replies are the served batches in order, and an ack changes something if and only if it names the last of them |
| SessionSafety.HandleMovesCursors | crates/canal-server/src/server.rs:184-220 | a frame moves a cursor only to where another cursor already stands |
| SessionSafety.StepKeepsCursors | crates/canal-server/src/server.rs:389-540 | in every run each cursor is the end of a batch served, and a waiting Get reads from the cursor |
| SessionSafety.RunKeepsSound | crates/canal-server/src/server.rs:146-540 | the session, history and cursor invariants hold over every run |
| SessionSafety.AuthStartsAt | crates/canal-server/src/server.rs:318-326 | an accepted authentication puts the cursor at the start time, if any, or leaves it at the default position |
| SessionSafety.ConnectionStart | crates/canal-server/src/server.rs:389-428 | the first batch of a connection is read from that start, whatever comes before it, unless a rollback resets a start time |
| SessionSafety.RollbackResetsStart | crates/canal-server/src/server.rs:532-540 | a rollback before the first batch resets the start to the default position |
| SessionSafety.BatchBegins | crates/canal-store/src/memory.rs:131-146 | where a batch begins for its cursor: the later of the first entry behind it and the oldest one then retained, or the first one retained that was executed since a start time |
| SessionSafety.DefaultStartIsFirst | crates/canal-server/src/server.rs:409-410 | the default position is offset 4 of file 1, and it is in front of a whole log if and only if the log does not begin at or before that |
| SessionSafety.GaplessMoreIff | crates/canal-server/src/server.rs:451-457 | one more batch leaves nothing out if and only if it starts no further on than the furthest served |
| SessionSafety.BoundariesAfterPut | crates/canal-store/src/memory.rs:94-114 | strictly later puts leave every batch end at the end of a position group |
| SessionSafety.ServeKeepsCoverIff | crates/canal-server/src/server.rs:451-457 | a read for whatever cursor keeps coverage if and only if it does not skip |
| SessionSafety.StepKeepsCover | crates/canal-server/src/server.rs:389-540 | every disciplined step, rollbacks and acks included, keeps coverage of all four cursors |
| SessionSafety.RunKeepsCover | crates/canal-server/src/server.rs:389-540 | so does every disciplined run |
| SessionSafety.HitIsSent | crates/canal-server/src/server.rs:459-509 | a covered entry that passes the filter is, encoded, in a reply that was sent |
| SessionSafety.AnswerKeeps | crates/canal-server/src/server.rs:459-501 | the entries of a reply are, encoded and in order, the events of the batch that the filter of the session keeps, by the regular expressions alone |
| SessionSafety.GetIsChecked | crates/canal-server/src/server.rs:430-449 | a Get waits for the client's own positional cursor only if that is not below the watermark |
| SessionSafety.GetThenServeIsPrudent | crates/canal-server/src/server.rs:430-451 | so a read that follows the check at once is for a cursor that has lost nothing |
| SessionSafety.StepKeepsChecked | crates/canal-server/src/server.rs:430-451 | that stays true while the Get waits as long as no put overtakes its cursor |
| SessionSafety.PrudentIsDisciplined | crates/canal-server/src/server.rs:430-451 | a read for a cursor that is not below the watermark by then skips nothing that was not served |
| SessionSafety.AtomicRunIsPrudent | crates/canal-server/src/server.rs:430-451 | with check and read as good as one step, the check made when the Get came in still holds at every read |
| SessionSafety.PrudentRunIsDisciplined | crates/canal-server/src/server.rs:389-540 | when it does, and rollbacks follow accepted acks, no read of the run skips anything |
| SessionSafety.AckRollbackSafety | crates/canal-server/src/server.rs:389-540 | with the watermark check and the read as one step, or the watermark not beyond the cursor at the read, and rollbacks after accepted acks (or rollbacks at any time and reads that skip nothing), no cursor stands past an unsent entry at or behind the exact begin of the connection's first read, whatever came before the connection |
| SessionSafety.GetStep | crates/canal-server/src/server.rs:417-451 | a Get is refused or waits from its cursor, and changes nothing else |
| SessionSafety.RollbackResumesAtAck | crates/canal-server/src/server.rs:532-540 | in every run: a Get after a rollback is refused if and only if entries behind the last ack are gone, and otherwise reads from the first entry behind it |
| SessionSafety.StoredAckIsOwn | crates/canal-server/src/server.rs:417-428 | in every run the stored ack is the last one of the same connection |
| SessionSafety.StoredAckUnused | crates/canal-server/src/server.rs:417-428 | as long as rollbacks follow acks, the stored ack is never what a Get starts from |
| SessionSafety.GetStartsFrom | crates/canal-server/src/server.rs:403-449 | a Get starts at the connection's cursor, else at the stored ack, else at the default position; only a positional cursor of its own below the watermark is refused |
| SessionSafety.LateAckIsStart | crates/canal-server/src/server.rs:417-428 | after a rollback before the first ack, the ack of the batch sent last is where the next Get starts, or what it is refused for |
| SessionSafety.ReconnectForgetsAck | crates/canal-server/src/session.rs:65-69 | a client that authenticates starts from its start time or the default position, whatever was stored |
| SessionSafety.PutKeepsCoverageIff | crates/canal-store/src/memory.rs:94-102 | a put keeps what a caught-up reader has covered if and only if it does not continue the tail's position group |
| SessionSafety.ServeKeepsCoverageIff | crates/canal-server/src/server.rs:430-451 | a read keeps coverage if and only if neither its cursor nor the oldest entry retained lies beyond what has been served |
| SessionSafety.FrontReadKeepsCoverageIff | crates/canal-server/src/server.rs:430-451 | for the client's own cursor at the front: if and only if the watermark has not overtaken the cursor by the time of the read |
| SessionSafety.SkipMisses | crates/canal-server/src/server.rs:451-457 | a read that skips leaves a named entry behind the cursor, unsent |
| SessionSafety.UnackedRollbackIff | crates/canal-server/src/server.rs:532-540 | after a rollback before any ack the next Get is not refused even if it would have been, and nothing is skipped if and only if neither the default position nor the oldest entry retained lies beyond the old cursor |
| SessionSafety.AckMovesBackIff | crates/canal-server/src/server.rs:513-540 | acking a rolled-back batch and then a re-read one moves the ack back if and only if the entry at the end of the requested size comes before the first batch's end |
| SessionSafety.AcksMoveForward | crates/canal-server/src/server.rs:513-530 | in every run without a rollback an accepted ack is never before an earlier one |
| LossyRuns.PutLosesEntry | crates/canal-store/src/memory.rs:94-102 | a run in which a put that continues the tail's group makes the client's cursor pass an unsent entry |
| LossyRuns.OvertakenReadLosesEntry | crates/canal-server/src/server.rs:430-451 | a run in which the watermark overtakes the cursor of a waiting Get |
| LossyRuns.UnackedRollbackLosesEntry | crates/canal-server/src/server.rs:532-540 | a run in which a rollback before any ack makes the next read jump over a dropped entry |
| LossyRuns.DefaultBeyondCursorLosesEntry | crates/canal-server/src/server.rs:409-428 | a run in which such a rollback loses an entry although nothing has been dropped |
| Server.ServerProcess.Receive | crates/canal-server/src/server.rs:157-220 | a pass of the packet loop on the objects is the step of the machine |
| Server.ServerProcess.Serve | crates/canal-server/src/server.rs:451-511 | so is the read of a waiting Get |
| Server.ServerProcess.Hangup | crates/canal-server/src/server.rs:222-224 | the end of a stream closes the connection and unregisters its session |
| Server.ServerProcess.PerformAll | crates/canal-server/src/server.rs:146-227 | any schedule of puts, packets, reads, timeouts and other connections leaves the objects in the state of the machine's run |
| Delivery.HandshakeSubscribes | crates/canal-client/src/lib.rs:71-117 | connecting succeeds if and only if password and filter are accepted; subscribing then succeeds even if refused, and delivery starts at the start time or default position under the filter that was accepted last |
| Delivery.EncodedThenDecoded | crates/canal-client/src/lib.rs:166-180 | the client gets the normal forms of the events the server encoded, in order |
| Delivery.ServeIsContiguous | crates/canal-server/src/server.rs:451-457 | each batch starts where the one before ended |
| Delivery.AcceptedAckWasTaken | crates/canal-client/src/lib.rs:184-198 | an ack the server accepts is at the end of a batch the client has taken |
| Delivery.ForwardKeepsClient | crates/canal-client/src/lib.rs:166-180 | forwarding one entry of a batch extends what has been forwarded by the next thing owed |
| Delivery.TakeKeepsClient | crates/canal-client/src/lib.rs:182-201 | a batch is acked when all of it has been forwarded |
| Delivery.RefusalIsFinal | crates/canal-client/src/lib.rs:202-205 | under every schedule: from the moment the client faces a reply that is not a batch it sends and forwards nothing, and once it has taken it, it has stopped for good |
| Delivery.FailureIsFinal | crates/canal-client/src/lib.rs:142-197 | the same from any failure of the client, also in the middle of a batch |
| Delivery.BatchGoesOn | crates/canal-client/src/lib.rs:127-201 | a batch is forwarded in full, acked by its id and followed by a poll for 100 events |
| Delivery.MoveKeepsWorld | crates/canal-client/src/lib.rs:124-219 | every move of client or server keeps the joint invariant |
| Delivery.PlayKeepsWorld | crates/canal-client/src/lib.rs:124-219 | so does every interleaving |
| Delivery.PlayKeepsBegan | crates/canal-client/src/lib.rs:124-219 | whatever the interleaving, the first read is for the cursor the subscription started with |
| Delivery.AtomicPlayIsPrudent | crates/canal-server/src/server.rs:430-451 | in the client's loop too, the check made when the Get came in holds at the read if no put overtakes the cursor |
| Delivery.PrudentPlayIsFair | crates/canal-server/src/server.rs:430-457 | and then no read skips anything |
| Delivery.EndToEndDelivery | crates/canal-client/src/lib.rs:124-219 | for such schedules, from any reachable state of the server: the forwarded events are a prefix of the matching entries of one contiguous segment, in order and once each, all of them when nothing is left to take; the segment begins exactly where the first read of the start cursor began and ends at the server's cursor |
| Delivery.AckedWasForwarded | crates/canal-client/src/lib.rs:165-198 | for the same schedules, every matching entry from that begin up to the last accepted ack has been forwarded |
| Delivery.ServerRound | crates/canal-server/src/server.rs:389-530 | what the Get, the read and the ack of a round do at the server |
| Delivery.RoundAdvances | crates/canal-client/src/lib.rs:127-201 | a round moves the cursor on by a full batch unless less is left, acks it, and the next Get is not refused |
| Delivery.CatchesUp | crates/canal-client/src/lib.rs:124-219 | from any settled state that is not refused the loop can forward and have acked everything up to the end of the log |
| Delivery.EnoughReadsReachEnd | crates/canal-client/src/lib.rs:124-219 | for the same schedules, once the answered reads number at least the entries that were ahead, the client has been served up to the end of the log, puts included, and has forwarded all of it when no reply is left |
| Wire.HeadOfStream | crates/canal-server/src/codec.rs:25-64 | whatever part of a stream has arrived, a decoder finds in it the first payload sent, that it is too large, or nothing yet |
| Wire.AcceptFinds | crates/canal-server/src/codec.rs:25-64 | the server decodes the client's packets in the order in which they were sent |
| Wire.ReadFinds | crates/canal-client/src/lib.rs:273-301 | the client reads the server's replies in the order in which they were sent, up to the first above its limit |
| Wire.ByteMoveRefines | crates/canal-client/src/lib.rs:124-219 | a move of the loop over the wire is a move, or none, of the loop over queues of packets |
| Wire.BytePlayRefines | crates/canal-client/src/lib.rs:124-219 | so is a whole schedule, for every chunking and delay of both streams |
| Wire.RefusalIsFinalOverTheWire | crates/canal-client/src/lib.rs:202-205 | once the client has read a packet that is not a batch, no schedule makes it write another byte or forward anything |
| Wire.BatchGoesOnOverTheWire | crates/canal-client/src/lib.rs:182-201 | a forwarded batch is acked on the wire and followed by the next poll |
| Wire.UnreadableEndsLoop | crates/canal-client/src/lib.rs:273-301 | a packet above the limit, an empty one or one that does not decode ends the loop |
| Wire.EmptyFrameIsSkipped | crates/canal-server/src/server.rs:174-177 | the server takes an empty frame off its buffer and does nothing else |
| Wire.OversizedFrameDisconnects | crates/canal-server/src/codec.rs:41-46 | a frame above the limit ends the connection at the server without an answer |
| Wire.DeliveryOverTheWire | crates/canal-client/src/lib.rs:124-219 | end-to-end delivery over two byte streams in arbitrary chunks, all of it when no byte is left to read; a reply above the limit ends the loop and takes nothing back |
| EndToEnd.BinlogFeedsStoreInOrder | crates/canal-cli/src/main.rs:165-203 | a well-ordered binlog meets the batching loop's precondition for every timing of its flushes |
| EndToEnd.ArrivesUnchanged | crates/canal-client/src/lib.rs:305-432 | an event the connector produced arrives as it was, raw bytes apart |
| EndToEnd.PipelineLog | crates/canal-sink/src/sink.rs:152-193 | in any run that makes the pipeline's puts, every one of them is accepted and the log holds, in order, what was read from the binlog and passes the sink's filter |
| EndToEnd.PipelineIsSafe | crates/canal-cli/src/main.rs:165-203 | the puts of the pipeline make a schedule safe when no flush cuts a position group and the watermark does not overtake a Get that waits, at its read or by a put |
| EndToEnd.FreshClientBeginsWithOldest | crates/canal-server/src/server.rs:420-428 | a client without a start time begins with the oldest entry retained when first read for |
| EndToEnd.BinlogReachesConsumer | crates/canal-client/src/lib.rs:124-219 | for flushes that cut no group and, after the subscription, a watermark that does not overtake a Get that waits, what a consumer has received is, in order, events read from the binlog that pass both filters, from where its start cursor says, each unchanged but for its raw bytes |

## Left out

- CatchesUp: shows that the loop can always catch up (`Delivery.EnoughReadsReachEnd` covers every schedule); it assumes that replies stay within the 8 MiB the client's reader accepts, which the encoder does not enforce (`Codec.RoundTripIffFits`), and that no event of unknown type is stored.
- BinlogReachesConsumer: needs flushes that cut no position group and a watermark that does not overtake a Get that waits, neither of which the code guarantees.
- DeliveryOverTheWire: assumes replies below 4 GiB, whose length the header can hold, and polls and acks within the server's 8 MiB; packet encodings are a parameter (`Wire.Faithful`).
- NoLostWakeup: models `notify_waiters` as waking every future created before it, the documented behaviour of tokio's `Notify`; the future's polling is not modelled.
- PutBatch: taking the batch id, locking and changing the buffer are one step outside `WakeUp.dfy`, as there is a single feeder; the id is an unbounded number, without the wrap-around of the 64-bit counter.
- OutputIsCanonical: assumes that every row has a cell and that no GTID is the empty string, as in any binlog; the other case is covered by `Conversion.LosslessIffCanonical`.
- Two live connections with one client id share a session entry; other sessions are assumed to leave this client's entry alone (`SessionRuns.LeavesOwnSession`).
- Protobuf byte encodings: a parameter with decode after encode as the identity (`Conversion.Lawful`). Fields that neither side sets are not part of the messages.
- Regular expressions: a parameter that says which patterns compile and what they match; size limits on compiled patterns are part of it.
- TCP accept, the connection limit, shutdown and drain timeouts, the idle timeout and the delay after a failed password. A Get that times out is a step that may happen whenever one waits; a lost connection is a step that may happen at any time.
- Lifecycle flags of store and instance, lock poisoning, wall-clock heartbeats, metrics other than the parsed and filtered counts, and logging.
- Rendering of MySQL values as text, TLS and credentials, panics of the binlog decoder, cancellation, the consecutive-error counter (its branch is dead because `process_and_send` never fails) and a closed event channel.
- The bodies of error messages; an error keeps its kind only.
- The client's backoff between polls.
- The result of a connector's dispatch: a failed dispatch is logged and counted by the original and changes no order.
- Kafka connector, admin API, Prometheus, command line and configuration, metadata store, web site.
