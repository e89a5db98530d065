# RedisShake: a verified model

RedisShake copies data between Redis servers. This project models its data plane, and the task and run state
machines of its control plane, in Dafny 4.11, and proves the properties its code relies on. `dafny verify
dfyconfig.toml` checks everything.

## How the model is organised

Code that computes a result is a function (the specification) and a method in the source's own shape (loops, moving
indices, fields, one reused buffer) proved equal to it; the properties are lemmas about the function. Goroutines that
share state are state machines: one `Action` for each store call, channel operation, critical section or atomic
counter step, and theorems over every reachable state of every interleaving. A Go panic or an error that ends a loop is
`None`, `false` or an explicit outcome.

- `Bytes`, `CommandStream`: byte strings, decimal text, commands, and the meaning of a command stream: which command
  runs in which database.
- `RespWriter`, `RespReader`, `RespFormat`, `AofLoader`: the RESP protocol, written once and read by two independent
  parsers.
- `Pipeline`, `PipelineSafety`, `PipelineTheorems`, `PipelineWriter`, `PipelineBuffer`, `SendAof`: the pipelined target writer with its
  two goroutines, two counters and inserted SELECTs, composed with the command filter of the sync reader.
- `RotatingLog`, `RotatingLogFiles`: a log in files named by offset, with a writer and a reader that deletes behind it.
- `Diskless`: the receive loop that looks for a 40-byte end marker in a buffer it reuses in place.
- `RdbPrimitives`, `Lzf`, `RdbString`, `Listpack`, `Ziplist`, `RdbList`, `RdbHash`, `RdbStream*`, `RdbLoop`, `RdbFile`,
  `RdbValues`: RDB decoding from single bytes to whole files. For each format there is an encoder with every choice the
  format leaves open, and decoding is proved to invert it and to land exactly behind the value.
- `Crc64*`, `Crc16*`: table-driven checksums against bit-by-bit polynomial division.
- `Slots`, `Cluster`: hash tags, slot assignment and routing.
- `UniqueQueue`, `Scan`, `ScanAlignment`, `ScanKeyspace`: the coalescing queue, the two goroutines that share one reply
  stream, and what the entries they send say about the source.
- `ControlStore`, `ControlTasks`, `Worker`: guarded row updates, optimistic revisions, and the life of a worker process.

## Where the code does not do what one would expect

Each of these is stated exactly, as an if-and-only-if or with its failing input, by the member named:

- an entry that is itself a SELECT is never uncounted (`PipelineTheorems.CloseComplete`, with the run in
  `PipelineTheorems.SelectEntryNeverUncounted`) and can misroute what follows
  (`PipelineTheorems.SelectEntryMisroutes`);
- the wait on UnansweredBytes can wait for bytes that only the waiting loop would flush (`PipelineTheorems.GateOpensIff`,
  with the run in `PipelineTheorems.DeadlockReachable` and
  its exact condition for two entries in `PipelineTheorems.DeadlockIff`);
- the diskless receive stops early if a read happens to end in the marker (`Diskless.PayloadRecovered`,
  `Diskless.EveryCutting`, with inputs in `Diskless.StopsEarly` and `Diskless.StopsEarlyOverlapping`);
- a key that expires at the very millisecond it is read loses its expiry (`RdbLoop.RemainingIsZero`);
- stream ids from 2^63 on are printed as negative numbers (`RdbStreamFormat.AddedIdCorrect`), and a stream whose nodes
  hold deleted entries only is not created before XSETID (`RdbStreamServer.StreamRebuilt`);
- a ziplist of 65535 entries or more is cut short or refused (`Ziplist.ZiplistRoundTrip`), a listpack of more than
  65535 refused (`Listpack.ListpackRoundTrip`);
- discarding a bulk nil swallows two bytes of the next reply (`RespFormat.DiscardBulkNil`,
  `RespFormat.DiscardNestedNil`);
- a map with a nil key leaves its other cells on the stream (`RespFormat.NilKey`).

## Model

| member | source | states |
|---|---|---|
| `Pipeline.EmittedMeaning` | backend/internal/writer/redis_standalone_writer.go:88-153 | on a connection that starts in database 0, the stream with the inserted SELECTs executes every entry in its own database, for all entry streams without SELECT |
| `PipelineTheorems.ReplyPairing` | backend/internal/writer/redis_standalone_writer.go:120-181 | in every interleaving of write loop, reply loop and FIFO server, the i-th reply is read for the i-th executed command and was caused by it |
| `PipelineTheorems.CounterSafety` | backend/internal/writer/redis_standalone_writer.go:120-181 | in every interleaving both counters are non-negative; without SELECT entries UnansweredBytes exceeds the query-buffer limit only for one single entry |
| `PipelineTheorems.UnansweredIsWire` | backend/internal/writer/redis_standalone_writer.go:148-150 | between two steps of each loop, UnansweredBytes is exactly the number of bytes the outstanding entries have on the wire, and UnansweredEntries their number |
| `PipelineTheorems.PanicsExactly` | backend/internal/writer/redis_standalone_writer.go:156-175 | in every interleaving the reply loop panics at the first reply that is an error other than a busy key, or a busy key where the behaviour is panic, and at no other |
| `PipelineTheorems.BlockedIsFlushed` | backend/internal/writer/redis_standalone_writer.go:139-147 | when the write loop is blocked on the full wait-reply queue, everything in the queue has been flushed or answered, and server or reply loop can take a step |
| `PipelineTheorems.CloseComplete` | backend/internal/writer/redis_standalone_writer.go:68-75 | when Close returns, every written entry was sent exactly once, in order, executed and answered; the counters are zero if and only if no written entry was itself a SELECT |
| `PipelineTheorems.SelectEntryNeverUncounted` | backend/internal/writer/redis_standalone_writer.go:176-178 | under every configuration a run in which a single SELECT entry is written, sent and answered, and Close returns with that entry still in both counters |
| `PipelineTheorems.DeadlockReachable` | backend/internal/writer/redis_standalone_writer.go:128-130 | under every configuration, a first entry of database 0 that fits the 32 KiB write buffer and a second one that exceeds the limit on top of it have a run that ends in that wait and cannot leave it |
| `PipelineTheorems.DeadlockIff` | backend/internal/writer/redis_standalone_writer.go:128-130 | two SELECT-free entries of database 0 can end so if and only if the first fits the write buffer and both together exceed the limit |
| `PipelineTheorems.RoomForBuffer` | backend/internal/writer/redis_standalone_writer.go:128-130 | a limit with room for the entry and two write buffers less one byte always lets the wait end |
| `PipelineBuffer.ReachableBuffer` | backend/internal/client/redis.go:225-230 | in every interleaving the write buffer holds at most its 32 KiB, is empty exactly when every command has gone out, and holds all of every unsent command but a part of the oldest |
| `PipelineTheorems.GateOpensIff` | backend/internal/writer/redis_standalone_writer.go:128-130 | the wait on UnansweredBytes can end if and only if the bytes still in the write buffer, which only the waiting loop could flush, leave room for the entry |
| `PipelineTheorems.DeadlockedForever` | backend/internal/writer/redis_standalone_writer.go:128-130 | if they do not, no continuation whatever lets the write loop past the wait |
| `PipelineTheorems.SelectEntryMisroutes` | backend/internal/writer/redis_standalone_writer.go:117-119 | a SELECT entry sends the next command of its database to the wrong one if and only if it selects a different database |
| `PipelineTheorems.EndToEnd` | backend/internal/writer/redis_standalone_writer.go:88-153 | source to target: what the target executes is what the source executed, command by command in the same database, minus exactly what sendAOF drops, with keep-alive PINGs anywhere in between |
| `PipelineTheorems.PingsCarryOver` | backend/cmd/redis-shake/main.go:277-283 | database-0 PING entries put in anywhere add only PINGs to what is executed |
| `PipelineSafety.InvStep` | backend/internal/writer/redis_standalone_writer.go:100-181 | every step of every goroutine and of the server keeps alignment of queue and connection, the ledger of what was sent, and the meaning of both counters |
| `PipelineWriter.StandaloneWriter.Take` | backend/internal/writer/redis_standalone_writer.go:110-119 | taking an entry, with the SELECT sent and flushed where the database differs, is the Take step of the protocol |
| `PipelineWriter.StandaloneWriter.TryGate` | backend/internal/writer/redis_standalone_writer.go:128-130 | one test of the wait on UnansweredBytes opens exactly when the protocol step is enabled |
| `PipelineWriter.StandaloneWriter.QueueOrFlush` | backend/internal/writer/redis_standalone_writer.go:139-147 | the select on the wait-reply queue sends if there is room and flushes before blocking otherwise |
| `PipelineWriter.StandaloneWriter.SendBytesBuff` | backend/internal/writer/redis_standalone_writer.go:151-151 | the buffered send is the Buffer step of the protocol |
| `PipelineWriter.StandaloneWriter.BufferedWrite` | backend/internal/client/redis.go:225-230 | the loop of the buffered writer keeps what fits, fills and flushes a partly filled buffer, and bypasses an empty one |
| `PipelineWriter.StandaloneWriter.Receive` | backend/internal/writer/redis_standalone_writer.go:156-178 | a reply panics, is skipped for SELECT, or goes on to the counters, as the protocol step does |
| `SendAof.FilterMeaning` | backend/internal/reader/sync_standalone_reader.go:519-579 | sendAOF forwards exactly what the source executed, minus the dropped commands, in the source's databases; without an ARS-wrapped SELECT no SELECT gets through |
| `SendAof.TurnLaw` | backend/internal/reader/sync_standalone_reader.go:519-577 | for every command, in the letters of its name: it panics if and only if it is empty, a SELECT without a number, an ARS wrapper around nothing, or a PUBLISH without a channel; SELECT alone moves the database; ping, replconf, opinfo, multi, exec and publish on __sentinel__:hello are swallowed, and every other command is forwarded whole, without its ARS wrapper |
| `SendAof.FilterPanics` | backend/internal/reader/sync_standalone_reader.go:519-579 | the loop panics if and only if one of its commands does |
| `SendAof.TurnMeaning` | backend/internal/reader/sync_standalone_reader.go:535-577 | one turn skips a command if and only if it is a SELECT or a dropped one, and otherwise sends it unwrapped |
| `SendAof.Reader.SendAof` | backend/internal/reader/sync_standalone_reader.go:519-579 | the loop sends exactly the filtered stream, ends in the database of the last SELECT, and panics exactly when the filter does |
| `SendAof.Reader.Handle` | backend/internal/reader/sync_standalone_reader.go:535-577 | one command changes the reader's database or sends one entry, as the turn says |
| `RotatingLog.ReturnsPrefix` | backend/internal/utils/file_rotate/aof_reader.go:73-104 | in every interleaving of writes, rotations and reads, the bytes returned are a prefix of the bytes written, and both offsets count them |
| `RotatingLog.DeletesOnlyConsumed` | backend/internal/utils/file_rotate/aof_reader.go:55-71 | whatever was appended or rotated since the reader saw io.EOF, a segment is deleted only when its last byte has been returned, and never the segment being written |
| `RotatingLog.BehindFindsNext` | backend/internal/utils/file_rotate/aof_reader.go:55-71 | a reader at the end of its segment and behind the writer always finds the file named by its offset |
| `RotatingLog.CatchesUp` | backend/internal/utils/file_rotate/aof_reader.go:73-104 | from every reachable state, reader steps alone return everything written so far |
| `RotatingLog.RotationRule` | backend/internal/utils/file_rotate/aof_writer.go:42-53 | in every interleaving, between two writes the writer's file holds at most 1 GiB, and every file it has left holds more |
| `RotatingLog.StepInv` | backend/internal/utils/file_rotate/aof_writer.go:30-53 | every append, rotation, read and move keeps the segments contiguous, disjoint and named by their offsets |
| `RotatingLogFiles.AofWriter.Write` | backend/internal/utils/file_rotate/aof_writer.go:42-53 | a write appends exactly its bytes to the log, rotating when the file would grow past the limit, and is a run of the protocol |
| `RotatingLogFiles.AofReader.ReadFile` | backend/internal/utils/file_rotate/aof_reader.go:73-104 | one read returns the next unread bytes of the open file, and none exactly at its end |
| `RotatingLogFiles.AofReader.Retry` | backend/internal/utils/file_rotate/aof_reader.go:76-92 | one pass of the retry loop, from whatever the log has become during the sleep, moves on if it can, returns the next unread bytes, and is a run of the protocol |
| `RotatingLogFiles.AofReader.ReadNextFile` | backend/internal/utils/file_rotate/aof_reader.go:55-71 | the move succeeds exactly when the file named by the offset exists and differs, and then deletes exactly the finished file |
| `Diskless.PayloadRecovered` | backend/internal/reader/sync_standalone_reader.go:407-451 | for every cutting of payload and marker into reads, a prefix of the payload is written, and it is the whole payload if and only if no earlier read boundary falls behind an occurrence of the marker |
| `Diskless.EveryCutting` | backend/internal/reader/sync_standalone_reader.go:407-451 | every cutting of payload and marker into reads yields the payload if and only if the marker occurs in payload + marker only at its end |
| `Diskless.StopsEarly` | backend/internal/reader/sync_standalone_reader.go:419-450 | a payload that holds the marker is cut off in front of it if a read ends behind it |
| `Diskless.StopsEarlyOverlapping` | backend/internal/reader/sync_standalone_reader.go:419-450 | a concrete payload of one byte that does not hold the marker, and is lost when the first read ends in the middle of the marker |
| `Diskless.ReceiveRdb` | backend/internal/reader/sync_standalone_reader.go:418-450 | the loop over one reused buffer, with the carried slice aliasing it, writes exactly what the stream of pieces says |
| `Diskless.Turn` | backend/internal/reader/sync_standalone_reader.go:419-446 | one read: written bytes plus carried slice are the old carried slice plus the piece, and the marker test looks at the carried slice |
| `Diskless.CopyDown` | backend/internal/reader/sync_standalone_reader.go:420-420 | copying a slice of the buffer to its own front moves exactly the old bytes, overlap included |
| `UniqueQueue.NoDuplicates` | backend/internal/utils/UniqueQueue.go:15-42 | in every interleaving the set is exactly the pending, queued and popped keys, none in two places, and the inner channel holds no key twice |
| `UniqueQueue.NoLostUpdate` | backend/internal/utils/UniqueQueue.go:15-42 | when the queue has come to rest, every Put has been followed by a delivery of its key |
| `UniqueQueue.NothingSpurious` | backend/internal/utils/UniqueQueue.go:15-42 | no key is ever delivered more often than it was put |
| `UniqueQueue.Progress` | backend/internal/utils/UniqueQueue.go:15-42 | unless at rest, a step other than a new Put is enabled, and every such step leaves less work |
| `UniqueQueue.Queue.Enter` | backend/internal/utils/UniqueQueue.go:33-42 | the critical section of Put adds the key and sends it on exactly if the set did not hold it |
| `UniqueQueue.Queue.Receive` | backend/internal/utils/UniqueQueue.go:21-26 | one turn of the draining goroutine pops the oldest key and forgets it before handing it out |
| `ScanAlignment.ReplyAlignment` | backend/internal/reader/scan_standalone_reader.go:207-333 | in every interleaving of dump, FIFO server and restore, each finished item has consumed exactly the replies to the requests dump sent for it, skipped and missing keys included, and what came out is what each item's own replies make of it |
| `ScanAlignment.NoDeadlock` | backend/internal/reader/scan_standalone_reader.go:207-333 | while an item is unfinished, dump, server or restore can take a step |
| `ScanAlignment.OwnAnswers` | backend/internal/reader/scan_standalone_reader.go:242-272 | as soon as restore has received as many replies as an item needs, they are the replies to that item's own requests |
| `Scan.DumpLoop` | backend/internal/reader/scan_standalone_reader.go:220-237 | dump sends, item by item, SELECT where the database changes, DUMP, PTTL and, with a skip list, TYPE |
| `Scan.RestoreLoop` | backend/internal/reader/scan_standalone_reader.go:242-333 | restore turns each item's own stretch of the replies into entries, and panics exactly when an item does |
| `Scan.RestoreOne` | backend/internal/reader/scan_standalone_reader.go:244-331 | one turn consumes as many replies as the item's requests and yields what they mean |
| `Scan.IsSkipped` | backend/internal/reader/scan_standalone_reader.go:262-267 | the inner loop finds exactly whether some type of the skip list matches |
| `ScanKeyspace.OwnDumps` | backend/internal/reader/scan_standalone_reader.go:207-333 | in every interleaving with a server that answers from its data or with an error, while the data changes freely: what restore sent for the finished items is, key by key, the dump and time to live the source held under that key in that item's own database, PTTL 0 raised to 1, no expiry kept as none, and nothing for keys that are gone or of a skipped type |
| `ScanKeyspace.OwnDatabase` | backend/internal/reader/scan_standalone_reader.go:220-227 | in every interleaving, as long as no SELECT is refused, every answered DUMP, PTTL and TYPE ran in the database of its item |
| `ScanKeyspace.TraceItems` | backend/internal/reader/scan_standalone_reader.go:220-237 | the SELECTs dump sends by its own nowDbId put every request into its item's database |
| `ScanKeyspace.OneWanted` | backend/internal/reader/scan_standalone_reader.go:244-331 | one item's answers, given in its own database, restore what the source held of it, and without an error answer restore panics only where the value itself cannot be taken apart |
| `Scan.SameAsFile` | backend/internal/reader/scan_standalone_reader.go:306-331 | a sealed dump gives exactly the entries the RDB file loop gives for the same value |
| `RdbPrimitives.LittleRoundTrip` | backend/internal/rdb/structure/int.go:13-32 | little-endian reading inverts little-endian writing for every width |
| `RdbPrimitives.IntAppend` | backend/internal/rdb/structure/int.go:34-58 | signed reading inverts two's complement for every width and consumes exactly its bytes |
| `RdbPrimitives.Int24Shift` | backend/internal/rdb/structure/int.go:44-48 | the detour over 32 bits and an arithmetic shift is sign extension of 24 bits |
| `RdbPrimitives.ReadInt24` | backend/internal/rdb/structure/int.go:44-48 | reads three bytes as a signed number |
| `RdbPrimitives.ReadEncodedLength` | backend/internal/rdb/structure/length.go:31-63 | reads the length the decoder says and leaves the cursor behind it |
| `RdbPrimitives.LengthRoundTrip` | backend/internal/rdb/structure/length.go:20-63 | each of the four forms of each length reads back as that length and touches nothing behind it |
| `RdbPrimitives.IllegalLength` | backend/internal/rdb/structure/length.go:47-61 | a first byte of 0x82 to 0xBF is refused, and a special encoding where a length has to be |
| `Lzf.LzfRoundTrip` | backend/internal/rdb/structure/string.go:46-78 | for every token sequence, decompressing its encoding gives its text if and only if the announced length is the length of that text, and panics otherwise |
| `Lzf.LzfDecompress` | backend/internal/rdb/structure/string.go:46-78 | the two-index loop over the output array computes what the input and the bytes already written determine, whatever the array held before |
| `Lzf.CopyBack` | backend/internal/rdb/structure/string.go:68-72 | the overlapping copy repeats the last distance bytes periodically, and fails exactly when the output is full |
| `Lzf.RepeatStep` | backend/internal/rdb/structure/string.go:68-72 | one byte from distance back lengthens the periodic repetition by one |
| `Lzf.DecodeToken` | backend/internal/rdb/structure/string.go:50-73 | each literal of 1 to 32 bytes and each back-reference of distance 1 to 8192 and length 3 to 264 is one step of the decoder |
| `Lzf.ReachesTooFar` | backend/internal/rdb/structure/string.go:66-72 | a back-reference to before the first byte of the output panics |
| `RdbString.StringRoundTrip` | backend/internal/rdb/structure/string.go:17-44 | raw, integer and compressed strings read back as their text and are consumed exactly |
| `RdbString.UnknownEncoding` | backend/internal/rdb/structure/string.go:17-44 | a special encoding above 3 panics |
| `RdbString.ReadString` | backend/internal/rdb/structure/string.go:17-44 | reads the string the decoder says, in all its encodings, or panics |
| `Listpack.ListpackRoundTrip` | backend/internal/rdb/structure/listpack.go:42-58 | for every element sequence and every choice of entry encodings, decoding returns the elements if and only if there are at most 65535, and panics otherwise |
| `Listpack.OtherEnd` | backend/internal/rdb/structure/listpack.go:42-58 | a listpack with any other end byte than 0xFF panics |
| `Listpack.StoredListpack` | backend/internal/rdb/structure/listpack.go:42-58 | the same behind any string encoding, with the cursor exactly behind it |
| `Listpack.EntryRoundTrip` | backend/internal/rdb/structure/listpack.go:60-152 | every encoding of every entry decodes to its text and its trailing length is skipped exactly |
| `Listpack.FromUnsignedSigned` | backend/internal/rdb/structure/listpack.go:137-149 | the closing conversion is two's complement for 16, 24, 32 and 64 bits |
| `Listpack.FromUnsigned13` | backend/internal/rdb/structure/listpack.go:75-81 | and for 13 bits |
| `Listpack.BacklenRoom` | backend/internal/rdb/structure/listpack.go:155-167 | the size of the trailing length leaves room for the entry length in groups of seven bits and wastes none but at the values below powers of 128 |
| `Listpack.ReadListpack` | backend/internal/rdb/structure/listpack.go:42-58 | the loop returns the decoded elements or panics |
| `Listpack.ReadListpackEntry` | backend/internal/rdb/structure/listpack.go:60-152 | the branches return the decoded entry or panic |
| `Ziplist.ZiplistRoundTrip` | backend/internal/rdb/structure/ziplist.go:27-52 | with fewer than 65535 entries decoding returns the elements; with more it panics, or stops in front of the first entry whose preceding length takes five bytes |
| `Ziplist.ZiplistComplete` | backend/internal/rdb/structure/ziplist.go:27-52 | a ziplist decodes to its elements if and only if it has fewer than 65535 |
| `Ziplist.OtherEnd` | backend/internal/rdb/structure/ziplist.go:27-52 | a ziplist with any other end byte than 0xFF panics |
| `Ziplist.EntryRoundTrip` | backend/internal/rdb/structure/ziplist.go:65-114 | every entry decodes to its text with either form of the preceding length |
| `Ziplist.ContentRoundTrip` | backend/internal/rdb/structure/ziplist.go:70-113 | every string and integer encoding decodes to its text |
| `Ziplist.ReadZipList` | backend/internal/rdb/structure/ziplist.go:27-52 | both loops return the decoded elements or panic |
| `RdbList.ListRebuilt` | backend/internal/rdb/types/list.go:30-96 | whatever the key held, running what Rewrite sends leaves exactly the stored list, for plain lists, ziplists and both quicklists, and the value is consumed exactly |
| `RdbList.ListRoundTrip` | backend/internal/rdb/types/list.go:50-96 | every way of writing a list decodes to its elements in order |
| `RdbList.UnknownContainer` | backend/internal/rdb/types/list.go:78-96 | a quicklist node that is neither plain nor packed panics |
| `RdbList.ListObject.Rewrite` | backend/internal/rdb/types/list.go:30-48 | sends DEL and then one RPUSH for each decoded element |
| `RdbHash.HashRebuilt` | backend/internal/rdb/types/hash.go:30-166 | whatever the key held, running what Rewrite sends leaves exactly the stored hash, each field with its own expiry, in all seven formats |
| `RdbHash.HashRoundTrip` | backend/internal/rdb/types/hash.go:63-166 | every way of writing a hash decodes to its fields and expiries and is consumed exactly |
| `RdbHash.OddElements` | backend/internal/rdb/types/hash.go:77-97 | a packed hash with a name without value panics |
| `RdbHash.NoExpiry` | backend/internal/rdb/types/hash.go:142-166 | a packed hash with expiries in which one is missing panics |
| `RdbHash.AssignedLast` | backend/internal/rdb/types/hash.go:63-166 | of several fields with one name the last decides |
| `RdbHash.DeadlineBack` | backend/internal/rdb/types/hash.go:142-166 | adding the minimum back to a relative expiry gives the expiry |
| `RdbHash.HashObject.Rewrite` | backend/internal/rdb/types/hash.go:30-61 | sends DEL and then HSET, and HPEXPIREAT where there is an expiry, for each decoded field |
| `RdbStreamFormat.StreamRoundTrip` | backend/internal/rdb/types/stream.go:77-253 | for every stream, in the three RDB formats and every legal way of writing them, decoding sends XADD for exactly the live entries in order with the right fields in both field modes, then XSETID, groups and claims with each id's time and count from the group's pending entries, and consumes exactly the value |
| `RdbStreamFormat.NoZero` | backend/internal/rdb/types/stream.go:108-112 | a master entry that does not end in a zero panics |
| `RdbStreamServer.StreamRebuilt` | backend/internal/rdb/types/stream.go:77-253 | whatever the key held, a server that runs DEL and the decoded XADD, XSETID, XGROUP and XCLAIM commands, read word by word, holds exactly the stored stream: live entries, last id, groups, and each pending entry's consumer, time and count; it fails if and only if an id is beyond 2^63 in a half, or there are nodes without a live entry |
| `RdbStreamServer.ClaimRuns` | backend/internal/rdb/types/stream.go:238-247 | one XCLAIM gives the pending entry its group, consumer, id, delivery time and count, and changes nothing else |
| `RdbStreamFormat.AddedIdCorrect` | backend/internal/rdb/types/stream.go:91-93 | the id of an XADD is the id of the entry if and only if both halves are below 2^63 |
| `RdbStreamFormat.DeltaBack` | backend/internal/rdb/types/stream.go:117-120 | a delta added back to its master is the id again modulo 2^64 |
| `RdbStreamFormat.IdTextInjective` | backend/internal/rdb/types/stream.go:202-216 | two ids have the same text only if they are equal, so the maps keyed by text never mix them up |
| `RdbStreamFormat.PelBack` | backend/internal/rdb/types/stream.go:196-217 | the two maps hold, under each id, its last delivery time and count |
| `RdbStreamFormat.RecordBack` | backend/internal/rdb/types/stream.go:115-139 | one record is one turn of the loop: its id, its pairs, and whether it is deleted |
| `RdbStreamReader.StreamObject.ReadStream` | backend/internal/rdb/types/stream.go:77-253 | the nested loops send exactly the decoder's commands and stop behind the value, or panic exactly when it does |
| `RdbStreamReader.StreamObject.SendEntries` | backend/internal/rdb/types/stream.go:115-140 | the entry loop, counting live and deleted entries down, terminates and sends exactly the live ones |
| `RdbFile.ParseRoundTrip` | backend/internal/rdb/rdb.go:117-275 | for every opcode sequence and every course of the clock, each key is sent with the database of the last SELECTDB, its own expiry and nobody else's, and exactly its raw value bytes; the loop ends at the end opcode and reports the announced stream database |
| `RdbFile.ItemBack` | backend/internal/rdb/rdb.go:134-266 | one item is one turn of the loop, and the loader keeps holding what looking back finds |
| `RdbFile.PartsBack` | backend/internal/rdb/rdb.go:150-171 | the auxiliary data of a module is skipped exactly, up to its end opcode |
| `RdbFile.KeySentIs` | backend/internal/rdb/rdb.go:221-261 | a key is sent, all in its own database, as RESTORE with its time to live and sealed dump, or, when the dump is too large, as its commands in order and a PEXPIRE behind them if it has an expiry |
| `RdbFile.OldFunctionPanics` | backend/internal/rdb/rdb.go:141-142 | the opcode of functions from release candidates panics wherever it comes |
| `RdbLoop.DumpSealed` | backend/internal/rdb/rdb.go:277-286 | every dump has CRC64 zero over its full length, the size the limit is checked against, and the raw value between type byte and footer |
| `RdbLoop.RemainingIsZero` | backend/internal/rdb/rdb.go:198-207 | the remaining time is right, and 1 for what is past; it is 0, which means no expiry, if and only if the key expires at this very millisecond |
| `RdbLoop.RdbLoader.ParseRdbEntry` | backend/internal/rdb/rdb.go:117-275 | the opcode loop sends exactly the parsed entries and ends in the parsed state, or panics |
| `RdbLoop.RdbLoader.TakeKey` | backend/internal/rdb/rdb.go:212-265 | a key is sent as RESTORE of the captured bytes, or as commands and PEXPIRE when the dump is too large, and its expiry is used up |
| `RdbValues.ValueRoundTrip` | backend/internal/rdb/types/interface.go:86-120 | strings, lists, hashes and streams decode to the commands that rebuild them, and exactly their bytes are read |
| `RdbValues.ValueRebuilt` | backend/internal/rdb/types/interface.go:86-120 | whatever the key held, a server that runs the commands of a decoded string, list, hash or stream, DEL included, holds exactly that value |
| `RdbValues.ValueLocal` | backend/internal/rdb/rdb.go:216-218 | what follows a value does not change its bytes, so the captured bytes are the value's own |
| `RdbValues.KeyItemValid` | backend/internal/rdb/rdb.go:212-261 | a key with any such value is a legal item of an RDB file in the sense of ParseRoundTrip |
| `Crc64.CalcCrc64` | backend/internal/utils/crc64.go:91-97 | the table-driven loop computes the remainder of bitwise reflected division by the Jones polynomial, for every byte string |
| `Crc64.Digest.Update` | backend/internal/utils/crc64.go:78-82 | updating continues the same division from the stored remainder |
| `Crc64.TableDivides` | backend/internal/utils/crc64.go:5-71 | every table entry is the remainder of its index |
| `Crc64.TableStepDivides` | backend/internal/utils/crc64.go:78-82 | one table step is the division of the next eight bits |
| `Crc64.CrcSplit` | backend/internal/utils/crc64.go:78-89 | updating piece by piece is one pass over the whole, wherever the cut is |
| `Crc64.SealedIsZero` | backend/internal/utils/crc64.go:91-97 | a message followed by its own little-endian checksum has checksum zero |
| `Crc16.Crc16` | backend/internal/utils/crc16.go:82-89 | the table-driven loop computes the XMODEM CRC16 by bitwise division, for every byte string |
| `Crc16.TableDivides` | backend/internal/utils/crc16.go:10-80 | every table entry is the remainder of its index |
| `Crc16.TableStepDivides` | backend/internal/utils/crc16.go:82-89 | one table step is the division of the next eight bits |
| `Slots.KeyHash` | backend/internal/commands/keys.go:106-123 | the nested loops hash what section "Hash tags" of the Redis Cluster specification says: the text between the first { and the first } behind it if that is not empty, else the whole key |
| `Slots.EmptyTag` | backend/internal/commands/keys.go:111-117 | an empty pair at the first brace hides every later pair |
| `Slots.SameTagSameSlot` | backend/internal/commands/keys.go:106-123 | keys that share a hash tag share a slot, whatever surrounds the tag |
| `Slots.CalcSlots` | backend/internal/commands/keys.go:98-104 | one slot for each key, in order, all below 16384 |
| `Cluster.RouteKey` | backend/internal/writer/redis_cluster_writer.go:39-93 | once the reply names 16384 slots, loading never reports an unassigned slot, and every accepted key goes to the one node whose line names its slot |
| `Cluster.NoHole` | backend/internal/writer/redis_cluster_writer.go:55-59 | 16384 slots in range with none given twice leave no slot unassigned |
| `Cluster.TwoOwners` | backend/internal/writer/redis_cluster_writer.go:47-52 | a slot that two nodes name is a repetition |
| `Cluster.ClusterWriter.LoadClusterNodes` | backend/internal/writer/redis_cluster_writer.go:39-60 | the loops reach the search for a hole if and only if all slots are in range and none is given twice, and then route each slot to a node that has it |
| `Cluster.ClusterWriter.Write` | backend/internal/writer/redis_cluster_writer.go:76-93 | an entry without keys goes to every node, one with a single slot to that slot's node, and one with different slots panics |
| `Cluster.GetRedisClusterNodes` | backend/internal/utils/cluster_nodes.go:24-98 | accepts a reply exactly when every slot word parses and the slots number 16384 |
| `Cluster.ParseSlots` | backend/internal/utils/cluster_nodes.go:62-94 | expands single slots and ranges in order, stops at the first bracketed word, and counts what it adds |
| `Cluster.RangeWord` | backend/internal/utils/cluster_nodes.go:73-89 | a word a-b names exactly the slots a to b, and a number names itself |
| `Cluster.LineNames` | backend/internal/utils/cluster_nodes.go:62-94 | the words of a line name exactly the slots of its ranges, and none of a slot in brackets behind them |
| `RespWriter.Writer.WriteArgs` | backend/internal/client/proto/writer.go:35-58 | appends exactly the RESP array of bulk strings to what was written before, through the one reused buffer |
| `RespFormat.ReadsWhatWasWritten` | backend/internal/client/proto/reader.go:93-289 | ReadReply recovers exactly the arguments WriteArgs wrote, whatever bytes they hold |
| `RespFormat.ReadBack` | backend/internal/client/proto/reader.go:93-289 | reading any reply of the protocol with scalar map keys and discardable attributes yields its meaning and stops right behind it |
| `RespFormat.NilKey` | backend/internal/client/proto/reader.go:262-289 | a map whose first key is nil or an error is read as that, and what follows the key stays on the stream |
| `RespFormat.BadLine` | backend/internal/client/proto/reader.go:120-148 | a line without a newline, without a carriage return before it, or with nothing in front of both is an error |
| `RespFormat.UnknownType` | backend/internal/client/proto/reader.go:152-181 | no other first byte starts a reply, for reading and for discarding |
| `RespFormat.BadScalar` | backend/internal/client/proto/reader.go:158-203 | an integer beyond 64 bits or without digits, and a boolean that is neither t nor f, are errors |
| `RespFormat.BadVerbatim` | backend/internal/client/proto/reader.go:228-237 | a verbatim string without a colon behind its format is an error |
| `RespFormat.DiscardBack` | backend/internal/client/proto/reader.go:448-494 | discarding skips exactly one reply if it holds no bulk nil and no attribute |
| `RespFormat.DiscardLikeRead` | backend/internal/client/proto/reader.go:448-494 | on such replies Discard advances the cursor as ReadReply does |
| `RespFormat.DiscardBulkNil` | backend/internal/client/proto/reader.go:466-475 | discarding a bulk nil takes two bytes of the next reply with it |
| `RespFormat.DiscardNestedNil` | backend/internal/client/proto/reader.go:457-475 | inside an array, what is discarded behind the first bulk nil starts two bytes into the next part |
| `RespFormat.DiscardEndsInNil` | backend/internal/client/proto/reader.go:457-475 | an array that ends in a bulk nil is never discarded exactly |
| `RespFormat.DiscardByAccident` | backend/internal/client/proto/reader.go:457-475 | a concrete array with a bulk nil that is discarded exactly all the same |
| `RespFormat.DiscardAttr` | backend/internal/client/proto/reader.go:483-490 | discarding an attribute leaves the reply it belongs to |
| `RespReader.TakeReply` | backend/internal/client/proto/reader.go:152-181 | the recursive methods return exactly the decoded reply, or an error |
| `RespReader.SkipRest` | backend/internal/client/proto/reader.go:457-494 | the two loops of Discard skip exactly what the decoder says |
| `AofLoader.LoadsWhatWasWritten` | backend/internal/aof/aof.go:121-151 | the AOF loader recovers exactly the arguments WriteArgs wrote, whatever bytes they hold |
| `AofLoader.LoadFile` | backend/internal/aof/aof.go:82-152 | for every file, exactly the commands before the first timestamp later than the cutoff are sent, and the result says whether there was one |
| `AofLoader.CutFile` | backend/internal/aof/aof.go:131-149 | of a file that ends inside an argument, everything before that command is sent, nothing of it, and the load fails |
| `AofLoader.BadFile` | backend/internal/aof/aof.go:103-130 | an empty line, a line that starts with neither # nor *, and a command without arguments panic |
| `AofLoader.Loader.LoadSingleAppendOnlyFile` | backend/internal/aof/aof.go:82-152 | the loop sends exactly the parsed commands and returns the parsed result |
| `AofLoader.Loader.ReadArgs` | backend/internal/aof/aof.go:131-149 | the inner loop returns the arguments, fails or panics exactly as the parser does |
| `Decimal.ParseItoa` | backend/internal/reader/scan_standalone_reader.go:215-215 | ParseInt reads back exactly what Itoa wrote, for every 64-bit integer |
| `ControlTasks.ReadyIsChecked` | backend/internal/controlplane/tasks/service.go:184-279 | in every interleaving of Update, Precheck, Start, Archive and run transitions, a READY task's stored precheck was made for exactly its current revision, found no failure, and found a warning only if it was acknowledged |
| `ControlTasks.TaskLaw` | backend/internal/controlplane/store/repositories.go:220-313 | what each step makes of a task: an update that hits, a precheck that hits (READY if and only if no check failed and every warning is acknowledged, else DRAFT), an archiving of an unoccupied task, and nothing else |
| `ControlTasks.CreateLaw` | backend/internal/controlplane/store/repositories.go:158-184 | a task appears by Create alone, as a draft of revision 1 |
| `ControlTasks.StartLaw` | backend/internal/controlplane/store/repositories.go:320-360 | a Start inserts its run if and only if the task is READY at the revision read, unoccupied, and the limit is not reached; the run is STARTING with the spec that was read |
| `ControlTasks.RunLaw` | backend/internal/controlplane/store/repositories.go:477-567 | what each step makes of a run: RUNNING, STOPPING with the request stored, the final state with its exit code, UNKNOWN on restart, its health, each exactly when its guard holds, and nothing else |
| `ControlTasks.BeginLaw` | backend/internal/controlplane/tasks/service.go:100-116 | a request goes on from its read exactly when the task exists at the expected revision, not archived, and READY for a Start |
| `ControlTasks.TaskAnswers` | backend/internal/controlplane/store/repositories.go:220-313 | which of the answers done, not found, revision conflict, conflict and in use a guarded write on a task gives, each with its exact condition |
| `ControlTasks.StartAnswers` | backend/internal/controlplane/store/repositories.go:320-360 | which reason inserting a run answers, the first one first |
| `ControlTasks.RunAnswers` | backend/internal/controlplane/store/repositories.go:477-553 | when the guarded writes on a run succeed and what they answer otherwise |
| `ControlTasks.InsertedWhenReady` | backend/internal/controlplane/store/repositories.go:320-360 | a run is inserted only while its task is READY at the revision that was read, checked for it, and its snapshot is the task's spec |
| `ControlTasks.RunSafety` | backend/internal/controlplane/store/repositories.go:320-360 | every run's snapshot is the spec its revision was made with; at most one run of a task and at most maxConcurrent in all are active, and none of an archived task |
| `ControlTasks.StepSafety` | backend/internal/controlplane/store/repositories.go:220-313 | every step raises a revision by one or leaves it with its spec; archived tasks, finished runs and past specs never change |
| `ControlTasks.NoLostUpdate` | backend/internal/controlplane/tasks/service.go:100-141 | once an update of a revision has succeeded, then after any steps of any requests its spec is still that of the next revision, and an Update, Precheck or Start that holds the replaced revision or an older one writes nothing; the query for the reason, however late, finds a revision conflict |
| `ControlTasks.AtMostOneUpdate` | backend/internal/controlplane/store/repositories.go:220-252 | of two updates that read the same revision, however all requests interleave, at most one succeeds |
| `ControlTasks.InvStep` | backend/internal/controlplane/store/repositories.go:220-567 | every store call of every request keeps these facts |
| `ControlStore.Store.Update` | backend/internal/controlplane/store/repositories.go:220-252 | the guarded update writes the row and raises the revision, or says why nothing was written |
| `ControlStore.Store.CreateRun` | backend/internal/controlplane/store/repositories.go:320-360 | the transaction inserts a run only for a READY task at its revision, without an active run and below the limit |
| `ControlStore.Store.Finalize` | backend/internal/controlplane/store/repositories.go:541-553 | only an active run is finalized, and only to a final state |
| `Worker.OneExit` | backend/internal/controlplane/engine/manager.go:195-232 | in every interleaving after the spawn exactly one of Start and the monitors holds the claim on the worker's exit, it is received once, the run is finalized once, and the process is in the table until handleExit is over |
| `Worker.FinalStateExactly` | backend/internal/controlplane/engine/manager.go:547-577 | once the exit is recorded the run carries the worker's exit code, and is SUCCEEDED if and only if the mode is scan, the code 0, Start had not given up on an unready worker, and handleExit found no stop announced or stored; STOPPED if and only if it found one and Start had not given up; FAILED otherwise |
| `Worker.FailedStart` | backend/internal/controlplane/engine/manager.go:541-545 | a start that fails before there is a worker leaves the run FAILED with code -1 |
| `Worker.RowLaw` | backend/internal/controlplane/engine/manager.go:195-395 | which step of the manager writes what to the run's row, each exactly when its guard holds |
| `Worker.FinalStateJustified` | backend/internal/controlplane/engine/manager.go:547-577 | STOPPED occurs only after a stop request or a shutdown, SUCCEEDED only in scan mode with exit code 0, and neither after a startup failure |
| `Worker.ExitIsHandled` | backend/internal/controlplane/engine/manager.go:288-353 | once the worker is dead, unless handleExit is over, the manager can take a step, and each of its steps brings the end nearer |
| `Worker.Manager.HandleExit` | backend/internal/controlplane/engine/manager.go:547-577 | finalizes the run with the state the flags and the exit code call for, and forgets the process |
| `Worker.Manager.Stop` | backend/internal/controlplane/engine/manager.go:375-395 | a stop is accepted exactly for a managed process whose run can still be stopped, and then marks both |

## Left out

- off_reply mode, the rate limiter, and the wrap-around of the 64-bit counters of the writer.
- A command counts as sent when its last byte has left the write buffer; what the network does with the bytes before is not modelled.
- The filter and Lua functions between reader and writer, and every database number a target would refuse.
- PipelineTheorems.GateOpensIff: says whether some continuation opens the gate, not that a scheduler finds it.
- Non-ASCII case folding in `EqualFold`, and UTF-8 in the `for range` of `keyHash`, which visits every `{` all the same.
- Lines longer than the bufio buffer in `ReadCompleteLine`, whose pieces share one buffer.
- RespFormat.ReadBack: a floating-point reply is its text; whether `ParseFloat` accepts it is not modelled.
- RespFormat.DiscardBack: one direction; after a bulk nil the stream can come back into step by accident, as in `RespFormat.DiscardByAccident`.
- RdbValues.ValueRoundTrip: sets, sorted sets and modules are not part of this model; the loop of `RdbLoop` takes any value decoder.
- RdbFile.PartsBack: the decimal text of a float in a module's auxiliary data is skipped, not parsed.
- The magic and version of an RDB file, its closing checksum, byte statistics, and cancellation by context.
- RdbStreamServer.StreamRebuilt: the server does not insist on growing ids, nor on the entry of a claim being there; group names differ, as the keys of a radix tree do.
- RdbStreamFormat.StreamRoundTrip: consumers without pending entries produce no command, as in the code.
- Valkey's per-field expiry is taken as the code reads it: 0 for none.
- Cluster.GetRedisClusterNodes: the address, hostname and replica parts of CLUSTER NODES lines, and masters without slots, which the code skips.
- `CalcKeys` beyond the keys themselves.
- ScanKeyspace.OwnDumps: which keys SCAN and keyspace events put into the queue, and the DEL events, are not modelled; DUMP and PTTL may see different data, as they do in the source.
- UniqueQueue.NoLostUpdate: closing the queue, after which Put panics.
- The SQL text, JSON encoding of specs and prechecks, connection tests, and times of the control plane; a spec is one value.
- ControlTasks.RunSafety: creation without the active-run check (`CreateRun`) is not used by the manager and not modelled.
- Worker.Manager.HandleExit: the method is one call without requests in between; the interleavings are those of `Worker.OneExit`.
- ControlStore.Store.Update: the query that says why nothing was written is a second statement in the code and part of the same step here; `ControlTasks.NoLostUpdate` covers the gap.
- Worker.OneExit: store calls that fail for other reasons than their guard, except where Start persists the process.
- Signals, timeouts and the waiting loops of Shutdown; a worker may exit at any time with any code.
- Manifest parsing of multi-part append-only files.
