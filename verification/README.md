# corestreamd, modelled in Dafny

corestreamd streams ledgers from one source to many subscribers. Each ledger goes out as a
BEGIN / CHUNK* / END flow while it is still being emitted; each subscriber is a cursor over an
on-disk retention ring plus the flow in memory; the client reassembles and verifies every ledger.
This project models that server and that client and proves what the protocol guarantees. Dafny
checks it with `dafny verify dfyconfig.toml`.

The centre is one transition system (`Streaming`): every interleaving of the source's steps (begin,
chunk, end, each change of the disk inside a Put, finish), the cursor's steps (watch, write one
message, the four separate looks at the store, sleep, wake), a FIFO connection that may break, and
the client's reads. For every run of it (`StreamingTheorems`):

- the client yields consecutive ledgers from its anchor (the start it asked for, or the tip as the
  source had it when the cursor took it), each byte-equal to the source's, whichever of the four ways
  (live, finished from the pinned flow, from memory without stamps, from the ring) delivered it, with a
  partial discarded exactly when the server abandoned one;
- a ledger carries the source's own stamps exactly when the subscription looked at its flow before the
  END and did not abandon it, and zeros otherwise (`Looks.StampsTell`);
- it yields nothing that was neither begun by the source nor on disk at the start (`Provenance`);
- an honest server is never refused;
- no wakeup is lost, a cursor the source has emitted past never sleeps, and none waits for a ledger the
  ring holds (`RingWaits`, under the condition on the ring named below);
- an unbounded stream that ends without an error is complete from its anchor on, and a bounded one is
  exactly its range;
- the subscriber loop, over what the run's looks at the server saw, writes and closes just so;
- once the source is finished, every subscription ends by the cursor's own steps; and when it did not fail,
  an unbounded client that keeps reading ends without an error, unless its subscription had fallen out of
  retention or the source had stopped inside a ledger (`CleanEnds.EndsCleanly`).

`EndToEnd` joins that system to the source loop and to the pipe tap: when `Run` has streamed an
iterator to its end, every unbounded client that ends without an error has yielded exactly what the
iterator gave from that client's first ledger on, byte for byte, and, over a pipe, exactly the records
that were framed. `Run` does stream it to its end exactly when the readers do not fail, nothing is
cancelled, and what the iterator gives is dense, not numbered 0 and of its declared size
(`SourceLoop.Loop.Run`).

The parts around it, each proved against that system or against a specification of its own:

| files | part |
|---|---|
| Prelude, Decimal, Wire, Chunks | integers and byte strings, decimal text, the message codec, per-chunk compression |
| Client, ClientSoundness | the client's read loop, and what it guarantees against any server whatever |
| Source, SourceProofs | the source side as a transition system, and its invariant |
| Broadcast, Arena, Reading, Emissions, SourceLoop | the source loop over its real objects: the broadcaster with its panics as preconditions, the per-ledger arena shared without copying, the topped-up reads, the hasher; `Run` is proved to take only steps of the source-side system |
| Serve, Feeding | the subscriber cursor, and what each form of delivery does to a client |
| Streaming, StreamingProofs, StreamingTheorems, Looks, StreamingLoop, StreamingLiveness, CleanEnds, StreamingRing, RingWaits, StaleRing, TipAnchor, Ceiling, Provenance | the whole protocol, its invariant and its theorems |
| EndToEnd | the source loop, the pipe tap and the protocol joined |
| Pipeline | the concurrent chunk pipeline, as goroutine steps over its channels |
| Retention, LedgerFiles, Store | the retention ring: as values, its file names and directory scan, and the store itself |
| PipeSource, Pacing | record-marked pipe input (section 11 of RFC 5531) and paced emission |

## Premises

- The ring found on disk at start agrees with the history the source emits
  (`Source.SrcInit`). README.md:195 of the repository says a ring left by another run can be spliced
  into a stream, so without this byte-exactness is false.
- That ring holds no ledger 0. Open accepts a directory with a `ledger-0.xdr`; no source or Put of this
  server makes one.
- xxhash64 is a function of the bytes, nothing more. A zstd frame expands to what was compressed.
- The clock of the machine reads after 1970 when a ledger begins and ends; its readings are part of the
  world (`Source.World`), as are whether live chunks are compressed and whether the encoders' queue is ever
  found full.
- A body is its bytes and a script of what its Reads do, any script at all: short, empty, with the EOF early
  or late, failing or cancelled at any of them (`Reading.Answer`).
- Disk operations succeed. A Put cut short between any two changes of the directory, temporary files
  included, is covered.
- The connection is FIFO and may break at any time; breaking it is an error to the client.
- The client's limits admit what the server sends (`Feeding.Compatible`; the defaults on both ends
  always do, `Feeding.DefaultsInteroperate`).
- A source may emit anything at all. The history of a run is read off what it emits, and
  `Emissions.EventsTellAHistory` shows that there always is one.

## Where the code promises less than it seems to

- A too-far-behind close names an oldest ledger above the subscriber's only if the ring found on disk
  is empty or wholly below the source's first ledger. Otherwise the first Put resets the ring under a
  reader, and the close can name a ledger at or below the one asked for.
  `StaleRing.TrustedExactlyWhenForward` proves that this is exactly when.
- A tip subscription that connects before the first ledger is to begin at "the source's first ledger"
  (internal/server/server.go:577). It begins at the newest one there is when it next looks, which is the
  first exactly while no second has begun (`TipAnchor.FirstExactlyWhenAlone`); there are runs in which it
  is the second (`TipAnchor.FirstMayBeMissed`).
- ScanLedgerDir accepts file names ParseLedgerFileName accepts, leading zeros included, but Get opens
  only the canonical name. A directory holding `ledger-007.xdr` opens with ledger 7 in bounds and
  unreadable (`Store.PaddedStore`). The scan accepts exactly the directories that repeat no sequence and
  leave no gap (`LedgerFiles.ScanLedgerDir`), and what it lists can be read exactly when every name is
  canonical (`LedgerFiles.ListedIsReadable`).
- The client agrees to request the range 0 to 0, which the server refuses (`Ceiling.EndpointIsServed`).
- Cadence keeps scheduled starts a cadence apart, but not the starts themselves. A start is sure to be
  followed by none less than a cadence later exactly when it came on time or the loop took a whole cadence
  over it (`Pacing.NextStartIsSpaced`), and at every cadence there are delays after which two ledgers start
  together (`Pacing.LateStartGap`); `Pacing.NoBurst` is the bound that always holds.
- The client counts chunks in a uint32 and checks the count an END announces modulo 2^32. It is the true
  count exactly for flows of fewer than 2^32 chunks (`ClientSoundness.CountIsTrueExactlyBelow`). A payload
  cap below 2^32 makes it true of every flow without an empty chunk
  (`ClientSoundness.CountIsTrueUnderCap`), but the client accepts empty chunks, which never move the cap:
  with the default limits 2^32 of them are yielded as a ledger of 0 chunks
  (`ClientSoundness.CountMayWrap`). This server sends none (`Chunks.CountBelowBytes`).

## Model

| member | source | states |
|---|---|---|
| Wire.DecodeEncode | internal/wire/wire.go:205-243 | Every message Encode can produce decodes back to itself |
| Wire.EncodeDecode | internal/wire/wire.go:205-243 | Whatever Decode accepts is the encoding of what it returned: the format has one spelling per message |
| Wire.DecodeBegin | internal/wire/wire.go:125-129 | A BEGIN appended to nothing decodes to its own sequence and stamp |
| Wire.DecodeChunk | internal/wire/wire.go:134-147 | A CHUNK decodes to its own sequence, index, codec and payload, and an unknown codec is refused |
| Wire.DecodeEnd | internal/wire/wire.go:163-170 | An END decodes to its own count, total, stamp and checksum |
| Wire.PutChunkHeader | internal/wire/wire.go:153-158 | Framing in place writes exactly the header AppendChunkHeader would append and moves no other byte |
| Decimal.ReasonRoundTrip | internal/wire/wire.go:108-121 | The bounds put in a too-far-behind close reason are the bounds the client reads out of it |
| Decimal.ReasonIsForm | internal/wire/wire.go:108-121 | Bounds are read out of exactly the reasons that begin in that form, with decimal spellings of numbers that fit a uint32 |
| Decimal.ParsesSpellings | internal/server/server.go:399-409 | A sequence is read out of exactly the decimal spellings of a uint32, leading zeros allowed, no sign or space |
| Chunks.EncodeChunkCarries | internal/server/compress.go:103-119 | The message carries its own sequence, index and bytes and is no longer than the raw framing; it is a zstd frame of them exactly when an encoder was given and that is smaller, else the bytes themselves |
| Chunks.CountBelowBytes | internal/server/server.go:300-343 | No chunk is empty, so the chunks never outnumber the bytes and the uint32 index cannot wrap under the cap |
| Client.ReadLimit | remoteledger/stream.go:99-116 | Only a negative cap makes the read limit unlimited; every chunk within the cap is admitted, and nothing longer than its message or an END |
| Client.Stream | remoteledger/stream.go:377-528 | The read loop, with its running digest, yields and ends exactly as the fold of its reads says |
| Client.Take | remoteledger/stream.go:392-526 | One pass of the loop keeps the digest equal to the assembly and acts on one read as the fold does |
| Client.TakeChunk | remoteledger/stream.go:450-479 | A chunk is checked for place, expanded within bounds and appended, and only the appended bytes are hashed |
| Client.Settled | remoteledger/stream.go:377-528 | Nothing read after the stream has ended changes what was yielded |
| ClientSoundness.ClientSound | remoteledger/stream.go:304-528 | Against any server: consecutive sequences only, and each yielded ledger is the expansion of the chunks since its last BEGIN, within the cap, with matching length and checksum, and the count matching modulo 2^32; the flows lie one after another in what was read, none twice |
| ClientSoundness.CountIsTrueExactlyBelow | remoteledger/stream.go:450-489 | Each yield has its own place in what was read, in order, and its announced count is the number of chunks there exactly when there are fewer than 2^32 |
| ClientSoundness.CountIsTrueUnderCap | remoteledger/stream.go:450-489 | Under a payload cap below 2^32 the count is true of every flow without an empty chunk |
| ClientSoundness.HollowFlowIsYielded | remoteledger/stream.go:450-512 | Any number of empty chunks is accepted and yielded under that number modulo 2^32 |
| ClientSoundness.CountMayWrap | remoteledger/stream.go:450-512 | With the default limits, 2^32 empty chunks are yielded as a ledger of 0 chunks |
| ClientSoundness.SilentEndIsWholeRange | remoteledger/stream.go:536-545 | A bounded range with a named start that ends in any way without an error delivered exactly From..To, or the consumer broke off |
| ClientSoundness.StoppedIsBrokenOff | remoteledger/stream.go:521-526 | The stream counts as broken off exactly when the consumer declined at the last yield, and it had pulled at every one before |
| ClientSoundness.BeginIsChecked | remoteledger/stream.go:431-448 | A BEGIN opens an assembly of the ledger expected, restarts that of its own ledger with a discard counted, and is a gap or a protocol error otherwise |
| ClientSoundness.ChunkIsChecked | remoteledger/stream.go:450-478 | A CHUNK is appended exactly when it is of the open assembly, in place, expands and stays within both caps; else a protocol error, and nothing is yielded either way |
| ClientSoundness.EndIsChecked | remoteledger/stream.go:480-526 | An END yields the assembled ledger with its stamps exactly when sequence, count, length and hash agree; else a protocol error and no yield |
| ClientSoundness.OthersAreErrors | remoteledger/stream.go:402-429 | A broken read, a message that is not binary or over the limit, and bytes that do not decode end the stream, each in its own error |
| ClientSoundness.CloseIsClassified | remoteledger/stream.go:402-424 | A close is clean exactly when it says so between ledgers with nothing named left to deliver; inside one or short of the range it is a truncation; other codes are errors of their own |
| ClientSoundness.TipRangeMayEndEmpty | remoteledger/stream.go:530-545 | From the tip the same silent end may deliver nothing, as documented: no first ledger was named |
| Ceiling.EndpointIsServed | remoteledger/stream.go:569-612 | A range the client agrees to ask for is the range the server serves, except an explicit end of 0 |
| Ceiling.ParsesQueries | internal/server/server.go:398-433 | A query is let through, as what it says, exactly when both values are spelled numbers, no end is given as 0, neither is the last representable ledger, and they are in order |
| Ceiling.ParsedIsStreamable | internal/server/server.go:398-433 | Whatever the query, a parsed request is ordered and never reaches the last representable ledger |
| Ceiling.CloseCodesAreHonest | internal/server/server.go:519-524 | In every run: 1000 only past the end of the range or at a clean end of the source, 1001 only for a range cut short, 1011 only for a failed source |
| Ceiling.NothingWraps | internal/server/server.go:554-633 | In every run: uint32(next) is lossless where the ring is read, no ledger 0 is delivered or retained, and a flow that wrapped to 0 is the last and ends in failure |
| Ceiling.NothingAfterLast | remoteledger/stream.go:304-325 | After the last representable ledger no server can make the client yield anything |
| Retention.PutStates | internal/store/store.go:137-188 | At every disk state of a Put the ledger files are one contiguous range or none, holding old bytes or the whole new ledger, and above the new oldest nothing is missing unless the ring was reset |
| Retention.PutEnds | internal/store/store.go:137-164 | After a Put the bounds describe the files, which are the newest retention ledgers of the window with the new one added |
| Retention.PutRunIsWindow | internal/store/store.go:129-164 | Storing consecutive ledgers keeps exactly the newest retention of them, each with its own bytes |
| LedgerFiles.ParseName | internal/store/store.go:262-278 | A ledger's file name parses back to its sequence |
| LedgerFiles.NameIsSpelling | internal/store/store.go:266-278 | A name is taken for a ledger exactly when it is that ledger's own but for leading zeros |
| LedgerFiles.TmpIsNoLedger | internal/store/store.go:168-188 | No temporary file's name is ever taken for a ledger |
| LedgerFiles.ScanLedgerDir | internal/store/store.go:89-113 | The scan succeeds exactly when no sequence is named twice and the named ones leave no gap, and lists them in order |
| LedgerFiles.CanonicalOpens | internal/store/store.go:89-113 | With canonical names the scan succeeds exactly when the ledger files are contiguous |
| LedgerFiles.ListedIsReadable | internal/store/store.go:89-113 | What the scan lists can be read exactly when every ledger name is canonical |
| LedgerFiles.PaddedNameIsUnreadable | internal/store/store.go:89-113 | A directory holding one name with leading zeros passes the scan, spans that ledger, and has no file for it |
| Store.Directory.Write | internal/store/store.go:168-188 | The parts are joined in a temporary file, and the rename changes the ledger files once, to the whole ledger; every state of the directory on the way is on record |
| Store.Directory.WriteTmp | internal/store/store.go:168-184 | Writing the temporary file, part by part, never changes a ledger |
| Store.Directory.Rename | internal/store/store.go:185-187 | The rename publishes the whole file under the ledger's name in one change |
| Store.Directory.Remove | internal/store/store.go:226-253 | Removing a ledger's file changes nothing else and a missing file is no error |
| Store.LedgerStore.constructor | internal/store/store.go:58-58 | A store not yet scanned has an empty index |
| Store.LedgerStore.Open | internal/store/store.go:51-67 | A directory is taken over exactly when the retention is positive, no sequence is named twice and none is missing between; then the bounds are the newest retention ledgers of the range and exactly their files are kept, and every state of the directory on the way can be opened again |
| Store.LedgerStore.Rescan | internal/store/store.go:70-84 | The bounds become those of the names found, or nothing changes |
| Store.LedgerStore.PruneLocked | internal/store/store.go:226-237 | The oldest ledgers are removed one at a time until retention are left |
| Store.LedgerStore.ClearLocked | internal/store/store.go:239-253 | Every retained file is removed in order, also at the last representable sequence, and the loop ends |
| Store.LedgerStore.RemoveAll | internal/store/store.go:239-253 | The removal loop passes through exactly the specified disk states without a successor of the last sequence |
| Store.LedgerStore.ResetFor | internal/store/store.go:137-150 | A sequence that does not continue the ring empties it first |
| Store.LedgerStore.Append | internal/store/store.go:151-164 | Write, move the bounds, prune, with every disk state on the way |
| Store.LedgerStore.Put | internal/store/store.go:137-164 | The ring moves as the sliding-window specification says, the disk passes through exactly the specified states, every state of the directory on the way is one of those with a temporary file at most, and sequence 0 is refused untouched |
| Store.LedgerStore.Get | internal/store/store.go:191-208 | With nothing else writing: the ledger's own file if it is within the bounds and there, else ErrNotRetained; in a valid store, exactly what is retained |
| Store.PutComposes | internal/store/store.go:137-164 | Clearing, writing and pruning one after another are the whole of the specified states and its end |
| Store.CrashReopens | internal/store/store.go:137-188 | Whatever state of the directory a crash inside a Put leaves, names are canonical and contiguous, every file is an old ledger or the whole new one, and unless the ring was being reset none that the Put keeps is missing |
| Store.CrashInOpenReopens | internal/store/store.go:51-67 | The same of what an Open leaves that was cut short after such a crash |
| Store.ShrunkAgain | internal/store/store.go:51-67 | However often an Open is cut short and tried again, none of the newest retention ledgers is lost |
| Store.GetDuringPut | internal/store/store.go:191-208 | A Get that passed the bounds check and reads its file while a Put is under way finds the old bytes or the whole new ledger, and finds nothing only when that Put is resetting the ring or pruning that far |
| Store.Reopen | internal/store/store.go:51-67 | Opening any such directory succeeds and gives a valid store with exactly the newest retention of those ledgers |
| Store.PaddedStore | internal/store/store.go:191-208 | Over a directory holding just `ledger-007.xdr` the store opens with ledger 7 in bounds and Get(7) is ErrNotRetained |
| SourceProofs.NextKeeps | internal/server/server.go:215-363 | Every step of the source keeps: flows carry the history, the chain is dense, everything below the open flow is on disk |
| SourceProofs.EndFlowOk | internal/server/server.go:344-363 | The END describes exactly the chunks before it: their number modulo 2^32, the length and the hash of the ledger, and the clock when it ended |
| Broadcast.Broadcaster.Begin | internal/server/broadcast.go:67-80 | A new flow replaces the current one, every watcher's channel is closed and a fresh one installed |
| Broadcast.Broadcaster.Chunk | internal/server/broadcast.go:84-92 | The open flow grows by one message and no other flow changes |
| Broadcast.Broadcaster.End | internal/server/broadcast.go:96-104 | The open flow is ended once |
| Broadcast.Broadcaster.Finish | internal/server/broadcast.go:110-118 | The stream becomes final once, with the first failure recorded, and the last channel is closed once |
| Broadcast.Broadcaster.WakeLocked | internal/server/broadcast.go:127-130 | Closing and replacing the channel keeps every earlier channel closed and distinct: none is closed twice |
| Broadcast.Broadcaster.Watch | internal/server/broadcast.go:139-147 | One consistent snapshot, with a channel open exactly while nothing newer was published and the stream is not final |
| Broadcast.Broadcaster.ChannelTells | internal/server/broadcast.go:132-147 | A channel handed out earlier is closed exactly when the flows are no longer those seen then, or finish came: asleep on an open one, a watcher has missed no message |
| Reading.FillChunk | internal/server/ledgerwork.go:24-37 | Topping up puts the next bytes in place, returns against any reader, and fails exactly when one of the reads it made did |
| Arena.ChunkArena.Start | internal/server/server.go:272-289 | A new ledger gets a fresh arena of the formula's length and disturbs no message already handed on |
| Arena.ChunkArena.Region | internal/server/server.go:302-313 | The next read's region lies past everything settled, in the arena while a header and a byte fit, else in the spare |
| Arena.ChunkArena.Fill | internal/server/server.go:314-314 | A read, slack included, moves no byte of any settled region |
| Arena.ChunkArena.Commit | internal/server/server.go:320-340 | What was read becomes the next message, disjoint from every other |
| Arena.ChunkArena.GapIsNobodys | internal/server/compress.go:224-242 | Writing a region's header gap changes no payload and no message handed on |
| Arena.ChunkArena.FrameInPlace | internal/server/compress.go:224-242 | Framed where it lies, a chunk is the raw CHUNK message of its payload and joins the messages that never change |
| Arena.ChunkArena.Payloads | internal/server/server.go:338-365 | What the store is given is every payload in order, read off the shared regions |
| Arena.ChunkArena.Next | internal/server/server.go:301-343 | One turn of the read loop takes the next bytes or reports the cap passed, and with a sufficient declared size keeps full chunks in the arena |
| Arena.ReadEvenly | internal/server/server.go:284-314 | With a declared size the body does not exceed, no read needs the spare, and every chunk but the last is exactly the chunk size |
| Emissions.EventsTellAHistory | internal/server/server.go:245-260 | Whatever a source emits there is a history it tells, so assuming one excludes no source |
| Emissions.PublishIsStep | internal/server/server.go:322-330 | Publishing the next chunk read, in either codec, is a chunk step of the source side |
| Emissions.EndIsStep | internal/server/server.go:344-363 | Ending a fully read and published body is an END step, with count, total and checksum of its chunks |
| Emissions.StoredRun | internal/server/server.go:365-368 | A Put extends a run by exactly its lock, its disk changes and its release |
| Emissions.NextIsNew | internal/server/server.go:252-260 | A sequence the density check lets through has not been emitted before |
| Emissions.AllDelivered | internal/server/server.go:215-387 | After a clean end there is one finished flow for each emission, holding its bytes |
| Emissions.ExhaustedExactly | internal/server/server.go:245-387 | With readers that never fail, a run is exhausted exactly when every event is an emission that is dense, not numbered 0, within the cap and of its declared size, and nothing cancels it; it fails as the source exactly at an error of the iterator |
| Emissions.StopsForCause | internal/server/server.go:245-387 | Whatever the readers do, every outcome but exhausted has its cause in the event the run ended at |
| Emissions.DeliverableIsPassing | internal/server/server.go:245-387 | Events that each follow on, fit and are of their size are exactly those of which each goes through after the one before |
| SourceLoop.Loop.constructor | internal/server/server.go:119-176 | The loop starts in an initial state of the source side |
| SourceLoop.Loop.FrameJob | internal/server/compress.go:190-201 | A chunk is framed in its own region or compressed into a buffer of its own, compressed whenever encoders are on and their queue is not found full; the chunks after it are untouched |
| SourceLoop.Loop.PublishNext | internal/server/compress.go:205-212 | The oldest chunk in flight is published, and that is a step of the source side |
| SourceLoop.Loop.Drain | internal/server/compress.go:248-262 | Flush publishes what was submitted, in order, and nothing else changes |
| SourceLoop.Loop.Submit | internal/server/compress.go:224-242 | Any progress of publisher and hasher after a submit keeps the books; without compression the chunk is out at once |
| SourceLoop.Loop.Sum | internal/server/ledgerwork.go:53-79 | The checksum is the hash of every chunk of the ledger in order, read off the shared regions |
| SourceLoop.Loop.Open | internal/server/server.go:262-298 | BEGIN is published on a fresh arena, never while a flow is open or after finish |
| SourceLoop.Loop.ReadOne | internal/server/server.go:301-351 | One turn of the read loop: the chunk index is the number of chunks before it |
| SourceLoop.Loop.ReadBody | internal/server/server.go:300-351 | The loop ends against any reader, at the body's end, at an error or past the cap, with all that was read accounted for |
| SourceLoop.Loop.FlushAndEnd | internal/server/server.go:352-363 | END comes only after every chunk is published and only for a body of the declared size |
| SourceLoop.Loop.EndFlow | internal/server/server.go:362-363 | The END published ends the flow and is a step of the source side |
| SourceLoop.Loop.Emit | internal/server/server.go:262-363 | A ledger goes out whole exactly when its body fits and is of its declared size, unless a read failed or was cancelled; past the cap and wrong size each give their own outcome |
| SourceLoop.Loop.Retain | internal/server/server.go:365-368 | The bytes published are the bytes retained, and only sequence 0 is refused |
| SourceLoop.Loop.Relay | internal/server/server.go:245-378 | Each return path is taken for its own reason and for no other: not dense, over the cap, past the cap, wrong size, not retainable by what the emission is; cancelled and failed only by what its reader did |
| SourceLoop.Loop.ClosePipeline | internal/server/compress.go:252-262 | On every return path what is in flight is published before finish |
| SourceLoop.Loop.Finish | internal/server/server.go:215-217 | Finish is the last step, with a failure recorded exactly for a failing outcome |
| SourceLoop.Loop.Run | internal/server/server.go:215-387 | Every run of the loop is a run of the source side from an initial state; no broadcaster guard fires; messages handed on never change; the outcome is that of the first event that does not go through, and with readers that never fail the run is exhausted exactly when everything given is deliverable and nothing is cancelled |
| Serve.ServeLoop | internal/server/server.go:547-701 | The subscriber loop, over what its passes observe, is the fold that every run of the protocol is proved to follow |
| StreamingLoop.BehaviourIsTheLoop | internal/server/server.go:547-701 | In every run, what was sent and is on its way, the cursor between passes, and the close are what the loop makes of that run's own looks at the broadcaster and the store |
| StreamingLoop.ServeAsRun | internal/server/server.go:547-701 | The loop itself, run over those looks, writes and decides as the run did |
| Serve.Pass | internal/server/server.go:583-700 | One pass decides and writes as the cursor's turn says |
| Serve.FollowFlow | internal/server/server.go:583-632 | At the flow: stampless if it was finished before it was entered, else entered if need be and written up to the snapshot |
| Serve.WriteRingFlow | internal/server/server.go:734-755 | The replay loop cuts a retained ledger into the specified flow, both stamps zero |
| Feeding.DefaultsInteroperate | remoteledger/stream.go:80-116 | A default client admits everything a server with a valid chunk size sends |
| Feeding.FeedsFlow | remoteledger/stream.go:431-526 | A client awaiting a ledger yields a sound flow of it whole |
| Feeding.FeedsRing | internal/server/server.go:734-755 | A ring replay is yielded as the retained bytes with zero stamps |
| Feeding.FeedsStampless | internal/server/server.go:708-730 | A finished flow handed to a latecomer is yielded as the ledger with zero stamps |
| Feeding.FrameSound | internal/server/server.go:734-755 | Framed pieces are a legal run of chunks standing for their concatenation |
| Feeding.SplitJoins | internal/server/server.go:744-752 | The pieces a retained ledger is cut into join back to it and none is empty or over the chunk size |
| Feeding.SplitIsEven | internal/server/server.go:744-752 | Every piece but the last is of the chunk size, and each is its own stretch of the ledger |
| Feeding.RingFlowSends | internal/server/server.go:734-755 | A replay decodes to BEGIN and END with zero stamps around the retained bytes cut at every chunkSize, with their count, length and hash, each chunk a zstd frame exactly when replays compress and it saves something |
| StreamingProofs.NextKeeps | internal/server/server.go:547-701 | Every step of source, cursor, network and client keeps the protocol's invariant |
| StreamingProofs.ReplacedFlowIsComplete | internal/server/broadcast.go:75-77 | A flow that has been replaced has its END, so the pinned END path delivers a whole ledger |
| StreamingProofs.StoredBelowFlow | internal/server/server.go:633-640 | Outside Put, every ledger emitted below the flow is at or below the ring's newest |
| StreamingProofs.RingSaysNo | internal/server/server.go:497-500 | The ring has nothing for a cursor only when the source has not emitted past it |
| StreamingProofs.RetainedIsHistory | internal/store/store.go:191-208 | Whatever file a reader racing the writer finds holds its ledger's own bytes |
| StreamingProofs.AbandonKeeps | internal/server/server.go:659-666 | Abandoning a partial keeps the client in step: the redelivery's BEGIN will discard it |
| StreamingProofs.PinnedKeeps | internal/server/server.go:640-658 | Finishing from the pinned flow completes the ledger with the source's stamps |
| StreamingTheorems.Reachable | internal/server/server.go:547-701 | Every state of every behaviour satisfies the invariant |
| StreamingTheorems.AnchorIsTheTip | internal/server/server.go:480-489 | A tip subscription's anchor was taken in one step: on connecting the ledger being emitted, or past the newest complete one; before the first ledger, the newest at the next look |
| StreamingTheorems.AnchorMoves | internal/server/server.go:554-578 | Nothing else sets the anchor and nothing moves it |
| TipAnchor.FirstExactlyWhenAlone | internal/server/server.go:576-578 | Taken at a look, it is the source's first ledger exactly while no second has begun |
| TipAnchor.FirstMayBeMissed | internal/server/server.go:576-578 | For every source there is a run whose tip subscription, connected before the first ledger, begins at the second |
| StreamingTheorems.DeliveryIsExact | internal/server/server.go:547-701 | In every reachable state the yields are gapless from the anchor, byte-exact, discarded once exactly when abandoned, and stamped with the source's clock exactly when entered before the END and not abandoned, else with zeros |
| Looks.LatecomerIsStampless | internal/server/server.go:583-597 | Coming upon a flow after its END, a subscriber is sent BEGIN and END with stamps that decode to 0, and the same chunks, count, length and hash |
| Looks.SentUpToDate | internal/server/server.go:598-632 | Otherwise it is sent BEGIN once, every chunk it has not been sent, END once that is out, and rests when there is none of these |
| Looks.ReplacedFlowEnds | internal/server/server.go:640-666 | Inside a replaced flow it is sent the pinned END if that is all it lacks, and abandons the flow exactly when a chunk was still to be sent |
| Looks.PastEndIsClosed | internal/server/server.go:579-581 | Past the end of its range it is closed normally, whatever the flow |
| Looks.OthersLookOrRest | internal/server/server.go:633-699 | Below the flow, or finding none, and inside none it looks in the ring; ahead of it or without a place it rests |
| Looks.HistoriesTell | internal/server/server.go:583-666 | In every run a ledger was entered, or abandoned, exactly by a look before its END, or from inside its replaced flow with a chunk unsent |
| Looks.StampsTell | internal/server/server.go:583-666 | A yielded ledger has the source's own non-zero stamps exactly when some look entered its flow and none abandoned it, and one discarded partial exactly when one did |
| StreamingTheorems.NeverRefused | remoteledger/stream.go:431-526 | No run with this server reaches a protocol error or a gap |
| StreamingTheorems.CaughtUpInStep | internal/server/server.go:583-680 | When all writes are read, client and cursor agree on the next ledger (a tip client with no yield yet accepts any), the flow and the chunk count |
| StreamingTheorems.NoLostWakeup | internal/server/broadcast.go:132-147 | A cursor asleep on an open channel holds the current state |
| StreamingTheorems.NeverSleepsBelowFlow | internal/server/server.go:633-699 | A cursor at or above the first emitted ledger never sleeps below the flow, nor, when the flow has wrapped to sequence 0, at or below the ledger before it |
| RingWaits.NeverWaitsForRetained | internal/server/server.go:633-699 | With the initial ring empty or below the first ledger, an up-to-date cursor inside no flow never waits while the ring holds the ledger it wants, before the first publish included |
| StreamingTheorems.CleanEndIsComplete | internal/server/server.go:685-694 | An unbounded client that ends without error, not started below the first ledger, has yielded every ledger begun from its anchor on, tip or not, and the source did not fail |
| StreamingTheorems.BoundedEndIsWhole | remoteledger/stream.go:536-545 | In every run, a bounded client that ends silently holds exactly its range from the anchor to the end, byte for byte; only from the tip may it hold nothing |
| StreamingTheorems.CleanCloseFacts | remoteledger/stream.go:402-424 | A clean end means every write was read, the client is between ledgers, and the close said 1000 or 1001 |
| StreamingLiveness.CursorNearer | internal/server/server.go:574-694 | After finish, every step of the cursor brings it nearer its end |
| StreamingLiveness.CursorCanMove | internal/server/server.go:574-694 | After finish, a subscription that is not over has a step to take |
| StreamingLiveness.ServeReturns | internal/server/server.go:574-694 | After finish, the cursor's own steps end every subscription, with nothing more from the source |
| StreamingLiveness.SubscriptionEnds | internal/server/server.go:574-694 | Every run whose source has finished goes on, by the cursor's steps alone, to the end of the subscription |
| CleanEnds.CloseReadIsClean | remoteledger/stream.go:402-424 | An unbounded client still reading that has read every message and reads the close of a source that did not fail ends cleanly, unless its cursor was inside a flow or out of retention |
| CleanEnds.EndsCleanly | internal/server/server.go:683-694 | Every run whose source finished without failing, its connection up, goes on by cursor and client alone to an end that is clean unless the consumer broke off, the cursor was out of retention, or the source stopped inside a ledger |
| StreamingRing.CloseReportsAbove | internal/server/server.go:497-512 | With the initial ring empty or below the first ledger, every too-far-behind close names an oldest ledger above the cursor's own place, even when pruning overtook the read |
| StreamingRing.TooFarBehindIsAbove | remoteledger/stream.go:402-424 | And a client refused with it reads an oldest ledger above the place its subscription had got to, which is the ledger it expects unless it came for the tip and has yielded nothing |
| StaleRing.RewoundRingMisreports | internal/server/server.go:497-512 | With any other ring there is a run whose client is told of an oldest ledger at or below its own |
| StaleRing.TrustedExactlyWhenForward | internal/server/server.go:497-512 | Too-far-behind reports can be trusted by every client exactly when the initial ring is empty or wholly below the first ledger |
| Provenance.SourceKnown | internal/store/store.go:137-188 | Every disk state a run passes through holds only ledgers the source has begun or the initial ring held |
| Provenance.YieldsAreKnown | internal/server/server.go:547-701 | Whatever any client yields in any run, the source had begun it or the initial ring held it |
| EndToEnd.EmittedIsYielded | internal/server/server.go:215-701 | When Run over an iterator ended Exhausted, an unbounded client anchored at one of its ledgers that ends without an error has yielded that one and all that followed, under their sequences and byte for byte, and nothing after them unless a later ledger was on disk from before; a clean end only ever means Exhausted or Cancelled |
| EndToEnd.ExhaustedEndsCleanly | internal/server/server.go:215-701 | Once Run ended Exhausted, every run with its connection up and an unbounded client that keeps pulling goes on to a clean end, unless the subscription is out of retention |
| EndToEnd.FramedIsYielded | internal/server/pipesource.go:91-200 | Over a pipe, what such a client yields is what the producer framed, record by record, each under the sequence found in it |
| EndToEnd.RunIsFollowed | internal/server/server.go:215-387 | Every run of the source loop is the source side of some behaviour of the protocol |
| Pipeline.NextKeeps | internal/server/compress.go:157-262 | Every step of submitter, workers and publisher keeps each job in one place and the queue in order |
| Pipeline.PublishedInOrder | internal/server/compress.go:157-262 | In every schedule the published messages are the submitted chunks in order, once each, each carrying its own bytes, compressed exactly when that is smaller and its offer found room in the queue, and all of them out after flush or close |
| Pipeline.RefusedTells | internal/server/compress.go:229-242 | A chunk is kept from the encoders exactly by its own offer finding their queue full |
| Pipeline.StepsAsQueue | internal/server/compress.go:157-262 | Every step of the goroutines submits a chunk, publishes the oldest in flight, framed as an encoder does if one took it and raw if not, or shows nothing outside: what the source loop takes the pipeline for |
| Pipeline.PublishedGrows | internal/server/compress.go:205-212 | What is published stays published |
| Pipeline.InternalUses | internal/server/compress.go:157-262 | Every internal step lowers the work left |
| Pipeline.FlightMoves | internal/server/compress.go:248-248 | While a chunk is in flight some internal step is enabled |
| Pipeline.FlushReturns | internal/server/compress.go:248-248 | From any reachable state flush returns within the work left |
| Pipeline.CloseReturns | internal/server/compress.go:252-262 | And so does close, with everything published |
| PipeSource.StreamParses | internal/server/pipesource.go:159-200 | Every concatenation of record-marked frames parses back to exactly its records |
| PipeSource.RecordsFrame | internal/server/pipesource.go:159-200 | Every byte stream is the frames of its records followed by what is left over |
| PipeSource.CutStream | internal/server/pipesource.go:202-232 | A stream cut anywhere but between two frames leaves something over, and only whole records are recovered |
| PipeSource.FrameBody.Read | internal/server/pipesource.go:196-232 | A frame's body gives its bytes in order, and an EOF only after the last byte its marker announced |
| PipeSource.FrameBody.ReadTail | internal/server/pipesource.go:212-232 | The tail never reads past its frame, and an early EOF becomes an error |
| PipeSource.ReadRecord | internal/server/pipesource.go:196-232 | In terms of the record, a frame's body reads as a body of that record would |
| PipeSource.FillFrame | internal/server/ledgerwork.go:24-37 | Topping up from a frame's body has the contract of topping up from the record, failing never when the reader is healthy, so the source loop is given the same either way |
| PipeSource.Drain | internal/server/pipesource.go:196-232 | A body topped up buffer by buffer to a clean end was the whole record, and leaves the stream at the next marker |
| PipeSource.ReadMarker | internal/server/pipesource.go:161-180 | Only an EOF where a marker would start is a clean end, a marker without the last-fragment bit is an error, and a healthy reader gives every marker there is |
| PipeSource.NextRecord | internal/server/pipesource.go:161-199 | Each turn of the frame loop yields the stream's next record and stays in sync, and with a healthy reader it yields whenever there is one that shows its sequence |
| PipeSource.Relay | internal/server/pipesource.go:159-200 | Under any short reads the records yielded are the stream's own, whole and in order, and the stream counts as finished only with nothing left over; with a healthy reader and a sequence in every record all are yielded and it is finished exactly then |
| Pacing.Emissions | internal/server/emit.go:59-93 | Whatever the delays of source, consumer and sleep, the starts are the grid those delays give, cut off by a cancellation |
| Pacing.GridIsOnGrid | internal/server/emit.go:70-84 | Every such grid is the cadence re-anchored after overruns, with sequences counted from the range |
| Pacing.OnGridIsGrid | internal/server/emit.go:70-84 | And every log of starts so spaced is what some delays give |
| Pacing.NoBurst | internal/server/emit.go:75-84 | Schedules j - i emissions apart are j - i cadences apart, actual starts at least j - i - 1: an overrun is not repaid as a burst |
| Pacing.NextStartIsSpaced | internal/server/emit.go:75-84 | Every possible next start is a cadence or more after the last exactly when that one was on time or took a cadence |
| Pacing.LateStartGap | internal/server/emit.go:75-84 | At every cadence there are delays after which two ledgers start together |
| Pacing.NoDrift | internal/server/emit.go:75-84 | The schedule does not drift exactly as long as nothing overruns it |
| Pacing.DueInWindow | internal/server/emit.go:143-153 | Bytes fall due in order, none after the window closes and the last exactly then |
| Pacing.DueIsShare | internal/server/emit.go:143-153 | Each byte falls due at its own share of the window, to the nanosecond |
| Pacing.PacedBody.Read | internal/server/emit.go:135-159 | Reads of any size give the payload in order, each as soon as its last byte is due and the sleeper awake, none before; a cancelled sleep gives nothing |

## Left out

- SourceLoop.Loop.Submit: the goroutines are not inside `Run`; their progress is any number of publications
  after each submit, oldest first, which by `Pipeline.StepsAsQueue` is all that they ever show.
- SourceLoop.Loop.Sum: the hasher's channel is not modelled as a queue; it may have digested any number of
  the ledger's chunks at any time.
- Store.LedgerStore.Get: a Get racing the writer is not this method's; it is `Store.GetDuringPut`, and in
  the protocol the cursor's separate looks with `StreamingProofs.RetainedIsHistory`.
- StreamingTheorems.NoLostWakeup: watch and the read of the pinned flow are one step of the cursor, as the
  lock and the happens-before argument in the source make them.
- StaleRing.TrustedExactlyWhenForward: not stated for the one case in which the source's first ledger and
  the newest on disk are both 4294967295, which no client can ask for.
- SourceLoop.Loop.Run: a body is an object of `Reading.Body`, so `Run` is not run over
  `PipeSource.FrameBody`; `PipeSource.FillFrame` has, of the record, the contract that is all `Run` uses of
  a body.
- Decimal.ReasonIsForm: fmt.Sscanf's leniency about spacing, in reasons the server never writes, is not modelled.
- Pacing.DueInWindow: due times are over the reals, where the source rounds in float64.
- PipeSource.ReadMarker: the four-byte marker reader and the sequence extractor are library code that is not
  part of this model; the extractor is a parameter, the marker follows the standard.
- The client's assembly and scratch buffers are values: their reuse between yields, which makes a yielded
  slice borrowed, is not captured.
- A retained or published message is shared by reference with every subscriber; the connection here carries its bytes.
- WebSocket and HTTP transport, dialling, write timeouts, pings and keepalive are a FIFO that may break.
- Store.LedgerStore.Put: a disk operation that fails is not modelled, so its error returns are only sequence
  0's; neither are fsync and the order of a directory listing.
- Process spawning, signals, pipe sizing, captive-core configuration, flags, health endpoint, logging and
  counters other than liveAbandons.
- Encoder pool sizing and scratch capacity; zstd and xxhash64 internals.
- The benchmark runner, synthetic payloads and the file replayer: simple, and off the protocol.
