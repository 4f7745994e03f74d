# A verified model of the S3 mailbox tunnel

The tunnel carries TCP streams through an object store. A client and a server share nothing but keys: the
sender of a direction PUTs numbered data objects, the receiver GETs them in order, PUTs ACK objects now and
then, and HEADs a close marker when data is missing. The Go programs and the Android client implement the
same protocol twice. This project models that protocol in Dafny, with the code's branches, constants and
integer widths, and proves what it keeps over every run, including where the code falls short.

Verify everything with `dafny verify dfyconfig.toml`.

## How the model is organised

- `Channel.dfy` is one direction of one session: a sender and a receiver as two local programs and a mailbox
  between them. A move holds at most one store request, so every interleaving of requests is a run. A weak
  store may miss objects that exist and may answer an ACK read with an older ACK; `strong` selects a store
  that answers from its current state. `ChannelSafety.dfy` proves the invariant and the main safety results,
  `Wedge.dfy` and `Progress.dfy` decide when the window can block, `CloseMarker.dfy` decides when a clean end
  means complete delivery.
- `World.dfy` puts any number of sessions and both directions on one store whose keys are the built strings,
  and shows that every run of it is a run of each channel.
- `Loops.dfy` and `KotlinTunnel.dfy` hold the loops as written, with `seqNo`, `lastAck`, `sent`, `received`
  and the cached ACK as variables. Each runs against a host class in which the other side moves, before every
  request, as an arbitrary schedule says. The hosts record what they are asked for, and when, and whether a
  request failed; the contracts are stated over these records, and `PollLog.dfy` says what they may look like.
  The methods take a set `safe` of states that no move leaves, and prove that the loop stays in it; with the
  reachable states for `safe` this is refinement of the machine.
- `Aggregation.dfy`, `MemoryStore.dfy`, `Listing.dfy`, `Admission.dfy` and `Stats.dfy` model the aggregating
  reader, the in-memory store with its paged listing, the server loop, and the statistics object.
- `Envelope.dfy`, `Hkdf.dfy`, `KeyLayout.dfy`, `KeyReaders.dfy`, `Settings.dfy` and `Polling.dfy` model wire
  formats, keys, negotiation and poll delays, in both implementations where there are two.

## What the proofs found

- **A clean end can lose data.** The receiver returns after one positive HEAD and does not GET the next data
  key again (`internal/tunnel/tunnel.go:485`). `CloseMarker.CloseCanLoseData` is a run, possible under every
  configuration, without any failure, over a strongly consistent store, in which a chunk is PUT, the sender
  closes, and the receiver reports a clean end without it. `CloseMarker.DeliveredIff` gives the exact
  condition over a strongly consistent store: nothing was PUT after the last data miss.
  `CloseMarker.DrainDelivers` shows that over such a store reading data until it misses once more removes the
  condition; the model has that repaired receiver as an option that `Loops.StreamFromStore` keeps off.
- **Windows are not negotiated.** A sender window below the receiver's ACK interval blocks the channel for
  good after one window of chunks. As long as the 64-bit sum of ACK and window does not wrap, a channel blocks
  if and only if the windows are mismatched in this way; with matching windows a stalled channel is blocked
  exactly when that sum wraps, which takes nearly 2^64 chunks.
- **No final ACK is written on close.** `docs/PERFORMANCE.md:56` says that there is one; the code decides, and
  the ACK counts proved here are those of the code.
- **Delays can overflow.** Every delay stays within the poll settings if and only if the maximum is below
  2^62 nanoseconds; at 2^62 the doubling already overflows.
- **A Kotlin reader that throws in the middle of an aggregate** loses what that aggregate had read, and no close
  marker follows (`KotlinTunnel.KotlinUpload`, with a run in `KotlinTunnel.KotlinLosesBytes`): bytes are lost
  exactly when it was not the first read of the aggregate that threw. The Go reader returns the bytes together
  with the error.
- **The receiver's byte limit decides whether it catches up.** A receiver that is still running can consume all
  that was PUT if and only if its total fits the limit (`Progress.CatchesUpIff`).
- **Session ids and prefixes.** For ids that are plain path segments Go keys are injective under every prefix. The Kotlin builders do not clean the
  prefix, and agree with the Go ones exactly when the trimmed prefix is already clean.
- **One dial per request** rests on DELETE alone: in every run the dials of an id are at most its requests and
  those of its DELETEs that did not take effect, and with failing DELETEs a second scan does dial again.
- **A PUT that takes effect but reports a failure** is among the runs, for data, ACKs and close markers, and
  changes none of the results: the sender or receiver stops right after the move that it made.

## Model

| member | source | states |
|---|---|---|
| `ChannelSafety.WrittenIsPrefix` | internal/tunnel/tunnel.go:382-501 | in every reachable state, over a weak store, the bytes written are a prefix of the bytes taken from the reader, and every byte taken is in a PUT chunk, in hand, or lost with the one last chunk |
| `ChannelSafety.DataObjects` | internal/tunnel/tunnel.go:387-412 | the mailbox holds exactly the chunks PUT, none empty or above the chunk size, their total within the byte limit, and at most one chunk is lost |
| `ChannelSafety.StoreOnlyGrows` | docs/PROTOCOL.md:110-111 | no move PUTs a data key twice, changes or removes a data object, or lets the stored ACK go back |
| `ChannelSafety.SequenceOrder` | internal/tunnel/tunnel.go:503-530 | cached ACK <= stored ACK <= receiver's number <= sender's number <= cached ACK + window |
| `ChannelSafety.CachedCheckIsConservative` | internal/tunnel/tunnel.go:510-512 | a chunk that the cached ACK admits, the stored ACK and every one between admit too, if and only if the 64-bit sum does not wrap |
| `ChannelSafety.OutputWithinLimit` | internal/tunnel/tunnel.go:454-461 | while the signed sum does not wrap the receiver writes at most its byte limit, and never all of a longer stream |
| `ChannelSafety.AckTraffic` | internal/tunnel/tunnel.go:462-470 | n received chunks cost n / E ACK PUTs, completed waits are at most that many, and a stream that fits the window reads no ACK |
| `ChannelSafety.AckCount` | internal/tunnel/tunnel.go:464-468 | the last ACK is the largest multiple of the interval not above the received count |
| `ChannelSafety.CloseChecks` | internal/tunnel/tunnel.go:479-487 | a gap of m data misses makes exactly m / K close HEADs, K being the configured number of misses, or 4 |
| `ChannelSafety.ExceedsIff` | internal/tunnel/tunnel.go:392-395 | while the signed sum does not wrap, the limit test refuses exactly totals above a positive limit |
| `ChannelSafety.InvStep` | internal/tunnel/tunnel.go:382-501 | the channel invariant survives every move of either loop, whatever the weak store answers |
| `Channel.AckInterval` | internal/tunnel/tunnel.go:532-537 | one up to a window of two, and above that half the window, rounded down |
| `Wedge.MismatchedIff` | internal/tunnel/tunnel.go:532-537 | 0 < sender window and 2 * sender window + 1 < receiver window hold if and only if the ACK interval exceeds the send window |
| `Wedge.WedgedIffSumWraps` | internal/tunnel/tunnel.go:503-537 | with matching windows a channel whose cached ACK refuses, with everything consumed and no ACK due, is blocked for a fresh ACK too if and only if ACK plus window reaches 2^64 |
| `Wedge.NeverWedged` | internal/tunnel/tunnel.go:503-537 | unless 0 < sender window and 2 * sender window + 1 < receiver window, no reachable state in which stored ACK plus window is below 2^64 has the sender blocked with everything consumed and no ACK due |
| `Wedge.HalfWindowsMatch` | internal/tunnel/tunnel.go:503-537 | with a sender window of at least half the receiver's, so with equal windows, no wedge is reachable while stored ACK plus window is below 2^64 |
| `Wedge.MismatchStarves` | internal/tunnel/tunnel.go:444-470 | with mismatched windows no run stores an ACK or PUTs more than one window of chunks |
| `Wedge.WedgeLasts` | internal/tunnel/tunnel.go:514-530 | a wedge ends only when one side gives up |
| `Wedge.MismatchWedges` | internal/tunnel/tunnel.go:503-530 | mismatched windows reach a wedge over a strongly consistent store |
| `Wedge.WedgeIffMismatched` | internal/tunnel/tunnel.go:503-537 | given byte limits with room for one chunk beyond the window, a wedge in which stored ACK plus window is below 2^64 is reachable if and only if the windows are mismatched |
| `Progress.CatchUp` | internal/tunnel/tunnel.go:445-470 | from every reachable state with a chunk in the sender's hand, the receiver running and its byte limit, if any, not below what was PUT, the receiver can consume and acknowledge all of it |
| `Progress.CatchesUpIff` | internal/tunnel/tunnel.go:445-470 | a running receiver can consume all that was PUT if and only if its byte limit leaves room for it |
| `Progress.CanAlwaysSend` | internal/tunnel/tunnel.go:503-530 | from such a state, with matching windows and a window sum below 2^64, the chunk in hand can still be PUT |
| `Progress.FullWindowWedges` | internal/tunnel/tunnel.go:503-530 | with mismatched windows every such state with a full window leads into the wedge |
| `Progress.MismatchBlocksForGood` | internal/tunnel/tunnel.go:503-530 | with mismatched windows no continuation sends a chunk beyond the first window |
| `CloseMarker.DeliveredIff` | internal/tunnel/tunnel.go:476-487 | over a strongly consistent store a receiver that ended on a close marker has written everything PUT if and only if no PUT followed its last data miss |
| `CloseMarker.DrainDelivers` | internal/tunnel/tunnel.go:476-487 | over a strongly consistent store reading data until a miss after the marker was seen makes delivery unconditional |
| `CloseMarker.CloseCanLoseData` | internal/tunnel/tunnel.go:485 | under every configuration a failure-free run ends cleanly with a chunk undelivered |
| `World.WorldRefinesChannels` | internal/protocol/protocol.go:103-113 | every run of any number of sessions over one keyed store is, for each channel, a run of its own two-party machine |
| `World.GoKeysInjective` | internal/protocol/protocol.go:95-121 | the Go builders meet what that refinement asks of keys, for every prefix |
| `World.OthersUnmoved` | internal/protocol/protocol.go:103-113 | a PUT of one channel is invisible in the mailbox of every other |
| `World.AnswersAllowed` | docs/PROTOCOL.md:106 | what a stale or missing answer at a key can be is what the mailbox machine allows |
| `World.EveryStreamIsAPrefix` | internal/tunnel/tunnel.go:382-501 | with any sessions, directions and interleaving, each receiver has written a prefix of what its sender took |
| `World.DataKeysWrittenOnce` | docs/PROTOCOL.md:110-111 | each data key has at most one version, and it is the chunk sealed for that session, direction and number |
| `World.AckObjectsInOrder` | internal/tunnel/tunnel.go:503-560 | the sequence-number chain, stated on the newest object under the ACK key |
| `World.CleanEndIff` | internal/tunnel/tunnel.go:476-487 | the completeness condition holds for every session of a shared, strongly consistent store |
| `Loops.SendHost.GetAck` | internal/tunnel/tunnel.go:550-560 | an ACK read returns what the store may answer, or fails |
| `Loops.SendHost.PutObject` | internal/tunnel/tunnel.go:408-412 | a PUT takes effect, or reports a failure, with or without having taken effect |
| `Loops.PollOnce` | internal/tunnel/tunnel.go:515-524 | one ACK GET, never lowering the cached ACK; opens if and only if the newest value admits the chunk |
| `Loops.PollWindow` | internal/tunnel/tunnel.go:513-530 | GETs until the window opens, with a sleep after each that does not, for the doubling delays |
| `Loops.WaitWindow` | internal/tunnel/tunnel.go:503-530 | touches nothing when the cached ACK admits the chunk; otherwise opens if and only if a fresh value admits it, and gives up only on a failed GET or a done context; counts its GETs and fixes every sleep |
| `Loops.CloseChannel` | internal/tunnel/tunnel.go:562-571 | the close marker is PUT, or the request failed, whether or not it took effect |
| `Loops.SendChunk` | internal/tunnel/tunnel.go:389-413 | a non-empty read is PUT as the next chunk with one PUT, or is the lost chunk with its cause; it is refused if and only if the byte limit test says so |
| `Loops.AggregateNext` | internal/tunnel/tunnel.go:388 | one aggregated read, with the configured size and delay, adds exactly its data to what was read before |
| `Loops.SendRead` | internal/tunnel/tunnel.go:389-421 | what the loop does with one aggregated read: the next chunk, then the close marker if the read failed or ended |
| `Loops.SendRound` | internal/tunnel/tunnel.go:387-422 | one round goes on with everything accounted for; or its chunk was not PUT; or the read's error decides: at the end of the stream the result is success unless the marker's request failed |
| `Loops.StreamToStore` | internal/tunnel/tunnel.go:382-423 | the loop is a run of the sender; the chunks are the data of the aggregated reads, one each, in order; the last of these reads decides the result; PUTs and ACK GETs are counted exactly |
| `Loops.Upload` | internal/tunnel/tunnel.go:382-423 | the mailbox holds exactly the chunks, which with at most one lost chunk are what the reader yielded; the result is success if and only if the last read reported the end of the stream, nothing was lost and no request failed; a cancelled read means a done context; one PUT a chunk and one marker; no ACK GET within the first window |
| `Loops.RecvHost.GetObject` | internal/tunnel/tunnel.go:446-448 | a data GET returns the object, or a miss the store may answer, or fails |
| `Loops.RecvHost.CloseExists` | internal/tunnel/tunnel.go:573-583 | a HEAD never invents a marker |
| `Loops.RecvHost.PutAck` | internal/tunnel/tunnel.go:539-548 | an ACK is PUT, or the request reports a failure, with or without having taken effect |
| `Loops.Accept` | internal/tunnel/tunnel.go:449-475 | one data object is written in full and acknowledged when due, and only then counts as served at that time; or the cause of failure holds and only a prefix of it was written |
| `Loops.CountMiss` | internal/tunnel/tunnel.go:479-490 | the miss counter, the one HEAD it triggers, and the idle timeout if and only if the deadline has passed |
| `Loops.Rest` | internal/tunnel/tunnel.go:491-499 | sleeps for the delay due and makes the next one due, or the minimum after a wake-up |
| `Loops.RecvRound` | internal/tunnel/tunnel.go:444-500 | one round keeps the loop's variables, with delay and deadline tied to the log of what it asked for, or ends for a reason |
| `Loops.StreamFromStore` | internal/tunnel/tunnel.go:433-501 | the loop is a run of the receiver, its output is what the machine wrote, it ends cleanly exactly on a seen marker; it asks in order, sleeps only for the delay due and no later than the idle time after data was last served, and times out only after that |
| `Loops.Download` | internal/tunnel/tunnel.go:433-501 | the output is a prefix of what the sender took, and complete after a clean end over a strongly consistent store if and only if no PUT followed the last miss; an idle timeout means that much time since data was last served |
| `PollLog.SleepsInTime` | internal/tunnel/tunnel.go:470-499 | in an orderly log every sleep is for the delay that the sleeps before it make due, and begins within the idle time after data was last served |
| `KotlinTunnel.WindowTestsAgreeIff` | android-client/app/src/main/java/io/s3s5/android/tunnel/TunnelClient.kt:292-308 | the signed and the unsigned window test agree if and only if the signed sum does not overflow |
| `KotlinTunnel.ReceiversAgreeIff` | android-client/app/src/main/java/io/s3s5/android/tunnel/TunnelClient.kt:188-334 | same ACK interval; same close-check threshold if and only if it is configured positive |
| `KotlinTunnel.UploadRead` | android-client/app/src/main/java/io/s3s5/android/tunnel/TunnelClient.kt:140-158 | what the Kotlin loop does with one aggregate: the next chunk, the marker at the end of the stream, nothing after a throw |
| `KotlinTunnel.LiveRound` | android-client/app/src/main/java/io/s3s5/android/tunnel/TunnelClient.kt:139-158 | one round in a live context, on what the recursive form of an aggregate makes of the stream |
| `KotlinTunnel.UploadRound` | android-client/app/src/main/java/io/s3s5/android/tunnel/TunnelClient.kt:138-158 | one round goes on with everything accounted for or ends as its aggregate decides; in a done context it reads nothing |
| `KotlinTunnel.KotlinStreamToStore` | android-client/app/src/main/java/io/s3s5/android/tunnel/TunnelClient.kt:128-160 | the Kotlin sender is a run of the same machine; one chunk for each aggregate with data, in order; the last aggregate decides the end: success at the end of the stream unless the marker's request failed; a throwing reader writes no marker and drops its aggregate, which holds bytes if and only if it was not its first read that threw |
| `KotlinTunnel.KotlinUpload` | android-client/app/src/main/java/io/s3s5/android/tunnel/TunnelClient.kt:128-160 | after a whole upload the chunks stored, what was lost and what was dropped are all that the reader yielded; it succeeds if and only if the last aggregate was the end of the stream and no request failed; after a throw there is no close marker |
| `KotlinTunnel.KotlinLosesBytes` | android-client/app/src/main/java/io/s3s5/android/tunnel/TunnelClient.kt:162-179 | a run, under every chunk size from 2 and positive flush delay, that reads a byte, fails no request, and leaves neither the byte nor a close marker |
| `KotlinTunnel.KotlinStreamFromStore` | android-client/app/src/main/java/io/s3s5/android/tunnel/TunnelClient.kt:181-232 | the Kotlin receiver is a run of the same machine without a byte limit, so what is proved of the receiver, the condition for complete delivery included, holds of it; the same order and timing with the Kotlin delays; in a done context it asks for nothing |
| `Aggregation.Reader.Read` | internal/tunnel/aggregation.go:36 | an arbitrary reader: short, empty, with data and error together, timing out |
| `Aggregation.FillUp` | internal/tunnel/aggregation.go:52-71 | the aggregation loop is its recursive form |
| `Aggregation.StopsForContextIff` | internal/tunnel/aggregation.go:52-55 | between two reads the loop stops if and only if the context is done, and then reports it |
| `Aggregation.AggregateOnce` | internal/tunnel/aggregation.go:30-72 | reads exactly what the recursive form of an aggregated read says, with its reason, error and read count |
| `Aggregation.Aggregate` | internal/tunnel/aggregation.go:30-72 | the same, with what its callers rely on |
| `Aggregation.GoAggregateFacts` | internal/tunnel/aggregation.go:30-72 | exactly the bytes consumed, in order, at most the maximum, with the reason, error and read count of what happened |
| `Aggregation.WaitsIff` | internal/tunnel/aggregation.go:44-55 | it reads on if and only if the first read left room and no error, there is a flush delay, the reader has deadlines and the context is live; it reports a done context if and only if all reads went well, room was left and it was to wait; it stops for want of waiting if and only if there is no delay or no deadline support |
| `Aggregation.ReadOn` | android-client/app/src/main/java/io/s3s5/android/tunnel/TunnelClient.kt:162-179 | the loop reads exactly what the recursive form of an aggregate says |
| `Aggregation.ReadAggregated` | android-client/app/src/main/java/io/s3s5/android/tunnel/TunnelClient.kt:162-179 | the same, recorded as a call |
| `Aggregation.KotlinAggregateFacts` | android-client/app/src/main/java/io/s3s5/android/tunnel/TunnelClient.kt:162-179 | all bytes consumed, within the size; end of stream only on a first read; nothing when a read throws, and then bytes are lost if and only if it was not the first; it reads on if and only if there is a delay, room and more announced |
| `Aggregation.BrokenTailIsLost` | android-client/app/src/main/java/io/s3s5/android/tunnel/TunnelClient.kt:170-176 | a stream that breaks right behind its last byte loses it |
| `Admission.OneWorkerPerSession` | internal/tunnel/tunnel.go:184-198 | no two live workers share a session id |
| `Admission.SessionsBounded` | internal/tunnel/tunnel.go:164-198 | workers never exceed the tokens held nor tokens max(1, MaxSessions); in-flight ids exceed tokens by at most one |
| `Admission.DialsPerRequest` | internal/tunnel/tunnel.go:225-251 | in every run and per id: accepted answers <= connected dials <= dials <= DELETEs, and dials <= valid and negotiable requests PUT + DELETEs that did not take effect |
| `Admission.OneAnswerPerRequest` | internal/tunnel/tunnel.go:225-251 | once an id has left the in-flight table, each request fetched has been answered once; the invalid ones rejected and then deleted, the valid ones deleted, the negotiable ones among them dialled for, and exactly the connected dials answered with an acceptance |
| `Admission.AllListedConsidered` | internal/tunnel/tunnel.go:172-198 | between passes every key listed so far has been looked at once and in order, and a worker was started for each session id among them that was not in flight then |
| `Admission.OneDialPerRequest` | internal/tunnel/tunnel.go:225-251 | with working DELETEs, accepted answers <= dials <= valid and negotiable requests PUT, per id, even from stale listings |
| `Admission.OneDialIffDeletesWork` | internal/tunnel/tunnel.go:225-251 | that bound holds in every run if and only if DELETE takes effect |
| `Admission.SourceOneDialIffDeletesWork` | internal/tunnel/tunnel.go:180 | the same with the session ids that the server reads off its keys |
| `Admission.InvStep` | internal/tunnel/tunnel.go:163-274 | the server invariant survives every step of the loop, a worker or a client |
| `Admission.StartWorker` | internal/tunnel/tunnel.go:188-198 | waits for a semaphore token, then starts the worker; stops only when none can come back |
| `Admission.LookAt` | internal/tunnel/tunnel.go:179-198 | one look at a listed key; its worker is started if and only if it has an id that is not in flight |
| `Admission.Pass` | internal/tunnel/tunnel.go:178-199 | one pass looks at every key of the listing in order |
| `Admission.EndOfPass` | internal/tunnel/tunnel.go:200-204 | sleeps for the minimum after a pass that started a worker and for the next delay after one that did not |
| `Admission.Capacity` | internal/tunnel/tunnel.go:164 | the larger of 1 and MaxSessions |
| `Admission.ServerRun` | internal/tunnel/tunnel.go:163-206 | the loop as written is a run of the machine on exactly the keys that its scans returned, with the sleeps due; it stops for a failed scan or a done context |
| `Admission.Serve` | internal/tunnel/tunnel.go:163-206 | a server started on any store keeps the session bounds and the dial bounds wherever it stops, and has looked at every key that a scan returned and started the workers due |
| `MemoryStore.Store.PutObject` | internal/objectstore/memory/memory.go:26-36 | replaces one object, keeps all others |
| `MemoryStore.GetSeesLatest` | internal/objectstore/memory/memory.go:26-110 | after any PUTs and DELETEs a GET finds the data of the latest PUT of its key, or nothing when a DELETE was later |
| `MemoryStore.GetSeesUntouched` | internal/objectstore/memory/memory.go:26-110 | PUTs and DELETEs of other keys do not change what a GET finds |
| `MemoryStore.Store.DeleteObject` | internal/objectstore/memory/memory.go:102-110 | removes one key, keeps all others, accepts an absent key |
| `MemoryStore.Store.ListPrefixPage` | internal/objectstore/memory/memory.go:69-100 | from any map order, the first keys after the token of the one sorted listing of matching keys |
| `MemoryStore.SearchStrings` | internal/objectstore/memory/memory.go:84 | binary search finds the first position not below the token |
| `MemoryStore.ListOpenKeys` | internal/tunnel/tunnel.go:208-223 | while others PUT and DELETE between pages, no key repeats, each key was there at some page, each key there throughout is listed; on a quiet store the exact sorted listing in the fewest LISTs; terminates for every page size |
| `MemoryStore.PagesIs` | internal/tunnel/tunnel.go:209 | that is n divided by the page size, rounded up, and at least one |
| `MemoryStore.ScanPage` | internal/tunnel/tunnel.go:211-221 | one LIST carries the scan on, or completes it, and on a quiet store splits the sorted listing |
| `MemoryStore.PageExtendsScan` | internal/tunnel/tunnel.go:211-222 | one more page keeps the scan's promise and the last page completes it |
| `MemoryStore.DeletePage` | internal/objectstore/objectstore.go:55-60 | deletes the page's keys in order until the context ends |
| `MemoryStore.PageRemoves` | internal/objectstore/objectstore.go:48-60 | the first n keys of a page are n matching keys not yet gone |
| `MemoryStore.CleanPage` | internal/objectstore/objectstore.go:48-60 | one LIST and its DELETEs remove a page of matching keys, or as many as the context allows |
| `MemoryStore.DeletePrefix` | internal/objectstore/objectstore.go:45-62 | ends with no matching key, every other object untouched, and the count of matching keys at the start; reports a cancelled context if and only if that came before the last request needed, with the count of those removed |
| `MemoryStore.RequestsAre` | internal/objectstore/objectstore.go:45-62 | which are a DELETE for each key, a LIST for each page begun, and one LIST more |
| `Listing.ListingUnique` | internal/objectstore/memory/memory.go:81 | a key set has one sorted listing |
| `Listing.PageSplits` | internal/objectstore/memory/memory.go:94-98 | a truncated page and what follows its token make up the listing, without overlap |
| `Listing.PageSize` | internal/objectstore/memory/memory.go:94-98 | a page is the start of the listing, at most the limit long, cut if and only if keys are left, with its last key as token |
| `Listing.KotlinPageAgrees` | android-client/app/src/main/java/io/s3s5/android/objectstore/ObjectStore.kt:119-132 | the Kotlin pipeline returns the same page as the Go store |
| `Envelope.EncodeInto` | internal/crypto/codec.go:88-97 | the writes into one buffer make the frame |
| `Envelope.DecodesExactly` | internal/crypto/codec.go:100-127 | the decoder accepts exactly the well-formed frames, whatever their flags byte |
| `Envelope.DecodersAgree` | android-client/app/src/main/java/io/s3s5/android/crypto/Codec.kt:104-125 | below 2^31 bytes both decoders accept the same inputs with the same nonce and ciphertext |
| `Envelope.EncodeDecodes` | internal/crypto/codec.go:83-127 | a frame decodes back if and only if its ciphertext length fits 32 bits |
| `Envelope.GetPutU32` | android-client/app/src/main/java/io/s3s5/android/crypto/Codec.kt:192-203 | big-endian words read back modulo 2^32 |
| `Envelope.PutGetU32` | android-client/app/src/main/java/io/s3s5/android/crypto/Codec.kt:192-203 | every four bytes are the encoding of their value |
| `Envelope.BigEndian` | internal/crypto/codec.go:95 | the order of words byte by byte is the order of their numbers |
| `Envelope.MagicIsText` | internal/crypto/codec.go:58 | the magic bytes are the text S5D1 |
| `Envelope.AssociatedDataInjective` | internal/crypto/codec.go:204-206 | without bars in the fields it determines type, session, direction and number |
| `Envelope.BarsConfuse` | internal/crypto/codec.go:204-206 | with a bar in a field it does not |
| `Envelope.AssociatedDataFrame` | internal/crypto/codec.go:204-206 | it begins with the version, ends with twenty digits, and is as long as its parts |
| `Envelope.OpenUndoesSeal` | internal/crypto/codec.go:83-127 | OpenData undoes SealData if and only if plaintext and tag fit a 32-bit length |
| `Envelope.OpensIffSealedFor` | docs/PROTOCOL.md:81-89 | for a cipher that is authentic for the sealings made, under fresh nonces, and for fields without bars, a data object opens for a session, direction and number if and only if it was sealed for exactly those and its length fits |
| `Envelope.NoRetargeting` | docs/PROTOCOL.md:89 | hence it opens at no other |
| `Envelope.CiphersExist` | internal/crypto/codec.go:162-196 | the laws asked of the cipher can be met together, whatever was sealed |
| `Hkdf.GoHkdf` | internal/crypto/codec.go:208-223 | the first n bytes of T(1), T(2), ... as RFC 5869 sections 2.2 and 2.3 define them, for n up to 255 * 32 |
| `Hkdf.KotlinHkdf` | android-client/app/src/main/java/io/s3s5/android/crypto/Codec.kt:164-184 | the same for the byte-by-byte loop |
| `Hkdf.OkmUnique` | internal/crypto/codec.go:198-223 | hence both derive the same keys |
| `KeyLayout.GoJoinSegments` | internal/protocol/protocol.go:163-166 | a built key splits into the cleaned prefix and its parts |
| `KeyLayout.KeysInjective` | internal/protocol/protocol.go:95-117 | under every prefix two different objects have different keys |
| `KeyReaders.DocumentedKeys` | docs/PROTOCOL.md:7-18 | every key is the documented one, for a prefix of one plain segment |
| `KeyReaders.DefaultKeys` | internal/protocol/protocol.go:87-93 | an empty prefix, or one of slashes only, stands for the default |
| `World.ChannelKeys` | docs/PROTOCOL.md:10-16 | the data, ACK and close keys of both directions |
| `KeyLayout.SlashedIdsCollide` | internal/protocol/protocol.go:107-109 | with slashes in directions or ids they collide |
| `KeyLayout.CleanFixed` | internal/protocol/protocol.go:163-166 | path cleaning leaves exactly the canonical segment lists alone |
| `KeyLayout.KotlinAgreesIff` | android-client/app/src/main/java/io/s3s5/android/protocol/Protocol.kt:72-182 | the two builders agree on a key if and only if the trimmed prefix is already clean |
| `KeyLayout.KotlinKeysInjective` | android-client/app/src/main/java/io/s3s5/android/protocol/Protocol.kt:77-95 | the Kotlin builders are injective under every prefix too |
| `KeyReaders.ListedIdIsSessionId` | internal/tunnel/tunnel.go:180 | the server reads back the session id of every open key |
| `KeyReaders.OnlyOpenKeysListed` | internal/protocol/protocol.go:119-121 | a tunnel key lies under the open prefix if and only if it is an open key |
| `KeyReaders.GoSeqRoundTrip` | internal/protocol/protocol.go:123-130 | ParseSeq undoes DataKey for every uint64 |
| `KeyReaders.KotlinSeqRoundTrip` | android-client/app/src/main/java/io/s3s5/android/protocol/Protocol.kt:97-102 | the Kotlin parser reads back exactly the numbers below 2^63 |
| `KeyReaders.KeysSortNumerically` | internal/protocol/protocol.go:123-125 | lexical order of data keys is numeric order |
| `KeyReaders.TwentyDigits` | docs/PROTOCOL.md:45 | every uint64 takes exactly twenty digits |
| `KeyReaders.ClassifierRecoversKind` | internal/metrics/objectstore.go:264-324 | the classifier recovers every kind when the prefix has no v1 segment |
| `KeyReaders.OpenClassifiedIff` | internal/metrics/objectstore.go:264-332 | for open keys that condition is exact |
| `KeyReaders.OpenScanClassifiedIff` | internal/metrics/objectstore.go:257-262 | and so it is for the open scan |
| `KeyReaders.ClassifiedIff` | internal/metrics/objectstore.go:264-324 | any text is put in a class if and only if what follows its first v1 segment has that class's words and number of segments |
| `Settings.WithDefaults` | internal/tunnel/tunnel.go:585-624 | whatever is configured, the chunk size is valid, a valid one is kept, and delays, window and thresholds are positive and ordered |
| `Settings.ConfiguredKept` | internal/tunnel/tunnel.go:585-624 | every configured value in range is kept, and sizes and poll times out of range go to the nearest that is |
| `Settings.UnsetDefaults` | internal/tunnel/tunnel.go:585-624 | the defaults of what is not configured |
| `Settings.DefaultsOnce` | internal/tunnel/tunnel.go:585-624 | applying the defaults twice changes nothing |
| `Settings.NegotiationSucceeds` | internal/protocol/protocol.go:140-161 | clamped limits always negotiate, symmetrically, to a valid size within both |
| `Settings.NegotiatesSmaller` | internal/protocol/protocol.go:150-161 | the result is the smaller size if both are valid, and an error otherwise |
| `Settings.ChunksWithinBothLimits` | internal/tunnel/tunnel.go:127-134 | every data object of a negotiated channel has between 1 byte and the smaller of both limits |
| `Polling.DelayIsCappedDoubling` | internal/tunnel/tunnel.go:626-635 | the n-th delay of either client is the doubled minimum, capped |
| `Polling.DelaysInRangeIff` | internal/tunnel/tunnel.go:626-635 | all delays stay in range if and only if the maximum is below 2^62 |
| `Polling.OverflowThenMaximum` | internal/tunnel/tunnel.go:626-629 | a delay that has overflown is followed by the maximum |
| `Polling.KotlinDelaysInRange` | android-client/app/src/main/java/io/s3s5/android/tunnel/TunnelClient.kt:336-337 | the Kotlin delays stay in range whatever overflows |
| `Polling.KotlinDelayAgrees` | android-client/app/src/main/java/io/s3s5/android/tunnel/TunnelClient.kt:336-337 | both clients compute the same next delay if and only if the current one is below 2^62 |
| `Polling.GetBound` | internal/tunnel/tunnel.go:353-372 | the number of GETs that fit an idle timeout |
| `Polling.WaitJson` | internal/tunnel/tunnel.go:353-372 | result, number of GETs and time are those that replies, delays and the deadline fix; and for maxima below 2^62 GETs are at most k + idle / pollMax + 2 |
| `Stats.Stats.StartSession` | internal/tunnel/stats.go:188-199 | counts the session and sets its start |
| `Stats.Stats.OpenSession` | internal/tunnel/stats.go:201-209 | counts and times the opening |
| `Stats.Stats.RejectSession` | internal/tunnel/stats.go:211-222 | counts and times the rejection, and clears both tables |
| `Stats.Stats.FinishSession` | internal/tunnel/stats.go:224-239 | counts and times the end, and clears both tables |
| `Stats.Stats.RecordFirstData` | internal/tunnel/stats.go:241-265 | samples once per mark, and only for ids in the start table |
| `Stats.FirstDataKeyInjective` | internal/tunnel/stats.go:267-269 | the mark's key determines session and direction, whatever the id contains |
| `Stats.SessionsAccountedFor` | internal/tunnel/stats.go:188-239 | started = completed + failed + rejected + live in every interleaving, and the start table holds exactly the live ids when no update is half done |
| `Stats.OneSamplePerSession` | internal/tunnel/stats.go:201-239 | between updates there is one duration per ended session and one opening time per answered one |
| `Stats.NumbersMean` | internal/tunnel/stats.go:188-265 | in every interleaving each counter counts its events by verdict, and each list holds, in order, the times of its events by verdict and direction, first data measured from the session's start |
| `Stats.FirstDataOnce` | internal/tunnel/stats.go:241-265 | marks belong only to ids in the start table, even when reports come late, and each session gives at most one sample per direction |

## Left out

- S3 HTTP client, request signing, XML and provider presets: network plumbing over libraries that are not part of this model.
- AES-GCM, HMAC and SHA-256: abstract functions with the laws used: lengths, decryption undoes encryption, ciphertexts made so far open only to what was sealed (`Envelope.Authentic`), 32-byte hashes.
- Nonce collisions: `Envelope.NoRetargeting` assumes that random nonces do not repeat.
- JSON and base64 control envelopes, and randomness: control messages are records, nonces are parameters.
- Sockets, DNS, destination policy and SOCKS: readers and writers follow arbitrary scripts, a dial succeeds or fails arbitrarily.
- The client's own session flow around the streams (`internal/tunnel/tunnel.go:96-161`): only its two streams, its wait for the open result and its statistics events are modelled.
- The activity signal: an arbitrary early wake-up, since it only changes delays.
- Wrap-around of the sequence number after 2^64 chunks, and of the byte totals; the wrap-around inside the window test and the limit test is modelled.
- Wedge.WedgeIffMismatched: says nothing about wedges in which the stored ACK plus the window reaches 2^64; `Wedge.WedgedIffSumWraps` says when those occur.
- Runs that never end: the loops stop when their finite schedule, of any length, is used up, which stands for a cancelled context.
- KotlinTunnel.KotlinStreamToStore: uses the unsigned window test, which `KotlinTunnel.WindowTestsAgreeIff` equates with the signed one below 2^63.
- Nil windows and nil statistics objects, which the Go methods accept.
- UTF-16 order and non-ASCII digits on the JVM, and characters above U+FFFF.
- 32-bit builds of the Go programs, on which `int` is narrower than assumed here.
- Heartbeat objects, chunk and byte counters: they carry no invariant.
- The Kotlin `waitJson`, which uses a library timeout, and the salt and info texts of key derivation.
- Performance harness, report rendering, percentiles, command lines, environment and configuration files, doctor, delay store, version.
- Android user interface, service, key store and status bus.
- Admission.ServerRun: the listing it consumes is arbitrary instead of the result of `MemoryStore.ListOpenKeys`, because its promises hold for any listing.
