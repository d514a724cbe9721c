# A verified model of gcp

gcp copies files between hosts. It cuts a file into chunks, sends the chunks concurrently over a pool of framed TCP
connections, and records finished chunks so that a later run can resume. This project models that machinery in Dafny
and proves what it promises. `dafny verify dfyconfig.toml` checks everything.

| Files | What they model |
|---|---|
| `Transfer*.dfy`, `Chunks.dfy`, `Files.dfy`, `ResumeStore.dfy`, `Callback*.dfy`, `Progress.dfy` | the chunked transfer: `processChunks` and its callers, the resume store, the retry loops, the progress consumer |
| `Codec.dfy`, `Framing.dfy`, `ServerStream.dfy`, `ClientStream.dfy`, `ParserAgreement.dfy`, `StreamVerdicts.dfy` | the frame codec and the two reassemblers, `ReadMessage` with `OnTraffic` and `handleReceive` |
| `Rpc*.dfy` | the multiplexing of requests and responses over connections that drop |
| `Pipeline.dfy`, `Auth*.dfy`, `SecureSession.dfy` | compression, encryption, and how both ends come to hold the same key |
| `Fd*.dfy` | the server's descriptor cache and file handlers |
| `PartialCopy.dfy`, `Download*.dfy` | the files that a download can leave when it succeeds |
| `Mirror*.dfy` | the recursive directory download |

**The transfer engine** is a transition system. Every goroutine, channel operation, partial write, save and crash is a
step of its own, and a theorem about `Path` holds of every interleaving and any number of crashes and restarts of the
same transfer (same source, target, size and chunk size). The stored state to start from is arbitrary but sound; the
code itself never creates a first one, since a fresh run has no state to record into. An upload's abandoned writes may
still land in later runs. The parts of the code that loop or update fields are methods on classes and arrays, each
proved against a function of the old state.

**The RPC layer** is a second transition system, over a multiset of message tokens, so that a duplicated message would
be two tokens. The pool's goroutines are part of it: a runConn dials, runs a connection or has returned, and a connection
has a sender and a receiver that return separately.

**Frames** are a type, body bytes and payload bytes. Whether a body decodes is a parameter. Compression, sealing, CRC-32
and SHA-256 are parameters with the laws they are used under: decompression undoes compression, opening undoes sealing
under the same key, a box of one of two given keys does not open under the other, the digest is injective where equality
is concluded from it. `LawsCanBeMet` shows that the laws of the codecs can be met.

Where the code and its comments disagree, the model follows the code, and the difference is a theorem:

- `DecodePre` does not look at the magic bytes, although its comment says so (message/message.go:323-327), and
  `handleReceive` looks at those of the first frame only. `ParsersAgreeIffAllMagic` says exactly when the two parsers see
  the same frames, and `SecondFrameWithoutMagic` gives a stream on which they do not.
- The comment on `processChunks` says that the first error cancels the other chunks (transfer.go:175-179). During
  `wg.Wait` nobody reads the error channel, so with more than `batch` failing chunks it may wait forever.
  `ReturnsIffFewCanFail` gives the exact bound for runs without cancellation, crash or lost response, `Wedges` the
  schedule.
- Even a single lost response is waited for until the context is done: `LossCanHang`. Without a cancellation only a
  transfer that has nothing left to move is sure to return: `LiveReturnsIff`.
- Cancelling does not always end it either, for two reasons. A goroutine that has looked at its context and then offers
  its call to processMsg, which returns with the context, waits forever: `CancelCanStrand`. And the loop sends to the
  progress channel without watching the context (transfer.go:201, 219), whose consumer leaves with it, so a transfer
  that resumes can wait forever on the next completed chunk: `CancelCanJam`. `JamsIffLateCompleted` says exactly which
  stored states allow that. `TransferHang.CancelledReturnsIff` says which transfers are sure to return once cancelled:
  those that have nothing left to move and at most `batch` chunks.
- The comment on `processChunks` also says that nil means success. A goroutine that sees the cancellation of the parent
  before it has a slot returns silently (transfer.go:230), so nil may be returned with nothing moved, and the caller
  then deletes the state file: `NilWithoutMoving`. `NilMeansDoneIffNothingLeft` and `ResultSound` say when nil can be
  trusted. `OutcomesAreCopies` gives all the files that a download can leave with a nil result, cancelled or not.
- The recursive download inherits that: it may succeed with one file empty or incomplete, if the context was cancelled
  and hashes are not checked (cp_from_host_dir.go:76-79). That file is the last thing the walk comes to, since after it
  no request is answered: `LastLeftEmpty`. `SuccessMirrorsIff` is the exact condition under which success of a walk of
  fresh downloads means a mirrored tree.
- The RPC methods say that they return when the context is cancelled (client.go:421-423). They do not watch it until the
  request is forwarded: `ReturnsIffTaken` is the exact condition, `CancelledCallCanHang` a run in which they do not.
- runConn is documented to reconnect by itself (client.go:193-194). It waits for both goroutines of the old connection,
  of which one notices the drop only when it next writes and the other may be waiting for processMsg. So a request can
  be lost on a connection that dropped before it was made, and the three waits can close a circle that no reconnect
  breaks: `AnsweredIffSurvives` and `DropsCanDeadlock`. That circle takes `2*batch+1` calls that wait at the same time
  (`DeadlockIffCalls`), more than one transfer makes.
- A successful upload over a longer file keeps the old bytes beyond the source's length; `UploadResult` says so and gives
  the exact condition for equality.
- `pending` in the resume state is never emptied (transfer.go:127-144), so after `batch` additions every addition saves.
  `UnsavedBound` and `AddThenReload` hold with that.

## Model

| member | source | states |
|---|---|---|
| Codec.EncodeMsg | message/message.go:312-321 | the header array is filled in place with the magic bytes, the type byte and the two big-endian sizes; the body is returned as encoded |
| Codec.Uint32OfBigEndian | message/message.go:318-319 | reading back a size field gives the size modulo 2^32, the width the conversion keeps |
| Codec.BigEndianOfUint32 | message/message.go:365-366 | every four bytes of a size field are the encoding of the number read from them |
| Codec.DecodePreAfterEncodeMsg | message/message.go:327-371 | for every type and lengths, decoding an encoded header returns the type and the sizes modulo 2^32, and accepts it exactly when those are within 2^16 and 2^24 |
| Codec.EncodeMsgAfterDecodePre | message/message.go:327-371 | an accepted header is the one the encoder writes if and only if its magic bytes are right, which the decoder does not check |
| Codec.TypesInOrder | message/message.go:17-32 | the fourteen types have the numbers 0 to 13, each request followed by its response |
| Codec.HeaderLayout | message/message.go:312-321 | byte by byte: the two magic bytes, the type, then body and payload size, each modulo 2^32 with its highest byte first |
| Codec.DecodePreErrors | message/message.go:327-371 | a header is refused for too few bytes, then for a type above 13, then for a size above 2^16 or 2^24, and otherwise gives the sizes its bytes spell |
| Codec.StreamUniquelyDecodable | message/message.go:284-292 | two lists of frames within limits with the same concatenated encoding are equal |
| Framing.FragmentationIndependence | serve.go:187-206 | any reader whose verdicts are stable under more bytes gives the same frames, leftover and verdict however the stream is cut into pieces |
| Framing.ParseOfEncodedStream | client.go:316-326 | a reader that takes each frame whole has, after n bytes of an encoded stream, read exactly the frames that fit in them |
| Framing.ArrivedIsWhatFits | client.go:316-326 | the count of arrived frames is the largest k whose k encodings fit in the first n bytes |
| ServerStream.ReadMessage | message/message.go:254-282 | a message is returned with exactly its header, body and payload consumed; any other outcome consumes nothing |
| ServerStream.ReadsExactlyEncodedFrames | message/message.go:254-282 | a frame is delivered, taking n bytes, if and only if the buffer starts with its n-byte encoding, it is within limits and its body decodes |
| ServerStream.ProperPrefixIncomplete | message/message.go:294-302 | no proper prefix of an encoded frame is delivered or rejected |
| ServerStream.ServerConn.OnTraffic | serve.go:191-206 | one callback dispatches every complete frame in the buffer, in order, and keeps the rest or closes |
| ServerStream.ServerConn.Serve | serve.go:191-206 | over a whole connection, the dispatched messages depend only on the concatenation of the pieces that arrived |
| ServerStream.ServerDispatchesArrivedFrames | serve.go:187-206 | after n bytes of an encoded stream exactly the frames within them were dispatched |
| ServerStream.ServerConservesBytes | message/message.go:254-282 | the dispatched frames, encoded again, and the bytes not yet taken are the stream; only legal frames are dispatched |
| StreamVerdicts.ParseStops | serve.go:191-206 | either end stops where its reader waits for more of what is left, or has closed the connection because what is left was refused |
| StreamVerdicts.ServerVerdicts | message/message.go:254-282 | wrong magic bytes are refused as soon as two bytes are there, a bad header as soon as it is whole, a body that does not decode as soon as its frame is whole; the server waits exactly while there is no whole header, and then while the frame it announces is not whole |
| StreamVerdicts.ClientVerdicts | client.go:335-408 | the client looks at the magic bytes of the first frame, at the sizes when the header is whole, at type and body when the frame is; it waits exactly until then |
| ClientStream.Read | client.go:345-350 | one network read takes some of the available bytes into the buffer, at least one if it can, and touches nothing else |
| ClientStream.Receiver.Iterate | client.go:335-408 | one turn of the loop consumes a prefix of the available bytes, and the machine's state stays the parse of all bytes consumed |
| ClientStream.Receiver.ReadHead | client.go:340-358 | header bytes are appended; the magic bytes are checked once, and a failed check is a rejection of the stream |
| ClientStream.Receiver.Allocate | client.go:359-367 | oversized headers are rejected, otherwise buffers of the announced sizes replace the old ones; an empty body leaves the machine where it was |
| ClientStream.Receiver.ReadBody | client.go:368-377 | body bytes are appended to the bytes of the current frame |
| ClientStream.Receiver.ReadPayload | client.go:378-387 | payload bytes are appended to the bytes of the current frame |
| ClientStream.Receiver.Deliver | client.go:388-406 | a whole frame is delivered with its type, body and payload, or rejected, and the machine starts over |
| ClientStream.Receiver.SettledStateIsParse | client.go:327-409 | whenever the machine is about to read, it has delivered exactly the frames of the bytes consumed and holds exactly the bytes of the frame under way |
| ClientStream.Receiver.HandleReceive | client.go:327-409 | for reads of any lengths, what is delivered depends only on the bytes read; if every read can get something, two turns of the loop for each byte are enough to read the stream to its end, unless it closes or spins |
| ClientStream.Receiver.ReceiveFrames | client.go:327-409 | on an encoded stream cut off anywhere, however it is read, the machine delivers exactly the frames that arrived |
| ClientStream.ClientDeliversArrivedFrames | client.go:327-409 | after n bytes of an encoded stream with non-empty bodies exactly the frames within them were delivered |
| ParserAgreement.ServerFramesAreMagicRun | message/message.go:254-282 | on any bytes, the server's frames are the longest prefix of the client's whose headers carry the magic bytes |
| ParserAgreement.ParsersAgreeIffAllMagic | client.go:351-358 | the server's frames are a prefix of the client's, and equal if and only if every frame the client delivers has the magic bytes |
| ParserAgreement.SecondFrameWithoutMagic | client.go:333-358 | a second frame without magic bytes reaches the client's caller and not the server's handlers |
| Chunks.DispatchLoop | transfer.go:203-244 | the loop hands out exactly the ranges of the tiling whose offset is not completed, skips and reports the others, and does nothing when the start is past the end |
| Chunks.TilesPartition | transfer.go:203-244 | the ranges partition the file from the start offset to its size, each non-empty and no longer than a chunk |
| Chunks.PartitionOrdered | transfer.go:213-216 | two ranges never overlap, and later ones lie further on |
| Chunks.PartitionEnds | transfer.go:213-216 | no range goes beyond the file's size, so offsets cannot overflow |
| Chunks.PartitionCovers | transfer.go:203-244 | every position between the start offset and the size is in some range, and no other is |
| Chunks.TilesCount | transfer.go:203-244 | there are as many ranges as the remaining size divided by the chunk size, rounded up |
| Chunks.TilesOffset | transfer.go:242-243 | range k starts k chunks after the start offset |
| Chunks.DispatchLosesNothing | transfer.go:218-244 | handed out and skipped ranges are together the whole tiling, each once |
| Chunks.DispatchSplitsByCompleted | transfer.go:218-223 | a range is skipped if and only if its offset is completed |
| Files.WriteKeepsRight | serve.go:537-548 | writing any piece of the source at its own place leaves correct what was correct |
| Files.CopyInOrderIsCopy | cp_to_host.go:80-94 | the left-to-right copy, the reference for all schedules, yields the source and then the old bytes beyond its length |
| ResumeStore.LoadResumeState | transfer.go:57-80 | a state is returned exactly when a file is there with version 1 and this size and chunk size, and it holds the listed set with nothing pending |
| ResumeStore.SortOffsets | transfer.go:94-98 | the saved list is strictly increasing and holds the same offsets |
| ResumeStore.SaveResumeState | transfer.go:85-115 | on success the state file lists exactly the completed set in increasing order; on failure the old file stays |
| ResumeStore.AddCompletedOffset | transfer.go:130-144 | the offset joins the set and the pending list, and the state is saved exactly when batch additions are pending |
| ResumeStore.FlushResumeState | transfer.go:149-160 | saves if anything is pending, else changes nothing |
| ResumeStore.DeleteResumeState | transfer.go:120-125 | removes the state file of this transfer and nothing without a state |
| ResumeStore.IncreasingUnique | transfer.go:94-98 | a set has only one strictly increasing list, so the saved file is determined by the set |
| ResumeStore.LoadAfterSave | transfer.go:57-115 | loading what was saved restores the set for the same transfer and nothing for another or another version of the file |
| ResumeStore.AddThenReload | transfer.go:127-144 | after any additions with successful saves, a crash and a reload, nothing earlier is lost and fewer than batch additions are |
| TransferSafety.StepKeepsFiles | cp_to_host.go:80-93 | every step keeps the write-before-record invariant over target, state file, memory and goroutines |
| TransferResults.CrashSafeResume | transfer.go:57-144 | over every run with crashes and restarts, each offset completed on disk or in memory has its chunk equal to the source in the target |
| TransferResults.ResultSound | transfer.go:206-256 | under a live parent context nil means every chunk not completed before had its callback return nil, and an error is one that some callback returned |
| TransferResults.NilMeansCopied | transfer.go:180-257 | when processChunks returns nil under a live parent context, the target's first bytes are the source |
| TransferResults.UploadResult | serve.go:454-485 | every schedule of an upload ends in the bytes of the left-to-right copy, which equal the source if and only if the old file was no longer |
| TransferResults.FreshDownloadResult | cp_from_host.go:65-81 | a download that starts without a usable state and succeeds under a live parent leaves exactly the source |
| TransferProcess.ResumedResult | cp_from_host.go:73-80 | a session that resumes from a state file and succeeds under a live parent leaves the source and then what the target held beyond it, which is the source if and only if the target was no longer |
| TransferCancel.NilWithoutMoving | transfer.go:226-232 | whatever is still to be moved, there is a run in which the parent is cancelled, processChunks returns nil, every chunk still to move was given up, the target is as it was at the beginning, and the caller may delete the state file |
| TransferCancel.EmptySuccess | cp_from_host.go:65-167 | for a fresh download without hash checking there is a run in which the parent is cancelled and it succeeds with an empty file in place of any source |
| TransferCancel.NilMeansDoneIffNothingLeft | transfer.go:175-179 | nil alone means that every chunk is done if and only if there was none left to move |
| TransferResults.VerifiedSuccess | transfer.go:271-310 | with the hash check on, success means equality, whatever happened on the way |
| TransferResults.SavedSetsGrow | transfer.go:82-125 | a saved set is only ever replaced by a larger one, and only forgotten after success |
| TransferResults.PathKeepsTail | serve.go:470-484 | nothing but a truncating fresh download changes bytes beyond the source's length |
| TransferStore.UnsavedBound | transfer.go:130-144 | with successful saves at most 2*batch-1 recorded offsets are unsaved at any moment, and fewer than batch when nobody is recording |
| TransferFlush.FlushSavesAll | transfer.go:149-160 | over every run, whatever earlier saves did: when all goroutines are through and the flush goes through, the state file lists exactly what was recorded, whether nil or an error is returned; a flush that fails leaves the file |
| TransferFlush.NilMeansSaved | transfer.go:247-256 | nil without a failed save means that nothing recorded is missing from the state file, and a restart loads exactly that |
| TransferFlush.WhoWritesDisk | transfer.go:82-160 | the state file changes only by a save of a recording goroutine, the flush or the deletion after success, and to what is in memory or away |
| TransferErrors.FirstErrorReturned | transfer.go:206-256 | over every run of a process the error returned is the first that any goroutine put into the error channel, and nil is returned only if none did |
| TransferErrors.NothingStartedAfterError | transfer.go:205-211 | once an error is in the channel, the process starts no further chunk |
| TransferErrors.ErrorIsNext | transfer.go:205-211 | at the loop with an error waiting, returning it and cancelling is the only thing processChunks can do |
| TransferErrors.ChannelsBounded | transfer.go:192-195 | over every run at most batch errors and batch+1 progress values are in the channels, and at most batch goroutines at work |
| TransferErrors.FailsOnlyIf | cp_to_host.go:112-145 | a callback fails only if it finds its context done, its last attempt fails, or what is not retried fails: reading the source before any attempt, decoding or the local write after a read |
| TransferErrors.OutsideIsFree | transfer.go:192-257 | crashes, cancellations, failing saves, lost responses and partial writes are possible wherever the code is |
| TransferWrites.UploadShowsSource | serve.go:470-484 | over every run of an upload the target is at every moment the old file, or a new one of the source's size in zeros, with some of the source's bytes in their places |
| TransferWrites.BeginIs | cp_from_host.go:65-81 | a resumed download needs its target, a fresh one truncates, an upload creates a file only if there is none, and what the state file lists is loaded |
| TransferWrites.FailedSizingStays | serve.go:474-480 | a create whose sizing fails leaves an empty file, which the next attempt takes as it is |
| TransferWrites.LeftBehindIff | cp_to_host.go:124-143 | exactly the requests of an upload that its attempt or its process gives up are left under way |
| TransferWrites.LeftBehindUntil | cp_to_host.go:124-143 | it stays under way until it is dropped |
| TransferWrites.LeftBehindLands | serve.go:537-548 | such a request can still write any part of its chunk after the process is gone |
| TransferWrites.DownloadStaysDead | cp_from_host.go:140 | after the end of a download's process nothing happens to its target until it begins again |
| TransferLiveness.StepKeepsLive | transfer.go:192-257 | every undisturbed step keeps the bounds on errors, semaphore slots and progress on which returning depends |
| TransferLiveness.MeasureFalls | transfer.go:192-257 | every undisturbed step lowers a natural number |
| TransferLiveness.NeverStuck | transfer.go:192-257 | with at most batch chunks that can fail, an unfinished transfer always has a step |
| TransferLiveness.ConsumerLeavesLast | progressbar/progressbar.go:22-42 | the progress consumer is gone if and only if every chunk's bytes were reported and counted, so no sender blocks on it |
| TransferReturns.CalmRunsAreFinite | transfer.go:192-257 | an undisturbed run that has not returned is no longer than the measure |
| TransferReturns.Wedges | transfer.go:235-256 | with more than batch chunks that can fail there is a run that ends in waiting forever |
| TransferReturns.ReturnsIffFewCanFail | transfer.go:192-257 | undisturbed by a crash, a cancellation or a lost response, the transfer can return from every state it reaches if and only if at most batch of the chunks still to move can fail |
| TransferJam.JammedForever | transfer.go:218-220 | once the loop waits to report a completed chunk on a full progress channel that nobody reads, it waits until the process dies |
| TransferJam.CancelCanJam | transfer.go:195-223 | if a completed chunk has at least batch chunks before it, there is a run in which the parent is cancelled and the loop waits so forever |
| TransferJam.RoomBefore | transfer.go:195-223 | whenever the loop reports a completed chunk, the progress channel holds at most the first value and one for each chunk before it |
| TransferJam.JamsIffLateCompleted | transfer.go:195-223 | the loop can come to wait so if and only if some chunk completed in an earlier run has at least batch chunks before it |
| TransferJam.TakenReturnsIff | transfer.go:192-257 | from every state that the process reaches with its parent cancelled and every call that was made taken by processMsg, it can return, if and only if there is no such chunk |
| TransferHang.StrandedForever | transfer.go:245 | once wg.Wait waits for a goroutine whose call processMsg will never take, it waits until the process dies |
| TransferHang.CancelCanStrand | cp_to_host.go:118-123 | if anything is left to move, there is a run in which the parent is cancelled between a goroutine's look at its context and processMsg's taking its call, and wg.Wait waits so forever; the RPC layer has a run in which such a call never returns |
| TransferHang.CancelledReturnsIff | transfer.go:192-257 | from every state the process reaches with its parent cancelled it can return, if and only if every chunk was loaded as completed and there are at most batch of them |
| TransferHang.LossCanHang | client.go:482-495 | if anything is left to move, there is a run without a cancellation that comes to wait for a response that is lost; the RPC layer has a run in which the connection of a single call drops and no later run answers it |
| TransferHang.LiveReturnsIff | transfer.go:192-257 | from every state the process reaches without a cancellation it can return without one, if and only if every chunk was loaded as completed |
| CallFates.HungUntilCancelled | client.go:488-494 | a call whose response is lost stays so while the context lives, and returning is its own next step once it is done |
| CallFates.UntakenIsCancelled | client.go:95-101 | unless more than 2*batch calls wait, a call is untaken for good only once the context is done |
| Callbacks.HandleWrite | serve.go:507-549 | success if and only if the payload decodes and the write succeeds; the file gets the decoded bytes at the offset |
| Callbacks.UploadFileChunk | cp_to_host.go:112-145 | only bytes of the chunk are ever written; nil means the chunk is in the file, and comes if and only if the keys suffice and some attempt is reached under a live context and accepted; at most maxRetries+1 attempts |
| Callbacks.ReadWithRetries | cp_from_host.go:92-121 | a response is used if and only if some attempt is reached and brings a usable one; altered responses are retried |
| Callbacks.Decode | cp_from_host.go:125-137 | a usable response decodes to the bytes the server read, or to an error if they were sealed under another key |
| Callbacks.DownloadChunk | cp_from_host.go:87-150 | only bytes of the chunk are ever written; nil means the chunk is in the file and its length was reported, and comes if and only if the keys suffice, a usable response is reached and the local write succeeds; a response that does not decode is not retried and changes nothing |
| CallbackRuns.UploadFollows | cp_to_host.go:112-145 | whatever happens to the attempts, the goroutine of the transition system has a path with the same bytes in the target, the same result and nothing else changed |
| CallbackRuns.DownloadFollows | cp_from_host.go:87-150 | the same for the download callback, with its retries, decoding and local write |
| Callbacks.OnlySourceKeepsRight | cp_to_host.go:112-145 | whatever attempts do to the file, other chunks that were correct stay correct |
| Callbacks.SomeLink | client.go:183-185 | the laws a link is assumed to meet can be met, for any two keys |
| CallbackErrors.UploadErrorIs | cp_to_host.go:117-144 | nil exactly if some attempt is made and accepted; the context's error exactly if it is found done before or between attempts; otherwise the last attempt's |
| CallbackErrors.AttemptWrites | cp_to_host.go:124-133 | an attempt whose request arrives under agreeing keys writes the beginning of its chunk, or all of it, even if the answer is lost; any other writes nothing |
| CallbackErrors.UsableIff | cp_from_host.go:100-107 | a response is used unless checksums are on, it carries one, and its payload has another |
| CallbackErrors.ReadErrorFrom | cp_from_host.go:92-121 | the read loop ends with the first usable response it reaches, the context's error if that is found done before, or the last attempt's error |
| CallbackErrors.DownloadErrorIs | cp_from_host.go:119-150 | the callback's error is the loop's, then a decoding error if the keys do not agree, then the local write's, which alone leaves something in the file |
| Progress.Progress | progressbar/progressbar.go:22-42 | the consumer stops at the first prefix of what it receives that sums to the total |
| Progress.ConsumerNeedsEverySend | cp_to_host.go:85-88 | in every order of completion and skipping the contributions sum to the file size and every shorter prefix is below it |
| Rpc.Hub.GenMsgID | client.go:417-419 | the counter grows by one and the new value is the ID |
| Rpc.Hub.Process | client.go:97-115 | a request is cached under its ID and sent on under it; a response goes to the cached channel and its entry is deleted, and is ignored without one |
| RpcHub.SentComesBack | client.go:97-115 | whatever is cached and whatever messages with other IDs come in between, a request is sent on under its own ID, and the response to the ID that was sent goes to its caller |
| RpcHub.RoutedByLastRequest | client.go:97-115 | over every sequence of messages a response goes to a caller exactly if the last message with its ID was that caller's request, and is ignored exactly if there is no such caller |
| RpcSafety.StepKeepsInv | client.go:95-116 | every step of callers, router, connections and server keeps at most one token per ID, carrying its caller's request or the response that executing it made |
| RpcSafety.ResponsesMatch | client.go:399-402 | over every run no caller gets another request's response; what it gets was made by executing its own request, once |
| RpcSafety.ExecutedAtMostOnce | serve.go:208-270 | over every run each ID is executed at most once, with the request it was drawn for |
| RpcSafety.AnsweredOnce | client.go:438-445 | a call that got its response keeps it over every later run |
| RpcSafety.CacheIsUnrouted | client.go:96-112 | over every run the keys of resCache are exactly the forwarded calls whose response was not routed yet |
| RpcRuns.AnsweredIffSurvives | client.go:193-237 | over every run, with any pool, a caller waiting under a live context can still be answered if and only if: its request is held by processMsg and some runConn dials or can come to dial again, or has a working connection; or its message is on a working connection or in a socket not closed; or its response is in handleReceive's hands and processMsg is not waiting for a sender that never comes |
| RpcAnswers.LostForever | client.go:292-314 | otherwise no later run answers the caller, whatever reconnects |
| RpcAnswers.BlockedStays | client.go:193-237 | once no sender will ever take processMsg's request, it stays so: the pool's two waits and processMsg's hold each other |
| RpcReturns.BlockedForever | client.go:95-116 | in that deadlock no call is answered any more and none is taken, in any later run |
| RpcDeadlock.DropsCanDeadlock | client.go:193-237 | the deadlock is reachable under a live context with any pool: two calls for each connection and one more wait, every receiver holds a response, every sender has failed, and nobody is ever answered |
| RpcCallers.DeadlockIffCalls | client.go:95-116 | a run under a live context can come to the deadlock with at most n calls waiting if and only if n is at least 2*batch+1 |
| RpcCallers.FewCallsAreTaken | client.go:482-487 | over every run under a live context with at most 2*batch calls waiting, a call that processMsg has not taken can still return |
| RpcCallers.DropCanBereave | client.go:301-311 | with any pool there is a run of a single call whose connection drops, after which no run answers it |
| RpcPool.PathKeepsOrderly | client.go:187-237 | over every run there are always batch runConn goroutines, each token is in one goroutine's hands at most, and that goroutine is running |
| RpcReturns.ReturnsIffTaken | client.go:421-446 | over every run, context done or not, a call can return if and only if it was forwarded already, or processMsg runs and is not stuck with a request no sender takes or a response whose caller left; once forwarded and cancelled, returning is its own next step |
| RpcReturns.CancelledCallCanHang | client.go:421-446 | with any pool, a call made as processMsg stops never returns although its context is done |
| RpcEnds.StopsIdle | client.go:95-116 | over every run, every request and response that processMsg took is passed on before it returns |
| RpcEnds.PoolEndsIff | client.go:193-237 | over every run, once processMsg has returned every runConn can return too, if and only if no handleReceive holds a response, which nobody would take from it |
| RpcEnds.StopCanLeak | client.go:398-402 | with any pool there is a run that ends with such a goroutine left over |
| RpcEnds.ExecutedUnheard | serve.go:208-270 | with any pool there is a run under a live context in which a request is executed once after its connection dropped, and no later run answers its caller |
| RpcEnds.NetworkIsFree | client.go:292-314 | a connection can drop at any time, a message on a dropped one be lost, a request still arrive, and a handler answer anything |
| Pipeline.CompressRoundTrip | transfer.go:312-356 | compression never grows or empties a chunk, and decompression undoes it for every algorithm byte |
| Pipeline.EncryptRoundTrip | transfer.go:358-387 | encrypting anything costs exactly 40 bytes, nothing or no key costs none, and the same key undoes it |
| Pipeline.WriteRoundTrip | client.go:448-481 | for all data, algorithms, encryption and checksum choices the write handler recovers the bytes the client read |
| Pipeline.ReadRoundTrip | serve.go:582-613 | for all data and choices the download callback recovers the bytes the server read |
| Pipeline.LawsCanBeMet | transfer.go:358-387 | for any two keys there are codecs that meet the laws assumed of them |
| Pipeline.UnpackUnderKey | transfer.go:358-387 | if boxes of one key do not open under another, what was packed under the one and is unpacked under the other is the data if nothing is encrypted or the keys are equal, and an error otherwise |
| Pipeline.KeysMustAgree | serve.go:513-529 | an upload's bytes get through if and only if nothing is encrypted or the keys are equal, and are refused otherwise |
| Pipeline.ChunkFitsFrame | message/message.go:49-50 | every chunk up to 2^24-40 bytes gives an accepted payload, and uncompressed encrypted chunks no larger |
| Pipeline.GzipIffSmaller | transfer.go:315-337 | gzip output is sent exactly if gzip is asked for and makes a non-empty chunk smaller; otherwise the chunk itself, marked as such |
| Pipeline.SealedIffAsked | client.go:460-474 | with encryption on, what would be sent plainly is sealed under the key and the nonce sent before it |
| Pipeline.AlteredWriteRefused | serve.go:507-511 | a write carries its payload's checksum exactly if checksums are on and there is a payload; one altered on the way is refused exactly if that is not zero and the altered payload's differs |
| Pipeline.AlteredReadRefused | cp_from_host.go:100-107 | a read response always carries its payload's checksum; one altered on the way is refused exactly if checksums are on, that is not zero and the altered payload's differs |
| Pipeline.UnpackAtTheEdges | transfer.go:339-387 | unknown flags leave a payload alone, an encrypted one too short for its nonce is refused, and nothing unpacks to nothing |
| Auth.AuthServer.Handle | serve.go:305-419 | one authentication request changes the session store and the connections as the protocol's reference function says |
| Auth.RunKeepsKeyed | serve.go:320-325 | over every run each session and each authenticated connection has a key |
| Auth.RunKeepsSession | auth.go:77-120 | over every run a session once stored keeps its user, home and key |
| Auth.PoolSharesClientKey | client.go:183-185 | after any further requests, a pool connection presenting the client's token is authenticated with the key the client derived |
| Auth.AuthenticatedMeansChallenged | serve.go:334-375 | over every run an authenticated connection acts for the user and home directory found for a key that signed a challenge issued earlier on the connection that signed it, and uses a key derived from that one |
| AuthLogin.LoginIff | serve.go:305-419 | from any state and with any requests on other connections in between: a connection gets in exactly if it names a key, a challenge is made, and its answer's signature on that challenge proves a key with an account; it then acts for that account under the key derived, and a session others can join is stored; otherwise it is closed |
| AuthLogin.ChallengedIff | serve.go:386-419 | a request with neither token nor signature is challenged exactly if it names a key and a challenge can be made |
| AuthLogin.GrantedIff | serve.go:334-383 | a signature is accepted exactly if the connection has a pending challenge and it proves a key with an account |
| AuthLogin.TokenJoins | serve.go:308-331 | a token is accepted exactly if a session has it, whatever else the request holds, and the connection joins that session |
| AuthLogin.RefusedIsClosed | serve.go:305-419 | a refusal closes the connection and changes nothing else; any other answer changes that one connection only |
| AuthGate.ServedIff | serve.go:218-230 | a file request is served exactly on an authenticated connection; any other connection that makes one is closed |
| AuthGate.ServedMeansChallenged | serve.go:208-270 | over every run of messages whoever is served acts for an account whose key signed a challenge issued earlier, with the key derived from it |
| SecureSession.JoinedConnectionCarries | client.go:183-185 | after login and any further requests, what a client packs under its own key the joined connection's handlers unpack, and the other way round; encrypted data of a stranger is refused |
| FdCache.Cache.Get | serve.go:83-116 | the returned descriptor is open, on the path, writable if asked, and cached; it is had exactly when the path can be opened; a cached one that suffices is used again, and a failed upgrade loses the entry |
| FdCache.Cache.Evict | serve.go:119-126 | the entry is gone and its descriptor closed |
| FdCache.Cache.SweepIdle | serve.go:143-162 | exactly the entries idle for longer than the timeout go |
| FdCache.Cache.CloseAll | serve.go:129-139 | no descriptor is left open and none was closed twice |
| FdCache.Cache.OpenAreCached | serve.go:57-66 | under the invariant every operation keeps, the open descriptors are exactly those in the map |
| FdCache.Server.HandleCreate | serve.go:454-486 | an existing file is left alone, whatever its size; a new one has the requested size in zeros, or is empty if none is requested or sizing fails; a directory at the path, one that cannot be made above it, or a failing Stat is a failure that changes nothing |
| FdCache.Server.HandleWrite | serve.go:537-548 | reply and file are those of opening the path afresh; a failed write evicts |
| FdCache.Server.HandleRead | serve.go:570-587 | the reply is that of opening the path afresh: a short read is data, an empty one with an error a failure, and a size that is negative or too large to allocate a crash |
| FdCache.Server.HandleHash | serve.go:738-769 | the digest is of the whole file wherever the shared position was, seek and read errors are failures, and the entry is gone afterwards |
| FdCache.Server.Run | serve.go:83-161 | over every sequence of requests and sweeps the replies and files are those of opening afresh each time, where only a request that finds no descriptor left may go unserved; only a crash ends the run early, and otherwise closing leaves nothing open; nothing is ever closed twice |
| FdCache.WriteThenRead | serve.go:537-589 | what a write reports as written, a read of the same range returns, if its buffer can be allocated |
| FdFiles.UploadThroughHandlers | serve.go:454-548 | a create and then the chunks of a source, in any order and any of them repeatedly: every request succeeds, the file is the source and what an old file held beyond it, no other file differs, and a hash is of that |
| FdFiles.WriteIs | serve.go:537-548 | a write succeeds exactly if the file can be opened for writing, the offset is not negative and the system does not fail; the file then holds the data in its range, the old bytes elsewhere and zeros in a gap; a failure leaves a beginning of that |
| FdFiles.ReadIs | serve.go:570-587 | a read gives all there is of its range; it fails exactly if that is nothing although something was asked for, or the file cannot be opened |
| FdFiles.CreateIs | serve.go:454-486 | a create leaves an existing file, makes and sizes a new one in zeros, leaves it empty if sizing fails, and fails exactly in the cases named |
| FdFiles.HashIs | serve.go:738-769 | a hash is of exactly what the file holds, and changes nothing |
| MirrorWalk.WalkRemoteDir | cp_from_host_dir.go:33-92 | the loop and its recursion, which ends with the tree, leave the files and directories of the walk over the tree as a function, whatever is refused, fails or is cut short on the way |
| MirrorWalk.WalkIsSound | cp_from_host_dir.go:33-92 | success merges exactly the remote subtree's files into the local ones, each as its download leaves it, and whole with hash checking; in any case no other file differs |
| MirrorWalk.NodeCutsLast | cp_from_host_dir.go:69-92 | in a walk that succeeds, a file whose download was cut short is the last thing the walk comes to, and no earlier download found the context done |
| MirrorCopy.CpDirFromHost | cp_from_host_dir.go:15-27 | success leaves each remote file at the matching local path: always with the same bytes if hashes are checked; if its download was not cut short, which takes a cancelled context, with the same bytes if and only if it did not resume on a longer file; if it was, with some of them, and then it is the last thing the walk comes to; every remote directory is at its place too; in any case no other local file appears, disappears or changes, and no directory is new but those and those on the way to the target |
| MirrorDirs.FailureStops | cp_from_host_dir.go:69-92 | a walk of a directory's entries that fails does so at its last step: the entries before succeeded, and nothing is changed at the places of later ones |
| MirrorDirs.FailedDownloads | cp_from_host.go:61-81 | a download after a cancellation, onto a directory or resumed without its file changes nothing; one that fails later changes its own place only |
| MirrorDirs.FailedOpen | cp_from_host_dir.go:45-47 | a directory cannot be made if the system refuses or a file is in the way; otherwise it and all on the way to it are there |
| MirrorSuccess.WalkSucceedsIff | cp_from_host_dir.go:33-92 | a walk of fresh downloads with nothing local in its way succeeds if and only if no request, system call or download at any of the tree's paths fails, and no download is cut short but, without hash checking, that of the last thing it comes to |
| MirrorSuccess.SuccessMirrorsIff | cp_from_host_dir.go:69-92 | success of a walk of fresh downloads means that every file has its bytes if and only if hashes are checked, or the context is not cancelled, or the last thing the walk comes to is not a non-empty file |
| MirrorSuccess.LastLeftEmpty | cp_from_host.go:152-167 | under a cancelled context and without hash checking, a walk into an empty place that comes to a file last can succeed and leave that file empty, and all the others whole |
| MirrorDownloads.DownloadIsTransfer | cp_from_host.go:22-168 | the download of a file, as the walk has it, can succeed and leave some bytes if and only if a run of the transfer system can, under a context that is cancelled or not as the walk's is |
| DownloadRuns.OutcomesAreCopies | cp_from_host.go:65-167 | a download can succeed and leave some file if and only if: with hash checking, it is the source and what a resumed download found beyond it, and passes; otherwise, it is a copy of beginnings of chunks not completed before onto the old file, with at most batch chunks neither whole nor missing, and those only if their local write can fail |
| DownloadRuns.LiveOutcomeIsSource | cp_from_host.go:65-167 | without a cancellation, there are successful runs that leave a file if and only if it is the source and what a resumed download found beyond it |
| PartialCopy.AllParts | cp_from_host.go:140 | copying all chunks but those that are right already yields the source and the old bytes beyond it |
| Mirror.FilesOfIsLookup | cp_from_host_dir.go:69-90 | the files a walk produces are exactly those found by looking remote paths up, with their bytes |

## Left out

- Library internals: CBOR, JSON, gzip, secretbox, CRC-32 and SHA-256 are parameters with stated laws.
- SSH configuration, key files, the agent and the account lookup; of signatures only the check's outcome remains.
- `cpDirToHost`: it sends directories without `IsDir`, so the server makes regular files there and there is no tree-upload theorem to state.
- Command line, globbing, address parsing and listing: string work.
- Session expiry: the lifetime is declared and not used.
- Deadlines, backoff times and logging: a timeout is a connection that drops at any moment, and dialling takes any time.
- Progress bar rendering, terminal width and floating point.
- File modes, symbolic links, power loss, and changes to the files from outside during a transfer.
- Runs of the same transfer with another chunk size: they start fresh and leave the old state file behind.
- The state file's path and the temporary file it is renamed from: a save either replaces the stored list or does not.
- The retry loop around Stat before a download: the same loop as around Read, with nothing written.
- Goroutines of a cancelled transfer that outlive processChunks inside one process: between runs only abandoned upload writes remain.
- Path sandboxing in the handlers: paths are those after it.
- ClientStream.Receiver.HandleReceive: a read error or the end of the context ends a run of the model and is no step of its own.
- ClientStream.ClientDeliversArrivedFrames: assumes non-empty bodies, because on an empty body the code loops without reading.
- RpcRuns.AnsweredIffSurvives: says who can be answered, in the runs where the server answers and dialling succeeds; fairness of the network is not modelled.
- Rpc.Hub.GenMsgID: does not model the wrap-around of a 64-bit counter.
- RpcSafety.ResponsesMatch: one client; the order of messages within a connection is not used, so all orders are covered.
- Auth.PoolSharesClientKey: assumes that random tokens do not repeat.
- Auth.RunKeepsSession: assumes that random tokens do not repeat.
- Callbacks.ReadWithRetries: assumes that a response altered on the way fails its checksum.
- Callbacks.DownloadChunk: assumes that a response altered on the way fails its checksum.
- FdCache.Cache.Get: a handler is one atomic step, so a descriptor closed by another worker between get and its use is not modelled.
- The branch of the create handler that makes directories.
- FdCache.Server.HandleRead: directories opened as files are not modelled.
- A cancellation reaches all contexts derived from the command's at once, so a request made under a done one gets no response; that it may wait forever instead of failing is not told apart, since neither is a success.
- MirrorWalk.WalkRemoteDir: a file's download is one step, a stored resume state is sound, and the tree is finite, stable and free of links.
- TransferReturns.ReturnsIffFewCanFail: says nothing of calls that do not come back; `TransferHang` does, for any number of them.
