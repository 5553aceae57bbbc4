# wrapper-v2: verified models of its protocols

wrapper-v2 is a Rust supervisor that drives a crash-prone C++ worker over two pipes and
serves decrypt clients over TCP.  This project models the parts of both programs that are
protocols or algorithms, and proves what they are for:

- **Supervisor and worker** (`SupervisorModel`, `SupervisorInvariant`, `SupervisorPipes`,
  `SupervisorProof`, `SupervisorTheorems`, `SupervisorExactly`, `SupervisorExample`,
  `SupervisorOthers`, `SupervisorCalls`, `SupervisorPids`, `WorkerObject`).  Any number of
  client threads share one worker slot behind a lock.  The model is an interleaved transition
  system: thread program counters, numbered worker processes with two byte pipes each, chunked
  and failing I/O, crashes at any point, respawn, the delayed restart, and the kill path that
  works without the lock.  One invariant is proved for every action; the theorems follow for
  every run.  `WorkerObject` is the Worker as a class, used by one thread while others interfere.
- **Deadlines** (`DeadlineIo`).  The poll, read and write loops with one shared deadline, as
  loops over a pipe that may move any number of bytes, be interrupted, or have nothing ready,
  with bounds on when each is back.
- **Wire formats** (`Bytes`, `IpcFrame`, `ByteChannel`, `IpcStream`, `SampleList`, `Utf8Text`,
  `DecryptBatch`, `DecryptReply`, `WireLayout`, `DecryptPath`, `WorkerLimits`, `ClientFrame`,
  `ClientSession`, `EndToEnd`).  Each format has
  one reference encoder and decoder, which are proved to invert each other, and whose bytes
  `WireLayout` states one by one; every reader, writer,
  parser and builder of the two programs is proved against the reference, with its own limits and
  integer widths.
- **Login** (`LoginModel`, `LoginProof`, `AccountObject`).  One caller thread and one login flow,
  with the join under the mutex, the join outside it, both condition variables, timeouts and
  spurious wake-ups.  `AccountObject` is the Account as a class whose states are those reached.
- **Algorithms** (`Base64`, `Base64Url`, `JsonText`, `JsonScan`, `KeyCache`).  The base64 encoder
  and decoder with their 32-bit accumulators, the search for the first JSON object, and the cache
  of key contexts.

Some claims that one would expect are false of the code.  For these there is a statement of
exactly when they hold, with a concrete input where they do not: padded base64url text
(`Base64Url.PaddingBecomesZeros`), a batch that the front end accepts and the worker does not
(`WorkerLimits.FourSamplesEndTheSession`, `WorkerLimits.WorkerTakesExactly`), a guard without a line of
its own (`JsonScan.GuardTakesTheObject`, `JsonScan.GuardSparesTheObject`), one cache key for two
pairs (`KeyCache.UsedForAnotherPair`, `KeyCache.OwnContextExactly`), and a second prompt for the
second factor (`LoginProof.SecondPromptReusesTheCode`, `LoginProof.PromptWaitsExactly`).  Five
more are false of the supervisor: `SupervisorExample` has a run of requests for each, and
`SupervisorExactly` says exactly when they hold.  They are that the pid names the installed worker
(`PidMissesTheInstalledWorker`, `PidNamesInstalledExactly`), that a restart takes the worker that
asked for it (`RestartTakesAnotherWorker`, `RestartTakesAskerExactly`), that the pid taken to be killed
is that of the worker with the stuck request (`KillTakesAnotherWorker`, `KillTakesTheStuckExactly`), that
a worker at work is not
abandoned (`HealthyWorkerIsAbandoned`, `HealthyIsKeptExactly`, `AbandonedForCause`), and that a reply
that has arrived is delivered (`WholeReplyIsLost`, `ArrivedIsDeliveredExactly`).  The branch
at tokens.cpp:147 means to skip `=`, but the table at tokens.cpp:133 maps it to 0; the model
follows the table.

`dafny verify dfyconfig.toml` checks the whole project.

## Model

| member | source | states |
|---|---|---|
| SupervisorTheorems.RepliesNeverCross | src/rust/worker.rs:177-254 | In every run, each Ok of request is what one worker answered to exactly the frame that this thread wrote to it, at the same place of that worker's sequence; no answer is returned twice, whatever the ids |
| SupervisorTheorems.FreeLockMeansFrameBoundary | src/rust/worker.rs:177-254 | While the lock is free, an installed worker has both pipes empty, no part of a frame buffered, and has answered all it was asked |
| SupervisorTheorems.NoMismatchedReply | src/rust/worker.rs:233-251 | A reading client never meets a bad header nor a reply to another request |
| SupervisorTheorems.WorkersAreConserved | src/rust/worker.rs:198-206 | Each worker ever spawned is in exactly one place: the slot, one thread's hands, cleanup (once), or overwritten after it was seen to have exited |
| SupervisorTheorems.RestartNeverOverwrites | src/rust/worker.rs:284-307 | The delayed restart installs only into an empty slot |
| SupervisorTheorems.TrackerAgreesWithLock | src/rust/worker.rs:314-323 | The tracked request is that of the lock holder, begun no later than now, with its deadline at most one timeout after its start; who holds the lock without a tracker finds the entry empty |
| SupervisorTheorems.OnlyOverdueIsStuck | src/rust/worker.rs:349-360 | A thread that gave up goes for the pid exactly if some request has been tracked for the whole timeout; that one holds the lock, and its own deadline has passed |
| SupervisorTheorems.KillsAreLateAndOnce | src/rust/worker.rs:349-374 | Every pid taken to be killed was a spawned worker's, was taken after the observed request's deadline, and no worker's pid is taken twice |
| SupervisorTheorems.PidNamesTheLastWorker | src/rust/worker.rs:256-307 | The published pid is 0 or that of the last spawned worker, or of the one before it between a spawn and the store that follows |
| SupervisorExactly.PidNamesInstalledExactly | src/rust/worker.rs:256-307 | Unless a spawned worker is on its way to the slot, the installed worker is the last one spawned, and the published pid is its pid exactly if it is not 0 |
| SupervisorExactly.RestartWasAsked | src/rust/worker.rs:155-175 | Who is about to restart the worker was last given a reply to a batch without the binary flag |
| SupervisorExactly.RestartTakesAskerExactly | src/rust/worker.rs:284-292 | A restart takes out the very worker whose reply asked for it exactly if there is a worker and none was spawned since |
| SupervisorExactly.KillTakesTheStuckExactly | src/rust/worker.rs:349-374 | A thread that saw a request stuck takes the pid of the worker which that request then had to do with exactly if there was one and, when the pid is taken, no later worker's pid has been stored |
| SupervisorExactly.AbandonedForCause | src/rust/worker.rs:217-251 | In every run a worker that is being abandoned has ended, or its client's time is up, or the request is too large, or the OS failed; it is never for what came over the pipe |
| SupervisorExactly.HealthyIsKeptExactly | src/rust/worker.rs:564-605 | Unless the OS fails, no next step of its client abandons a running worker exactly while the client has time or nothing to wait for |
| SupervisorExactly.ArrivedIsDeliveredExactly | src/rust/worker.rs:530-605 | Unless the OS fails, whatever any thread or worker does next leaves a reply that has arrived in full delivered or still there, exactly if it is all read, or the client has time and the worker has not ended; and the client can always go on reading |
| SupervisorCalls.RequestsAreTheCalls | src/rust/worker.rs:177-216 | In every run, the request that a thread waits with, writes or reads for has the opcode and payload of the last call that the actions say it made, the id that follows from the number of calls before, and a deadline one timeout after it; who gives up on the lock does so no sooner |
| SupervisorCalls.ResultsAreForCalls | src/rust/worker.rs:177-254 | Each Ok of request is for a frame that carries the arguments of a call which that thread made |
| SupervisorPids.LivePidsDiffer | src/rust/worker.rs:256-282 | No two workers that have not been waited for share a pid, so a pid that is killed names at most one |
| SupervisorPids.CleanedIsForgotten | src/rust/worker.rs:285-292 | A published pid is never that of a worker that was handed to cleanup or overwritten |
| SupervisorTheorems.ServesExactly | src/daemon/ipc.cpp:539-560 | A worker answers exactly a whole frame of kind request that is no shutdown, with an answer of the same id and opcode |
| SupervisorTheorems.Decisions | src/rust/worker.rs:198-209 | Where a request and the delayed restart decide: an empty slot is filled, an exited worker replaced, a worker that a restart finds is left, and the process exits exactly if there is no pid to take |
| SupervisorTheorems.WaitCountIsExact | src/rust/worker.rs:390-394 | waiting_count is the number of threads holding a WaitTracker |
| SupervisorProof.NextKeeps | src/rust/worker.rs:99-374 | Every action of a thread or a worker keeps the whole invariant |
| SupervisorProof.RunKeeps | src/rust/worker.rs:177-374 | Every run from the start satisfies the invariant |
| SupervisorExample.ARequestIsAnswered | src/rust/worker.rs:177-254 | There is a run in which a worker is spawned and a request answered |
| SupervisorExample.PidMissesTheInstalledWorker | src/rust/worker.rs:285-292 | A run in which a restart zeroes the pid after another client's request has put a worker into the empty slot |
| SupervisorExample.RestartTakesAnotherWorker | src/rust/worker.rs:163-170 | A run in which the worker that asked for a restart ends, another client's request replaces it and is answered, and the restart takes out the new one |
| SupervisorExample.KillTakesAnotherWorker | src/rust/worker.rs:350-360 | A run in which, between seeing a request stuck and taking the pid, that request gives its worker up and the next one spawns another, whose pid is taken although its request has all its time |
| SupervisorExample.HealthyWorkerIsAbandoned | src/rust/worker.rs:217-224 | A run in which a running worker that was sent nothing yet is cleaned up, because its client got the lock at its deadline and times out |
| SupervisorExample.WholeReplyIsLost | src/rust/worker.rs:582-585 | A run in which a reply was written in full, long before the deadline, and is not delivered, because the worker ended behind it |
| SupervisorOthers.HolderIsAlone | src/rust/worker.rs:177-254 | Whatever runs of the other threads and workers follow, the thread that has the lock finds the slot, the tracked request and what the installed worker had sent as it left them, and nobody else asked that worker anything |
| SupervisorOthers.WhatComesBack | src/rust/worker.rs:419-441 | Whatever runs of the others follow, a thread finds in the slot what was there or a worker that never was; no request is tracked while the lock is free; and it is counted if it waits |
| SupervisorPipes.ReadEnds | src/rust/worker.rs:233-254 | A whole frame read back is the worker's own answer to the request just written, and leaves the pipes at a frame boundary |
| SupervisorPipes.WorkerKeeps | src/daemon/ipc.cpp:539-560 | Every step of the worker's loop keeps an exchange in step with its client, for any chunks |
| SupervisorPipes.WriteKeeps | src/rust/worker.rs:453-475 | So does each chunk that the client writes |
| SupervisorPipes.ReadKeeps | src/rust/worker.rs:477-505 | So does each chunk that the client reads |
| WorkerObject.Worker.Request | src/rust/worker.rs:177-254 | However it ends and whatever the other threads do: the waiter count is theirs, it waits and tracks in the order of the source, every poll was in time, and it is back by its timeout plus one nap and a bounded number of steps that do not wait. Ok means that what went down the pipe of the worker is one frame with the given opcode and payload and the next id, and what came back is the next frame on its own wire, with kind, id and opcode of an answer. With the lock it did to the slot what RequestLocked says; without it, it takes a pid exactly if the request it saw tracked is overdue, and exits exactly if there was none to take |
| WorkerObject.Worker.RequestLocked | src/rust/worker.rs:196-254 | From the lock on: it tracks its request, looks for a worker as Provide says, and clears its entry; Ok means that the worker in the slot, the old one or a fresh one, was sent one frame with this id, opcode and payload from where its pipe was, and that the result is the next frame on its own wire, with its numbers; the worker it had stays, or is cleaned up once and its pid forgotten on an error of the exchange, which has its cause as in Talk; every way out leaves the entry empty and the lock free |
| WorkerObject.Worker.Talk | src/rust/worker.rs:217-253 | The worker keeps its place exactly if the whole request went out and its answer came back; otherwise it is cleaned up, and the error names the cause: what did not go out or come back whole or did not match, and the poll, read or write, or the clock, that it came from |
| WorkerObject.Worker.Provide | src/rust/worker.rs:198-209 | A running worker is kept; one is replaced only after it was seen to have exited, an empty slot is filled, and each error has its cause; nobody is evicted |
| WorkerObject.Worker.LockTimeout | src/rust/worker.rs:419-441 | Gives up only at the deadline and at most one nap later; who gets the lock finds no request tracked |
| WorkerObject.Worker.DropRequestTracker | src/rust/worker.rs:396-404 | Only the entry of the same id is cleared |
| WorkerObject.Worker.RecoverStuck | src/rust/worker.rs:349-374 | A pid is taken exactly if the entry tracked at that moment is overdue, and it is the pid found there, which is then 0 |
| WorkerObject.Worker.EnsureStarted | src/rust/worker.rs:99-112 | With the slot as it was when the lock was had: a running worker is kept, one seen to have exited is replaced, an empty slot filled, and on an error it is as it was; the lock is given up with no request tracked and nobody is cleaned up |
| WorkerObject.Worker.RestartAfterDelay | src/rust/worker.rs:284-307 | What was in the slot when the lock was had is taken out and cleaned up once; after the delay of one second, a worker that is found there is left alone and only an empty slot gets a fresh one |
| DeadlineIo.WaitReady | src/rust/worker.rs:564-605 | Terminates; only interrupted polls are tried again, and a hang-up, a failure, a timeout or readiness ends it and is reported as such; no poll starts on a reading at or after the deadline; it is back at most two steps after the deadline, and a timeout is at most a millisecond early unless the deadline is 2^31 ms away |
| DeadlineIo.WriteAll | src/rust/worker.rs:507-528 | Terminates by time left and bytes left, within four steps of the deadline; Ok exactly when the whole buffer was written in order; a hang-up, failure or timeout is the last thing that happens and the error that is reported |
| DeadlineIo.ReadExact | src/rust/worker.rs:530-554 | Terminates likewise; Ok exactly when the buffer holds the next bytes of the stream and just these were consumed; errors as in WriteAll |
| DeadlineIo.WriteFrame | src/rust/worker.rs:453-475 | One encoded frame, or a part of it and an error, which is that of the last poll or write, or the clock; a payload over 32 bits writes nothing |
| DeadlineIo.ReadFrame | src/rust/worker.rs:477-505 | Ok exactly if one whole frame was taken off the stream, and it is what the stream decodes to; a bad magic or version is reported as such, any other error is that of the last poll or read, or the clock |
| IpcFrame.DecodeEncode | src/rust/protocol.rs:42-58 | Decoding inverts encoding whatever follows; over a reader's cap the frame is refused |
| IpcFrame.DecodeIsEncoding | src/rust/protocol.rs:105-133 | Only encodings decode, and each occupies exactly its own encoding |
| IpcFrame.PrefixNeedsMore | src/rust/protocol.rs:105-133 | A proper prefix of a frame is never taken for a frame |
| IpcFrame.CapsAgree | src/daemon/ipc.cpp:103-121 | Readers with different caps agree on every frame that both allow |
| IpcFrame.DecodeAllInvertsEncodeAll | src/daemon/ipc.cpp:103-135 | A concatenation of encoded frames decodes to these frames with nothing left over |
| IpcFrame.EncodeAllInvertsDecodeAll | src/daemon/ipc.cpp:103-135 | What was decoded, encoded again, and what is left make up the stream |
| ByteChannel.ReadFull | src/daemon/ipc.cpp:81-90 | Fills the buffer with the next bytes in any chunks, and succeeds on a sound stream exactly if there are enough |
| ByteChannel.WriteFull | src/daemon/ipc.cpp:92-101 | Writes the whole buffer in any short writes, or a prefix of it on an error |
| IpcStream.ReadFrame | src/daemon/ipc.cpp:103-121 | Succeeds exactly on a frame of at most 256 MiB and consumes just that |
| IpcStream.WriteFrame | src/daemon/ipc.cpp:123-135 | Writes the frame's wire form |
| IpcStream.WireReadsBack | src/daemon/ipc.cpp:123-135 | The wire form reads back as the frame exactly if the payload fits the length field |
| IpcStream.RunIpcWorker | src/daemon/ipc.cpp:539-560 | The loop's output is that of the function Served, in full on a sound stream, for replies that may depend on all requests before |
| IpcStream.SessionIsServed | src/daemon/ipc.cpp:539-560 | Each request frame of a session is answered once and in order, others are passed over |
| IpcStream.EveryRequestIsAnswered | src/daemon/ipc.cpp:539-560 | Requests that all get an answer get these answers and no others, in order, each computed from all requests before it |
| IpcStream.FirstFrameDecides | src/daemon/ipc.cpp:544-558 | A frame that is no request is passed over; a request without an answer ends the session |
| IpcStream.OversizedEndsSession | src/daemon/ipc.cpp:103-121 | What follows a frame over the cap is never served |
| IpcStream.RustWriteFrame | src/rust/protocol.rs:42-58 | Writes the encoded frame, or refuses one over 32 bits before writing anything |
| IpcStream.RustReadFrame | src/rust/protocol.rs:105-133 | As the worker's reader, without a cap |
| DecryptBatch.LayoutEncode | src/rust/protocol.rs:135-182 | An encoded batch is laid out as itself |
| DecryptBatch.EncodeLayout | src/rust/main.rs:424-498 | Only encodings are laid out, each being the encoding of its own layout |
| DecryptBatch.EncodingIsUnique | src/rust/protocol.rs:135-182 | No two batches have the same encoding |
| DecryptBatch.RustParse | src/rust/main.rs:424-498 | Accepts exactly what passes its checks, returns the batch it encodes, and each error names something wrong with the payload |
| DecryptBatch.RustAcceptsEncodings | src/rust/main.rs:424-498 | Which are exactly the encodings of batches with UTF-8 texts and samples of at most 64 MiB |
| DecryptBatch.CppParse | src/daemon/ipc.cpp:407-447 | The same for the worker's parser, all indices in bounds and no 64-bit sum wrapping |
| DecryptBatch.CppAcceptsEncodings | src/daemon/ipc.cpp:407-447 | Exactly the encodings of batches whose samples are at most 256 MiB together |
| DecryptBatch.RustEncode | src/rust/protocol.rs:135-182 | Encodes exactly the batches that fit the fields |
| DecryptBatch.RelayIsByteIdentical | src/rust/main.rs:379-393 | What the front end parsed is encoded again to the very bytes that the client sent, and never refused |
| DecryptBatch.WorkerTakesRelayed | src/daemon/ipc.cpp:421-432 | Of what the front end accepts, the worker's parser takes exactly what has at most 256 MiB of samples |
| WorkerLimits.WorkerTakesExactly | src/daemon/ipc.cpp:103-121 | Of what the front end accepts, the worker takes exactly the payloads of at most 256 MiB, off its stdin and through its parser |
| WorkerLimits.LargerEndsSession | src/daemon/ipc.cpp:544-549 | A larger one, once relayed, ends the worker's session: neither it nor anything behind it is answered |
| WorkerLimits.FourSamplesEndTheSession | src/rust/main.rs:455-470 | Four samples of 64 MiB pass both parsers and not the frame reader |
| WorkerLimits.FiveSamplesAreTooMany | src/rust/main.rs:455-470 | Five pass the front end's parser only |
| DecryptBatch.ReadBackExactly | src/rust/protocol.rs:135-150 | Of the batches that the encoder takes, exactly those without an empty text are read back |
| DecryptReply.ReplyRoundTrip | src/daemon/ipc.cpp:449-461 | An encoded reply parses to its samples |
| DecryptReply.ReplyIsEncoding | src/rust/protocol.rs:184-232 | Only encodings parse |
| DecryptReply.RustParseReply | src/rust/protocol.rs:184-232 | Succeeds exactly on encoded replies |
| DecryptReply.RustBuildReply | src/rust/main.rs:500-532 | Builds exactly the replies that fit the fields |
| DecryptReply.CppBuildReply | src/daemon/ipc.cpp:449-461 | Keeps the low 32 bits of each length; the result parses to the samples exactly if they fit |
| DecryptReply.ReplyShape | src/daemon/ipc.cpp:449-461 | Plaintexts of the request's lengths fit a reply, which parses to them and is 4 bytes and the two texts shorter than the request |
| WireLayout.IpcFrameBytes | src/rust/protocol.rs:42-58 | The encoding by position: WV2I, version 1, and kind, id, opcode, flags and length as big-endian numbers, then the payload |
| WireLayout.IpcWireBytes | src/daemon/ipc.cpp:123-135 | The same for what the worker writes, with the low 32 bits of the length |
| WireLayout.IpcDecodeBytes | src/daemon/ipc.cpp:103-121 | In every case what a reader makes of given bytes, by position and value |
| WireLayout.ClientFrameBytes | src/rust/protocol.rs:89-103 | The encoding of a client frame by position: WV2D, version 1, kind, id and length, then the payload |
| WireLayout.ClientDecodeBytes | src/rust/protocol.rs:60-87 | And what its reader makes of given bytes |
| WireLayout.BatchBytes | src/rust/protocol.rs:169-182 | A batch by position: the two text lengths, the sample count, and after the table the two texts |
| WireLayout.BatchSampleBytes | src/rust/protocol.rs:169-182 | The table entry of each sample is its length, and its bytes stand behind those of the samples before it |
| WireLayout.ReplyBytes | src/daemon/ipc.cpp:449-461 | A reply by position: its sample count |
| WireLayout.ReplySampleBytes | src/daemon/ipc.cpp:449-461 | And of each sample the table entry and the bytes |
| Utf8Text.IsUtf8Exactly | src/rust/main.rs:472-475 | A text passes exactly if it is the RFC 3629 encoding of some sequence of Unicode scalar values |
| DecryptPath.HandleDecryptBatch | src/daemon/ipc.cpp:463-507 | The answer is that of the function Handled, and what the key cache becomes |
| DecryptPath.HandledShape | src/daemon/ipc.cpp:488-506 | A binary answer parses to the decrypted samples, with the request's lengths in order |
| DecryptPath.RefusedExactly | src/daemon/ipc.cpp:463-507 | The answer is 503 before the worker is ready, 401 before a login, 400 for what is no batch, 502 with a restart asked for exactly when the decryption failed, and else binary |
| DecryptPath.CallIsForTheBatch | src/daemon/ipc.cpp:490-499 | The decryption is called with the ids and samples of the batch |
| EndToEnd.WorkerReplyFits | src/rust/main.rs:393-409 | Whatever the worker answers in binary is handed on, in an OK frame with the batch's id, sample count and lengths in order, 4 bytes and the two texts shorter than the request |
| EndToEnd.WorkerCanAnswer | src/daemon/ipc.cpp:463-507 | Every batch that the worker's parser takes is answered in binary in some state and situation |
| EndToEnd.EveryOkFits | src/rust/main.rs:353-411 | Every OK frame of every session with the worker is such a frame for its batch |
| EndToEnd.EveryOkReadFits | src/rust/main.rs:353-422 | From bytes to bytes: in a session with the worker, cut anywhere, each OK frame that can be read off the output is such a frame for the frame in the same place of the input |
| EndToEnd.FramesOfEncodeAll | src/rust/protocol.rs:60-103 | Client frames written one after another are read back one by one |
| EndToEnd.EveryBatchIsAnswered | src/rust/main.rs:353-411 | If the worker answers all batches of a session in binary, the client gets one such frame for each, in order, and nothing else |
| DecryptPath.AcceptedReaches | src/daemon/ipc.cpp:488-499 | A parsed batch passes the argument checks of decrypt_samples |
| ClientFrame.DecodeEncode | src/rust/protocol.rs:60-103 | Decoding inverts encoding for the client frames |
| ClientFrame.ReadFrame | src/rust/protocol.rs:60-87 | Returns what the stream decodes to and consumes just that |
| ClientFrame.WriteFrame | src/rust/protocol.rs:89-103 | Writes the encoded frame, or nothing if it does not fit |
| ClientSession.Relay | src/rust/worker.rs:155-175 | The worker is sent the client's bytes, once, and its reply is taken exactly if it is the encoding of some samples |
| ClientSession.React | src/rust/main.rs:362-409 | Closes exactly on kind 9; calls the worker exactly for an acceptable frame of kind 1, and hands its reply on exactly if it is good; any other frame is refused |
| ClientSession.HandleClient | src/rust/main.rs:353-422 | The worker is called for the first batches with their bytes; on a sound stream, however it is cut, the session runs to its end and sends exactly SessionOutput, on a faulty one a part of it |
| ClientSession.HandedOn | src/rust/main.rs:362-409 | The longest run of batches with good replies at the head of a session |
| ClientSession.SessionTrace | src/rust/main.rs:353-422 | The output is OK frames for the first batches in order, each with the worker's very reply, then at most one ERROR with the next id, and nothing after it |
| ClientSession.SessionEnds | src/rust/main.rs:353-422 | A session ends because the input does, on a CLOSE, or on an ERROR for a frame that is no acceptable batch or got no good reply |
| Base64.Base64Encode | src/daemon/apple/playback.cpp:44-64 | For any length, the encoding of RFC 4648 section 4, although the accumulator wraps at 32 bits |
| Base64.AlphabetIs | src/daemon/apple/playback.cpp:44-47 | The letters of RFC 4648 section 4, and the two that section 5 replaces |
| Base64.EncodedGroup | src/daemon/apple/playback.cpp:48-57 | Each three bytes of the data are the 24 bits of the four letters in their place |
| Base64.EncodedEnd | src/daemon/apple/playback.cpp:58-62 | One byte left over is two letters and two pads, two are three letters and one pad, filled up with zero bits |
| Base64.SextetCount | src/daemon/apple/playback.cpp:48-62 | The padding completes the last group of four |
| Base64Url.Base64UrlDecode | src/daemon/apple/tokens.cpp:129-158 | Is the decoding function, although the accumulator wraps |
| Base64Url.DecodeInvertsEncode | src/daemon/apple/tokens.cpp:129-158 | The unpadded url-safe encoding of any data, with CR and LF anywhere, decodes to the data |
| Base64Url.PaddingBecomesZeros | src/daemon/apple/tokens.cpp:133-148 | Padded text decodes to the data and one zero byte for each `=`, so to the data exactly if its length is a multiple of three |
| Base64Url.TableIsAlphabet | src/daemon/apple/tokens.cpp:130-140 | The table holds exactly the url-safe alphabet of RFC 4648 section 5, and `=` |
| Base64Url.MalformedExactly | src/daemon/apple/tokens.cpp:144-149 | A text is malformed, and decodes to nothing, exactly if some byte is neither in the table nor CR or LF |
| JsonScan.FirstJsonObject | src/daemon/apple/tokens.cpp:45-75 | Returns what the scanner function finds |
| JsonScan.FirstObjectIsFound | src/daemon/apple/tokens.cpp:45-75 | For any printed JSON object, any text before it without an opening brace, and any suffix: exactly the object |
| JsonScan.FoundIsStable | src/daemon/apple/tokens.cpp:45-75 | A result does not depend on what is appended |
| JsonScan.FoundIsItsOwn | src/daemon/apple/tokens.cpp:45-75 | A result starts with its brace, ends with the closing one, and no prefix of it is a result |
| JsonScan.CutOffObjectIsNotFound | src/daemon/apple/tokens.cpp:45-75 | Of a printed object that is cut off anywhere, nothing is found |
| JsonScan.NormalizeBody | src/daemon/apple/tokens.cpp:26-43 | Is the cleaning function |
| JsonScan.ObjectBehindGuard | src/daemon/apple/tokens.cpp:26-75 | The object is found behind a guard line, with braces in it or not, and a byte order mark |
| JsonScan.ObjectWithoutGuard | src/daemon/apple/tokens.cpp:26-75 | And without a guard |
| JsonScan.GuardSparesTheObject | src/daemon/apple/tokens.cpp:26-43 | Behind a guard, with a byte order mark before it or not, the object is left in place exactly if the body has no newline or has one before the object; then it is found |
| JsonScan.GuardTakesTheObject | src/daemon/apple/tokens.cpp:33-41 | A body whose object is erased with its guard |
| KeyCache.Cache.DecryptSamples | src/daemon/apple/decrypt.cpp:61-190 | Reply and new cache, as functions of the call and the old cache |
| KeyCache.Cache.DecryptAll | src/daemon/apple/decrypt.cpp:157-176 | The samples are decrypted in place one by one; the first failure ends it |
| KeyCache.KeyIsInjective | src/daemon/apple/decrypt.cpp:33-40 | Keys of ids without a newline tell pairs apart |
| KeyCache.KeyCollides | src/daemon/apple/decrypt.cpp:33-40 | An id with a newline shares each key with another pair |
| KeyCache.RunKeepsCoherent | src/daemon/apple/decrypt.cpp:42-57 | In every run every entry and every context used came from a derivation for the same key |
| KeyCache.UsedForItsOwnPair | src/daemon/apple/decrypt.cpp:94-155 | In every run whose ids have no newline, every context used for a pair was derived for that pair |
| KeyCache.OwnContextExactly | src/daemon/apple/decrypt.cpp:33-40 | Over all runs, a pair sees only its own contexts exactly if its key does not split elsewhere |
| KeyCache.UsedForAnotherPair | src/daemon/apple/decrypt.cpp:33-40 | Two pairs with one key, and a context of one used for the other |
| KeyCache.PrefetchAlwaysFails | src/daemon/apple/decrypt.cpp:97-100 | The prefetch id never enters the cache in such runs, so its calls fail, and why |
| KeyCache.PrefetchFailsExactly | src/daemon/apple/decrypt.cpp:97-100 | Over all runs, it always fails exactly if its key does not split elsewhere |
| KeyCache.ChecksFirst | src/daemon/apple/decrypt.cpp:61-90 | Which calls are refused at once, with which error, and that these change nothing |
| KeyCache.ContextExactly | src/daemon/apple/decrypt.cpp:92-155 | The context is the one stored under id, newline and uri, or else, except for the id "0", what the derivation makes; and each error has its cause |
| KeyCache.FirstFailureIsReported | src/daemon/apple/decrypt.cpp:157-176 | If a sample is empty, throws or returns a negative status, the error is that of the first such sample |
| KeyCache.NoContextIsReported | src/daemon/apple/decrypt.cpp:102-155 | Without a context the error is that of the derivation, and no context is used |
| KeyCache.EntryAfter | src/daemon/apple/decrypt.cpp:178-190 | A call that reached decryption leaves the context it worked with under id, newline and uri exactly if it succeeded, and touches no other key |
| KeyCache.AllOrNothing | src/daemon/apple/decrypt.cpp:157-176 | There is an answer exactly if a context was had and no sample is empty, throws or returns a negative status; it holds for each sample, in order and of its length, what the native decryption left in its buffer |
| KeyCache.SecondCallReuses | src/daemon/apple/decrypt.cpp:93-95 | After a success the next call for the pair derives nothing |
| LoginProof.StepKeeps | src/daemon/apple/auth.cpp:62-303 | Every step of either thread keeps the invariant |
| LoginProof.JoinUnderLockEnds | src/daemon/apple/auth.cpp:66-79 | Whenever the flow is joined with mu_ held it has left its last critical section |
| LoginProof.CallsReturn | src/daemon/apple/auth.cpp:184-205 | Once the Apple flow has ended, a call has returned within three steps, whichever are taken, and there is always one to take |
| LoginProof.LogoutNeverWaits | src/daemon/apple/auth.cpp:184-193 | While a logout joins, a parked flow can be woken, every wake-up sends it on its way without a code, and it never parks again |
| LoginProof.SettlingWaitsForAFlow | src/daemon/apple/auth.cpp:207-214 | A caller waiting for a settled state waits for a flow that can go on |
| LoginProof.SettleEndsExactly | src/daemon/apple/auth.cpp:207-214 | wait_for_settled_state waits exactly while the state is in progress, or until its time is up |
| LoginProof.NoLostWakeup | src/daemon/apple/auth.cpp:250-260 | A parked flow misses neither a code nor an abort, a waiting caller no settled state |
| LoginProof.FieldsMatchState | src/daemon/apple/auth.cpp:81-93 | Settled states have no password or code; tokens are complete exactly when Authenticated, else blank; an error is set exactly when Failed; LoggedOut is blank |
| LoginProof.SnapshotShowsTheFields | src/daemon/apple/auth.cpp:220-237 | The guards of the snapshot hide nothing that is there, and each field is shown in its place |
| LoginProof.SettledFieldsStay | src/daemon/apple/auth.cpp:277-303 | Once settled, no step of the flow changes a field |
| LoginProof.CredentialsAreTheAttempts | src/daemon/apple/auth.cpp:239-275 | A flow is handed its own attempt's id and password, followed in the second-factor case by the one code submitted in that attempt |
| LoginProof.SubmitSucceeds | src/daemon/apple/auth.cpp:99-110 | submit_2fa succeeds exactly while a flow waits for a code it does not have, and at most once in an attempt |
| LoginProof.PromptWaitsExactly | src/daemon/apple/auth.cpp:250-259 | A prompt waits for a code exactly if the attempt has none and no logout is under way |
| LoginProof.SecondPromptReusesTheCode | src/daemon/apple/auth.cpp:254-274 | A run in which a second prompt is answered with the first code |
| LoginProof.LogoutWipes | src/daemon/apple/auth.cpp:194-204 | When logout returns all fields are blank and no flow is left |
| LoginProof.LogoutIsFinal | src/daemon/apple/auth.cpp:184-205 | And so they stay until a login or restore begins |
| LoginProof.AfterLogout | src/daemon/apple/auth.cpp:184-205 | Whatever runs after it, earlier attempts are handed nothing and get no code |
| LoginProof.AuthenticatedAsAttempted | src/daemon/apple/auth.cpp:373-380 | A login ends Authenticated as the id it began with, and with the tokens that were read, exactly if storefront, both tokens and device id are not empty, else Failed |
| AccountObject.LogIn | src/daemon/apple/auth.cpp:62-97 | A login from start to the end of its thread, whatever the flow asks for and however it ends: for each ask it is handed the id and password it was started with, and for a second factor the first code from the moment there is one; it ends Authenticated as that id, with the tokens that were read, exactly if the flow succeeds and storefront, both tokens and device id are not empty, else Failed with the error, and no secret is left |
| AccountObject.LogOut | src/daemon/apple/auth.cpp:184-205 | A logout at any moment of a login: the flow is handed its own id and password but no code any more, never waits, may fail or even harvest, and the account ends blank |
| AccountObject.Prompt | src/daemon/apple/auth.cpp:239-275 | The user is asked only for a second factor and while the attempt has no code; what the flow is handed then |
| AccountObject.Account.constructor | src/daemon/apple/auth.hpp:145-165 | A new account is the start of every run |
| AccountObject.Account.StartLogin | src/daemon/apple/auth.cpp:62-97 | Refused exactly while a flow is alive; else there is a new attempt and its thread, and the object stays on a run of the transition system |
| AccountObject.Account.Submit2fa | src/daemon/apple/auth.cpp:99-110 | Succeeds exactly while a flow waits and its attempt has no code; then the attempt has this one and the flow is woken |
| AccountObject.Account.BeginRestore | src/daemon/apple/auth.cpp:112-148 | Only from LoggedOut, and with no secret and no flow left |
| AccountObject.Account.EndRestore | src/daemon/apple/auth.cpp:150-181 | Authenticated with the tokens that were read exactly if all readings came back non-empty, else blank |
| AccountObject.Account.BeginLogout | src/daemon/apple/auth.cpp:184-190 | A flow that waits is woken; the object stays on a run |
| AccountObject.Account.EndLogout | src/daemon/apple/auth.cpp:191-205 | A blank account with no thread |
| AccountObject.Account.Fetch | src/daemon/apple/auth.cpp:242-248 | The flow is handed its own attempt's id and password |
| AccountObject.Account.FetchTwofa | src/daemon/apple/auth.cpp:250-257 | The flow waits exactly if its attempt has no code and no logout is under way; otherwise it is handed the attempt's password and code, or the password alone |
| AccountObject.Account.WakeTwofa | src/daemon/apple/auth.cpp:255-275 | A wake-up for nothing goes back to waiting; any other hands out the same |
| AccountObject.Account.Finish | src/daemon/apple/auth.cpp:373-380 | Authenticated as the attempt's id, each token as it was read and the time stored, exactly if storefront, both tokens and device id are not empty, else Failed with code -5 and blank tokens; no secret left |
| AccountObject.Account.FinishFailed | src/daemon/apple/auth.cpp:292-303 | Failed with the message, no secret and no token left, and the thread past its last section |
| AccountObject.Account.PublicSnapshot | src/daemon/apple/auth.cpp:220-237 | Shows all that there is |

## Left out

- The Apple libraries: the login flow, token requests, key derivation and sample decryption are oracles with arbitrary outcomes.
- HTTP routing, JSON libraries, configuration, logging, the chroot launcher and the build: plumbing that would only add easy members.
- Supervisor: the restart, timeout and last-error counters and texts, which no decision reads.
- Supervisor: the path on which set_nonblocking fails after the child exists, and lock poisoning; process::exit is a last step.
- Supervisor: one step takes a request's id, its deadline and its place among the waiters, which no other thread can tell apart.
- Supervisor: the worker's stdout carries only frames, and its replies are under 4 GiB; SIGKILL is a crash that may come at any time.
- Time is a counter of nanoseconds that never goes back; a step that does not wait takes some time, up to a bound, and a poll or a sleep returns within that bound after its timeout.
- Supervisor: ensure_started is called once, before there are clients; the transition system lets any idle thread call it at any time, which only adds runs.
- Supervisor: the transition system counts whole milliseconds, in which a poll may time out one early; DeadlineIo has the finer clock.
- IPC dispatch: the handlers other than decryption are one function from the requests so far and a request to a reply.
- Client session: texts of error messages, socket timeouts and the shutdown of the socket.
- Login: the attempt's id is read without the lock at the moment it is used, which the proofs show to be the same; restore_mu_ has nothing to serialize with one caller.
- Login: unlocked reads of state_ in the middle of a critical section, where a prompt that does not wait shows Awaiting2FA for a moment.
- LoginProof.CallsReturn: begins when the Apple flow has ended, which is not assumed to happen.
- Login: the destructor, and copies of credentials outside Account.
- KeyCache: ids reach the native derivation as C strings, so a zero byte would cut them; the pair of a derivation is the pair that was asked for. The cache's mutex is taken for one step each.
- JsonScan: the depth counter is unbounded, where the code's would overflow after 2^31 opening braces. The JSON grammar of JsonText admits a little more than RFC 8259.
- Base64Url: the shift of a negative accumulator is taken as two's complement.
- Allocation failure, and machines whose usize is not 64 bits wide.
