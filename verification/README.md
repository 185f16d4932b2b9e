# The streaming transports, verified

A Dafny model of the maintained streaming transports of this repository, and proofs about it.
`dafny verify dfyconfig.toml` checks everything.

## What is modelled

**Shared-memory protocols** are state machines: one step is one access another thread can tell
apart (an atomic load, store, exchange or compare-and-swap, one list operation under its mutex, one
lock or unlock). A step function says what each thread's program does next; a run is any sequence of
enabled steps, so a theorem about all runs is a theorem about all interleavings. Beside what no run
does there are two other kinds of theorem: what a run must have done, counted from the steps in it and
not from the state it leads to (a text passed to a connected pipe, a frame passed to write(), a stop
that got its mutex), and that what has been begun can be brought to its end by the threads that owe it.

| modules | code |
|---|---|
| PipeModel, PipeInv, PipeClient, PipeCallbacks, PipeService, PipeEvents | `AudioPipe` of mod_audio_fork: any number of pipes, one lws service thread, the threads that own a pipe through `tech_pvt->mutex`, one detached reaper per pipe. PipeModel holds the steps, PipeInv the inductive invariant, the others its preservation |
| PipeSafety, PipeProgress, PipeReaper, PipeGraceful, PipeSilent, PipeWitness, PipeText | the theorems about it |
| PipeOwed, PipeDelivery, PipeLedger | what is queued is owed a write, what is owed can be written, and what was asked for, counted from the run, is what is queued |
| PipeLists | the loops over the three pending lists, on mutable lists, tied to those steps |
| AwsModel, AwsInv, AwsAudio, AwsSafety, AwsEnding, AwsWitness | one `GStreamer` session of mod_aws_transcribe: worker, media thread, any number of teardowns, SDK callbacks; AwsAudio adds the audio, each byte named by its position among the bytes accepted |
| AwsHistory, AwsProgress | what a run of it did, counted from the run, and that its worker and its teardowns always get on |
| AwsQueue, UnloadGate, UnloadHistory | its bounded queue and its unload gate |
| LockModel, LockOrder, LockWitness | who waits for whom, over any number of transcriptions of one session |
| DeepgramFinish | `finish()` of mod_deepgram_transcribe |
| AzureDrain, AzureTeardown | the connect-time drain against `write()`, and stops by name against CLOSE, in mod_azure_transcribe |
| GoogleStream, GoogleHistory | write side and teardown of one mod_google_transcribe stream |

**Code that changes data in place** is imperative: classes over arrays and mutable fields, and loops
with invariants, each proved equal to a specification function about which the real theorems are
stated.

| modules | code |
|---|---|
| Reassembly | LWS_CALLBACK_CLIENT_RECEIVE: the growing receive buffer, its cap, the discard mode |
| Prebuffer | `SimpleBuffer` and the byte staging in front of it |
| AudioRing | the outgoing audio buffer with its LWS_PRE offset, filled by `fork_frame` |
| Base64, Base64Bits, Base64Hpp, Base64Accumulator, Base64Rfc | the two base64 implementations, and RFC 4648 |
| QueryCodec, QueryBuilder, QueryParse, QuerySent | `encodeURIComponent` and `constructPath`, the list a server reads back, and what is on it |

### What the environment may do

* libwebsockets gives each non-null `wsi` exactly one of CLIENT_CONNECTION_ERROR and
  CLIENT_ESTABLISHED, and CLIENT_CLOSED only after ESTABLISHED; a null return of
  `lws_client_connect_via_info` produces no callback; it calls back on the service thread only.
  It may otherwise do anything: fail writes, close connections, deliver messages, wake the thread.
* The AWS SDK calls OnStreamReady at most once, transcripts in between, and its outcome last, after
  it has let go of the stream. gRPC and the Azure SDK are free to end a stream at any point.
* FreeSWITCH holds a session's `bug_rwlock` across a bug's CLOSE callback, and whoever uses a session
  holds its rwlock for reading; a reader waits for a writer that has the lock, not for one that waits
  (`LockOrder.QueueingDeadlocksExactly` says what would happen otherwise).

### Where the code does less than its comments or its names say

The model follows the code; each of these is a theorem.

* CLOSED reads the state twice (`modules/mod_audio_fork/audio_pipe.cpp:131-140`). A compare-and-swap
  between the reads leaves a connection without any terminal notification: `PipeWitness.ClosesSilently`
  is such a run, `PipeSilent.TerminalEventExact` says that nothing else causes it.
* A graceful shutdown before the connect leaves a flag that makes every writable callback return
  before it looks at the state, so a later close() never closes the socket from this side, whatever
  its comment promises: `PipeGraceful.ClosableIffNotGraceful`.
* do_graceful_shutdown() on a pipe that is already connected leaves that flag clear
  (`modules/mod_audio_fork/audio_pipe.cpp:724-742`), so the zero-length frame `tests/soak/README.md:65`
  speaks of is never sent: `PipeLedger.LedgerExact` says that the flag is set exactly by a call on a pipe
  that was not connected, `PipeText.FlushedNeedsFlag` that no frame goes out without it.
* AWS `finish()` between the publishing of `m_pStream` and the drain loses accepted audio:
  `AwsWitness.FinishRacesDrain` is such a run. `AwsEnding.CompleteExactly` says exactly when: if and only
  if bytes were still prebuffered or in the drain when the worker took the queue for the last time.
* `encodeURIComponent` drops the leading zero of a byte below 0x10: `QueryCodec.RoundTripExact` and
  `QueryParse.QueryRoundTrip` are equivalences with that condition.
* Google's connect() writes its config without looking at `m_writesDone`:
  `GoogleStream.ConfigLawfulIff`, `GoogleStream.ConfigCanFollowFinish`.
* A stop by name reaches only the last of two Azure starts on one channel slot:
  `AzureTeardown.StopByNameMissesTheFirst` is such a run; `AzureTeardown.StopReapsExactly` says over all
  runs when a stop by name does hand a recognizer over.
* Deepgram's finish() on a pipe that loses its connection before the text is queued leaves CloseStream
  out: `DeepgramFinish.QueuedExactly`, `DeepgramFinish.MissingExactly`.
* A message is handed on as a C string, so its receiver sees it up to the first NUL byte only
  (`modules/mod_audio_fork/audio_pipe.cpp:245-246`): `Reassembly.MessageWholeOrNothing` delivers that much.
* Removing the media bug before `cb->mutex` is released would deadlock a stop with a hangup; the order
  in the code does not: `LockWitness.RemovalUnderLockDeadlocks`, `LockOrder.NoDeadlock`.
* The order of its locks protects a stop only as long as no reader of the session queues behind a waiting
  writer: `LockWitness.QueueingReadersDeadlock` and `LockWitness.QueueingOutcomeDeadlock` are runs into the
  two circles there would be, `LockOrder.QueueingDeadlocksExactly` says that these are all.

## Model

| member | source | states |
|---|---|---|
| PipeEvents.StepKeeps | modules/mod_audio_fork/audio_pipe.cpp:79-149 | The inductive invariant (pipe fields, list membership, socket, service-thread position and notification trace of every pipe) survives every step of every thread and every lws event |
| PipeEvents.RunKeeps | modules/mod_audio_fork/audio_pipe.cpp:359-537 | It survives every run of any number of pipes |
| PipeEvents.LookupFinds | modules/mod_audio_fork/audio_pipe.cpp:431-463 | When a handshake ends, the scan of pendingConnects finds exactly the pipe that socket was created for |
| PipeSafety.NoUseAfterFree | modules/mod_audio_fork/audio_pipe.cpp:528-537 | In every run no step of any thread, including the scans of the three lists and the service thread's local lists, touches a deleted pipe |
| PipeSafety.DeletedAfterPromise | modules/mod_audio_fork/lws_glue.cpp:345-362 | A pipe whose connect() was issued is deleted only after its close promise is set, and no list names a deleted pipe |
| PipeSafety.AsksLiveSocket | modules/mod_audio_fork/audio_pipe.cpp:384-429 | lws_callback_on_writable is only called on a socket that was established for that very pipe and has not been given CLOSED |
| PipeSafety.PushesAdopted | modules/mod_audio_fork/audio_pipe.cpp:499-526 | Whoever pushes to pendingDisconnects or pendingWrites does so for an adopted pipe, so the `m_vhd` it dereferences is never null |
| PipeSafety.ShapeExact | modules/mod_audio_fork/audio_pipe.cpp:124-149 | The trace automaton of the invariant accepts exactly the traces CONNECT_FAIL, or CONNECT_SUCCESS MESSAGE* with at most one of DROPPED and CLOSED_GRACEFULLY, and their prefixes |
| PipeSafety.TraceAlwaysWellShaped | modules/mod_audio_fork/audio_pipe.cpp:79-149 | In every run every pipe's notifications have that shape |
| PipeSafety.CloseNeverLost | modules/mod_audio_fork/audio_pipe.cpp:704-722 | Once close() has returned in the reaper and ESTABLISHED is not under way, the pipe is not CONNECTED: neither order of the two loses the request |
| PipeSafety.NoOrphan | modules/mod_audio_fork/audio_pipe.cpp:431-463 | A pipe whose connect() was issued and whose promise is unset is in pendingConnects, in the service thread's hands, or owed a CLOSED; one still IDLE will be looked at by a scan that is running or woken |
| PipeProgress.StepForward | modules/mod_audio_fork/audio_pipe.cpp:499-519 | No step of any thread moves a pipe's state off the life cycle, leaves FAILED or DISCONNECTED, unsets a promise, or takes a pipe back from its reaper |
| PipeReaper.ServiceBelow | modules/mod_audio_fork/audio_pipe.cpp:359-429 | With the graceful flag clear and writes succeeding, every step of the service thread lowers a four-part rank over owner, state, queued text and service position |
| PipeReaper.Finish | modules/mod_audio_fork/audio_pipe.cpp:704-758 | From any state of the invariant, and however the handshake will end, the service thread and the reaper alone have a run that ends in the deletion of a handed-off pipe |
| PipeReaper.ReaperAlwaysServed | modules/mod_audio_fork/lws_glue.cpp:345-362 | After any run the deletion of a handed-off pipe with the graceful flag clear stays reachable by this process alone: no run ever brings its reaper where nothing but the far end could release it |
| PipeGraceful.ClosableIffNotGraceful | modules/mod_audio_fork/audio_pipe.cpp:256-303 | After any run a disconnecting pipe with an open socket can be closed from this side if and only if its graceful flag is clear |
| PipeSilent.TerminalEventExact | modules/mod_audio_fork/audio_pipe.cpp:131-140 | When CLOSED first reads CONNECTED, DROPPED follows unless the reaper's compare-and-swap succeeds before the second read, and then nothing does |
| PipeSilent.QuietAfterPromise | modules/mod_audio_fork/audio_pipe.cpp:744-750 | A pipe whose promise is set never notifies again |
| PipeWitness.ClosesSilently | modules/mod_audio_fork/audio_pipe.cpp:131-147 | A run that closes an established connection and sets its promise with CONNECT_SUCCESS as the whole trace, so "exactly one terminal notification" fails |
| PipeText.TextInOrder | modules/mod_audio_fork/audio_pipe.cpp:279-298 | In every run what was handed to lws_write is a prefix of all text accepted by bufferForSending; while the socket is open nothing is missing but what is still queued |
| PipeText.FlushedNeedsFlag | modules/mod_audio_fork/audio_pipe.cpp:265-277 | A zero-length frame is only ever sent on a pipe with the graceful flag set |
| PipeOwed.NothingForgotten | modules/mod_audio_fork/audio_pipe.cpp:411-429 | In every reachable state a connected pipe with an open socket, no CLOSED under way and a clear graceful flag is owed a writable callback for queued text and for buffered audio: it is on pendingWrites with a pass still to come, or on the service thread's list, or asked for, or in the callback before that text, or audio, is looked at; with the flag set the same holds for the zero-length frame, unless do_graceful_shutdown or ESTABLISHED has its second look still to come |
| PipeOwed.CallsWake | modules/mod_audio_fork/audio_pipe.cpp:690-742 | Text, audio and a graceful shutdown on a connected pipe put it on pendingWrites and wake the service thread |
| PipeDelivery.TextGoesOut | modules/mod_audio_fork/audio_pipe.cpp:279-298 | After any run the service thread alone has a run that hands all the text accepted on such a pipe to lws_write, even when it is completing a close() for it |
| PipeDelivery.EverythingGoesOut | modules/mod_audio_fork/audio_pipe.cpp:256-321 | And one that hands over the buffered audio as well, or the zero-length frame once the flag is set, with nothing left queued |
| PipeLedger.LedgerExact | modules/mod_audio_fork/audio_pipe.cpp:690-742 | Over any run: the text accepted is the text passed to bufferForSending behind its gate and the handler's metadata, in order; one MESSAGE per message lws delivers; audio is held exactly if fork_frame left some since the last audio write; the graceful flag is set exactly by a call on a pipe not connected; a pipe is with its reaper, and issued, exactly if it was handed over, and connect() was called |
| PipeLedger.SendsWhenConnected | modules/mod_audio_fork/audio_pipe.cpp:690-697 | bufferForSending on a connected pipe accepts the text |
| PipeLedger.MetadataAccepted | modules/mod_audio_fork/audio_pipe.cpp:97-121 | So does the connect handler's send on one that is still connected |
| PipeModel.FindAt | modules/mod_audio_fork/audio_pipe.cpp:436-453 | The scan stops at the first entry that is CONNECTING on that socket, and only there |
| PipeLists.Pending.FindAndRemovePendingConnect | modules/mod_audio_fork/audio_pipe.cpp:431-463 | The two loops return that entry and leave the list without it and without the failed null-socket entries met on the way, every other entry kept in order: the protocol's atomic step |
| PipeLists.TakeAdopted | modules/mod_audio_fork/audio_pipe.cpp:396-404 | Erasing while iterating leaves exactly the entries no service thread has adopted, and collects, in order, the adopted ones in the wanted state |
| PipeLists.Pending.TakeDisconnects | modules/mod_audio_fork/audio_pipe.cpp:393-405 | The same for pendingDisconnects, gated on DISCONNECTING |
| PipeLists.Pending.TakeWrites | modules/mod_audio_fork/audio_pipe.cpp:411-425 | The same for pendingWrites, gated on CONNECTED |
| PipeLists.Pending.RemoveFromPending | modules/mod_audio_fork/audio_pipe.cpp:528-537 | Afterwards no list names the pipe and every other entry stands as before |
| PipeLists.DisconnectScan | modules/mod_audio_fork/audio_pipe.cpp:393-409 | The protocol's entry-by-entry scan, when nothing comes between, is a valid run that ends where the loop ends |
| PipeLists.WritesScan | modules/mod_audio_fork/audio_pipe.cpp:411-429 | The same for pendingWrites |
| PipeLists.Pending.TakeConnects | modules/mod_audio_fork/audio_pipe.cpp:359-370 | The loop over pendingConnects starts the idle pipes it meets, in order, and keeps the list |
| PipeLists.StartsIdleOnce | modules/mod_audio_fork/audio_pipe.cpp:363-368 | That is: every idle pipe on the list once, however often it is on it, and no other pipe changes |
| PipeLists.ConnectScan | modules/mod_audio_fork/audio_pipe.cpp:359-370 | The protocol's entry-by-entry scan of pendingConnects ends where that loop ends |
| Reassembly.Receiver.Receive | modules/mod_audio_fork/audio_pipe.cpp:151-254 | The callback on the raw buffer moves the abstract receive state as specified, for every fragment, allocation result and cap branch |
| Reassembly.Receiver.Fill | modules/mod_audio_fork/audio_pipe.cpp:204-236 | A fragment that does not fit grows the block once, or abandons the message at the cap or when realloc fails |
| Reassembly.Receiver.Grow | modules/mod_audio_fork/audio_pipe.cpp:217-222 | Growth keeps the bytes held |
| Reassembly.Receiver.Copy | modules/mod_audio_fork/audio_pipe.cpp:238-252 | The copy appends the fragment and delivers at the last one; a copy past the end would be an Overrun |
| Reassembly.MessageWholeOrNothing | modules/mod_audio_fork/audio_pipe.cpp:151-254 | A message of any number of fragments of at most 8192 bytes is delivered as the concatenation of its fragments, up to its first NUL byte if it has one, or not at all; no copy passes the buffer end, and the receiver is at rest afterwards; with allocations succeeding, a text message is delivered exactly when its first frame's length plus some number of growth steps has room for it under the cap |
| Reassembly.RestOfMessage | modules/mod_audio_fork/audio_pipe.cpp:189-252 | The same from the middle of a message, by induction over the fragments to come |
| Reassembly.LengthExact | modules/mod_audio_fork/audio_pipe.cpp:168-215 | A message is sure of that room, wherever its first frame ends, if and only if it is at most MAX_RECV_BUF_SIZE - 8192 + 1 bytes long |
| Reassembly.NoneAboveCap | modules/mod_audio_fork/audio_pipe.cpp:168-215 | No message above MAX_RECV_BUF_SIZE has it |
| Reassembly.DeliveredUpToLength | modules/mod_audio_fork/audio_pipe.cpp:151-254 | With allocations succeeding every text message of at most MAX_RECV_BUF_SIZE - 8192 + 1 bytes is delivered, however it is fragmented |
| Reassembly.StreamDelivers | modules/mod_audio_fork/audio_pipe.cpp:151-254 | Over any stream of messages the deliveries are the texts of the accepted messages, each up to its first NUL byte, one each, in order, never a tail of one and never a mix of two |
| Prebuffer.SimpleBuffer.constructor | modules/mod_aws_transcribe/simple_buffer.h:9-14 | An empty ring of the given chunks |
| Prebuffer.SimpleBuffer.Put | modules/mod_aws_transcribe/simple_buffer.h:22-40 | One turn of the loop in add(): the abstract content becomes the last numChunks chunks, both cursors stay chunk-aligned and in bounds, numItems is the abstract length |
| Prebuffer.SimpleBuffer.Add | modules/mod_aws_transcribe/simple_buffer.h:19-41 | A length that is no multiple of the chunk size changes nothing; any other appends its chunks, the oldest overwritten first |
| Prebuffer.SimpleBuffer.GetNextChunk | modules/mod_aws_transcribe/simple_buffer.h:43-51 | Takes the oldest chunk, or nothing if there is none |
| Prebuffer.StagedBuffer.Write | modules/mod_aws_transcribe/aws_transcribe_glue.cpp:329-344 | After frames of any lengths the ring holds the last whole chunks of all bytes written and the staging the sub-chunk rest |
| Prebuffer.StagedBuffer.Drain | modules/mod_aws_transcribe/aws_transcribe_glue.cpp:220-245 | The drain hands on those chunks, oldest first, then the rest, and leaves nothing behind |
| Prebuffer.StageMore | modules/mod_aws_transcribe/aws_transcribe_glue.cpp:337-342 | Chunking the staged rest together with new bytes is chunking the whole byte string |
| Prebuffer.DrainIsSuffix | modules/mod_aws_transcribe/aws_transcribe_glue.cpp:220-245 | What a drain hands on is the suffix of all bytes written that lacks exactly max(0, total/chunkSize - numChunks) whole chunks |
| AudioRing.AudioBuffer.Put | modules/mod_audio_fork/audio_pipe.hpp:54-65 | A write at the offset appends to the bytes buffered and never passes the end |
| AudioRing.AudioBuffer.CheckOverrun | modules/mod_audio_fork/lws_glue.cpp:770-782 | With too little space left the whole run buffered so far is discarded, and only then; afterwards one packet fits |
| AudioRing.AudioBuffer.NativeFrame | modules/mod_audio_fork/lws_glue.cpp:755-792 | fork_frame without a resampler, over all packets of a callback |
| AudioRing.AudioBuffer.ResampledFrame | modules/mod_audio_fork/lws_glue.cpp:793-835 | fork_frame with a resampler: each read is cut to the sample frames that fit |
| AudioRing.AudioBuffer.Flush | modules/mod_audio_fork/audio_pipe.cpp:305-320 | The writable callback sends everything buffered and the offset is LWS_PRE again |
| AudioRing.RunConserves | modules/mod_audio_fork/lws_glue.cpp:737-841 | Over any run of frames and flushes the frames sent and the runs discarded, with what is still buffered, are the stream that was buffered, in order, nothing missing or repeated; each is a whole number of interleaved sample frames; the offset stays inside the buffer |
| AudioRing.NativeAligned | modules/mod_audio_fork/lws_glue.cpp:755-792 | Packets of whole sample frames keep every run whole and leave room for the next packet |
| AudioRing.ResampledAligned | modules/mod_audio_fork/lws_glue.cpp:793-835 | Cutting to what fits keeps every run a whole number of sample frames |
| AudioRing.NoOverrunNoLoss | modules/mod_audio_fork/lws_glue.cpp:770-782 | Nothing is discarded as long as every packet finds its minimum free space |
| AudioRing.TakesAll | modules/mod_audio_fork/lws_glue.cpp:793-835 | With room for everything the resampler path loses nothing |
| AudioRing.StepSends | modules/mod_audio_fork/audio_pipe.cpp:305-320 | A writable callback sends exactly the bytes buffered and empties the buffer, fork_frame sends nothing, and bytes are lost exactly in a frame that overruns |
| AudioRing.OverrunExactly | modules/mod_audio_fork/lws_glue.cpp:770-782 | fork_frame without a resampler loses bytes if and only if what is buffered and what it reads leave less than the minimum space free |
| AudioRing.RunSendsExactly | modules/mod_audio_fork/lws_glue.cpp:737-841 | Over any run what was sent is what the buffer held at each writable callback, in order, and bytes were lost if and only if some frame overran |
| Base64.RoundTrip | modules/mod_audio_fork/base64.hpp:66-174 | Decoding an encoding gives the bytes back; with the next four rows, across all four pairings of the two implementations |
| Base64.EncodedLength | modules/mod_audio_fork/base64.hpp:66-112 | Four symbols for every three bytes begun, padding included (section 4 of RFC 4648) |
| Base64Hpp.HppEncode | modules/mod_audio_fork/base64.hpp:66-112 | The scratch-array encoder computes the common specification on every input |
| Base64Hpp.HppDecode | modules/mod_audio_fork/base64.hpp:131-174 | So does its decoder, on every string, well-formed or not |
| Base64Accumulator.AccEncode | modules/mod_cobalt_transcribe/cobalt_glue.cpp:51-67 | So does the 32-bit accumulator encoder |
| Base64Accumulator.AccDecode | modules/mod_cobalt_transcribe/cobalt_glue.cpp:69-87 | So does the accumulator decoder, on every string |
| Base64Bits.WrapKeepsLow | modules/mod_cobalt_transcribe/cobalt_glue.cpp:51-87 | The wrap of the accumulator to 32 bits leaves the bits every later symbol is taken from alone |
| Base64Bits.SextetsOf | modules/mod_cobalt_transcribe/cobalt_glue.cpp:51-67 | Whatever older bits the accumulator holds, the symbols emitted depend on the last two bytes only |
| Base64Rfc.AlphabetIsTable | modules/mod_audio_fork/base64.hpp:43-46 | The alphabet is Table 1 of RFC 4648, in ASCII codes |
| Base64Rfc.GroupIsNumber | modules/mod_audio_fork/base64.hpp:77-85 | Three bytes and the four symbols of their group are the same 24-bit number, most significant bits first (section 4 of RFC 4648) |
| Base64Rfc.GroupAt | modules/mod_audio_fork/base64.hpp:66-112 | Every group of an encoding stands at its place |
| Base64Rfc.Vectors | modules/mod_audio_fork/base64.hpp:66-112 | Test vectors of section 10 of RFC 4648, and one with the last two symbols |
| Base64Rfc.LongerVectors | modules/mod_audio_fork/base64.hpp:66-112 | The longer ones of that section |
| QueryCodec.EncodeURIComponent | modules/mod_deepgram_transcribe/dg_transcribe_glue.cpp:173-191 | The loop computes the percent-encoding byte by byte, with the code's unpadded hexadecimal |
| QueryCodec.RoundTripExact | modules/mod_deepgram_transcribe/dg_transcribe_glue.cpp:173-191 | Percent-decoding (section 2.1 of RFC 3986) gives a value back if and only if all its bytes are at least 0x10 |
| QueryBuilder.ConstructPath | modules/mod_deepgram_transcribe/dg_transcribe_glue.cpp:193-347 | For every combination of channel variables the path built is the rendering of the intended key/value list |
| QueryParse.SplitsBack | modules/mod_deepgram_transcribe/dg_transcribe_glue.cpp:193-347 | Splitting the query at '&' gives one segment per parameter, whatever its value holds |
| QueryParse.QueryRoundTrip | modules/mod_deepgram_transcribe/dg_transcribe_glue.cpp:173-347 | Splitting at '&' and '=' and percent-decoding returns exactly the intended list, in order, if and only if every value's bytes are all at least 0x10 |
| QueryParse.OneModel | modules/mod_deepgram_transcribe/dg_transcribe_glue.cpp:206-236 | The query is never empty, has no empty segment and no empty key, and at most one model parameter |
| QueryParse.ModelSent | modules/mod_deepgram_transcribe/dg_transcribe_glue.cpp:205-235 | The one model sent is the custom model if set, else the generic one, else the language's default if no tier was set, else none: if and only if |
| QuerySent.PlainExact | modules/mod_deepgram_transcribe/dg_transcribe_glue.cpp:177 | The characters kept are the unreserved ones of section 2.3 of RFC 3986 and eight reserved ones, and no other |
| QuerySent.EscapeExact | modules/mod_deepgram_transcribe/dg_transcribe_glue.cpp:179-188 | A kept character stands for itself; any other byte from 0x10 on becomes '%' and its two upper-case hexadecimal digits, one below 0x10 '%' and one |
| QuerySent.EncodedAlphabet | modules/mod_deepgram_transcribe/dg_transcribe_glue.cpp:173-191 | An encoding holds nothing but kept characters, '%' and hexadecimal digits; a blank becomes %20 |
| QuerySent.DefaultsAreTheTable | modules/mod_deepgram_transcribe/dg_transcribe_glue.cpp:73-105 | Each language in the table gets its tier and its model |
| QuerySent.OtherDefaults | modules/mod_deepgram_transcribe/dg_transcribe_glue.cpp:206-214 | Any other gets base and general |
| QuerySent.SentExactly | modules/mod_deepgram_transcribe/dg_transcribe_glue.cpp:193-347 | A parameter is on the list if and only if its channel variable, the language or the tier and model rules ask for it |
| AwsInv.CtlKeeps | modules/mod_aws_transcribe/aws_transcribe_glue.cpp:392-551 | The control invariant of a session survives every step of worker, media thread, teardowns and SDK |
| AwsSafety.RunKeeps | modules/mod_aws_transcribe/aws_transcribe_glue.cpp:315-551 | Together with the audio invariant it survives every run |
| AwsSafety.WorkerReturnsSafely | modules/mod_aws_transcribe/aws_transcribe_glue.cpp:633-682 | The worker returns only if the final outcome has arrived, or no start was issued and none can be any more |
| AwsSafety.DeletedLast | modules/mod_aws_transcribe/aws_transcribe_glue.cpp:684-708 | When a teardown deletes the streamer the worker is joined, the SDK has nothing outstanding, the media thread is outside, and no other teardown is in charge |
| AwsSafety.NoUseAfterFree | modules/mod_aws_transcribe/aws_transcribe_glue.cpp:931-1054 | No step of a thread or callback touches a streamer before it is built or after it is deleted, in any interleaving of stop, CLOSE, orphan cleanup, VAD connect and SDK callbacks |
| AwsSafety.StopNeverLost | modules/mod_aws_transcribe/aws_transcribe_glue.cpp:650-676 | A teardown in the join waits for a worker that has seen the stop request or will see it before it first sleeps |
| AwsSafety.AudioInOrder | modules/mod_aws_transcribe/aws_transcribe_glue.cpp:485-549 | What reaches the stream is in write order, without duplicates and without victims of drop-oldest; one empty event and one Close end it, and nothing follows Close |
| AwsSafety.ClosedSplit | modules/mod_aws_transcribe/aws_transcribe_glue.cpp:315-381 | After Close every accepted byte is sent, dropped oldest-first, or left behind in the prebuffer, drain or queue, and the last excludes the others |
| AwsEnding.CloseIssuedExactly | modules/mod_aws_transcribe/aws_transcribe_glue.cpp:434-535 | If m_connected was published before finish(), a worker that has returned issued Close if and only if its shutdown began, and if it did not begin the final outcome had arrived |
| AwsEnding.CompleteExactly | modules/mod_aws_transcribe/aws_transcribe_glue.cpp:485-535 | At Close every accepted byte is sent or a drop-oldest victim if and only if nothing was prebuffered or in the drain at the worker's last take of m_deqAudio |
| AwsEnding.CompleteWhenConnectedFirst | modules/mod_aws_transcribe/aws_transcribe_glue.cpp:204-260 | If m_connected was published before finish() and no final outcome ended the worker before its shutdown, Close was issued and the stream got exactly the accepted bytes minus the drop-oldest victims |
| AwsSafety.OneEmptyEvent | modules/mod_aws_transcribe/aws_transcribe_glue.cpp:511-528 | If no frame is empty, no audio event is: the empty event is the one before Close |
| AwsHistory.AcceptedExactly | modules/mod_aws_transcribe/aws_transcribe_glue.cpp:315-381 | The bytes accepted are those of every frame write() was given while the session was neither finishing nor finished, connected or not, but for the frame it is still at |
| AwsHistory.SessionExact | modules/mod_aws_transcribe/aws_transcribe_glue.cpp:195-304 | Over any run: the media thread is inside exactly between finding a streamer and leaving; the session is connecting, connected, finished, and its drain due, exactly if it was started, drained, told its outcome, and found alive by OnStreamReady; a transcript waits exactly if one came since the worker took the last; the slot is the session's until it is taken or given back |
| AwsHistory.TeardownExact | modules/mod_aws_transcribe/aws_transcribe_glue.cpp:931-1054 | Only a stop by name that found the slot taken is turned away; any other teardown that has returned leaves the streamer deleted, its worker joined and the SDK out |
| AwsProgress.QueueAlwaysSent | modules/mod_aws_transcribe/aws_transcribe_glue.cpp:485-550 | While the stream is open and nobody ends the session, the worker alone has a run that brings everything queued to the stream, in order, after what it has sent |
| AwsProgress.TranscriptIsNext | modules/mod_aws_transcribe/aws_transcribe_glue.cpp:463-483 | A transcript that waits is what the worker takes next |
| AwsProgress.TeardownAlwaysEnds | modules/mod_aws_transcribe/aws_transcribe_glue.cpp:931-1054 | After any run a teardown that has taken the session over can be brought to its end by its own steps, the worker's, and the callbacks the SDK owes |
| AwsWitness.FinishRacesDrain | modules/mod_aws_transcribe/aws_transcribe_glue.cpp:209-246 | A run in which finish() between the publishing of m_pStream and the drain leaves an accepted byte unsent and undropped |
| AwsQueue.FrameQueue.Push | modules/mod_aws_transcribe/aws_transcribe_glue.cpp:364-374 | However full the queue was, afterwards it is the last m_maxBufferedFrames frames |
| AwsQueue.PushStepIsLast | modules/mod_aws_transcribe/aws_transcribe_glue.cpp:355-378 | The session's push step leaves the same queue, and counts as dropped exactly the bytes of the frames removed from its front |
| AwsQueue.DrainStepIsSuffix | modules/mod_aws_transcribe/aws_transcribe_glue.cpp:220-245 | The session's drain takes over the prebuffered bytes but for the oldest whole chunks beyond the ring's size, and counts exactly those as dropped |
| AwsQueue.PushesLeaveNewest | modules/mod_aws_transcribe/aws_transcribe_glue.cpp:355-378 | Any series of frames leaves the newest of them |
| UnloadGate.CountExact | modules/mod_aws_transcribe/aws_transcribe_glue.cpp:776-929 | In every run the count is the number of sessions with gate_counted set, plus those inside the bookkeeping lines (counted but not yet flagged, or cleared but not yet decremented), and never negative |
| UnloadGate.ReleasedOnce | modules/mod_aws_transcribe/aws_transcribe_glue.cpp:699-705 | With the test, the clearing and the decrement as three steps of any number of stops and CLOSEs, of cleanup, and of a failure exit whose `done:` block tests again after killcb, a session releases at most once, and exactly once when any of these has run to its end; until then it is counted for exactly one reason |
| UnloadGate.StopKeeps | modules/mod_aws_transcribe/aws_transcribe_glue.cpp:1010-1028 | Because the three steps are inside cb->mutex, no two stops or CLOSEs are between a test and a decrement together |
| UnloadGate.ZeroIsFinal | modules/mod_aws_transcribe/aws_transcribe_glue.cpp:752-756 | Once no start is accepted and the count is 0 it stays 0 over every further run |
| UnloadGate.ZeroMeansNobody | modules/mod_aws_transcribe/aws_transcribe_glue.cpp:752-756 | After shutdown_begin has returned 0 the count stays 0, and every session there is or will be was refused or has released its count |
| UnloadHistory.StartExact | modules/mod_aws_transcribe/aws_transcribe_glue.cpp:758-929 | A start is refused if and only if a shutdown had begun before it, and the session's phase is the one its start took it to |
| UnloadHistory.LooksExact | modules/mod_aws_transcribe/aws_transcribe_glue.cpp:905-929 | A failure exit that goes through killcb looks at gate_counted again in the block at `done:`, any other and a cleanup once |
| UnloadHistory.StopReleases | modules/mod_aws_transcribe/aws_transcribe_glue.cpp:953-1028 | A stop or CLOSE runs the release code if and only if it found its slot at its first step under the mutex, and when it is over the session's count is released and its flag clear |
| UnloadHistory.LostStopsKeepCount | modules/mod_aws_transcribe/aws_transcribe_glue.cpp:953-968 | A session whose stops and CLOSEs all lost their slot keeps its count and its flag |
| UnloadHistory.AloneReleases | modules/mod_aws_transcribe/aws_transcribe_glue.cpp:880-929 | A failure exit or a cleanup can always go on, alone, to where the count is released |
| UnloadHistory.StopAlwaysEnds | modules/mod_aws_transcribe/aws_transcribe_glue.cpp:953-1028 | So can a stop or CLOSE that has the mutex or finds it free, and it gives the mutex back |
| LockOrder.NoDeadlock | modules/mod_aws_transcribe/aws_transcribe_glue.cpp:931-1054 | In no run, over any number of transcriptions of a session and of stops, orphan cleanups, hangups that close several bugs under one bug_rwlock, frames, callbacks, deliveries and session ends, do threads wait for one another in a circle over bug_rwlock, the session's rwlock, cb->mutex, m_audioBufferMutex, m_mutex, the join and the wait for m_finished |
| LockOrder.NoStandstill | modules/mod_aws_transcribe/aws_transcribe_glue.cpp:392-450 | Whenever a thread waits, some thread can move: one with a next action that nothing is in the way of, a sleeping worker that a stop has asked, or a request whose outcome the SDK still owes. A worker whose start was issued waits for that outcome |
| LockOrder.ChainClimbs | modules/mod_aws_transcribe/aws_transcribe_glue.cpp:931-1054 | Along a chain of waiters the rank of what is waited for strictly grows, joins and outcomes counted as resources |
| LockOrder.HolderMoves | modules/mod_aws_transcribe/aws_transcribe_glue.cpp:953-968 | A thread that keeps another waiting and does not wait itself can move; for a worker that is joined this rests on the flag being raised before the join |
| LockOrder.QueueingDeadlocksExactly | modules/mod_aws_transcribe/aws_transcribe_glue.cpp:261-304 | If a waiting writer kept readers out, a reachable state would have a circle if and only if somebody joins a worker and somebody waits to destroy the session, while the worker is about to read the session, or the worker waits for an outcome and the SDK thread that owes it is about to read the session |
| LockWitness.QueueingReadersDeadlock | modules/mod_aws_transcribe/aws_transcribe_glue.cpp:463-470 | A run into the first of these circles |
| LockWitness.QueueingOutcomeDeadlock | modules/mod_aws_transcribe/aws_transcribe_glue.cpp:261-304 | A run into the second |
| LockWitness.RemovalUnderLockDeadlocks | modules/mod_aws_transcribe/aws_transcribe_glue.cpp:976-990 | With the bug removed before the unlock there is a run that deadlocks |
| DeepgramFinish.NeverDoubled | modules/mod_deepgram_transcribe/audio_pipe.cpp:668-690 | CloseStream is queued at most once over any number of concurrent finish() calls and ESTABLISHED |
| DeepgramFinish.NeverLost | modules/mod_deepgram_transcribe/audio_pipe.cpp:668-690 | Once all calls have returned on a connected pipe it was queued exactly once if finish() was called, and not otherwise |
| DeepgramFinish.QueuedExactly | modules/mod_deepgram_transcribe/audio_pipe.cpp:77-99 | Over any run after which all calls have returned, CloseStream was queued exactly once if some call or ESTABLISHED came to bufferForSending's gate before the connection was lost, and not at all otherwise |
| DeepgramFinish.LossComesTooLate | modules/mod_deepgram_transcribe/audio_pipe.cpp:668-690 | Once queued it stays queued, exactly once, over every further run: a loss after the queueing loses nothing |
| DeepgramFinish.MissingExactly | modules/mod_deepgram_transcribe/audio_pipe.cpp:663-690 | If finish() was called and the handshake succeeded, CloseStream is missing if and only if the connection was lost, and that before any call came to the gate |
| DeepgramFinish.QueuedIffCalled | modules/mod_deepgram_transcribe/audio_pipe.cpp:663-690 | On a connected pipe with all calls returned CloseStream was queued exactly once if somebody called finish(), and not at all if nobody did: ESTABLISHED asks for none of its own |
| DeepgramFinish.CallReturns | modules/mod_deepgram_transcribe/audio_pipe.cpp:668-690 | finish() never waits: a call returns after at most six of its own steps |
| AzureDrain.DrainExact | modules/mod_azure_transcribe/azure_transcribe_glue.cpp:350-438 | For every interleaving of the writer with the drain the bytes handed on are the suffix of the bytes written that omits only whole overwritten oldest chunks: no frame overtakes prebuffered audio, none is stranded |
| AzureDrain.TakenExactly | modules/mod_azure_transcribe/azure_transcribe_glue.cpp:392-438 | Without a stream failure every frame write() was given before the session was finished is taken, before and after the connect, but for the one it is still at; the session is connected exactly if its drain has ended, and finished exactly if a handler finished it |
| AzureDrain.AlwaysEnds | modules/mod_azure_transcribe/azure_transcribe_glue.cpp:350-390 | A drain that has begun and a frame in write() come to their end by their own steps |
| AzureTeardown.ReapedExactlyOnce | modules/mod_azure_transcribe/azure_transcribe_glue.cpp:545-579 | With the load of cb->streamer, the hand-over, its clearing and killcb's second look as separate steps under cb->mutex: however stops by name, CLOSEs, frames and slot overwrites interleave, a recognizer is handed to a reaper at most once and never deleted in place by killcb, and it was handed over exactly once when its bug's CLOSE has completed |
| AzureTeardown.InsideStep | modules/mod_azure_transcribe/azure_transcribe_glue.cpp:756-761 | What the holder of the mutex may rely on at each of these steps, and so that killcb finds nothing left |
| AzureTeardown.FrameTouchesLive | modules/mod_azure_transcribe/azure_transcribe_glue.cpp:736-800 | A frame works on a recognizer only while it is in place and nobody else holds its mutex |
| AzureTeardown.ReapedForGood | modules/mod_azure_transcribe/azure_transcribe_glue.cpp:556-579 | What was handed over is not handed over again, not deleted in place and not put back by any further run |
| AzureTeardown.StopReapsExactly | modules/mod_azure_transcribe/azure_transcribe_glue.cpp:736-765 | Over any run a stop by name that has returned handed b's recognizer over if and only if it read b from the slot, and found the slot still naming b, with the recognizer still in place, while it held b's mutex |
| AzureTeardown.StopLeavesOthers | modules/mod_azure_transcribe/azure_transcribe_glue.cpp:736-800 | Over any run after it has begun on b, a stop by name or a CLOSE changes no other bug's state |
| AzureTeardown.ClosedIsReaped | modules/mod_azure_transcribe/azure_transcribe_glue.cpp:783-800 | A CLOSE that has returned leaves its bug's recognizer handed over exactly once and nothing in place; the bugs there are those that were started |
| AzureTeardown.FrameGetsIn | modules/mod_azure_transcribe/azure_transcribe_glue.cpp:802-830 | A frame gets to work if and only if nobody is inside its bug's mutex and the recognizer has not been handed over |
| AzureTeardown.FreeEnds | modules/mod_azure_transcribe/azure_transcribe_glue.cpp:736-800 | A stop, CLOSE or frame that has the mutex, or finds it free, ends by its own steps |
| AzureTeardown.StopByNameMissesTheFirst | modules/mod_azure_transcribe/azure_transcribe_glue.cpp:736-765 | A run with two starts on one slot in which the stop by name reaches only the second |
| GoogleStream.WriteSideLawful | modules/mod_google_transcribe/google_glue.cpp:388-458 | Over all runs WritesDone and Finish are issued at most once, WritesDone not after Finish, and no audio Write after either |
| GoogleHistory.HalfCloseExact | modules/mod_google_transcribe/google_glue.cpp:441-458 | Over any run WritesDone was issued exactly once if a cleanup found the connected stream, or an utterance ended, before Finish, and not at all otherwise; once either was, the write side is closed |
| GoogleHistory.AudioExact | modules/mod_google_transcribe/google_glue.cpp:388-440 | Every frame offered on the connected stream comes to m_write_mutex, and is written exactly if that is before the write side is closed; the config is written at the start or when VAD connects |
| GoogleHistory.CallsExact | modules/mod_google_transcribe/google_glue.cpp:560-722 | Each end of an utterance brings one writesDone(), the end of the reads one Finish; a frame that finds the stream is inside until it leaves; every cleanup begun is there |
| GoogleHistory.CleanupAlwaysEnds | modules/mod_google_transcribe/google_glue.cpp:723-749 | A cleanup that has cb->mutex can always end, with the stream deleted and the mutex given back, once gRPC ends the reads |
| GoogleStream.PromiseBeforeJoin | modules/mod_google_transcribe/google_glue.cpp:723-749 | The connect promise is set at most once, before any join, and a stream is deleted only when its reader has ended and the media thread is outside |
| GoogleStream.ReaderNotStuck | modules/mod_google_transcribe/google_glue.cpp:460-469 | A reader still waiting for the promise while a cleanup joins it can always go on |
| GoogleStream.ConfigLawfulIff | modules/mod_google_transcribe/google_glue.cpp:350-386 | The config Write obeys gRPC's order if and only if m_writesDone is clear when it is made |
| GoogleStream.ConfigCanFollowFinish | modules/mod_google_transcribe/google_glue.cpp:350-386 | A run in which it follows Finish |

## Left out

- PipeModel: audio_fork is taken to call connect() before any stop reaches the pipe; `modules/mod_audio_fork/mod_audio_fork.c:119-123` leaves a window in which a stop can come first.
- PipeModel: atomics are sequentially consistent, there is one service thread (`initialize` caps it), and a step includes what its thread does next without another thread being able to notice; a notification, the promise and the state store that goes with them are one step in CONNECTION_ERROR and in a failed connect, as are the DISCONNECTED store and the promise in CLOSED; in bufferForSending the append under the text mutex and the push to pendingWrites are one step, as are what fork_frame leaves in the audio buffer and its push.
- PipeReaper.ReaperAlwaysServed: speaks of runs in which lws_write succeeds; it says that the deletion stays reachable and each service step lowers the rank, not that a scheduler gets there.
- PipeDelivery.EverythingGoesOut: speaks of writes that succeed, and says that the service thread can get there, not that a scheduler lets it; a close() that is being completed sends the text but not the audio, as in the code.
- PipeText.TextInOrder: of a write that fails, nothing is known to have been sent; the queued text is dropped, as in the code.
- Reassembly.MessageWholeOrNothing: fragments longer than 8192 bytes are not considered; the protocol's receive buffer is 1024 bytes (`modules/mod_audio_fork/audio_pipe.cpp:546`).
- AudioRing.RunConserves: a failed audio lws_write is only logged by the code and counts as sent; the overrun notification is not modelled; what speex makes of the samples is a parameter, and so is LWS_PRE.
- Base64Hpp.HppDecode: masks and shifts are written as division and remainder, and the reverse table of the accumulator version is the symbol's value.
- AwsSafety.WorkerReturnsSafely: C++ exceptions in the worker, which leave processData early, are not modelled.
- AwsEnding.CompleteWhenConnectedFirst: the shutdown deadline is one step, which may come at any time after the shutdown began; durations are not modelled.
- UnloadGate.CountExact: the same gates in the other modules are not repeated; that killcb deletes the streamer before it releases is AwsSafety's subject, not the gate's.
- LockOrder.NoDeadlock: how FreeSWITCH orders readers and writers of a session's rwlock is not part of this model; neither is the streamer's destructor waiting for the SDK's executor, which comes after the outcome, when the callback only gives back what it holds.
- LockOrder.NoStandstill: that the SDK delivers the outcome it owes, on its own or after the abort at the deadline, is its contract.
- DeepgramFinish.NeverLost: the rest of mod_deepgram_transcribe's AudioPipe is the same life cycle as mod_audio_fork's and is not modelled twice.
- AwsProgress.TeardownAlwaysEnds: says that the end stays reachable with the callbacks the SDK owes, not when they come.
- GoogleHistory.CleanupAlwaysEnds: that gRPC ends the reads after WritesDone, or a cancelled stream's, is its contract.
- AzureDrain.DrainExact: with the push stream throwing, or the session gone when the staged rest is flushed, nothing is claimed.
- AzureTeardown.ReapedExactlyOnce: the teardown of a bug that was never attached owns its session alone and is not a step.
- GoogleStream.WriteSideLawful: the drain in Google's connect() runs on the media thread alone, so it adds nothing to Prebuffer; only its Writes appear here, not their bytes.
- The parser of WebSocket URIs, whose lazy expression takes a host's trailing digits for a port when none is given.
- Event and JSON construction, API command parsing, channel-variable reading, playout files, credentials, logging, module load.
- libwebsockets, gRPC, the AWS and Azure SDKs, FreeSWITCH, speex and cJSON, except as the environment described above.
- The copies of AudioPipe and SimpleBuffer in modules that lack the guards these results rest on, and the dialogflow, Lex and text-to-speech modules.
- Multi-context lws mode, keepalives, scheduling, memory exhaustion outside the receive buffer.
