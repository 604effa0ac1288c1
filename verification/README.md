# Verified model of the ogrenet transport runtime

This project models the concurrent core of ogrenet in Dafny and proves what it promises, over every
input, every interleaving and every reachable state.

- **Wire codec and reassembly** (`Bytes`, `Wire`, `Reassembly`). The frame printer and parser, the reader
  loop that cuts frames out of a stream, and the fact that it does not matter how the stream was cut.
- **Session send pipeline and its end** (`Gate`, `Lifecycle`, `Session`, `Pipeline`, `Ending`,
  `SessionTheorems`, `SessionAnswers`, `SessionProgress`, `SessionRun`, `SessionEnds`, `StreamWriter`). Senders,
  writer, reader, close requests, failures and the finalizer of one TCP or TLS session, as one step relation.
- **End to end** (`EndToEnd`). A sending session, a reliable stream and a receiving reader, composed.
- **Quotas and admission** (`Quota`, `Admission`). Byte quotas on two levels and connection leases whose
  counters live under other locks than their state.
- **Engine barrier** (`Engine`, `EngineCounters`, `EngineMatching`). When `Done` closes, and that it is
  neither early nor missed; first over leases, then over the counters the check really reads.
- **WebSocket arbitration and ownership** (`WsArbiter`, `WsRuns`, `Tracker`).
- **Completion port** (`CompletionPort`). Closing a port under blocked calls.

`Counting` holds sums over threads and leases, `Runs` the runs of a transition system and the induction
every safety theorem uses.

How the model is built:

- A section under a mutex, a channel operation, an atomic operation or a socket call is one step. A
  function of the old state gives its effect. The step relations use these functions, and the classes
  (`SendGate`, `SessionLifecycle`, `ByteQuota`, `SessionQuota`, `AdmissionController`, `ConnectionLease`,
  `ListenerCapacity`, `EngineBarrier`, `WsWriteState`, `HttpConnTracker`) are proved against them.
- Threads are program counters in a sequence. "How many threads are here" is a sum over that sequence.
- Sockets, contexts, clocks, handlers and the kernel are free choices of the environment.
- A cipher is any `seal`/`open` pair where `open` inverts `seal` under the same associated data; its nonce
  is a parameter. A session's framer is any relation between messages and frames; `EndToEnd` puts the
  wire codec in its place. UTF-8 follows section 3 of RFC 3629, base64 section 4 of RFC 4648 without
  padding, skipping line breaks when decoding as the Go decoder does.

These properties hold only under a condition, and the condition is proved exact or shown necessary:

- Reassembly is independent of the cutting if and only if the read bound has room for one incomplete
  frame (`Reassembly.CuttingMattersExactlyWhenTooSmall`). A smaller bound can be configured.
- A receiver that saw the end of the stream has every accepted message if and only if every accepted frame
  was written (`EndToEnd.DeliveredInOrder`). The end alone does not say so: a sender that is closed before
  its writer is done ends the stream just as cleanly (`EndToEnd.CleanEndWithoutMessages`). Nil from
  `CloseWrite` does say so.
- The engine completes by itself if and only if the last thing to come back is not a lease of the HTTP
  connection tracker (`EngineCounters.NoMissedCompletion`); the exceptional state is reachable and final once
  the engine is aborting (`EngineMatching.CountersStrand`, `Engine.StrandedForEver`).
- A deferred WebSocket read failure is followed by the writer's `abort` if and only if the writer was not
  already past it (`WsArbiter.AbortFollowsUnlessPast`, `WsArbiter.DeferralPastAbort`). The comment in the
  source says the writer arbitrates after the write returns; in that last window it has already done so.
- Every accepted input is an encoding of its message if and only if the codec has no cipher, because a
  codec with one still accepts plain frames (`Wire.CanonicalOnlyWithoutCipher`).
- When all blocked calls wait for ever, closing a completion port can have its lock if and only if the packets
  to come are at least the calls in the kernel (`CompletionPort.CanLockIffEnough`). They are if no reserved
  packet is refused (`CompletionPort.CloseIsNeverStuck`), and need not be otherwise
  (`CompletionPort.RefusedPacketStrands`).

`dafny verify dfyconfig.toml` checks the whole project.

## Model

| member | source | states |
|---|---|---|
| Wire.DecodeOne | wire/wire.go:119-193 | an accepted frame takes at least a header, at most the input and at most the largest frame; its message is valid and within the bound; more input is asked for only below the largest frame |
| Wire.EncodeFrame | wire/wire.go:69-117 | the frame filled in place, octet range by octet range, is the specified encoding, with every error case |
| Wire.FillFrame | wire/wire.go:109-116 | the buffer ends up as header and payload, nothing else |
| Wire.FrameLayout | wire/wire.go:109-114 | every octet of the header of every encoded frame: O, G, version one, text and encryption bits, algorithm and payload length, most significant octet first |
| Wire.HeaderRoundTrip | wire/wire.go:207-229 | parsing a printed header, whatever follows it, gives its fields back |
| Wire.HeaderIsCanonical | wire/wire.go:207-239 | every header the parser accepts is the printed form of its fields |
| Wire.EncodedHeader | wire/wire.go:77-114 | every frame that comes out of encoding starts with a header its own decoder admits |
| Wire.PayloadRoundTrip | wire/wire.go:155-192 | plain, encrypted and encrypted text payloads decode to the message that was encoded |
| Wire.RoundTrip | wire/wire.go:69-193 | decoding an encoded message, whatever follows it, returns it and consumes exactly its frame |
| Wire.ProperPrefixNeedsMore | wire/wire.go:119-153 | every proper prefix of a frame asks for more |
| Wire.AppendStable | wire/wire.go:119-193 | appended octets change neither a success nor any error but the request for more |
| Wire.TrailingRejected | wire/wire.go:195-205 | one frame followed by anything is rejected, alone it is accepted |
| Wire.DamagedHeaderReported | wire/wire.go:123-134 | a frame with a damaged magic or version octet, or with unknown flags, is rejected with that field's error, by every decoder |
| Wire.FlippedFlags | wire/wire.go:231-239 | a flags octet damaged into another known value: a lost or new encryption bit is reported unless the algorithm number fits, a changed text bit makes a plain frame a message of the other kind if it can be one |
| Wire.TextPayloadIsText | wire/wire.go:98-102 | the wire payload of every encoded text message, plain or sealed, is valid UTF-8 |
| Wire.ForeignFrameReported | wire/wire.go:135-146 | a decoder with a smaller bound, no cipher or another algorithm says so from the header alone |
| Wire.PlainTextChecked | wire/wire.go:155-192 | a complete plain text frame is accepted if and only if its payload is UTF-8, and rejected for that otherwise |
| Wire.PlainEncodeDecided | wire/wire.go:62-117 | what encoding without a cipher gives for every message: each error, or the octets, up to the configured bound or 16 MiB |
| Wire.PlainCodecIsCanonical | wire/wire.go:69-205 | without a cipher, an input decodes to a message if and only if it is that message's encoding |
| Wire.CanonicalOnlyWithoutCipher | wire/wire.go:69-205 | every accepted input is an encoding of its message if and only if the codec has no cipher |
| Wire.SealedUnderHeader | wire/wire.go:84-103 | the payload of an encrypted frame is sealed under the frame's own first six octets if the cipher authenticates, under nothing if not, and a text frame carries it in base64 |
| Wire.EncryptedEncodeDecided | wire/wire.go:69-107 | a message can be encoded with a cipher if and only if it is valid, can be sealed, and fits before and after sealing and armour |
| Wire.EncryptedFrameDecided | wire/wire.go:155-192 | how every complete encrypted frame is decided, with each error: its payload must open under the frame's own first six octets |
| Wire.OpenedUnderHeader | wire/wire.go:171-181 | every encrypted frame that is accepted was opened under its own header and carries what came out |
| Wire.FlippedTextBitRejected | wire/wire.go:241-248 | if nothing opens under a header with the text bit flipped, an authenticated frame with it flipped is rejected |
| Bytes.Base64RoundTrip | wire/wire.go:98-102 | decoding base64 undoes encoding |
| Bytes.JoinIff | wire/wire.go:161-169 | base64 digits decode to exactly the octets they spell in groups of 24 bits, and to none exactly if one digit is left over |
| Bytes.SplitIff | wire/wire.go:98-102 | encoding gives exactly the digits that spell the octets with zero in the spare bits |
| Bytes.DigitIff | wire/wire.go:161-169 | a character is a digit if and only if it is that digit's in the alphabet |
| Bytes.Utf8ValidIff | message.go:27-39 | the validity test accepts exactly the UTF-8 forms of sequences of Unicode scalar values |
| Bytes.ReadPrinted | wire/wire.go:110-114 | reading a printed big-endian number gives the number back |
| Bytes.PrintRead | wire/wire.go:123-135 | printing a read big-endian number gives the octets back |
| Reassembly.TryFrame | transport/conn.go:408-440 | for any framer, a frame taken consumes at least one octet and no more than there are, so every pass ends |
| Reassembly.DecodeBuffered | transport/conn.go:407-461 | the offset loop and the shift down compute the specified pass, cut off where a handler closes the session |
| Reassembly.ReaderLoop | transport/conn.go:376-493 | the read loop over any pieces computes the specified reader; a handler that closes the session in OnOpen or in some message leaves exactly the messages up to there |
| Reassembly.PassAppend | transport/conn.go:408-461 | decoding a longer input is decoding its front, then the leftover with the rest |
| Reassembly.LeftoverWaits | transport/conn.go:413-415 | what is left over asks for more |
| Reassembly.PassStopsForReason | transport/conn.go:408-440 | for any framer and input, a pass takes valid frames one after the other and stops where, and for the reason, the framer's answer gives: its own error, a bad length, an invalid message, or a request for more |
| Reassembly.PassReportsFailure | transport/conn.go:416-426 | good frames followed by one the framer rejects give their messages and the framer's own error |
| Reassembly.ReaderReportsFailure | transport/conn.go:385-440 | and so does the reader, however the stream is cut and whatever follows |
| Reassembly.ReadExtends | transport/conn.go:399-473 | a reader that has the decoding of a stream has, after one more read, the decoding of the longer stream |
| Reassembly.ChunkingInvariance | transport/conn.go:385-492 | messages, leftover and first error depend on the stream only, not on how it was cut |
| Reassembly.CodecStreams | wire/wire.go:119-193 | the wire codec decides on prefixes the way reassembly needs |
| Reassembly.CodecFits | wire/wire.go:119-153 | an incomplete frame fits a bound of the largest payload plus header less one |
| Reassembly.BufferNeverFull | transport/conn.go:463-469 | with such a bound the read buffer never overruns |
| Reassembly.CuttingMattersExactlyWhenTooSmall | transport/conn.go:399-473 | cutting does not matter if and only if the bound is that large |
| Reassembly.DecodePrefix | transport/conn.go:408-461 | a prefix of a stream of frames decodes to a prefix of their messages, and to all of them if and only if it is complete |
| EndToEnd.AcceptedFramesDecode | transport/conn.go:376-493 | any prefix of the accepted frames decodes without error to a prefix of the accepted messages, to all if and only if it is all |
| EndToEnd.DeliveredInOrder | transport/conn.go:257-493 | the receiver has a prefix, in order, of the accepted messages; after a clean end of the stream it has all of them if and only if every accepted frame was written, as after a graceful close |
| EndToEnd.CleanEndWithoutMessages | transport/stream_graceful.go:144-151 | for every message that fits, a run in which it is accepted, the session closed, and the receiver sees a clean end with nothing delivered |
| EndToEnd.CleanEndExample | transport/conn.go:481-486 | one such input |
| EndToEnd.ClosedSocketIsFinal | transport/stream_graceful.go:144-151 | once the sender's socket is closed nothing more gets on the wire |
| EndToEnd.MayStop | transport/conn.go:446-450 | the application may close its session after any message a read brings |
| EndToEnd.CloseWriteDelivers | transport/stream_graceful.go:42-63 | after nil from CloseWrite, a receiver that took every octet has every accepted message |
| EndToEnd.MessageArrives | transport/conn.go:108-493 | for every message that fits and every cut of its frame, a run in which Send and CloseWrite answer nil and the receiver has exactly the message and sees the end |
| Gate.GateSteps | transport/gate.go:16-45 | enter, leave and close keep the count exact, and drained is closed once, exactly when the gate is shut and empty |
| Gate.SendGate.EnterGate | transport/gate.go:16-24 | enters unless shut, and says which |
| Gate.SendGate.LeaveGate | transport/gate.go:26-33 | one send fewer inside; the last one out of a shut gate closes drained |
| Gate.SendGate.ShutGate | transport/gate.go:35-45 | shuts once; drained is closed if nobody is inside |
| Lifecycle.SessionLifecycle.RequestWithPrevious | transport/lifecycle.go:60-79 | wins exactly when it raises the goal of a session that has not ended, and reports the goal it found |
| Lifecycle.SessionLifecycle.AbortWith | transport/lifecycle.go:89-108 | wins exactly when the session has not ended; reason and error are set with the goal, then five signals |
| Lifecycle.SessionLifecycle.TryMarkTerminal | transport/lifecycle.go:131-141 | wins exactly when the session has not ended |
| Lifecycle.SessionLifecycle.MarkTerminal | transport/lifecycle.go:143-156 | marks the session terminal and closes its three signals, whatever it was |
| Pipeline.SenderKeepsPipe | transport/conn.go:108-207 | every step of Send and TrySend keeps tokens, order, acknowledgements and the drain |
| Pipeline.WriterKeepsPipe | transport/conn.go:257-374 | every step of the writer, its failures and its deferred cleanup keeps them too |
| Ending.AbortAttempt | transport/stream_graceful.go:129-154 | an abort is safe wherever the other threads are; it wins exactly if the session has not ended |
| Ending.TailKeepsEnd | transport/lifecycle.go:102-106 | the winner's signals, in their order, keep the picture every thread relies on |
| SessionTheorems.StepKeeps | transport/conn.go:108-521 | the session invariant holds after every step, and no step takes history, signals or cause back |
| SessionTheorems.GracefulDrain | transport/conn.go:274-291 | when the write side is about to be closed, no send is inside, the queue is empty and the wire has exactly the accepted frames in order |
| SessionTheorems.DrainedForEver | transport/gate.go:26-45 | once drained, nothing is ever accepted again and drained is never closed twice |
| SessionTheorems.QueueStaysEmpty | transport/conn.go:274-291 | from the moment the write side is about to be closed the queue stays empty and everything accepted stays written |
| SessionTheorems.AcceptedIsValid | transport/conn.go:121-128 | whatever was accepted is a valid message with an encoding of it, numbered in the order of acceptance |
| SessionTheorems.TokensConserved | transport/admission.go:73-128 | slots and quota bytes in use are exactly those of senders, queue and writer, within bounds; at most one encoded frame is outside the quota |
| SessionTheorems.CleanedUp | transport/conn.go:258-262 | when the writer has stopped every count is zero and every accepted Send was acknowledged exactly once |
| SessionTheorems.NilMeansSent | transport/conn.go:145-163 | nil from Send means its frame was written in full at its place; nil from TrySend that it was accepted |
| SessionTheorems.WriterNeverBlocksOnAck | transport/conn.go:319-335 | the ack channel has room whenever the writer acknowledges |
| SessionTheorems.CloseWriteSound | transport/stream_graceful.go:42-63 | nil from CloseWrite means every accepted frame was written and then the write side closed |
| SessionTheorems.ShutdownSound | transport/stream_graceful.go:65-98 | nil from Shutdown means both halves closed, no abort, no error, closing closed once and OnClose returned |
| SessionTheorems.FirstCauseWins | transport/lifecycle.go:60-156 | at most one abort or graceful end wins, one owner per goal; the stored error is the winning abort's cause before any of its signals closes, and there is none without an abort |
| SessionTheorems.CauseIsFinal | transport/lifecycle.go:89-108 | along any run the goal never falls, and an ended session keeps its reason and error |
| SessionTheorems.HalvesMeet | transport/stream_graceful.go:168-187 | reader and writer that both closed their half never both leave the end to the other, and closing is closed once |
| SessionAnswers.SendAnswersItsAck | transport/conn.go:145-147 | a Send that takes its ack answers nil exactly if the ack does, and the ack does exactly if the frame was written in full |
| SessionAnswers.TrySendGivesUpOnlyWhenFull | transport/admission.go:100-128 | on an open session TrySend gives up only if every slot, the encoder, the bytes or the queue places are held by others |
| SessionAnswers.AnswerFollowsTheEnd | transport/stream_graceful.go:156-166 | past its wait, CloseWrite or Shutdown answers nil only if no abort had won before and an error only if one has won by then |
| SessionAnswers.ShutdownAnswersNilIff | transport/stream_graceful.go:85-98 | once its wait is over Shutdown answers nil if and only if no abort won |
| SessionAnswers.RequestIsNeverOrphaned | transport/stream_graceful.go:26-63 | until the write side is closed or the session has ended, the call that first requested the close still waits for it or is about to abort |
| SessionAnswers.GivingUpAbortsIffOwner | transport/stream_graceful.go:56-61 | a CloseWrite or Shutdown that gives up before the write side is closed aborts exactly if it owns that close |
| SessionAnswers.GivingUpShutdownAbortsIffOwner | transport/stream_graceful.go:91-96 | a Shutdown that gives up later aborts exactly if it owns the shutdown |
| SessionAnswers.SealedGateRefuses | transport/stream_graceful.go:26-40 | once the owner of a close waits, or the session is being closed, every new send is refused |
| SessionProgress.SendersAreNeverStuck | transport/conn.go:108-207 | in every reachable state every Send and TrySend under way has a next step; TrySend never waits |
| SessionProgress.WriterIsNeverStuck | transport/conn.go:257-374 | the writer goes on unless it waits for work, for senders inside the gate or for the signals of the session's end; no ack or token holds it up |
| SessionProgress.WriterWaitsForSignals | transport/lifecycle.go:102-106 | a writer that waits for the signals of the session's end waits for signals that go on |
| SessionProgress.ReaderIsNeverStuck | transport/conn.go:376-493 | the reader always has a next step, or waits for such signals |
| SessionProgress.CallersAreNeverStuck | transport/stream_graceful.go:42-98 | no CloseWrite, Shutdown or Close is stuck: it has a next step or waits for such signals |
| SessionProgress.WaitEnds | transport/stream_graceful.go:50-98 | a call whose signal is closed can go on to its second wait or to its answer |
| SessionProgress.FinalizerIsNeverStuck | transport/conn.go:503-521 | once both loops have stopped the finalizer goes on to the end |
| SessionRun.SendSucceeds | transport/conn.go:108-207 | for every message that fits there is a run in which Send answers nil with the frame written, and one in which TrySend does |
| SessionRun.SendAndCloseWriteSucceed | transport/stream_graceful.go:42-63 | and after it CloseWrite answers nil |
| SessionRun.SendAndShutdownSucceed | transport/stream_graceful.go:65-98 | and, once the peer has closed its side, Shutdown answers nil |
| SessionRun.ClosesEarly | transport/conn.go:209-217 | and one in which it is accepted and Close ends the session before the writer takes it |
| SessionEnds.CloseSweeps | transport/conn.go:357-374 | for every message that fits, a run in which Close finds it queued, every token comes back, nothing is written and the session is done |
| SessionEnds.FailedWriteEnds | transport/conn.go:309-337 | a run in which a write fails after any part of the frame: Send is refused by its ack, every token is back, and that failure is the session's error |
| SessionEnds.FailedReadEnds | transport/conn.go:475-488 | a run in which a read fails and that failure is the session's error |
| SessionEnds.OutsideFailureEnds | transport/stream_graceful.go:129-154 | a run in which a failure from outside both loops is the session's error |
| SessionEnds.FailedCloseAnswers | transport/conn.go:281-291 | a run in which the half-close fails and CloseWrite answers with that error |
| SessionEnds.PeerClosesLast | transport/stream_graceful.go:168-187 | a run in which the peer closes after the write side and the reader ends the session gracefully |
| StreamWriter.WriteAll | transport/conn.go:547-564 | the stream has a prefix of the frame; the error is the one of the last write, which is the first with one; without an error all of the frame is written, or the last write took nothing |
| Quota.ByteQuota.AcquireRound | transport/quota.go:40-50 | takes the bytes exactly when there is room, otherwise comes back with the current channel |
| Quota.ByteQuota.TryAcquire | transport/quota.go:73-84 | takes the bytes exactly when there is room, otherwise changes nothing |
| Quota.ByteQuota.GiveBack | transport/quota.go:91-105 | gives back, clamped at zero, and wakes every waiter |
| Quota.SessionQuota.TryAcquire | transport/quota.go:62-71 | takes from both levels or from neither |
| Quota.SessionQuota.Release | transport/quota.go:86-89 | gives back to both levels |
| Quota.ClampNeverFires | transport/quota.go:96-99 | every release finds at least its bytes on both levels |
| Quota.NoLostWakeup | transport/quota.go:35-60 | no waiter sleeps on an open channel while there is room for it, on either level |
| Quota.SessionGrantsIffFree | transport/quota.go:35-71 | a session grants bytes exactly if what threads hold leaves them free; a blocking call waits exactly if they can ever be |
| Quota.EngineGrantsIffFree | transport/limits.go:431-493 | and so does the engine if it meters; otherwise the session's bytes go back |
| Quota.WaiterGoesOn | transport/quota.go:38-59 | a waiter for which there is room again has its bytes two steps later |
| Quota.WaiterMayGiveUp | transport/quota.go:52-57 | a waiting call may be cancelled at any time and then gives back what it has |
| Quota.WokenOnlyByRelease | transport/quota.go:46-50 | a waiter's channel is closed by nothing but a release of bytes at its level |
| Quota.WaiterIsServed | transport/quota.go:24-105 | for all sizes, a run in which a send waits for another's bytes and has its own once they are given back |
| Quota.LimitsHold | transport/limits.go:431-493 | neither limit is ever exceeded and no counter is negative |
| Quota.TwoLevelsAgree | transport/quota.go:24-105 | the engine's counter is the sum of the sessions', corrected for threads between the two levels |
| Quota.QuiescentIsZero | transport/quota.go:24-33 | when nobody holds anything both levels are back at zero, so failures rolled back exactly |
| Admission.AdmissionController.AdmitOpening | transport/limits.go:171-188 | admits exactly if the three counters together are below the limit and the peer's count below its own, and counts; otherwise changes nothing |
| Admission.AdmissionController.ReleaseConnection | transport/limits.go:273-297 | one fewer in the state the lease had, and the peer entry goes with its last connection |
| Admission.AdmissionController.AcquireHandshake | transport/limits.go:307-316 | counts exactly within the limit |
| Admission.AdmissionController.IsIdle | transport/limits.go:381-385 | true exactly when the five counters are zero |
| Admission.ListenerCapacity.Acquire | transport/limits.go:106-120 | takes capacity exactly below the limit |
| Admission.ListenerCapacity.Release | transport/limits.go:121-134 | gives one back, never below zero |
| Admission.ConnectionLease.Activate | transport/limits.go:217-240 | counts an opening lease as active once; answers for every state |
| Admission.ConnectionLease.BeginDrain | transport/limits.go:242-260 | counts an active lease as draining once, otherwise changes nothing |
| Admission.ConnectionLease.Release | transport/limits.go:262-299 | the first release settles controller and listener; later ones change nothing |
| Admission.InvIsInductive | transport/limits.go:106-345 | counters, peer entries, listener use and activities stay exact through every step of every thread |
| Admission.CountersExact | transport/limits.go:166-299 | each counter is the number of leases counted under that state plus the releases still settling it |
| Admission.PeerEntryIffUsed | transport/limits.go:289-295 | a peer has an entry exactly when it has a live lease or a release in progress |
| Admission.LimitsHold | transport/limits.go:166-190 | the limits bound the live leases overall, per peer and per listener |
| Admission.AdmitsUnlessFull | transport/limits.go:166-190 | in every reachable state a connection is turned away exactly if every place is taken by a lease or by a release still settling, overall or for its peer; otherwise it gets its lease |
| Admission.ListenerRefusesIffFull | transport/limits.go:106-120 | a listener refuses exactly if all its capacity is taken by leases or by calls on their way |
| Admission.ActivityAdmittedIff | transport/limits.go:301-345 | a handshake or upgrade can start exactly while fewer than the limit are in progress |
| Admission.FirstIsAdmitted | transport/limits.go:166-190 | whatever the limits, a first connection is admitted |
| Admission.RoundOfALease | transport/limits.go:106-299 | it can go through all its states and be released, and the controller is as new |
| Admission.ClampsNeverFire | transport/limits.go:217-299 | every guarded decrement finds something to take |
| Admission.ReleasedAtMostOnce | transport/limits.go:262-273 | however many threads release a lease, one release takes effect |
| Admission.IdleIffSettled | transport/limits.go:381-385 | idle answers true exactly when every lease and activity is released and no release is under way |
| Admission.LocksStay | transport/limits.go:221-259 | a lease between its counter and its state is always held by the thread about to finish it |
| Admission.QuiescentIsEmpty | transport/limits.go:262-345 | with everything released and no call under way the controller is as new |
| Engine.EngineBarrier.BeginOp | transport/engine_tracking_add.go:3-11 | counts an operation exactly while running |
| Engine.EngineBarrier.EndOp | transport/engine_tracking_add.go:13-21 | one operation fewer, then the completion check |
| Engine.EngineBarrier.AddListener | transport/engine_tracking_add.go:88-96 | tracks the listener exactly while running |
| Engine.EngineBarrier.AddWithLease | transport/engine_tracking_add.go:28-47 | tracks the session and activates the lease it brings exactly while running and the lease is usable |
| Engine.EngineBarrier.AddFresh | transport/engine_tracking_add.go:72-86 | tracks a session without a lease exactly while running and within the limits, with a new active lease |
| Engine.EngineBarrier.RemoveSession | transport/engine_tracking_remove.go:8-16 | forgets the session, tracked or not, settles its lease once, then the completion check |
| Engine.EngineBarrier.RemoveListener | transport/engine_tracking_remove.go:38-43 | forgets the listener, then the completion check |
| Engine.EngineBarrier.CheckDone | transport/engine_tracking_remove.go:45-53 | completes exactly when not running, nothing is tracked and the five counters are zero |
| Engine.EngineBarrier.BeginGracefulShutdown | transport/engine_shutdown.go:53-72 | the one call that finds the engine running counts every active tracked lease as draining, whatever the order of the loop, then the check |
| Engine.EngineBarrier.BeginAbort | transport/engine_shutdown.go:104-117 | aborts once, from running or draining, and keeps the first reason |
| Engine.EngineBarrier.AcquireHandshake | transport/engine_admission.go:18-30 | counts a handshake exactly while running and within the limit |
| Engine.StepKeeps | transport/engine_tracking_add.go:3-96 | every step keeps operations, leases, sessions, mutex and phase consistent and only moves forward |
| Engine.RunForward | transport/engine_shutdown.go:53-117 | along any run the phase never goes back, done stays closed and the first abort reason stays |
| Engine.DoneBarrier | transport/engine_tracking_remove.go:45-53 | from the moment done is closed, at every later point, no operation, listener, session, lease or activity exists |
| Engine.NoMissedCompletion | transport/engine_tracking_remove.go:8-53 | with nothing left and no check under way or owed, done is closed, except exactly after an unchecked return of a tracker's lease |
| Engine.NoMissedCompletionWithoutHolders | transport/engine_admission.go:44-50 | in runs without tracker leases, as on the TCP, TLS and UDP paths, there is no exception |
| Engine.GracefulDrainsAll | transport/engine_shutdown.go:53-72 | once a graceful shutdown has gone through its loop every tracked lease is draining and none is active, from then on |
| Engine.SuccessMeansNeverAborted | transport/engine_shutdown.go:162-174 | Shutdown reports success only if the engine drained and never began to abort |
| Engine.ShutdownReports | transport/engine_shutdown.go:162-174 | what the shutdown of any finished engine reports: the recorded error if there is one, else that it was closed if it ever began to abort, and success exactly otherwise |
| Engine.StrandedIsReachable | transport/websocket_server_admission.go:47-61 | a run in which a tracker's lease returns last and done stays open |
| Engine.StrandedForEver | transport/engine_tracking_remove.go:45-53 | such an aborting engine never completes |
| EngineRuns.ShutdownSucceeds | transport/engine_shutdown.go:53-72 | a run in which an engine with a session is shut down gracefully, completes and reports success |
| EngineRuns.AbortCompletes | transport/engine_shutdown.go:104-174 | for every reason, a run in which an aborting engine waits for a listener and an activity, completes with the last check and reports the recorded error or that it was closed |
| EngineRuns.TakesOver | transport/websocket_server_admission.go:31-46 | a run in which a lease goes from one operation to the tracker and on to another operation |
| EngineRuns.GivesBack | transport/limits.go:262-299 | and is given back in two halves |
| EngineCounters.IdleIsCounters | transport/limits.go:381-385 | whenever the relation holds, the counters are at zero exactly when every lease and activity the engine knows is back |
| EngineCounters.StepProjects | transport/engine_tracking_remove.go:8-53 | every step of engine and controller together, the check on the counters included, is a step of each or none, and keeps the relation between their leases |
| EngineCounters.DoneBarrier | transport/engine_tracking_remove.go:45-53 | from the moment done is closed, at every later point, the counters are zero, every lease and activity is released and settled, and nothing is tracked |
| EngineCounters.NoMissedCompletion | transport/engine_tracking_remove.go:45-53 | with the counters at zero, nothing tracked and no check under way or owed, done is closed, except exactly after an unchecked return of a tracker's lease |
| EngineCounters.CountersAreLeases | transport/limits.go:217-299 | each counter is the number of leases the engine has in that state or on their way from it |
| EngineCounters.ActiveStaysZero | transport/engine_shutdown.go:53-72 | once a graceful shutdown has gone through its loop the counter of active connections stays at zero |
| EngineMatching.StepIsMatched | transport/limits.go:166-299 | every step of the engine is matched by steps of the controller to the same engine state, the relation kept |
| EngineMatching.EveryEngineStateIsJoint | transport/engine_admission.go:5-50 | whatever the engine reaches, engine and controller reach together |
| EngineMatching.CountersStrand | transport/websocket_server_admission.go:47-61 | a reachable state with all counters at zero and nothing tracked in which done stays open |
| WsArbiter.WsWriteState.BeginWrite | transport/websocket_write_state.go:24-30 | a write is in flight, nothing is pending |
| WsArbiter.WsWriteState.PendingRead | transport/websocket_write_state.go:32-38 | the failure deferred so far, without taking it |
| WsArbiter.WsWriteState.EndWrite | transport/websocket_write_state.go:40-49 | the deferred failure, and nothing pending any more |
| WsArbiter.WsWriteState.DeferReadFailure | transport/websocket_write_state.go:51-62 | accepts exactly while a write is in flight and keeps the first failure |
| WsArbiter.DeferredFailureEndsSession | transport/websocket.go:323-385 | once the round a failure was left with is over, the session has ended and the writer is gone |
| WsArbiter.DeferredRoundCompletes | transport/websocket.go:323-385 | along any run the writer moves at most five times in that round, then it is gone and the session has ended; until then a further move is possible |
| WsArbiter.BeginDiscardsNothing | transport/websocket_write_state.go:24-30 | begin never finds a failure to discard |
| WsArbiter.EndReturnsTheFailure | transport/websocket.go:329-353 | after a successful write, end returns exactly the deferred failure |
| WsArbiter.ReturnedAtMostOnce | transport/websocket_write_state.go:40-49 | no failure is returned twice |
| WsArbiter.NoReaderMeansEnding | transport/websocket.go:423-447 | a session without a reader has ended, or the writer is about to report its failure, or a shutdown is left to the writer |
| WsArbiter.NoWriterMeansEnded | transport/websocket.go:275-321 | a session whose writer is gone has ended |
| WsArbiter.ReadCauseIsGenuine | transport/websocket.go:361-373 | a recorded read failure is the one the reader saw, whichever side recorded it; no cause, an idle timeout or an undecodable message is recorded only for that |
| WsArbiter.DeferredFailureIsReported | transport/websocket.go:329-373 | along any run a deferred failure is what the writer reports after its write, and if that report wins it is what is recorded, unless the write itself timed out |
| WsArbiter.ReturnedWriterCarries | transport/websocket.go:329-358 | a writer whose write has returned has exactly the deferred failure to report |
| WsArbiter.ReaderReportsOrDefers | transport/websocket.go:435-446 | a failure the reader has to defer or report is left with a write in flight, or reported, and recorded if the report wins |
| WsArbiter.LeftToWriterMeans | transport/websocket.go:423-431 | a failure is left to the closing writer only in a shutdown, and only a normal closure or one after the drain |
| WsArbiter.DerivativeFailureIsLeft | transport/websocket.go:423-431 | along any run such a failure is always left to the writer unless somebody aborts |
| WsArbiter.FailureAfterAbortIsNotLeft | transport/websocket.go:423-431 | a failure met after an abort was signalled never is |
| WsArbiter.IdleTimeoutIsReported | transport/websocket.go:432-433 | unless the session is closing, a read-idle timeout is reported as that, and recorded if the report wins |
| WsRuns.GracefulShutdown | transport/websocket.go:275-321 | for every failure the reader meets in the handshake, a run of a shutdown that ends without a cause |
| WsRuns.HandshakeFails | transport/websocket_graceful.go:102-106 | a run in which the close handshake fails and is the cause |
| WsRuns.AbortedFromOutside | transport/websocket.go:275-283 | for every reason, a run in which reader and writer see the abort and leave |
| WsRuns.UndecodableIsRecorded | transport/websocket.go:452-459 | a run in which a message that cannot be decoded is the cause |
| WsRuns.ReaderRecords | transport/websocket.go:432-446 | for every failure, a run in which the reader records it, as an idle timeout, as nothing or as itself |
| WsRuns.WriteTimeoutRecorded | transport/websocket.go:434-435 | for every failure that is no idle timeout, a run in which the reader records the timeout of the write in flight |
| WsRuns.WriterRecords | transport/websocket.go:329-353 | for every failure that is no idle timeout, a run in which it is deferred and the writer records it |
| WsArbiter.AbortFollowsUnlessPast | transport/websocket.go:356-384 | after a deferral the writer still calls abort if and only if it was not between abort and end |
| WsArbiter.DeferralPastAbort | transport/websocket.go:373-374 | a run in which the reader defers in that window |
| Tracker.RegisterKeepsInverseIff | transport/websocket_server_admission.go:76-83 | registering keeps the maps inverse if and only if the connection is not tracked yet |
| Tracker.RebindKeepsInverseIff | transport/websocket_server_admission.go:92-104 | rebinding keeps them inverse if and only if the new connection is not another holder's |
| Tracker.RebindMoves | transport/websocket_server_admission.go:92-104 | after a rebind the holder is found under the new connection and not under the old one; every other connection and holder is as before |
| Tracker.DetachKeepsInverse | transport/websocket_server_admission.go:106-113 | detaching keeps them inverse and leaves the holder in neither |
| Tracker.HttpConnTracker.Register | transport/websocket_server_admission.go:76-83 | a new holder that holds, under the connection |
| Tracker.HttpConnTracker.Rebind | transport/websocket_server_admission.go:92-104 | moves the holder to the new connection in both maps and touches nothing else, or reports that there is none |
| Tracker.HttpConnTracker.DetachHolder | transport/websocket_server_admission.go:106-113 | removes the holder from both maps |
| Tracker.HttpConnTracker.GiveUp | transport/websocket_server_admission.go:31-61 | hands the lease out exactly if nobody has yet, and detaches |
| Tracker.HttpConnTracker.CloseAll | transport/websocket_server_admission.go:121-131 | exactly the tracked holders that held are released and gone, whatever the order |
| Tracker.MapsStayInverse | transport/websocket_server_admission.go:63-113 | in every reachable state the maps are inverse and a holder that holds is tracked |
| Tracker.HandedOutAtMostOnce | transport/websocket_server_admission.go:31-61 | a lease is handed out at most once, by one take or one release |
| Tracker.ReturnedMeansUntracked | transport/websocket_server_admission.go:43-59 | after a take or release returned its holder is in neither map, even if rebound in between |
| Tracker.TrackedIffHeld | transport/websocket_server_admission.go:76-113 | with no call under way exactly the holders that hold are tracked |
| Tracker.RebindIsSeen | transport/websocket_server_admission.go:92-104 | in every reachable state a rebind that finds its connection moves the holder |
| Tracker.RoundOfAConnection | transport/websocket_server_admission.go:31-113 | for all connections, a run that registers, rebinds, gives up with a rebind in between, and returns with nothing left |
| CompletionPort.TimeoutMillis | iocp/iocp_windows.go:148-163 | rounds up, and only a negative timeout means for ever |
| CompletionPort.PacketsCoverWaiters | iocp/iocp_windows.go:126-137 | from closing on, reserved packets queued, still to post or refused are at least the calls in the kernel |
| CompletionPort.HandleOutlivesUsers | iocp/iocp_windows.go:87-146 | the handle is open while any call uses it |
| CompletionPort.CanLockIffEnough | iocp/iocp_windows.go:101-145 | when all calls wait for ever, Close can have the lock if and only if the packets queued or still to be posted are at least the calls in the kernel |
| CompletionPort.CloseIsNeverStuck | iocp/iocp_windows.go:126-145 | if no reserved packet was refused, Close can always have the lock, although every call waits for a packet |
| CompletionPort.RefusedPacketStrands | iocp/iocp_windows.go:135-137 | a reachable state with one refused packet from which Close can never have the lock |
| CompletionPort.PostQueues | iocp/iocp_windows.go:70-83 | while the port is open every Post can queue its packet |
| CompletionPort.CompletionIsTaken | iocp/iocp_windows.go:85-124 | a completed operation's packet can be taken by any Get, which leaves the port as before |
| CompletionPort.CloseWakes | iocp/iocp_windows.go:126-137 | Close can post exactly one reserved packet per call counted when it looked |
| CompletionPort.CloseCanComplete | iocp/iocp_windows.go:126-145 | from every reachable state Close can go through to closing the handle, however many calls wait for ever |

## Left out

- Sockets, TLS, HTTP and the WebSocket library: their results are free choices of the environment.
- Timeouts, deadlines and the activity clock: an elapsed timeout is a possible failure or a possible abort; no claim about durations is made.
- WebSocket client dial admission (transport/websocket_dial_admission.go): when the dial callback runs is decided inside net/http.
- Packet sockets (transport/packet.go): a second, easier instance of gate, slots, quota and drain; their leases are in the engine model.
- The WebSocket send pipeline: the same queue and slots as the stream session; only the arbitration between reader and writer is modelled.
- Observers, statistics, rejection counters and error classification: telemetry and tables over foreign error types.
- client/, quic/, epoll/, kqueue/ and endpoint parsing: wrappers over foreign libraries and the kernel.
- Ciphers: only that opening undoes sealing.
- 32-bit platforms: `int` is taken to have 64 bits, so the length guard of the frame decoder never fires and counters do not overflow.
- The writer-drained signal of the stream session: nothing in the modelled part waits for it.
- The activity loop of a session: it is a source of failures in the model, and the model's finalizer does not wait for it; the program's does, so the model has more runs.
- Liveness under fair scheduling: the theorems are safety, with possibility results such as `SendAndShutdownSucceed`, `WaiterIsServed`, `RoundOfALease`, `DeferredRoundCompletes`, `CloseCanComplete` and `StepIsMatched`.
- Admission.ListenerCapacity.Acquire: the compare-and-swap loop runs alone in the class, so its first swap wins; racing swaps are steps of the admission machine.
- Admission.ConnectionLease.Release: runs without interference in the class; the windows between its three locks are steps of the admission machine.
- Quota.SessionQuota.TryAcquire: asks for a counter that is not negative, which `Quota.LimitsHold` proves of every reachable state.
- Engine.EngineBarrier.RemoveSession: the class runs a section without interference; what other locks let through in between are steps of the engine machine.
- EngineMatching.StepIsMatched: for limits that refuse nothing; with limits an acquisition may be refused, which the joint machine models.
- EndToEnd.DeliveredInOrder: a connection reset that reaches the receiver as an error counts as the receiver stopping.
- CompletionPort.CloseIsNeverStuck: the port is modelled as a step relation on values, not as a class; the 32-bit wrap-around of its waiter count is not modelled.
- Reassembly.ReaderLoop: the capacity the buffer retains is not modelled.
