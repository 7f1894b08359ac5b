# Verified models of acva

acva is a voice orchestrator: it turns microphone audio into utterances, an LLM's token
stream into numbered sentences, and the sentences into audio, and it lets the user
interrupt. This project models the parts of it that are hard to get right and proves what
they promise over every input, every chunking, every event order and every interleaving.

`dafny verify dfyconfig.toml` checks all of it.

## How it is organised

One module, or a specification, a program and a theorems module, for each component:

- `SentenceSplitter.dfy`, `SentenceSplitterTheorems.dfy`, `SentenceSplitterExact.dfy`,
  `SentenceSplitterBytes.dfy`, `ManagerTurn.dfy`: the streaming sentence splitter, exactly
  where it cuts, what its tests on bytes mean, and the sentence cap that a turn puts on top.
- `TtsBridge.dfy`, `TtsBridgeProgram.dfy`, `TtsBridgeTheorems.dfy`, `TtsBridgeCancelled.dfy`,
  `TtsBridgeHistory.dfy`: the two-thread bridge from sentences to the playback queue.
- `Fsm.dfy`, `FsmTheorems.dfy`, `FsmHistory.dfy`, `BargeIn.dfy`, `TurnWriter.dfy`: the dialogue
  state machine, the turn factory, the barge-in detector and what is remembered of a turn;
  `TurnRow.dfy` goes from the LLM's text to the row.
- `BoundedQueue.dfy`, `BoundedQueueHistory.dfy`, `SpscRing.dfy`, `LoopbackSink.dfy`: queues
  and rings.
- `Endpointer.dfy`, `AudioPipeline.dfy`, `AudioPipelineTheorems.dfy`, `AudioPipelineGate.dfy`,
  `UtteranceBuffer.dfy`, `AudioPipelineWithBuffer.dfy`, `AudioPipelineStreaming.dfy`,
  `AudioPipelinePublishing.dfy`, `AudioClock.dfy`: from captured frames to utterances and to
  the live sink.
- `SseParser.dfy`, `Wav.dfy`: a streaming parser and a file format, each with its printer.
- `Modulo.dfy`, `Samples.dfy`, `Wrappers.dfy`: remainders, audio samples and an option type.

Where the source is a class that updates its fields, so is the model. Each method is proved
equal to one step of a specification function (`Step`, `Handle`, `Apply`, ...), and the
theorems are about runs of that function: sequences of bytes, events, frames or chunks, or
schedules of atomic steps. The `...History` modules say what the state is from the labels of
a run and the states in front of them, without that function. `Now()` is the object's state as a value of the specification;
a ghost field named `rest`, `waiting` or `history` holds what the program does not store.

Concurrent components are labelled transition systems. A step is one stretch of code under
a mutex (`BoundedQueue`, `TtsBridge`), one `is_cancelled` check, enqueue, token cancel or
queue clear (`TtsBridge`), or one load or store (`SpscRing`, where a load of the other
thread's index may return any value since the last one seen). `Run` gives a state only
for schedules all of whose steps are enabled.

A `char` stands for one byte. Times are integers (nanoseconds, or milliseconds where
named so), probabilities and thresholds are reals. Integers are unbounded except where a
width is written out: the sentence numbers and the cap, the sentence counters of the state
machine, the fields and the chunk advance of WAV files, the trim target of a slice.

## What turned out to differ from the documentation, or to have an exact limit

- The splitter's header asks for blank space and a capital letter after a terminator; the
  code cuts without either (`HeaderRuleIsNotKept`). Where it does cut is determined by the
  text alone (`CutsAreExact`): at a terminator that stands alone, is no abbreviation's or
  list marker's, and is not followed by a digit. The header's rule is kept exactly for the
  texts in which blank space and a capital follow all of these (`HeaderRuleIsKeptExactlyWhen`).
  The ellipsis test of the code is dead (`EllipsisBranchIsDead`).
- The manager's backstop in `on_token` is never reached, and its 32-bit value wraps to 0 for
  the largest cap, which then lets one flushed sentence too many through; `RunTurn` says
  exactly when, and `BackstopCanWrap` gives a turn.
- An interrupt that arrives after `LlmFinished` drops the turn's pending sentences without
  cancelling their tokens (`InterruptBehindTheEnd`), so a sentence can end as cancelled and
  unclosed although its own token never is. That happens exactly to the sentences that an
  interrupt of their turn finds in the queue (`LiveSentenceIsCancelledExactlyWhen`); every
  other settled sentence with a live token is closed once (`LiveSentenceIsClosedExactlyWhen`).
- A turn of the state machine ends on time if and only if fewer than 2^32 sentences are
  unplayed when the LLM ends (`TurnCompletesOnTime`); `SomeTurnsCompleteEarly` gives one.
- The microphone's published starts and ends alternate unless a frame runs out the wake-word
  window during an utterance of the endpointer's and another candidate matures later
  (`AlternatesExactlyWhen`); `TwoStartsInARow` is such a run.
- The live sink is meant to get what the buffer records. It gets the start's frame once more
  behind the replay (`LiveSinkFollowsTheRecording`), which repeats it exactly when the buffer
  was idle and its padding holds the frame; a shorter padding begins recording and replay in
  the middle of that frame, and a buffer that a mute or the gate left recording replays nothing
  and begins the next recording without it (`WhatAStartReplays`). `TheFrameIsSentTwice`,
  `TheFrameIsCut` and `TheFrameIsLost` are such runs.
- The sentence cap cancels the turn's token, so a turn it cuts is remembered as interrupted,
  with only what was played when the stream ended, and otherwise not at all
  (`RowIsTheText`, `CapCanForgetATurn`); every other turn is remembered whole.
- A loopback chunk longer than the ring anchors the time axis to its first stored sample
  (`CaptureSeesTheChunk`). Two captures a whole number of frames apart tile exactly, unless
  both round half a frame away from the anchor on different sides of it (`CapturesTile`);
  `TiesDoNotTile` gives two.
- `frames_at(steady_for(n))` is n only at the anchor or when the rate divides 10^9
  (`RoundTripIsExactExactlyWhen`), although the header calls it the inverse;
  `OneFrameOffTheAnchor` is a frame that is lost.
- The walk over a WAV file stands still for ever exactly when it comes to a chunk header of
  one of two sizes (`WalkCirclesExactlyWhen`, `ReadingNeverEndsExactlyWhen`); such files exist
  (`SomeFilesAreNeverRead`). `make_wav` is read back only while the data fits 32 bits
  (`RoundTrip`, `TooLongIsReadAsNothing`).

## Model

| member | source | states |
|---|---|---|
| Splitting.SentenceSplitter.constructor | src/dialogue/sentence_splitter.cpp:51-55 | a new splitter is empty, outside a fence, with nothing pending |
| Splitting.SentenceSplitter.Reset | src/dialogue/sentence_splitter.cpp:57-63 | back to the state of a new splitter |
| Splitting.SentenceSplitter.Push | src/dialogue/sentence_splitter.cpp:65-145 | a whole delta has the effect and the output of its bytes fed one by one, whatever was there before |
| Splitting.SentenceSplitter.PushChar | src/dialogue/sentence_splitter.cpp:66-144 | one byte: fence toggling first, then the pending terminator, then the byte itself |
| Splitting.SentenceSplitter.SettlePending | src/dialogue/sentence_splitter.cpp:82-108 | a deferred terminator is extended by a dot, forgotten after a digit or an ellipsis, and cut otherwise |
| Splitting.SentenceSplitter.ExamineLast | src/dialogue/sentence_splitter.cpp:110-143 | a terminator is ignored or deferred; other bytes count towards the forced flush |
| Splitting.SentenceSplitter.Flush | src/dialogue/sentence_splitter.cpp:147-154 | the rest of the buffer comes out unless it is blank, and nothing stays behind |
| Splitting.SentenceSplitter.ResolvePending | src/dialogue/sentence_splitter.cpp:156-173 | the cut is just behind the pending terminator; the counter restarts at what is left |
| Splitting.SentenceSplitter.FlushBuffer | src/dialogue/sentence_splitter.cpp:175-184 | the whole buffer is one piece; the fence mode survives |
| Splitting.SentenceSplitter.Trim | src/dialogue/sentence_splitter.cpp:34-39 | leading blank space goes, nothing else |
| Splitting.SentenceSplitter.LastWordIsAbbreviation | src/dialogue/sentence_splitter.cpp:186-206 | exactly when the longest word before a final dot is a known abbreviation in lower case |
| Splitting.SentenceSplitter.BufferEndsWithListMarker | src/dialogue/sentence_splitter.cpp:208-229 | exactly when one to three letters or digits, at the start or after blank space, precede a final dot |
| SplittingTheorems.StepKeepsInv | src/dialogue/sentence_splitter.cpp:66-144 | one byte keeps: fence mode is fence parity; a pending terminator lies in the buffer with \|buf\| = pos + max(1, dot run), never in a fence; the counter is at most one above the buffer; and every cut made is justified |
| SplittingTheorems.EllipsisBranchIsDead | src/dialogue/sentence_splitter.cpp:124-129 | in reachable states the ellipsis test on a terminator is never true |
| SplittingTheorems.FeedKeeps | src/dialogue/sentence_splitter.cpp:65-145 | for every text: all of that, every cut lies outside fences after a terminator that is neither abbreviation, list marker nor ellipsis and before the byte that confirmed it, or after a blank or comma past the length limit |
| SplittingTheorems.FeedConcat | src/dialogue/sentence_splitter.cpp:65-66 | pushing a then b is pushing a + b: same state, same pieces |
| SplittingTheorems.PushConserves | src/dialogue/sentence_splitter.cpp:65-184 | the input is blank space and the emitted sentences in order, then the buffer; sentences are non-empty and start with no blank |
| SplittingTheorems.FlushConserves | src/dialogue/sentence_splitter.cpp:65-184 | after the flush nothing but blank space has been lost and nothing repeated |
| SplittingTheorems.FencesCountAfresh | src/dialogue/sentence_splitter.cpp:67-80 | after text that ends outside a fence and not in a backtick, fences can be counted from zero |
| SplittingTheorems.CutsAvoidFences | src/dialogue/sentence_splitter.cpp:67-80 | no prefix of justified pieces ends inside a fence of the whole stream |
| SplittingTheorems.ModeIsFenceParity | src/dialogue/sentence_splitter.cpp:67-80 | the mode is the fence parity of the whole stream, and every emission point lies outside its fences |
| SplittingTheorems.LocalFencesAreGlobal | src/dialogue/sentence_splitter.cpp:67-80 | the fences seen in the buffer are those of the stream at that place |
| SplittingExact.StepIsByText | src/dialogue/sentence_splitter.cpp:66-144 | in every reachable state one byte cuts before itself exactly when two bytes of text confirm a lone terminator, and behind itself exactly when the text is too long at a blank or comma; the new state is again what the text since the cut determines |
| SplittingExact.BufferIsByText | src/dialogue/sentence_splitter.cpp:65-145 | for every text, buffer, mode, pending position, dot run and counter are functions of the text since a place that the text determines |
| SplittingExact.CutsAreExact | src/dialogue/sentence_splitter.cpp:82-143 | for every text and position: cut at a terminator if and only if the text-only predicate says so, and by length if and only if the other does |
| SplittingExact.HeaderRuleIsKeptExactlyWhen | src/dialogue/sentence_splitter.hpp:16-19 | blank space and a capital follow every terminator cut if and only if they follow every place of the text-only predicate |
| SplittingExact.HeaderRuleIsNotKept | src/dialogue/sentence_splitter.hpp:16-19 | a text with a terminator cut that has neither blank space nor a capital behind it |
| SplittingExact.HeaderPlaceIsCutExactlyWhen | src/dialogue/sentence_splitter.hpp:16-26 | a place with blank space and a capital behind it is cut if and only if it is outside fences and a terminator that stands alone |
| SplittingBytes.FenceIsParity | src/dialogue/sentence_splitter.cpp:67-75 | a fence is open if and only if the places with a third backtick in a row are odd in number, and fences are looked for |
| SplittingBytes.AbbreviationIsKnownWord | src/dialogue/sentence_splitter.cpp:186-206 | a final dot is an abbreviation's if and only if the whole word before it is a known one, whatever letters are capitals |
| SplittingBytes.ListMarkerIsShort | src/dialogue/sentence_splitter.cpp:208-229 | a final dot is a list marker's if and only if one to three ASCII letters or digits precede it, behind blank space or nothing |
| ManagerTurn.Turn.constructor | src/dialogue/manager.cpp:265-281 | a turn starts with nothing published, number 0, below the cap |
| ManagerTurn.Turn.OnToken | src/dialogue/manager.cpp:292-328 | after any deltas, exactly the first cap + 1 streamed sentences are published; cancelled implies cap + 1 of them; the delta is echoed unless cancelled |
| ManagerTurn.Turn.PublishUntilCancelled | src/dialogue/manager.cpp:296-324 | published list, number and cap state follow the sentences so far; the backstop branch is unreachable |
| ManagerTurn.Turn.PublishOne | src/dialogue/manager.cpp:304-323 | pending exactly at the cap, cancelled exactly one later |
| ManagerTurn.Turn.OnFinished | src/dialogue/manager.cpp:330-348 | the published sentences are the first cap + 1 of the whole finished text, exactly when the 32-bit backstop has not wrapped |
| ManagerTurn.Turn.PublishTail | src/dialogue/manager.cpp:333-343 | the flushed sentence goes out only within the cap, with the one exact exception of the wrapped backstop |
| ManagerTurn.RunTurn | src/dialogue/manager.cpp:265-358 | for every way of cutting the text into deltas and every cap: the first cap + 1 sentences of push-then-flush on the concatenation, numbered in order, if and only if the backstop has not wrapped before a flushed sentence; always below the largest cap; the stream is cut exactly when more sentences than the cap are complete before its end |
| ManagerTurn.BackstopCanWrap | src/dialogue/manager.cpp:281-336 | a turn on which it has |
| ManagerTurn.LaterTextIsIgnored | src/dialogue/manager.cpp:293-293 | once past the cap, no further text changes what is published |
| TtsBridgeProgram.TtsBridge.constructor | src/dialogue/tts_bridge.cpp:13-18 | a new bridge is the initial state |
| TtsBridgeProgram.TtsBridge.OnLlmStarted | src/dialogue/tts_bridge.cpp:91-96 | is the LlmStarted step: the turn's token is replaced |
| TtsBridgeProgram.TtsBridge.TokenFor | src/dialogue/tts_bridge.cpp:64-75 | the turn's token, minted if missing |
| TtsBridgeProgram.TtsBridge.OnLlmSentence | src/dialogue/tts_bridge.cpp:98-116 | is the LlmSentence step: counted as cancelled, or queued with its token |
| TtsBridgeProgram.TtsBridge.OnLlmFinished | src/dialogue/tts_bridge.cpp:118-124 | is the LlmFinished step: only the token entry goes |
| TtsBridgeProgram.TtsBridge.TurnTokenToCancel | src/dialogue/tts_bridge.cpp:135-143 | the turn's token is listed for cancelling, or a pre-cancelled one installed |
| TtsBridgeProgram.TtsBridge.OnUserInterrupted | src/dialogue/tts_bridge.cpp:126-157 | is the UserInterrupted step, and returns the tokens that the following steps cancel one by one |
| TtsBridgeProgram.TtsBridge.DropPending | src/dialogue/tts_bridge.cpp:145-153 | the queue without the turn's jobs, in order, each dropped one counted |
| TtsBridgeProgram.TtsBridge.IoPops | src/dialogue/tts_bridge.cpp:166-176 | is the IoPops step: the front job becomes the one in flight |
| TtsBridgeProgram.TtsBridge.JudgeAndCount | src/dialogue/tts_bridge.cpp:322-334 | cancelled before errored before synthesized, and exactly one counter moves |
| TtsBridgeProgram.TtsBridge.IoReleases | src/dialogue/tts_bridge.cpp:178-181 | is the IoReleases step |
| TtsBridgeProgram.TtsBridge.StopLocks | src/dialogue/tts_bridge.cpp:41-53 | is the StopLocks step: the job in flight is cancelled, the loop told to drain |
| TtsBridgeTheorems.StepKeepsInv | src/dialogue/tts_bridge.cpp:91-338 | the invariants of jobs, tokens, counters and chunks survive every step of either thread |
| TtsBridgeTheorems.EveryScheduleKeepsInv | src/dialogue/tts_bridge.cpp:91-338 | they hold in every reachable state of every interleaving, for every playback capacity |
| TtsBridgeTheorems.SentencesAreConserved | src/dialogue/tts_bridge.cpp:98-334 | handled = synthesized + cancelled + errored + pending + the one popped and not yet counted, stop included |
| TtsBridgeTheorems.ChunksComeInSentenceOrder | src/dialogue/tts_bridge.cpp:165-334 | chunks are ordered by sentence; every sentence that ended synthesized or errored is closed by exactly one end-of-sentence chunk, its last; every cancelled one had its token cancelled or its turn interrupted |
| TtsBridgeHistory.RecordsAreDelivered | src/dialogue/tts_bridge.cpp:98-116 | over every schedule, the sentences recorded are those the bus delivered, with turn and number, in order |
| TtsBridgeHistory.LogIsEnqueued | src/dialogue/tts_bridge.cpp:223-318 | over every schedule, what was enqueued is one audio chunk for each enqueuing with room and one closing chunk for each end of a sentence, of the sentence then at work, in order |
| TtsBridgeHistory.QueueIsTheRest | src/dialogue/tts_bridge.cpp:157-163 | the playback queue is what was enqueued since it was last cleared less what playback took, never above its capacity |
| TtsBridgeHistory.EveryInterruptClears | src/dialogue/tts_bridge.cpp:126-163 | no event is handled behind an interrupt before the playback queue was cleared |
| TtsBridgeHistory.IoThreadStands | src/dialogue/tts_bridge.cpp:165-338 | the I/O thread is where its own last step left it: synthesis starts for a live job only, a chunk passes if synthesis has not failed and the job is live, the verdict is cancelled before errored before synthesized |
| TtsBridgeHistory.SubmissionsAreHandedOver | src/dialogue/tts_bridge.cpp:185-200 | the jobs submitted are those found live by the check in front, in order |
| TtsBridgeHistory.OutcomesAreCounted | src/dialogue/tts_bridge.cpp:105-334 | each of the three counters is the number of sentences that ended so, but for one just judged |
| TtsBridgeHistory.CancelledAreDoomed | src/dialogue/tts_bridge.cpp:41-157 | the tokens cancelled or about to be are exactly those interrupts and a stop took aim at, the one in flight included |
| TtsBridgeHistory.TokensAreOwned | src/dialogue/tts_bridge.cpp:64-96 | no two turns ever share a token |
| TtsBridgeHistory.StopDrains | src/dialogue/tts_bridge.cpp:41-176 | the I/O thread leaves only behind a stop, with the queue drained and every delivered sentence settled and counted |
| TtsBridgeCancelled.StepMoves | src/dialogue/tts_bridge.cpp:98-338 | settled outcomes never change; a new cancelled one is an interrupt's find in the queue or has a cancelled token |
| TtsBridgeCancelled.LiveSentenceIsCancelledExactlyWhen | src/dialogue/tts_bridge.cpp:118-157 | over every schedule, a sentence with a live token ends as cancelled if and only if an interrupt of its turn found it pending |
| TtsBridgeCancelled.LiveSentenceIsClosedExactlyWhen | src/dialogue/tts_bridge.cpp:289-320 | over every schedule, a settled sentence with a live token is closed by exactly one end-of-sentence chunk, its last, if and only if no interrupt found it pending |
| TtsBridgeCancelled.InterruptBehindTheEnd | src/dialogue/tts_bridge.cpp:118-157 | the schedule of a sentence, the LLM's end and an interrupt: cancelled, unclosed, with a live token |
| TtsBridgeTheorems.GuardsNeverBlock | src/dialogue/tts_bridge.cpp:126-338 | the guards that the steps carry for well-formedness hold in every reachable state, so no schedule of the program is lost |
| TtsBridgeTheorems.InterruptHushes | src/dialogue/tts_bridge.cpp:126-156 | after the locked part of an interrupt, all that could still sound for the turn holds a token cancelled or about to be |
| TtsBridgeTheorems.CancelsArrive | src/dialogue/tts_bridge.cpp:157-157 | the listed tokens are cancelled by the time the loop is over, whatever the I/O thread does |
| TtsBridgeTheorems.SilenceEndsExactlyAt | src/dialogue/tts_bridge.cpp:64-163 | a silent turn becomes audible again exactly by LlmStarted, or by a sentence when its token entry is gone |
| TtsBridgeTheorems.SilentStepAddsNothing | src/dialogue/tts_bridge.cpp:185-338 | no step of a silent turn submits or finishes a sentence; only a chunk already checked gets out |
| TtsBridgeTheorems.SilenceLasts | src/dialogue/tts_bridge.cpp:91-338 | silence holds over any schedule without a new start or a sentence after the end |
| TtsBridgeTheorems.InterruptSilences | src/dialogue/tts_bridge.cpp:126-320 | in every interleaving, after the cancels at most one more chunk of the turn enters the queue, no further sentence of it is submitted and none finishes |
| BoundedQueues.BoundedQueue.constructor | src/event/queue.hpp:39-40 | an open, empty queue |
| BoundedQueues.BoundedQueue.PushArrives | src/event/queue.hpp:49-77 | accepted, refused or waiting, by policy; accepted means that the value is the last item, behind what was there less a dropped one; otherwise no item changes |
| BoundedQueues.BoundedQueue.ProducerResumes | src/event/queue.hpp:64-76 | a woken producer rechecks: its value is appended, or refused because closed, or it waits again and no item changes |
| BoundedQueues.BoundedQueue.Append | src/event/queue.hpp:73-76 | appended, counted, one sleeping consumer woken |
| BoundedQueues.BoundedQueue.Take | src/event/queue.hpp:103-107 | the front leaves, counted, one sleeping producer woken |
| BoundedQueues.BoundedQueue.CheckAndPop | src/event/queue.hpp:81-108 | the front, or sleep, or nothing when closed or late |
| BoundedQueues.BoundedQueue.PopArrives | src/event/queue.hpp:97-108 | is the step of a consumer taking the mutex |
| BoundedQueues.BoundedQueue.ConsumerResumes | src/event/queue.hpp:81-108 | is the step of a woken consumer, with or without a passed deadline |
| BoundedQueues.BoundedQueue.TryPop | src/event/queue.hpp:111-121 | the front or nothing, never a wait |
| BoundedQueues.BoundedQueue.CloseLocks | src/event/queue.hpp:126-130 | closed under the mutex; the notifications are later steps |
| BoundedQueues.StepKeepsInv | src/event/queue.hpp:49-133 | every step keeps FIFO, the counters and that nobody is forgotten, whichever waiter is woken, spuriously too |
| BoundedQueues.EveryScheduleKeepsInv | src/event/queue.hpp:49-133 | they hold in every reachable state |
| BoundedQueues.NoLostWakeup | src/event/queue.hpp:49-133 | a consumer sleeps un-notified only while items <= notified consumers, dually for producers; after close nobody sleeps once the notifications are through |
| BoundedQueues.NothingLostOrReordered | src/event/queue.hpp:49-121 | the queue is a suffix of the accepted items, what left is the prefix in order; pushes = pops + size + drops under DropOldest only |
| BoundedQueueHistory.ItemsAreThoseOfTheSchedule | src/event/queue.hpp:49-130 | over every schedule and policy, the accepted items are the values of the pushes that found the queue open and found or made room, what left are the items popped and those dropped for a push, the queue is the rest, and the counters count them |
| BoundedQueueHistory.WaitersAreThoseOfTheSchedule | src/event/queue.hpp:49-133 | whoever waits was put there by a step of the schedule and leaves by its own; one consumer is woken for an item, one producer for a free slot, all by a close |
| SpscRings.SpscRing.constructor | src/audio/spsc_ring.hpp:43-43 | an empty ring |
| SpscRings.SpscRing.PushLoadsTail | src/audio/spsc_ring.hpp:55-56 | is the step that loads the own index |
| SpscRings.SpscRing.PushChecks | src/audio/spsc_ring.hpp:57-59 | for a possibly stale head: room exactly when fewer than capacity - 1 items are unreleased by that view |
| SpscRings.SpscRing.PushWrites | src/audio/spsc_ring.hpp:60-60 | is the step that writes the slot in place |
| SpscRings.SpscRing.PushPublishes | src/audio/spsc_ring.hpp:61-61 | the item becomes the last accepted one |
| SpscRings.SpscRing.PopLoadsHead | src/audio/spsc_ring.hpp:67-67 | is the step that loads the own index |
| SpscRings.SpscRing.PopChecks | src/audio/spsc_ring.hpp:68-70 | for a possibly stale tail: an item exactly when one is published by that view |
| SpscRings.SpscRing.PopTakes | src/audio/spsc_ring.hpp:71-71 | what is taken is the oldest accepted item not yet released |
| SpscRings.SpscRing.PopReleases | src/audio/spsc_ring.hpp:72-72 | the item becomes the last popped one |
| SpscRings.FullExactlyByView | src/audio/spsc_ring.hpp:56-58 | the index comparison means full by the producer's view, in both directions |
| SpscRings.EmptyExactlyByView | src/audio/spsc_ring.hpp:67-70 | the index comparison means empty by the consumer's view, in both directions |
| SpscRings.StepKeepsInv | src/audio/spsc_ring.hpp:54-74 | every single load and store keeps indices, slots, views and history in step |
| SpscRings.EveryScheduleKeepsInv | src/audio/spsc_ring.hpp:54-74 | in every reachable state of every interleaving |
| SpscRings.GuardsNeverBlock | src/audio/spsc_ring.hpp:60-71 | the index guards of the slot steps hold in every reachable state |
| SpscRings.NothingLostOrReordered | src/audio/spsc_ring.hpp:54-74 | popped, then the ring's contents, are the accepted items; never more than capacity - 1 |
| SpscRings.AcceptedArePushed | src/audio/spsc_ring.hpp:54-74 | over every schedule, what was accepted are in order the values of the pushes carried through, and as many were popped as pops were |
| SpscRings.SlotsAreNeverShared | src/audio/spsc_ring.hpp:60-71 | the producer writes only slots it knows to be released, never the one the consumer may be reading |
| DialogueFsm.TurnFactory.constructor | src/dialogue/turn.hpp:61-61 | ids start at 1 |
| DialogueFsm.TurnFactory.Mint | src/dialogue/turn.cpp:5-11 | the ids minted are 1, 2, 3, ... without a gap, whatever was adopted in between, so the new one was never minted before |
| DialogueFsm.TurnFactory.Adopt | src/dialogue/turn.cpp:13-19 | the id as it was given; neither the counter nor the ids minted change |
| DialogueFsm.Fsm.constructor | src/dialogue/fsm.cpp:38-38 | idle, no turn |
| DialogueFsm.Fsm.Start | src/dialogue/fsm.cpp:44-57 | listening and nothing else changes, or nothing at all if already started |
| DialogueFsm.Fsm.Stop | src/dialogue/fsm.cpp:59-65 | unsubscribed, the state untouched |
| DialogueFsm.Fsm.Transition | src/dialogue/fsm.cpp:81-99 | the new state, with the time stamped only on entering Speaking |
| DialogueFsm.Fsm.HandleSpeechStarted | src/dialogue/fsm.cpp:115-142 | is the event's step: a turn is minted and reset from listening states only |
| DialogueFsm.Fsm.HandleSpeechEnded | src/dialogue/fsm.cpp:144-153 | is the event's step |
| DialogueFsm.Fsm.HandleFinalTranscript | src/dialogue/fsm.cpp:155-167 | is the event's step |
| DialogueFsm.Fsm.HandleLlmSentence | src/dialogue/fsm.cpp:169-182 | is the event's step: counted in any state, speaking from Thinking |
| DialogueFsm.Fsm.HandleLlmFinished | src/dialogue/fsm.cpp:184-209 | is the event's step: completes if nothing was said or all of it was heard |
| DialogueFsm.Fsm.HandlePlaybackFinished | src/dialogue/fsm.cpp:211-237 | is the event's step: stale turns ignored, completes on the last one |
| DialogueFsm.Fsm.HandleUserInterrupted | src/dialogue/fsm.cpp:239-291 | is the event's step: interrupted or discarded by what was heard |
| FsmTheorems.EveryTurnEndsOnce | src/dialogue/fsm.cpp:115-291 | over every event sequence: minted = completed + interrupted + discarded + the one in progress; Completed and Interrupted never persist |
| FsmTheorems.MachineTracks | src/dialogue/fsm.cpp:169-237 | through any orderly turn, stale playback reports included, the machine's state is determined by the counts of events |
| FsmTheorems.TurnCompletesOnTime | src/dialogue/fsm.cpp:169-237 | from Thinking, for every n and every order of n sentences, n playback reports and one end: it completes exactly once, exactly when all is done, and listens again, if and only if fewer than 2^32 sentences are unplayed at the LLM's end |
| FsmTheorems.SomeTurnsCompleteEarly | src/dialogue/fsm.cpp:196-226 | an orderly turn of 2^32 sentences that does not complete on time |
| FsmTheorems.EarlyEnd | src/dialogue/fsm.cpp:196-226 | with more than that, a moment exists at which the counters agree too early |
| FsmHistory.MachineFollows | src/dialogue/fsm.cpp:81-291 | over every event sequence: phase, outcome, completions, start of speaking and turn ids are those that the events since the turn began lead to, in 32-bit counts of sentences and of the turn's own reports |
| FsmHistory.InterruptsAreTold | src/dialogue/fsm.cpp:239-291 | over every event sequence: a turn ended by an interrupt counts as interrupted if and only if a report of its own playback was handled since it began (in 32 bits), as discarded otherwise; CancelGeneration goes out for exactly these turns, in order |
| BargeIn.BargeInDetector.constructor | src/dialogue/barge_in.cpp:28-34 | nothing fired yet |
| BargeIn.BargeInDetector.AecOk | src/dialogue/barge_in.cpp:73-95 | exactly when echo is under control; refusals are counted |
| BargeIn.BargeInDetector.OnSpeechStarted | src/dialogue/barge_in.cpp:103-147 | is the decision on a snapshot: ignored, suppressed with its reason, or fired |
| BargeIn.RunKeepsInv | src/dialogue/barge_in.cpp:103-147 | ledger and detector stay consistent over every interleaving of machine, detector and manager |
| BargeIn.OneBargeInPerTurn | src/dialogue/barge_in.cpp:103-147 | at most one barge-in per turn over the whole run, in increasing turn order, each after its cool-down |
| BargeIn.FiresExactlyWhen | src/dialogue/barge_in.cpp:73-147 | over every interleaving: a barge-in is fired if and only if the machine was seen speaking in a turn not yet fired for, past the cool-down, with the echo low; the suppression counters count the others by reason |
| BargeIn.TurnLedgerBalances | src/dialogue/fsm.cpp:115-291 | the turn ledger balances in every such interleaving, with one CancelGeneration per turn not completed |
| TurnWriting.TurnWriter.constructor | src/dialogue/turn_writer.hpp:75-87 | no session, no turn in flight, nothing posted |
| TurnWriting.TurnWriter.HandleStarted | src/dialogue/turn_writer.cpp:81-88 | is the event's step: a known turn is left alone |
| TurnWriting.TurnWriter.HandleSentence | src/dialogue/turn_writer.cpp:90-101 | is the event's step: the text stands at its number, the first language stays |
| TurnWriting.TurnWriter.HandlePlaybackFinished | src/dialogue/turn_writer.cpp:103-115 | is the event's step: remembered even ahead of its sentence, unless the turn is unknown |
| TurnWriting.TurnWriter.HandleFinished | src/dialogue/turn_writer.cpp:117-162 | the turn leaves the map and posts its row, or none if cancelled unheard or without a session |
| TurnWriting.TurnWriter.BuildText | src/dialogue/turn_writer.cpp:131-140 | the space-joined kept sentences and their number |
| TurnWriting.StateIsCollected | src/dialogue/turn_writer.cpp:81-115 | whatever other turns do, a turn in flight holds exactly what its own events say |
| TurnWriting.OrderDoesNotMatter | src/dialogue/turn_writer.cpp:90-115 | the same reports in another order, or repeated, give the same state |
| TurnWriting.RowIsSelection | src/dialogue/turn_writer.cpp:117-162 | the row is the non-empty sentences in number order, restricted to the heard ones if cancelled, with interrupted_at their number |
| TurnWriting.JoinConcat | src/dialogue/turn_writer.cpp:133-140 | the text of a row is its sentences in order with single blanks between |
| TurnWriting.UnknownStaysUnknown | src/dialogue/turn_writer.cpp:103-119 | playback reports and ends open no turn |
| TurnWriting.SentenceOpensTurn | src/dialogue/turn_writer.cpp:90-101 | a turn opened by a sentence holds what its events say from it on |
| TurnWriting.SameRowInAnyOrder | src/dialogue/turn_writer.cpp:81-162 | any permutation of a turn's events, mixed with other turns in any way, posts the same row |
| TurnWriting.DiscardedExactlyWhenUnheard | src/dialogue/turn_writer.cpp:142-150 | a cancelled turn leaves no row exactly when no non-empty sentence was heard |
| TurnRows.RowIsTheText | src/dialogue/turn_writer.cpp:117-162 | from text to row: whatever the deltas, the order of the reports and other turns, a turn that is not cancelled is remembered as the first cap + 1 sentences of the whole text; one cancelled by the user or by the cap, as those of them that were heard, or not at all |
| TurnRows.CapCanForgetATurn | src/dialogue/manager.cpp:283-324 | a text that its cap cuts, and that leaves no row when nothing was played before the stream ended |
| Loopback.LoopbackSink.constructor | src/audio/loopback.cpp:8-11 | silence, with room for at least one sample |
| Loopback.LoopbackSink.OnEmitted | src/audio/loopback.cpp:13-47 | the wrapped copies make the ring the tail of the history extended by the chunk, of any size |
| Loopback.LoopbackSink.Aligned | src/audio/loopback.cpp:49-97 | every cell is the history's sample at its frame if that is among the last min(cap, total), else 0; all 0 before the first chunk |
| Loopback.LoopbackSink.Clear | src/audio/loopback.cpp:117-124 | the state of a new sink |
| Loopback.LaidInHolds | src/audio/loopback.cpp:29-42 | laying a chunk in at the write position, once round the end, keeps the ring the tail of the history |
| Loopback.OffsetIsNearest | src/audio/loopback.cpp:64-71 | the frame offset is the unique nearest one, ties away from zero, for both signs; off by at most 5*10^8 in rate-nanoseconds |
| Loopback.CapturesTile | src/audio/loopback.cpp:64-74 | offsets a whole number of frames apart differ by that number, exactly unless a tie crosses the anchor |
| Loopback.TiesDoNotTile | src/audio/loopback.cpp:64-74 | two captures three frames apart whose windows lie four apart |
| Loopback.WindowsTile | src/audio/loopback.cpp:83-96 | windows taken k frames apart join without gap or overlap |
| Loopback.AnchorIsRetained | src/audio/loopback.cpp:26-46 | in every run the total counts every frame since the last clear and the anchor lies among the retained ones |
| Loopback.CaptureSeesTheChunk | src/audio/loopback.cpp:21-46 | a capture at a chunk's emit time returns the chunk; the anchor is its first sample exactly when it fits the ring |
| Loopback.CellsAreFrames | src/audio/loopback.cpp:13-97 | over every run, each cell of a capture holds the sample sent as the frame nearest to its time, in front of the anchor or behind it, if that is retained, and silence otherwise |
| Endpointing.Endpointer.constructor | src/audio/endpointer.cpp:15-16 | quiet |
| Endpointing.Endpointer.ResetState | src/audio/endpointer.cpp:18-24 | quiet again, thresholds kept |
| Endpointing.Endpointer.HandleFrame | src/audio/endpointer.cpp:26-128 | is the frame's step: state, durations, stamps and outcome |
| Endpointing.Endpointer.UpdateThresholds | src/audio/endpointer.cpp:135-140 | three thresholds change, nothing else |
| Endpointing.Endpointer.ForceEnd | src/audio/endpointer.cpp:142-155 | is the forced end: an utterance ends, a candidate is a false start |
| Endpointing.StateIsBacked | src/audio/endpointer.cpp:26-155 | for every history of frames, forced ends, resets and threshold changes, durations and stamps are those of the evidence |
| Endpointing.LastUpdateCounts | src/audio/endpointer.cpp:135-140 | the thresholds in force are those of the last update, each in its place |
| Endpointing.OutcomesArePhaseChanges | src/audio/endpointer.cpp:26-155 | start, false start and end are reported exactly with the changes of phase they stand for, and an end is stamped |
| Endpointing.StartsAreBacked | src/audio/endpointer.cpp:52-74 | a start is reported exactly on the frame with which a candidate matures: at least two frames and min_speech_ms above onset, none below offset and no cut since it began |
| Endpointing.EndsAreBacked | src/audio/endpointer.cpp:97-125 | an unforced end follows a matured utterance, a frame below offset and at least the hangover with none above onset |
| Endpointing.SpeechIsNoticed | src/audio/endpointer.cpp:42-74 | a quiet endpointer reports every candidate that lasts |
| Endpointing.SilenceIsNoticed | src/audio/endpointer.cpp:76-125 | silence of at least two frames and the hangover always ends the utterance |
| AudioPipelines.ReblockKeeps | src/audio/pipeline.cpp:137-155 | blocks and rest are the input; blocks are whole, the rest is shorter |
| AudioPipelines.AudioPipeline.constructor | src/audio/pipeline.cpp:23-28 | a quiet pipeline |
| AudioPipelines.AudioPipeline.ProcessFrame | src/audio/pipeline.cpp:101-312 | is the frame's step, with every call to another component in order |
| AudioPipelines.AudioPipeline.Cancel | src/audio/pipeline.cpp:136-163 | the carry and the new samples are cut into blocks, cleaned one by one, the rest carried |
| AudioPipelines.AudioPipeline.Downstream | src/audio/pipeline.cpp:165-312 | appended always; streamed and judged only with the gate open |
| AudioPipelines.AudioPipeline.Gate | src/audio/pipeline.cpp:168-194 | open while a hit is at most the window old; running out ends the utterance silently |
| AudioPipelines.AudioPipeline.Judge | src/audio/pipeline.cpp:210-311 | the endpointer's outcome and its consequences, counters included |
| AudioPipelines.AudioPipeline.StartCalls | src/audio/pipeline.cpp:229-256 | the buffer adopts, pre-padding and frame are replayed, the start is published |
| AudioPipelines.AudioPipeline.EndCalls | src/audio/pipeline.cpp:260-309 | the end is published, then the utterance if there is one that is loud enough |
| AudioPipelines.AudioPipeline.DropLowRms | src/audio/pipeline.cpp:274-299 | exactly when the root mean square is below the minimum |
| AudioPipelineTheorems.FlagTracksEndpointer | src/audio/pipeline.cpp:101-312 | for all frames, mutes, gates and thresholds, the speech flag is set exactly in Speaking or Endpoint, and the endpointer is where the inputs it was shown lead |
| AudioPipelineTheorems.EveryRunAlternates | src/audio/pipeline.cpp:108-311 | starts alternate strictly with ends and silent expiries, and only a wake-word gate expires |
| AudioPipelineTheorems.PublishedStartsAndEndsAlternate | src/audio/pipeline.cpp:108-311 | published starts and ends alternate strictly exactly when no expiry was followed by a start; always without a wake-word gate |
| AudioPipelineGate.GateIsByFrames | src/audio/pipeline.cpp:168-194 | gate stamp, gate flag and carry are functions of the frames alone, whatever the speech probabilities |
| AudioPipelineGate.AlternatesExactlyWhen | src/audio/pipeline.cpp:108-266 | published starts and ends alternate strictly if and only if no frame runs out the gate's window during an utterance of the endpointer's with another candidate maturing later, said of the frames and of what the endpointer is shown |
| AudioPipelineGate.TwoStartsInARow | src/audio/pipeline.cpp:186-194 | a run of five frames that publishes two starts in a row |
| AudioPipelineTheorems.PublishedStartsAreBacked | src/audio/pipeline.cpp:222-256 | every published start is backed by a candidate that matures with that frame |
| AudioPipelineTheorems.PublishedEndsAreBacked | src/audio/pipeline.cpp:222-266 | every end published while not muted is backed by the hangover |
| AudioPipelineTheorems.ReblockingConserves | src/audio/pipeline.cpp:136-155 | over every run, the blocks the canceller saw, then the carry, are the samples offered to it |
| AudioPipelineTheorems.CancelledStreamGoesOn | src/audio/pipeline.cpp:136-166 | with the canceller on, what is appended is its output for those blocks, in order |
| AudioPipelineWithBuffer.EveryWorldIsSound | src/audio/pipeline.cpp:165-266 | over every run of pipeline and buffer together: in speech the buffer records, and its stamp is the last published start less the padding |
| AudioPipelineWithBuffer.UtterancesAreRecordings | src/audio/pipeline.cpp:260-307 | no end finds the buffer idle, and every announced utterance is the buffer's slice, a prefix of what was kept since its own published start |
| AudioPipelinePublishing.FramePublishes | src/audio/pipeline.cpp:108-311 | exactly what a frame publishes and which counters move, by the endpointer's verdict on it; the loudness test is a root mean square not below the minimum |
| AudioPipelinePublishing.UtterancesAreAnnouncedExactlyWhen | src/audio/pipeline.cpp:222-307 | over every run of pipeline and buffer: an end by the hangover, and no other frame, announces the buffer's slice, once, if and only if it is empty, no minimum is set or its root mean square reaches it |
| AudioPipelinePublishing.CountersAreTallies | src/audio/pipeline.cpp:203-306 | over every such run: the counters are the utterances announced, the ends dropped as quiet and the false starts; a missing probability is the last one of a judged frame |
| AudioPipelineWithBuffer.ReplayAtAStart | src/audio/utterance.cpp:63-94 | the pre-buffer at a start: nothing when the buffer was left recording, otherwise the end of what was appended while idle; it ends with the frame itself if and only if the buffer was idle and its padding holds the frame |
| AudioPipelineStreaming.LiveSinkFollowsTheRecording | src/audio/pipeline.cpp:196-260 | over every run with a live sink, in speech and with the frame that ends the recording: the recording is what the start replayed and the audio appended since; the live sink was sent the same with the start's frame once more in between |
| AudioPipelineStreaming.RecordsOutOfSpeechExactlyWhen | src/audio/pipeline.cpp:108-194 | out of speech the buffer still records if and only if speech was last left by a mute or by the gate |
| AudioPipelineStreaming.WhatAStartReplays | src/audio/pipeline.cpp:229-256 | for every run that reaches a start: replay and new recording are empty after a mute or gate that left the buffer recording, and hold the last padding otherwise; the recording has the start's frame, and the live sink gets that frame twice, if and only if the buffer was not left recording and the padding holds the frame |
| AudioPipelineStreaming.TheFrameIsSentTwice | src/audio/pipeline.cpp:229-250 | a run of two frames in which the live sink is sent the start's frame twice |
| AudioPipelineStreaming.TheFrameIsCut | src/audio/pipeline.cpp:229-250 | a run in which the padding is shorter than the frame: recording and stream begin in the middle of it |
| AudioPipelineStreaming.TheFrameIsLost | src/audio/pipeline.cpp:186-250 | a run in which the gate left the buffer recording: the next start replays nothing and its frame is not recorded |
| UtteranceBuffers.UtteranceBuffer.constructor | src/audio/utterance.cpp:24-38 | empty, with its pre-padding capacity |
| UtteranceBuffers.UtteranceBuffer.AppendSamples | src/audio/utterance.cpp:40-68 | is the append's step: recorded and capped, or rolled through the pre-buffer |
| UtteranceBuffers.UtteranceBuffer.TrimPreBuffer | src/audio/utterance.cpp:70-74 | the last capacity samples stay |
| UtteranceBuffers.UtteranceBuffer.OnSpeechStarted | src/audio/utterance.cpp:76-94 | the pre-buffer becomes the recording and is emptied |
| UtteranceBuffers.UtteranceBuffer.OnSpeechEnded | src/audio/utterance.cpp:96-142 | is the end's step: trimmed slice, released slices pruned, the oldest dropped at the limit |
| UtteranceBuffers.UtteranceBuffer.Prune | src/audio/utterance.cpp:127-131 | the queue without the released slices, in order |
| UtteranceBuffers.UtteranceBuffer.AbortActive | src/audio/utterance.cpp:144-150 | the recording is gone, the pre-buffer stays |
| UtteranceBuffers.BufferRefinesHistory | src/audio/utterance.cpp:40-94 | idle, the pre-buffer is the last capacity samples since it was last adopted; recording, the active buffer is the last min(total, cap) of adopted prefix and appended audio |
| UtteranceBuffers.RecordingHoldsNoIdle | src/audio/utterance.cpp:40-94 | after any calls, a buffer that records holds nothing for a replay |
| UtteranceBuffers.StampLagsByLessThanAMillisecondPerCut | src/audio/utterance.cpp:52-61 | the start stamp never runs ahead of the first kept sample and lags by less than 1 ms for each trimming append |
| UtteranceBuffers.SliceIsPrefixOfKept | src/audio/utterance.cpp:96-123 | a slice comes out exactly when recording; it is a prefix of the active buffer, non-empty unless that is empty, stamped with its start |
| UtteranceBuffers.SliceEndsWithThePadding | src/audio/utterance.cpp:108-119 | a trimmed slice ends where the padded utterance does, to the sample |
| UtteranceBuffers.EarlyEndKeepsAll | src/audio/utterance.cpp:110-119 | a padded end before the start stamp wraps to a huge target and cuts nothing |
| UtteranceBuffers.TrackingIsBounded | src/audio/utterance.cpp:125-140 | at most max_in_flight slices are tracked, in order; one missing was released or is older than all tracked |
| UtteranceBuffers.SlicesAreNumbered | src/audio/utterance.cpp:96-142 | slices are numbered and stamped as they are issued; one is dropped exactly when as many as the limit are still held |
| AudioClocks.MonotonicAudioClock.constructor | src/audio/clock.hpp:58-66 | not anchored |
| AudioClocks.MonotonicAudioClock.OnCaptureFrames | src/audio/clock.cpp:19-43 | is the tick's step: first tick anchors frame 0, later ones the total |
| AudioClocks.MonotonicAudioClock.SteadyForFrame | src/audio/clock.cpp:45-63 | the time of a frame by the anchor and the truncated frame length |
| AudioClocks.MonotonicAudioClock.FramesAtTime | src/audio/clock.cpp:65-79 | the frame of a time by the anchor, truncated towards it |
| AudioClocks.RunIsSummary | src/audio/clock.cpp:19-43 | over every sequence of ticks: total frames, the first rate, the last time |
| AudioClocks.RoundTrip | src/audio/clock.cpp:45-79 | there and back is off by exactly ceil(\|d\| (10^9 mod rate) / 10^9), towards the anchor, never clamped |
| AudioClocks.RoundTripIsExactExactlyWhen | src/audio/clock.cpp:45-79 | exact if and only if at the anchor or the rate divides 10^9 |
| AudioClocks.OneFrameOffTheAnchor | src/audio/clock.cpp:45-79 | at 44.1 kHz the frame behind the first anchor is not found again |
| AudioClocks.SteadyForIsMonotone | src/audio/clock.cpp:57-62 | later frames are not earlier, and strictly later up to 10^9 frames a second |
| AudioClocks.FoundFrameIsNotBeyond | src/audio/clock.cpp:45-79 | back and there again lands between the anchor and the time asked for |
| Sse.SseParser.constructor | src/llm/sse_parser.hpp:35-35 | nothing buffered |
| Sse.SseParser.Feed | src/llm/sse_parser.cpp:26-43 | all complete events of the buffer and the new bytes are emitted, the rest kept; nothing after the end |
| Sse.SseParser.Finish | src/llm/sse_parser.cpp:45-50 | the unterminated rest is one last event |
| Sse.SseParser.Reset | src/llm/sse_parser.hpp:49-52 | the state of a new parser |
| Sse.SseParser.EmitEvent | src/llm/sse_parser.cpp:52-81 | the lines of an event in order, up to the sentinel |
| Sse.SseParser.EmitLine | src/llm/sse_parser.cpp:63-79 | comment, payload, end or nothing |
| Sse.FeedConcat | src/llm/sse_parser.cpp:26-43 | feeding a then b is feeding a + b: same callbacks, same state |
| Sse.ChunksDoNotMatter | src/llm/sse_parser.cpp:26-43 | any split of a stream gives the callbacks and the buffer of the whole |
| Sse.DrainLeavesNoEvent | src/llm/sse_parser.cpp:30-42 | between feeds the buffer never holds a complete event |
| Sse.FinishCompletes | src/llm/sse_parser.cpp:45-50 | an event that lacks its blank line at the end is delivered as if the line had come, and nothing stays behind |
| Sse.StreamMeansItsLines | src/llm/sse_parser.cpp:26-81 | any events of payload lines, with or without a blank, comments and other lines, in any chunks, call exactly what the lines say, up to the end of the stream |
| Sse.PayloadsAreSendable | src/llm/sse_parser.cpp:52-81 | no payload delivered has a line end or is the sentinel |
| Sse.RoundTrip | src/llm/sse_parser.cpp:26-81 | encoded payloads and the end event, in any chunks and before any garbage, give exactly the payloads and one end, if and only if every payload is free of line ends and not the sentinel |
| Wav.U32Le | src/audio/wav.cpp:11-18 | the four bytes, least significant first |
| Wav.U32RoundTrip | src/audio/wav.cpp:11-32 | a 32-bit field is read back wherever it stands |
| Wav.U16RoundTrip | src/audio/wav.cpp:20-38 | so is a 16-bit one |
| Wav.MakeWav | src/audio/wav.cpp:42-65 | the file: header, format, and the data its 32-bit size covers |
| Wav.HeaderLayout | src/audio/wav.cpp:42-65 | every field of the 44-byte header stands where the standard puts it |
| Wav.FormatLayout | src/audio/wav.cpp:56-61 | PCM, one channel, the rate, two bytes a frame, sixteen bits |
| Wav.ReadWav | src/audio/wav.cpp:93-131 | is the parse of the bytes: rejected, samples and rate, an odd size, or a walk that never ends |
| Wav.AdvanceStandsStillExactlyWhen | src/audio/wav.cpp:120-120 | the 32-bit advance is 0 for exactly two sizes, and exact below them |
| Wav.WalkOverChunks | src/audio/wav.cpp:105-121 | any list of well-formed chunks, odd sizes padded, is stepped over; only the formats in it matter, the last one counts |
| Wav.ParseIsMeaning | src/audio/wav.cpp:93-131 | every file of well-formed chunks, with anything behind the data, parses to its meaning as a list |
| Wav.RoundTrip | src/audio/wav.cpp:42-131 | parsing what was written gives the same samples and rate, if and only if the data fits 32 bits and the rate is not 0 |
| Wav.TooLongIsReadAsNothing | src/audio/wav.cpp:42-131 | 2^31 samples are written with a data size of 0 and read back as none |
| Wav.RoundTripAmongOtherChunks | src/audio/wav.cpp:42-131 | still so with any other chunks before the format and before the data |
| Wav.WalkCirclesExactlyWhen | src/audio/wav.cpp:105-121 | for every file, the walk never ends if and only if it comes to a chunk header it cannot get away from |
| Wav.ReadingNeverEndsExactlyWhen | src/audio/wav.cpp:93-121 | for files well-formed up to a last chunk header, reading never ends if and only if that header has one of two sizes and is neither the data nor a refused format |
| Wav.SomeFilesAreNeverRead | src/audio/wav.cpp:93-121 | whole files on which reading never ends |

## Left out

- The synthesizer, the resampler, the echo canceller, the voice detector, the wake-word engine and the playback engine: their results are arbitrary inputs, the playback queue is a sequence.
- I/O, clocks, threads as such, logging, metrics (`frames_processed_`, the observers of the state machine): not modelled; a clock reading is a parameter.
- Weak memory: steps interleave sequentially, with stale index loads in the ring as described above.
- run_one's checks and enqueues in the bridge are labels of the transition system only, not methods, because they happen inside callbacks of code that is not modelled; the same holds for the waits and notifications of the queue.
- Restarting a bridge after stop, the self-listen sink and the bridge's own published events: not modelled.
- The publication of `LlmStarted`, prompt building, the choice of a turn id and `normalised_visible_chars` of the manager: not modelled.
- The user's own row, and the posting and later update of a row in the database: the model stops at the assistant row that is posted; its end time is not part of it.
- TurnWriting.TurnWriter.HandleSentence: requires numbers below 2^32 - 1, because the original's `seq + 1` would wrap to 0 there and index an empty vector.
- TurnWriting.TurnWriter.HandlePlaybackFinished: requires numbers below 2^32 - 1, for the same reason.
- BoundedQueues.BoundedQueue.constructor: requires room for one item under DropOldest, because the original would take from an empty queue otherwise.
- UtteranceBuffers.UtteranceBuffer.constructor: requires a limit of at least one tracked slice, because the original would take from an empty queue otherwise; config times are not negative.
- AudioPipelines.AudioPipeline.constructor: requires an output rate of at least 100 Hz, because the re-blocking loop would not end and the frame duration would not be defined for smaller ones.
- AudioPipelines.AudioPipeline.DropLowRms: compares exact squares where the original compares rounded square roots.
- Loopback.LoopbackSink.Aligned: does not model 64-bit overflow of nanoseconds times rate, which needs captures days away from the anchor; times are compared with an epoch of 0.
- AudioClocks.RoundTrip: does not model 64-bit overflow of the products.
- TurnRows.RowIsTheText: requires a cap below the largest, or fewer than 2^32 sentences when there is no cap, because sentence numbers wrap; that the end of the stream reports a turn as cancelled exactly when its token is (src/llm/client.cpp:191-213) is built into the statement.
- Wav.ReadWav: an odd data size is only recognised as such (OddData), because the original then copies one byte beyond its vector; reading the file itself is left out.
- The pipeline and the buffer are separate classes here: the pipeline's calls are effects and the buffer's replies inputs, and AudioPipelineWithBuffer closes that loop on specifications.
- Wav.MakeWav: samples are written and read in little-endian order, where the original copies host memory.
- The ledger of the state machine is about the events after one start: stopping and starting again in the middle of a turn would leave that turn uncounted.
- A subscription that is stopped may leave queued events undelivered; bus delivery is not modelled.
- Config validation, hot reload, the HTTP routes, the CLI, the supervisor and the watchdog: they would add easy members only.
