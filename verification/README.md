# Verification of VoxStudio's realtime core

A Dafny model of the parts of VoxStudio whose correctness is hard to see from one function: byte
quotas that many interleaved operations share, the outbound audio player, the state machines of the
realtime gateway, a binary frame format, and the algorithms of the speech tools. Everything checks
with `dafny verify dfyconfig.toml`.

## How the model is laid out

| files | what they model |
|---|---|
| `MediaStore.dfy`, `ConversationMediaStore.dfy` | conversation audio under a byte ceiling: synchronous reservations, one serialized observer queue, eviction of other sessions |
| `MediaEviction.dfy`, `MediaContents.dfy`, `MediaRetention.dfy`, `MediaRows.dfy` | when the store deletes by itself, what a ready recording holds, that what fits is kept, and where rows end |
| `CaptureQuota.dfy`, `CaptureEviction.dfy`, `CaptureQueue.dfy` | the capture library: insert-then-evict under a retention quota, that nothing goes without need, and its per-capture mutation queues |
| `MediaPlayer.dfy`, `MediaPacing.dfy`, `RenditionPlayer.dfy` | the outbound Media v2 player: bounded queue, pacing, that it keeps up, backpressure, abort and close |
| `InputFrames.dfy` | the microphone's frame queue |
| `RealtimeEvents.dfy`, `RealtimeAnswers.dfy`, `RealtimeConnection.dfy` | the OpenAI Realtime dialect: event grammar, what each native event is answered with, function calls |
| `AgentRun.dfy`, `AgentHangUp.dfy`, `AgentSpeech.dfy`, `AgentNarration.dfy`, `AgentRunController.dfy` | one agent run: lifecycle, cancellation, terminal report, hang-ups, what is heard, paced narration |
| `Quota.dfy`, `QuotaRefunds.dfy`, `SynthesisGate.dfy` | the per-account allowance with its refunds, and the synthesis slots |
| `MediaV2.dfy` | the Media v2 frame codec |
| `EditDistance.dfy`, `BargeInScoring.dfy` | character error rate, double-talk scoring |
| `SpeechRates.dfy`, `Whitespace.dfy`, `Chunking.dfy`, `ChunkingUnique.dfy` | speech-duration estimates, whitespace normalisation and the chunker |
| `Prelude.dfy` | options, results, sums |

Concurrent code is a state with a step function. A step is what runs between two awaits, the events
carry everything the outside decides (readings of the clock, outcomes of input and output, callbacks that
throw), and an event that cannot happen leaves the state alone; a theorem about every event sequence is then a
theorem about every interleaving. Logs in a state record what was produced, sent or spoken.
Beside each such state stands a class with the source's fields and methods. Each method is proved to
end in the state the step function gives (`Now()` is the class's abstract state), so the whole-run theorems
are about the class. Seconds, milliseconds and durations are reals.

## What the proofs found

- Media store: a lookup that notices missing audio (media-store.ts:479-491) while the removal of the same
  session is suspended subtracts the same bytes twice; the cached total then falls below the table's and a
  later recording can break the ceiling. `RaceIsExactIff` says exactly when the cache survives,
  `RaceBreaksTheTableCeiling` gives the run. Whether a lookup can still reach a session that is being removed is
  decided by the callers of `file`, which are not part of this model. A recording whose header finds no room has failed,
  but the frame that brought it is still promised and queued (`WriteFailsIff`, `WriteQueues`).
- Capture library: library.ts:202-203 says a close in mid-eviction leaves "at most one capture" over quota.
  What is left over is at most the captures of the ingests in progress at the close (`CloseLeavesWhatWasInProgress`), so the
  comment holds if and only if at most one was in progress (`AtMostOneCaptureIff`); with `n` of them all `n` can stay
  (`ClosingLeavesAnyExcess`). A capture corrected while its own rollback waits its turn is deleted all the same
  (`RollBackCanDeleteCuratedWork`), against the comment at library.ts:54-57; that rollback and a person's own removal are the
  only segments that can take such a capture away (`PinnedRowsSurviveEviction`, `CuratedWorkStays`).
- Player: an abort in the gap between the pace answer and the submission drops a frame that is then submitted, so it is
  counted twice (`LateAbortCountsTwice`). Over whole runs every produced frame is accounted for once if and only if no abort
  falls into that gap (`EveryFrameOnceIff`); order, pacing, the queue's ceiling, backpressure and the final total do not
  depend on it.
- Quota: quota.ts:77-82 says a refund undoes a charge. One that arrives after the charge's window ended falls on the account's
  next window, if that is live and not empty, and frees a charge there. Over all runs, the allowance holds whatever is charged
  next if and only if no refund does so (`RefundUndoesChargeIff`, `RefundsAreSafeIff`, `LateRefundFreesTheNextWindow`). Sweeping
  is unobservable as long as no reading of the clock comes before the latest sweep; behind it verdicts can differ.
- Synthesis gate: `maxInFlight` holds exactly as long as no arrival takes a slot already handed to a waiter; otherwise
  nothing bounds the work in flight (`LimitKeptIff`, `OvershootIsUnbounded`).
- OpenAI dialect: with two function calls outstanding the first one's timer resolves the second (`OverlappingCallsCross`);
  the books stay straight exactly when no call is dispatched over a pending one (`CallsKeptIff`).
- Agent run: the lifecycle never refuses `fail`, so the only way a drained run goes unreported is a speech sink whose `stop`
  throws (`EndOfLoopReportsIff`). docs/agent-lifecycle.md has `endSession` stop speech; something can still be heard afterwards
  if and only if the hang-up came before `run.started` on a run whose stream was still open (`HangUpSilencesIff`,
  `EarlyHangUpSilencesNothing`). Milestones can be heard out of order when the clock crosses the interval between
  the two readings of one tool event (`OrderKeptIff`, `StaleMilestoneIsHeard`). A cancel whose speech stop throws is
  accepted but never reaches the executor, and a rejected one whose report throws never closes it (`ThrowingControls`).
- Speech rates: `script_counts` leaves a text without any scripted character out, `est_seconds` charges it at the slowest rate;
  apart from such texts the two agree (`CountsAgreeIff`).
- Double-talk: the greedy score is optimal because cues are ordered by end; without that it is not (`OrderIsNeeded`).

## Model

| member | source | states |
|---|---|---|
| MediaStore.ByteCeiling | apps/realtime-gateway/src/media-store.ts:247-471 | in every interleaving of callbacks and queue segments the ready bytes stay within the ceiling, or what was there at open if that was more, and the queue within `maxPendingBytes` |
| MediaStore.Conservation | apps/realtime-gateway/src/media-store.ts:247-268 | at every moment the reservation counter is the sum of the promises still open and the queue counter the sum the queued operations carry, so no clamp at zero ever hides a second release |
| MediaStore.DrainedIsZero | apps/realtime-gateway/src/media-store.ts:254-268 | with an empty queue and every recorder that wrote finalized, both counters are zero |
| MediaStore.StepKeeps | apps/realtime-gateway/src/media-store.ts:247-495 | the invariant behind the ceiling, kept by every segment: ready bytes plus what each asset still being retained held at its last passed check fit the bound |
| MediaStore.PassKeepsLedger | apps/realtime-gateway/src/media-store.ts:284-301 | a check passes only when everything reserved would fit, so whatever each asset held at its last check fits as well |
| MediaStore.ScanAnswers | apps/realtime-gateway/src/media-store.ts:284-301 | the scan answers yes if and only if everything ready and promised fits, no if and only if it does not fit and no candidate can be evicted, and else begins on the first candidate that has ready bytes and whose eviction the conversation store agreed to |
| MediaEviction.EvictionBeginsOver | apps/realtime-gateway/src/media-store.ts:284-301 | no segment begins an eviction unless ready and promised bytes exceed the ceiling |
| MediaEviction.EvictionWasNeeded | apps/realtime-gateway/src/media-store.ts:284-301 | every eviction of every run began at a moment when they did |
| MediaEviction.RowGoesIff | apps/realtime-gateway/src/media-store.ts:270-301 | a row goes in a segment if and only if that segment deletes its session, by an eviction or by a removal |
| MediaEviction.UnderCeilingOnlyRemovals | apps/realtime-gateway/src/media-store.ts:284-301 | in a run that stays under its ceiling, or has none, a row goes only when its session is removed |
| MediaStore.StartFinalizeKeeps | apps/realtime-gateway/src/media-store.ts:429-469 | a recording that reaches its end unfailed passed its last frame check with all the bytes it will commit |
| MediaContents.WriteAdds | apps/realtime-gateway/src/media-store.ts:408-428 | a write adds two bytes a sample to its own recording if it is accepted, and nothing to any |
| MediaContents.WriteQueues | apps/realtime-gateway/src/media-store.ts:408-428 | a frame is queued last and with its bytes if and only if it is accepted |
| MediaContents.WriteFailsIff | apps/realtime-gateway/src/media-store.ts:370-428 | a write fails an open recording if and only if it is refused or brings the first frame and the header does not fit |
| MediaContents.ReadyBytesAre | apps/realtime-gateway/src/media-store.ts:303-469 | in every run a ready recording holds its header of 44 bytes and two for each sample of its accepted writes, a ready utterance the bytes it was given |
| MediaContents.ReadyTookEverything | apps/realtime-gateway/src/media-store.ts:408-469 | a ready recording is complete: every write made to it while it and the store were open was accepted, and its header fitted |
| MediaContents.ClosesIff | apps/realtime-gateway/src/media-store.ts:510-512 | closing begins with `close`, with nothing else, and is for good |
| MediaContents.ClosingTakesNothing | apps/realtime-gateway/src/media-store.ts:303-428 | after `close` no callback brings the store another byte |
| MediaRetention.InputBecomesReady | apps/realtime-gateway/src/media-store.ts:303-354 | an utterance given to an idle store with room for it is ready four segments later, with all its bytes and nothing else changed |
| MediaRetention.RecordingBecomesReady | apps/realtime-gateway/src/media-store.ts:356-469 | a recording of any number of frames in an idle store with room for all of it becomes ready with exactly its header and two bytes a sample, and nothing else changes |
| MediaRows.DrainedRowsAreSettled | apps/realtime-gateway/src/media-store.ts:303-469 | with an empty queue the only rows still pending belong to recordings that were written to, have not failed and are not finalized |
| MediaRows.DiscardedIsReleased | apps/realtime-gateway/src/media-store.ts:303-354 | audio that was written but cannot be kept is deleted, or its row says it is missing when that fails too; either way its reservation is given back and the queue goes on |
| MediaStore.RunIsExact | apps/realtime-gateway/src/media-store.ts:270-354 | while no lookup hits the session being removed, the cached ready bytes are those of the table |
| MediaStore.TableCeiling | apps/realtime-gateway/src/media-store.ts:284-301 | then the bytes of the ready rows themselves keep the ceiling |
| MediaStore.RaceIsExactIff | apps/realtime-gateway/src/media-store.ts:270-281 | a lookup during a removal leaves cache and table equal if and only if it was for another session, found nothing ready, or nothing else was ready |
| MediaStore.RaceBreaksTheTableCeiling | apps/realtime-gateway/src/media-store.ts:479-491 | a run from a full store of 100 bytes that ends with 140 ready bytes |
| ConversationMediaStores.ConversationMediaStore.constructor | apps/realtime-gateway/src/media-store.ts:118-163 | opens over rows at rest with the ready bytes summed from the table |
| ConversationMediaStores.ConversationMediaStore.TotalBytes | apps/realtime-gateway/src/media-store.ts:193-198 | the loop's sum is the ready bytes of the table |
| ConversationMediaStores.ConversationMediaStore.SessionBytes | apps/realtime-gateway/src/media-store.ts:200-205 | the loop's sum is the ready bytes of the session |
| ConversationMediaStores.ConversationMediaStore.Reserve | apps/realtime-gateway/src/media-store.ts:247-252 | grants exactly what the queue ceiling leaves, and promises it at once |
| ConversationMediaStores.ConversationMediaStore.RetainInput | apps/realtime-gateway/src/media-store.ts:303-354 | up to its first await, the step of the model, keeping the ceiling's invariant |
| ConversationMediaStores.ConversationMediaStore.CreateOutputRecorder | apps/realtime-gateway/src/media-store.ts:356-368 | a new recorder without row or reservation |
| ConversationMediaStores.ConversationMediaStore.EnsureRow | apps/realtime-gateway/src/media-store.ts:370-397 | the row and its header's reservation, or an immediate failure |
| ConversationMediaStores.ConversationMediaStore.Fail | apps/realtime-gateway/src/media-store.ts:399-405 | a failed recording is truncated now and its row later |
| ConversationMediaStores.ConversationMediaStore.WriteFrame | apps/realtime-gateway/src/media-store.ts:408-428 | a frame is accepted, refused or fails the recording as the model's step does |
| ConversationMediaStores.ConversationMediaStore.FinalizeRecorder | apps/realtime-gateway/src/media-store.ts:429-469 | finalizing queues the recording's end exactly once |
| ConversationMediaStores.ConversationMediaStore.File | apps/realtime-gateway/src/media-store.ts:479-491 | a lookup answers whether the audio is there and otherwise takes its bytes out of the cache |
| ConversationMediaStores.ConversationMediaStore.RemoveSession | apps/realtime-gateway/src/media-store.ts:493-495 | a removal is queued behind everything before it |
| ConversationMediaStores.ConversationMediaStore.EnsureCapacity | apps/realtime-gateway/src/media-store.ts:284-301 | the loop over eviction candidates answers what the scan of the model does: before any candidate it looks whether everything fits |
| ConversationMediaStores.ConversationMediaStore.StartHead | apps/realtime-gateway/src/media-store.ts:262-354 | the first segment of the operation at the head of the queue |
| ConversationMediaStores.ConversationMediaStore.ResumeHead | apps/realtime-gateway/src/media-store.ts:270-469 | its next segment, for every outcome of what it awaited |
| CaptureQuota.RetentionQuota | apps/realtime-gateway/src/library.ts:251-310 | while open, the captures present at open or returned by `ingest` never exceed the quota, or what was there at open if that was more, however ingests, evictions, pins, removals and rollbacks interleave |
| CaptureQuota.ReturnMeansWithinQuota | apps/realtime-gateway/src/library.ts:296-310 | an ingest that returns while the library is open leaves the whole table within the quota |
| CaptureQuota.CuratedWorkStays | apps/realtime-gateway/src/library.ts:199-221 | over any run, a capture that stays corrected or promoted is still there at the end, whatever was evicted, unless a person removed it or its own ingest rolled back |
| CaptureEviction.EvictedWasPicked | apps/realtime-gateway/src/library.ts:199-221 | over any run, a row taken by an eviction was picked before by the same ingest, at the head of its list, at a moment when the library was open and the table over its quota |
| CaptureEviction.WithinQuotaNothingGoes | apps/realtime-gateway/src/library.ts:199-310 | in a run whose table keeps within the quota, or has none, a capture stays until a person removes it: nothing is evicted and nothing rolled back |
| CaptureEviction.OnlyPeopleCurate | apps/realtime-gateway/src/library.ts:339-359 | a capture is corrected or promoted by a correction or promotion of that capture, uncorrected by its withdrawal, and by nothing else; its bytes never change |
| CaptureEviction.CandidatesAre | apps/realtime-gateway/src/library.ts:167-173 | the candidates are the present rows that are neither corrected nor promoted, but for the new one, oldest first |
| CaptureEviction.RefusedWithoutRoomIff | apps/realtime-gateway/src/library.ts:251-260 | an ingest is refused at admission if and only if there is a quota and the pinned bytes with its own exceed it, and goes on to store otherwise |
| CaptureEviction.UndisturbedIngest | apps/realtime-gateway/src/library.ts:251-310 | from any table, an ingest nobody disturbs is refused with nothing deleted if no choice of evictions makes room; else it returns, and the least number of the oldest unpinned captures that makes room goes, no others |
| CaptureQuota.PinnedRowsSurviveEviction | apps/realtime-gateway/src/library.ts:199-221 | which segments can take a corrected or promoted row away: its removal by a person and the rollback of its own ingest, never an eviction |
| CaptureQuota.ExcessIsInProgress | apps/realtime-gateway/src/library.ts:251-310 | in every run, closed or open, the table exceeds the quota, or what was there at open if that was more, by at most the captures of the ingests in progress |
| CaptureQuota.CloseLeavesWhatWasInProgress | apps/realtime-gateway/src/library.ts:199-221 | whatever happens after a close, what stays over the quota is at most the captures of the ingests in progress when it came |
| CaptureQuota.AtMostOneCaptureIff | apps/realtime-gateway/src/library.ts:199-221 | a close leaves at most one capture over the quota in all runs with `n` ingests in progress when it comes if and only if `n` is at most one |
| CaptureQuota.RollBackCanDeleteCuratedWork | apps/realtime-gateway/src/library.ts:296-310 | a run in which a rollback deletes a capture that is corrected when it is deleted |
| CaptureQuota.ClosingLeavesAnyExcess | apps/realtime-gateway/src/library.ts:199-221 | for any number of ingests in progress at a close over a full library, a run in which all of them return and all their bytes stay |
| CaptureQuota.StepKeeps | apps/realtime-gateway/src/library.ts:155-370 | the quota's invariant is kept by every segment |
| CaptureQuota.CaptureLibrary.constructor | apps/realtime-gateway/src/library.ts:180-191 | opening enforces the quota once: only unpinned rows go, oldest first, until the rest fits or only pinned rows are left, and none once it fits |
| CaptureQuota.CaptureLibrary.TotalBytes | apps/realtime-gateway/src/library.ts:155-164 | the sum over the rows present |
| CaptureQuota.CaptureLibrary.EnforceQuotaOnOpen | apps/realtime-gateway/src/library.ts:180-191 | the eviction loop's outcome: pinned rows and newer rows than a survivor are untouched, the total fits unless only pinned rows remain, and with the last row to go it did not |
| CaptureQuota.CaptureLibrary.EvictionCandidates | apps/realtime-gateway/src/library.ts:167-173 | the unpinned rows but the excluded one, oldest first |
| CaptureQuota.CaptureLibrary.CuratedBytes | apps/realtime-gateway/src/library.ts:160-164 | the loop's sum is the bytes of the corrected or promoted rows |
| CaptureQuota.CaptureLibrary.Admit | apps/realtime-gateway/src/library.ts:251-260 | quota admission is the model's step, and answers whether the ingest goes on |
| CaptureQuota.CaptureLibrary.InsertRow | apps/realtime-gateway/src/library.ts:253-295 | the insert that commits an ingest |
| CaptureQuota.CaptureLibrary.ReadCandidates | apps/realtime-gateway/src/library.ts:199-221 | the eviction list, read once the insert has been awaited |
| CaptureQuota.CaptureLibrary.NextVictim | apps/realtime-gateway/src/library.ts:199-221 | one look of the eviction loop's head: it goes on only while the library is open, the table over its quota and a candidate left |
| CaptureQuota.CaptureLibrary.EvictVictim | apps/realtime-gateway/src/library.ts:205-221 | the victim is looked at again under its own lock |
| CaptureQuota.CaptureLibrary.FinishIngest | apps/realtime-gateway/src/library.ts:296-310 | returns or rolls back; a return while open means the table is within the quota |
| CaptureQuota.CaptureLibrary.RollBackIngest | apps/realtime-gateway/src/library.ts:303-308 | the capture that does not fit is removed again and its ingest refused |
| CaptureQueue.MutationsAreSerialized | apps/realtime-gateway/src/library.ts:229-244 | work on one capture never overlaps and starts only when all admitted before it on that capture has settled |
| CaptureQueue.NextMayStart | apps/realtime-gateway/src/library.ts:229-244 | no work is stuck: it may start once what precedes it has settled, behind a failure and after close too |
| CaptureQueue.CloseDrains | apps/realtime-gateway/src/library.ts:373-377 | the database closes only after everything admitted has settled, and nothing is admitted after close |
| CaptureQueue.ForgetTail | apps/realtime-gateway/src/library.ts:229-244 | forgetting a settled tail never lets later work overtake earlier work |
| CaptureQueue.MutationQueues.RunExclusive | apps/realtime-gateway/src/library.ts:229-238 | admission behind the capture's tail, refused once closed |
| CaptureQueue.MutationQueues.CleanUp | apps/realtime-gateway/src/library.ts:239-244 | the tail is forgotten only if it is still this work |
| CaptureQueue.MutationQueues.FinishClose | apps/realtime-gateway/src/library.ts:373-377 | all admitted work has settled when the database closes |
| MediaPlayer.ExactCover | apps/realtime-gateway/src/session.ts:1205-1283 | frames carry sequences 0, 1, 2, ..., each timestamp is the total of the durations before it, only frame 0 starts, and while nothing went wrong their audio and what the writer holds is the resampled stream |
| MediaPlayer.NothingReordered | apps/realtime-gateway/src/session.ts:1036-1130 | in every run the submitted frames are the first of the produced ones, in order |
| MediaPlayer.EveryFrameOnceIff | apps/realtime-gateway/src/session.ts:1036-1130 | outside the gap between a pace answer and its submission, produced is submitted, then dropped, then queued, if and only if no abort of the run fell into that gap |
| MediaPlayer.CounterIsTheSum | apps/realtime-gateway/src/session.ts:1143-1154 | and then the queue's counter is the sum over the queue |
| MediaPlayer.Paced | apps/realtime-gateway/src/session.ts:1156-1169 | submitted audio never exceeds the time since the first frame by more than the burst and one packet |
| MediaPacing.PaceAnswersIff | apps/realtime-gateway/src/session.ts:1156-1169 | in every run the pace wait clears the head of the queue if and only if the audio submitted is not ahead of the clock, counted from the first frame, by more than 200 ms; else nothing happens |
| MediaPacing.PaceStartsWithFirstFrame | apps/realtime-gateway/src/session.ts:1156-1160 | that clock starts when the first frame reaches the wait, with nothing submitted |
| MediaPacing.NextFrameGoesOut | apps/realtime-gateway/src/session.ts:1079-1129 | from any run with a queue, a working pump and audio not ahead by more than the burst, the next frame is submitted without any time passing, given a writable socket |
| MediaPacing.QueueGoesOutInTime | apps/realtime-gateway/src/session.ts:1079-1169 | from any run all that is queued can be submitted, in order, by the time its total less the burst has been played |
| MediaPacing.RenditionCanEnd | apps/realtime-gateway/src/session.ts:1079-1308 | a rendition whose last write has returned can be closed by that time, with everything submitted and the end reporting every resampled sample |
| MediaPacing.PushCutsAPacket | apps/realtime-gateway/src/session.ts:1205-1283 | an admitted writer queues one full packet of what it holds, or all of it if that is less, and keeps the rest |
| MediaPacing.FailsIff | apps/realtime-gateway/src/session.ts:1016-1129 | the player fails if and only if the socket breaks under a wait, a submission or the close, and it was not aborted |
| MediaPacing.PressureHolds | apps/realtime-gateway/src/session.ts:1093-1129 | after a frame the socket took only under pressure nothing is submitted until the socket has been waited for |
| MediaPlayer.QueueBounded | apps/realtime-gateway/src/session.ts:1143-1154 | in every run the queue's counter stays between zero and a second with the code's slack |
| MediaPlayer.WriterNotWedged | apps/realtime-gateway/src/session.ts:1132-1154 | a writer sleeps only for want of room, over a queue that is not empty and a pump that runs, never after an abort or a failure; one that looks at an empty queue is admitted |
| MediaPlayer.SleeperIsWoken | apps/realtime-gateway/src/session.ts:1016-1154 | from any run with a sleeping writer, the pump's next segments wake it once the socket drains and time passes |
| MediaPlayer.PacketFitsTheQueue | apps/realtime-gateway/src/session.ts:1205-1211 | no packet is longer than the whole queue may be, at any rate from one sample a second up |
| MediaPlayer.EndTotalsEverything | apps/realtime-gateway/src/session.ts:1290-1308 | `playback.end` totals all durations, which is every resampled sample, is silent for a rendition without audio, and everything was submitted |
| MediaPlayer.LateAbortCountsTwice | apps/realtime-gateway/src/session.ts:1333-1350 | an abort keeps the count of frames if and only if it does not fall between a pace answer and its submission |
| MediaPlayer.StepKeeps | apps/realtime-gateway/src/session.ts:1036-1350 | the player's invariant is kept by every segment, an abort at any moment included |
| RenditionPlayers.RenditionPlayer.Write | apps/realtime-gateway/src/session.ts:1172-1178 | what a write call admits and adds to the resampled stream |
| RenditionPlayers.RenditionPlayer.AskRoom | apps/realtime-gateway/src/session.ts:1143-1154 | one look of the capacity wait: admitted, given up or asleep |
| RenditionPlayers.RenditionPlayer.Push | apps/realtime-gateway/src/session.ts:1205-1283 | the next slice is numbered, stamped and queued, and the pump is started |
| RenditionPlayers.RenditionPlayer.PassGate | apps/realtime-gateway/src/session.ts:1079-1092 | the pump's loop head and the wait for a writable socket |
| RenditionPlayers.RenditionPlayer.AnswerPace | apps/realtime-gateway/src/session.ts:1156-1169 | the pace wait answers when its due time has come; `PaceAnswersIff` says when that is |
| RenditionPlayers.RenditionPlayer.Submit | apps/realtime-gateway/src/session.ts:1093-1129 | a frame is sent, sent under pressure or lost, with its counters, and the writer is woken |
| RenditionPlayers.RenditionPlayer.PumpEnded | apps/realtime-gateway/src/session.ts:1132-1141 | the pump restarts itself while there is something to send |
| RenditionPlayers.RenditionPlayer.Abort | apps/realtime-gateway/src/session.ts:1333-1350 | an abort drops the queue and wakes the writer; a writer already admitted still queues one frame, and a frame past its pace wait is still submitted |
| RenditionPlayers.RenditionPlayer.FinishClose | apps/realtime-gateway/src/session.ts:1290-1308 | the end of close: the total it reports is every resampled sample, or no report if there was no audio |
| InputFrames.FramesNeverOverlap | apps/realtime-gateway/src/session.ts:237-248 | under any clock, even one that goes back, no frame starts before an earlier one ended |
| InputFrames.StampFollowsArrival | apps/realtime-gateway/src/session.ts:237-247 | a frame is stamped right where the last one ended, and with its arrival exactly when that is more than a second behind it |
| InputFrames.BufferIsTheNewest | apps/realtime-gateway/src/session.ts:248-255 | every frame leaves once and in order, the buffer holds at most thirty seconds, and a push drops no frame that would still have fitted |
| InputFrames.NoLostWakeup | apps/realtime-gateway/src/session.ts:253-273 | the consumer sleeps only when there is nothing to take, every push and the end wake it, and when it has finished nothing is left behind |
| InputFrames.ExcessIsLeast | apps/realtime-gateway/src/session.ts:249-253 | dropping stops at the first suffix that fits |
| InputFrames.FrameQueue.Push | apps/realtime-gateway/src/session.ts:237-255 | the step of the model, with its re-anchoring and its drop loop |
| InputFrames.FrameQueue.DropOldest | apps/realtime-gateway/src/session.ts:249-253 | the loop drops exactly the least number of oldest frames |
| InputFrames.FrameQueue.End | apps/realtime-gateway/src/session.ts:257-260 | no frame is taken in after the end, and the consumer is woken |
| InputFrames.FrameQueue.Pull | apps/realtime-gateway/src/session.ts:262-273 | one turn of the iterator yields the oldest frame, sleeps or finishes |
| RealtimeEvents.StreamIsOnGrammar | apps/realtime-gateway/src/openai-realtime.ts:450-611 | for any interleaving of native events, audio and function calls the stream is accepted by the grammar, and an open connection stands where the stream does |
| RealtimeEvents.ScopedEventsAreInside | apps/realtime-gateway/src/openai-realtime.ts:450-611 | every event of a response lies after its own creation and before its own end, with no other response between |
| RealtimeEvents.CreatedIdsAreFresh | apps/realtime-gateway/src/openai-realtime.ts:574-592 | each response id is larger than every one created before |
| RealtimeEvents.AudioEndsOnce | apps/realtime-gateway/src/openai-realtime.ts:450-555 | audio ends at most once per response |
| RealtimeEvents.TranscriptIsItsDeltas | apps/realtime-gateway/src/openai-realtime.ts:450-555 | the transcript a response closes with is the concatenation of its deltas |
| RealtimeAnswers.EveryWordIsSent | apps/realtime-gateway/src/openai-realtime.ts:475-487 | in every run the texts of the transcript deltas sent, joined, are the texts of the native text deltas that came while the connection was open, in order |
| RealtimeAnswers.StreamGoesOn | apps/realtime-gateway/src/openai-realtime.ts:361-611 | in every run the stream goes on, event by event, with exactly what each native event, piece of audio and call event is owed, read off the stream itself; after close with nothing |
| RealtimeAnswers.RunFlags | apps/realtime-gateway/src/openai-realtime.ts:450-572 | a turn has begun, the playback format is known and the connection is closed exactly when such an event came before |
| RealtimeEvents.CallsResolveOnce | apps/realtime-gateway/src/openai-realtime.ts:361-446 | with one call outstanding at a time, each call but the pending one was resolved exactly once, and only the pending one is armed |
| RealtimeEvents.PendingCallCanResolve | apps/realtime-gateway/src/openai-realtime.ts:391-446 | a pending call still has its timer and its listener, and its output, its timer, its abort and the close each resolve it |
| RealtimeAnswers.FiresOnce | apps/realtime-gateway/src/openai-realtime.ts:409-446 | a call's timer fires once and its abort is heard once, whichever call they resolve |
| RealtimeEvents.CallsKeptIff | apps/realtime-gateway/src/openai-realtime.ts:409-446 | a step keeps the calls' books straight if and only if it does not dispatch over a pending call |
| RealtimeEvents.OverlappingCallsCross | apps/realtime-gateway/src/openai-realtime.ts:409-446 | with two calls outstanding the first one's timer resolves the second and the first is never resolved |
| RealtimeConnections.OpenAiRealtimeConnection.Emit | apps/realtime-gateway/src/openai-realtime.ts:119-123 | nothing is sent after close |
| RealtimeConnections.OpenAiRealtimeConnection.EnsureResponse | apps/realtime-gateway/src/openai-realtime.ts:574-592 | a response is opened once, with a new id |
| RealtimeConnections.OpenAiRealtimeConnection.CloseResponse | apps/realtime-gateway/src/openai-realtime.ts:604-611 | the open response, if any, is ended and forgotten |
| RealtimeConnections.OpenAiRealtimeConnection.SettlePendingCall | apps/realtime-gateway/src/openai-realtime.ts:391-396 | whichever call is pending is resolved and disarmed |
| RealtimeConnections.OpenAiRealtimeConnection.HandleNative | apps/realtime-gateway/src/openai-realtime.ts:450-572 | each native event and each piece of audio is the model's step, with the event's own text, and the stream stays on the grammar |
| RealtimeConnections.OpenAiRealtimeConnection.DispatchFunctionCall | apps/realtime-gateway/src/openai-realtime.ts:409-446 | a call is announced, made pending and closes its response |
| RealtimeConnections.OpenAiRealtimeConnection.HandleCallOutput | apps/realtime-gateway/src/openai-realtime.ts:361-389 | an output resolves the pending call only if it names it |
| RealtimeConnections.OpenAiRealtimeConnection.HandleTimer | apps/realtime-gateway/src/openai-realtime.ts:409-446 | a timer resolves whichever call is pending |
| RealtimeConnections.OpenAiRealtimeConnection.HandleAbort | apps/realtime-gateway/src/openai-realtime.ts:409-446 | an abort resolves whichever call is pending |
| RealtimeConnections.OpenAiRealtimeConnection.HandleClose | apps/realtime-gateway/src/openai-realtime.ts:107-112 | close resolves what is pending and silences the stream |
| AgentRuns.ReportIsLast | apps/realtime-gateway/src/agent-run-controller.ts:331-344 | the outcome is reported at most once and nothing is fanned out, spoken or silenced after it |
| AgentRuns.CancelWins | apps/realtime-gateway/src/agent-run-controller.ts:161-168 | after an accepted cancel nothing is spoken, only the cancellation is fanned out, and completion is never reported |
| AgentRuns.OutcomeIsHonest | apps/realtime-gateway/src/agent-run-controller.ts:234-297 | cancelled is reported only after an accepted cancel, completed only after the executor's completion and without a cancel, and nothing is spoken before the run started |
| AgentSpeech.EveryAnswerIsHeard | apps/realtime-gateway/src/agent-run-controller.ts:234-297 | in every run in which no callback throws: once it has started, every answer and every failure is spoken right after its event and in its own words, a failure is then reported, a completion is narrated if it has a milestone and then reported; nothing else is spoken as an answer, a failure or an ungated milestone |
| AgentSpeech.StepNews | apps/realtime-gateway/src/agent-run-controller.ts:139-344 | what each step adds to the log when no callback throws, in terms of what was staged and when something was last heard |
| AgentSpeech.StagedMilestoneWaits | apps/realtime-gateway/src/agent-run-controller.ts:263-322 | a staged milestone waits for the next event that looks at it; an answer, a failure, a stopped mouth, an accepted steering or cancel and the end drop it, the next milestone that cannot be heard yet replaces it |
| AgentSpeech.SteeredRunsAgain | apps/realtime-gateway/src/agent-run-controller.ts:148-159 | a steering that settles leaves the run running again, whatever happened meanwhile, unless it was cancelled or ended |
| AgentSpeech.ExecutorIsTold | apps/realtime-gateway/src/agent-run-controller.ts:161-224 | which steps ask the executor to cancel and which close it, and no others do |
| AgentSpeech.DrainsWithTheRun | apps/realtime-gateway/src/agent-run-controller.ts:196-211 | the event loop ends with the event that ends the run or with the stream, and with nothing else |
| AgentSpeech.ThrowingEventsFail | apps/realtime-gateway/src/agent-run-controller.ts:196-232 | a fan-out that throws fails a live run without narrating the event; a failure whose text cannot be found is fanned out and reported but not spoken |
| AgentSpeech.ThrowingControls | apps/realtime-gateway/src/agent-run-controller.ts:139-224 | what a throwing callback leaves undone: the steering begun and never awaited, the executor not told of an accepted cancel, nor closed after a rejected one |
| AgentRuns.TerminalIsFrozen | apps/realtime-gateway/src/agent-run-controller.ts:226-235 | once terminal, no event, control or deadline changes the log, the lifecycle or what is staged |
| AgentRuns.DrainedRunsReported | apps/realtime-gateway/src/agent-run-controller.ts:196-211 | a run whose stream has ended has reported its outcome, whatever executor, callbacks and callers do, if no step lost it to a throwing stop |
| AgentRuns.EndOfLoopReportsIff | apps/realtime-gateway/src/agent-run-controller.ts:196-232 | whatever ends the event loop of an unreported run, an event that throws, the stream's end or its break, its outcome is reported if and only if the sink lets itself be stopped |
| AgentRuns.ConsumedEndReportsIff | apps/realtime-gateway/src/agent-run-controller.ts:196-211 | an event leaves a run drained and unreported if and only if handling it threw before the end of the run and the sink's stop throws as well |
| AgentRuns.FailKeeps | apps/realtime-gateway/src/agent-run-controller.ts:226-232 | failing a run never meets a lifecycle that refuses, because it is terminal exactly when the controller is |
| AgentRuns.ShutdownIsBounded | apps/realtime-gateway/src/agent-run-controller.ts:171-194 | the drain deadline leaves the run terminal, with cancel called at most once and close exactly once |
| AgentHangUp.HangUpSilencesIff | apps/realtime-gateway/src/agent-run-controller.ts:171-194 | something may still be heard of a run after `endSession` if and only if it came before the executor reported its start, to a run neither over nor with its stream ended |
| AgentHangUp.MuteStays | apps/realtime-gateway/src/agent-run-controller.ts:161-211 | a run that is over, without its stream or cancelled never speaks again, however it goes on |
| AgentHangUp.EarlyHangUpIsNotACancel | apps/realtime-gateway/src/agent-run-controller.ts:171-194 | a hang-up before the run has started only asks the executor to cancel |
| AgentHangUp.EarlyHangUpSilencesNothing | apps/realtime-gateway/src/agent-run-controller.ts:171-194 | a run that speaks and reports completion after `endSession` |
| AgentRuns.StepKeeps | apps/realtime-gateway/src/agent-run-controller.ts:139-344 | the invariant that ties lifecycle, terminal flag and log, kept by every step with callbacks throwing anywhere |
| AgentNarration.MilestonesKeepTheirDistance | apps/realtime-gateway/src/agent-run-controller.ts:305-322 | under a clock that never goes back every gated milestone comes at least the interval after everything heard or silenced before it |
| AgentNarration.OrderKeptIff | apps/realtime-gateway/src/agent-run-controller.ts:305-322 | a step keeps milestones in order if and only if it is not a tool event whose two clock readings straddle the interval while one is staged |
| AgentNarration.MilestonesInOrder | apps/realtime-gateway/src/agent-run-controller.ts:263-271 | without such an event milestones are heard in the order described, none twice |
| AgentNarration.StaleMilestoneIsHeard | apps/realtime-gateway/src/agent-run-controller.ts:305-322 | for every positive interval, a run under a clock that never goes back in which a replaced milestone is heard after the newer one |
| AgentRunControllers.AgentLifecycle.MoveExecution | packages/agent-executor/src/index.ts:137-142 | moves from an allowed state, throws and stays otherwise |
| AgentRunControllers.AgentLifecycle.RequestCancel | packages/agent-executor/src/index.ts:113-118 | declined before the start and after the end, accepted while live, and a throw while cancelling |
| AgentRunControllers.AgentLifecycle.Finish | packages/agent-executor/src/index.ts:120-126 | cancelled only from cancelling, the other ends only from a live run |
| AgentRunControllers.AgentLifecycle.Fail | packages/agent-executor/src/index.ts:129-132 | closes any state that is not terminal |
| AgentRunControllers.AgentRunController.Deliver | apps/realtime-gateway/src/agent-run-controller.ts:324-329 | speaks and marks the moment, or leaves by the throw of the lifecycle or the sink |
| AgentRunControllers.AgentRunController.FlushPendingMilestone | apps/realtime-gateway/src/agent-run-controller.ts:315-322 | what is staged is spoken once the interval has elapsed |
| AgentRunControllers.AgentRunController.SpeakMilestone | apps/realtime-gateway/src/agent-run-controller.ts:305-313 | spoken when the interval has elapsed, else staged in place of an older one |
| AgentRunControllers.AgentRunController.Accept | apps/realtime-gateway/src/agent-run-controller.ts:234-297 | one event, with every branch and every throw of the model; `EveryAnswerIsHeard` says what is spoken |
| AgentRunControllers.AgentRunController.Consume | apps/realtime-gateway/src/agent-run-controller.ts:196-211 | one turn of the consuming loop with its handler |
| AgentRunControllers.AgentRunController.EndStream | apps/realtime-gateway/src/agent-run-controller.ts:204-210 | the loop's end without a terminal event, and the handler's second try |
| AgentRunControllers.AgentRunController.StopSpeech | apps/realtime-gateway/src/agent-run-controller.ts:139-145 | stops the mouth only, and says whether it was heard |
| AgentRunControllers.AgentRunController.BeginSteer | apps/realtime-gateway/src/agent-run-controller.ts:148-154 | refused unless running; a throwing queue drop leaves the run steering |
| AgentRunControllers.AgentRunController.Cancel | apps/realtime-gateway/src/agent-run-controller.ts:161-168 | an accepted cancel silences the mouth and calls the executor once |
| AgentRunControllers.AgentRunController.SettleCancel | apps/realtime-gateway/src/agent-run-controller.ts:217-224 | a rejected cancel fails the run and closes the executor |
| AgentRunControllers.AgentRunController.EndSession | apps/realtime-gateway/src/agent-run-controller.ts:171-181 | up to its first await |
| AgentRunControllers.AgentRunController.TimeOut | apps/realtime-gateway/src/agent-run-controller.ts:188-193 | the deadline closes the executor and fails the run |
| Quota.SweepingIsUnobservable | apps/realtime-gateway/src/quota.ts:61-102 | every run in which no reading of the clock comes before the latest sweep gets the verdicts of a ledger that never sweeps |
| Quota.MovingClockIsNeverBefore | apps/realtime-gateway/src/quota.ts:61-102 | so does every run under a clock that never goes back |
| Quota.BackwardClockIsObservable | apps/realtime-gateway/src/quota.ts:96-102 | a run with a reading behind the latest sweep whose verdicts differ |
| Quota.KeptWindows | apps/realtime-gateway/src/quota.ts:96-102 | every retained window resets after the last sweep, at most a window ahead, and holds at most the allowance |
| Quota.NetSpendingIsBounded | apps/realtime-gateway/src/quota.ts:61-87 | per window, allowed charges less refunds never exceed the allowance, and the counter hides no charge |
| Quota.WindowOpensWithACharge | apps/realtime-gateway/src/quota.ts:61-75 | every window resets exactly one window's length after a charge that found no live window of the account |
| QuotaRefunds.ChargeAnswers | apps/realtime-gateway/src/quota.ts:61-75 | while no refund misses, a charge is allowed if and only if no window is live or fewer charges stand in it than the allowance; `remaining` is the allowance less the charges then standing, and a new window resets one length from now |
| Quota.RefusalIsHonest | apps/realtime-gateway/src/quota.ts:69-72 | a refusal charges nothing, moves no reset and names the least whole number of seconds, at least one, that reaches the reset |
| Quota.WaitingAdmits | apps/realtime-gateway/src/quota.ts:61-75 | an account that waits the delay it was given is admitted, whatever others do meanwhile |
| QuotaRefunds.RefundsAreSafeIff | apps/realtime-gateway/src/quota.ts:61-87 | over whole runs, each window's allowed charges less the refunds of those charges stay within the allowance whatever is charged next if and only if no refund falls on a live window later than its charge's and takes a charge off it |
| QuotaRefunds.RefundUndoesChargeIff | apps/realtime-gateway/src/quota.ts:77-87 | one more refund keeps it so if and only if it comes before its charge's window resets or finds no live window of the account, or an empty one |
| QuotaRefunds.NoMissNoOverspending | apps/realtime-gateway/src/quota.ts:61-87 | while no refund misses, a live window's counter is exactly the charges that stand in it |
| QuotaRefunds.PromptRefundHits | apps/realtime-gateway/src/quota.ts:77-87 | which refunds miss, in terms of what a caller can look up before the call |
| QuotaRefunds.BookIsTheLedger | apps/realtime-gateway/src/quota.ts:61-87 | refunds that name their charges run on the same windows as the ledger |
| Quota.LateRefundFreesTheNextWindow | apps/realtime-gateway/src/quota.ts:77-87 | a run with one charge allowed per window in which a late refund lets two stand in one |
| Quota.QuotaLedger.Sweep | apps/realtime-gateway/src/quota.ts:96-102 | the loop drops exactly the passed windows, at most once a window's length |
| Quota.QuotaLedger.Charge | apps/realtime-gateway/src/quota.ts:61-75 | the model's step and verdict |
| Quota.QuotaLedger.Refund | apps/realtime-gateway/src/quota.ts:83-87 | the model's step |
| SynthesisGates.GateIsFairAndFull | apps/realtime-gateway/src/synthesis-gate.ts:77-93 | no slot idles while someone waits, the queue stays short, hand-off is first in first out and no ending leaks a slot |
| SynthesisGates.LimitKeptIff | apps/realtime-gateway/src/synthesis-gate.ts:77-93 | a segment keeps running plus handed-off requests within `maxInFlight` if and only if it is not an arrival taking a slot already handed over |
| SynthesisGates.PromptHandOffsAreBounded | apps/realtime-gateway/src/synthesis-gate.ts:77-93 | when every hand-off resumes before the next arrival at most `maxInFlight` run |
| SynthesisGates.OvershootIsUnbounded | apps/realtime-gateway/src/synthesis-gate.ts:77-93 | otherwise any number can run at once, with a single slot, even though no request finishes before a waiter that was handed a slot earlier has resumed |
| SynthesisGates.MeanStaysInRange | apps/realtime-gateway/src/synthesis-gate.ts:87-89 | the mean stays within the range of its initial value and the durations seen |
| SynthesisGates.EndingMovesTheMean | apps/realtime-gateway/src/synthesis-gate.ts:86-92 | an ending moves the mean three tenths of the way to its duration, and nothing else moves it |
| SynthesisGates.MeansDrawTogether | apps/realtime-gateway/src/synthesis-gate.ts:86-92 | the mean forgets: two gates that differ in their mean alone and see the same events draw together by three tenths with every ending |
| SynthesisGates.SynthesisGate.EstimatedWaitSeconds | apps/realtime-gateway/src/synthesis-gate.ts:67-70 | the least whole number of seconds, at least one, that covers the wait |
| SynthesisGates.SynthesisGate.Arrive | apps/realtime-gateway/src/synthesis-gate.ts:77-82 | starts, queues or is refused, and refused exactly when both are full |
| SynthesisGates.SynthesisGate.Resume | apps/realtime-gateway/src/synthesis-gate.ts:80-82 | the handed-over waiter starts |
| SynthesisGates.SynthesisGate.Finish | apps/realtime-gateway/src/synthesis-gate.ts:86-92 | the slot goes to the longest waiter |
| MediaV2.ParseAcceptsExactlyImages | apps/realtime-gateway/src/media-v2.ts:66-137 | parse accepts exactly the byte images of frames and returns the frame written, its stream id in lower case |
| MediaV2.ImageOfParse | apps/realtime-gateway/src/media-v2.ts:101-137 | whatever parse accepts is the image of the frame it returns |
| MediaV2.ParseOfImage | apps/realtime-gateway/src/media-v2.ts:101-137 | parsing the image of a frame returns the frame |
| MediaV2.ImageIsUnique | apps/realtime-gateway/src/media-v2.ts:66-99 | a frame has one byte image |
| MediaV2.ImagesAreInjective | apps/realtime-gateway/src/media-v2.ts:66-99 | two frames share bytes exactly when they differ at most in the case of the stream id |
| MediaV2.CaseIsInvisible | apps/realtime-gateway/src/media-v2.ts:41-50 | both spellings of a stream id have the same bytes |
| MediaV2.UuidTextOfBytes | apps/realtime-gateway/src/media-v2.ts:41-50 | reading back the bytes of a UUID (section 4 of RFC 9562) gives its text in lower case |
| MediaV2.UuidBytesOfText | apps/realtime-gateway/src/media-v2.ts:41-50 | any sixteen bytes have a UUID text that reads back as them |
| MediaV2.DecodeEncoded | apps/realtime-gateway/src/media-v2.ts:80-97 | little-endian fields of any width read back as written |
| MediaV2.EncodeDecoded | apps/realtime-gateway/src/media-v2.ts:101-137 | and any bytes are those of the number they read as |
| MediaV2.ByteOfField | apps/realtime-gateway/src/media-v2.ts:80-97 | byte `i` of a field is its value over 256 to the `i`, modulo 256: the least significant comes first |
| MediaV2.ValidatePayload | apps/realtime-gateway/src/media-v2.ts:52-59 | no error exactly when an end marker is silent or the payload is audio of the right length for its codec |
| MediaV2.EncodeError | apps/realtime-gateway/src/media-v2.ts:66-79 | no error exactly when the frame is one the format can carry |
| MediaV2.EncodeMediaV2Frame | apps/realtime-gateway/src/media-v2.ts:66-99 | the buffer filled in place is the frame's image, parses back to the frame, and is the only byte string that does; refused exactly outside the format |
| EditDistance.DistanceIsLeastCost | tools/asr_metrics.py:23-36 | the distance is the cost of some edit script and no script that turns one text into the other costs less |
| EditDistance.NoScriptIsCheaper | tools/asr_metrics.py:23-36 | no script costs less than the distance between what it reads and what it writes |
| EditDistance.Symmetric | tools/asr_metrics.py:24-25 | the distance is symmetric, so the swap of the operands is sound |
| EditDistance.Triangle | tools/asr_metrics.py:23-36 | the triangle inequality |
| EditDistance.ZeroIffEqual | tools/asr_metrics.py:23-36 | zero exactly between equal texts |
| EditDistance.DistanceBounds | tools/asr_metrics.py:23-36 | at least the difference of the lengths and at most the longer |
| EditDistance.NextRow | tools/asr_metrics.py:27-35 | one pass of the inner loop turns the row of a prefix into the row of the next |
| EditDistance.Levenshtein | tools/asr_metrics.py:23-36 | the rolling rows compute the distance |
| EditDistance.CharacterErrorRate | tools/asr_metrics.py:39-45 | no rate exactly for an empty reference; zero exactly for equal texts; at most one when the prediction is not longer |
| BargeInScoring.GreedyIsMaximum | platforms/macos-audio/aec-measure.ts:198-214 | with cues in order of end and detections ascending no matching of cues to in-window detections is larger than the loop's |
| BargeInScoring.Exchange | platforms/macos-audio/aec-measure.ts:198-207 | any matching that agrees with the loop on the first cues can be changed, losing no pair, to agree on one more |
| BargeInScoring.GreedyIsMatching | platforms/macos-audio/aec-measure.ts:198-207 | no detection is credited twice or outside its window |
| BargeInScoring.CreditedInTime | platforms/macos-audio/aec-measure.ts:198-207 | in the cue's own times: what is credited lies from `earlyMs` before its start to `lateMs` after its end, and nothing is credited if and only if all that does was claimed before |
| BargeInScoring.LatencyOf | platforms/macos-audio/aec-measure.ts:198-214 | each credited cue has one latency, in order, the time from its start to its detection |
| BargeInScoring.OrderIsNeeded | platforms/macos-audio/aec-measure.ts:198-207 | cues out of order on which the loop is not maximum |
| BargeInScoring.FirstFree | platforms/macos-audio/aec-measure.ts:202-203 | the first unclaimed detection inside the window, or none |
| BargeInScoring.ScoreDoubleTalk | platforms/macos-audio/aec-measure.ts:198-214 | the score belongs to a valid matching with its latencies, and with cues and detections in order misses and false barge-ins are the least possible |
| BargeInScoring.CueTimeline | platforms/macos-audio/aec-measure.ts:675-684 | the cues of a double-talk run are in order of end |
| SpeechRates.EstimateChars | tools/voxkit.py:105-134 | every character is charged at the rate of the nearest script before it, else the first after it, else the slowest |
| SpeechRates.LeastRate | tools/voxkit.py:111-112 | the default is the least rate of the table |
| SpeechRates.WhichHaveScripts | tools/voxkit.py:74-102 | every letter has a script, of its range or `Other`; a mark has one only inside a range; nothing else has any |
| SpeechRates.FirstScriptIs | tools/voxkit.py:74-102 | the script found is that of the first range in the table that holds the character |
| SpeechRates.Accumulate | tools/voxkit.py:259 | the prefix sums, strictly increasing for positive durations |
| SpeechRates.EstimateSeconds | tools/voxkit.py:137-139 | the sum of those charges over the normalised text, blanks included |
| SpeechRates.EstimateIsUnique | tools/voxkit.py:105-134 | a text and a rate table have one per-character estimate |
| SpeechRates.NormalizedKeepsVisible | tools/voxkit.py:255 | normalising drops whitespace and nothing else; where it leaves a blank is `NormalizedIffTidies` |
| Whitespace.NormalizedIffTidies | tools/voxkit.py:255 | a text is the normalised one if and only if it has the visible characters of the raw text, begins and ends with none, has only single blanks for whitespace, and one between two visible characters exactly where the raw text has whitespace between them |
| Whitespace.TidyIsUnchanged | tools/voxkit.py:255 | normalising leaves a text as it is if and only if it is tidy in that sense |
| SpeechRates.ScriptCounts | tools/measure_speech_rates.py:149-169 | the counts are the characters charged under each script, blanks included, and empty when no character has one |
| SpeechRates.CountsPriceTheText | tools/measure_speech_rates.py:149-169 | for a text with any scripted character the estimate is the sum over scripts of count divided by rate |
| SpeechRates.CountsAgreeIff | tools/measure_speech_rates.py:149-169 | counts and estimate agree if and only if the text is empty or has a scripted character |
| SpeechRates.TableGivesTheEstimateIff | tools/measure_speech_rates.py:149-169 | the table `ScriptCounts` returns, priced at the rates, is the number `EstimateSeconds` returns if and only if the text is empty or has a scripted character |
| Chunking.SentenceBounds | tools/voxkit.py:168-183 | the bounds tile the text with one sentence after each terminator and its closers and one for what is left |
| Chunking.SafeCut | tools/voxkit.py:206-218 | the position reached by backing off to a cluster's edge and then to a run's start; it splits a run only if the piece lies wholly inside it |
| Chunking.SafeCutSpares | tools/voxkit.py:186-218 | such a cut, unless behind the first character, never parts a mark from its base, and follows a joiner only where it was moved back to a run's start; every later place up to the one asked for would part a mark, a joined pair or a run |
| Chunking.BreakIndex | tools/voxkit.py:221-237 | the latest break of the best of the four tiers present in the window |
| Chunking.BisectRight | tools/voxkit.py:241 | the position the binary search returns separates what is at most the key from what is more |
| Chunking.CutIndex | tools/voxkit.py:240-245 | the cut is the end if the cap reaches it and else the break of the longest prefix that fits, a single character always fitting |
| Chunking.PackSentence | tools/voxkit.py:276-291 | one sentence rides along, opens a chunk or is cut up, keeping what is emitted within its budgets |
| Chunking.PackSentences | tools/voxkit.py:276-294 | chunks fit their ramped budgets, none ends before it has to, and no seam splits a run |
| Chunking.PackedIsLossless | tools/voxkit.py:276-294 | packed chunks are not empty and concatenate to the text |
| Chunking.ChunkCosts | tools/voxkit.py:260-294 | each chunk costs at most its cap by a billionth, or is a single character: the first its own cap if one is given, each later one `growth` times what the one before cost, none more than the budget |
| Chunking.DefaultPunctuation | tools/voxkit.py:195-203 | the code's own enders, closers, breaks and joiners are not run characters |
| Chunking.ChunkText | tools/voxkit.py:248-297 | chunks are not empty, concatenate to the normalised text (which `NormalizedIffTidies` fixes), fit the ramped budget up to the tolerance or are a single character, end only at the text's end, before a sentence that does not fit or at a cut of one too long, and split no Latin or digit run they do not lie inside |
| ChunkingUnique.SentencesAreUnique | tools/voxkit.py:168-183 | a text has one list of sentences that meets the contract of `SentenceBounds` |
| ChunkingUnique.EndIsUnique | tools/voxkit.py:276-294 | from one start and under one cap there is one place a chunk can end |
| ChunkingUnique.ChunksAreUnique | tools/voxkit.py:248-297 | for a text, its durations and a budget there is exactly one list of chunks that fit, lose nothing and end only where they must, so the contract of `ChunkText` fixes its result |

## Left out

- HTTP routing, discovery documents, protocol field validation, the web and command-line applications, engine servers, telemetry and LiveKit adapters: no property that spans operations.
- The database and the file system: rows are sequences whose statements are atomic and do not fail, files are present or not. Crash recovery (`reconcile`), the removal of unknown sessions and metadata statements that throw are not modelled.
- Eviction order in the media store and the capture library: rows stand in the order the queries sort by; the sorting itself is the database's.
- The conversation store behind the eviction callbacks: which sessions it offers and agrees to evict is a parameter of each step.
- Callbacks that call back into the object that called them (`onEvent`, speech sinks, socket sends) are not modelled; callbacks that throw are, in the agent run.
- Constructor arguments the source rejects by throwing (a non-positive allowance, window or slot count, a drain deadline that is not a positive integer) are preconditions of the constructors.
- The outbound player without Media v2 (legacy frames, no pacing), its telemetry, its recording tap and the wait for a playback acknowledgement. One writer awaits each call, as the conversation loop does; the resampler's output is a parameter.
- RenditionPlayers.RenditionPlayer.AnswerPace: the pace timer never answers before its due time; the code does not read the clock again after `setTimeout`, so a timer that fires early would submit early.
- MediaPlayer.Paced: rests on the same assumption about the timer.
- The socket's own backpressure episode and its deadline appear only as the outcome of waiting for it.
- Media v2 fields are integers: JavaScript numbers that are not integers are rejected by the code and have no counterpart here.
- Unicode: category, whitespace and NFKC with case folding are data. `CharacterErrorRate` takes texts already normalised.
- The heuristics of `_period_ends_sentence` are an arbitrary predicate; the chunker's theorems hold for any.
- Floating-point rounding: durations are reals, with the code's tolerances kept.
- The payloads of server events other than ids, texts and status, and the native events the adapter passes on unchanged, which are one kind of event here.
- How answers, failures and milestones are worded is data (`describeMilestone` and `describeFailure` are not modelled); `AgentExecutor` and its stream are the events of a run, so its own bounded queue and its identifiers are not modelled.
- Durations, rates and the score of the conversation loop's barge-in gate, and the cue audio of the double-talk run.
