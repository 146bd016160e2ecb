# A verified model of the audio path and its control protocols

A Dafny model of the research audio path that carries timestamped PCM from capture to OBS, and of the
protocols around it, with proofs about every run and every interleaving. `dafny verify dfyconfig.toml`
checks all of it.

Each stage has the same build. Where the program changes fields step by step there is a class with those
fields, whose methods are proved equal to a step function on one value (`Abs()` is that value); the step
functions are the specification, and the theorems about whole runs are proved about them. Where several
threads or processes share state there is a transition system with one step per shared access, and the
theorems hold for every interleaving.

| file | what it models |
|---|---|
| `Timing.dfy` | checked 64-bit arithmetic and the exact rational sample grid |
| `Ring.dfy` | the fixed-capacity rings |
| `WirePosition.dfy`, `AnchorTracker.dfy` | the exact device-to-wire association and the anchors of one generation |
| `PhaseModel.dfy`, `PhaseLedger.dfy` | the predicted resampler position and the interpolating anchor ledger |
| `CorrectionSpec.dfy`, `CorrectionRuns.dfy`, `CorrectionDecisions.dfy`, `CorrectionWorker.dfy` | the correction worker: its steps, its invariant and theorems over all runs, what every call decides and does in every reachable state, and the class |
| `AudioHandoff.dfy`, `HandoffDecisions.dfy`, `Pipeline.dfy` | the republishing handoff, what it takes in and writes, and worker and handoff composed end to end |
| `DiagnosticOwner.dfy`, `DiagnosticRuns.dfy`, `DiagnosticFailure.dfy`, `DiagnosticRecovery.dfy` | the owner tick against submissions and retirements from other threads, its theorems over all runs, what its failure flag stops, and which faults it survives |
| `RetirementFence.dfy`, `RetirementRuns.dfy` | start, gate and retire over create-once files, with crashes, power loss and reboots, and each of them run from beginning to end |
| `PairSupervisor.dfy` | the bounded restart supervisor |
| `ObsGrid.dfy` | the OBS sample grid, cursor and starvation filling |
| `SenderAnchors.dfy` | the sender's anchor ledger and RTP association (time stamps wrap as in section 5.1 of RFC 3550) |
| `NominalConverter.dfy`, `ControlLease.dfy`, `VideoTiming.dfy`, `VideoHandoff.dfy` | the converter's totals, the stdin lease, the video sequence tracker, the two-slot handoff |

Main results, in the system's terms:

- Published audio is the resampler's output from its first frame on, without gap, repetition or
  reordering, block k at origin + 10 ms * k, and every frame of it passed the 10 ms phase check against
  the full list of anchors ever accepted (`Pipeline.PublishedIsTheOutput`).
- Retirement and faults of a generation are final against every interleaving of atomic accesses
  (`DiagnosticRuns.RetirementIsFinal`, `FaultedNeverRevived`), and the output hooks follow their protocol.
- A segment's grid begins at the capture time of its anchor plus what the distance to its packet takes at the
  acquired rate, to the nanosecond, for every start that is not refused (`CorrectionDecisions.StartExact`), and
  the predicted source is at origin + 480 * k * (1 + ppm / 1e6) after k quanta (`PhaseModel.SourceAfter`).
- With recovery on, a health fault, a stall or anchors too old cost a generation and every other fault the whole
  bridge, over every interleaving (`DiagnosticRecovery.FaultDecides`), and the next generation of the session
  delivers again (`SuccessorDelivers`, `PauseIsSurvived`).
- A muted microphone is never heard, and everything else is heard sample for sample, clamped
  (`ObsGrid.HeardSample`).
- The OBS source emits every sample of a block at its own index on one grid or drops it, without overlap and
  without a hole of less than 100 ms, over every run of blocks and starvation checks (`ObsGrid.RunKeeps`).
- A sender's packet carries the newest anchor at or before its first frame, and never has to pass two at once
  while no anchor comes in behind frames already pushed (`SenderAnchors.AnchoredSender.Decorate`), which is what
  a converter that keeps to the exact duration of its input gives (`SenderAnchors.ConverterKeepsUp`).
- Which proof a retire prints, from any records (`RetirementRuns.RetireExact`), what a printed one is worth,
  exactly (`RetirementFence.FenceExact`), and that a supervised restart never starts over an unproved
  predecessor (`PairSupervisor.Supervisor.Run`).

Where a natural claim turned out false of the code:

- *Nothing is delivered once `failed_` is set.* A callback can set it between the tick's last look and its
  delivery; `DiagnosticRuns.LateFailureSlips` is such a run. Exactly, at every place of the tick and with or
  without recovery (`DiagnosticFailure.FailureExact`): nothing is ever delivered again if and only if the tick
  under way does not escape, that is unless its worker is live and healthy, delivery lies ahead of it, and
  every due packet it still has to take can be passed over. Without recovery those are the packets at most
  100 ms old; with recovery, those of an older generation of the same session, which a racing call may retire.
  At most one block slips through (`FailureLetsOneThrough`), none if the owner itself failed or no tick was
  under way (`DiagnosticFailure.FailureStops`).
- *A printed proof holds for good.* A retire that finds a tombstone does not synchronise it again, so a
  power loss can take it away (`BorrowedTombstone`). `FenceExact` gives the exact condition, a record on
  stable storage; without lost writes there is no condition (`FenceWithoutLoss`).
- *A receiver is executed at most once.* A second exec is impossible if and only if the attempt directory was
  synchronised (`ExecOnceExact`), and a process that finds the directory made does not synchronise it again:
  `UnsyncedExec` is a run that executes under a directory that a power loss then takes away.
- The lease lasts twelve seconds, the code's value, where several documents still say five.

## Model

| member | source | states |
|---|---|---|
| Timing.CheckedAdd | src/core/timing.cpp:65-69 | the sum exactly when it fits 64 bits, by guards that never overflow themselves |
| Timing.CheckedSub | src/core/timing.cpp:71-75 | the difference exactly when it fits 64 bits |
| Timing.MulDiv | src/core/timing.cpp:18-40 | double-and-add reaches floor(n * units / denominator) exactly, and gives nothing only when that floor itself exceeds 64 bits |
| Timing.TakeOdd | src/core/timing.cpp:23-30 | moving one odd unit into the output keeps the amount held, and the output never exceeds the true quotient |
| Timing.DoubleUnit | src/core/timing.cpp:32-37 | doubling the unit keeps the amount held, and overflows only if the answer does |
| Timing.AddUnsigned | src/core/timing.cpp:42-57 | signed origin plus unsigned distance, exact across zero, nothing only beyond the largest time |
| Timing.RationalTimeline.At | src/core/timing.cpp:104-109 | origin + floor(index * 1e9 * denominator / numerator) exactly, nothing only when not representable |
| Timing.GridMonotone | src/core/timing.cpp:104-109 | grid times never decrease with the index |
| Timing.QuantumGridExact | src/audio/audio_handoff.cpp:50-57 | quantum k of 480 frames lies exactly k * 10 ms after the origin: no rounding at block boundaries |
| Ring.Ring.PushBack | src/audio/audio_correction.cpp:124-129 | a push appends to the queue and changes nothing else, across wrap-around |
| Ring.Ring.DropFront | src/audio/audio_correction.cpp:199 | advancing the head removes exactly the oldest elements, across wrap-around |
| Ring.Ring.Get | src/audio/audio_correction.cpp:193-196 | element i of the queue is read from slot (head + i) modulo capacity |
| WirePosition.NominalIsExact | include/avsync/audio_anchors.hpp:22-41 | whole + remainder / rate is exactly wire_origin + delta * 48000 / rate; refused, at or after the origin, only when the whole part truly exceeds 64 bits |
| WirePosition.NominalAtWireRate | include/avsync/audio_anchors.hpp:22-41 | at 48 kHz wire frames are device frames |
| WirePosition.AtOrBeforeIsNumeric | apps/windows_sender.cpp:616-617 | comparing whole and remainder with a frame compares the exact rational positions |
| AnchorTracker.AudioAnchorTracker.Observe | include/avsync/audio_anchors.hpp:92-132 | one anchor: a stray generation leaves no trace, any other refusal poisons, an accepted one extends the history |
| AnchorTracker.AudioAnchorTracker.Reset | include/avsync/audio_anchors.hpp:153-167 | only a valid successor starts over, and then from nothing; otherwise nothing changes |
| AnchorTracker.OfferedEstimate | include/avsync/audio_anchors.hpp:136-149 | whatever a generation has been shown, an estimate is offered exactly when it is unpoisoned, its last accepted anchor is fresh and its last complete window has a rate within the limit; it is then the rate of that window, which is at least the minimum long |
| AnchorTracker.ObservedKeeps | include/avsync/audio_anchors.hpp:92-132 | every anchor keeps the invariant, and an anchor counts as accepted exactly for the three accepting statuses |
| AnchorTracker.AcceptKeeps | src/core/timing.cpp:193-219 | an anchor the tracker let through never meets the estimator's own discontinuity test |
| AnchorTracker.GenerationKeeps | src/core/timing.cpp:193-219 | for any sequence of anchors: accepted ones are consecutive and strictly forward in position and time, rate windows lie end to end and none is short, and the estimate held is that of the last one |
| AnchorTracker.PoisonIsFinal | include/avsync/audio_anchors.hpp:97 | a poisoned generation accepts nothing more and offers no estimate, whatever it is shown |
| AnchorTracker.AcceptExact | include/avsync/audio_anchors.hpp:92-132 | in every reachable state an anchor is accepted exactly when it is of this unpoisoned generation, at the nominal rate, not from before zero, old or future, has a wire position and follows the last accepted one within the gap; it completes a window exactly when it comes at least the minimum after the start of the one under way; any other is refused for the first of these that fails, and of this generation poisons it |
| AnchorTracker.RateExact | src/core/timing.cpp:193-219 | the rate of a window times its length is its frames; its ppm is what that is off nominal; the bounded ppm is the nearest within the limit; the ratio undoes it; and it is within the limit exactly when it was so unbounded |
| PhaseModel.SincPhaseModel.Reset | src/core/audio_phase.cpp:25-28 | a rate within 500 ppm starts the model at its origin with the ratio whose product with 1 + ppm / 1e6 is one; any other changes nothing |
| PhaseModel.SincPhaseModel.AdvanceInto | src/core/audio_phase.cpp:29-48 | all 480 predicted positions and the committed model, whose ratio goes towards the one whose product with 1 + ppm / 1e6 is one, or, when refused, the model unchanged |
| PhaseModel.SincPhaseModel.Fill | src/core/audio_phase.cpp:39-46 | the loop produces the positions of the specification, stopping exactly at 64-bit overflow |
| PhaseModel.LessIsNumeric | src/core/audio_phase.cpp:12-14 | comparing whole and fraction compares the numbers |
| PhaseModel.ReachedBetween | src/core/audio_phase.cpp:41 | every interpolated ratio lies between the old ratio and the commanded one |
| PhaseModel.CursorSpacing | src/core/audio_phase.cpp:39-46 | positions within a quantum advance one frame per frame, within 500 ppm |
| PhaseModel.PositionsIncrease | src/core/audio_phase.cpp:39-47 | positions strictly increase within a quantum and stay below the start of the next |
| PhaseModel.AdvanceKeepsValid | src/core/audio_phase.cpp:29-48 | the ratio goes between the old one and the one whose product with 1 + ppm / 1e6 is one, and the source forward by 480 frames within 500 ppm |
| PhaseModel.DriftBounded | src/core/audio_phase.cpp:29-48 | over any run of commands, refused ones included, the source moves by the frames produced within 500 ppm of them |
| PhaseModel.OneCallLag | src/core/audio_phase.cpp:41-47 | one call leaves exactly a 480th of the ratio lag, and none of it is touched inside the deadband |
| PhaseModel.LagAfter | src/core/audio_phase.cpp:41-47 | under a constant command every call divides the distance to the ratio whose product with 1 + ppm / 1e6 is one by 480, until the 1e-10 deadband, where it stays |
| PhaseModel.SampleStep | src/core/audio_phase.cpp:39-46 | from sample i of a quantum to the next, the source moves by the reciprocal of old + (target - old) * i / 480, or of the old ratio within the deadband |
| PhaseModel.SourceAfter | src/core/audio_phase.cpp:25-48 | reset at an origin for a source ppm fast, refused exactly beyond 500 ppm, the source stands after k quanta at that rate at origin + 480 * k * (1 + ppm / 1e6), exactly |
| PhaseModel.AdvanceRefused | src/core/audio_phase.cpp:29-47 | with the 64-bit range left ahead, a quantum is refused exactly before a reset, beyond 500 ppm, or past a day of output |
| PhaseLedger.AudioPhaseLedger.Add | src/core/audio_phase.cpp:49-62 | the four answers of add, and the ring that follows from each |
| PhaseLedger.AudioPhaseLedger.FindTime | src/core/audio_phase.cpp:63-80 | binary search and interpolation give the time of the linear specification, for every position and ledger |
| PhaseLedger.AudioPhaseLedger.AssessQuantum | src/core/audio_phase.cpp:81-100 | the first failing position decides, otherwise the largest phase does |
| PhaseLedger.TimeAtDefined | src/core/audio_phase.cpp:63-72 | a time exists exactly for bracketed positions |
| PhaseLedger.TimeAtNeighbours | src/core/audio_phase.cpp:65-79 | the value is the floor interpolation between the true neighbours |
| PhaseLedger.TimeAtMonotone | src/core/audio_phase.cpp:63-80 | time never decreases with position and stays between the first and last anchor |
| PhaseLedger.ExtensionKeeps | src/core/audio_phase.cpp:61 | a later anchor never revises a known time |
| PhaseLedger.EvictAgrees | src/core/audio_phase.cpp:58-59 | eviction forgets no time at or after the retained position |
| PhaseLedger.AddExtends | src/core/audio_phase.cpp:49-62 | the ledger stays a suffix of the ordered list of all anchors, and keeps one at or before the retained position |
| PhaseLedger.AddRefines | src/core/audio_phase.cpp:49-62 | for every bracketed position at or after retain, the trimmed ledger, before and after the add, answers exactly as the untrimmed list of all anchors |
| PhaseLedger.ReadyMeansOnPhase | src/core/audio_phase.cpp:81-100 | ready if and only if every position is well placed and within 10 ms of its grid time |
| PhaseLedger.WaitingMeansBehind | src/core/audio_phase.cpp:88-90 | for positions that start inside the ledger, waiting means only that the newest anchor is behind |
| CorrectionWorker.AudioCorrectionWorker.PushPacket | src/audio/audio_correction.cpp:79-132 | the worker after a packet is the step specification's, field for field, with its result |
| CorrectionWorker.AudioCorrectionWorker.DispatchQuanta | src/audio/audio_correction.cpp:133-183 | up to eight guarded quanta, each committed whole or not at all, as specified |
| CorrectionWorker.AudioCorrectionWorker.PullInto | src/audio/audio_correction.cpp:184-201 | the block, the samples in the caller's buffer and the new state are the specification's |
| CorrectionWorker.AudioCorrectionWorker.ResetTo | src/audio/audio_correction.cpp:202-214 | a valid successor with a reset backend is a new worker; otherwise unchanged or faulted |
| CorrectionWorker.AudioCorrectionWorker.CheckNow | src/audio/audio_correction.cpp:28-60 | the health gates in the program's order, with the first failing one recorded |
| CorrectionWorker.AudioCorrectionWorker.StartSegment | src/audio/audio_correction.cpp:61-78 | a start does what the step specification says; one that succeeds lies at most 2400 frames after its anchor and begins its grid the whole nanoseconds that distance takes at the acquired rate after the anchor was captured |
| CorrectionWorker.AudioCorrectionWorker.RunQuantum | src/audio/audio_correction.cpp:142-178 | nothing is committed unless model, ledger, resampler and grid all agree |
| CorrectionWorker.AudioCorrectionWorker.AcquireSegment | src/audio/audio_correction.cpp:102-111 | the median of three windows starts the segment |
| CorrectionWorker.AudioCorrectionWorker.TakeAnchorFrom | src/audio/audio_correction.cpp:115-122 | a repeated anchor adds nothing unless the ledger is empty |
| CorrectionRuns.HeadsBoundWholeQueues | src/audio/audio_correction.cpp:50-58 | after a passing check every queued frame of both rings, not just the head, is at most 200 ms old |
| CorrectionRuns.PushKeeps | src/audio/audio_correction.cpp:79-132 | every packet keeps the invariant |
| CorrectionRuns.DispatchKeeps | src/audio/audio_correction.cpp:133-183 | every dispatch keeps the invariant |
| CorrectionRuns.PullKeeps | src/audio/audio_correction.cpp:184-201 | every pull keeps the invariant |
| CorrectionRuns.ReachedKeeps | src/audio/audio_correction.cpp:9-214 | the invariant holds after any events whatever |
| CorrectionRuns.Conservation | src/audio/audio_correction.cpp:90-131 | received = discarded + consumed + queued and produced = delivered + queued = phase checks = model frames, in every reachable state without a fault |
| CorrectionRuns.DeliveryOrder | src/audio/audio_correction.cpp:184-201 | for any pull sizes: what is handed out is a prefix of the resampler's output, the rest is the queue, and blocks tile it, each stamped with the exact grid time of its first frame |
| CorrectionRuns.DeliveredOnPhase | src/audio/audio_correction.cpp:142-178 | every frame ever handed out has a predicted source time, read off all anchors ever accepted, within 10 ms of its output grid time |
| CorrectionRuns.WaitingIsForNewerAnchors | src/audio/audio_correction.cpp:115-149 | a running worker holds an anchor at or before the next position, so waiting means only that the newest anchor is behind |
| CorrectionRuns.FaultIsFinal | src/audio/audio_correction.cpp:15-29 | after a fault nothing changes and nothing is delivered until a reset |
| CorrectionRuns.CommandSlew | src/audio/audio_correction.cpp:142-165 | the command moves towards the measured rate by at most 0.99 ppm a quantum and never past it |
| CorrectionDecisions.StartExact | src/audio/audio_correction.cpp:61-78 | a segment starts exactly when its packet begins at or after the exact wire position of its anchor and at most 2400 frames later, the time is representable and the resampler was reset; its origin is then the capture time plus the whole nanoseconds d with d * 48000 * (1 + target / 1e6) <= gap * 1e9 < (d + 1) * 48000 * (1 + target / 1e6) |
| CorrectionDecisions.HealthExact | src/audio/audio_correction.cpp:28-60 | in every reachable state a call passes exactly when it is healthy and not before the last, progress is at most 200 ms old, the anchor between 100 ms ahead and 250 ms old, and every queued frame at most 200 ms old; otherwise the fault is the first of these that fails |
| CorrectionDecisions.MedianIsMiddle | src/audio/audio_correction.cpp:108 | the acquired rate is one of the three, with two on either side of it, itself included |
| CorrectionDecisions.PushDecides | src/audio/audio_correction.cpp:79-132 | in every reachable state, what becomes of a packet: another generation changes nothing; otherwise the first of stale, samples, metadata, rate, start, anchor and room that fails is the fault, and else it is discarded for priming or queued, its rate taken as target and its anchor into the ledger |
| CorrectionDecisions.AttachExact | src/core/audio_phase.cpp:49-62 | a packet's anchor is attached exactly when it has a wire position and lies strictly after the last in position and, by at most 100 ms, in time, and, after trimming, fewer than 512 are held |
| CorrectionDecisions.QuantumExact | src/audio/audio_correction.cpp:142-178 | in every reachable state a quantum is made exactly when the model can advance at the stepped command, all 480 positions are placed within 10 ms, the resampler gave 480 frames for at most 2048 and the grid goes on; the command goes 0.99 ppm nearer the target or reaches it |
| CorrectionDecisions.DispatchExact | src/audio/audio_correction.cpp:133-183 | in every reachable state a dispatch makes quanta until eight are made, fewer than 2048 frames are queued, fewer than 480 fit or an anchor is awaited, or a fault; all that was generated is queued in order and the command has come 0.99 ppm nearer the target for each, never past it |
| CorrectionDecisions.PullExact | src/audio/audio_correction.cpp:184-201 | in every reachable state a reader with room for 1 to 3840 whole frames is given as much of the queue as fits, from the front, stamped origin + index * 1e9 / 48000; any other is a fault |
| CorrectionDecisions.ResetDecides | src/audio/audio_correction.cpp:202-214 | only another session or a later generation of this one can follow; with the resampler reset for it the worker is as new, and without that it has failed |
| AudioHandoff.CorrectedAudioHandoff.ConsumeBlock | src/audio/audio_handoff.cpp:42-64 | the new state, result and writer effects of consume, equal to the step specification |
| AudioHandoff.CorrectedAudioHandoff.FlushPending | src/audio/audio_handoff.cpp:20-34 | flush as specified: at most eight writes, stopping at busy |
| AudioHandoff.CorrectedAudioHandoff.Beat | src/audio/audio_handoff.cpp:35-41 | heartbeat as specified |
| AudioHandoff.CorrectedAudioHandoff.Close | src/audio/audio_handoff.cpp:19 | revoke empties the queue and drops the writer |
| AudioHandoff.ConsumeKeeps | src/audio/audio_handoff.cpp:42-64 | accepted = published + 480 * queued, all on the exact grid at capture + delay, kept by every consume; the input history grows by exactly the block or the handoff is closed |
| AudioHandoff.FlushKeeps | src/audio/audio_handoff.cpp:20-34 | writing moves blocks from queue to published in order, loses none, and keeps the invariant |
| AudioHandoff.HeartbeatKeeps | src/audio/audio_handoff.cpp:35-41 | a heartbeat keeps the invariant and takes nothing in |
| HandoffDecisions.FlushFromExact | src/audio/audio_handoff.cpp:20-34 | blocks are written from the oldest on, each only while at most 200 ms old, at most 100 ms ahead and not past its presentation, until eight answers are used, nothing is queued or the writer is busy; one out of time or refused shuts the output and drops the queue |
| HandoffDecisions.HeartbeatExact | src/audio/audio_handoff.cpp:35-41 | a heartbeat writes what can be written and beats; a negative clock, a failed write or a refused beat shuts the output |
| HandoffDecisions.ConsumeExact | src/audio/audio_handoff.cpp:42-64 | a block is taken in exactly when it is whole, next in order, finite, of the same generation, on the grid, in time, in room, and each of its 480-frame slices has a presentation not yet past; slice j then queues at capture + 10 ms * j, that plus the delay, with its own frames; any other shuts the output and publishes and takes in nothing |
| Pipeline.StructureNeverRefused | src/audio/audio_handoff.cpp:42-53 | a block pulled in any reachable state is never refused by an open handoff for its shape, place, epoch or grid |
| Pipeline.PublishedIsTheOutput | src/audio/audio_diagnostic.cpp:164-186 | end to end, for all arrivals and busy patterns: published audio is the resampler's output from its first frame, gapless and in order; block k carries origin + 10 ms * k and that plus the delay; every frame passed the 10 ms check |
| Pipeline.DispatchContinues | src/audio/audio_correction.cpp:133-183 | output is made and stays queued in whole 480-frame quanta |
| DiagnosticOwner.BeginBetween | src/audio/audio_diagnostic.cpp:76-98 | in any log the hook protocol admits, a successful begin lies between a revoke and any later consume or revoke |
| DiagnosticRuns.CallStepKeeps | src/audio/audio_diagnostic.cpp:61-69 | each load and compare-exchange of a retirement keeps what the call has established; the retired generation only rises, and never past the admitted one |
| DiagnosticRuns.StepKeeps | src/audio/audio_diagnostic.cpp:47-187 | every step of every thread keeps the invariant |
| DiagnosticRuns.HookOrder | src/audio/audio_diagnostic.cpp:76-98 | over whole runs: between a revoke and any later consume, and between two revokes, lies a successful begin_generation |
| DiagnosticRuns.ConsumedInItsOwnOutput | src/audio/audio_diagnostic.cpp:125-140 | every block goes to an output begun for exactly its generation and not revoked since |
| DiagnosticRuns.RetirementIsFinal | src/audio/audio_diagnostic.cpp:57-75 | once a retirement has returned true, every tick that starts later delivers only higher generations, whatever interleaves; the retired generation covers the call for good and never falls |
| DiagnosticRuns.FaultedNeverRevived | src/audio/audio_diagnostic.cpp:147-149 | no run delivers from a faulted generation, or an older one, again |
| DiagnosticRuns.FailureLetsOneThrough | src/audio/audio_diagnostic.cpp:47-56 | a failure set by the callback during a tick lets at most one more block through |
| DiagnosticRuns.LateFailureSlips | src/audio/audio_diagnostic.cpp:47-51 | and it can: a reachable state has the flag set and nothing delivered, and its next step delivers |
| DiagnosticFailure.FailureExact | src/audio/audio_diagnostic.cpp:99-187 | with the flag set, in every reachable state and wherever the tick is: no block is ever delivered again if and only if the tick under way has nothing to escape by, that is no live, healthy worker on its way to delivery past packets it can all pass over |
| DiagnosticFailure.FailureStops | src/audio/audio_diagnostic.cpp:47-56 | the step that raises the flag ends all delivery if and only if it leaves no such tick; a failure the owner meets, and any between two ticks, leaves none |
| DiagnosticRuns.WorkerReacts | src/audio/audio_correction.cpp:28-32 | the correction worker answers every call as the owner's model of it does |
| DiagnosticRecovery.FaultDecides | src/audio/audio_diagnostic.cpp:8-11 | over every interleaving, with recovery on, a worker broken by a health fault, no progress or old anchors leaves its snapshot with the output revoked, its generation retired and the bridge no more failed than others made it; any other fault, or none to recover by, leaves the bridge failed |
| DiagnosticRecovery.SnapshotEnds | src/audio/audio_diagnostic.cpp:76-98 | and left alone that snapshot comes to its end |
| DiagnosticRecovery.SuccessorDelivers | src/audio/audio_diagnostic.cpp:99-187 | after such a fault, the first packet of a later generation of the session that a tick finds in time is begun a new output, and a block of its own generation is delivered in that tick |
| DiagnosticRecovery.PauseIsSurvived | src/audio/audio_diagnostic.cpp:76-98 | a reachable run does all of it: anchors stop, the worker faults for their age, and the next generation is begun and delivers |
| DiagnosticRecovery.PacketDecides | src/audio/audio_diagnostic.cpp:119-163 | a packet of a retired generation is passed over; one more than 100 ms old, or of another session during recovery, gives the bridge up; an older one is passed over; one not admitted is passed over or, during recovery, gives the bridge up; any other is fed to its own worker or opens a successor |
| DiagnosticRecovery.OpeningDecides | src/audio/audio_diagnostic.cpp:141-160 | a successor opens its output and worker unless the bridge has failed, eight generations have been, or the output refuses |
| DiagnosticRecovery.SubmissionDecides | src/audio/audio_diagnostic.cpp:47-56 | a submission is queued last exactly when it is well formed and fewer than 64 wait; otherwise the bridge has failed |
| DiagnosticRecovery.TickDecides | src/audio/audio_diagnostic.cpp:99-107 | a tick goes ahead exactly when the bridge has not failed and the clock is neither negative nor back; otherwise the bridge is given up, its worker broken and its output shut |
| DiagnosticRecovery.TakeDecides | src/audio/audio_diagnostic.cpp:106-112 | a tick takes the oldest packet waiting once it has arrived, and 64 at most |
| DiagnosticRecovery.ClosingDecides | src/audio/audio_diagnostic.cpp:57-75 | a well worker is broken before it is used exactly when its generation is retired, or, where the tick looks at that, when the provider is out of order |
| DiagnosticRecovery.FeedDecides | src/audio/audio_diagnostic.cpp:145-157 | a packet of the worker's generation is offered to it unless it has broken and the bridge recovers; an unhealthy offer breaks it |
| DiagnosticRecovery.DeliveryDecides | src/audio/audio_diagnostic.cpp:160-187 | a block is handed on exactly when the last dispatch leaves the worker well with a sane block; one not sane or not taken gives the bridge up |
| DiagnosticRecovery.RetirementDecides | src/audio/audio_diagnostic.cpp:57-75 | a retirement nothing disturbs returns true exactly for a generation of the bridge's session that has been admitted, and then retires every generation up to it; otherwise it changes nothing |
| RetirementFence.StepKeeps | tools/remote_receiver.py:171-251 | every file operation, crash and reboot keeps what each process has established |
| RetirementFence.ReachableInv | tools/remote_receiver.py:171-251 | so does every interleaving |
| RetirementFence.PrintFences | tools/remote_receiver.py:479-507 | the moment a proof is printed nothing runs, nobody is past its checks, every later check refuses, and the proof names exactly what the records show: an intent of another boot, else no receipt, else a receiver that is gone |
| RetirementFence.FenceExact | tools/remote_receiver.py:479-507 | a printed proof means that no run ever has the receiver alive or executed again if and only if some record of the attempt is on stable storage then; for fenced_prior_boot always |
| RetirementFence.FenceWithoutLoss | tools/remote_receiver.py:479-507 | when no reboot loses a write, every printed proof holds for good, without condition |
| RetirementFence.BorrowedTombstone | tools/remote_receiver.py:479-494 | a reachable run prints fenced_never_started over a tombstone nobody has synchronised, after which the attempt may still start |
| RetirementFence.SyncAnchors | tools/remote_receiver.py:233-251 | a process that lives to synchronise its record anchors the attempt exactly when the directory is synchronised |
| RetirementFence.AnchoredStays | tools/remote_receiver.py:233-251 | stable storage keeps a record through any run |
| RetirementFence.UnanchoredEscapes | tools/remote_receiver.py:270-286 | without a stable record there is a run that starts the receiver after all |
| RetirementFence.ExecOnceExact | tools/remote_receiver.py:426-444 | after an exec no run executes again if and only if the attempt directory had been synchronised |
| RetirementFence.UnsyncedExec | tools/remote_receiver.py:178-186 | and it may not have been: a reachable run comes to the exec under a directory whose maker died before synchronising it, and a power loss then allows a second exec |
| RetirementFence.AtMostOneExecution | tools/remote_receiver.py:426-444 | with no write lost, at most one exec per attempt in any interleaving |
| RetirementRuns.RetireExact | tools/remote_receiver.py:447-507 | a retire nothing disturbs, from any records: refused, changing and printing nothing, exactly when a record is incomplete or a receipt is without or at odds with its intent; otherwise a tombstone stands and it prints fenced_prior_boot iff the intent names another boot, fenced_never_started iff not and there is no receipt, and else fenced_empty_cgroup once the receiver is gone |
| RetirementRuns.RetirePolls | tools/remote_receiver.py:479-507 | a retire that polls has nothing to print while the receiver lives, and prints fenced_empty_cgroup when it has gone |
| RetirementRuns.StartExact | tools/remote_receiver.py:270-287 | a start nothing disturbs launches the unit exactly when there is no record of the attempt, with its intent on stable storage; otherwise it changes no record |
| RetirementRuns.GateExact | tools/remote_receiver.py:426-444 | a gate nothing disturbs executes exactly when nothing is cancelled, there is no receipt, and a complete intent of this boot; its receipt is then on stable storage first |
| PairSupervisor.Supervisor.Run | tools/process_pair.py:788-873 | for every environment: attempts bounded, sessions and accepted clocks never reused, senders only on their own receiver's clock, with proofs no receiver before all earlier ones are proved retired; success implies all proved; exit code 0 implies one attempt, one pair, no kill, no fault; the exit code is 0, 3 or 1 exactly for success without faults, success with faults and failure; a failure before the last attempt has a reported reason |
| PairSupervisor.Supervisor.OneAttempt | tools/process_pair.py:798-848 | the supervision goes on exactly when the attempt did not succeed, nothing interrupted it, cleanup left nothing unsafe and every retirement it owed is proved; the faults it reports are exactly its own error's and its cleanup's, and each of unproved, spoiled and interrupted holds exactly on the stated behaviour of its children |
| PairSupervisor.Supervisor.StopPair | tools/process_pair.py:681-786 | cleanup reports exactly the faults found, in order, verifies exactly when a fresh challenge was answered, and is terminal exactly when a child was unreaped, left output or control behind, or ended badly without a proof to cover it |
| PairSupervisor.Supervisor.WaitHandshake | tools/process_pair.py:661-679 | succeeds exactly on a first message in this session whose clock matches or is new, and raises the right error otherwise |
| PairSupervisor.Supervisor.WatchPair | tools/process_pair.py:631-659 | running ends well exactly when every poll is quiet |
| PairSupervisor.Supervisor.NewSession | tools/process_pair.py:623-629 | a nonzero session never used before; refused only if sixteen draws give none |
| PairSupervisor.Supervisor.NewProofToken | tools/process_pair.py:615-621 | a token never used before; refused only if sixteen draws give none |
| PairSupervisor.Supervisor.RunAttempt | tools/process_pair.py:803-827 | an attempt succeeds exactly when a session and, with proofs, a token can be drawn, both children spawn, each first message is of this session with a new clock that the sender repeats, and running stays quiet; otherwise it ends at the first of these that fails, with that error and only the children started by then; whatever happens, what it started is on record, and the retirement it owes from before it starts anything |
| PairSupervisor.Supervisor.AskToStop | tools/process_pair.py:684-697 | exactly the children already gone spoil a success already claimed |
| PairSupervisor.Supervisor.KillStragglers | tools/process_pair.py:701-713 | exactly the children still running are killed, each with its fault |
| PairSupervisor.Supervisor.Reap | tools/process_pair.py:714-750 | each child's end contributes exactly its faults, none twice |
| PairSupervisor.Supervisor.Retire | tools/process_pair.py:769-782 | the retirement stays unverified exactly unless a fresh challenge was answered |
| PairSupervisor.Supervisor.Conclude | tools/process_pair.py:849-862 | an interrupt, an unclean stop or an unverified retirement is a failure, and nothing else is |
| PairSupervisor.AttemptRecorded | tools/process_pair.py:769-782 | a retirement after an attempt leaves every receiver ever started retired |
| PairSupervisor.FirstWordDecides | tools/process_pair.py:631-679 | the first word a child says decides a handshake: a control message of this session with the clock asked for, or one never accepted; any other word is the error of its kind, silence a time-out, an interrupt neither; while running any word ends the attempt |
| PairSupervisor.FaultsFound | tools/process_pair.py:681-750 | a cleanup reports a fault if and only if some child left before it was asked under a success, had to be killed, ended with a bad status, or left output or control behind that was not known |
| PairSupervisor.EndsSpoil | tools/process_pair.py:681-750 | the three passes over the children make the cleanup terminal exactly for a child unreaped, with output or control left, or not covered by a proof and gone early, killed or ended badly |
| PairSupervisor.EndsDoubt | tools/process_pair.py:681-750 | and leave the retirement in doubt exactly for a receiver gone early, not stopped by asking, unreaped or ended badly |
| PairSupervisor.RecoverableExactly | tools/process_pair.py:831-838 | the errors a proof makes good: a spawn, an exit, an end of output or a handshake time-out of either child, a stdin failure of the receiver's; none else |
| PairSupervisor.OwnExactly | tools/process_pair.py:631-659 | the errors that are a child's own: its exit, its end of output, its stdin and output failures |
| ObsGrid.SampleIndex | plugins/obs/adapter.cpp:351-366 | the nearest sample, ties up, for every time at or after the epoch: the overflow guards never reject one |
| ObsGrid.GridTimestamp | plugins/obs/adapter.cpp:367-385 | the floor of the sample's start, refused exactly when not representable |
| ObsGrid.RoundTrip | plugins/obs/adapter.cpp:351-385 | sample_index(grid_timestamp(i)) = i whenever the inner call succeeds |
| ObsGrid.RoundTripNear | plugins/obs/adapter.cpp:351-385 | grid_timestamp(sample_index(t)) is within half a sample and 1 ns of t |
| ObsGrid.Monotone | plugins/obs/adapter.cpp:351-385 | both directions are monotone |
| ObsGrid.BoundedAdd | plugins/obs/adapter.cpp:386-390 | addition that saturates at the largest time |
| ObsGrid.AudioSource.Submit | plugins/obs/adapter.cpp:391-413 | hands over all of it at the cursor, or nothing, exactly when it is representable and not too early |
| ObsGrid.AudioSource.CloseGap | plugins/obs/adapter.cpp:429-441 | gaps up to 100 ms are filled with silence or, when too early, left alone with everything else; longer ones are jumped |
| ObsGrid.AudioSource.Protect | plugins/obs/adapter.cpp:446-453 | each sample becomes silence if private or not finite, and else the nearest value in [-1, 1] |
| ObsGrid.AudioSource.PlayBlock | plugins/obs/adapter.cpp:442-456 | what of a block is emitted is its end from the cursor on, or none of it |
| ObsGrid.AudioSource.ProcessFrame | plugins/obs/adapter.cpp:414-457 | grid, cursor, counters and emissions after a block are the step specification's |
| ObsGrid.AudioSource.Resync | plugins/obs/adapter.cpp:458-472 | starved output resumes at the cursor, or at the present if that is over 100 ms ahead |
| ObsGrid.AudioSource.FillStarvation | plugins/obs/adapter.cpp:458-483 | cursor, counters and emissions after a starvation check are the step specification's |
| ObsGrid.BlockKeeps | plugins/obs/adapter.cpp:414-457 | a block adds silence and at most one emission of its own, last: from the cursor, or its own nearest index if that is later, to its end, every sample at its own index |
| ObsGrid.FilledShape | plugins/obs/adapter.cpp:473-483 | starvation adds up to eight blocks of silence, end to end, each due by the low-water mark, and stops only past the mark or when too early |
| ObsGrid.ResumedAhead | plugins/obs/adapter.cpp:464-472 | resuming at the present never moves the cursor back |
| ObsGrid.RunKeeps | plugins/obs/adapter.cpp:391-483 | over every run of blocks and starvation checks: emissions lie on one grid, never overlap, and leave no hole of less than 100 ms; the output and fill counters balance with them; each is silence or, once for a block and in the order of the blocks, the end of that block with every sample at its own index |
| ObsGrid.RunExtends | plugins/obs/adapter.cpp:391-483 | between any two moments of a run the cursor has not gone back, nothing emitted is taken back and the grid stays |
| ObsGrid.NeverOverlaps | plugins/obs/adapter.cpp:391-413 | emissions of a run end, to the nanosecond, before the next starts |
| ObsGrid.HeardInPlace | plugins/obs/adapter.cpp:414-457 | frame k of what is heard of a block is the block's own frame at that index, and starts within 10.42 us of where the presentation puts it |
| ObsGrid.HeardSample | plugins/obs/adapter.cpp:442-456 | over every run, each sample heard of a block: on one channel, muted or captured before the last mute change, silence; otherwise the block's own sample at that place, the nearer of -1 and 1 beyond them, and silence if not finite |
| ObsGrid.BlockDecides | plugins/obs/adapter.cpp:391-457 | at any moment of a run, a block is heard exactly when its header is sensible, it is not from before the grid, and the gap and its own place are due by lead plus one sample and representable; all of it from the cursor on is then heard, and otherwise the cursor moves at most up to it |
| ObsGrid.StarveDecides | plugins/obs/adapter.cpp:458-483 | at any moment of a run, a starvation check emits from the cursor, or from the present if over 100 ms ahead of it, one block of silence after another while the low-water mark needs it and it is due, eight at most, and stops only then |
| SenderAnchors.AnchoredSender.Push | apps/windows_sender.cpp:518-541 | one packet adds one anchor exactly when far enough from the last, keeping anchors at least 480 wire frames apart; it is refused exactly for a failed observation, a position that is not forward or has no wire position, or a full ledger, and nothing is asked of the caller |
| SenderAnchors.AnchoredSender.PassAnchors | apps/windows_sender.cpp:611-620 | the loop leaves the newest anchor at or before the packet's first frame at the head |
| SenderAnchors.AnchoredSender.Decorate | apps/windows_sender.cpp:596-641 | a packet is refused exactly for its payload, its stamp modulo 2^32, its timing, an empty ledger or two anchors passed at once, and the last two never happen to one that covers frames already pushed while no anchor has come in behind those; it carries the newest anchor at or before its first frame |
| SenderAnchors.PassesTwo | apps/windows_sender.cpp:628-630 | the newest anchor at or before a packet is the advertised one or the next exactly unless the second after the advertised one is not ahead of it either |
| SenderAnchors.AnchoredSender.SteadyNeverSkips | apps/windows_sender.cpp:628-630 | while no anchor has come in behind frames already pushed, no packet passes two anchors: they lie 480 apart and a payload covers at most 180 |
| SenderAnchors.ConverterKeepsUp | src/audio/nominal_audio.cpp:53-57 | frames pushed are not ahead of the next anchor exactly when the converter's output does not exceed the exact duration of its input |
| SenderAnchors.FixtureIsAnInstance | apps/network_fixture_sender.cpp:251-262 | the fixture sender's quanta and its direct comparison are this ledger at 48 kHz |
| SenderAnchors.ComparesExactly | apps/network_fixture_sender.cpp:305-308 | the loop's test is the comparison of exact rational positions |
| NominalConverter.DurationIsExact | src/audio/nominal_audio.cpp:53-57 | the split form is floor(n * 48000 / rate), with no intermediate overflow under the guard |
| NominalConverter.Converter.Process | src/audio/nominal_audio.cpp:179-210 | a block is taken exactly when all guards pass; both totals move together or not at all |
| NominalConverter.Converter.RequiredFinishOutputFrames | src/audio/nominal_audio.cpp:212-217 | what is missing from the exact duration |
| NominalConverter.Converter.LeastPadding | src/audio/nominal_audio.cpp:236-247 | the binary search finds the least positive sufficient padding, for any backend whose counts only grow |
| NominalConverter.Converter.Finish | src/audio/nominal_audio.cpp:219-260 | a finish succeeds exactly when nothing has failed and it either already has, or the output is not ahead of floor(input * 48000 / rate), what is missing fits the caller's buffer, the largest padding yields it, and the conversion succeeds with finite samples; after any history it brings the total output to exactly that, by the least padding |
| NominalConverter.Converter.Reset | src/audio/nominal_audio.cpp:262-275 | a new backend starts the totals over; without one the converter has failed |
| ControlLease.ControlLease.Tick | include/avsync/process_control.hpp:55-61 | tick as specified |
| ControlLease.ControlLease.Consume | include/avsync/process_control.hpp:62-78 | the byte loop over the fixed line buffer, as specified |
| ControlLease.ControlLease.Fail | include/avsync/process_control.hpp:79-83 | only an active lease takes a reason |
| ControlLease.ChunkingInvariant | include/avsync/process_control.hpp:62-78 | at one instant, any way of cutting the bytes gives the state of consuming them at once |
| ControlLease.ReadsLines | include/avsync/process_control.hpp:64-76 | byte by byte is line by line: state, left-over text and renewal are those of the whole text |
| ControlLease.LineDecides | include/avsync/process_control.hpp:64-70 | a whole line of at most 32 printable characters stops the lease, renews it, or ends it as invalid, by its text alone |
| ControlLease.WordsDecide | include/avsync/process_control.hpp:67-69 | the words that stop and renew are AVSYNC_STOP and AVSYNC_KEEPALIVE |
| ControlLease.TerminalStays | include/avsync/process_control.hpp:55-83 | no sequence of calls leaves a terminal state |
| ControlLease.ActiveMeansRecent | include/avsync/process_control.hpp:48-61 | an active tick at t means construction or a completed keepalive line less than 12 s before t, in every run; partial lines never count |
| ControlLease.SilenceExpires | include/avsync/process_control.hpp:48-61 | in every run, a tick finds a lease that is still active invalid exactly when the clock has gone back since the last tick or read, active exactly when not and some renewal, construction or a completed keepalive line, lies less than 12 s before it, and otherwise expired |
| VideoTiming.TimestampFromTimeval | include/avsync/video_timing.hpp:17-30 | exactly the canonical monotonic times whose nanoseconds are representable |
| VideoTiming.ObservationDecides | include/avsync/video_timing.hpp:63-101 | of two frames whose true numbers lie at most 2^31 apart, however often the counter wrapped: a repetition, a successor, a gap and its size, a step back, or the one distance that is ambiguous, and the order of their times; the second is accepted exactly when truly later by both |
| VideoTiming.FirstDecides | include/avsync/video_timing.hpp:63-74 | a first frame is accepted exactly when its time is not negative |
| VideoTiming.VideoTimingTracker.Observe | include/avsync/video_timing.hpp:63-101 | the observation and the new anchor, as classified |
| VideoTiming.AnchorIsLastAccepted | include/avsync/video_timing.hpp:97-99 | rejected frames never move the anchor |
| VideoTiming.TimestampsIncrease | include/avsync/video_timing.hpp:88-99 | accepted timestamps strictly increase over any history |
| VideoTiming.SequencesAddUp | include/avsync/video_timing.hpp:75-87 | first sequence plus all counted steps is the last, modulo 2^32 |
| VideoTiming.StepExactIff | include/avsync/video_timing.hpp:75-87 | a step counts the skipped frames exactly if and only if the true sequence advanced by less than 2^31 |
| VideoTiming.MissingIsExact | include/avsync/video_timing.hpp:75-99 | then missing frames add up to the true number of skipped values, through any number of wraps |
| VideoHandoff.CopyPixels | include/avsync/video_handoff.hpp:68-77 | one block or row by row, the copy leaves exactly the packed pixels |
| VideoHandoff.PixelAt | include/avsync/video_handoff.hpp:68-77 | packed pixel c of row r is source pixel c of row r |
| VideoHandoff.StepKeeps | include/avsync/video_handoff.hpp:56-103 | every store of either thread keeps the invariant |
| VideoHandoff.Accounting | include/avsync/video_handoff.hpp:56-103 | accepted minus released is the number of ready slots, and a copy is refused exactly at two |
| VideoHandoff.ReadyIsNeverWritten | include/avsync/video_handoff.hpp:62-83 | no step of the producer changes a ready slot |
| VideoHandoff.ResolvedInOrder | include/avsync/video_publication.hpp:22-42 | the k-th frame resolved is the k-th accepted, with its own pixels and time, published in time at capture + delay or expired: each at most once and in order, for any busy pattern |
| VideoHandoff.ReleaseNeverFails | include/avsync/video_publication.hpp:36-41 | the release after a publication or an expiry always succeeds |
| VideoHandoff.CopyDecides | include/avsync/video_handoff.hpp:56-86 | a copy is refused, changing nothing, exactly for a negative time, a source of the wrong size or two frames waiting; otherwise it makes the newest frame, with its time and byte c of row r from byte c of row r |
| VideoHandoff.PublicationDecides | include/avsync/video_publication.hpp:22-42 | an attempt does nothing for a negative clock or delay or an empty queue, ends the publication for a frame without a presentation time or over 1 ms ahead, drops one over 200 ms old, and otherwise offers it at capture + delay: taken it leaves, busy it stays, else the publication ends |

## Left out

- Rounding: `double` and `long double` are `real`, so sinc phase, rates and interpolation are exact here.
- Counters that wrap only after centuries (frames, samples, retry and peak statistics) are unbounded, except where a 64-bit guard is tested; peaks and most statistics counters are not modelled.
- Interleaved stereo buffers are sequences of frames in the worker's rings; one ring class stands for the fields each class keeps by hand.
- The packet validator's verdict is an environment answer to the worker, constrained by nothing but its type; its anchor part is modelled on its own in `AnchorTracker.dfy`.
- libsamplerate, the GStreamer converter, the IPC writer, systemd and the clocks are environments with the bounds the code checks; the backend reset that `fail` performs has no modelled effect.
- Atomics are sequentially consistent: the acquire and release orders the program gives are taken to provide what they are there for.
- Retirement fence: one attempt, the lock free of time-outs (a time-out is a crash while waiting), record contents reduced to complete or not, durable or not, and the boot they name; JSON and argument validation are not modelled.
- RetirementFence.FenceExact: the `fenced_empty_cgroup` proof assumes that a terminal unit with an empty cgroup means that no receiver process is alive when it is reported.
- Pair supervisor: child I/O threads are polls answered by the environment; interrupts arrive at polls and in cleanup, not between a spawn and the note of it; native summaries and elapsed time are not modelled.
- Diagnostic owner: sample contents, output statistics and the sender-report freshness that can only make a tick less healthy are environment choices; `awaiting_generation` is not modelled.
- SenderAnchors.AnchoredSender.Decorate: the presentation-time check, capture window and header extension are one environment answer.
- NominalConverter.Converter.Finish: the backend's output count is required to grow with its input, which the library documents for a fixed phase.
- The diagnostic owner, the retirement fence and the video handoff are transition systems on values, one step per shared access, rather than classes, because what is proved of them is about every interleaving.
- Video handoff: stride handling is modelled row by row even where the program copies in one block, so that a reader may interleave anywhere.
- AudioRecord encoding, sockets, WASAPI, V4L2, OBS rendering, JSON printing and recording analysers are not part of this model.
