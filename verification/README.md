# Verified model of the transcode worker

The worker sells GPU transcoding against a payment ledger. This project models the parts of it that
decide who is charged, when a session is cut off and who gets the GPU, and proves what they promise
over every run.

- **Live sessions.** `PatternB` is one pre-paid session as a state machine over an arbitrary list of
  inputs: ticks (encoder clock, broker answers, clock readings, store answers), recorded end reasons,
  cancellation and its being noticed, encoder exit. Everything that leaves the session is kept in one log. `LiveSession` is
  the loop itself, proved equal to it. Five modules state what every run keeps: `PatternBLedger`
  (charges against encoded time and reports), `PatternBGrace` (when a session may be closed for lack of
  balance), `PatternBClose` (when and why it closes), `PatternBTrace` (the protocol), `PatternBStore` (the
  durable record). `Legacy` is the older,
  callback-billed session. `EncoderClock` is the compare-and-swap register the sessions read.
- **Admission.** `Scheduler` has the critical sections of the slot controller; `SchedulerSteps`
  interleaves any number of callers, cancellations, wake-ups and repeated releases. `WorkloadCost`
  supplies the requests.
- **Batch runs.** `BatchRuns` runs the VOD and ABR pipelines against an environment that may fail or
  kill the process at any call; `ChargeLedger` is the receiver that ignores replayed debits;
  `WorkerPool` is the shared queue; `JobRepo` the phase records.
- **Mirror.** `Mirror` copies a directory to a sink scan by scan; `MirrorHistory` compares it with a
  plain copy.
- **Session correlation.** `Sessions` has what the start, top-up and end handlers, the runner and the store
  share about a session name, and the critical sections on it. `SessionSteps` interleaves any number of
  starts, connects, runs, top-ups and end requests of one name, one critical section, store access or
  broker call at a time. `SessionInvariant` is what every step keeps; `SessionStarts`
  tells the calls of starts and runs and which starts are registered; `SessionIdentity` says under which
  work id calls are made, `SessionCloses` how often a session is closed, `SessionRecord` where its record
  stands after the run, and `SessionWitnesses` holds the runs in which a call or a write goes astray.

Each imperative member is tied by its `ensures` to a function on values, and the theorems are about
that function. Encoded time is in tenths of a second, money in whole units, instants in nanoseconds, all
exact integers; the cost model uses exact reals. Clocks, the encoder, the broker, the store, the shell
and the network are inputs.

Where the code and its documentation differ, the model follows the code:

- The job runner's header promises that a restart resumes from the last persisted phase. The code queues
  an unfinished job again and runs it from the start; `ChargeOnceAcrossRuns` is what makes this safe.
- The mirror promises that every local file is in the sink. It remembers a file's size even when its upload
  failed, so the file is not tried again before its size moves (`FailedUploadStays`). `PromiseKept` gives
  the exact condition over whole histories, `CurrentWhen` the one for the contents. It also promises that
  every unlinked file is deleted from the sink; a deletion that was refused is not tried again
  (`RefusedDeletionStays`, with a run in `LeftBehind`), and `UnlinkedGone` is the exact condition.
  Playlists are uploaded on every scan, not only when their size moves.
- The entry check of the scheduler compares a batch request with the totals, the loop with the batch
  share. A request between the two waits for ever (`WaitsForEver`, with a request in `LetInAndStuck`);
  `AdmissibleSomewhere` gives the exact condition and `NoStarvation` shows that the runners never issue
  such a request.
- A local file named like the master manifest is mirrored over it and deleted with it (`MasterLost`); agreement
  with a plain copy has its exact condition in `CleanScanAgrees` for one scan and in `MirrorAgreement` for
  histories over any initial sink, such as one an earlier session of the same stream has left.
- The stored `UnitsDebited` is the floor of the encoded seconds, not the sum of debits (`DurableAtEnd`).
- A session that leaves its loop waits for its mirror before it sends the recording event, gives back its
  lease and leaves the table, and the mirror runs until the session's context is cancelled. A session with
  a mirror that is closed by a tick under a broadcaster who stays connected holds its lease until somebody
  cancels it (`LeaseOutlastsSession`); `LeaseReleased` is the exact condition.
- One work id per session holds for every call a session's start and run make (`OneWorkId`). A top-up or end
  request takes the work id from the cache entry or else from the record, and gets the session's own
  exactly when the session wrote it (`LookupNames`). Three runs in which it did not: an old entry outlives
  its session (`StaleEntry`), a start is answered after the next one (`LateAnswer`), a connect writes the
  record of a session that has been replaced (`LateConnect`). A session that registers while no other start
  of its name is unanswered and nobody is connecting is safe for all lookups from its answer on
  (`UndisturbedSession`).
- A session may be closed with the broker never or twice. It is never closed if a broadcaster was refused
  for want of capacity after the record was written and the session is then ended (`ClosedNever`); twice if
  a broadcaster connects while an end request is being served (`ClosedTwice`). `EndRequestCloses` and
  `SessionClosedTimes` give the exact numbers for every interleaving.
- The record of a finished session need not be terminal: a top-up that read it before the final save and
  writes it back after leaves it streaming, and later top-ups are credited (`RecordOutlives`).
  `FinalPhase` is the exact condition.
- Legacy billing matches the cumulative reading exactly when the accepted readings do not decrease
  (`Telescoping`).

## Model

| member | source | states |
|---|---|---|
| `LiveTypes.CeilUnits` | internal/service/liverunner/liverunner.go:573-576 | units cover the time and exceed it by less than one unit |
| `LiveTypes.TerminalPhase` | internal/service/liverunner/liverunner.go:813-818 | every close reason maps to a terminal phase |
| `EndReason.SetAllIsHighest` | internal/service/liverunner/liverunner.go:185-217 | after any calls the reason kept is one of those recorded and of the highest priority among them |
| `EndReason.SetAllOrderFree` | internal/service/liverunner/liverunner.go:185-217 | racing goroutines: any two orders of the same calls end with the same reason |
| `PatternB.DriveClosed` | internal/service/liverunner/liverunner.go:718-749 | once the loop is left no later input changes the session |
| `PatternBLedger.TickBooks` | internal/service/liverunner/liverunner.go:566-621 | a tick attempts one debit exactly when time was encoded; it is paid if the broker took it and reported if the balance check answered too |
| `PatternBLedger.FinishBooks` | internal/service/liverunner/liverunner.go:758-788 | the settlement attempts exactly the residual time under the next number, reports it only if paid, and closes once |
| `PatternBLedger.BillingInvariant` | internal/service/liverunner/liverunner.go:566-595 | in every run the units charged lie between the time debited and that plus nine tenths per paid debit |
| `PatternBLedger.BillingBound` | internal/service/liverunner/liverunner.go:758-778 | with a monotone clock and a settlement that succeeds or is not needed, all encoded time is charged and the excess is under one unit per debit; otherwise the charge is what it was before |
| `PatternBLedger.LedgerInvariant` | internal/service/liverunner/liverunner.go:577-621 | attempted numbers are consecutive from the stored one, nothing is closed yet, reports equal payments but for the last line of a run whose balance check got no answer |
| `PatternBLedger.LedgerVersusReports` | internal/service/liverunner/liverunner.go:577-778 | over whole runs: consecutive numbers, one close, reports equal payments line by line, one line missing exactly when the session closed on an unanswered balance check |
| `PatternBGrace.OpenTracks` | internal/service/liverunner/liverunner.go:596-658 | in every open state the deadline and the low flag mean what the list of inputs says they should |
| `PatternBGrace.LowSinceUnique` | internal/service/liverunner/liverunner.go:622-629 | a grace period has one beginning, and none lasts once every shortage is recovered |
| `PatternBGrace.TickGrace` | internal/service/liverunner/liverunner.go:566-661 | what a tick does to the deadline, the low flag and the close reason, branch by branch |
| `PatternBGrace.GraceWhileOpen` | internal/service/liverunner/liverunner.go:622-658 | an open session is low exactly when some check opened a grace period that still lasts, its deadline is that check plus the grace, and no check since came after it |
| `PatternBGrace.GraceAtClose` | internal/service/liverunner/liverunner.go:622-645 | an open session closes for insufficient balance on an input if and only if the input is a paid short check strictly after the deadline of the current grace period |
| `PatternBGrace.GraceSafety` | internal/service/liverunner/liverunner.go:596-658 | every run closed for insufficient balance contains such a check, preceded by unbroken short checks from the arming one on |
| `PatternBTrace.TraceShape` | internal/service/liverunner/liverunner.go:549-848 | the log of every run that left its loop is a word of the protocol automaton up to the close, including what the messages say, and a complete one exactly when the wait for the mirror is over |
| `PatternBTrace.WordCloses` | internal/service/liverunner/liverunner.go:779-788 | in every word of the protocol the broker session is closed once and no debit follows |
| `PatternBTrace.WordEnds` | internal/service/liverunner/liverunner.go:779-784 | in every word of the protocol there is exactly one ended event once the session is over, none before |
| `PatternBTrace.WordReleases` | internal/service/liverunner/liverunner.go:461-469 | in every complete word the lease is released exactly once, as the last act |
| `PatternBTrace.WordAlternates` | internal/service/liverunner/liverunner.go:622-657 | low and refilled announcements strictly alternate, starting with low |
| `PatternBTrace.TraceGuarantees` | internal/service/liverunner/liverunner.go:577-848 | every run that left its loop has one ended event, one close with no debit after it and alternating announcements; the lease is released once and last if the mirror is drained, and held otherwise |
| `PatternBTrace.FinalMessages` | internal/service/liverunner/liverunner.go:779-848 | the ended event carries the close reason and whole seconds, the recording event, once the mirror is drained, the full length |
| `PatternBTrace.CancelSeen` | internal/service/liverunner/liverunner.go:720-726 | the context counts as cancelled exactly when the cancellation came while the loop ran |
| `PatternBTrace.LeaseReleased` | internal/service/liverunner/liverunner.go:832-834 | after the close the lease is back if and only if there is no mirror, or the context was cancelled before the loop was left or since |
| `PatternBTrace.RecordingSentWhen` | internal/service/liverunner/liverunner.go:832-848 | the recording event is sent if and only if the stream is to be recorded, there is a mirror, and the context was cancelled before the loop was left or since |
| `PatternBTrace.LeaseOutlastsSession` | internal/service/liverunner/liverunner.go:622-645 | a session with a mirror closed for lack of balance by a short check after the grace period of an earlier one, and not cancelled, is closed with the broker and holds its lease |
| `PatternBTrace.OpenReason` | internal/service/liverunner/liverunner.go:185-200 | while open, the recorded reason is the fold of all recordings so far |
| `PatternBTrace.CancelReason` | internal/service/liverunner/liverunner.go:720-726 | a session that notices its cancellation closes for worker failure if one was recorded, else for admin stop if one was, else gracefully |
| `PatternBClose.OpenKnows` | internal/service/liverunner/liverunner.go:185-217 | while open the recorded reason is worker failure, admin stop or graceful, by what has been recorded, and the context is cancelled exactly if a cancellation came |
| `PatternBClose.CloseVerdict` | internal/service/liverunner/liverunner.go:718-749 | on every input an open session closes exactly when, and for the reason, the inputs say: an encoder that breaks means worker failure, a clean exit or a noticed cancellation what was recorded, a tick payment failure or lack of balance |
| `PatternBClose.ClosedOnce` | internal/service/liverunner/liverunner.go:718-749 | a closed run closed on one input, for the reason of its verdict |
| `PatternBClose.WorkerFailedWhen` | internal/service/liverunner/liverunner.go:720-741 | a run closed for worker failure if and only if the encoder broke, or it exited cleanly or a cancellation was noticed after a failure was recorded |
| `PatternBStore.TickRecords` | internal/service/liverunner/liverunner.go:555-658 | a checked tick that keeps the session open counts in both copies and saves the record exactly when it turns the balance |
| `PatternBStore.DurableWhileOpen` | internal/service/liverunner/liverunner.go:509-658 | phase, low flag and deadline in memory always agree with the session; the stored copy shows what the last saved turn of the balance wrote; the stored number never runs ahead and equals the session's exactly when every increment landed; low holds exactly when a deadline is set |
| `PatternBStore.StoredAgreesWhen` | internal/service/liverunner/liverunner.go:622-658 | the stored copy agrees with the open session if and only if the last saved turn, or the accepted record, says of the grace period what is the case now |
| `PatternBStore.StoredAgreesAfterSavedTurn` | internal/service/liverunner/liverunner.go:622-658 | it agrees after every turn that was saved, whatever was lost before |
| `PatternBStore.PaymentLossRecorded` | internal/service/liverunner/liverunner.go:583-608 | a tick that loses the payment path leaves the payment-lost phase and the error code in memory, and in the store if the save landed |
| `PatternBStore.StoredLasts` | internal/repo/jobs/jobs.go:175-182 | a record that exists stays and is never terminal before the final save |
| `PatternBStore.DurableAtEnd` | internal/service/liverunner/liverunner.go:812-830 | the record is closed, encoder failed or balance exhausted exactly when the final save landed, by the close reason, and then carries number, reason, floor of seconds, time and cleared flags |
| `LiveSessions.LiveSession.constructor` | internal/service/liverunner/liverunner.go:501-553 | a session starts with the stored number, no deadline, and the ready event |
| `LiveSessions.LiveSession.PersistUpdate` | internal/service/liverunner/liverunner.go:555-564 | edits the copy in memory always, the stored one if it exists and the write lands |
| `LiveSessions.LiveSession.Charge` | internal/service/liverunner/liverunner.go:573-583 | counts the attempt in memory and store and asks for the rounded-up units under the new number |
| `LiveSessions.LiveSession.ReactToBalance` | internal/service/liverunner/liverunner.go:610-658 | refines the decision after a balance check |
| `LiveSessions.LiveSession.TickAndDecide` | internal/service/liverunner/liverunner.go:566-661 | refines one tick of the state machine |
| `LiveSessions.LiveSession.Turn` | internal/service/liverunner/liverunner.go:718-749 | refines one turn of the select loop |
| `LiveSessions.LiveSession.End` | internal/service/liverunner/liverunner.go:751-848 | refines settlement, ended, close, terminal save and, once the mirror is drained, recording and release |
| `LiveSessions.LiveSession.Run` | internal/service/liverunner/liverunner.go:454-880 | the loop over any list of inputs is the fold, followed by the end of the session if it closed |
| `Legacy.StepsTelescope` | internal/service/liverunner/liverunner.go:566-571 | stepwise bills never fall short of the cumulative reading and equal it if and only if the readings do not decrease |
| `Legacy.Telescoping` | internal/service/liverunner/liverunner.go:663-797 | for any pattern of lost ticks the accepted bills sum to the cumulative reading if and only if accepted readings do not decrease; the closing report carries the next number and completes the sum |
| `Legacy.ReportsTell` | internal/service/liverunner/liverunner.go:566-571 | in every run each tick has one report, with its own reading and the step from the last reading taken before it, and the session stands at the last reading taken |
| `Legacy.BilledReadings` | internal/service/liverunner/liverunner.go:663-678 | over the readings themselves: the accepted reports sum to the steps up between accepted readings, never less than the last, and equal to it if and only if they do not decrease |
| `Legacy.LegacyGrace` | internal/service/liverunner/liverunner.go:679-688 | an open session closes on a tick if and only if the tick is accepted, triggers, and comes strictly after the deadline of the grace period that still runs |
| `Legacy.TopupsSpaced` | internal/service/liverunner/liverunner.go:689-707 | answered top-ups are at least the interval apart in every run |
| `Legacy.TopupWhenDue` | internal/service/liverunner/liverunner.go:689-707 | a tick tops up exactly when it was taken, leaves the session open, the runway is short, the interval is over and the shell answers |
| `Legacy.StoredNumber` | internal/service/liverunner/liverunner.go:663-666 | the stored number is that of the last report while every increment lands |
| `Legacy.LegacySession.MaybeTopup` | internal/service/liverunner/liverunner.go:689-715 | refines the top-up decision |
| `Legacy.LegacySession.Tick` | internal/service/liverunner/liverunner.go:663-717 | refines one legacy tick |
| `Legacy.LegacySession.LastReport` | internal/service/liverunner/liverunner.go:790-797 | refines the closing report |
| `Legacy.LegacySession.Run` | internal/service/liverunner/liverunner.go:718-749 | ticks over any list are the fold |
| `EncoderClock.Raise` | internal/providers/ffmpeg/live.go:263-271 | the compare-and-swap loop leaves the maximum of its value and of all that others wrote meanwhile |
| `EncoderClock.RegisterMonotone` | internal/providers/ffmpeg/live.go:263-271 | under any interleaving of writers the register never goes back |
| `EncoderClock.RegisterIsMaximum` | internal/providers/ffmpeg/live.go:263-271 | when all writers are done it holds the largest value written |
| `EncoderClock.UndisturbedRaise` | internal/providers/ffmpeg/live.go:263-271 | a writer that is not disturbed finishes and raises the register to its value if that is larger |
| `EncoderClock.FailedSwapMeansProgress` | internal/providers/ffmpeg/live.go:263-271 | a swap fails if and only if the register was raised since the load |
| `EncoderClock.RegisterIsMonotoneClock` | internal/providers/ffmpeg/live.go:238-272 | a session that reads the register sees a monotone clock |
| `EncoderClock.BillingWithEncoder` | internal/providers/ffmpeg/live.go:238-272 | the billing bound up to the settlement's reading with no assumption on the clock: register and session composed |
| `Scheduler.Normalize` | internal/providers/scheduler/scheduler.go:70-98 | every configuration with slots keeps its totals and leaves a slot for batch, and a slot's worth of cost if there is that much |
| `Scheduler.NormalizeSlots` | internal/providers/scheduler/scheduler.go:74-86 | which slots are reserved for every configuration, and the default total cost |
| `Scheduler.NormalizeCost` | internal/providers/scheduler/scheduler.go:87-96 | which cost is reserved for every configuration: what is wanted, as far as the total leaves 100 |
| `Scheduler.NormalizeIdempotent` | internal/providers/scheduler/scheduler.go:70-98 | normalised limits are kept by normalising again |
| `Scheduler.SlotController.constructor` | internal/providers/scheduler/scheduler.go:126-135 | a new controller is idle |
| `Scheduler.SlotController.Occupy` | internal/providers/scheduler/scheduler.go:187-190 | moves the totals and the counters of the class and no other |
| `Scheduler.SlotController.AcquireLive` | internal/providers/scheduler/scheduler.go:137-164 | a live lease is given exactly when the request fits, with its exact size; a refusal changes nothing |
| `Scheduler.SlotController.BatchPass` | internal/providers/scheduler/scheduler.go:179-191 | a pass admits if the batch share allows, else gives up if cancelled, else waits, with the queue counter following |
| `Scheduler.SlotLease.Release` | internal/providers/scheduler/scheduler.go:229-244 | the first release gives back what was taken, any further one nothing |
| `SchedulerSteps.NextConserves` | internal/providers/scheduler/scheduler.go:137-244 | every step keeps each counter equal to the sum it stands for |
| `SchedulerSteps.Conservation` | internal/providers/scheduler/scheduler.go:137-244 | in every reachable state each counter is the sum over unreleased leases of its class and the queue counter the number of callers inside |
| `SchedulerSteps.Capacity` | internal/providers/scheduler/scheduler.go:212-219 | in every reachable state totals are respected and batch work stays out of the live reserve |
| `SchedulerSteps.BatchAdmission` | internal/providers/scheduler/scheduler.go:137-191 | in every reachable state a batch request within the totals is admitted if and only if what all unreleased leases hold and the request fit the batch share; else it gives up if cancelled and waits if not |
| `SchedulerSteps.WokenAdmission` | internal/providers/scheduler/scheduler.go:179-191 | the same for a waiting caller that is woken |
| `SchedulerSteps.LiveAdmission` | internal/providers/scheduler/scheduler.go:156-164 | in every reachable state a live request is admitted if and only if what all unreleased leases hold and the request fit the totals |
| `SchedulerSteps.ReleaseFrees` | internal/providers/scheduler/scheduler.go:229-244 | a release frees what the lease held, once |
| `SchedulerSteps.CancelledLeaves` | internal/providers/scheduler/scheduler.go:167-186 | a waiting caller that is cancelled has returned after its watcher's broadcast and one pass, and left the queue |
| `SchedulerSteps.LiveHeadroom` | internal/providers/scheduler/scheduler.go:156-164 | in every reachable state a live request within the reserve is admitted whatever the batch load |
| `SchedulerSteps.NoLostWakeups` | internal/providers/scheduler/scheduler.go:167-186 | in every reachable state no unsignalled sleeper is admissible, and a cancelled sleeper is signalled or has a broadcast pending |
| `SchedulerSteps.AdmissibleSomewhere` | internal/providers/scheduler/scheduler.go:146-186 | a batch request can ever be admitted if and only if it fits the batch share |
| `SchedulerSteps.WaitsForEver` | internal/providers/scheduler/scheduler.go:179-186 | a caller that waits for more than the batch share is not admitted in any later state |
| `SchedulerSteps.LetInAndStuck` | internal/providers/scheduler/scheduler.go:146-151 | a concrete request that passes the entry check and is never admitted |
| `SchedulerSteps.NoStuckCaller` | internal/providers/scheduler/scheduler.go:179-243 | from every reachable state, releasing the held leases and scheduling a waiting caller that fits the share admits it |
| `WorkloadCost.Estimate` | internal/providers/workloadcost/cost.go:71-98 | every cost lies between 20 and 100 |
| `WorkloadCost.EstimateTells` | internal/providers/workloadcost/cost.go:71-98 | the price in numbers: the least whole number that covers the weighted size, by codec and scale, between 20 and 100; 100 for an unset measure |
| `WorkloadCost.ScalesTell` | internal/providers/workloadcost/cost.go:37-69 | batch work is priced by the batch scale, live work by the live scale, with the defaults 1 and 1.25 |
| `WorkloadCost.LiveCostsMore` | internal/providers/workloadcost/cost.go:62-69 | by default live work costs no less than the same work in batch |
| `WorkloadCost.CommonSizes` | internal/providers/workloadcost/cost_test.go:9-31 | 480p, 720p and 1080p are priced in that order, and 720p live above batch |
| `WorkloadCost.Model.Normalized` | internal/providers/workloadcost/cost.go:37-47 | scales are positive after normalisation |
| `WorkloadCost.EstimateMonotone` | internal/providers/workloadcost/cost.go:71-98 | a preset at least as large in every respect does not cost less, if and only if the smaller one has all its measures or the larger one costs a whole slot; one without is priced at a whole slot |
| `WorkloadCost.LiveAdmissionCost` | internal/service/liverunner/liverunner.go:433-452 | the cost of the configured live preset, else the largest in the catalogue, else a whole slot; always between 20 and 100 |
| `WorkloadCost.ReserveCoversWhen` | internal/providers/scheduler/scheduler.go:70-98 | exactly which configurations reserve as much cost as their live slots can need; those with default costs do |
| `WorkloadCost.ReservedSlotsUsable` | internal/providers/scheduler/scheduler.go:156-164 | with such a reserve, in every reachable state with a reserved live slot free a live runner's request is admitted |
| `WorkloadCost.NoStarvation` | internal/providers/scheduler/scheduler.go:70-151 | for every configuration a runner's request is refused at once, only if it costs more than the total and that is below 100, or fits an idle scheduler |
| `WorkloadCost.RunnersNeverStuck` | internal/providers/scheduler/scheduler.go:179-243 | a waiting runner is admitted from every reachable state once held leases are released |
| `ChargeLedger.LedgerHolds` | internal/service/paymentbroker/paymentbroker.go:26-29 | the ledger holds exactly the numbers that arrived, each at the unit price, whatever else is mixed in |
| `ChargeLedger.LedgerSeen` | internal/service/paymentbroker/paymentbroker.go:26-29 | exactly the numbers that arrived are in the ledger, for any charges |
| `ChargeLedger.FirstCounts` | internal/service/paymentbroker/paymentbroker.go:26-29 | of all debits with one number the first counts, whatever the replays say |
| `ChargeLedger.ChargedOnce` | internal/service/paymentbroker/paymentbroker.go:26-29 | replays never add to the charge: at most n times the price, exactly that once all numbers arrived |
| `BatchRuns.Prepare` | internal/service/jobrunner/jobrunner.go:216-252 | reaches the encoding phase exactly when every answer is a success, with no lease and no charge |
| `BatchRuns.TakeLease` | internal/service/jobrunner/jobrunner.go:260-272 | the lease is held exactly when there is a scheduler and it agreed |
| `BatchRuns.DropLease` | internal/service/abrrunner/abrrunner.go:252-254 | a held lease is given back once |
| `BatchRuns.Fail` | internal/service/jobrunner/jobrunner.go:327-334 | marks the error if the store takes it; never completes |
| `BatchRuns.Advance` | internal/service/jobrunner/jobrunner.go:316-325 | enters the next phase of the path if the store takes it |
| `BatchRuns.Pay` | internal/service/jobrunner/jobrunner.go:301-306 | a debit lands if it succeeds and may land though it fails |
| `BatchRuns.EncodeAndDeliver` | internal/service/jobrunner/jobrunner.go:273-314 | keeps the lease, charges number 1 at most once and only after delivery, completes exactly when all succeeds |
| `BatchRuns.RunVod` | internal/service/jobrunner/jobrunner.go:216-314 | on every exit the lease is back unless the process died, encodes run under it, the phases follow the path, the charge follows delivery, completed if and only if every answer is a success |
| `BatchRuns.EncodeRendition` | internal/service/abrrunner/abrrunner.go:219-254 | one lease per encode, back on every exit |
| `BatchRuns.DeliverRendition` | internal/service/abrrunner/abrrunner.go:260-277 | rendition i is charged under number i+1, after its delivery, at most once |
| `BatchRuns.RunRendition` | internal/service/abrrunner/abrrunner.go:218-289 | extends the run by one encoded, delivered and charged rendition, or ends it lawfully |
| `BatchRuns.PublishMaster` | internal/service/abrrunner/abrrunner.go:291-311 | completes exactly when there is a rendition and every answer is a success |
| `BatchRuns.RunAbr` | internal/service/abrrunner/abrrunner.go:185-312 | as for VOD, over any number of renditions: never more than one lease, none asked for while held |
| `BatchRuns.ChargeOnceAcrossRuns` | internal/service/paymentbroker/paymentbroker.go:26-29 | over any number of crashed, failed or completed runs, mixed with any traffic, a job is charged at most n times its price and exactly that once a run completes |
| `BatchRuns.RerunVod` | internal/service/jobrunner/jobrunner.go:186-314 | a VOD job executed any number of times is charged at most once, and exactly once if an execution went through, which is when all its answers are successes |
| `BatchRuns.RerunAbr` | internal/service/abrrunner/abrrunner.go:185-312 | the same for ABR, once per rendition |
| `WorkerPool.Pool.constructor` | internal/service/jobrunner/jobrunner.go:86-86 | a new pool is empty |
| `WorkerPool.Pool.Submit` | internal/service/jobrunner/jobrunner.go:91-110 | a job is queued exactly when it has an id and a known preset and is saved; the empty id never enters the queue |
| `WorkerPool.Pool.Pop` | internal/service/jobrunner/jobrunner.go:113-126 | refines the specification of pop |
| `WorkerPool.Pool.Finish` | internal/service/jobrunner/jobrunner.go:210-214 | the id is no longer active |
| `WorkerPool.PopDropsOnlyActive` | internal/service/abrrunner/abrrunner.go:150-163 | pop takes the first id that is not active, drops only active ones before it, leaves the rest in order |
| `WorkerPool.PoolExclusion` | internal/service/jobrunner/jobrunner.go:186-214 | in every interleaving the active set is what busy workers hold, no id is held twice, and it is no larger than the pool |
| `WorkerPool.NoJobForgotten` | internal/service/jobrunner/jobrunner.go:91-126 | every submitted or resumed id is still in the queue or was held by a worker at some moment since |
| `WorkerPool.WorkIsFound` | internal/service/jobrunner/jobrunner.go:186-214 | an idle worker finds a queued job that nobody runs, and is idle again after finishing it |
| `Mirror.KeysDiffer` | internal/service/livecdn/livecdn.go:202-207 | two files never share a key |
| `Mirror.KeysUnderPrefix` | internal/service/livecdn/livecdn.go:202-207 | every key is the file's name below the prefix and a slash |
| `Mirror.NamesTell` | internal/service/livecdn/livecdn.go:218-224 | playlists end in .m3u8, segments in .ts or .m4s |
| `Mirror.ScannedIsCopied` | internal/service/livecdn/livecdn.go:129-150 | a scan stores exactly the files seen new, with another size, or named as playlists, that could be read and were taken; removes exactly those that went and were let go; and leaves all else |
| `Mirror.SegmentsTell` | internal/service/livecdn/livecdn.go:172-174 | a scan lists exactly the segments, by name, that it saw new or with another size and stored |
| `Mirror.ScanDeterministic` | internal/service/livecdn/livecdn.go:129-149 | the sink after a scan does not depend on map iteration order |
| `Mirror.LiveMirror.constructor` | internal/service/livecdn/livecdn.go:55-63 | a new mirror remembers nothing |
| `Mirror.LiveMirror.UploadOne` | internal/service/livecdn/livecdn.go:158-176 | stores the body and lists a segment exactly when the file was read and the sink took it |
| `Mirror.LiveMirror.Uploads` | internal/service/livecdn/livecdn.go:129-139 | in any order, exactly the due files that succeed are stored and listed |
| `Mirror.LiveMirror.Deletions` | internal/service/livecdn/livecdn.go:141-150 | in any order, exactly the vanished files are deleted, but for refused deletions |
| `Mirror.LiveMirror.ScanOnce` | internal/service/livecdn/livecdn.go:105-156 | every file meets its fate, nothing else is touched, the new sizes are remembered even if uploads failed |
| `Mirror.LiveMirror.Segments` | internal/service/livecdn/livecdn.go:181-194 | refines the list of first occurrences |
| `Mirror.FirstOccurrencesOnce` | internal/service/livecdn/livecdn.go:181-194 | the recording list has every uploaded segment, each once, by first upload |
| `MirrorHistory.CleanScanAgrees` | internal/service/livecdn/livecdn.go:105-156 | a clean scan keeps the sink a plain copy plus the manifest if and only if size told every change of a file that is not a playlist and no local file of the manifest's name went away |
| `MirrorHistory.CleanHistoryTells` | internal/service/livecdn/livecdn.go:105-176 | over any failure-free history in which size tells every change, and any initial sink: the directory's file, nothing under a name it once had, and elsewhere what was there at first |
| `MirrorHistory.MirrorAgreement` | internal/service/livecdn/livecdn.go:105-176 | in such a history the sink is after a scan the directory plus the master manifest if and only if the manifest was written and no local file of its name came and went, and every other initial key is of a file the directory has had |
| `MirrorHistory.NoStrayKeys` | internal/service/livecdn/livecdn.go:141-154 | whatever uploads fail, a file whose deletion was never refused is in the sink only if the last scan saw it, or it was there at first and no scan ever saw it |
| `MirrorHistory.UnlinkedGone` | internal/service/livecdn/livecdn.go:34-37 | every file seen earlier and now unlinked is gone from the sink if and only if for each of them the last scan that touched it did not store it, and it was not there untouched |
| `MirrorHistory.RefusedDeletionStays` | internal/service/livecdn/livecdn.go:141-154 | after a refused deletion the sink keeps the file as long as it does not come back |
| `MirrorHistory.LeftBehind` | internal/service/livecdn/livecdn.go:141-154 | a three-scan run that leaves a deleted file's key in the sink |
| `MirrorHistory.FailedUploadStays` | internal/service/livecdn/livecdn.go:132-154 | after a failed upload the sink keeps what it had of the file, nothing or an old body, as long as the file keeps its size |
| `MirrorHistory.PlaylistCurrent` | internal/service/livecdn/livecdn.go:132-139 | a scan that sees and can store a file named .m3u8 leaves its current body in the sink, whatever size was remembered |
| `MirrorHistory.SinkTells` | internal/service/livecdn/livecdn.go:105-156 | over any history, with any failures and any initial sink, the sink holds of a file what the last scan that touched it did, or what it held at first |
| `MirrorHistory.PromiseKept` | internal/service/livecdn/livecdn.go:34-37 | every local file is in the sink if and only if for each of them the last scan that touched it stored it, or it was there and untouched |
| `MirrorHistory.PresentWhen` | internal/service/livecdn/livecdn.go:132-154 | a file the walk keeps seeing is in the sink if and only if it was before or one of the scans stored it |
| `MirrorHistory.CurrentWhen` | internal/service/livecdn/livecdn.go:158-176 | a stored file has the body of the last scan that stored it, and is current if and only if the file has that body again |
| `MirrorHistory.MasterLost` | internal/service/livecdn/master.go:16-36 | a local file named like the master takes the manifest with it when it goes; otherwise the manifest is untouched |
| `JobRepo.Repo.Transition` | internal/repo/jobs/jobs.go:83-100 | closes the open timing, appends the new one, closed at once if terminal; a missing job or failed write changes nothing |
| `JobRepo.Repo.MarkError` | internal/repo/jobs/jobs.go:103-120 | the same for errors, with code and message |
| `JobRepo.Repo.Save` | internal/repo/jobs/jobs.go:32-38 | an empty id is refused; otherwise exactly that record is replaced |
| `JobRepo.MoveKeepsTimeline` | internal/repo/jobs/jobs.go:83-100 | every move keeps a well-formed timeline |
| `JobRepo.JobTimeline` | internal/repo/jobs/jobs.go:83-120 | for any calls under a clock that does not run back: last timing is the phase, open exactly while not terminal, timings ordered and abutting except after a terminal one |
| `JobRepo.TimelineRecordsAll` | internal/repo/jobs/jobs.go:83-120 | every phase asked for is recorded, in order, at its instant |
| `JobRepo.LastErrorTold` | internal/repo/jobs/jobs.go:103-120 | the record tells code and message of the last error marked, whatever phases came after |
| `JobRepo.ErrorStays` | internal/repo/jobs/jobs.go:83-100 | without a mark the error stays, and the phase is the one asked for last |
| `JobRepo.ResumeAll` | internal/service/jobrunner/jobrunner.go:150-165 | refines the list of resumable ids |
| `JobRepo.ResumesUnfinished` | internal/repo/jobs/jobs.go:68-80 | exactly the unfinished VOD jobs are queued again |
| `Sessions.RecordTellsIdentity` | internal/runtime/http/http.go:1073-1091 | a record tells the identity of its session as the cache entry does, unless the session has no work id |
| `Sessions.SessionServer.constructor` | internal/runtime/http/http.go:1109-1111 | nothing is known of any name |
| `Sessions.SessionServer.StartSession` | internal/service/liverunner/liverunner.go:885-916 | registers the session with its record exactly if the name is free and the write lands; other names are untouched |
| `Sessions.SessionServer.AnswerStart` | internal/runtime/http/http.go:731-737 | the cache entry becomes the identity of the start |
| `Sessions.SessionServer.CheckActive` | internal/runtime/http/http.go:1093-1101 | a session is active unless it has no record or its phase is terminal or closing; one that is over is dropped from the cache |
| `Sessions.SessionServer.Lookup` | internal/runtime/http/http.go:1073-1091 | the cache entry, else what the record tells |
| `Sessions.SessionServer.DropCached` | internal/runtime/http/http.go:1131-1135 | exactly the entry of the name goes |
| `Sessions.SessionServer.SaveConnect` | internal/service/liverunner/liverunner.go:317-335 | the record takes the identity of the session that was read from the table, or none |
| `Sessions.SessionServer.PublishConnect` | internal/service/liverunner/liverunner.go:382-397 | the table takes the control block that was read, whatever is there by now |
| `Sessions.SessionServer.SavePhase` | internal/service/liverunner/liverunner.go:555-564 | the record keeps its identity and takes the phase, if it exists and the write lands |
| `Sessions.SessionServer.LeaveTable` | internal/service/liverunner/liverunner.go:466-468 | exactly the name leaves the table |
| `Sessions.SessionServer.StopStream` | internal/service/liverunner/liverunner.go:920-945 | a pending session is removed and its record closed; of a running one the run to wait for is told |
| `SessionInvariant.NextKeeps` | internal/runtime/http/http.go:657-1107 | every step keeps numbers, authors, the run in the table, requests and calls in order |
| `SessionInvariant.RunKeeps` | internal/service/liverunner/liverunner.go:302-945 | in every reachable state the cache entry and the record say what their last author wrote, exactly the session in the table is run, and every call fits its maker |
| `SessionStarts.StartsCallOnce` | internal/runtime/http/http.go:690-712 | a start that was let through has opened its session once and credited its ticket once, and no start does either twice |
| `SessionStarts.AskedWhen` | internal/runtime/http/http.go:690-712 | a start is let through exactly if the broker opens the session and takes the ticket; the calls are in that order under its work id |
| `SessionStarts.RegisteredWhen` | internal/service/liverunner/liverunner.go:885-916 | a start that was let through is registered exactly if the name is free and the record is written, with its own identity; a refused one changes nothing |
| `SessionStarts.CallsMade` | internal/service/liverunner/liverunner.go:573-583 | a running session with work id and sender debits under its work id, any other does not; a taken top-up is credited to what it found |
| `SessionStarts.PhaseWritten` | internal/service/liverunner/liverunner.go:555-564 | a running session's new phase gets into the record, and nothing else does |
| `SessionStarts.ConnectTells` | internal/service/liverunner/liverunner.go:301-397 | a connect takes on the session in the table or one without identity, files its identity as streaming, and puts it in the table as running; refused, it leaves what it wrote |
| `SessionStarts.StopTells` | internal/service/liverunner/liverunner.go:920-945 | a stop removes a session nobody connected to and closes its record, and waits for a running one |
| `SessionIdentity.OneWorkId` | internal/runtime/http/http.go:657-940 | in every interleaving the open, first credit, debits and close of a session's start and run name its work id, and a request's call names what its lookup gave |
| `SessionIdentity.LookupGives` | internal/runtime/http/http.go:1073-1107 | a lookup gives the identity of the start answered last since the entry was dropped, else that of the last author of the record |
| `SessionIdentity.LookupNames` | internal/runtime/http/http.go:1073-1107 | a request for the session in the table finds its work id if and only if that author has it; if no other start has it, if and only if that author is the session itself |
| `SessionIdentity.UndisturbedSession` | internal/runtime/http/http.go:714-737 | a session that registers while no start of its name is unanswered and nobody connects: as long as it is in the table the record tells its identity, and once answered the cache does too or has no entry |
| `SessionCloses.RunClosesOnce` | internal/service/liverunner/liverunner.go:785-788 | the run of a paid session closes it exactly once, when it gets there, and a session nobody ran not at all |
| `SessionCloses.EndRequestCloses` | internal/runtime/http/http.go:903-940 | a finished end request has made for one close if it read that nobody connected, plus one if it stopped a paid running session: zero, one or two |
| `SessionCloses.EndReadsLastPhase` | internal/runtime/http/http.go:917-921 | what an end request reads is the phase last written to the record |
| `SessionCloses.SessionClosedTimes` | internal/runtime/http/http.go:926-931 | over whole runs a work id is closed once for every session that has it and whose run got there, plus once for every end request that found it, read that nobody connected and was not refused |
| `SessionRecord.FinalPhase` | internal/service/liverunner/liverunner.go:819-830 | after a run's final save, until the name is registered or connected to again, the record stands at the phase saved if and only if no top-up that read another phase before the save writes it back after |
| `SessionRecord.TurnedAway` | internal/runtime/http/http.go:1093-1107 | a request goes on if and only if there is a record whose last phase is none of closed, encoder failed, balance exhausted and closing; otherwise it is turned away, the cache entry is dropped, and it never calls the broker |
| `SessionWitnesses.StaleEntry` | internal/runtime/http/http.go:1073-1076 | a top-up for a session being started is credited to the finished session whose entry is still cached |
| `SessionWitnesses.LateAnswer` | internal/runtime/http/http.go:714-737 | a top-up for a live and answered session is credited to an ended one whose start was answered later |
| `SessionWitnesses.LateConnect` | internal/service/liverunner/liverunner.go:301-397 | a connect that straddles end and start writes the old record, and a top-up is credited to the old session, which then replaces the new one in the table |
| `SessionWitnesses.ClosedNever` | internal/service/liverunner/liverunner.go:331-358 | after a refused connect an end request leaves the session over and never closed |
| `SessionWitnesses.ClosedTwice` | internal/runtime/http/http.go:917-931 | a connect between an end request's read and its stop has the session closed twice |
| `SessionWitnesses.RecordOutlives` | internal/service/liverunner/liverunner.go:950-962 | a top-up that straddles the final save leaves a closed session with a streaming record, and the next top-up is credited to it |

## Left out

- Float rounding and machine-integer overflow: arithmetic is exact; in the program rounding of a difference of float seconds can add a unit to a debit.
- A live debit that reports an error is taken as not applied; the batch runs do let such a debit land.
- Delivery and retries of worker events: an event counts as sent when it is emitted.
- `Broker` beyond its answers: balances, wei amounts and the fake ledger are not modelled, only the rule that a repeated number changes nothing.
- `Accept`: key validation and the stream cap appear only as a connect that fails; one ingest per stream id is taken for granted, since a second one would share the first one's control block.
- DurableWhileOpen: takes the session as the only writer of its record; a concurrent top-up's write-back, which can put back an older record, is part of `SessionSteps` only, without the billing fields.
- DurableAtEnd: the same; `FinalPhase` states the phase with that second writer.
- StoredAgreesWhen: the same.
- StoredAgreesAfterSavedTurn: the same.
- Sequence numbers across restarts: a connect rewrites the record with number zero, so numbering claims are per session.
- HTTP routes: dev mode, an unwired broker, the sender-mismatch answer and the older /stream routes; the session names of one worker do not interact except for waiting on the table's lock, so `SessionSteps` follows one name.
- `SessionSteps`: no process restart and no `Shutdown`, which drops pending sessions from the table without closing them.
- A start whose sender is empty is a legacy session, to which the work-id claims do not apply.
- The batch wait loop is not one method: its passes are `BatchPass`, its waiting and waking are steps of `SchedulerSteps`.
- Fairness: `NoStuckCaller` shows a way to admission from every state, not that the scheduler of goroutines takes it.
- `RunAbr` takes one record of answers per rendition and folds file writes into the answer of the call they prepare.
- The sink prefix is taken as already trimmed of its slashes; the results hold for every prefix.
- The text of the master manifest and of the HLS playlists.
- A job's id is not empty, as both runners' submissions ensure.
- Legacy sessions after the closing report: the session-ended and recording calls and the shared terminal save, which is stated for pre-paid sessions.
- `LastTopupAt`, `UpdatedAt`, content types, logs and webhooks.
- Subprocess handling, encoder arguments, parsing of progress lines, probing.
- RTMP, gRPC, net/http, the shell client, Bolt and JSON encoding, configuration, metrics, linters, token and signature code.
- The order of segments uploaded by the same scan follows map iteration and is left open; `ScanOnce` states which keys are listed, `FirstOccurrencesOnce` the order of the handed-over list.
