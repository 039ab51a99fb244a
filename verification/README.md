# Verified model of the JSON inspector

The inspector receives requests, responses and stream frames over a message bus, checks their JSON bodies against the
contract of a profile, and answers with a verdict. This project models its logic in Dafny and proves what the parts
promise each other. Run `dafny verify dfyconfig.toml`.

## The parts

- `Basics`, `Seqs` and `Text` hold what several modules use.
- **Worker pool.** `WorkerPool` has the class whose methods are the regions of code under the mutex, over a slice of a
  backing array that is filtered in place, and a function for what each region does. `PoolProtocol` interleaves
  submitters, workers, the sweeper, timers and Close: a thread is a program counter, a step is one region (the wait on
  the condition variable ends a region), one call of the handler, or one action outside the mutex. The wait set is
  explicit, `Signal` wakes any one waiter, `Broadcast` wakes all, the clock never goes back. `PoolPlaces` shows that each
  task is in one place, `PoolWakeups` that no wake-up is lost, `PoolLedger` that counters, order and budgets are right,
  `PoolRefusals` that nothing is turned away without need, `PoolSafety` collects what holds along every run,
  `PoolLiveness` that every run comes to rest with all tasks answered, and `PoolAdmission` what becomes of a task whose
  submitter is left alone.
- **Audit sink.** `AuditSink` has the class over its buffer, and `AuditHistory` the histories of whole runs: what was
  added, what left and how, and what the bus was handed.
- **Generations.** `Snapshots` reads a directory into a snapshot or refuses it, with `Profiles` for validation and
  `Contracts` for compiling and picking a schema; `ProfileLaws` lists why a profile is refused, and `ContractLaws` says
  what a message is checked against, both over the fields of the profile. `Generations` swaps trees on disk and in
  service, where each step may fail, and follows whole runs of the watcher.
- **Body loader.** `BodyLoader`: the batched load against the single one.
- **Verdict.** `Validation` for what a message comes to, `Policy` for rules and outcomes, `Prior` for asks of earlier
  inspectors and score scaling, `Inspection` for the handler as a whole and `DenialWitness`
  for an instance of one of its conditions. `ValidationLaws` tells outcome by outcome what a message comes to, and
  `VerdictLaws` which field of the profile answers it and what fires.
- **JSON and conf.** `JsonScan` for the depth-bounded scan over a decoder's tokens, `JsonPointer` for the two evaluators,
  `QueueConf`, `QueueConfLaws` and `QueueConfPrinting` for the configuration file.

What is imperative in the source is a method here, proved equal to a function of its inputs or of the old state; the
properties are then proved of these functions, over every input or every run. The results in the modules named `Laws`,
in `PoolRefusals` and in `PoolAdmission` do not speak of those functions but of what goes in and comes out: the fields of
a profile, the files of a manifest, the answers of a run.

## Main results

1. Every run of the pool, under every interleaving, keeps `PoolSafety.Inv`; left alone the threads stop after a bounded
   number of steps, however the clock moves, and then every task was answered exactly once (`PoolLiveness.EveryRunSettles`).
   No task is turned away without need (`PoolSafety.RefusalsAreJustified`), and one in time for which there is room is
   queued when its submitter is left alone (`PoolAdmission.RoomMeansAccepted`).
2. Every run of the sink accounts for every event and keeps the order of each subject (`AuditHistory.EveryRunIsSound`).
3. In every run of the watcher, whatever fails, a reported hash and revision name what is served
   (`Generations.ReportsTellTheTruth`), and a successful Apply serves exactly the manifest's files
   (`Generations.SuccessServesManifest`).
4. The scan accepts exactly one value within the depth, or a blank body (`JsonScan.ScanAcceptsExactly`), and a request,
   response or frame under a JSON Schema contract whose body is checked is ok exactly when it conforms
   (`Validation.RequestOkMeansConforms`, `ValidationLaws.ResponseOkMeansConforms`, `Validation.FrameOkMeansConforms`), to
   the schema compiled from the document of the first binding that matches (`ContractLaws.CallIsCheckedAgainst`).
5. Every judged message is answered as the phase's own rule for its outcome says (`VerdictLaws.RulesDecide`), and observe
   mode shadows enforce mode for every message (`Inspection.ObserveShadowsEnforce`).
6. The configuration file is accepted exactly when it is well formed, and settings survive being written and read
   (`QueueConfLaws.AcceptsExactly`, `QueueConfPrinting.PrintedSettingsReadBack`).
7. A profile is accepted exactly when it has none of a list of faults (`ProfileLaws.ProfilesAreRefusedExactly`).

## Where the code does less than one might expect

- A failing Apply does reload the old tree after a rollback. If what was served did not come from that tree, for instance
  because the tree could not be read at start and can be read now, the failing Apply changes what is served.
  `Generations.FailuresKeepContentExactly` gives the condition on the host before the call, `Generations.FailingApplySwitches`
  an instance, and `Generations.SyncedIsKept` shows that it cannot happen once the store serves the live tree, which every
  successful Apply and every readable start brings about.
- A body of white space passes the scan but cannot be decoded (`JsonScan.BlankPassesButDoesNotDecode`); with a JSON Schema
  contract it is reported as a mismatch. `encoding/json` refuses to decode a value that nests more than 10000 deep, which
  reading it token by token does not, and `limits.max_depth` has no upper bound: so the scan keeps undecodable values from
  the decoder if and only if the limit is at most 10000 (`JsonScan.ScanGuardsDecode`). A deeper value that passes is
  reported as a mismatch where a schema would be asked, and the results on what ok means say so.
- A deny reply carries only record verbs as far as its own outcomes go; overload outcomes are appended whatever the
  verdict. `Inspection.DenialsOnlyRecord` gives the condition on the configured outcomes and the fill of the queue, and
  `DenialWitness.DenialMayChallenge` an instance.
- The queue drains on Close only if there is at least one worker; the drain and liveness results ask for one.

## Model

| member | source | states |
|---|---|---|
| WorkerPool.Compact | internal/queue/queue.go:202-214 | the in-place filter leaves exactly the tasks with enough time, in their order, and collects exactly the others, in order |
| WorkerPool.Pool.constructor | internal/queue/queue.go:56-86 | a new pool is empty and open, with the configured depth but at least one, milliseconds as nanoseconds, and drop unless it says wait |
| WorkerPool.Pool.TakeExpiredLocked | internal/queue/queue.go:197-222 | splits the queue and wakes everybody exactly when something expired |
| WorkerPool.Pool.EnqueueLocked | internal/queue/queue.go:167-171 | appends one task, counts it and signals once |
| WorkerPool.Pool.FillLocked | internal/queue/queue.go:173-179 | between 0 and 100 percent, and 100 exactly when the queue is full |
| WorkerPool.FillIsPercent | internal/queue/queue.go:173-179 | the fill is the share of the depth in use in whole percent, rounded down, for every queue |
| WorkerPool.Pool.PopLocked | internal/queue/queue.go:282-306 | one turn of pop: expire, then take the head, or leave, or hand back the dead, or sleep |
| WorkerPool.Pool.LoopLocked | internal/queue/queue.go:137-164 | one turn of the wait loop up to the next release of the mutex |
| WorkerPool.Pool.SubmitLocked | internal/queue/queue.go:97-127 | Submit under its lock: refused when closed, queued when there is room, else waiting or shed by mode |
| WorkerPool.Pool.CloseLocked | internal/queue/queue.go:235-242 | closes and wakes everybody |
| WorkerPool.Pool.Budget | internal/queue/queue.go:308-316 | the time left, and a deadline answer exactly when it is below the minimum |
| WorkerPool.NoneDead | internal/queue/queue.go:197-222 | when nothing has expired the filter changes nothing, so a blocked submitter leaves the queue alone |
| PoolPlaces.FilterSplits | internal/queue/queue.go:197-222 | a task of the queue goes to exactly one side of the filter, and no side holds it twice |
| PoolPlaces.NotifyMovesNothing | internal/queue/queue.go:167-171 | waking threads moves no task |
| PoolPlaces.StepMoves | internal/queue/queue.go:88-336 | each step moves exactly the listed tasks, each to one place, and keeps every submitted task in exactly one place |
| PoolWakeups.BroadcastEmptiesWaitSet | internal/queue/queue.go:130-135 | after a broadcast nobody waits |
| PoolWakeups.SignalKeeps | internal/queue/queue.go:167-171 | a signal after an enqueue can only reach a worker and keeps the wake-up invariant |
| PoolWakeups.StepKeepsWakeups | internal/queue/queue.go:130-149 | a blocked submitter means a full open queue and a pending timer; a sleeping worker means no more tasks than workers about to look; a leaving worker means closed and empty; the queue stays within its depth: kept by every step |
| PoolWakeups.StepKeepsMode | internal/queue/queue.go:107-120 | in drop mode no submitter enters the wait loop, in wait mode none is shed, and each stage of Close stands: kept by every step |
| PoolWakeups.NonEmptyQueueHasWorker | internal/queue/queue.go:282-306 | a non-empty queue has a worker that is awake and will look at it |
| PoolLedger.LateStaysLate | internal/queue/queue.go:181-188 | a task found expired stays expired under a clock that does not go back |
| PoolLedger.StepKeepsFifo | internal/queue/queue.go:282-293 | what workers took followed by what is queued is a subsequence of the order of arrival, kept by every step |
| PoolLedger.StepKeepsLedger | internal/queue/queue.go:308-336 | counters equal the answers with their reason, an accepted task is evaluated exactly when not late and then with the time it has left: kept by every step (tasks that were not accepted: PoolRefusals) |
| PoolRefusals.StepKeepsRefusals | internal/queue/queue.go:88-165 | a task that never entered the queue is answered as expired only with too little or no time left or at a closed pool, and as one too many only in drop mode at a full queue; a timer is set to the end of the budget, does not fire before, and is not left running for the future once the wait loop is over: kept by every step |
| PoolAdmission.RoomMeansAccepted | internal/queue/queue.go:88-127 | a task in time, submitted to an open pool that has room once the expired tasks are gone, ends in the queue when nobody steps in between |
| PoolAdmission.FullMeansShed | internal/queue/queue.go:107-127 | in drop mode a task in time that finds the queue full of tasks in time is answered as one too many |
| PoolAdmission.LateMeansExpired | internal/queue/queue.go:88-103 | a task that comes late, or to a closed pool, is answered as expired |
| PoolAdmission.DropModeDecides | internal/queue/queue.go:88-127 | in drop mode exactly one of these three holds when Submit is called |
| PoolAdmission.AloneEnds | internal/queue/queue.go:88-165 | a submitter left alone takes boundedly many steps |
| PoolAdmission.AloneGoesOn | internal/queue/queue.go:88-165 | and can always take one until it sleeps or has returned |
| PoolAdmission.LooksClearTheQueue | internal/queue/queue.go:197-222 | a submitter that comes, a worker, the sweeper, and a submitter that goes to sleep leave no late task in the queue |
| PoolAdmission.WorkersTakeTheFirst | internal/queue/queue.go:282-293 | a worker takes the first task in time, and takes one whenever there is one |
| PoolAdmission.TaskCarriesFill | internal/queue/queue.go:104-119 | a task that reaches an open pool carries the fill it found, and nothing else about it changes |
| PoolSafety.InitInv | internal/queue/queue.go:56-86 | a fresh pool satisfies the invariant |
| PoolSafety.StepInv | internal/queue/queue.go:88-336 | every enabled step of every thread keeps the invariant, the justification of refusals included |
| PoolSafety.RunInv | internal/queue/queue.go:88-336 | so does every run |
| PoolSafety.SignalReachesWorkers | internal/queue/queue.go:167-171 | when an enqueue signals, no submitter waits, the pool is open and there is room |
| PoolSafety.ClosedStaysShut | internal/queue/queue.go:97-102 | nothing is enqueued after close |
| PoolSafety.DeadListsAreAnswered | internal/queue/queue.go:318-322 | a dead list is never overwritten; it only loses its head, and that task is answered by the step |
| PoolSafety.CountersAddUp | internal/queue/queue.go:308-336 | submitted = evaluated + shed + expired + pending; accepted = enqueued; nothing is shed in wait mode |
| PoolSafety.DropNeverBlocks | internal/queue/queue.go:113-119 | in drop mode no submitter sleeps or loops |
| PoolSafety.BudgetIsHonest | internal/queue/queue.go:181-188 | an evaluated task has at least the minimum budget and elapsed + reserve + budget is its deadline; an accepted task not evaluated is late ever after |
| PoolSafety.RefusalsAreJustified | internal/queue/queue.go:88-165 | in every reachable state a task that was answered without having been accepted was late, out of time, or came to a closed pool, or in drop mode to a full queue |
| PoolSafety.DrainedOnClose | internal/queue/queue.go:235-242 | when Close and all Submits have returned the queue is empty and every task was answered exactly once |
| PoolSafety.RunsDrain | internal/queue/queue.go:235-242 | the same from a fresh pool along any run |
| PoolLiveness.MeasureDecreases | internal/queue/queue.go:260-306 | every step of a thread lowers the measure of work left |
| PoolLiveness.BusyStepsAreBounded | internal/queue/queue.go:260-306 | in every run without new calls of Submit or Close, with the clock moving and the sweeper finding nothing as often as they like, the measure bounds the steps of the threads |
| PoolLiveness.RestMeansDone | internal/queue/queue.go:122-165 | where no thread can move, nobody is stuck, the queue is empty, every task was answered exactly once and a begun Close has returned |
| PoolLiveness.EveryRunSettles | internal/queue/queue.go:88-336 | after any run, in any such continuation, the threads take boundedly many steps, and where none can move all of that holds |
| AuditSink.Sink.constructor | internal/audit/sink.go:51-63 | a new sink is empty |
| AuditSink.Sink.Add | internal/audit/sink.go:65-99 | adds one item to the back, or nothing without a subject or a body; the flusher is woken exactly when something was added and the buffer has enough items or bytes |
| AuditSink.Sink.Append | internal/audit/sink.go:81-82 | the buffer grows at the back and the cached size with it |
| AuditSink.Sink.DropExcess | internal/audit/sink.go:84-89 | the oldest items beyond the bound go and are counted, and the size is recomputed |
| AuditSink.Sink.DropFront | internal/audit/sink.go:87 | the in-place shift keeps exactly the tail |
| AuditSink.Sink.Measure | internal/audit/sink.go:207-215 | the size of the items with two bytes of framing each |
| AuditSink.Sink.Take | internal/audit/sink.go:130-151 | the batch and what stays are the buffer, the batch has the most items allowed unless nothing stays, and the cached size is that of what stays |
| AuditSink.Sink.Flush | internal/audit/sink.go:130-154 | empties the buffer and publishes it batch by batch |
| AuditSink.Sink.Publish | internal/audit/sink.go:156-168 | one call per subject, in the order of first appearance, with that subject's items |
| AuditSink.GroupBySubject | internal/audit/sink.go:170-183 | the order has the subjects of the batch and each group is the ordered sub-list of its subject |
| AuditSink.ShortcutAgrees | internal/audit/sink.go:157-161 | the shortcut for one item makes the call the general path makes |
| AuditSink.SubjectsInFirstAppearanceOrder | internal/audit/sink.go:170-183 | no subject twice, every subject of the batch, in the order of first appearance |
| AuditSink.PublishPartitions | internal/audit/sink.go:156-183 | what the calls of a batch hand to a subject is exactly its items of the batch, in order |
| AuditSink.FlushPartitions | internal/audit/sink.go:130-183 | the same for a whole flush, however many batches it takes |
| AuditHistory.EveryRunIsSound | internal/audit/sink.go:65-154 | in every run the buffer is the suffix of what was added that has not left, items leave from the front, added = sent + dropped + pending, the cached size is right, the bound holds, each subject was handed exactly its sent items |
| AuditHistory.NothingIsLostUncounted | internal/audit/sink.go:84-89 | added = sent + dropped + pending |
| AuditHistory.SubjectOrderIsKept | internal/audit/sink.go:130-183 | over whole runs a subject's published events are a subsequence of those added for it |
| AuditHistory.CallsAreWellFormed | internal/audit/sink.go:130-183 | no call is empty, over the batch limit, or mixed in subjects |
| BodyLoader.LoadMany | internal/body/body.go:86-161 | position by position what Load returns, for any mix of locators, on any store whose batched read agrees with its single read |
| BodyLoader.RedisAgrees | internal/body/redis.go:43-79 | the Redis store meets that assumption |
| BodyLoader.CleanBodyIsAuthentic | internal/body/body.go:58-84 | a body without a fault is the stored bytes, opened if sealed, and matches the digest that was asked for |
| BodyLoader.LoadsExactly | internal/body/body.go:58-189 | what each locator comes to: clean exactly when the store has the body, it opens, and its digest is the one wanted, if any is; a truncated body is only held to the digest of what was processed; each failure has its own reason |
| JsonScan.Scan | internal/schema/scan.go:13-68 | the loop computes the outcome of the token stream |
| JsonScan.DecodeInvertsTokens | internal/schema/scan.go:70-81 | reading the tokens of a value gives the value, and decoding does unless it nests deeper than the decoder takes |
| JsonScan.ScanTracksDecoder | internal/schema/scan.go:19-57 | the depth counter is the number of open delimiters, done means one complete value, and a stop means a second value or too deep a value |
| JsonScan.ScanAcceptsExactly | internal/schema/scan.go:13-68 | accepted exactly when the stream ends cleanly and is one value within the depth, or nothing with a blank body |
| JsonScan.TooDeepIsReported | internal/schema/scan.go:38-43 | a deeper value is reported as too deep whatever follows it |
| JsonScan.TooDeepExactly | internal/schema/scan.go:38-43 | the scan stops for depth exactly when the first value opens more brackets than it may |
| JsonScan.AcceptedDecodes | internal/schema/scan.go:70-81 | an accepted body that is not blank has the tokens of one value only, which decoding gives, or fails on where it nests deeper than the decoder takes |
| JsonScan.ScanGuardsDecode | internal/schema/scan.go:38-43 | the scan keeps undecodable values from the decoder if and only if its limit is positive and within the decoder's own |
| JsonScan.DeepPassesButDoesNotDecode | internal/schema/scan.go:13-81 | values that pass under any other limit and do not decode |
| JsonScan.BlankPassesButDoesNotDecode | internal/schema/scan.go:63-67 | a blank body passes the scan and does not decode |
| JsonPointer.ValueAt | internal/schema/findings.go:216-243 | walks the list of steps |
| JsonPointer.Pointer | internal/schema/frame.go:116-153 | splits, unescapes and walks |
| JsonPointer.TwoPassesAreOne | internal/schema/frame.go:128 | the two replacements read every string as one pass from the left would |
| JsonPointer.UnescapeInvertsEscape | internal/schema/frame.go:128 | they invert the escaping of RFC 6901 section 3 for every string |
| JsonPointer.SplitInvertsJoin | internal/schema/frame.go:127 | splitting at the separator inverts joining |
| JsonPointer.EvaluatorsAgree | internal/schema/frame.go:116-153 | for every document and list of steps, the pointer of the steps and the steps find the same value |
| JsonPointer.EveryPlaceIsReached | internal/schema/findings.go:216-243 | both evaluators reach every place of a document by the names and indices that lead to it |
| JsonPointer.WhatIsFoundHasAPlace | internal/schema/frame.go:116-153 | and whatever they find stands at a place that the steps name, one by one |
| JsonPointer.AtoiReadsExactly | internal/schema/frame.go:140 | an index is an optional sign and decimal digits within 64 bits, and nothing else |
| Profiles.Validate | internal/config/profile.go:880-1107 | accepts exactly the good profiles, every check on modes, rules, outcomes, asks, bindings and limits included |
| ProfileLaws.ProfilesAreRefusedExactly | internal/config/profile.go:880-1107 | a profile is good exactly when it has none of twenty listed faults, where one that is off is only looked at for its mode, prior rules and outcomes |
| ProfileLaws.OutcomesAreRefusedExactly | internal/config/profile.go:538-751 | an outcome is good exactly when it has none of its listed faults of occasion, verb, axis, amount, addressee, phase, labels and record |
| Profiles.Sources | internal/config/profile.go:1195-1223 | every schema the profile mentions, each once |
| Contracts.CompileAll | internal/schema/schema.go:203-213 | succeeds exactly when every document compiles, with each name bound to its own schema |
| Contracts.Build | internal/schema/schema.go:142-224 | the contract of a profile, or none when a document is missing, does not compile or describes nothing |
| Contracts.Pick | internal/schema/jsonschema.go:73-87 | the schema named by the first binding that matches, whatever the main one, and the main one exactly when none matches |
| Contracts.PickFrame | internal/schema/frame.go:73-91 | the same for frames, with discriminators |
| Contracts.Discriminate | internal/schema/frame.go:93-114 | the pointed-to string, number or truth value reads as the wanted text |
| Contracts.NoSchemaOnlyWithoutBinding | internal/schema/jsonschema.go:73-87 | for a validated profile no schema is found exactly when no binding matches and there is no main schema, for calls and, with the phase on, for frames |
| ContractLaws.BuildsExactly | internal/schema/schema.go:142-224 | when a profile builds, over its documents and bindings, and what the contract keeps of it |
| ContractLaws.CallIsCheckedAgainst | internal/schema/jsonschema.go:73-87 | for a validated profile with its documents, a call is checked against the schema compiled from the document that the first matching binding names, and without one from the main document or none |
| ContractLaws.FrameIsCheckedAgainst | internal/schema/frame.go:73-91 | the same for frames |
| ContractLaws.BindingMatchesExactly | internal/config/profile.go:1255-1283 | a binding matches by method, whatever the case, and by an exact or a starting path |
| ContractLaws.FoldingIsByLetter | internal/config/profile.go:1271-1283 | methods are the same when each letter is, up to case |
| ContractLaws.FrameBindingSelectsExactly | internal/schema/frame.go:73-114 | a frame binding selects by direction, subprotocol, path and what stands at its pointer |
| Snapshots.AttachDocuments | internal/config/profiles.go:290-313 | exactly the mentioned documents, or none when one is missing or empty |
| Snapshots.ReadProfile | internal/config/profiles.go:264-288 | absent without a profile file, bad when it does not parse, validate or attach |
| Snapshots.ReadDir | internal/config/profiles.go:196-201 | the sorted listing of a directory |
| Snapshots.CommonLimits | internal/config/profiles.go:315-334 | succeeds exactly when all profiles have the same limits |
| Snapshots.Compile | internal/schema/schema.go:89-118 | succeeds exactly when every profile that is not off builds, with a contract for each of them |
| Snapshots.Read | internal/config/profiles.go:196-262 | a snapshot exactly when nothing in the directory is bad, default is there, limits agree and all contracts build; its names are sorted and are its profiles |
| Snapshots.ServedSnapshotIsComplete | internal/config/profiles.go:196-262 | a served snapshot has default, only validated profiles with their documents, and a contract for exactly those not off |
| Snapshots.ServedProfilesAreRead | internal/config/profiles.go:196-313 | a served snapshot has exactly the folders with a profile file, each as the file says apart from its name, the defaults of frame bindings and its documents, and besides them at most the image's probe |
| Snapshots.ReadExactly | internal/config/profiles.go:264-313 | a profile is read from exactly the folders whose profile file says a good one and that have the schemas it mentions; every other one with a profile file is bad |
| Snapshots.ServedExactly | internal/config/profiles.go:196-262 | a directory is served exactly when every profile file in it says a good profile, default is one of them, limits agree and every profile that is not off builds |
| Snapshots.ProbeSurvives | internal/config/profiles.go:224-232 | the probe profile of the image is served whenever it is good and the new directory has none |
| Generations.LoadProfiles | internal/config/profiles.go:101-112 | a store starts exactly when the image's directory can be served, and then serves it |
| Generations.Host.ReloadFrom | internal/config/profiles.go:123-141 | serves the directory if it can be read, else keeps what was served and where it was read |
| Generations.Host.Write | internal/desired/desired.go:201-222 | a complete write leaves in the staging place a tree with exactly the manifest's profiles, each a folder of exactly its files, the last of a name with its text |
| Generations.Host.Apply | internal/desired/desired.go:143-199 | the state of the three trees and of the store after each pattern of failures; after a success the live tree holds exactly the manifest's profiles and files |
| Generations.Host.Bootstrap | internal/desired/desired.go:342-363 | serves the live tree at start, and says so, exactly when it has a file for the default profile and loads |
| Generations.SuccessServesManifest | internal/desired/desired.go:143-199 | succeeds exactly when no step fails and the tree may be served, and then the live tree holds exactly the manifest's files, what it loads to is served, and nothing is left behind |
| Generations.TreeOfHolds | internal/desired/desired.go:201-222 | the tree of a manifest has its profiles, and in each every file that no later one of the name replaces, with its text, and no other |
| Generations.ApplyCleansUp | internal/desired/desired.go:143-199 | no Apply leaves a staged tree, and a parked one only where it could not be put back |
| Generations.FailureKeepsTree | internal/desired/desired.go:161-192 | a failure keeps the live tree unless putting it back fails, and then it is the parked one |
| Generations.FailedCallKeepsContent | internal/desired/desired.go:182-192 | fault by fault, when one failing call keeps what is served |
| Generations.FailuresKeepContentExactly | internal/desired/desired.go:143-199 | every failing Apply, of any manifest and under any faults, keeps what is served if and only if the live tree, where it loads, loads to what is served |
| Generations.LateTreeIsSwitchedTo | internal/desired/desired.go:182-192 | otherwise a failed read at start and one failing load are enough to switch to the live tree |
| Generations.FailingApplySwitches | internal/desired/desired.go:182-192 | two concrete trees on which that happens |
| Generations.SyncedIsKept | internal/desired/desired.go:143-199 | once the store serves the live tree it stays so, and every failing Apply keeps what is served |
| Generations.BootstrapSyncs | internal/desired/desired.go:342-363 | a start that can read the live tree makes the store serve it |
| Generations.Watch | internal/desired/desired.go:309-336 | applies what is new and reports the outcome |
| Generations.GoodUpdateIsServed | internal/desired/desired.go:309-336 | a manifest that can be served and meets no fault is served and reported, and is passed over only when hash and revision are those reported as applied |
| Generations.FailedUpdateIsReported | internal/desired/desired.go:309-336 | a failing one is reported as failed under what was applied last |
| Generations.ReportsTellTheTruth | internal/desired/desired.go:309-336 | in every run a report with a hash names a manifest that was sent and is served, also after failures |
| Generations.ReportIdentifiesContent | internal/desired/desired.go:309-336 | if one hash and revision stand for one content, every manifest sent under the reported ones is what is served |
| Prior.Deliver | internal/decide/prior.go:58-90 | one action against all rules |
| Prior.EvaluatePrior | internal/decide/prior.go:38-56 | percent is the clamped sum over all actions and admitting rules, skip means some admitted skip, one outcome per action in order |
| Prior.TookAddsUp | internal/decide/prior.go:58-95 | the Took fields add up to the sum before it is clamped |
| Prior.OneAskOneRule | internal/decide/prior.go:58-95 | one action under one rule, over the fields of both: what it adds and whether it asks to skip |
| Prior.AsksAddUp | internal/decide/prior.go:38-56 | entries, actions and rules each count on their own |
| Prior.SkipIsAskedExactly | internal/decide/prior.go:58-90 | skip exactly when some action asks for it and some rule lets it through |
| Prior.OutcomeSays | internal/decide/prior.go:58-95 | an outcome names the sender and the action, what it took by itself, and whether any rule applied it |
| Prior.OrderDoesNotMatter | internal/decide/prior.go:38-90 | percent and skip do not change when entries or rules are permuted |
| Prior.ScaleIsNearest | internal/decide/prior.go:97-109 | a score in range scales into range, within one half of the product below the cap and to the cap above |
| Prior.ScaleIsMonotone | internal/decide/prior.go:97-109 | monotone in the score and in the percentage |
| Policy.ValidateRules | internal/config/profile.go:1159-1183 | accepts exactly the tables with known actions, scores in range, and a response name if anything denies |
| Policy.RulesOf | internal/decide/decide.go:100-108 | the rule table as a map |
| Policy.Fire | internal/decide/decide.go:199-240 | what fires for the verdict, or in observe mode for the verdict that would have been |
| Policy.FireOverload | internal/decide/decide.go:295-326 | what fires for the fill of the queue or a refusal |
| Policy.FiresExactly | internal/decide/decide.go:199-326 | exactly the outcomes that match fire: each that asks gives its action, each other its ban when there is an address, and every one is named |
| Policy.CheckArchiveWhen | internal/protocol/protocol.go:155-185 | accepts exactly lists of allow and deny without repetition, and puts them in their fixed order |
| Policy.DenyOnlyRecords | internal/config/profile.go:615-618 | a deny fires only asks that write records |
| Policy.AsksHaveAnAxis | internal/config/profile.go:620-639 | every fired ask has an axis of its verb and amounts in range |
| Policy.OverloadGrows | internal/overload/overload.go:33-39 | a fuller queue fires at least as much and a refusal fires everything |
| Policy.OverloadAnswersNoVerdict | internal/config/profile.go:511-536 | an overload outcome never fires for a verdict |
| Validation.ErrorsHaveLeaves | internal/schema/findings.go:73-115 | a schema error always gives at least one finding |
| Validation.RunGivesKindOfPhase | internal/validate/validate.go:36-245 | the outcomes each phase can come to; which one is in ValidationLaws |
| Validation.RunHasRule | internal/config/profile.go:1125-1149 | every outcome but ok has its rule in the phase's table, which is the field of the profile for it, and a validated one when the phase is on, so the zero rule is never used |
| Validation.PassedBodyIsValue | internal/validate/validate.go:172-227 | a body passes exactly when it is readable and empty, blank or one value within the limits, and that value is what is decoded, if the decoder takes its depth |
| Validation.StoppedBody | internal/validate/validate.go:172-227 | which outcome a stopped body has: unavailable, truncated and too large each exactly under its condition, too deep for any deeper value |
| Validation.RequestOkMeansConforms | internal/schema/jsonschema.go:28-71 | a request is ok exactly when its body is readable, a schema is bound, the body is empty or one value within the limits that satisfies it, and no query string is missing |
| Validation.FrameOkMeansConforms | internal/schema/frame.go:22-71 | the same for frames, whose schema is picked by the value |
| ValidationLaws.ResponseOkMeansConforms | internal/schema/jsonschema.go:20-71 | a response of a checked content type is ok exactly when its body is readable, a schema is bound, and the body is empty or one value within the limits that satisfies it |
| ValidationLaws.ResponseBySchema | internal/validate/validate.go:143-170 | which outcome a response has: the body's own, unknown without a schema, mismatch where the schema is violated, ok |
| ValidationLaws.RequestBySchema | internal/schema/jsonschema.go:12-71 | the same for a request, with a missing query string only where nothing else is wrong |
| ValidationLaws.FrameBySchema | internal/schema/frame.go:22-71 | the same for a frame, binary ones refused first and the schema picked by the value |
| ValidationLaws.RequestByOpenApi | internal/schema/openapi.go:19-121 | under OpenAPI a request is unknown without an operation, and otherwise ok exactly when no switched-on check found anything, with each other outcome under its condition |
| ValidationLaws.ResponseByOpenApi | internal/schema/openapi.go:121-191 | the same for a response, by status, content type and body |
| ValidationLaws.UncheckedIsOk | internal/validate/validate.go:48-170 | what is not checked is ok, a missing query string apart |
| ValidationLaws.BodyDecidesFirst | internal/validate/validate.go:172-227 | a body that is checked and does not pass decides alone, whatever the contract |
| ValidationLaws.DeepOrUnparsable | internal/validate/validate.go:172-227 | too deep exactly when the first value opens too many brackets, and unparsable exactly when neither that nor acceptable |
| ValidationLaws.ViolationsAreListed | internal/schema/findings.go:73-115 | a violation counts its leaves, up to the limit and one more |
| ValidationLaws.PathEndsAtQuestionMark | internal/validate/validate.go:275-281 | the path is the address up to its first question mark |
| Validation.NotOkMeansFindings | internal/schema/openapi.go:214-231 | errors are reported exactly when the outcome is not ok, trimming included |
| Validation.FaultMeansStoreFailed | internal/validate/validate.go:172-185 | a store fault is reported exactly when a body that is needed failed to load |
| Inspection.LoadInput | cmd/inspector/handler.go:177-199 | the batched load gives each body its own locator's |
| Inspection.Inspect | cmd/inspector/handler.go:114-348 | the reply, the bans and the details of the handler as a function of its inputs |
| Inspection.Decide | cmd/inspector/handler.go:214-320 | the reply built step by step, with scaling and what fires |
| Inspection.OverloadOnShed | cmd/inspector/handler.go:480-510 | a task refused for a full queue in the request phase fires every overload outcome of its profile, whatever its mark and the fill; any other refusal fires nothing |
| Inspection.ShedFiresExactly | cmd/inspector/handler.go:480-510 | the same as a law of the fired actions, bans and names, in both directions |
| Inspection.ServedIsComplete | internal/schema/schema.go:89-118 | every snapshot a store comes to serve has only validated profiles, each under its name and with a contract unless it is off; the results below hold for all such snapshots |
| Inspection.RepliesAreSound | cmd/inspector/handler.go:163-238 | for a complete snapshot the missing-contract and out-of-range branches are never taken, errors have only the listed causes, scores are in range, a denial names the profile's own response |
| Inspection.ReplyIsWellFormed | cmd/inspector/handler.go:214-242 | a score reply carries the rule's score, scaled within one half and capped; a denial never falls back to the default name |
| Inspection.ContractIgnoresMode | internal/schema/schema.go:142-224 | a profile compiles to the same contract whether watched or enforced |
| Inspection.ObserveShadowsEnforce | cmd/inspector/handler.go:214-252 | switching only the mode keeps actions, bans, names and findings; observe allows, and records the verdict, code and scaled score enforce would give; where enforce allows or fails the replies are the same |
| Inspection.DeniedExactly | internal/decide/decide.go:71-183 | exactly when a message is denied, by the field of the phase's rules for its outcome |
| Inspection.ScoredExactly | internal/decide/decide.go:71-183 | exactly when a message is scored, by the same field, and with which score |
| VerdictLaws.RulesDecide | internal/decide/decide.go:71-183 | for every judged message in enforce mode, phase and direction: mismatch and too deep are answered by `invalid`, unparsable by `unparsable`, truncated and too large by `truncated`, and so on, with the outcome's own reason, the phase's response and the rule's scaled score; a failing store or list write answers with its error |
| VerdictLaws.EarlyAnswers | cmd/inspector/handler.go:114-165 | which messages are judged, and what each other is answered: unknown profile, off, phase off, skipped |
| VerdictLaws.OutcomesFire | internal/decide/decide.go:199-240 | the actions and bans of a reply are exactly those of the phase's outcomes that match its verdict and score, and of the overload outcomes the fill reaches |
| VerdictLaws.OutcomeMatchesExactly | internal/config/profile.go:511-536 | an outcome matches on its verdict, and on a score at, from or below its mark |
| VerdictLaws.OverloadMatchesExactly | internal/overload/overload.go:33-39 | an overload outcome matches from its mark on below 100, and with none or 100 on a refusal only |
| VerdictLaws.AskSaysOutcome | internal/decide/decide.go:242-277 | an ask says what the outcome says, under its code or else the reply's |
| VerdictLaws.BanSaysOutcome | internal/decide/decide.go:199-240 | a ban is for the outcome's dataset, address and time |
| VerdictLaws.InputIsLoaded | cmd/inspector/handler.go:177-199 | each body of the input is what its own locator loads |
| Inspection.DenialsOnlyRecord | cmd/inspector/handler.go:240-252 | a denial only records, outside the request phase always and in it exactly when every overload outcome the fill reaches is a ban or a record |
| DenialWitness.DenialMayChallenge | cmd/inspector/handler.go:244-250 | a complete snapshot and a message that is denied and challenged in one reply |
| QueueConf.ParseRedisKey | internal/config/file.go:156-189 | one line inside the block, whatever it holds |
| QueueConf.ParseQueueFile | internal/config/file.go:54-154 | the loop computes the settings, or the first bad line and why |
| QueueConfLaws.FoldTracks | internal/config/file.go:54-154 | the parser goes on exactly as long as lines stand where they may, nothing is set twice and values are good |
| QueueConfLaws.AcceptsExactly | internal/config/file.go:54-154 | accepted exactly when that holds to the end and the block is closed, and the settings reflect exactly what is set; so a repeated key or an open block is rejected |
| QueueConfLaws.NoiseSaysNothing | internal/config/file.go:62-65 | comment and blank lines say nothing |
| QueueConfLaws.DirectivesExactly | internal/config/file.go:224-253 | a line sets a key exactly when it is the name, a space and one value before a semicolon, with any white space around them; so never without a semicolon |
| QueueConfLaws.OtherLinesExactly | internal/config/file.go:54-110 | which lines are nothing, open or close a block, or lack their semicolon |
| QueueConfLaws.CommentsEndLines | internal/config/file.go:216-222 | a line counts up to its first comment sign |
| QueueConfLaws.CutParts | internal/config/file.go:236-239 | a directive is cut at its first space |
| QueueConfLaws.OrderAndNoiseDoNotMatter | internal/config/file.go:54-154 | files that set the same things in any order and with any noise are accepted alike and mean the same |
| QueueConfPrinting.RowSaysItsCode | internal/config/file.go:216-222 | indentation, trailing blanks and comments do not change a line |
| QueueConfPrinting.DirectiveReads | internal/config/file.go:224-253 | a printed directive reads as its key and value |
| QueueConfPrinting.PrintedSettingsReadBack | internal/config/file.go:54-154 | printing any valid settings and parsing them gives them back, in any order and with any comments and blank lines |
| QueueConfPrinting.ParseInvertsPrint | internal/config/file.go:54-154 | parsing undoes printing for every settings that can be written |

## Left out

- PoolProtocol: a call of the handler is one atomic step that is logged together with its counter; its duration, panics and the flow statistics are not modelled.
- PoolProtocol: the clock advances between regions, and inside `Submit` only where the code reads it again; within any other region it stands still.
- PoolProtocol: memory visibility and fairness of the Go mutex and scheduler; liveness says that threads which can step do so finitely often before rest, not when.
- WorkerPool: durations as unbounded integers, without the 64-bit range of nanoseconds.
- PoolSafety.DrainedOnClose: asks for at least one worker, because a pool configured with none drains nothing.
- AuditSink: `Add` and `flush` at the granularity of the mutex with one flusher; the wake channel as a flag; building, packing and publishing events; the 64-bit wrap of the counter of dropped events; the loop and its ticker.
- AuditHistory: a batch handed to the bus counts as sent, also when the bus refuses it, as the code does.
- BodyLoader: the cipher and the digest are functions nothing is assumed of; timeouts and contexts.
- Snapshots: the YAML reader and the schema compilers are functions of the bytes; symbolic links and logging. A file that is there but cannot be read is modelled as one without bytes.
- Snapshots: the periodic reload with its fingerprint and the generation number; a directory that cannot be listed or fingerprinted is a fault of the load in `Generations`.
- Generations: removing a tree always succeeds, nobody else edits the trees, and the process does not stop in the middle of an Apply.
- Generations: the settings of a manifest, the log level, computing the hash and refusing malformed manifests; a report's names are a set.
- Generations.ReportIdentifiesContent: assumes that one hash and revision stand for one content, because the hash does not delimit files and profiles and is a digest.
- Policy.CheckArchiveWhen: words are lower-cased letter by letter within ASCII; no other letter becomes one of allow or deny.
- Contracts: OpenAPI documents are opaque, as are routing, parameter validation and media types; the text of findings is not modelled, only their number.
- Contracts.Discriminate: a number is compared by its literal text; the decoder always delivers literals, so the floating-point branch is dead.
- Validation: the query string, the headers, the response status and the content-type filter reach the OpenAPI library as its arguments only.
- JsonScan: lexing is not modelled; the decoder is assumed to match delimiters and to alternate names and values, and its nesting limit of 10000 is that of `encoding/json`.
- Prior.ScaleScore: half-way cases may round either way, because the binary product can fall on either side; sums do not wrap.
- Inspection.Inspect: of the details for the audit it keeps the outcome with its number of errors, the prior outcomes, the passive flag, what would have been decided and the names of what fired; the other entries of the engine map and the findings are not carried.
- Inspection: parsing messages, versions, releases, sending, logging and the geo resolver; whether lists could be written is an input.
- QueueConf: letters outside ASCII in directive names change only which error is given; whether a URL is a Redis URL is a predicate the parser is given; reading the file, defaults and environment overrides.
- QueueConfPrinting.PrintedSettingsReadBack: for URLs without white space and without `#`, the only ones the format can carry.
- Size and duration parsing, heartbeats, the probe command, list publishing and process start-up: plumbing without properties of its own here.
