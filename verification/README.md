# A model of FACT's backend and its guarantees

FACT unpacks firmware images recursively and analyses every file it finds. Several schedulers, which
share sets, queues and a database, do this concurrently. This project models the parts of that
backend whose guarantees are about whole runs over an unbounded graph of files, and proves them.

`dafny verify dfyconfig.toml` checks everything. The modules:

| file | what it models |
|---|---|
| `Common.dfy`, `Graphs.dfy`, `Text.dfy` | shared notions; well-founded parts of finite graphs, chains, cycles; splitting and joining strings |
| `Unpacker.dfy` | what unpacking one file yields |
| `UnpackingProtocol.dfy`, `UnpackingInvariant.dfy`, `UnpackingRuns.dfy` | the unpacking scheduler as a state machine over its atomic steps, its invariant, and what holds over every run |
| `UnpackingScheduler.dfy` | the scheduler object, whose methods perform these steps |
| `AnalysisStatus.dfy` | the progress tracker for running analyses |
| `TaskScheduler.dfy` | dependency closure and ordering of analysis plugins |
| `AnalysisTasks.dfy`, `AnalysisDecisions.dfy`, `AnalysisPass.dfy`, `AnalysisIdempotence.dfy` | run, reuse, skip or fail one plugin for one file; what is decided when; whole passes; why a second pass runs nothing |
| `AnalysisQueues.dfy`, `AnalysisRuns.dfy`, `AnalysisScheduler.dfy` | all file objects in all queues; what a run of them means for one object; the scheduler object |
| `Compare.dfy` | ordering and execution of comparison plugins |
| `FilePaths.dfy`, `VfpMigration.dfy` | path enumeration over the inclusion relation; the migration of virtual file paths and its inverse |
| `FirmwareImport.dfy` | export of a firmware and hierarchical import |
| `RedisStore.dfy`, `RedisInterface.dfy` | chunked storage of values and queues |
| `FileTree.dfy`, `FileTreeNode.dfy` | merging of file tree nodes, as values and in place |
| `DurationStats.dfy` | the ring buffer of analysis durations |

Concurrent code is modelled as steps that may interleave in any order. Whatever comes from outside
(what an extractor finds, what a plugin reports, the clock, which worker is next, the order in which
a set is walked) is arbitrary, constrained only by what the code itself guarantees. State that the
source updates in place is a class whose methods are proved equal to the steps; the theorems about
runs are about the steps.

## Where the code falls short of what one would expect

Each of these is a theorem with the exact condition under which the expected property holds, and
with an input for which it fails.

* **Import can run forever.** Files with a parent outside the archive are dropped before the
  insertion loop, but files below a dropped file are not, and their parent never appears
  (`FirmwareImport.ChildOfOrphanBlocks`, witness `FirmwareImport.ImportRunsForever`). The loop ends
  exactly when no retained file lies directly below a dropped one and the retained files do not
  include each other in a circle (`FirmwareImport.ImportEnds`); archives written by the exporter meet
  this exactly when the inclusion among the firmware's files is acyclic
  (`FirmwareImport.ExportIsImportable`).
* **A file type with dependencies breaks the analysis order.** `file_type` is moved to the end of
  the schedule no matter what it depends on. Dependencies come first exactly when `file_type`, if
  scheduled, has none (`TaskScheduler.FileTypeLastOrder`, witness `TaskScheduler.FileTypeOrderBreaks`).
* **The migration loses rows.** Downgrading and upgrading again restores the table exactly when
  every row belongs to an inclusion and no path is empty or contains `|` (`VfpMigration.RoundTrip`,
  witness `VfpMigration.SeparatorIsLost`). The two migrations get through exactly when every inclusion
  has a path and every file takes part in an inclusion; a firmware without extracted files does not
  (`VfpMigration.ThereAndBack`, witness `VfpMigration.EmptyFirmwareFails`).
* **Chunks leak** exactly when a key is overwritten (those of the value or queue that was stored
  under it, `RedisInterface.Interface.Set`, witness `RedisInterface.SettingTwiceLeaks`) or a push to a
  key with a plain value is refused (`RedisInterface.Interface.QueuePut`).
* **A file object gets lost in the analysis** with an exception exactly when the next plugin has
  MIME lists, its result is not reused and no MIME type is known (`AnalysisQueues.RaisedIsNoMime`,
  witness `AnalysisQueues.ObjectGetsLost`).
* **The tracker's counters go wrong** exactly with two kinds of messages: a new firmware that lists
  itself as included, and an update of a running firmware unless as many files are completed as it
  counts too many (one if it lists the firmware itself, else none) and none of them is listed again
  (`AnalysisStatus.HandleConsistent`, witness `AnalysisStatus.CountersBreak`).

## Model

| member | source | states |
|---|---|---|
| `Graphs.WellFoundedIsSound` | src/compare/compare.py:98-124 | the least fixpoint "all dependencies already in" is the set of names from which every dependency chain stays among known names and never repeats |
| `Unpacker.CollectPaths` | src/unpacker/unpack.py:86-100 | the dictionary of extracted files has each content once and all its paths in order; empty files are left out |
| `Unpacker.PathsInOrder` | src/unpacker/unpack.py:86-100 | the paths of a content are those of its non-empty files, in the order of extraction and with repeats |
| `Unpacker.ChildrenTellFiles` | src/unpacker/unpack.py:86-105 | every non-empty extracted file whose content is not the parent's appears in a child at its path, and every path of a child comes from such a file |
| `Unpacker.Unpack` | src/unpacker/unpack.py:26-57 | children have distinct UIDs, none is the parent, each carries exactly the paths of its content; nothing at the depth limit; depth never exceeds the limit; an error exactly when the extractor fails below the limit |
| `UnpackingRuns.StepKeeps` | src/scheduler/unpacking_scheduler.py:195-272 | every enabled step (submit, start, store, locked update, enqueue, finish, cancel) keeps the protocol invariant, for any number of threads and firmwares |
| `UnpackingRuns.RunInvariant` | src/scheduler/unpacking_scheduler.py:148-272 | the invariant holds in every state of every run |
| `UnpackingRuns.NoPathLost` | src/scheduler/unpacking_scheduler.py:226-272 | at every moment, each reported (parent, child, path) of a firmware in work is in the VFP table, or parked for a child still remaining, or carried by the child's own pending task, or held by a thread that has not taken the lock yet |
| `UnpackingRuns.RemainingIsPending` | src/scheduler/unpacking_scheduler.py:226-272 | at every moment `remaining` and `done` are disjoint, `remaining` is exactly the UIDs queued or in flight, and nothing is queued or in flight twice |
| `UnpackingRuns.UnpackedOnce` | src/scheduler/unpacking_scheduler.py:195-272 | from the moment a thread has a file's task until the submission ends, no task for this file is queued again, in any interleaving |
| `UnpackingRuns.StartedOnce` | src/scheduler/unpacking_scheduler.py:148-215 | two starts of tasks for the same file belong to different submissions: the firmware's entry was gone in between |
| `UnpackingRuns.NoLiveTaskDropped` | src/scheduler/unpacking_scheduler.py:195-215 | the task of a submission that was not cancelled is never dropped when a worker picks it up |
| `UnpackingRuns.OnlyFirmwareIsRefused` | src/scheduler/unpacking_scheduler.py:217-224 | storing an unpacked file never fails for a missing parent or firmware, and nothing is unpacked further from what is refused |
| `UnpackingRuns.StoreDecides` | src/storage/db_interface_backend.py:32-72 | in any state: a firmware is refused exactly if its UID is stored as a mere file, a file exactly if its firmware or a parent is not stored; a refused object changes nothing, any other is stored with exactly its paths and parents and its extracted files are kept |
| `UnpackingRuns.StoredInRuns` | src/scheduler/unpacking_scheduler.py:217-224 | in every run a firmware that is already stored as a firmware, and every extracted file, is stored and what was extracted from it goes on |
| `UnpackingRuns.ThreadLifecycle` | src/scheduler/unpacking_scheduler.py:185-292 | a thread goes from idle over unpacking, storing and scheduling back to idle with one task, and no step touches another thread |
| `UnpackingRuns.SubmitQueues` | src/scheduler/unpacking_scheduler.py:123-128 | a submission queues exactly one task, for the firmware itself, at the end |
| `UnpackingRuns.StartDecides` | src/scheduler/unpacking_scheduler.py:195-201 | starting a task keeps all entries, gives a firmware without an entry a fresh one, and starts an extracted file exactly if its firmware has an entry |
| `UnpackingRuns.CancelEnds` | src/scheduler/unpacking_scheduler.py:343-345 | cancelling removes exactly the entry of this firmware |
| `UnpackingRuns.CancelledStops` | src/scheduler/unpacking_scheduler.py:195-237 | until it is submitted again, no task of a cancelled firmware is started, and a thread that had one schedules and writes nothing more under the lock |
| `UnpackingRuns.QueueInOrder` | src/scheduler/unpacking_scheduler.py:148-167 | between any two states of a run the queue only grows at its end and shrinks at its front |
| `UnpackingRuns.NeverStuck` | src/scheduler/unpacking_scheduler.py:148-183 | with a container, and anything queued or in work, some step of the scheduler is possible in every state of every run |
| `UnpackingRuns.DatabaseConsistent` | src/storage/db_interface_backend.py:49-72 | after every step the VFP table and the inclusion table relate the same pairs of stored objects; the locked update adds only rows between objects already stored |
| `UnpackingRuns.Completion` | src/scheduler/unpacking_scheduler.py:226-251 | when a firmware's entry is removed because nothing remains, every reported path is in the database, no task of it is left, and the unpacked files are exactly those reachable from the root over reported edges |
| `UnpackingInvariant.UpdateView` | src/scheduler/unpacking_scheduler.py:226-272 | the locked update keeps the bookkeeping of its firmware: disjoint sets, pending objects, parked paths and reachability |
| `UnpackingInvariant.ViewComplete` | src/scheduler/unpacking_scheduler.py:244-249 | with nothing remaining, all reported rows are stored and `done` is the reachable set |
| `UnpackingInvariant.AddObjectConsistent` | src/storage/db_interface_backend.py:32-72 | storing a task's object is possible and keeps both tables consistent |
| `UnpackingScheduler.FlushDelayed` | src/scheduler/unpacking_scheduler.py:239-243 | the paths parked for a file are all written, and only those |
| `UnpackingScheduler.UpdateExtractedObjects` | src/scheduler/unpacking_scheduler.py:253-272 | editing the list while walking over a copy keeps exactly the files that are neither remaining nor done, parks the paths of the former and stores those of the latter |
| `UnpackingScheduler.Scheduler.AddTask` | src/scheduler/unpacking_scheduler.py:123-128 | performs the submit step, for any submission |
| `UnpackingScheduler.Scheduler.GetFreeWorker` | src/scheduler/unpacking_scheduler.py:179-183 | returns an idle worker, or none exactly if all are busy |
| `UnpackingScheduler.Scheduler.StartNext` | src/scheduler/unpacking_scheduler.py:148-167 | performs the start step whenever one is possible, and otherwise changes nothing |
| `UnpackingScheduler.Scheduler.StoreObject` | src/scheduler/unpacking_scheduler.py:195-224 | performs the store step |
| `UnpackingScheduler.Scheduler.UpdateCurrentlyUnpacked` | src/scheduler/unpacking_scheduler.py:226-251 | performs the locked update step |
| `UnpackingScheduler.Scheduler.ScheduleNext` | src/scheduler/unpacking_scheduler.py:282-292 | performs the enqueue step |
| `UnpackingScheduler.Scheduler.Join` | src/scheduler/unpacking_scheduler.py:169-177 | performs the finish step: the worker is idle again |
| `UnpackingScheduler.Scheduler.CancelUnpacking` | src/scheduler/unpacking_scheduler.py:343-345 | performs the cancel step, also for an unknown firmware |
| `AnalysisStatus.Worker.Update` | src/scheduler/analysis_status.py:136-149 | handling a message has exactly the effect of `Handle`; it fails exactly for an update of a firmware that is not running |
| `AnalysisStatus.Worker.HandleUpdate` | src/scheduler/analysis_status.py:151-158 | refines `Handle` for updates; KeyError leaves the state unchanged |
| `AnalysisStatus.Worker.HandleFirmware` | src/scheduler/analysis_status.py:160-169 | refines `Handle` for new firmware |
| `AnalysisStatus.Worker.AddIncludedFile` | src/scheduler/analysis_status.py:171-188 | refines `Handle` for unpacked files |
| `AnalysisStatus.Worker.HandleAnalysis` | src/scheduler/analysis_status.py:190-195 | refines `Handle` for plugin counts |
| `AnalysisStatus.Worker.RemoveObject` | src/scheduler/analysis_status.py:197-213 | refines `Handle` for completed files, including the end of the run |
| `AnalysisStatus.Worker.CancelAnalysis` | src/scheduler/analysis_status.py:251-261 | refines `Handle` for cancellation |
| `AnalysisStatus.TrackerInvariant` | src/scheduler/analysis_status.py:136-212 | over every message sequence in which no firmware includes itself and updates directly follow their firmware: the three sets are disjoint, all four counters equal the sizes they stand for, and the shared keys are those running |
| `AnalysisStatus.HandleConsistent` | src/scheduler/analysis_status.py:136-212 | a single message keeps all of this if and only if it is harmless: a new firmware does not list itself, and an update finds exactly as many completed files as it counts too many, none of them listed again |
| `AnalysisStatus.ConsistentThroughout` | src/scheduler/analysis_status.py:136-212 | over any message sequence whatsoever, the tracker is consistent at all times if and only if each message is harmless where it arrives |
| `AnalysisStatus.CountersBreak` | src/scheduler/analysis_status.py:151-169 | two message sequences after which the counters are wrong |
| `AnalysisStatus.NewStatusConsistent` | src/scheduler/analysis_status.py:160-169 | a new status is consistent if and only if the firmware is not among its own included files |
| `AnalysisStatus.UpdateConsistent` | src/scheduler/analysis_status.py:151-158 | an update, whatever it lists, keeps the status consistent if and only if the number of completed files is one if the firmware is listed and else zero, and no completed file is the firmware or listed |
| `AnalysisStatus.FileConsistent` | src/scheduler/analysis_status.py:171-188 | any file message, also repeated or out of order, keeps the status consistent |
| `AnalysisStatus.KnownIsMentioned` | src/scheduler/analysis_status.py:160-188 | the three sets together are exactly the files the messages of the run have mentioned |
| `AnalysisStatus.NeverFinishesEarly` | src/scheduler/analysis_status.py:197-213 | for any order and duplication of messages, a run that ends has completed the root and everything reported as included, and nothing else |
| `AnalysisStatus.UnpackedMovesOn` | src/scheduler/analysis_status.py:171-188 | a file that reports back is from then on to be analysed or completed, and no other file changes its place except that new ones are to be unpacked |
| `AnalysisStatus.EndsWhenAllProcessed` | src/scheduler/analysis_status.py:160-213 | a run that is not cancelled has finished as soon as every file its messages mention was announced and then completed |
| `AnalysisStatus.RunCounters` | src/scheduler/analysis_status.py:160-195 | throughout a run each plugin's counter is the number of its results since the run began, the total with duplicates is one more than the number of files reported, and the starting time is that of the first message |
| `AnalysisStatus.FinishedRecord` | src/scheduler/analysis_status.py:197-222 | a finished run is recorded with the number of files it completed and the time since its first message |
| `AnalysisStatus.CancelledRecord` | src/scheduler/analysis_status.py:251-261 | a cancelled run is recorded with the numbers of unpacked, completed and known files |
| `AnalysisStatus.UpdateCoversAll` | src/scheduler/analysis_status.py:151-158 | a run that was updated ends only when the firmware and every file the update listed is completed |
| `AnalysisStatus.OthersUntouched` | src/scheduler/analysis_status.py:136-149 | no message changes anything for another firmware |
| `TaskScheduler.RemainingDependencies` | src/scheduler/task_scheduler.py:67-70 | exactly the missing direct dependencies; empty if and only if the set is closed |
| `TaskScheduler.AddDependenciesRecursively` | src/scheduler/task_scheduler.py:58-65 | exactly the plugins reachable over dependencies, or a KeyError for a reachable unknown name |
| `TaskScheduler.ClosedHoldsReachable` | src/scheduler/task_scheduler.py:58-65 | every closed superset contains what is reachable, so the loop computes the least one |
| `TaskScheduler.ReachableIsClosed` | src/scheduler/task_scheduler.py:58-65 | what is reachable is itself a closed superset |
| `TaskScheduler.FileTypeLastKeeps` | src/scheduler/task_scheduler.py:41-45 | moving `file_type` to the end keeps the plugins and puts it last |
| `TaskScheduler.FileTypeLastOrder` | src/scheduler/task_scheduler.py:41-45 | the move keeps dependencies behind their dependents if and only if `file_type`, if scheduled, has no dependencies |
| `TaskScheduler.PrependBatch` | src/scheduler/task_scheduler.py:31-40 | a batch with met dependencies in front keeps the order, without duplicates |
| `TaskScheduler.SmartShuffle` | src/scheduler/task_scheduler.py:28-56 | for any shuffling: no duplicates, exactly the plugins that are well-founded within the list, `file_type` last, dependencies after their dependents under the exact condition above; KeyError exactly for unknown names |
| `TaskScheduler.FileTypeOrderBreaks` | src/scheduler/task_scheduler.py:28-45 | a plugin graph for which every shuffling yields an order in which `file_type` comes before its dependency |
| `TaskScheduler.ScheduleAnalysisTasks` | src/scheduler/task_scheduler.py:22-26 | the schedule made from requested and mandatory plugins has all these properties, and contains all considered plugins if they are closed and acyclic |
| `TaskScheduler.MandatoryAre` | src/scheduler/task_scheduler.py:15 | without a request exactly `file_type` and `file_hashes` are considered where the mandatory plugins are asked for, and nothing otherwise |
| `AnalysisTasks.IsUpToDate` | src/scheduler/analysis/scheduler.py:394-440 | decides whether the stored result may be reused: not failed, versions not older, and not older than any dependency's result |
| `AnalysisTasks.Independent` | src/scheduler/task_scheduler.py:72-84 | exactly the scheduled plugins that do not depend on the failed one |
| `AnalysisTasks.Reschedule` | src/scheduler/task_scheduler.py:72-84 | removing dependents while walking over a copy leaves the independent ones and marks the others failed; a KeyError exactly if an unknown plugin is scheduled |
| `AnalysisTasks.ScheduledIsWell` | src/scheduler/task_scheduler.py:22-56 | an ordered schedule starts out well scheduled: every dependency is still to come before its dependent, or already has an entry |
| `AnalysisTasks.PoppedHasDependencies` | src/scheduler/analysis/scheduler.py:624-634 | when a plugin is popped, all its dependencies have an entry, and it counts as unfulfilled if and only if one was skipped or failed |
| `AnalysisTasks.ProcessKeepsSchedule` | src/scheduler/analysis/scheduler.py:327-375 | processing a task pops one plugin and keeps the object well scheduled, whether the plugin is reused, skipped or sent |
| `AnalysisTasks.CollectKeepsSchedule` | src/scheduler/analysis/scheduler.py:532-538 | collecting a result or a failure gives the plugin an entry and keeps the object well scheduled |
| `AnalysisDecisions.ReusedExactly` | src/scheduler/analysis/scheduler.py:336-353 | an unforced object keeps a stored result that did not fail, was made by no older versions and is not older than those of its dependencies; it is loaded exactly if a plugin still scheduled needs it |
| `AnalysisDecisions.RenewedExactly` | src/scheduler/analysis/scheduler.py:394-440 | a forced object, or one with a failed, outdated or missing result, never keeps it: the plugin runs or its result is replaced by a note, made now by the installed version |
| `AnalysisDecisions.RenewalDecides` | src/scheduler/analysis/scheduler.py:354-375 | a plugin that has to be renewed is kept out by the MIME lists, lacks a dependency, has a result that does not fit, or runs: exactly one, in this order, with its reason stored |
| `AnalysisDecisions.RaisesExactly` | src/scheduler/analysis/scheduler.py:336-375 | processing raises, for any object, exactly if a result is to be reused while a plugin that is not installed is still scheduled, or if lists have to be checked and no MIME type is known |
| `AnalysisDecisions.BlockedIsKeptOut` | src/scheduler/analysis/scheduler.py:458-475 | a whitelist admits exactly the types in which one of its entries occurs; without one a blacklist keeps out exactly those |
| `AnalysisDecisions.UnknownIsPassedOver` | src/scheduler/analysis/scheduler.py:327-334 | a plugin that is not installed is passed over without any change |
| `AnalysisDecisions.ResultIsStored` | src/scheduler/analysis/scheduler.py:532-538 | the result a plugin reports, with its date and the installed versions, is what is stored and what later plugins see |
| `AnalysisDecisions.FailureIsStored` | src/scheduler/task_scheduler.py:72-92 | a failure is stored with its cause and time; exactly the scheduled plugins that directly depend on it are taken out and marked failed |
| `AnalysisDecisions.CollectRaisesExactly` | src/scheduler/task_scheduler.py:72-84 | collecting raises exactly for a failure while a plugin that is not installed is still scheduled |
| `AnalysisDecisions.IndependentInOrder` | src/scheduler/task_scheduler.py:72-84 | the plugins that stay scheduled keep their order |
| `AnalysisPass.StepDecides` | src/scheduler/analysis/scheduler.py:336-375 | a plugin that has to be renewed is skipped if and only if its stored surroundings give a reason: MIME lists, a skipped dependency, or a result that does not fit its schema |
| `AnalysisPass.PassInvariant` | src/scheduler/analysis/scheduler.py:327-375 | throughout a pass without failures, every handled plugin is settled: up to date or bound to be skipped again |
| `AnalysisPass.FreshAfterPass` | src/analysis/plugin/plugin.py:130-157 | after a completed pass without failures every scheduled plugin has a stored result no older than those of its dependencies |
| `AnalysisIdempotence.StaleIsSkipped` | src/scheduler/analysis/scheduler.py:394-440 | in the next pass, a plugin that is not up to date will be skipped again |
| `AnalysisIdempotence.SecondPass` | src/scheduler/analysis/scheduler.py:336-375 | an unforced pass over settled results sends nothing at any point |
| `AnalysisIdempotence.Idempotent` | src/scheduler/analysis/scheduler.py:336-440 | after a pass in which nothing failed, an unforced pass with the same plugins, in whatever order it is scheduled, sends no plugin to any runner |
| `AnalysisQueues.StepObjects` | src/scheduler/analysis/scheduler.py:327-375 | conservation: no step creates, copies or destroys a file object; only an arrival adds one |
| `AnalysisQueues.StepDecreases` | src/scheduler/analysis/scheduler.py:540-555 | every step that handles an object decreases a measure given by the schedule lengths |
| `AnalysisQueues.WorkIsBounded` | src/scheduler/analysis/scheduler.py:540-555 | in any trace, with arrivals, clock changes and cancellations at any point, the number of handling steps is bounded by the measure at its start and the schedules that arrive |
| `AnalysisQueues.RunInvariant` | src/scheduler/analysis/plugin.py:208-282 | in every state of every run the contents of all queues are in order |
| `AnalysisQueues.ObjectsAndOrder` | src/scheduler/analysis/scheduler.py:327-375 | in every run each arrived object is in exactly one place, queued objects have a non-empty schedule, and the next plugin of an ordered object has entries for all its dependencies |
| `AnalysisQueues.CompletedOnce` | src/scheduler/analysis/scheduler.py:540-555 | completion is signalled at most once per object |
| `AnalysisQueues.CompletedStays` | src/scheduler/analysis/scheduler.py:540-555 | what is completed, dropped or lost stays so to the end of the run |
| `AnalysisQueues.StepGoesOn` | src/scheduler/analysis/scheduler.py:540-555 | whatever a step does, an object with nothing left is completed, one that is wanted is queued at the end, any other is dropped, and the queue is served at its front |
| `AnalysisQueues.DroppedAfterCancel` | src/scheduler/analysis/scheduler.py:545-555 | in every run a dropped object is no firmware, and at an earlier moment neither its firmware nor the file was being analysed |
| `AnalysisQueues.RunningIsKept` | src/scheduler/analysis/scheduler.py:545-555 | no step drops an object whose firmware is being analysed |
| `AnalysisQueues.ServedInOrder` | src/scheduler/analysis/scheduler.py:308-334 | between any two states of a run the process queue only grows at its end and shrinks at its front |
| `AnalysisQueues.RaisedIsNoMime` | src/scheduler/analysis/scheduler.py:336-375 | for an object with an ordered schedule, processing raises an exception if and only if the plugin's MIME lists have to be checked and neither the object nor the database knows a MIME type |
| `AnalysisQueues.LostForMimeOnly` | src/scheduler/analysis/scheduler.py:336-375 | in every run an object with an ordered schedule is lost only where its next plugin's MIME lists had to be checked and, with the analyses stored at that moment, no MIME type was known |
| `AnalysisQueues.ObjectGetsLost` | src/scheduler/analysis/scheduler.py:336-375 | a run in which this happens |
| `AnalysisRuns.OnlyThere` | src/scheduler/analysis/scheduler.py:327-375 | in a state of a run an object is in one place and in one shape |
| `AnalysisRuns.ProjectStep` | src/scheduler/analysis/scheduler.py:327-375 | every step of the whole pipeline is a step of the object's own pass, or leaves it and its stored analyses alone |
| `AnalysisRuns.Project` | src/scheduler/analysis/scheduler.py:327-375 | a run of the whole pipeline is a pass for an object that alone writes its file's analyses |
| `AnalysisRuns.CompletedIsFresh` | src/analysis/plugin/plugin.py:130-157 | in every run, an object completed without a failure leaves results no older than those of their dependencies |
| `AnalysisRuns.SecondAnalysisSendsNothing` | src/scheduler/analysis/scheduler.py:336-440 | in every run, a later unforced object of the same file with the same plugins is never in a plugin runner, whatever other objects do |
| `AnalysisScheduler.Scheduler.CheckFurtherProcessOrComplete` | src/scheduler/analysis/scheduler.py:540-555 | performs the placing of an object: completed, queued again, or dropped after cancellation |
| `AnalysisScheduler.Scheduler.StartAnalysisOfObject` | src/scheduler/analysis/scheduler.py:176-185 | schedules the object for its request with the mandatory plugins and performs the arrival step, or does nothing exactly if a considered plugin is not installed; the object counts as ordered if `file_type` has no dependencies |
| `AnalysisScheduler.Scheduler.UpdateAnalysisOfSingleObject` | src/scheduler/analysis/scheduler.py:187-196 | the same without the mandatory plugins and without a firmware, so that the object is not dropped |
| `AnalysisScheduler.Scheduler.UpdateAnalysisOfObjectAndChildren` | src/scheduler/analysis/scheduler.py:158-174 | the children enter in order, each with the root's UID, force flag and a schedule for the root's request, ordered if `file_type` has no dependencies, then the root enters as it is; nothing happens if a plugin is not installed |
| `AnalysisScheduler.ScheduledInOrder` | src/scheduler/task_scheduler.py:22-56 | a schedule made for any request starts a pass and is well scheduled if `file_type` has no dependencies |
| `AnalysisScheduler.Scheduler.ProcessNextAnalysisTask` | src/scheduler/analysis/scheduler.py:327-334 | performs the processing step, and keeps the pipeline invariant |
| `AnalysisScheduler.Scheduler.StartOrSkipAnalysis` | src/scheduler/analysis/scheduler.py:336-375 | takes the same decision as the step |
| `AnalysisScheduler.Scheduler.QueueAnalysis` | src/scheduler/analysis/plugin.py:109-130 | walks the dependencies and tells whether each result fits its schema |
| `AnalysisScheduler.Scheduler.WorkerTakes` | src/scheduler/analysis/plugin.py:208-225 | moves a job from the in-queue to a worker, and keeps the pipeline invariant |
| `AnalysisScheduler.Scheduler.WorkerReturns` | src/scheduler/analysis/plugin.py:273-282 | writes the result or the failure into the object and moves it to the out-queue, and keeps the pipeline invariant |
| `AnalysisScheduler.Scheduler.HandleCollectedResult` | src/scheduler/analysis/scheduler.py:512-538 | performs the collecting step, and keeps the pipeline invariant |
| `Compare.Visitor.Visit` | src/compare/compare.py:105-115 | succeeds if and only if the plugin's transitive dependencies are known and acyclic, although marks of earlier failures stay; what stays marked is never such a plugin |
| `Compare.ScheduleComparisonPlugins` | src/compare/compare.py:98-124 | without duplicates and dependencies first, exactly the plugins all of whose transitive dependencies are known and acyclic |
| `Compare.MissingDependencies` | src/compare/PluginBase.py:54-67 | exactly the dependencies without a result or with a skipped one |
| `Compare.NamesInOrder` | src/compare/PluginBase.py:45-52 | the note names the missing dependencies in order, with commas between them |
| `Compare.ExecuteComparePlugins` | src/compare/compare.py:91-96 | each scheduled plugin runs once: it notes missing comparisons if a dependency was skipped, else missing analyses if there are any, and else compares on the results before it, among which are all its dependencies |
| `Compare.SkipSpreads` | src/compare/PluginBase.py:39-75 | where a plugin was skipped, every plugin that depends on it over any number of others was skipped too |
| `FilePaths.PathsExact` | src/storage/db_interface_common.py:271-282 | on an acyclic relation the recursion ends and yields each maximal root-to-file chain exactly once and nothing else |
| `FilePaths.GroupParents` | src/storage/db_interface_common.py:263-269 | the dictionary of parents represents exactly the queried pairs |
| `FilePaths.QueryKeepsChains` | src/storage/db_interface_common.py:229-239 | the pairs above the given files determine the same chains as the whole table |
| `FilePaths.SubrelationAcyclic` | src/storage/db_interface_common.py:229-239 | an acyclic table has only acyclic parts |
| `FilePaths.KeepFromRoot` | src/storage/db_interface_common.py:252-257 | removing while walking over a copy keeps exactly the paths that start at the root |
| `FilePaths.RemovePathsLackingRoot` | src/storage/db_interface_common.py:252-261 | keeps exactly the paths from the root and drops exactly the files left with none |
| `FilePaths.FileTreePaths` | src/storage/db_interface_common.py:216-249 | for each file all its chains from admitted roots, once each; a file is missing only if a root was asked for and no chain starts there |
| `VfpMigration.OldColumn` | src/storage/migration/versions/a1312300d62d_add_vfp_table.py:169-176 | the entries of one file: each chain combined with each path in its last parent; fails exactly if such a parent has no path |
| `VfpMigration.Downgrade` | src/storage/migration/versions/a1312300d62d_add_vfp_table.py:153-187 | writes exactly the old column of every file in an inclusion, and fails exactly when an inclusion has no path |
| `VfpMigration.ColumnTellsPaths` | src/storage/migration/versions/a1312300d62d_add_vfp_table.py:165-194 | read by splitting, the column of a file holds under each root exactly the entries made of all UIDs from the root down to a parent and a path in this parent |
| `VfpMigration.RootColumn` | src/storage/migration/versions/a1312300d62d_add_vfp_table.py:182-185 | the column of a file without parents names the file itself and nothing else |
| `VfpMigration.Upgrade` | src/storage/migration/versions/a1312300d62d_add_vfp_table.py:95-116 | the table holds exactly the rows parsed from the old column; fails exactly when a file has none |
| `VfpMigration.UpgradedRow` | src/storage/migration/versions/a1312300d62d_add_vfp_table.py:95-116 | whatever the old column says, a row is made exactly from the last two non-empty elements of an entry, between stored files |
| `VfpMigration.PartsKept` | src/storage/migration/versions/a1312300d62d_add_vfp_table.py:104-105 | empty elements are passed over, the others kept in order |
| `VfpMigration.ParseJoined` | src/storage/migration/versions/a1312300d62d_add_vfp_table.py:104-111 | parsing a joined path gives back its parent and path |
| `VfpMigration.CleanRowReturns` | src/storage/migration/versions/a1312300d62d_add_vfp_table.py:95-194 | a row of an inclusion whose path is not empty and free of the separator survives the way down and up |
| `VfpMigration.ReturnedRowWasThere` | src/storage/migration/versions/a1312300d62d_add_vfp_table.py:95-194 | with clean paths no row appears that was not there |
| `VfpMigration.RoundTrip` | src/storage/migration/versions/a1312300d62d_add_vfp_table.py:95-194 | downgrade and upgrade restore the table if and only if every row belongs to an inclusion and has a clean path |
| `VfpMigration.ThereAndBack` | src/storage/migration/versions/a1312300d62d_add_vfp_table.py:95-194 | the two migrations in sequence get through if and only if every inclusion has a path and every file takes part in one, and then the round trip holds under the exact condition |
| `VfpMigration.SeparatorIsLost` | src/storage/migration/versions/a1312300d62d_add_vfp_table.py:95-194 | a table with the separator in a path, which does not come back |
| `VfpMigration.EmptyFirmwareFails` | src/storage/migration/versions/a1312300d62d_add_vfp_table.py:95-194 | a firmware without extracted files makes the upgrade fail after a downgrade |
| `FirmwareImport.ImportEnds` | src/firmware_import_export.py:153-171 | the insertion loop ends if and only if no retained file has a dropped orphan as parent and the retained files do not include each other in a circle |
| `FirmwareImport.NeverInserted` | src/firmware_import_export.py:161-169 | exactly those files are never inserted that wait, over any number of parents, for a file that is not there or for themselves |
| `FirmwareImport.ChildOfOrphanBlocks` | src/firmware_import_export.py:146-171 | every retained file below a dropped orphan stays uninserted after any number of rounds, so the loop never ends |
| `FirmwareImport.ImportRunsForever` | src/firmware_import_export.py:153-171 | an archive for which this happens |
| `FirmwareImport.InsertObjects` | src/firmware_import_export.py:146-171 | each retained object is inserted once and after all its parents; the result is the number of objects and the root |
| `FirmwareImport.SomeAddable` | src/firmware_import_export.py:157-168 | every round makes progress |
| `FirmwareImport.ExportIsImportable` | src/firmware_import_export.py:66-79 | an exported archive has no orphans, and can be imported if and only if the inclusion among the firmware's files is acyclic |
| `FirmwareImport.ExportKeepsParents` | src/firmware_import_export.py:66-79 | the archive names exactly the parents inside the firmware, with all their paths |
| `FirmwareImport.ExportAndImport` | src/firmware_import_export.py:66-171 | importing an export inserts all files of the firmware, parents first, and counts files plus one |
| `RedisStore.MetaKeyNames` | src/storage/redis_interface.py:43-71 | the meta key of a chunked value names exactly its chunks, in order |
| `RedisStore.MetaKeyFormat` | src/storage/redis_interface.py:43-50 | a meta key is the marker followed by the chunk keys, each after the separator |
| `RedisStore.ChunkKeyCount` | src/storage/redis_interface.py:52-56 | there are ten thousand different chunk keys |
| `RedisStore.ChunkBounds` | src/storage/redis_interface.py:43-50 | for every positive chunk size the chunks are non-empty and cover the value |
| `RedisStore.SetMeans` | src/storage/redis_interface.py:27-28 | refinement: setting a value updates one key of an abstract map and drops a queue under it; exactly the chunks of what was there leak |
| `RedisStore.DropMeans` | src/storage/redis_interface.py:30-32 | refinement: a deleting read removes one key of the map and exactly its own chunks |
| `RedisStore.PushMeans` | src/storage/redis_interface.py:34-35 | refinement: putting appends to an abstract queue |
| `RedisStore.RefusedPushMeans` | src/storage/redis_interface.py:34-35 | a push to a key with a plain value changes nothing but leaks the chunks written for it |
| `RedisStore.PopMeans` | src/storage/redis_interface.py:37-38 | refinement: getting takes the head of the queue, which comes back byte for byte |
| `RedisInterface.Interface.GetNewChunkKey` | src/storage/redis_interface.py:52-56 | returns a chunk key that is not in use |
| `RedisInterface.Interface.StoreChunks` | src/storage/redis_interface.py:43-50 | the value is in fresh, pairwise different chunk keys that the meta key names |
| `RedisInterface.Interface.SplitIfNecessary` | src/storage/redis_interface.py:40-41 | what is stored in place of a value reads back as this value |
| `RedisInterface.Interface.CombineIfSplit` | src/storage/redis_interface.py:58-71 | reads the content byte for byte and, if asked to, deletes exactly its chunks |
| `RedisInterface.Interface.Set` | src/storage/redis_interface.py:27-28 | the map has the new value, a queue under the key is gone, a value is chunked if and only if it is too long; chunks of what was overwritten leak, and no others |
| `RedisInterface.Interface.Get` | src/storage/redis_interface.py:30-32 | returns the value or none; a deleting read removes the key and exactly the chunks of its value |
| `RedisInterface.Interface.QueuePut` | src/storage/redis_interface.py:34-35 | appends to the queue and leaves all values alone, or is refused exactly if the key holds a plain value, leaking the new chunks |
| `RedisInterface.Interface.QueueGet` | src/storage/redis_interface.py:37-38 | takes the oldest element, or none from an absent queue, and leaks nothing |
| `RedisInterface.SettingTwiceLeaks` | src/storage/redis_interface.py:27-28 | setting a key twice leaves a chunk behind |
| `FileTree.MergedFiles` | src/web_interface/file_tree/file_tree_node.py:63-75 | merging is union of paths; a file that is already in the tree keeps its UID |
| `FileTree.WithChildFiles` | src/web_interface/file_tree/file_tree_node.py:77-86 | adding a node adds exactly its paths and keeps sibling ids distinct |
| `FileTree.NodeFromPathFiles` | src/web_interface/file_tree/file_tree.py:215-237 | the node of a virtual path holds one file, at this path; an empty last component stands for the file name |
| `FileTree.PathsAreUnion` | src/web_interface/components/ajax_routes.py:44-56 | after inserting any sequence of files and paths, in any order and with repeats, the tree's name paths are exactly those that were there and the inserted ones, each leads to a file entered under it, and siblings have distinct ids |
| `FileTree.NamesOfEntry` | src/web_interface/file_tree/file_tree.py:211-237 | a path that ends in a separator leads to the file's own name, any other to its last component |
| `FileTree.StripLeftIs` | src/web_interface/file_tree/file_tree.py:213 | exactly the separators at the beginning are taken away |
| `FileTree.EntriesKeepFlags` | src/web_interface/file_tree/file_tree_node.py:63-86 | whatever is inserted, a node with children says so, and a folder says so only if it has some |
| `FileTree.ShownPaths` | src/web_interface/file_tree/file_tree.py:201-217 | for paths with a non-empty last component the tree shows the paths themselves, without leading separators |
| `FileTreeNode.Node.AddChildNode` | src/web_interface/file_tree/file_tree_node.py:77-86 | in place: the value becomes that of `WithChild`; only this node and the child with the same id change |
| `FileTreeNode.Node.MergeNode` | src/web_interface/file_tree/file_tree_node.py:63-75 | in place: the child takes over the other node's children recursively; nothing else changes, and nodes stay disjoint |
| `FileTreeNode.Node.TakeChildren` | src/web_interface/file_tree/file_tree_node.py:69-75 | the loop over the children merges all of them |
| `FileTreeNode.CreateNodeFromVirtualPath` | src/web_interface/file_tree/file_tree.py:215-237 | builds fresh nodes with the value of `NodeFromPath` |
| `FileTreeNode.GenerateFileTree` | src/web_interface/components/ajax_routes.py:44-56 | the generated layer has exactly the name paths of the files' entries, each leading to a file that has it, and distinct sibling ids |
| `DurationStats.HoldsStep` | src/scheduler/analysis/plugin.py:299-307 | recording overwrites the oldest duration, so the slots read around from the index stay the latest durations |
| `DurationStats.EvaluatedIsLatest` | src/statistic/analysis_stats.py:15-28 | the evaluated slots are, as a multiset, exactly the last min(n, limit) durations |
| `DurationStats.Stats.UpdateDurationStats` | src/scheduler/analysis/plugin.py:299-307 | after n durations the index is n mod limit and the count min(n, limit) |
| `DurationStats.Stats.ReadStats` | src/statistic/analysis_stats.py:15-20 | reads exactly the last min(n, limit) durations |

## Left out

- Extraction containers, HTTP, temporary directories and the file system: only the list of extracted files or an error matters.
- SQLAlchemy and PostgreSQL: tables are sets, a recursive query is its result.
- Processes, signals, shutdown, throttling, logging and progress bars.
- The analyses themselves, MIME detection, hashing and pickling: pickled values are byte strings that never start with the chunk marker.
- Overlapping submissions of the same firmware, a cancel inside the locked update, and failures other than database interface errors in the work thread: the run theorems do not cover them.
- Version strings: versions are numbers, a missing system version is the least one; results are maps.
- The order inside a plugin's queues: any waiting job may be taken next, which includes first in, first out.
- The status display, the lists of recently finished and cancelled runs beyond being entered, and the text of messages.
- The placeholder node for files that have not been analysed yet, file modes and sizes in the tree, and the order of children.
- Web routes, REST, templates, user management and installation: they only pass data on.
- FirmwareImport.InsertObjects: requires an importable archive; by `FirmwareImport.ImportEnds` the source never returns for any other.
- FilePaths.FileTreePaths: requires an acyclic inclusion table; on a cyclic one the recursion of the source does not end.
- RedisInterface.Interface.Set: requires room among the 10000 chunk keys, where the source would search forever, and a key that is not of the form of a chunk key.
- RedisInterface.Interface.QueuePut: the same two conditions.
- RedisInterface.Interface.Get: does not cover the error for a key that holds a queue.
- RedisInterface.Interface.QueueGet: does not cover the error for a key that holds a plain value.
- AnalysisPass.PassInvariant: a pass assumes that nobody else writes the analyses of this file meanwhile, and that a file type known to the object is the stored one; `AnalysisRuns.Project` obtains passes from runs under these assumptions.
- AnalysisIdempotence.Idempotent: says that nothing is sent to a runner; a second pass may still renew the date of skipped results.
