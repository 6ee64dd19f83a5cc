# AsterFiles, verified

A Dafny model of the logic that sits below the window of AsterFiles, a Windows file manager, with proofs of what that
logic guarantees. `dafny verify dfyconfig.toml` checks all of it.

Code that changes state step by step is modelled as methods and classes with the same fields and the same branches.
Each is proved against a function or a transition system; the theorems are about those. Where threads meet, the
transition system says what may interleave, the methods of the loop are proved to be runs of it whatever the other
threads do in between, and the safety theorems hold over every run.

| modules | source | what is proved |
|---|---|---|
| `LibraryEntries`, `LibraryScheduler`, `LibraryAccounts`, `LibraryHandshake`, `LibraryDelivery`, `LibrarySafety`, `LibraryTheorems`, `LibraryAnswers`, `LibraryQueues`, `LibraryShutdown`, `LibraryEnding`, `LibraryLoop` | `src/library_loading.rs` | The scheduler that multiplexes library jobs over two domains of four slots: one invariant over all runs, exact counters, bounded backlog, exact and truthful delivery, exactly one terminal event per job that is not cancelled, sources started in order per domain, and a shutdown that ends even with a stuck output. |
| `WatchTypes`, `WatchPump`, `WatchDecisions`, `WatchFlights`, `WatchProgress`, `WatchConservation`, `WatchOrigins`, `WatchGate`, `WatchBatches`, `WatchLoop` | `src/app/directory_watch_refresh.rs` | The pump that turns disk notifications into refreshes: nothing reported is forgotten without a stated reason and nothing unreported is invented, single flight per tab and root, one result and one delivery per probe. |
| `SessionBytes`, `SessionText`, `SessionTypes`, `SessionFormat`, `SessionLayout`, `SessionFile`, `SessionTheorems`, `SessionSample`, `SessionRules`, `SessionPrefix`, `SessionCheck`, `SessionReader`, `SessionWriter` | `src/session_store.rs` | The binary session file: decoding undoes encoding, encoding undoes decoding up to clamped tabs, no accepted file is a prefix of another; one file spelt out byte by byte. |
| `RowModel`, `RowSequences`, `RowAppend`, `RowReplace`, `RowCells` | `src/app/directory_model.rs` | The list model that grows in place agrees with a rebuild, and a view that follows its notifications ends with exactly the new rows. |
| `NetworkScheduler`, `NetworkLoop` | `src/app/directory_loading.rs` | Per-host scheduling: mutual exclusion, arrival order per host, conservation, and a drain after input closes. |
| `Calendar`, `DateBuckets`, `Grouping`, `GroupRows`, `Projection` | `src/group_projection.rs` | Civil dates against an independent calendar, date buckets, grouping independent of batching, offsets, and positions that invert the rows. |
| `RowGeometry` | `src/app/file_row_index.rs`, `src/app/directory_model.rs` | The sparse row table answers every viewport query as the dense arrays do. |
| `ImageCache` | `src/app/icon_cache.rs` | What the bounded cache holds after any sequence of writes. |
| `Breadcrumb` | `src/app/breadcrumb_layout.rs` | The layout partitions the items, stays inside the budget and shows the longest fitting suffix. |
| `Prelude` | | Optional values, partition points and finite sets, shared by the others. |
| `Workspace` | `tools/check_workspace.py` | The worklist computes exactly the reachable packages; the check passes exactly for clean workspaces. |

## Where the code falls short of what one might expect

Each of these is kept as the code has it, with a concrete input and the exact condition under which the expectation holds.

- `civil_from_days` subtracts 146096 for negative era numbers and then uses floor division, so before day -719468 it is one
  era off. `Calendar.JanuaryTakenForFebruary` is January 31 of year 0 taken for February; `Calendar.CivilRightExactly`
  says that the date is right from day -719468 on, and before it on every day but the last of a month other than February.
  This concerns callers of `civil_from_days` with any day number; Windows file times begin in 1601, long after the bound.
- `local_day` truncates seconds toward the epoch, so before the epoch a time less than a second before a local midnight
  falls on the day after. `DateBuckets.BeforeTheEpoch` is half a second before the epoch, and
  `DateBuckets.LocalDayRightExactly` gives the exact condition.
- `layout` retains ancestors from index 2 on, so the second item is hidden even where it would fit
  (`Breadcrumb.SecondHiddenThoughItFits`). `Breadcrumb.LongestUnlessFirstFits` says that the suffix shown is the longest
  of all exactly if the one from index 1 does not fit beside what is reserved, and that otherwise the second item is the
  only one hidden.
- `decode` clamps an active tab that is out of range, so such a file does not encode back to itself
  (`SessionTheorems.TabOutOfRange`); `SessionTheorems.EncodeDecode` says that it does exactly when no tab was clamped.

## Model

| member | source | states |
|---|---|---|
| LibraryLoop.MergeBatch | src/library_loading.rs:47-63 | What a batch adds to a job is exactly its entries under paths not seen before, each path once, numbered on from the last number; it overflows exactly when those do not fit the 32-bit number. |
| LibraryEntries.AcceptedExtends | src/library_loading.rs:47-63 | The accepted list of a job is the first-occurrence de-duplication of all batches in arrival order, numbered 1, 2, 3, …: a further batch only appends to it, and appends only its fresh entries. |
| LibraryEntries.AcceptedPrefix | src/library_loading.rs:47-63 | Nothing accepted is ever renumbered or taken back by later batches. |
| LibraryEntries.FirstOnlyMembers | src/library_loading.rs:51-53 | An entry is kept exactly if it stands at some position no earlier entry of any source shares a path with. |
| LibraryEntries.FirstOnlyPaths | src/library_loading.rs:51-53 | No path is lost and none is kept twice. |
| LibraryDelivery.AfterResultLedger | src/library_loading.rs:306-328 | One more source result keeps the counters and the error equal to those counted over all results received. |
| LibraryLoop.Enlist | src/library_loading.rs:166-180 | The first source under each path is queued in its own domain, in order, and their number is counted. |
| LibraryTheorems.AdmittedCountsPaths | src/library_loading.rs:166-180 | As many sources are queued as the request has distinct paths. |
| LibraryLoop.SourceLoop.constructor | src/library_loading.rs:121-128 | The loop starts with nothing queued, running, pending or delivered, and with open input. |
| LibraryLoop.SourceLoop.Interfere | src/library_loading.rs:336-365 | Between two actions of the loop, workers may send, wait, resume on an acknowledgement or on cancellation and finish, the reader may answer or hang up, and flags may be raised; the loop's own variables stay. |
| LibraryLoop.SourceLoop.Close | src/library_loading.rs:140-146 | Closing cancels every live job, drops what is pending and thereby hangs up on its senders. |
| LibraryLoop.SourceLoop.FlushHead | src/library_loading.rs:130-148 | The oldest pending batch is dropped if cancelled, else delivered, kept at the front when the output is full, or everything closed when it is gone. |
| LibraryLoop.SourceLoop.FlushPending | src/library_loading.rs:130-149 | Flushing is a run of the transition system that ends at the ingress. |
| LibraryLoop.SourceLoop.Accept | src/library_loading.rs:164-193 | A request becomes a fresh job with its sources queued. |
| LibraryLoop.SourceLoop.TakeOne | src/library_loading.rs:155-204 | One offer of the input is answered as it is: a cancelled request is refused and leaves no job, another is accepted, an empty input ends the turn, a closed one closes everything. |
| LibraryLoop.SourceLoop.TakeRequests | src/library_loading.rs:151-205 | An ingress turn takes exactly the requests the input offers, in order and at most 32, up to the first offer that is none, and nothing once the input is closed; it is a run of the transition system. |
| LibraryLoop.SourceLoop.RetainOne | src/library_loading.rs:207-214 | A queued source is dropped, and counted off its job, exactly if its request is cancelled. |
| LibraryLoop.SourceLoop.Retain | src/library_loading.rs:207-214 | Filtering a queue in place is a run; the job of every dropped source exists (`unwrap` never fails). |
| LibraryLoop.SourceLoop.SpawnOne | src/library_loading.rs:216-239 | The oldest queued source of the domain leaves the queue, takes a slot and becomes a worker. |
| LibraryLoop.SourceLoop.StartSources | src/library_loading.rs:215-240 | Sources start while nothing is pending and a slot of the domain is free. |
| LibraryLoop.SourceLoop.CompleteOne | src/library_loading.rs:246-266 | A completed job is forgotten when its terminal event is taken, when the output is gone, or when it is full and the job cancelled; otherwise it stays. |
| LibraryLoop.SourceLoop.CompleteJobs | src/library_loading.rs:242-269 | All completed jobs are tried once, in any order, and the loop stops exactly if input is closed, no job lives and nothing is pending. |
| LibraryLoop.SourceLoop.MergeArrived | src/library_loading.rs:271-295 | A batch of a live, uncancelled job is merged and queued, or acknowledged at once when nothing in it is new; any other batch is hung up on. It fails exactly when entry numbers run out. |
| LibraryLoop.SourceLoop.CountResult | src/library_loading.rs:296-329 | A final result frees the worker and its slot and is counted in its job, if the job still lives. |
| LibraryLoop.SourceLoop.ReceiveOne | src/library_loading.rs:270-332 | An event of the workers that is there is handled; the wait times out only if there is none. |
| LibraryLoop.SourceLoop.QueuePhases | src/library_loading.rs:206-245 | Both domains are filtered and filled, local before network, and the completed jobs collected. |
| LibraryLoop.SourceLoop.AwaitEvent | src/library_loading.rs:270-333 | Whatever arrived, the invariant holds again at the top of the loop; it waited in vain only on an empty channel. |
| LibraryLoop.SourceLoop.Pass | src/library_loading.rs:129-333 | One pass of the loop, interleaved with anything workers, readers and cancellations do, is a run of the transition system and keeps the invariant; while the input is open it takes exactly what the input offers, and it ends by stopping or with an event if there is one. |
| LibraryLoop.SourceLoop.Work | src/library_loading.rs:206-333 | The part behind the ingress: queues, completion, and one event, as a run that keeps the invariant. |
| LibraryAccounts.StepKeepsAccounts | src/library_loading.rs:206-241 | Every action keeps: queues and workers hold distinct sources of live jobs, `remaining` is the number of a job's open sources, `active` the number of workers per domain and at most four. |
| LibraryHandshake.StepKeepsHandshake | src/library_loading.rs:336-365 | Every action keeps: a source with an undelivered batch is either cancelled or a worker waiting for its acknowledgement, and per source events arrive in order, the final one last. |
| LibraryDelivery.StepKeepsLedger | src/library_loading.rs:296-329 | Every action keeps each job's counters equal to the results, drops and sources of its history. |
| LibraryDelivery.StepKeepsMerged | src/library_loading.rs:277-293 | Every action keeps `seen` and `next_id` those of the batches that arrived. |
| LibraryDelivery.StepKeepsContent | src/library_loading.rs:130-139 | Every action keeps: for an uncancelled job, delivered plus pending entries are the accepted list of what arrived, and what arrived plus what is under way is what was sent; for a cancelled one, a prefix. |
| LibrarySafety.CompletedIsDelivered | src/library_loading.rs:242-249 | When an uncancelled job has no source left, everything its sources sent has been merged and delivered. |
| LibrarySafety.TerminalIsTruthful | src/library_loading.rs:65-89 | The terminal event a completed job would send agrees with its history. |
| LibrarySafety.StepKeepsInv | src/library_loading.rs:129-333 | The conjunction of all of these is inductive over every action of the loop and of the world. |
| LibrarySafety.RunKeepsInv | src/library_loading.rs:129-333 | Hence it holds in every reachable state. |
| LibraryTheorems.UndeliveredHasOwner | src/library_loading.rs:276-294 | In every reachable state an undelivered batch belongs to a live or a cancelled job. |
| LibraryTheorems.PendingStaysBounded | src/library_loading.rs:215-248 | Whatever the readers do, `pending` never exceeds 2·SOURCE_SLOTS, holds at most one batch per source, and none of a source with another batch in the channel. |
| LibraryTheorems.CountersAreExact | src/library_loading.rs:164-328 | In every reachable state `remaining` equals queued plus running sources, `active` the running workers per domain, at most four; successes, counted failures, drops and `remaining` add up to the admitted sources. |
| LibraryTheorems.DropNeverUnderflows | src/library_loading.rs:207-210 | For every queued source the job lives and `remaining` is positive, so the lookup and the subtraction are safe. |
| LibraryTheorems.DoneNeverUnderflows | src/library_loading.rs:302-307 | For every final event under way the worker is known, the job lives, and both counters it lowers are positive. |
| LibraryTheorems.TerminalIsLast | src/library_loading.rs:246-266 | After a job's terminal event neither a batch nor another terminal event of it is ever sent. |
| LibraryTheorems.TerminalTellsTheTruth | src/library_loading.rs:65-89 | `Finished` and `Failed` are sent only after every source reported and every batch was delivered, with the counts and the error of the reports; `Failed` only if nothing succeeded, something failed and nothing was found; `Cancelled` only for cancelled jobs. |
| LibraryTheorems.DeliveredIsPrefix | src/library_loading.rs:130-139 | What was delivered of a job is a prefix of its accepted list, numbered 1, 2, 3, … without gaps. |
| LibraryTheorems.LoopNeverStuck | src/library_loading.rs:129-333 | Until it stops, the loop can always take an action of its own, without any help of workers or output. |
| LibraryAnswers.StepForgetsNone | src/library_loading.rs:246-266 | No action forgets a job that is neither answered nor cancelled. |
| LibraryAnswers.AnsweredOnce | src/library_loading.rs:242-266 | Over every run a job that is not cancelled stays live exactly until its terminal event goes out, and gets no second one: every job is answered exactly once unless it is cancelled. |
| LibraryAnswers.FinishedIsOffered | src/library_loading.rs:240-266 | Between the last starts of a pass and its check whether to stop, every finished job is offered to the output, so a full output is tried again in every pass. |
| LibraryAnswers.SentGoesOut | src/library_loading.rs:248-251 | The terminal events a run adds to the output are exactly those it sent, in that order. |
| LibraryQueues.AdmittedAreFirst | src/library_loading.rs:166-181 | A source of a request is queued exactly if no earlier one has its path. |
| LibraryQueues.AdmittedOrder | src/library_loading.rs:168-175 | What is queued of a request keeps its order. |
| LibraryQueues.StepKeepsOrder | src/library_loading.rs:166-240 | Every action keeps the queues in the order in which sources were asked for, and every source in the domain of its path. |
| LibraryQueues.SourcesStayAtHome | src/library_loading.rs:169-217 | A source waits in the queue of its path's domain, UNC or not, and runs against the slots of that domain. |
| LibraryQueues.SourcesStartInTurn | src/library_loading.rs:215-239 | Whatever starts, starts while nothing waits for the output and fewer than four of its domain run, and every source left in its queue was asked for later. |
| LibraryShutdown.ClosedStartsNothing | src/library_loading.rs:196-215 | Once input closed or the output went away every job is cancelled, nothing is pending, and no source starts and no request is taken any more. |
| LibraryShutdown.ClosedWorkFalls | src/library_loading.rs:242-307 | From then on jobs plus open sources never grow, and fall with each final report and each forgotten job. |
| LibraryShutdown.PassShrinks | src/library_loading.rs:129-269 | Every action of a pass brings its receive, or the stop, closer: a pass is finite. |
| LibraryShutdown.WorldKeepsPass | src/library_loading.rs:336-365 | Workers, readers and cancellations cannot undo that progress. |
| LibraryShutdown.LastPassRun | src/library_loading.rs:242-266 | After closing, over every run, a job without remaining sources is due for completion in the current pass, or gone by the time the pass is checked. |
| LibraryShutdown.ClosedLoopStops | src/library_loading.rs:267-269 | A closed loop whose workers have all reported by the end of a pass stops there, even if no send to the output ever succeeded. |
| LibraryEnding.StaysQuiet | src/library_loading.rs:196-269 | A closed loop without workers stays so whatever happens. |
| LibraryEnding.ActionCounts | src/library_loading.rs:129-333 | From there every action of the loop leaves fewer to take, and no action of workers, readers or cancellations adds any. |
| LibraryEnding.EveryRunStops | src/library_loading.rs:129-333 | From any reachable closed state without workers every run reaches `Stopped` within a number of loop actions bounded by the queues and jobs: it contains no more, and until it stopped another is possible. |
| WatchBatches.GatherEvents | src/app/directory_watch_refresh.rs:147-174 | One batch per root with an event; it names exactly the paths the root's changes name, both sides of a rename included, and is uncertain exactly after an overflow or an error. |
| WatchBatches.Coalesce | src/app/directory_watch_refresh.rs:146-184 | Roots are distinct; no path and no doubt is lost except paths in the scratch area of directory operations, none is added, and no batch is empty. |
| WatchBatches.NamedMeans | src/app/directory_watch_refresh.rs:159-172 | What the events name under a root: the path of every change, and both ends of a rename. |
| WatchDecisions.WorkPathsAreScratch | crates/platform-windows/src/fs/mod.rs:8-14 | A path is in the scratch area exactly if some component is its name in any mixture of ASCII capitals. |
| WatchBatches.GroupByRoot | src/app/directory_watch_refresh.rs:108-117 | Probes are split by root, keeping their order, and nothing else. |
| WatchBatches.ReadSample | src/app/directory_watch_refresh.rs:292-306 | Each path some still needed probe asks for is read, once for all probes of the root. |
| WatchBatches.SampleMeans | src/app/directory_watch_refresh.rs:292-306 | A path is read exactly if some probe of the root watches it and still needs it, as the first probe sees files. |
| WatchBatches.PreviousEntries | src/app/directory_watch_refresh.rs:308-313 | The entry compared for a path is the last one the tab listed under it. |
| WatchBatches.HasChanged | src/app/directory_watch_refresh.rs:314-323 | A change is reported in doubt, or when some path of the watch was not read, could not be read, or reads differently from the listing. |
| WatchBatches.ProbeChanges | src/app/directory_watch_refresh.rs:285-328 | Every probe gets exactly one result, in order, judged against the common sample. |
| WatchBatches.UnreadMeansChanged | src/app/directory_watch_refresh.rs:298-323 | A probe whose path nobody still needed reports a change rather than agreement. |
| WatchPump.Judged | src/app/directory_watch_refresh.rs:307-325 | One result per probe, in order. |
| WatchGate.RefreshGate.Started | src/app/directory_watch_refresh.rs:26-28 | A refreshed tab and root are put behind the gate, not yet timed. |
| WatchGate.RefreshGate.Update | src/app/directory_watch_refresh.rs:30-44 | The whole table after one look at the application, in any order of the entries. |
| WatchGate.GateHolds | src/app/directory_watch_refresh.rs:25-49 | Over any series of looks the gate keeps a refreshed tab exactly until it leaves the root or is seen neither loading nor partial a second or more after it first was. |
| WatchDecisions.RenamingIs | src/app/directory_watch_refresh.rs:196-206 | A rename is under way in a root exactly if an active one takes something directly in it or puts something there. |
| WatchDecisions.DecisionsMean | src/app/directory_watch_refresh.rs:208-238 | A change is dropped exactly if its tab is gone, cancelled or off the root, or loads another place for another request; deferred exactly if an operation other than such a rename has the root; it waits during the rename or while the tab loads; else it is probed. |
| WatchDecisions.StayingKeeps | src/app/directory_watch_refresh.rs:212-224 | A tab that stays on the root and is idle or refreshing never loses a change, whatever request it was observed at. |
| WatchDecisions.SameIsUnchanged | src/app/directory_watch_refresh.rs:250-269 | Entries compare equal exactly if they are equal in every field but the open target, a listed shortcut counting as a file. |
| WatchDecisions.PreviousIsLast | src/app/directory_watch_refresh.rs:308-313 | The entry a listing has under a path is the last one with it. |
| WatchDecisions.ChangedMeans | src/app/directory_watch_refresh.rs:314-323 | A probe reports no change exactly if nothing is in doubt and the disk confirms every path of its watch. |
| WatchDecisions.ResultsMean | src/app/directory_watch_refresh.rs:330-384 | A refresh is submitted exactly for a reported change of a tab that would be probed again and has the request, listing and visibility it was probed with; a result is sent back exactly while the tab waits or was touched since. |
| WatchDecisions.PreparedUntouched | src/app/directory_watch_refresh.rs:240-248 | A probe records the request, listing and visibility its result is checked against. |
| WatchDecisions.RefreshClosesGate | src/app/directory_watch_refresh.rs:421-449 | Taking the delivery of a finished result closes the gate for its key, and for no other, exactly if a change was reported, nothing was sent back and the tab is on a newer background refresh. |
| WatchDecisions.DefersTakenOver | src/app/directory_watch_refresh.rs:208-238 | The pump changes nothing in the application but the deferred roots, and defers a root exactly when it decides on a change, or gets a report, while an operation has taken the root over. |
| WatchConservation.MergeKeeps | src/app/directory_watch_refresh.rs:186-194 | Merging loses nothing of either watch, and the result is observed at the newer of the two requests. |
| WatchConservation.HonestAgrees | src/app/directory_watch_refresh.rs:314-323 | An unchanged result of a tab that stayed as it was means that the disk agreed with what the tab shows, for every path of the watch. |
| WatchLoop.Pump.constructor | src/app/directory_watch_refresh.rs:393-398 | The pump starts with nothing pending, in flight, sampled or gated. |
| WatchLoop.Pump.Interfere | src/app/directory_watch_refresh.rs:330-384 | Between actions of the pump any number of samples finish, results are applied on the UI thread and anyone changes the application; the tables of the pump stay, its queues only grow, and under the lock the application stays. |
| WatchLoop.Pump.TakeDelivery | src/app/directory_watch_refresh.rs:417-425 | A delivery frees its key, closes the gate after a refresh and merges a retry back. |
| WatchLoop.Pump.TakeDeliveries | src/app/directory_watch_refresh.rs:417-425 | Every delivery that was waiting is taken, with anything happening before and after each; it is a run of the transition system. |
| WatchLoop.Pump.Merge | src/app/directory_watch_refresh.rs:186-194 | The newest request, all paths and every doubt of both watches are kept, other keys untouched. |
| WatchLoop.Pump.TakeSample | src/app/directory_watch_refresh.rs:426-457 | A finished sample frees its root and hands every result to the UI thread. |
| WatchLoop.Pump.TakeSamples | src/app/directory_watch_refresh.rs:426-457 | Every sample that was waiting is taken, with anything happening before and after each; it is a run of the transition system. |
| WatchLoop.Pump.MergeBatch | src/app/directory_watch_refresh.rs:462-483 | A batch reaches every tab that shows its root, or the root is deferred when an operation other than a rename owns it. |
| WatchLoop.Pump.MergeBatches | src/app/directory_watch_refresh.rs:462-483 | Every batch is reported, each once, in order. |
| WatchLoop.Pump.SettleOne | src/app/directory_watch_refresh.rs:486-507 | A pending watch is dropped, deferred, kept waiting or turned into a probe as the application says at that moment. |
| WatchLoop.Pump.Drain | src/app/directory_watch_refresh.rs:484-508 | Every pending watch is settled once, in any order; exactly those stay that have to wait (their tab loads, a rename is under way, or key, root or gate is busy), unchanged, and exactly the free ones go into flight. |
| WatchLoop.Pump.StartSamples | src/app/directory_watch_refresh.rs:119-136 | Every ready probe goes into the one sample of its root, started on a root not being sampled; none is left over. |
| WatchLoop.Pump.Decide | src/app/directory_watch_refresh.rs:459-510 | Under the lock every batch is reported; then exactly what has to wait stays pending and exactly what is free goes into flight. |
| WatchLoop.Pump.StartProbes | src/app/directory_watch_refresh.rs:510-512 | From the unlock on, with anything happening around every start, the ready probes all start and the pass ends. |
| WatchLoop.Pump.Pass | src/app/directory_watch_refresh.rs:399-512 | A pass, interleaved with everything outside the lock, takes every delivery and sample that was waiting, updates the gate, reports exactly the batches its events come to and settles what is pending; exactly what has to wait stays and exactly what is free goes into flight. It is a run of the transition system, keeps the flight invariant, and leaves nothing unstarted. |
| WatchFlights.StepKeepsFlights | src/app/directory_watch_refresh.rs:399-512 | Every action keeps: the probes and deliveries outstanding are exactly `in_flight`, one each, and the samples exactly `sampling_roots`. |
| WatchFlights.RunKeepsFlights | src/app/directory_watch_refresh.rs:399-512 | Hence it holds over every run. |
| WatchFlights.SpawnedRootIsFree | src/app/directory_watch_refresh.rs:125-126 | A ready probe's root is not being sampled. |
| WatchFlights.SampleStartsOnAFreeRoot | src/app/directory_watch_refresh.rs:119-136 | The `assert!` on the insertion into `sampling_roots` never fires in any run. |
| WatchFlights.AtMostOneOutstanding | src/app/directory_watch_refresh.rs:484-511 | At most one probe per tab and root and one sample per root are outstanding, and the pump's sets say exactly which. |
| WatchFlights.OneResultOneDelivery | src/app/directory_watch_refresh.rs:417-457 | Every probe started gave one result or still owes it, every result one delivery, and started minus delivered is one exactly for keys in flight. |
| WatchProgress.ProbeNeverStuck | src/app/directory_watch_refresh.rs:417-457 | While a probe is outstanding the pump, a sample or the UI thread can move on by itself, and doing so brings its delivery closer. |
| WatchProgress.OwnStepAdvances | src/app/directory_watch_refresh.rs:417-457 | Whatever own step is taken, whatever is read and whatever a refresh changes, the deliveries come closer. |
| WatchProgress.OwnRunsFreeEveryKey | src/app/directory_watch_refresh.rs:417-457 | Every run of own steps is finite, and one that cannot go on has delivered every outstanding probe and freed every key. |
| WatchProgress.EveryKeyIsFreed | src/app/directory_watch_refresh.rs:417-457 | From every state such a run to the end exists. |
| WatchConservation.StepTracks | src/app/directory_watch_refresh.rs:330-384 | One action loses a reported path or doubt only with one of four excuses, told from the fields of the tab: it left the root or loads another place, its root was taken over and is deferred, the disk read agreed with what the tab shows, or a refresh was submitted for a change. |
| WatchConservation.NothingIsForgotten | src/app/directory_watch_refresh.rs:399-512 | Over any run what the pump answers for stays tracked unless so excused on the way. |
| WatchConservation.ReportIsTaken | src/app/directory_watch_refresh.rs:462-483 | A reported change is tracked for every tab that shows the root, or the root is deferred to the operation that has taken it over and nothing else changes. |
| WatchConservation.TrackedOnce | src/app/directory_watch_refresh.rs:484-508 | What is tracked is pending or in exactly one probe in flight. |
| WatchOrigins.StepBrings | src/app/directory_watch_refresh.rs:399-512 | One action brings in nothing but what a report names, for tabs that show its root. |
| WatchOrigins.NothingIsInvented | src/app/directory_watch_refresh.rs:399-512 | Whatever the pump answers for at the end of a run was reported on the way, for a tab that showed the root then. |
| SessionBytes.BoolCodec | src/session_store.rs:1095-1101 | Booleans are written as 0 or 1 and nothing else is read as one. |
| SessionBytes.U16Codec | src/session_store.rs:1111-1113 | Two little-endian bytes and 16-bit words are in bijection, and the rest of the bytes is left over. |
| SessionBytes.U32Codec | src/session_store.rs:1119-1121 | The same for 32-bit words. |
| SessionBytes.U64Codec | src/session_store.rs:1123-1125 | The same for 64-bit words. |
| SessionBytes.I32Codec | src/session_store.rs:1115-1117 | The same for signed 32-bit words in two's complement. |
| SessionBytes.CountedRoundTrip | src/session_store.rs:551-563 | A list written with its count is read back, if its items are and it is not too long. |
| SessionBytes.CountedCanonical | src/session_store.rs:551-563 | Bytes read as a counted list are the ones writing it produces, and the list is within its limit. |
| SessionText.Utf16RoundTrip | src/session_store.rs:1016-1026 | Text survives UTF-16, as sections 2.1 and 2.2 of RFC 2781 define it, for all Unicode scalar values. |
| SessionText.Utf16Canonical | src/session_store.rs:1053-1056 | Units accepted as text are exactly the encoding of that text; unpaired surrogates are not accepted. |
| SessionText.UnitsCodec | src/session_store.rs:1004-1014 | OS strings of at most 32767 units, unpaired surrogates included, are read back as written and conversely. |
| SessionText.TextCodec | src/session_store.rs:1016-1026 | Strings of at most 32767 units are read back as written and conversely. |
| SessionText.OptionRoundTrip | src/session_store.rs:991-1002 | An optional value is read back as written. |
| SessionText.OptionCanonical | src/session_store.rs:1041-1047 | Bytes read as an optional value are the ones writing it produces. |
| SessionFormat.ThemeTable | src/session_store.rs:46-63 | Theme codes, and likewise language codes, are a bijection onto the accepted bytes. |
| SessionFormat.SortTable | crates/domain/src/lib.rs:262-283 | So are the codes of sort fields. |
| SessionFormat.DirectionTable | crates/domain/src/lib.rs:291-306 | So are those of directions. |
| SessionFormat.GroupTable | crates/domain/src/lib.rs:418-441 | So are those of group fields. |
| SessionFormat.ColumnTable | crates/domain/src/lib.rs:454-475 | So are those of columns. |
| SessionFormat.SidebarTable | src/session_store.rs:78-112 | The five visibility bits are a bijection onto the bytes below 32. |
| SessionFormat.ViewModeCodec | src/session_store.rs:845-859 | A view mode and its icon size are read back as written; a code that does not belong to the size, or a size on another view, is rejected. |
| SessionFormat.ColumnsCodec | src/session_store.rs:894-913 | A column layout is read back as written and conversely. |
| SessionFormat.DirectoryPreferenceCodec | src/session_store.rs:861-879 | The same for valid directory preferences; invalid ones are not accepted. |
| SessionFormat.SearchPreferenceCodec | src/session_store.rs:881-892 | The same for search preferences. |
| SessionFormat.DirectoryViewCodec | src/session_store.rs:556-561 | The same for a path with its preference. |
| SessionLayout.SettingsCodec | src/session_store.rs:562-587 | The same for the settings block, with an opacity of at most 100. |
| SessionLayout.TargetRoundTrip | src/session_store.rs:495-513 | A persistable network target is read back as written. |
| SessionLayout.TargetCanonical | src/session_store.rs:940-968 | Bytes read as a target are the ones writing it produces, and the target is a persistable one. |
| SessionLayout.LocationCodec | src/session_store.rs:592-601 | The same for network locations, whose shell path is not stored. |
| SessionLayout.DeviceCodec | src/session_store.rs:606-616 | The same for network devices, whose identity follows from their path. |
| SessionLayout.TabCodec | src/session_store.rs:970-990 | The same for the four kinds of tab locations. |
| SessionLayout.WindowCodec | src/session_store.rs:618-641 | The same for a window with its placement, active tab and tabs. |
| SessionFile.SessionRoundTrip | src/session_store.rs:539-641 | A whole session image is read back, with whatever follows it left over. |
| SessionFile.SessionCanonical | src/session_store.rs:539-641 | A byte string read as a session is the image of that session followed by what is left over. |
| SessionTheorems.NormalisedImage | src/session_store.rs:449-537 | The bytes do not depend on shell paths and device identities. |
| SessionTheorems.DecodeEncode | src/session_store.rs:449-659 | If a session encodes, decoding the bytes gives the session back: every window keeps its tabs and its active tab, if it has it, else the last one, and 0 without tabs; device identities are recomputed from their paths and shell paths dropped; nothing else changes. |
| SessionTheorems.EncodeDecode | src/session_store.rs:449-659 | If bytes decode, the result encodes again, and to the same bytes exactly when every active tab was one the window has, or 0 without tabs; the result differs in nothing but active tabs. |
| SessionTheorems.TabOutOfRange | src/session_store.rs:211-215 | A concrete file that decodes but encodes to another one: a window without tabs whose active tab is 1. |
| SessionFile.ClampedKeepsTabs | src/session_store.rs:208-212 | Clamping keeps every active tab a window has. |
| SessionTheorems.NormalisedSurvives | src/session_store.rs:200-240 | What a session comes back as, field by field. |
| SessionSample.Codes | crates/domain/src/lib.rs:263-475 | The code of every value that has one. |
| SessionSample.SidebarBit | src/session_store.rs:79-85 | Every sidebar flag is the bit at its index. |
| SessionSample.Spelt | src/session_store.rs:1004-1026 | A string is its length in four bytes and its units, low byte first. |
| SessionSample.Word64 | src/session_store.rs:501-521 | A 64-bit number is its low word before its high word. |
| SessionSample.FileWritten | src/session_store.rs:449-537 | The bytes of a session with every kind of part in it, one by one: the order of all fields and how they are spelt. |
| SessionSample.SampleFile | src/session_store.rs:449-659 | That session encodes to that file, and that file decodes to it. |
| SessionRules.Limits | src/session_store.rs:28-32 | How many of each a file may hold. |
| SessionRules.ColumnsMean | crates/domain/src/lib.rs:505-519 | A column layout is valid exactly if it orders all five columns, shows the name and keeps widths from 64 to 4096. |
| SessionRules.PreferencesMean | crates/domain/src/lib.rs:505-560 | A preference is valid exactly if its columns are and icons are 16 to 256 large. |
| SessionRules.BlankMeans | src/session_store.rs:671-671 | A name is blank exactly if all of it is Unicode white space. |
| SessionRules.ServerMeans | crates/domain/src/network.rs:383-425 | A path is a server exactly if it is two slashes or the exact verbatim prefix, a host, and nothing but slashes behind it. |
| SessionRules.SameDevice | src/session_store.rs:677-686 | Two devices are the same exactly if their paths differ only in the case of ASCII letters. |
| SessionRules.DevicesMean | src/session_store.rs:665-692 | What a list of stored network devices has to be: named, at a server, without shell identity, and distinct up to case. |
| SessionRules.TrimmedMeans | src/session_store.rs:785-785 | Trimming takes exactly the slashes at the end. |
| SessionRules.TabMeans | src/session_store.rs:765-792 | What a stored tab has to be, kind by kind. |
| SessionRules.WindowMeans | src/session_store.rs:200-207 | The sizes and the number of tabs a window may have. |
| SessionRules.LocationMeans | src/session_store.rs:694-732 | What a list of stored network locations has to be. |
| SessionRules.ViewsMean | src/session_store.rs:734-747 | What the list of directory preferences has to be. |
| SessionRules.SessionMeans | src/session_store.rs:196-222 | What a session has to be, part by part. |
| SessionPrefix.TailIsLeftOver | src/session_store.rs:539-644 | Bytes appended to an accepted file are left over, untouched. |
| SessionPrefix.PrefixFree | src/session_store.rs:539-644 | No proper prefix and no proper extension of an accepted byte string is accepted. |
| SessionCheck.ValidateDevices | src/session_store.rs:665-692 | Accepts exactly lists of at most 1024 named UNC servers, distinct up to ASCII case, without shell identities. |
| SessionCheck.ValidateLocations | src/session_store.rs:694-732 | Accepts exactly lists of at most 1024 owned, named locations with distinct ids and storable targets. |
| SessionCheck.ValidateDirectoryViews | src/session_store.rs:734-747 | Accepts exactly lists within the limit of valid preferences under distinct storable paths. |
| SessionCheck.ValidateWindow | src/session_store.rs:203-210 | Accepts exactly windows of permitted size with at most 1024 valid tabs. |
| SessionCheck.ClampWindows | src/session_store.rs:200-216 | Accepts exactly 1 to 128 valid windows; every window keeps its active tab if it has it, else gets its last one, and 0 without tabs. |
| SessionCheck.Check | src/session_store.rs:180-240 | Succeeds exactly for valid sessions; the result differs in nothing but active tabs a window does not have. |
| SessionReader.SplitUnits | src/session_store.rs:1078-1081 | Splitting a block into pairs gives the units that reading them one after the other would give. |
| SessionReader.Reader.ReadU8 | src/session_store.rs:1103-1109 | Reads what the specification reads there; the offset never moves back nor past the end, and stays exact on success. |
| SessionReader.Reader.ReadArray | src/session_store.rs:1126-1136 | Fails without moving exactly when too few bytes are left, else takes the next ones. |
| SessionReader.Reader.ReadU16 | src/session_store.rs:1111-1113 | As for `ReadU8`, for 16-bit words. |
| SessionReader.Reader.ReadU32 | src/session_store.rs:1119-1121 | As for `ReadU8`, for 32-bit words. |
| SessionReader.Reader.ReadI32 | src/session_store.rs:1115-1117 | As for `ReadU8`, for signed words. |
| SessionReader.Reader.ReadU64 | src/session_store.rs:1123-1125 | As for `ReadU8`, for 64-bit words. |
| SessionReader.Reader.ReadBool | src/session_store.rs:1095-1101 | As for `ReadU8`; bytes other than 0 and 1 are rejected. |
| SessionReader.Reader.ReadUnits | src/session_store.rs:1066-1084 | Checking the whole block first accepts the same inputs as reading unit by unit. |
| SessionReader.Reader.ReadText | src/session_store.rs:1053-1056 | Accepts exactly well-formed UTF-16. |
| SessionReader.Reader.ReadOptionalUnits | src/session_store.rs:1041-1047 | Meets the specification of optional OS strings. |
| SessionReader.Reader.ReadOptionalText | src/session_store.rs:1058-1064 | Meets that of optional strings. |
| SessionReader.Reader.ReadViewMode | src/session_store.rs:845-859 | Meets that of view modes. |
| SessionReader.Reader.ReadColumns | src/session_store.rs:894-913 | Meets that of column layouts. |
| SessionReader.Reader.ReadDirectoryPreference | src/session_store.rs:861-879 | Meets that of directory preferences, validation included. |
| SessionReader.Reader.ReadSearchPreference | src/session_store.rs:881-892 | Meets that of search preferences. |
| SessionReader.Reader.ReadDirectoryViews | src/session_store.rs:551-561 | Meets that of the list of directory preferences, and rejects an oversized count before reading on. |
| SessionReader.Reader.ReadEverything | src/session_store.rs:566-571 | Meets that of the Everything settings. |
| SessionReader.Reader.ReadSettings | src/session_store.rs:562-587 | Meets that of the settings block. |
| SessionReader.Reader.ReadConnection | src/session_store.rs:945-965 | Meets that of WebDAV connections, incomplete ones rejected. |
| SessionReader.Reader.ReadTarget | src/session_store.rs:940-968 | Meets that of network targets. |
| SessionReader.Reader.ReadLocations | src/session_store.rs:588-601 | Meets that of the list of locations. |
| SessionReader.Reader.ReadDevices | src/session_store.rs:602-616 | Meets that of the list of devices. |
| SessionReader.Reader.ReadTab | src/session_store.rs:970-990 | Meets that of tab locations. |
| SessionReader.Reader.ReadTabs | src/session_store.rs:626-635 | Meets that of the list of tabs. |
| SessionReader.Reader.ReadWindows | src/session_store.rs:618-641 | Meets that of the windows. |
| SessionReader.Reader.ReadBody | src/session_store.rs:543-641 | Meets that of the whole file behind its magic. |
| SessionReader.DecodeSession | src/session_store.rs:539-659 | Accepts exactly the byte strings the specification decodes, with its result. |
| SessionWriter.Writer.WriteUnits | src/session_store.rs:1004-1014 | Fails exactly beyond 32767 units, else appends the specified bytes and touches nothing written before. |
| SessionWriter.Writer.WriteText | src/session_store.rs:1016-1026 | The same for text. |
| SessionWriter.Writer.WriteOptionalUnits | src/session_store.rs:991-1002 | The same for optional OS strings. |
| SessionWriter.Writer.WriteOptionalText | src/session_store.rs:1028-1039 | The same for optional text. |
| SessionWriter.Writer.WriteColumns | src/session_store.rs:835-843 | Appends the specified bytes of a column layout. |
| SessionWriter.Writer.WriteDirectoryPreference | src/session_store.rs:817-825 | Appends the specified bytes of a directory preference. |
| SessionWriter.Writer.WriteSearchPreference | src/session_store.rs:827-833 | Appends those of a search preference. |
| SessionWriter.Writer.WriteDirectoryViews | src/session_store.rs:471-475 | Fails exactly if some path is too long, else appends the specified list. |
| SessionWriter.Writer.WriteSettings | src/session_store.rs:476-488 | The same for the settings block. |
| SessionWriter.Writer.WriteTarget | src/session_store.rs:494-514 | Fails exactly for shell items and strings that are too long. |
| SessionWriter.Writer.WriteLocations | src/session_store.rs:489-515 | The same for the list of locations. |
| SessionWriter.Writer.WriteDevices | src/session_store.rs:516-524 | Fails exactly if a device has no path or a string is too long. |
| SessionWriter.Writer.WriteTab | src/session_store.rs:915-938 | Fails exactly if a string is too long, else appends the specified bytes. |
| SessionWriter.Writer.WriteWindows | src/session_store.rs:526-536 | The same for the windows. |
| SessionWriter.Writer.WriteSession | src/session_store.rs:466-537 | The bytes written one part after the other are the image of the session. |
| SessionWriter.EncodeSession | src/session_store.rs:449-537 | Succeeds exactly when the specification encodes, with its bytes. |
| RowModel.BuildLayout | src/app/directory_model.rs:189-214 | Rows are the groups in order, each header before its entries; positions give the last row of every id; headers are 32 high, or 48 with a detail; tops are the running sums of heights, the extent their total. |
| RowModel.GroupedLayout | src/app/directory_model.rs:189-214 | Built from what grouping gives, positions are the exact inverse of the rows and know exactly the ids that were given. |
| RowModel.BuiltAgain | src/app/directory_model.rs:189-214 | Building rows that already have a correct layout gives that layout. |
| RowModel.LayoutUnique | src/app/directory_model.rs:189-214 | The rows determine positions, tops, heights and extent. |
| RowModel.PlainGeometry | src/app/directory_model.rs:434-439 | Without headers, row i begins at i row heights and the extent is the row count in row heights. |
| RowSequences.LastInPlace | src/app/directory_model.rs:361-367 | If the rows shown are a subsequence of distinct new rows and the last one stands where its index says, then all of them are exactly the first ones: the tail-only shortcut is right. |
| RowSequences.CoverCounts | src/app/directory_model.rs:366-377 | Shown and new places that cover the batch between them add up to its length. |
| RowAppend.SameLengthMeansNoHeaders | src/app/directory_model.rs:358-360 | Comparing the number of positions with the number of rows tells exactly whether there are headers. |
| RowAppend.CanAppendMeans | src/app/directory_model.rs:358-387 | A batch is taken exactly if the list shows only entries, no more than the batch has; its last row is in its place in the batch or every known entry of the batch is shown; and nothing is new, the entries are not held elsewhere, or there are none. |
| RowAppend.DirectoryRows.TakeEntries | src/app/directory_model.rs:393-423 | Exactly the new entries join entries, index and marks; replaying the announced ranges in order on the old rows gives the new rows. |
| RowAppend.DirectoryRows.Rewrite | src/app/directory_model.rs:424-440 | Rows, positions, tops and extent from the first new row on are written anew, the rest is kept. |
| RowAppend.DirectoryRows.Commit | src/app/directory_model.rs:388-440 | The new rows are the batch, with a correct layout, and the announcements replay to them. |
| RowAppend.DirectoryRows.AppendPending | src/app/directory_model.rs:352-455 | Succeeds exactly unless the list is grouped or longer than the batch, an entry is known but not shown, or the entries are held elsewhere; on failure nothing changed and nothing is announced. Besides the new rows exactly the two ids between which the focus moved are announced. |
| RowAppend.AppendedIsRebuilt | src/app/directory_model.rs:352-455 | After a successful append rows, positions, tops, heights and extent equal those of a model built from scratch. |
| RowReplace.FindChanged | src/app/directory_model.rs:467-492 | The rows noted as changed are exactly those among the common ones that differ in a compared field. |
| RowReplace.ReplaceFrom | src/app/directory_model.rs:457-521 | The states are swapped and the announcements are those of the two states; replacing a model by itself does nothing. |
| RowReplace.NotifiedRow | src/app/directory_model.rs:514-520 | A changed entry is announced where its id stands in the new list, which is the changed row. |
| RowReplace.WebDavFileEntry | src/app/directory_loading.rs:717-747 | An entry made from a listed WebDAV item has the empty path and is named by the last segment of the item's path. |
| RowReplace.LeafOfItem | crates/webdav/src/path.rs:56-66 | The file name of an item's canonical path is its last segment. |
| RowReplace.SameExtension | src/app.rs:19616-19630 | Entries that compare equal name the same extension in the kind column, although the comparison never looks at WebDAV items. |
| RowReplace.AppendKeepsListed | src/app/directory_model.rs:393-398 | Appending listed entries keeps that every entry of the model is one. |
| RowReplace.NoStaleRow | src/app/directory_model.rs:457-521 | A view of the old rows that follows the announcements shows exactly the new rows: no row is ever stale. |
| RowCells.ExtensionMeans | src/app.rs:19616-19630 | The extension is what follows the last dot, unless that is empty or the dot begins the name. |
| RowCells.FileNameMeans | src/app.rs:19621-19621 | A path's file name is its last component. |
| RowCells.CanonicalMeans | crates/webdav/src/path.rs:56-66 | A WebDAV path is its segments, each with a slash in front. |
| RowCells.KindMeans | src/app.rs:19616-19630 | A file of a WebDAV listing names the extension of its own name, another file that of its path, and a folder none. |
| RowCells.CellMeans | src/app/directory_model.rs:119-130 | A row shows its header, or the update for its id and only without one the entry of the snapshot, with the marks of its id and path. |
| RowCells.DiffersMeans | src/app/directory_model.rs:467-492 | Rows compare equal exactly if they are the same header, or show known entries of one id that look alike: no row is announced for nothing. |
| RowCells.NotesMean | src/app/directory_model.rs:457-521 | Announced are exactly the rows gone at the end or new there, if any, and the common rows that do not compare equal. |
| NetworkLoop.NetworkDirectoryScheduler.constructor | src/app/directory_loading.rs:299-300 | The scheduler starts empty, with open input. |
| NetworkLoop.NetworkDirectoryScheduler.Push | src/app/directory_loading.rs:52-54 | A request joins the end of the queue. |
| NetworkLoop.NetworkDirectoryScheduler.Complete | src/app/directory_loading.rs:56-58 | A completion frees its key. |
| NetworkLoop.NetworkDirectoryScheduler.NextReady | src/app/directory_loading.rs:60-68 | Hands out the first request that may run, and none only if every request not seen cancelled waits for a busy key. |
| NetworkLoop.NetworkDirectoryScheduler.Position | src/app/directory_loading.rs:61-64 | Finds the first pending request with a free key that is not seen cancelled. |
| NetworkLoop.NetworkDirectoryScheduler.TakeCancelled | src/app/directory_loading.rs:70-82 | Removes exactly the requests seen cancelled, in order, and keeps the others in order. |
| NetworkLoop.NetworkDirectoryScheduler.Interfere | src/app/directory_loading.rs:247-295 | Any number of workers finish and requests are cancelled at any time; the scheduler's own fields stay. |
| NetworkLoop.NetworkDirectoryScheduler.Look | src/app/directory_loading.rs:60-82 | A look at the cancellation flags sees everything cancelled before it began, and of what is cancelled meanwhile any part. |
| NetworkLoop.NetworkDirectoryScheduler.CollectCompletions | src/app/directory_loading.rs:302-304 | Every completion that was waiting is collected, in order, with anything happening in between; it is a run of the transition system. |
| NetworkLoop.NetworkDirectoryScheduler.StartReady | src/app/directory_loading.rs:311-318 | Starts work, looking at the cancellations anew for each request and with anything happening in between, until every worker is busy or nothing may run as of the last look. |
| NetworkLoop.NetworkDirectoryScheduler.TakeRequests | src/app/directory_loading.rs:348-363 | Of the requests that came in exactly those with a network key join the queue, in order; others are refused. |
| NetworkLoop.NetworkDirectoryScheduler.AwaitMore | src/app/directory_loading.rs:319-363 | The waits: for a completion while work is left, else for the input; then everything that came in. The input closes exactly if its sender is gone, nothing came in and no work is left. |
| NetworkLoop.NetworkDirectoryScheduler.Round | src/app/directory_loading.rs:301-364 | One round, interleaved with workers and cancellations, is a run of the transition system and keeps the invariant. Completions waiting at its start are collected; where it had handed out work, every request pending and cancelled at its start is reported and gone, and no worker is free beside a request that could start. Once input is closed and workers have finished, it ends the loop or leaves fewer requests, or more of them cancelled. |
| NetworkLoop.NetworkDirectoryScheduler.RunOut | src/app/directory_loading.rs:301-364 | After the input closes, rounds between which workers finish bring the loop to its end, whatever is cancelled meanwhile. |
| NetworkLoop.RoundIsSooner | src/app/directory_loading.rs:301-364 | Why a round with closed input and idle workers gets closer to the end. |
| NetworkScheduler.ClosedRun | src/app/directory_loading.rs:301-364 | With closed input neither the number of pending requests nor that of uncancelled ones ever grows. |
| NetworkScheduler.FirstReady | src/app/directory_loading.rs:61-64 | The result may run, nothing before it may, and there is none only if nothing may. |
| NetworkScheduler.SweepSplits | src/app/directory_loading.rs:70-82 | Sweeping splits the queue: kept and reported requests together are those that were there. |
| NetworkScheduler.StepKeepsInv | src/app/directory_loading.rs:301-364 | Every action keeps: requests are accounted for, keys in flight are `active` and distinct, the queue is in arrival order. |
| NetworkScheduler.RunKeepsInv | src/app/directory_loading.rs:301-364 | Hence it holds over every run. |
| NetworkScheduler.OnePerKey | src/app/directory_loading.rs:45-68 | No two requests in flight share a key, and at most `worker_count` are in flight. |
| NetworkScheduler.ArrivalOrderPerKey | src/app/directory_loading.rs:60-82 | Requests of one key start in arrival order; one that was passed over was cancelled. |
| NetworkScheduler.ExactlyOnePlace | src/app/directory_loading.rs:298-365 | Every request that arrived is in exactly one of pending, in flight, completed or reported cancelled. |
| NetworkScheduler.EndOwesNothing | src/app/directory_loading.rs:301-301 | When the loop ends nothing is in flight and everything that arrived was completed or reported cancelled. |
| NetworkScheduler.ClosedNeverStuck | src/app/directory_loading.rs:301-364 | With closed input and at least one worker there is always an action, other than a cancellation, that brings the end closer. |
| NetworkScheduler.ClosedInputDrains | src/app/directory_loading.rs:301-364 | After input closes the loop can be driven to its end from every state of the invariant, in a bounded number of actions. |
| NetworkScheduler.WorkOnlyFalls | src/app/directory_loading.rs:301-364 | Only new requests make the work grow; every start, finish and collected completion makes it fall. |
| Calendar.NextYear | src/group_projection.rs:483-495 | The reference calendar, proleptic Gregorian as in section 3.2.1 of ISO 8601:2004, has no gap between years. |
| Calendar.OneMonth | src/group_projection.rs:483-495 | In the reference calendar a day lies in one month of one year only. |
| Calendar.YearFound | src/group_projection.rs:487-488 | Inside an era the division formula finds the March-based year the day falls into. |
| Calendar.CivilIsRight | src/group_projection.rs:483-495 | From day -719468 on the result is the year and month the day lies in. |
| Calendar.CivilIsLate | src/group_projection.rs:485-486 | Before it, the result is the month of the next day, unless that is March 1. |
| Calendar.CivilIsNear | src/group_projection.rs:483-495 | For every day number the result is the month of that day or of the next one. |
| Calendar.CivilRightExactly | src/group_projection.rs:483-495 | The result is right exactly from day -719468 on, or on a day that does not end a month other than February. |
| Calendar.JanuaryTakenForFebruary | src/group_projection.rs:485-486 | A concrete day before the bound with a wrong month. |
| DateBuckets.LocalDayRightExactly | src/group_projection.rs:467-475 | While nothing saturates, the local day is right except exactly for times before the epoch that lie less than a second before a local midnight. |
| DateBuckets.BeforeTheEpoch | src/group_projection.rs:467-475 | A concrete time that is counted to the day after its own. |
| DateBuckets.LocalDayRises | src/group_projection.rs:467-475 | Later times never fall on earlier days, whatever is truncated or saturated. |
| DateBuckets.WeekdaysTurn | src/group_projection.rs:497-499 | The epoch is a Thursday, weekdays turn every seven days, and the week start computed from them is a Monday of the same week. |
| DateBuckets.RankNeverFalls | src/group_projection.rs:396-457 | The rank of the bucket never falls as a day gets older, across week, month and year ends, for all days and every today. |
| DateBuckets.OlderRanksHigher | src/group_projection.rs:386-458 | The rank of `date_bucket` never falls as a time gets older, whatever is truncated or saturated, and an unknown time ranks last. |
| DateBuckets.BucketsMean | src/group_projection.rs:396-457 | Every bucket, exactly: future, today and yesterday by the day; this week and last week by weeks from Monday; this month, last month, this year and long ago by the months and years of the reference calendar, for days whose date is right. |
| DateBuckets.TimesBelong | src/group_projection.rs:386-458 | The same of `date_bucket` on times, for times whose local day is right: a time has the bucket its day belongs to, and an unknown time none of them. |
| DateBuckets.MonthsCompared | src/group_projection.rs:410-411 | Months and years of right dates compare as those of the calendar. |
| DateBuckets.SaturatedIsNearest | src/group_projection.rs:467-475 | Saturation gives the nearest number that fits 64 bits. |
| DateBuckets.FarTimes | src/group_projection.rs:467-475 | Times beyond 64 bits of seconds count as the last second that fits; other days contain their saturated second. |
| Grouping.GroupProjectionBuilder.constructor | src/group_projection.rs:39-51 | A builder starts with nothing given. |
| Grouping.GroupProjectionBuilder.Extend | src/group_projection.rs:53-71 | The groups are those of all entries given so far, however they were split. |
| Grouping.GroupProjectionBuilder.Finish | src/group_projection.rs:73-79 | One group per sort key in use, in key order or reversed, entries in arrival order, the label of the first entry. |
| Grouping.KeyOrder | src/group_projection.rs:273-277 | Sort keys, by rank and then by text, are a strict total order. |
| Grouping.BatchesDoNotMatter | src/group_projection.rs:53-79 | Any two splits of the same entries give the same groups in the same order. |
| Grouping.FirstsAre | src/group_projection.rs:54-57 | Of the entries given, the first under each id counts, and every id is kept. |
| Grouping.EachIdOnce | src/group_projection.rs:53-71 | No id is in two groups. |
| Grouping.GivenIsGrouped | src/group_projection.rs:53-71 | Every id given is in some group. |
| Grouping.NoIdTwice | src/group_projection.rs:53-71 | No id is twice in one group. |
| Grouping.FinishedIds | src/group_projection.rs:53-79 | The finished groups together list every id given exactly once. |
| GroupRows.GroupedPositions | src/group_projection.rs:161-190 | Positions that give the last row of every id are, for finished groups, the exact inverse of the entry rows and known for exactly the ids given. |
| GroupRows.GroupStands | src/group_projection.rs:161-180 | Every group stands right behind those before it: its header, if shown, with key, title, detail and count, then its entries in order. |
| Projection.FromExtents | src/group_projection.rs:119-130 | Starts and total are the running sums of the extents, capped at 64 bits. |
| Projection.RowsFollow | src/group_projection.rs:119-130 | The first row starts at 0, and every row where the one before it ends, or at the largest 64-bit number. |
| Projection.LocateIsExact | src/group_projection.rs:136-145 | An offset is located exactly if it lies before the capped total; then in the row that holds it when counted without limits, start plus offset within the row being the offset and the latter inside the row. |
| Projection.OneRowHolds | src/group_projection.rs:136-145 | No other row holds it. |
| Projection.ListFromGroups | src/group_projection.rs:156-186 | Rows are the groups in order with their headers, measured by their kind, and every listed id has a position that shows it. |
| Projection.PositionsInvert | src/group_projection.rs:188-190 | For finished groups a row shows an id exactly if it is the id's entry position, and exactly the ids given have one. |
| Projection.ChunksCut | src/group_projection.rs:242-242 | Chunks cut a group in order; every one but the last is full. |
| Projection.GridFromGroups | src/group_projection.rs:221-266 | The same for a grid, with at least one column. |
| Projection.GridGroupStands | src/group_projection.rs:231-262 | Every group of a grid stands right behind those before it: its header, if shown, then its chunks under its key. |
| Projection.CellsInvert | src/group_projection.rs:268-270 | For finished groups a cell shows an id exactly if it is the one found for the id, and exactly the ids given have one. |
| Projection.OneCell | src/group_projection.rs:242-258 | No id has two cells. |
| RowGeometry.DenseRangeIsTouching | src/app/directory_model.rs:159-173 | For every viewport the dense range is exactly the rows whose closed extent meets it. |
| RowGeometry.CutsUnique | src/app/file_row_index.rs:178-203 | There is only one such range. |
| RowGeometry.RowTopIsTop | src/app/file_row_index.rs:169-176 | The sparse formula gives the top a walk over all rows gives. |
| RowGeometry.RowAt | src/app/file_row_index.rs:154-167 | The walk over headers finds the row that holds the point, or the last row. |
| RowGeometry.RowsBetween | src/app/file_row_index.rs:179-203 | The sparse answer is the dense range, for every viewport, empty and outlying ones included. |
| RowGeometry.BuildTable | src/app/file_row_index.rs:45-64 | The table stands for the rows it was built from: every header with its height, every other row one row height, and the recorded positions. |
| RowGeometry.ExtentIsSum | src/app/file_row_index.rs:206-216 | The extent is the sum of all heights. |
| ImageCache.BoundedImages.constructor | src/app/icon_cache.rs:49-55 | A new cache is empty. |
| ImageCache.BoundedImages.Insert | src/app/icon_cache.rs:69-87 | The key becomes the newest with its new image; a new key pushes out only the oldest ones needed; `order` stays a duplicate-free listing of the keys. |
| ImageCache.BoundedImages.EvictForRoom | src/app/icon_cache.rs:78-84 | Exactly the newest keys that leave room for one more stay. |
| ImageCache.BoundedImages.RenamePaths | src/app/icon_cache.rs:89-107 | In whatever order the table iterates, images under the old path move to the new one or go, images under the new path go, every other key keeps its image and its place in the order, and nothing is evicted. |
| ImageCache.AfterIsNewest | src/app/icon_cache.rs:69-87 | After any sequence of writes the cache holds the keys written last, as many as there is room for, each with its last image. |
| ImageCache.BehindIsSince | src/app/icon_cache.rs:69-87 | Behind a key in the order stand exactly the keys written since. |
| ImageCache.GetIsLastWrite | src/app/icon_cache.rs:57-87 | A lookup gives the last image written to the key exactly when fewer distinct other keys have been written since than there is room for. |
| Breadcrumb.RetainAncestors | src/app/breadcrumb_layout.rs:50-60 | The loop stops at the longest suffix, from index 2 on, that fits beside what is reserved. |
| Breadcrumb.PlaceAncestors | src/app/breadcrumb_layout.rs:65-70 | Retained ancestors are placed one behind the other. |
| Breadcrumb.ReserveFits | src/app/breadcrumb_layout.rs:44-51 | What is reserved for root, overflow button and current item is never negative and never exceeds the budget. |
| Breadcrumb.ReserveShares | src/app/breadcrumb_layout.rs:45-49 | Button, gaps, root and current item each get the largest share under their limits, 44, 2, 180 and 320, a third of what is left, and no others. |
| Breadcrumb.SpanIsSum | src/app/breadcrumb_layout.rs:53-60 | Ancestors take their widths, at most 180 each, and 2 in front of each. |
| Breadcrumb.FullIsEnd | src/app/breadcrumb_layout.rs:24-25 | Everything fits exactly if the last item, shown in full, ends inside the budget. |
| Breadcrumb.LayoutAll | src/app/breadcrumb_layout.rs:25-32 | If everything fits everything is shown at full width. |
| Breadcrumb.LayoutFew | src/app/breadcrumb_layout.rs:33-43 | One item takes the budget; of two the first takes its width up to a third of what the gap leaves, the second its width up to the end. |
| Breadcrumb.LayoutOverflow | src/app/breadcrumb_layout.rs:44-75 | With three or more items shown and hidden indices partition them, everything is ordered, disjoint and inside the budget; the suffix is maximal from index 2 on, the places and widths of root, button, ancestors and current item are exact, and the current item gets at least its reserve. |
| Breadcrumb.Layout | src/app/breadcrumb_layout.rs:11-76 | All of this for every list of widths and every budget, negative values counting as zero. |
| Breadcrumb.LongestUnlessFirstFits | src/app/breadcrumb_layout.rs:53-60 | The suffix the policy shows is the longest of all exactly if the one from index 1 does not fit beside what is reserved; if it fits, the second item is the only one hidden. |
| Breadcrumb.SecondHiddenThoughItFits | src/app/breadcrumb_layout.rs:53-61 | Concrete widths where whatever meets the policy hides the second item though it would fit. |
| Workspace.Reachable | tools/check_workspace.py:28-36 | Ends on every graph, cyclic ones included, with exactly the nodes reachable by one or more edges. |
| Workspace.ForbiddenReach | tools/check_workspace.py:44-44 | The forbidden names found are exactly those some reachable package bears. |
| Workspace.ForbiddenDirect | tools/check_workspace.py:48-48 | The forbidden names found are exactly those some direct dependency bears. |
| Workspace.EdgesMean | tools/check_workspace.py:17-23 | An edge of the graph is a dependency, one of whose kinds is `None`, of the last node with the id. |
| Workspace.MembersMean | tools/check_workspace.py:16-16 | The member of a name is the last one with it. |
| Workspace.MissingMembers | tools/check_workspace.py:39-42 | Exactly the members that are not there are reported. |
| Workspace.DomainBoundary | tools/check_workspace.py:43-46 | One violation, naming all that crosses it, exactly if the boundary of the domain is crossed. |
| Workspace.ApplicationBoundary | tools/check_workspace.py:47-50 | The same for what the application uses directly. |
| Workspace.UiBoundary | tools/check_workspace.py:51-56 | The same for the UI. |
| Workspace.Inspect | tools/check_workspace.py:14-65 | Passes exactly if every member is there and none reaches or uses what it must not; otherwise reports exactly the missing members and the crossed boundaries, each with all that crosses it. |

## Left out

- LibraryLoop.SourceLoop.TakeRequests: source indices are distinct within a request, as the only caller takes them from `enumerate` (src/app.rs:4322-4327); the scheduler itself does not check it.
- LibraryLoop.SourceLoop.Interfere: a cancellation check and the use made of it are one action; a cancellation landing between them is the same run with the cancellation moved after the use.
- LibraryLoop.SourceLoop.Pass: a pass in which entry numbers would exceed 32 bits panics in the code; it is reported as panicked and nothing is said about what follows.
- LibraryEnding.EveryRunStops: from when all workers have reported; that readers return after cancellation is up to them.
- WatchConservation.NothingIsForgotten: a submitted refresh ends the pump's responsibility even if `submit_navigation` refuses it; its inside is not part of this model. The disk read that agrees is the one made for the probe; a file may change again after being read.
- WatchLoop.Pump.Pass: a poisoned lock, a closed event channel and an event loop that is gone end the pump in the code and do not occur here; `failed_roots` and the audit log are not modelled.
- RowAppend.DirectoryRows.AppendPending: assumes distinct ids and that the rows shown are a subsequence of the batch, as its caller guarantees for partial listings.
- RowReplace.ReplaceFrom: images that are carried over or evicted are not part of this model.
- RowReplace.NoStaleRow: for entries as listings produce them: local ones have a path, and a WebDAV item's name is the last segment of its path (crates/webdav/src/xml.rs:286-297, src/app/directory_loading.rs:717-747).
- DateBuckets.BucketsMean: before day -719468 the clauses about months and years speak only of days whose civil date is right.
- NetworkLoop.NetworkDirectoryScheduler.RunOut: workers are taken to finish what they run between two rounds; one that never returns keeps the loop from ending.
- NetworkScheduler.ExactlyOnePlace: reported means handed to the `try_send` of the cancelled event, which a full channel drops (src/app/directory_loading.rs:305-310).
- RowGeometry.RowsBetween: arithmetic over the reals; rounding and non-finite values of 32-bit floats are left out.
- RowGeometry.BuildTable: header heights are taken to be positive, as the callers' fixed header heights are.
- Breadcrumb.Layout: the same as for `RowGeometry.RowsBetween`; widths that are not finite count as zero in the code.
- SessionCheck.ValidateDirectoryViews: when two paths are equal is left to a function from OS strings, which stands for the platform's path comparison.
- SessionReader.DecodeSession: all errors are one; which message is given is not modelled.
- Workspace.Inspect: the graph is closed under dependencies and every id has a name, as cargo metadata has it; otherwise the script raises `KeyError`.
- Threads, channels, joins, timeouts and panicking workers are nondeterministic steps of the transition systems.
- Writing session files, diagnostics, and the sidebar's toggles: plumbing around the codec.
- `DirectoryGrid`, slices, `patch_selection`, `patch_entries` and `set_row_data` of the row model: they rewrite single rows.
- `install`, `locate` and identity checks of the row index: a registry of live models.
- Name, kind and size buckets: tables without arithmetic across days.
- The map of ordinary icons in the icon cache, images, Slint models, windows, GPU surfaces and text formatting.
- File operations, undo, drag and drop and the operation queue: they drive the file system, and their queue is not part of this model.
