# ForgeBuild: a verified model

ForgeBuild is an incremental parallel build engine. This project models its core in Dafny and proves that it does
what it is for: after any history of edits, deletions, lost logs, damaged caches, failures and crashes, a run that
reports success, or that reports nothing to build, leaves the files that a full serial build of the requested targets
would leave. For well-behaved commands, and whatever keys and hashes the cache uses, this is so exactly when no command
can get a stale hit: when whatever is stored under a key is what every command that looks under it would write
(`CacheTheorem`). With the keys of the code, and as long as texts hold no NUL characters and the hash does not collide
on what the history stores and looks for, it is so exactly when the depfile of every cached command lists all that
decides its output (`CodeKeys`); with NUL characters this is not enough (`GluedHit`).

Nothing here is compiled or executed. The command is `dafny verify dfyconfig.toml`.

## How the parts fit together

- `Graphs`, `BuildGraph`, `Parser`, `EdgeScans`: the build graph, how the manifest parser establishes its
  invariants, and what they mean for dependencies, cycles and topological orders.
- `Planner`: Kahn's algorithm, sound and complete. `Builder`: the three staleness checks, the target closure, the
  dirty worklist, and `build`.
- `Scheduler`: the critical sections of the scheduler, performed in place. `SchedulerSteps`: the scheduler as a step
  system of one main thread and any number of workers, with program counters, sleeping threads and spurious wakeups;
  its critical-section steps are the relations that the class methods of `Scheduler` are proved to realise.
  `SchedulerSafety`, `SchedulerProgress`, `SchedulerTermination`, `SchedulerTotal`, `SchedulerResults`: the inductive
  invariant, no deadlock and no lost wakeup, a bound on the length of runs, total correctness on acyclic plans and
  hanging on cyclic ones, and what follows over whole runs.
- `World`: files with contents and times, commands as functions of what they read. `Cache`: the files of the local
  cache as a value. `CachedEdges`: `execute_edge` with the cache as a relation between disks, what a stale hit is, and
  what a hit leaves; the scheduler's workers step by this relation. `StaleHits`: when hits are runs, and what remains of
  stale hits where keys tell entries apart.
- `Execution`: there is only one consistent outcome of a plan. `ScheduledBuild`: a successful parallel run reaches it,
  under every schedule and with cache hits anywhere. `SerialBuild`: so does the serial executor.
- `Incremental`: an incremental build equals a full one; when building again finds nothing to do.
- `History`, `HistoryInvariant`, `HistoryResults`: many runs over one build directory and its cache, each stopped at any
  step; the marker protocol. `Session`: `main` itself, over the log objects and the atomic writes of `FileSystem`, proved
  to follow the steps of `History` and to leave exactly the files it should. `SessionResults`: what its two ends are worth.
- `OneEdgeRun`, `OneEdgeHistory`: whole runs over manifests of one edge, and edits between them. `StaleHistory`: from any
  stale hit, a history that commits it. `CacheTheorem`: the exact condition. `LeftoverHistory`: a history whose last
  commit leaves its edge stale.
- `LineFormat`, `BuildLog`, `DepsLog`, `FileSystem`: the persistent formats and the atomic write.
- `Hash`, `CommandChange`, `CacheKey`: FNV-1a, what it means for changed commands, and the framed key stream.
  `CodeKeys`: the condition for the keys of the code. `GluedHit`, `StaleBuild`: a stale hit by NUL characters, and one by
  a depfile that leaves out an input. `Sample`: an edge that meets all assumptions, with the real hash.
- `LocalCache`, `Executor`: the two-file cache and `execute_edge`, performed in place. `EdgeSteps`: what the executor
  does to one edge is what a worker's step does in the scheduler.
- `Text`, `Commands`, `Depfile`: trimming, splitting, replacing, the two-step substitution of `$in` and `$out`, and
  depfiles. `ManifestText`: how rules and build statements are written down, and that the parser reads them back.

## Standing assumptions

They are hypotheses of the theorems (`World.ValidWorld`, `World.Disciplined`, `HistoryInvariant.Printable`), not facts
about the code. `Sample.AssumptionsAreConsistent` shows that they do not contradict each other, for a cacheable edge
with a dependency that only its depfile names, and with 64-bit FNV-1a for keys and contents.

- A command writes its declared outputs and its depfile only, all outputs when it succeeds, as a function of what it
  reads (`Deterministic`). It reads at its start and writes at its end. Compilers do not change during a history.
- What a command reads is a declared input or is listed in its depfile (`Reported`).
- A depfile's target is an output of its own edge (`OwnTargets`). A generated file in a depfile comes from an edge that
  the manifest orders before the reader (`Ordered`).
- The expanded command text determines the declared inputs and outputs (`Declared`), and no two commands of the manifests
  of a history share a hash in the build log (`CollisionFree`).
- Theorems about what files hold after a build ask for one thing more: no stale hits (`CachedEdges.NoStaleHits`), among
  the commands of the manifests and the contents that occur in the history; which contents these are is a parameter, and
  all of them is one choice. `CacheTheorem.ReportsAreTrueIffNoStaleHits` shows that this cannot be dropped or weakened.
  Nothing is assumed about the key function and the content hash. What is said about logs, markers, time stamps, files
  outside the plan, building again, and where contents, records and cache entries come from holds with any cache.
- Edges of a plan are distinct, which `Builder.Build` provides.
- Modification times do not run backwards, a run starts later than every existing file was stamped, and nobody edits
  files while a build runs. Between runs, no generated file is overwritten by hand so that the checks take it for what
  its command wrote; `HistoryResults.OverwrittenOutputIsKept` shows why.
- Files of the cache may be lost or damaged at any time between runs, in ways that size and hash reveal;
  `Cache.DamageIsDecay` says which damage that is.
- Paths written to the logs contain no newline, and no tab for the build log; exactly these survive
  (`BuildLog.RoundTrip`, `DepsLog.RoundTrip`).

## Where the code falls short of what one would expect

- Building again after a success is not always a no-op. Leftover records, which a rule without a depfile or another
  command left under an output, count as dependencies. One that names a missing source keeps its edge stale for ever
  (`Incremental.MissingLeftoverStays`; `LeftoverHistory.LeftoverIsCommitted` is a case). One that names a file which is
  generated by an edge that is no ancestor leaves its edge stale whenever the same run writes that file later.
  `Incremental.NoOpRebuild` has the exact condition.
- The cache key covers the depfile's list only. A change of a file is noticed exactly when the list names the file
  (`StaleHits.ChangeIsNoticedIffListed`). A command whose depfile leaves out a declared input that matters can get its
  old output back; some history then commits it, and reports nothing to build from then on
  (`StaleHistory.StaleHitIsCommitted`; `StaleBuild.StaleOutputIsCommitted` is a case).
- The record that leads to a hit need not be one that the command itself left. A hit leaves it in place, and it is the
  record of a run exactly where lists cannot be stale (`StaleHits.HitsAreRunsIff`).
- The key stream is ambiguous: a dependency that holds the bytes standing between two others, NULs included, gives the
  same stream as these two. Only lists without dependencies, and those of one dependency without such bytes, are read in
  one way (`CacheKey.ReadOneWayIff`). So even a deterministic command that reads nothing but what its depfile lists can
  get a stale hit, and some history commits it, whatever the hash is (`GluedHit.ReadingDepsIsNotEnough`): it runs where
  `a` holds these bytes and lists `a` alone, then, after the logs got lost, where `a` does not and lists `a` and `b`, and
  finds its first output when both are empty.
- An edit that leaves an older or equal time stamp can go unnoticed; `HistoryResults.EditIsNoticedIff` says when.
- On a cyclic plan `run` would hang (`SchedulerTotal.HangsIffCyclic`); the planner lets none pass.
- `$in` and `$out` are replaced one after the other; `Commands.SequentialIsSimultaneous` says exactly when that differs
  from replacing both at once, `Commands.DollarInInputIsRewritten` gives a case.
- A depfile target is not trimmed: any white space before the colon becomes part of it (`Depfile.SpaceBeforeColonStays`).
- The message about an empty rule name cannot occur (`Parser.RuleLineHasName`).

## Model

| member | source | states |
|---|---|---|
| EdgeScans.DependsOnScan | src/edge.cpp:221-238 | the nested scan answers yes exactly when some input of the edge is an output of the other |
| EdgeScans.NeedsBuild | src/edge.cpp:21-55 | answers yes exactly when the builder would report a file-state reason for the edge |
| Graphs.DependencyViews | src/edge.cpp:221-238 | in a valid graph, following `in_edge` from the consumer, `out_edges` from the producer, and `depends_on` see the same dependencies |
| Graphs.OneProducer | src/build_graph.cpp:66-76 | two edges with a common output are the same edge |
| Graphs.NoSourceGivesCycle | src/build_planner.cpp:197-206 | a non-empty set of edges in which every edge needs another one of the set contains a closed walk from consumer to producer |
| Graphs.AcyclicIffSources | src/build_planner.cpp:197-206 | a set of edges has no closed walk exactly when every non-empty part of it has an edge that needs nothing of that part |
| Graphs.TopologicalIsAcyclic | src/build_planner.cpp:152-209 | an order in which no edge needs itself or a later edge exists only for an acyclic set |
| Graphs.AcyclicHasOrder | src/build_planner.cpp:152-209 | every acyclic set of edges has a topological order |
| Planner.UniqueProducers | src/build_planner.cpp:82-116 | collects the distinct producers inside the plan, once each however many outputs are shared |
| Planner.BuildTables | src/build_planner.cpp:34-131 | indegrees count distinct in-plan producers, and each producer lists each of its in-plan consumers exactly once |
| Planner.Release | src/build_planner.cpp:169-193 | after an edge is placed, indegrees count the producers not yet placed and exactly the freed consumers join the queue; the "invalid indegree" branch is unreachable |
| Planner.Plan | src/build_planner.cpp:17-210 | succeeds exactly when the given edges are acyclic; the result is a permutation of them in topological order; a reported cycle can be exhibited |
| Planner.Validate | src/build_graph_validator.cpp:14-47 | succeeds exactly when the whole graph is acyclic, and then planning cannot fail on any part of it |
| Builder.Builder.AppendFileStateReasons | src/builder.cpp:295-363 | appends exactly the missing outputs, the missing inputs, and the existing inputs newer than existing outputs |
| Builder.Builder.AppendCommandChangeReasons | src/builder.cpp:366-397 | appends exactly the outputs whose log entry is absent or is not the hash of the present command; nothing without a log |
| Builder.Builder.AppendDynamicDependencyReasons | src/builder.cpp:400-486 | appends exactly the recorded dependencies, other than declared inputs, that are missing or newer than the output |
| Builder.Builder.DirectReasons | src/builder.cpp:517-542 | the list is empty exactly when the edge is not stale by itself |
| Builder.Builder.FindProducers | src/builder.cpp:164-205 | collects exactly the edges that produce one of the targets; otherwise the error names the first target without a producer, and says whether it is unknown or not produced |
| Builder.Builder.Close | src/builder.cpp:208-257 | from the seeds, the stack loop computes the least set closed under producers, on cyclic graphs too |
| Builder.Builder.CollectTargetClosure | src/builder.cpp:151-258 | an edge is in the closure exactly when it produces a target, or is an ancestor of an edge that does; otherwise the error of the first bad target |
| Graphs.AncestorIffChain | src/builder.cpp:207-257 | an edge is an ancestor exactly when a chain of at least one link, each edge producing an input of the next, leads from it |
| Builder.UpstreamIffChain | src/builder.cpp:207-257 | the least producer-closed set over some seeds consists of the edges from which a chain leads to a seed |
| Builder.ScopeIsWhatTargetsNeed | src/builder.cpp:82-119 | the scope of a build is everything without targets, and with targets exactly the edges that produce one of them and their ancestors |
| Builder.Builder.CollectEdgesToBuild | src/builder.cpp:489-628 | a duplicate-free list of the least set of allowed edges that holds the stale ones and, with an edge, its allowed consumers; reasons exist for exactly these edges, are never empty, and name every direct reason and every input that a dirty edge produces |
| Builder.DirtyIffChain | src/builder.cpp:489-628 | an edge is to run exactly when a chain of allowed edges leads to it from one that is stale by itself |
| Builder.Builder.Build | src/builder.cpp:60-148 | unless a target has no producer, in which case the first bad target is named: without targets the scope is all edges, with targets exactly those that produce one of them and their ancestors; there is a plan exactly when the dirty edges of the scope have no cycle, it lists them in topological order, and each of them has all its reasons |
| Builder.TargetsCommuteWithDirtiness | src/builder.cpp:82-119 | the edges planned for targets are the dirty edges of the full build that lie upstream of the targets |
| Scheduler.Scheduler.Begin | src/scheduler.cpp:240-395 | refuses a job count that is not positive and a missing executor; otherwise nothing of an earlier run survives, indegrees count distinct in-plan producers, and the queue holds exactly the edges without any, in some order |
| Scheduler.CountProducers | src/scheduler.cpp:315-395 | initial indegrees and initial queue of a plan |
| Scheduler.Scheduler.TryPick | src/scheduler.cpp:129-161 | under the lock: leave when stopping or failed, sleep when the queue is empty, otherwise take its front |
| Scheduler.Scheduler.FinishEdge | src/scheduler.cpp:15-90 | the counters move by one, each distinct in-plan consumer loses one from its indegree, and those that reach zero join the queue once |
| Scheduler.Scheduler.Fail | src/scheduler.cpp:185-195 | both flags are set and nothing else changes |
| SchedulerResults.MainWaitsForTheEnd | src/scheduler.cpp:425-433 | in every reachable state the predicate of the main thread's wait holds exactly when an edge was lost to a failure or every planned edge is done |
| Scheduler.Scheduler.Stop | src/scheduler.cpp:440-448 | only the stop flag is set |
| SchedulerSafety.InvStep | src/scheduler.cpp:109-464 | every step of every thread keeps the invariant about places, indegrees, counters, flags and owed notifications |
| SchedulerSafety.ReachableInv | src/scheduler.cpp:109-464 | the invariant holds in every reachable state, for any number of workers and any interleaving |
| SchedulerResults.EveryEdgeHasOnePlace | src/scheduler.cpp:15-90 | in every reachable state a planned edge is in exactly one of waiting, ready, in hand, done, lost; it waits exactly while an in-plan producer is not done; its indegree is the number of these; the running counter counts held and lost edges, the completed counter done ones |
| SchedulerResults.NoWakeupIsLost | src/scheduler.cpp:135-143 | whenever a worker or the main thread sleeps although its wait predicate holds, some thread still owes the notification |
| SchedulerResults.PicksAreJustified | src/scheduler.cpp:146-160 | no edge is picked twice, or before all its in-plan producers went through `finish_edge` |
| SchedulerResults.PicksFollowTheGraph | src/scheduler.cpp:146-160 | in every run, each picked edge comes after all its in-plan producers |
| SchedulerResults.FirstReadyFirstPicked | src/scheduler.cpp:146-160 | in every run, what was picked followed by what is ready only grows at its end: edges are picked in the order in which they became ready |
| SchedulerResults.ReturnValue | src/scheduler.cpp:451-461 | `run` returns true exactly when every planned edge succeeded; then each was picked exactly once, in a topological order, none was lost, and all threads have ended |
| SchedulerResults.SuccessNeedsAcyclicPlan | src/scheduler.cpp:240-464 | a run can only return true on an acyclic plan |
| SchedulerResults.NothingStartsAfterFailure | src/scheduler.cpp:183-215 | once the failure flag is set it stays set and no further edge is ever picked, whatever late finishers push |
| SchedulerResults.DescendantsOfFailureNeverStart | src/scheduler.cpp:146-160 | an edge that was picked has only successful in-plan ancestors, so no descendant of a failed edge ever starts |
| SchedulerProgress.NoDeadlock | src/scheduler.cpp:123-225 | on an acyclic plan, until `run` has returned some thread can move without a spurious wakeup |
| SchedulerTermination.StepDescends | src/scheduler.cpp:109-464 | a measure drops with every step that is not a spurious wakeup, and such a wakeup raises it by at most one |
| SchedulerTermination.RunsAreBounded | src/scheduler.cpp:109-464 | a run has at most (jobs + 6) times plan size + 7 jobs + 7 steps, plus twice the spurious wakeups |
| SchedulerTotal.RestMeansReturned | src/scheduler.cpp:416-461 | on an acyclic plan, a run that cannot go on without a spurious wakeup has returned; if no command failed it returned true and every planned edge was executed |
| SchedulerTotal.HangsIffCyclic | src/scheduler.cpp:425-433 | some run comes to rest without returning exactly when the plan is cyclic, and on a cyclic plan no run in which no command fails ever returns |
| Execution.AncestorsInPrefix | src/builder.cpp:565-624 | because plans are closed downstream, the planned ancestors of an edge are done once its planned producers are |
| Execution.WriteIsElsewhere | src/scheduler.cpp:176-179 | an edge that is not done writes nothing that an edge whose planned producers are done may read |
| Execution.ConsistentStateIsUnique | src/executor.cpp:66-91 | two states that agree outside the planned outputs and in which all planned edges are consistent are equal |
| Execution.SerialRunIsConsistent | src/executor.cpp:66-91 | after any part of a serial run over a topological order, the edges run so far are consistent and nothing else changed |
| Execution.SerialRunIsTheOutcome | src/executor.cpp:66-91 | a state in which all planned edges are consistent and only planned outputs changed is the one that the serial executor reaches |
| ScheduledBuild.OnlyPlannedOutputsChange | src/scheduler.cpp:109-238 | a scheduled run stopped anywhere has touched planned outputs, their log entries and their depfile records only, whatever the cache held |
| ScheduledBuild.SuccessIsLogged | src/executor.cpp:240-449 | after a successful run every planned output exists, is logged under its present command, and is no older than the outputs of planned ancestors, and every record is the old one or what a planned command reported, whatever the cache held |
| ScheduledBuild.StaysAccountable | src/executor.cpp:94-545 | a scheduled run stopped anywhere, with lookups and stores of several workers in any order, leaves contents, records and cache entries that runs of the history account for, whatever the keys are |
| ScheduledBuild.SuccessMakesFresh | src/scheduler.cpp:109-238 | if no hit can be stale, after a successful run, with cache hits anywhere, every planned edge is consistent, logged under its present command, backed by its record, and no older than its planned ancestors |
| ScheduledBuild.ScheduleIndependence | src/scheduler.cpp:109-238 | if no hit can be stale, every successful interleaving for any number of jobs, with cache hits anywhere, ends in the file contents of the serial executor over any topological order of the plan |
| ScheduledBuild.SchedulesAgree | src/executor.cpp:240-449 | any two successful runs of one plan, for any numbers of jobs, end with the same log, if no hit can be stale with the same contents, and if no list can be stale with the same records |
| SerialBuild.ExecuteIsSerialRun | src/executor.cpp:66-91 | if no hit can be stale, and starting with records and a cache that runs of the history account for, edges executed one after the other, hit or no hit, give the serial run of the model |
| Incremental.NotStaleIffCalm | src/builder.cpp:503-561 | the three checks find no reason exactly when all outputs exist, are logged for the present command, and are no older than the declared inputs and recorded dependencies, which exist |
| Incremental.NoPlannedAncestor | src/builder.cpp:565-624 | an edge of the scope that is left out of the plan has no planned ancestor |
| Incremental.IncrementalEqualsFull | src/builder.cpp:82-119 | if no hit can be stale and edges of the scope without a direct reason have the right outputs, then after a successful run of the plan all edges of the scope have the right outputs, planned or not, and the files are those of a full serial build from the same sources |
| Incremental.SuccessKeepsSound | src/main.cpp:546-552 | a successful run keeps the property that whatever the checks let pass is up to date, for commands of other manifests and targets too |
| Incremental.MissingLeftoverStays | src/builder.cpp:456-469 | a record that its edge does not replace and that names a missing source keeps the edge stale over every successful run, whatever is built and cached |
| Incremental.NoOpRebuild | src/builder.cpp:295-486 | after a successful run, whatever the directory and the cache held before, planning the same targets again gives the empty plan exactly when no source is gone that the manifest or a record names, and what leftover records name exists and is no younger than the output they are filed under |
| Incremental.NoOpRebuildOrdered | src/builder.cpp:295-486 | where leftover records name no generated file but of ancestors, exactly when no source is gone that the manifest or any record names |
| LeftoverHistory.LeftoverIsCommitted | src/builder.cpp:411-470 | a concrete history of two manifests for one output and a deleted header whose last commit leaves its edge stale |
| LeftoverHistory.RunningAgainDoesNotHelp | src/builder.cpp:456-469 | and the edge is stale again after every further run |
| HistoryInvariant.ChangeKeepsSound | src/builder.cpp:295-486 | an edit or a deletion between runs never leaves a command that the checks let pass although it is out of date |
| HistoryInvariant.StepKeepsOk | src/main.cpp:356-613 | every step from the lock to the removal of the marker, every stop, and everything that happens between runs, decay of the cache included, keeps the invariant of the build directory |
| HistoryResults.NoMarkerMeansTrueLogs | src/main.cpp:557-613 | whenever the marker is absent, two readable logs are of the same commit and every entry is the hash of the command that last wrote its output, whatever was cached; unless somebody touched them, both are readable or both absent |
| HistoryResults.CommittedBuildIsFullBuild | src/main.cpp:535-613 | if no hit can be stale, when a run commits, the files are those of a full serial build of its targets from the same sources, whatever happened in all runs before, cache hits included |
| HistoryResults.NothingToBuildIsFullBuild | src/main.cpp:497-503 | if no hit can be stale, when a run reports nothing to build, the files already are those of a full serial build, whatever happened in all runs before, cache hits included |
| HistoryResults.NextRunIsNoOp | src/main.cpp:577-596 | after a commit, whatever was cached, a run with the same manifest and scope that loads both saved files has nothing to build, exactly when no source is gone that the manifest or a record names, and what leftover records name exists and is no younger than the output they are filed under |
| StaleHistory.StaleHitIsCommitted | src/executor.cpp:166-265 | whatever run stores an entry and whatever run leaves a record, if a command finds the entry under the record although it would write something else, there is a history of these three runs, with edits, deletions and lost logs between them, that commits the wrong output; if no declared input is gone, the checks let it pass from then on |
| CacheTheorem.ReportsAreTrueIffNoStaleHits | src/main.cpp:311-620 | for every key function and content hash: every commit and every "nothing to build" of every history leaves all edges of its scope with the outputs that their commands would write, exactly when whatever is stored under a key is what every command that looks under it would write |
| CodeKeys.CodeKeysTellApart | src/executor.cpp:176-211 | with the keys of the code, NUL-free texts and no collision on what the history stores and looks for, a command finds only what it stored itself, for the same list and the same contents |
| CodeKeys.ReportsAreTrueIffDepfilesDecide | src/executor.cpp:192-205 | then what the runs of all histories report is true exactly when the outputs of cached commands cannot change while the files that their depfiles list do not |
| GluedHit.ReadingDepsIsNotEnough | src/cache_key.cpp:48-88 | with NUL characters and the keys of the code, whatever the hash: a deterministic command that reads only what its depfile lists, so that the list decides output and list, gets a stale hit, and some history commits it |
| StaleBuild.OnlyTheDepfileIsShort | src/executor.cpp:192-205 | a concrete edge whose depfile leaves out its declared input meets, with the keys of the code and whatever hash, every assumption under which depfiles must decide outputs; its depfile does not |
| StaleBuild.StaleOutputIsCommitted | src/executor.cpp:166-265 | and it has a history in which a run takes the old output from the cache, commits it, and the checks let it pass from then on |
| StaleBuild.HitCanBeStale | src/executor.cpp:192-205 | for any two contents of the input, what the edge wrote for the one is found for the other |
| HistoryResults.EditIsNoticedIff | src/builder.cpp:351-360 | a write by somebody else, whatever time stamp it leaves, makes a calm command stale exactly if another output that watches the file is older than the stamp, or the file is an output and another file that it watches is younger |
| HistoryResults.EditIsNoticedIffWatched | src/builder.cpp:351-360 | a later write by somebody else makes a command stale exactly when another of its outputs watches the written file |
| HistoryResults.OverwrittenOutputIsKept | src/builder.cpp:351-360 | an output overwritten by hand passes the checks although it is not what its command writes |
| HistoryResults.SameTimeIsUnnoticed | src/builder.cpp:351-352 | an edit that keeps the modification time passes the checks |
| Session.Session.LoadState | src/main.cpp:351-425 | in memory are both logs, or neither if there is a marker or one of them does not load |
| Session.Session.MakePlan | src/main.cpp:434-467 | a plan for the targets of the call, made from what is in memory and on disk; none exactly when a target has no producer |
| Session.Session.Start | src/main.cpp:351-544 | from the lock to the marker: the logs in memory are those that the directory before it gives, on every way out; the plan is made from them and the files for exactly the given targets; it is handed to the scheduler exactly when it is not empty and the marker was written; nothing in the directory changes but the clock and, if a write of the marker took place, the marker; all this by steps of the process in the history model |
| Session.Session.WriteState | src/main.cpp:535-576 | a write of the marker or of a log replaces that file wholly or leaves it, and does not touch the two others |
| Session.Session.WriteMarker | src/main.cpp:535-544 | the marker is there afterwards if the write took place, and nothing else in the directory changes |
| Session.Session.CommitDeps | src/main.cpp:577-585 | the file of the dependencies holds the text of those in memory or what it held before, and nothing else in the directory changes |
| Session.Session.CommitLog | src/main.cpp:588-596 | the same for the build log |
| Session.Session.RemoveMarker | src/main.cpp:599-614 | the marker goes unless its removal failed, and nothing else in the directory changes |
| Session.Session.Conclude | src/main.cpp:557-620 | dependencies, build log and marker are committed in this order, each by an atomic write that may fail or die at any point; for every way they end, which of the two files holds its new text and which its old one, and whether the marker is there; true means all three went through; without the marker both files hold the new texts, and the next run loads from them exactly what was in memory, if and only if both logs are clean |
| Session.SavedIsLoaded | src/main.cpp:351-425 | what is loaded from the two saved files, without a marker, is what was saved, exactly when both logs are clean |
| Session.LedOn | src/main.cpp:311-620 | what steps of the history model reach from a state of a history is a state of a history |
| SessionResults.WhatIsMadeOccurs | src/main.cpp:311-620 | what the steps of a process reach from a state of a history is a state of a history |
| SessionResults.NothingToBuildIsTrue | src/main.cpp:498-504 | when `Start` finds an empty plan, in any directory that a history can lead to, every edge that the targets need is consistent with its inputs as they are |
| SessionResults.SuccessIsTrue | src/main.cpp:547-620 | when the scheduler has succeeded and `Conclude` has its two texts, every edge that the targets need is consistent with its inputs |
| FileSystem.FileSystem.AtomicWrite | src/file_system.cpp:97-170 | whatever fails and wherever the process dies, the target holds its old content or the whole new one; true means the new one, and no temporary file is left unless the process died |
| LineFormat.DecimalRoundTrip | src/build_log.cpp:276-311 | a decimal is read back as it was written when it is below 2^64, and rejected otherwise |
| LineFormat.ReadUnsignedIff | src/build_log.cpp:276-311 | a text is read as a number exactly when it is white space, a sign or none, digits, and white space, and the number fits into 64 bits; a minus negates it modulo 2^64 |
| LineFormat.LinesComeBack | src/build_log.cpp:234-238 | the lines of a text, the last of them with or without a newline, are read one by one as they are |
| BuildLog.BuildLog.Record | src/build_log.cpp:23-35 | one entry is set |
| BuildLog.BuildLog.CommandMatches | src/build_log.cpp:78-102 | true exactly for an entry with this hash |
| BuildLog.BuildLog.Save | src/build_log.cpp:116-166 | the text of all entries, in some order of the map |
| BuildLog.BuildLog.Load | src/build_log.cpp:168-348 | a missing file, one that cannot be read, and another header are told apart; the result and the entries are those of the file format; any result but success leaves the old entries |
| BuildLog.RoundTrip | src/build_log.cpp:116-348 | for every order of the map, loading what was saved gives the same entries exactly when all paths are non-empty and free of tabs and newlines and all hashes are below 2^64 |
| BuildLog.LoadsIff | src/build_log.cpp:205-347 | a file loads exactly when its first line is the header, every other line is a path without tabs, a tab and a number, and no two lines have the same path; the entries are then what the lines say and nothing else |
| DepsLog.DepsLog.Record | src/deps_log.cpp:24-36 | one record is set |
| DepsLog.DepsLog.Save | src/deps_log.cpp:48-110 | the text of all records, in some order of the map |
| DepsLog.DepsLog.Load | src/deps_log.cpp:113-293 | a missing file, one that cannot be read, and another header are told apart; the result and the records are those of the file format; any result but success leaves the old records |
| DepsLog.RoundTrip | src/deps_log.cpp:48-293 | for every order of the map, loading what was saved gives the same records exactly when all names are non-empty and free of newlines, also when names look like counts |
| DepsLog.LoadsIff | src/deps_log.cpp:150-292 | a file loads exactly when its first line is the header, the others are entries of a name, a count and that many names, one after the other, and no two entries have the same name; the records are then what the lines say and nothing else |
| Hash.AbsorbIsBijective | src/hash.cpp:38-47 | for every byte, one step is a bijection on 64-bit words |
| Hash.AbsorbSeparatesBytes | src/hash.cpp:38-47 | for every word, different bytes lead to different words |
| Hash.FnvSeparatesStates | src/hash.cpp:34-48 | the same text takes different words to different words |
| Hash.OneByteIsAlwaysSeen | src/hash.cpp:108-121 | a text and the same text with one byte replaced have the same hash exactly when the byte is the same, so a command change of one byte is always detected |
| CommandChange.OneCharacterIsStale | src/builder.cpp:366-397 | an edge whose command differs in exactly one character from one of the same length that was logged is always reported as changed |
| Sample.AssumptionsAreConsistent | src/cache_key.cpp:18-126 | a concrete edge with a dependency that only its depfile names meets all assumptions with FNV-1a keys, gets no stale hit, and its reports are true in every history |
| Hash.Hash64.Update | src/hash.cpp:34-48 | absorbs the bytes of the text one after the other |
| Hash.Hash64.UpdateFile | src/hash.cpp:51-99 | the reader with the 4096-byte buffer equals one update with the whole content, for every length; true exactly when reading ended at the end of the file |
| Hash.HashString | src/hash.cpp:108-121 | the hash of the text from the offset basis |
| Hash.KnownValues | src/hash.cpp:14-48 | the hashes of the empty text and of "a" are the published ones of 64-bit FNV-1a |
| Hash.XorBit | src/hash.cpp:40-43 | a bit of the exclusive-or is one exactly when the two bits differ |
| CacheKey.CacheKeyBuilder.AddField | src/cache_key.cpp:97-126 | the hashed stream grows by name, NUL, value, NUL |
| CacheKey.CacheKeyBuilder.AddDependency | src/cache_key.cpp:48-88 | the hashed stream grows by path and content fields; false when the file cannot be read |
| CacheKey.KeyOf | src/executor.cpp:176-211 | the key is the hash of the stream of identity, command and dependencies in order; there is none when a dependency cannot be read |
| CacheKey.KeyStreamIsInjective | src/cache_key.cpp:18-126 | for NUL-free parts, equal streams mean the same identity, the same command and the same dependencies in the same order |
| CacheKey.NulMakesStreamsAmbiguous | src/cache_key.cpp:48-88 | in any list, two neighbouring dependencies can be replaced by one that holds the bytes between them, and the stream is the same |
| CacheKey.ReadOneWayIff | src/cache_key.cpp:18-126 | for NUL-free identity, command and paths, nothing else has the same stream exactly when there is no dependency, or one whose content does not hold the bytes that stand between two |
| CacheKey.OneByteOfAFileIsSeen | src/cache_key.cpp:48-88 | with FNV-1a, a change of one byte in one of the listed files always leads to another key |
| LocalCache.LocalCache.Contains | src/local_cache.cpp:79-108 | true exactly when object and metadata exist |
| LocalCache.LocalCache.Store | src/local_cache.cpp:111-303 | success means that the object is the output and the metadata its size and hash; for every failure, and for a death between the renames, the exact state of the cache; other objects stay, and the cache stays authentic |
| LocalCache.LocalCache.Restore | src/local_cache.cpp:306-452 | hands out the object exactly when its size and its hash are both those of the metadata and the copy succeeds, and that content was once stored under this key; what is not verified is thrown away |
| Cache.DamageIsDecay | src/local_cache.cpp:306-395 | after any damage to objects and any loss of metadata, what still verifies was stored under its key, unless a damaged object has the size and the hash of something else that was stored there |
| Cache.StoreKeepsAuthentic | src/local_cache.cpp:111-303 | wherever a store ends, an object that matches its metadata was stored under its key, even when the two come from different stores |
| Cache.StoreKeepsDescribed | src/local_cache.cpp:111-303 | wherever a store ends, metadata that can be read describes something that was stored under its key |
| StaleHits.FoundIffUnchanged | src/executor.cpp:176-211 | where keys tell entries apart, what a run stored is found again exactly when nothing that it listed has changed |
| StaleHits.ChangeIsNoticedIffListed | src/executor.cpp:192-205 | then a change, appearance or disappearance of one file keeps the old entry from being found exactly when the record lists the file |
| StaleHits.StaleHitsIffUnlisted | src/executor.cpp:192-205 | then a command can get a stale hit from the change of one file exactly when its depfile leaves out a file whose change alone changes the output |
| StaleHits.NoStaleHitsIffDecided | src/executor.cpp:192-205 | then no command can get a stale hit exactly when the outputs of cacheable commands cannot change while the files listed by their depfiles do not |
| StaleHits.NoStaleListsIffDecided | src/executor.cpp:192-205 | and no hit leaves a record that a run would not leave exactly when the lists themselves cannot change while the listed files do not |
| StaleHits.HitsAreRunsIff | src/executor.cpp:166-265 | for every key function: every hit leaves exactly the file, the log entry and the record of a run, exactly when neither what is found nor the list it is found by can be stale |
| StaleHits.ReadingDepsIsEnough | src/executor.cpp:192-205 | a command that reads only what its depfile lists has its output and its list decided by the listed files |
| CachedEdges.HitIsTrue | src/executor.cpp:166-265 | without stale hits, a genuine entry found under the key of a command, any record and the present files is what the command would write |
| CachedEdges.SuccessIsRun | src/executor.cpp:166-545 | without stale hits, hit or no hit, a successful edge leaves the files and the log of a plain run of its command, and a record that backs its output |
| CachedEdges.SuccessIsExactlyRun | src/executor.cpp:166-545 | where lists cannot be stale either, it leaves the record of a plain run as well, and only the cache can tell the difference |
| CachedEdges.VouchedIsTrue | src/executor.cpp:166-265 | what was found under a record stays what the command would write while the files of the record that the command may see do not change |
| CachedEdges.SuccessKeepsAccountable | src/executor.cpp:476-541 | whatever the keys are, a successful edge files nothing that is not genuine, leaves a record that a run reports, and contents that occur in the history, also when other edges write between its start and its end |
| Executor.Executor.LookUp | src/executor.cpp:166-218 | content is handed out exactly if there is a verified entry under the key of the present record and files; otherwise an entry that cannot be verified is thrown away, and nothing else changes |
| Executor.Executor.RunCommand | src/executor.cpp:287-469 | for every process, also one that deletes files: true exactly when it started, was not killed, exited with code zero, every output is there afterwards, and the depfile can be read; then the record and the log entries of all outputs are made; otherwise neither log changes |
| Executor.Executor.StoreResult | src/executor.cpp:476-541 | the output is stored under the key of the record that the run has just made, and nothing happens if there is no such key |
| Executor.Executor.ExecuteEdge | src/executor.cpp:94-545 | for every process and every fate of the copy and the store: when the edge hits; without a hit, true exactly when the process started, was not killed, exited with code zero, left every output and a readable depfile; the exact files, logs, records and cache afterwards; after a success all outputs are there and logged under the present command; a failed edge changes no log and stores nothing |
| Executor.Executor.Execute | src/executor.cpp:66-91 | edges run in order up to the first failure, and each did what one edge does; false only when the last edge that ran has failed |
| Executor.FailsIff | src/executor.cpp:287-469 | an edge fails exactly when there is no hit and the process did not start, was killed, did not exit, exited with another code than zero, a declared output is missing afterwards, or the depfile cannot be read; the logs, the records and what was stored are then as before |
| Executor.SuccessLeaves | src/executor.cpp:225-469 | after a success every output is there and logged under the present command, no other log entry has changed, and the record changes only as the depfile says |
| Executor.ProcessLeaves | src/executor.cpp:287-399 | without a hit, each file is as the process wrote it, gone if it deleted it, and otherwise as before |
| Executor.StoredIsRestored | src/executor.cpp:166-265 | after a store that went through, the next run of the job is a hit and brings back that very output, as long as its record, the contents of the files on it and the cache are as they were |
| Executor.CacheDoesNotShow | src/executor.cpp:94-545 | an edge that hits, or whose process does what the tools say, keeps contents, records and cache accounted for; without stale hits it leaves the files and the log of a plain run, and where lists cannot be stale exactly what a plain run leaves; a failed edge leaves the logs and a genuine cache |
| Executor.CacheNeverShows | src/executor.cpp:94-545 | over any sequence of edges, failed ones included, with decay of the cache, changes of the project and lost records in between, every successful edge leaves what a plain run leaves: files and log without stale hits, the record too where lists cannot be stale |
| EdgeSteps.OutcomeSucceeds | src/scheduler.cpp:176-179 | what the executor does to an edge that hits, or whose process does what the tools say, is the success step of a worker |
| EdgeSteps.OutcomeFails | src/scheduler.cpp:176-195 | what it does to an edge that fails, with a process that changed nothing but the declared outputs, is the failure step of a worker |
| CachedEdges.FiledIsGenuine | src/executor.cpp:476-541 | what is stored after a run is a genuine entry |
| Text.Trim | src/string_utils.cpp:9-37 | removes exactly the white space around the text |
| Text.TrimIsUnique | src/string_utils.cpp:9-37 | there is one way to trim, and trimming twice is trimming once |
| Text.Split | src/string_utils.cpp:83-103 | the maximal runs of characters that are not white space, in order |
| Text.SplitUndoesJoin | src/string_utils.cpp:83-103 | splitting words joined by spaces gives the words back |
| Text.ReplaceAll | src/string_utils.cpp:105-138 | terminates for every replacement, and cuts the text at the pattern and puts the replacement between the pieces |
| Text.PiecesAreLeftmost | src/string_utils.cpp:121-136 | the pieces glued with the pattern are the text, each piece ends at the first occurrence behind its start, and the last piece has none |
| Commands.Command | src/edge.cpp:95-154 | the template with `$in` and then `$out` replaced by the joined paths |
| Commands.DepfilePath | src/edge.cpp:156-219 | the same for the depfile template; empty stays empty |
| Commands.SequentialIsSimultaneous | src/edge.cpp:138-149 | the two replacements are one simultaneous substitution exactly if filling in `$in` makes no new `$out`, or the outputs are `$out` themselves |
| Commands.PlainPathsAreSubstituted | src/edge.cpp:138-149 | with input paths free of `$` and a template whose every `$` begins a placeholder, the command is the simultaneous substitution |
| Commands.DollarInInputIsRewritten | src/edge.cpp:145-149 | an input path `$out` is rewritten |
| BuildGraph.BuildGraph.GetOrCreateNode | src/build_graph.cpp:17-41 | the node exists afterwards, an existing one is unchanged, and links stay valid |
| BuildGraph.BuildGraph.CreateEdge | src/build_graph.cpp:43-58 | one edge without links is appended and links stay valid |
| BuildGraph.BuildGraph.AddInput | src/build_graph.cpp:60-64 | the node is appended to the inputs and the edge to the node's consumers; links stay valid |
| BuildGraph.BuildGraph.AddOutput | src/build_graph.cpp:66-76 | refused exactly when the node has a producer, and then nothing changes; otherwise both links are made and stay valid |
| BuildGraph.InputKeepsValid | src/build_graph.cpp:60-64 | links agree in both directions after an input was added, as often as it was added |
| BuildGraph.OutputKeepsValid | src/build_graph.cpp:66-76 | links agree and each node has one producer after an output was added |
| Parser.TrimKeepsStatement | src/parser.cpp:307-366 | what a build statement says does not depend on the white space around it |
| Parser.Parser.RuleLine | src/parser.cpp:158-189 | a rule statement opens a new, empty rule, and fails exactly for an empty or existing name, with that error and the number of the line |
| Parser.Parser.RuleProperty | src/parser.cpp:192-267 | `command` and `depfile` change the open rule only, and fail exactly outside a rule or for an empty text, with that error and the number of the line |
| Parser.Parser.BuildLine | src/parser.cpp:307-457 | accepted exactly when it has outputs without a producer, each once, a rule with a command, and an input; then exactly one edge with these links is added; a rejected one leaves valid links and at most one unfinished edge, and the error is the first that applies |
| Parser.Parser.ParseLine | src/parser.cpp:134-304 | what each kind of line does to rules, graph and open rule, and when it is rejected; every line, accepted or not, keeps the links valid, takes nothing back, and leaves the rule of every edge as it was |
| Parser.Parser.ParseFile | src/parser.cpp:18-98 | after any lines, also after an error, links agree and each node has at most one producer; on success every new edge has an input and an output, every edge a command, and the rule of every edge says what it said at the build statement; all lines were read in order, up to the first that is rejected, and the error tells which and why |
| Parser.RuleLineHasName | src/parser.cpp:158-174 | a trimmed line that begins a rule statement always has a name |
| ManifestText.AcceptedIff | src/parser.cpp:134-457 | a line is accepted exactly when it is blank or a remark, a rule of a new name, a command or depfile that is not empty for the rule that is open, or a build statement with outputs that nobody makes, each once, a complete rule and an input |
| ManifestText.SensibleIsRead | src/parser.cpp:134-457 | when remarks, rules, properties and build statements follow one another sensibly, no line is rejected, and the parser ends with exactly the rules, edges and open rule that the lines declare |
| ManifestText.ManifestRoundTrip | src/parser.cpp:18-457 | a manifest written down from any rules and build statements is read without an error, and gives back these rules, and these edges in order |
| Depfile.Depfile.Parse | src/depfile.cpp:11-126 | fails exactly for a text without a colon; otherwise the target is what stands before the first colon, untrimmed, and the inputs are the words behind it, with continuation lines folded |
| Depfile.WrittenIsRead | src/depfile.cpp:11-126 | names that are words and do not end in a backslash, set off by any white space and continued on further lines with either line end, are read back as the same target and dependencies |
| Depfile.SpaceBeforeColonStays | src/depfile.cpp:96-100 | with white space before the colon the target that is read is the one that was meant exactly when there is none of it |

## Left out

- Session.Session.Start: the command line, the manifest and its validation come before it and are given as a valid world; the lock is assumed to be held.
- Planner.Plan: requires distinct edges, as the builder provides and the scheduler relies on; what the source returns or throws for a list with repetitions is not modelled.
- ScheduledBuild.ScheduleIndependence: about file contents; `SchedulesAgree` adds the log and the records. Modification times depend on the schedule.
- LocalCache.LocalCache.Restore: a metadata file is two numbers or garbage; the text around the numbers is not modelled. Damage that neither size nor hash reveals is excluded from histories.
- Executor.Executor.ExecuteEdge: the executor with all three of build log, deps log and cache, as `main` makes it; the null edge and the constructors without them are not modelled.
- The real compiler identity, process creation and waiting, `flock`, temporary names, permissions and power loss: parameters or assumptions.
- `Node::dirty`, `describe`, `dump`, `--explain` output and all console messages: they influence no decision.
- Several workers inside the cache at once: for a worker of the scheduler, the lookup with its copy is one step, and the command with its store is one step.
- A compiler that is replaced by another one, which changes the identity in the key.
- The mutexes inside the two logs and the executor: each log method is one step.
- Locale, encodings and negative characters in `isspace`: texts are sequences of characters.
- Depfiles with escaped spaces or several targets: `Depfile::parse` does not interpret them.
- Two edges whose depfile templates expand to the same path: each edge is assumed to find its own depfile.
- Edits while a build runs, and clocks that run backwards.
- A marker removed by hand, and a log replaced by another one that can be read: lost and unreadable logs are covered.
- The `split` with a delimiter: nothing calls it.
