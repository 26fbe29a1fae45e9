# DRIGS: a verified model of the GPU control plane

DRIGS schedules jobs onto a cluster of GPU workers. This project models its hard parts in Dafny and proves
what they promise, or exactly where they stop short of it.

| Part | Files | What is proved |
|---|---|---|
| Scheduler family | `Placement`, `PassProperties`, `Choices`, `DictionaryOrder`, `PolicyTheorems`, `Topology`, `LinkScores`, `Combinations`, `Sorting`, `*Scheduler(s)`, `SchedulerLoops`, `GangPlacement`, `GangScheduler`, `GangShares` | soundness, core tiling and maximality of every greedy pass; whose turn it is and which worker and devices each policy takes, read off the schedule and the devices; two policies that are the same scheduler; optimal device choices; aging; when the order of the worker dictionary matters; gang atomicity and its capacity gap |
| Simulator | `Simulation`, `SimulationConservation`, `SimulationLiveness`, `SimulationFeasibility`, `SimulationTimes`, `Harness` | VRAM conservation at every tick; no job started before it arrives, cut short or overdue; a trial ends if and only if its trace is feasible, then within a stated number of iterations and with every job completed exactly once |
| Allocation state machine | `Store`, `ResourceManager`, `ManagerProperties`, `ManagerUsage`, `GrantConditions`, `JobQueue`, `QueueProperties`, `LifeCycle`, `JobRules`, `QueueRestart`, `Control`, `ControlProperties`, `ControlOutcomes`, `ControlFacts`, `ControlGang`, `ControlRestart`, `Controller` | exclusivity, bookkeeping and table mirroring over every interleaving of operations; the fate of every proposal of a step; what a restart restores, what it loses and what it never releases |
| Recovery | `Registry`, `Recovery`, `RecoveryProperties`, `RecoveryRuns`, `Detection` | at-most-once reporting, exact reporting conditions, a bounded number of status changes |

Every operation that changes state is a method (of a class where the original has one) proved equal to a
specification function of the old state; the lemmas are about those functions, so they hold for the methods.
Each of the single-node schedulers has its own class and loops; `Placement` holds the one greedy pass they refine.
`Models` declares the entities; `Dictionaries` and `Sequences` hold the facts about ordered dictionaries and
duplicate-free lists that all parts share.

Conventions. Bytes and cores are unbounded integers, as in Python; times, scores and durations are exact reals.
Dictionaries whose order matters (workers, handles, pending and monitored jobs) are sequences with distinct keys (`Dictionaries`). Shared `Job`
objects are identified by their id: the queue holds ids and `jobs` holds the objects. The clock, uuids, backend
answers, checkpoints and the order in which a query returns rows are parameters. Every public operation holds a
lock in the original, so each is one atomic step here.

Where the code and its documentation disagree, the model follows the code:

- link scores are those of `LINK_TYPE_SCORES` (drigs/hardware/topology.py:25-33), not the weights of docs/paper/scheduling.tex:52-57;
- gang placement is described as an atomic reservation, but on the multi-node path it checks only one core and 1 MiB per worker and then charges more; `GangCapacityExactly` and `GangScheduleCapacity` say when capacity survives, `GangMayExceedCapacity` gives a family where it does not;
- the `inner_scheduler` of gang placement is stored and never used (drigs/scheduler/gang.py:22-23);
- the README of the repository names a `DRFScheduler`; there is no such class.

Claims that the code does not support, with the exact condition under which they hold:

- a scheduler output with several allocations for one job does not always break the controller: it does if and only if one of them follows one that starts (`PlaceAllSafeIff`), as gangs that span workers do once a share is granted and launched (`GangStepIsSafeIff`, `FirstGangBreaksStep`);
- an unplaceable job does not always stay queued: the scheduler is shown the workers but not what is held on them, so it proposes held devices, and each such job ends FAILED (`TakenGpusFailJobs`, `HeldGpuFailsWaitingJob`); a proposed job starts if and only if its devices could be granted before the step, none of them went to an earlier proposal and its launch succeeds, and otherwise ends FAILED (`StepOutcome`); only an unproposed one stays QUEUED (`StepKeepsOk`);
- a restart keeps the bookkeeping if and only if nothing was held (`RestartIsOkIff`); what was held is never released again by any operation of the restarted controller (`OrphansAreNeverReleased`), cancelling included (`CancelReleasesIff`);
- a restored job that is re-queued later is never pending (`RestoredJobsAreLost`), and dequeuing parts the pending list from the count of queued jobs (`DequeuePartsCounts`);
- a simulated trial with a job that fits no idle worker only ends by its step limit (`TrialBreaksIff`);
- memory-aware schedules are independent of the order of the worker dictionary if and only if no placement of the pass has two feasible workers that no other beats (`MemoryAwareOrderIff`, for a single job `LoneJobOrderIff`); those of the other policies always are (`DictionaryOrderIsIrrelevant`);
- queue capacity counts finished jobs too (`CapacityCountsAllJobs`); completion times are not write-once (`RepeatedCompletionMoves`);
- releasing by allocation id leaves the job's entry behind (`OnlyJobIdClearsEntry`); repeated device ids are charged once per mention (`ChargeWithinDeviceIff`); cores of different grants overlap (`GrantedCoresOverlap`), and the grants of a worker stay within its cores and memory if and only if each happens to fit, since the manager checks neither (`StaysWithinIff`, `GrantsExceedCores`);
- device health is forgotten by a restart (`RestartForgetsHealth`), and a device that was reported or withdrawn while held becomes AVAILABLE again exactly when its allocation is released (`OnlyReleaseRevives`);
- rescheduling a job that is not running loses its allocation in memory but not in the table (`RescheduleMirrorsIff`); rescheduling a RUNNING one leaves a stale handle in the controller (`StaleHandle`), whose bookkeeping survives if and only if the job was neither RUNNING nor left over from a restart (`RescheduleIsSafeIff`);
- a query of the registry consumes timeouts (`QueriesConsumeTimeouts`), and a job that fails again after its recovery is ignored (`SecondFailureIsIgnored`).

Check the project with `dafny verify dfyconfig.toml`.

## Model

| member | source | states |
|---|---|---|
| Sorting.SortPermutes | drigs/scheduler/priority.py:46-49 | sorting loses and invents nothing |
| Sorting.SortSorts | drigs/scheduler/priority.py:46-49 | the result is sorted, for any total preorder |
| Sorting.SortStable | drigs/scheduler/priority.py:46-49 | elements that tie keep their order |
| Sorting.StableSortUnique | drigs/core/queue.py:125-126 | these facts determine the list: there is only one stable sort |
| Sorting.SortThenAppend | drigs/core/queue.py:125-142 | re-sorting after each arrival is sorting all arrivals once |
| Sorting.SortThenRemove | drigs/core/queue.py:172-180 | removal commutes with sorting |
| Combinatorics.CombinationsSound | drigs/hardware/topology.py:171 | every enumerated combination is a k-element selection of the list |
| Combinatorics.CombinationsComplete | drigs/hardware/topology.py:171 | every k-element selection is enumerated, up to order |
| Combinatorics.CombinationsInOrder | drigs/hardware/topology.py:171 | they are enumerated in lexicographic order of positions |
| Topology.TopologyMatrix.SetLink | drigs/hardware/topology.py:42-50 | looking the pair up gives the name in both directions, every other pair what it gave before |
| Topology.TopologyGraph.constructor | drigs/hardware/topology.py:90-103 | the graph of the given devices, with the links of the raw topology over it |
| Topology.TopologyGraph.AddDevice | drigs/hardware/topology.py:105-116 | adds the device and links it to all others by inferred type |
| Topology.TopologyGraph.LoadRawTopology | drigs/hardware/topology.py:139-146 | overwrites links with those a backend reports, in order, from the `topology_matrix` entry or, when that is missing or falsy, the dictionary itself; entries that are not dictionaries are skipped |
| Topology.TopologyGraph.FindBestClique | drigs/hardware/topology.py:160-177 | returns the clique of the specification, including the cases of too few or one device |
| Topology.InferenceSymmetric | drigs/hardware/topology.py:118-137 | the inferred link does not depend on the order of the devices |
| Topology.GraphLinks | drigs/hardware/topology.py:105-137 | the graph holds exactly the inferred link of every pair |
| Topology.PairScoreInferred | drigs/hardware/topology.py:52-69 | looking a pair's score up gives the score of its inferred link |
| LinkScores.PairScore | drigs/hardware/topology.py:118-137 | two devices of a worker score 90 for the same non-empty NVLink group, else 70 for the same non-empty text between the first two colons of their bus ids, else 50 for the same NUMA node, 30 for two different ones, else 0 |
| LinkScores.StoredScore | drigs/hardware/topology.py:25-69 | a device and itself score 100; a stored link scores by its name, and unknown names score 0 |
| LinkScores.ReportIsRead | drigs/hardware/topology.py:139-146 | which dictionary of a report is read: the one under topology_matrix, or the report itself when that is missing or empty |
| LinkScores.RowOfEntry | drigs/hardware/topology.py:142-146 | every entry that is a dictionary is read as a row, with the text of each link |
| LinkScores.EntryOfRow | drigs/hardware/topology.py:142-146 | and no other entry is |
| Topology.GraphSymmetric | drigs/hardware/topology.py:42-50 | the matrix of a graph is symmetric |
| Topology.WithRawSymmetric | drigs/hardware/topology.py:139-146 | reported links keep the matrix symmetric |
| Topology.ReportRoundTrip | drigs/hardware/topology.py:82-84 | a report that names every link of a symmetric matrix, in at least one direction, loads as that matrix |
| Topology.GroupScoreIsMean | drigs/hardware/topology.py:71-80 | the group score is the sum over unordered pairs, divided by their number |
| Topology.GroupScorePermutes | drigs/hardware/topology.py:71-80 | the group score does not depend on the order of the devices |
| LinkScores.GroupScorePoints | drigs/hardware/topology.py:71-80 | the score of a group of devices in the graph of their worker is the sum of their pairs' points over n (n - 1) / 2, and 100 for one device |
| Topology.BestCliqueOptimal | drigs/hardware/topology.py:160-177 | the search returns k of the given devices, and no k-subset of them scores higher |
| Topology.BestCliqueFirst | drigs/hardware/topology.py:160-177 | of groups connected equally well it returns the one that comes first |
| Placement.GpusValid | drigs/scheduler/fifo.py:55-69 | every policy picks exactly the requested number of different, free, large enough GPUs |
| Placement.BestIsBest | drigs/scheduler/fit.py:117-158 | no worker is chosen only if none is feasible; the chosen one is not beaten by any feasible one |
| Placement.BestIsFirst | drigs/scheduler/fit.py:155-158 | ties go to the worker that comes first |
| SchedulerLoops.CollectCandidates | drigs/scheduler/binpack.py:60-73 | the candidate loop lists the eligible GPUs in device order, with their total free memory |
| SchedulerLoops.PlaceFirstFit | drigs/scheduler/fifo.py:45-85 | the first-fit loop over workers is one step of the pass |
| SchedulerLoops.FirstFitPass | drigs/scheduler/fifo.py:38-85 | the loop over jobs is the pass |
| FifoSchedulers.FIFOScheduler.Schedule | drigs/scheduler/fifo.py:20-87 | refines the greedy pass in submission order |
| FitSchedulers.FirstFitScheduler.Schedule | drigs/scheduler/fit.py:20-87 | refines the pass in priority order, first worker that fits |
| FitSchedulers.BestFitScheduler.ChooseWorker | drigs/scheduler/fit.py:117-158 | the scan picks the specification's worker and devices |
| FitSchedulers.BestFitScheduler.Schedule | drigs/scheduler/fit.py:93-177 | refines the pass with the least surplus |
| PrioritySchedulers.PriorityScheduler.Schedule | drigs/scheduler/priority.py:35-112 | refines the pass in the order of aged priority |
| BinPackSchedulers.BinPackScheduler.ChooseWorker | drigs/scheduler/binpack.py:45-88 | the scan with the clamped VRAM term picks the specification's worker and devices |
| BinPackSchedulers.BinPackScheduler.Schedule | drigs/scheduler/binpack.py:21-113 | refines the pass with the least clamped surplus |
| MemoryAwareSchedulers.MemoryAwareScheduler.ChooseWorker | drigs/scheduler/memory_aware.py:47-89 | the scan picks the specification's worker and largest-memory devices |
| MemoryAwareSchedulers.MemoryAwareScheduler.Schedule | drigs/scheduler/memory_aware.py:21-108 | refines the pass over workers in dictionary order |
| TopologyAwareSchedulers.TopologyAwareScheduler.ChooseWorker | drigs/scheduler/topology_aware.py:46-88 | the scan picks the worker with the best clique |
| TopologyAwareSchedulers.TopologyAwareScheduler.Schedule | drigs/scheduler/topology_aware.py:22-114 | refines the pass with the best clique |
| PassProperties.FitsIsAntitone | drigs/scheduler/fifo.py:50-69 | a job infeasible at some counters stays infeasible as counters grow |
| PassProperties.FitsIff | drigs/scheduler/fifo.py:45-69 | a worker can take a job if and only if it is healthy and has the cores, the memory and as many unused GPUs with the memory left |
| PassProperties.ScheduleSound | drigs/scheduler/binpack.py:90-105 | for every single-node policy: one allocation per job at most, each what the job asked for on a healthy worker; per worker, devices disjoint, memory within the total, cores tiling a prefix of its cores |
| PassProperties.ScheduleMaximal | drigs/scheduler/fit.py:110-175 | no job left out would still fit any worker beside what was handed out |
| PassProperties.SchedulePlacesIdle | drigs/scheduler/fifo.py:45-69 | whatever is placed would also fit the idle cluster |
| Choices.JobsInOrder | drigs/scheduler/priority.py:29-49 | whose turn comes first, for each policy: earlier submission; higher priority; larger GPU memory; higher priority plus aging times the wait |
| Choices.GrantsInOrder | drigs/scheduler/fifo.py:31-85 | allocations are handed out in that order |
| Choices.ServedIff | drigs/scheduler/fifo.py:38-85 | beside what the jobs ahead of it got, the next allocation is for a job if and only if some worker has room for it, and otherwise it gets none |
| Choices.FirstFitChoice | drigs/scheduler/fifo.py:45-83 | each allocation goes to the first worker by id that has room beside the earlier ones, on its first usable GPUs |
| Choices.BestFitChoice | drigs/scheduler/fit.py:117-158 | for best-fit and bin-packing it goes to the worker with the least free cores plus memory/1e9 plus usable VRAM/1e9 of all that have room, strictly less than any earlier one by id |
| Choices.MemoryAwareChoice | drigs/scheduler/memory_aware.py:47-89 | for memory-aware no selection of usable GPUs on any worker with room holds more free memory, and none on an earlier worker of the dictionary as much; a job without GPUs goes where most memory is free |
| Choices.TopologyAwareChoice | drigs/scheduler/topology_aware.py:46-90 | for topology-aware no such selection has a higher mean of points, and none on an earlier worker by id as high a one; a job without GPUs goes to the first worker with room |
| DictionaryOrder.DictionaryOrderIsIrrelevant | drigs/scheduler/fifo.py:41-48 | for every policy but memory-aware, the order of the worker dictionary does not change the schedule |
| DictionaryOrder.MemoryAwareOrderIff | drigs/scheduler/memory_aware.py:35-108 | every order of the worker dictionary gives the same memory-aware schedule if and only if no placement of the pass has two feasible workers with the highest score |
| DictionaryOrder.LoneJobOrderIff | drigs/scheduler/memory_aware.py:47-84 | for a single job: if and only if no two workers of the idle cluster serve it equally well and best |
| DictionaryOrder.MemoryAwareFollowsDictionary | drigs/scheduler/memory_aware.py:80-84 | the smallest instance: two workers that serve a job equally well |
| PolicyTheorems.SurplusesDiffer | drigs/scheduler/binpack.py:75-83 | the clamp never bites: the two surpluses differ by a constant of the job |
| PolicyTheorems.BinPackIsBestFit | drigs/scheduler/binpack.py:60-90 | bin-packing and best-fit return the same allocations on every input |
| PolicyTheorems.NoAgingIsFirstFit | drigs/scheduler/priority.py:44-112 | priority scheduling without aging is first-fit |
| PolicyTheorems.EqualPrioritiesIsFifo | drigs/scheduler/priority.py:44-112 | with equal priorities it is FIFO, for every aging factor at least 0 |
| PolicyTheorems.AgedOrderIsTimeless | drigs/scheduler/priority.py:29-33 | the order of two submitted jobs depends on the gap between them, not on the clock |
| PolicyTheorems.AgedScheduleIsTimeless | drigs/scheduler/priority.py:44-112 | so the schedule of a settled job list never changes as time passes |
| PolicyTheorems.LateJobFollows | drigs/scheduler/priority.py:29-33 | a job submitted after t + max(0, q-p)/aging is ordered behind one of priority p submitted at t |
| PolicyTheorems.AgingBoundsOvertaking | drigs/scheduler/priority.py:44-57 | so it is tried after it in the pass |
| PolicyTheorems.PrefixIsLargest | drigs/scheduler/memory_aware.py:76-78 | exchange argument: no k-subset holds more memory than the first k of the descending list |
| PolicyTheorems.MemoryAwareOptimal | drigs/scheduler/memory_aware.py:47-89 | the chosen GPUs hold at least as much free memory as any k-subset of eligible GPUs of any feasible worker |
| PolicyTheorems.MemoryAwareTies | drigs/scheduler/memory_aware.py:80-84 | ties go to the first worker of the dictionary |
| PolicyTheorems.TopologyAwareOptimal | drigs/scheduler/topology_aware.py:50-90 | the chosen GPUs score at least as high as any k-subset of eligible GPUs of any feasible worker |
| GangPlacement.GangPlaceAtomic | drigs/scheduler/gang.py:42-62 | a full gang or no change at all; no change exactly when no worker fits and the offers are too few |
| GangPlacement.SplitWithinRequest | drigs/scheduler/gang.py:175-204 | a gang on u workers costs at most max(cpus, u) cores and max(ram, u MiB) memory |
| GangShares.GangIsShared | drigs/scheduler/gang.py:120-206 | a job that fits no single worker is placed if and only if the workers with a core, 1 MiB and a usable GPU left have GPUs enough; its shares go to the first of them, each an even part of cores and memory but at least a core and 1 MiB, each but the last with all usable GPUs of its worker |
| GangShares.SingleGoesFirst | drigs/scheduler/gang.py:66-118 | a job that some worker can take alone goes as a whole to the first such worker, on its first usable GPUs |
| GangShares.DeferredIff | drigs/scheduler/gang.py:42-62 | when a job is deferred, in terms of what the workers have left |
| GangSchedulers.GangScheduleAtomic | drigs/scheduler/gang.py:25-64 | over a whole pass: each job has its full GPU count on different workers, or nothing, and then only because it could not be placed beside the whole output; devices disjoint; cores tile each worker |
| GangShares.GangsInOrder | drigs/scheduler/gang.py:30-62 | gangs are handed out by falling priority, and by submission among equals |
| GangSchedulers.GangCapacityExactly | drigs/scheduler/gang.py:148-193 | a multi-node placement keeps capacity if and only if each share fits its worker |
| GangSchedulers.GangScheduleCapacity | drigs/scheduler/gang.py:25-64 | the output of a whole pass stays within every worker's capacity if and only if each multi-node share fits when it is drawn |
| GangSchedulers.GangOrderIsIrrelevant | drigs/scheduler/gang.py:25-64 | the order of the worker dictionary does not change the gangs |
| GangSchedulers.GangMayExceedCapacity | drigs/scheduler/gang.py:148-193 | a family of clusters and jobs where it does not |
| GangSchedulers.GangScheduler.TrySingleNode | drigs/scheduler/gang.py:66-118 | the single-node attempt is one first-fit step on the shared counters |
| GangSchedulers.GangScheduler.TryMultiNodeGang | drigs/scheduler/gang.py:120-206 | the multi-node attempt is the split over the offers, or nothing |
| GangSchedulers.GangScheduler.Schedule | drigs/scheduler/gang.py:25-64 | the whole pass, with counters mutated in place by both attempts |
| SimulationConservation.VramIsConserved | experiments/harness.py:298-386 | after every tick, free memory plus what active jobs hold is the initial free memory, on every device |
| SimulationConservation.ChargeNeverClamps | experiments/harness.py:381-383 | when a proposal is charged, each of its devices has the memory |
| SimulationConservation.UtilisationIsPercentage | experiments/harness.py:329-342 | reported utilisation stays within 0 and 100 |
| SimulationConservation.ViewShows | experiments/harness.py:321-360 | the scheduler is shown every worker healthy with its whole cores and memory, and each GPU with its initial memory less what running jobs hold |
| SimulationLiveness.RunEnds | experiments/harness.py:280-424 | the loop reaches its break within ceil(last arrival / step) + the sum of ceil(duration / step) + 1 iterations, for every single-node policy |
| SimulationLiveness.RunAccounts | experiments/harness.py:283-405 | at every tick, arrived jobs are waiting, running or completed, each exactly once |
| SimulationLiveness.DoneMeansCompleted | experiments/harness.py:420-422 | when the loop breaks, every job of the trace is completed exactly once |
| SimulationTimes.ArrivedIff | experiments/harness.py:283-296 | after tick n an item has been taken in if and only if its arrival time is at most that of tick n |
| SimulationTimes.RunHistory | experiments/harness.py:283-405 | after tick n every waiting, running and completed job is an item that has arrived; a waiting one keeps the item's priority and request; a running one started at a tick not before its arrival, holds the memory it asked for, and ends exactly its duration later, still to come; a completed one ran from such a start to its end |
| SimulationTimes.TickStarts | experiments/harness.py:362-405 | a tick starts exactly what the policy schedules for the waiting jobs, in order |
| SimulationFeasibility.RunEndsIff | experiments/harness.py:280-424 | the loop reaches its break at some iteration if and only if every job of the trace fits some idle worker |
| Schedulers.RunScheduler | experiments/harness.py:365 | calls the scheduler a policy names |
| Harness.BenchmarkHarness.LoadVram | experiments/harness.py:246-257 | the initial VRAM table |
| Harness.BenchmarkHarness.ReleaseFinished | experiments/harness.py:298-319 | the release loop |
| Harness.BenchmarkHarness.EnqueueArrived | experiments/harness.py:283-296 | the arrival loop |
| Harness.BenchmarkHarness.StartScheduled | experiments/harness.py:367-405 | the charge loop over the scheduler's output |
| Harness.BenchmarkHarness.Advance | experiments/harness.py:280-424 | one iteration is one tick of the simulation |
| Harness.BenchmarkHarness.RunSingleTrial | experiments/harness.py:234-456 | stops at the first tick with nothing left or at the step limit, and returns that state |
| Harness.TrialCompletes | experiments/harness.py:259-424 | for distinct jobs that fit some idle worker and enough steps, a trial breaks within the bound with every job completed once |
| Harness.TrialRunsOnTime | experiments/harness.py:280-424 | every completed job of a trial ran for its whole duration within it, and not before it arrived |
| Harness.TrialBreaksIff | experiments/harness.py:259-424 | given enough steps, a trial leaves by its break if and only if every job of the trace fits some idle worker |
| Dictionaries.PutKeys | drigs/core/resource_manager.py:62 | assigning to a dictionary keeps the order of its keys, a new key going last |
| Stores.SQLiteStore.SaveJob | drigs/core/storage.py:83-119 | insert, or rewrite of exactly five columns |
| Stores.SQLiteStore.SaveWorker | drigs/core/storage.py:183-218 | the worker is found under its id, every other id finds what it found before, and there is still one row per worker |
| ResourceManagers.ResourceManager.RegisterWorker | drigs/core/resource_manager.py:59-69 | new devices become AVAILABLE, known ones keep their state; the row is written |
| ResourceManagers.ResourceManager.UnregisterWorker | drigs/core/resource_manager.py:71-80 | the worker goes and its devices become UNAVAILABLE |
| ResourceManagers.ResourceManager.UpdateDeviceStatus | drigs/core/resource_manager.py:82-89 | only bad news is recorded |
| ResourceManagers.ResourceManager.CheckDevices | drigs/core/resource_manager.py:126-142 | the validation loop finds the first device that cannot be had, and why |
| ResourceManagers.ResourceManager.ChargeDevices | drigs/core/resource_manager.py:147-151 | the charging loop, whose dictionary read cannot fault |
| ResourceManagers.ResourceManager.AllocateResources | drigs/core/resource_manager.py:106-165 | refusal in the order of the checks, else the whole new state and row; nothing changes on refusal |
| ResourceManagers.ResourceManager.DeallocateResources | drigs/core/resource_manager.py:167-184 | release by job id or by allocation id |
| ResourceManagers.ResourceManager.LoadFromStorage | drigs/core/resource_manager.py:39-57 | workers re-registered, grants restored under new ids |
| ResourceManagers.AcceptedDevice | drigs/core/resource_manager.py:126-151 | a validated device exists, is AVAILABLE, has its memory entry at 0 and room for the request |
| GrantConditions.GrantedIff | drigs/core/resource_manager.py:106-165 | a request is granted if and only if the job holds nothing, the worker is registered, and each device asked for is on it, AVAILABLE, and has that much memory in all; otherwise nothing changes |
| GrantConditions.RefusedWith | drigs/core/resource_manager.py:117-142 | which error each other request meets |
| GrantConditions.GrantRecorded | drigs/core/resource_manager.py:144-164 | what a grant records: the allocation, cores numbered from 0, the job's entry, each device ALLOCATED and charged once per mention, nothing else |
| GrantConditions.ReportRecorded | drigs/core/resource_manager.py:82-89 | what a status report records |
| GrantConditions.RegistrationRecorded | drigs/core/resource_manager.py:59-69 | a registration makes new devices AVAILABLE with nothing charged and leaves known ones as they are |
| GrantConditions.WithdrawalRecorded | drigs/core/resource_manager.py:71-80 | a withdrawal makes all devices of the worker UNAVAILABLE and leaves grants and charges as they are |
| ManagerProperties.ApplyKeepsOk | drigs/core/resource_manager.py:59-184 | every operation keeps: live grants share no device, held devices are never AVAILABLE, AVAILABLE means recorded memory 0 |
| ManagerProperties.RunKeepsOk | drigs/core/resource_manager.py:59-184 | so does every run of them |
| ManagerProperties.DevicesAreExclusive | drigs/core/resource_manager.py:106-184 | from an empty manager, under any interleaving, two live allocations never share a device of a worker |
| ManagerProperties.ReleaseUndoesGrant | drigs/core/resource_manager.py:106-184 | granting and releasing restores the manager exactly |
| ManagerProperties.OnlyJobIdClearsEntry | drigs/core/resource_manager.py:167-173 | after a release the job is refused as already allocated if and only if it was released by allocation id |
| ManagerProperties.ChargeWithinDeviceIff | drigs/core/resource_manager.py:126-151 | a device's recorded memory stays within its total if and only if all its mentions in the request fit together |
| ManagerProperties.GrantedCoresOverlap | drigs/core/resource_manager.py:144-145 | two grants on a worker share a core if and only if both ask for one |
| ManagerUsage.UseIsConserved | drigs/core/resource_manager.py:106-184 | cores and memory in use on a worker change by what a grant asks for and a release gives back, and by nothing else |
| ManagerUsage.StaysWithinIff | drigs/core/resource_manager.py:106-165 | over any run they stay within a limit if and only if every grant happens to fit beside those before it |
| ManagerUsage.GrantsExceedCores | drigs/core/resource_manager.py:126-165 | a worker whose cores are all in use is overcommitted by the next grant that is not refused for other reasons |
| ManagerUsage.OnlyReleaseRevives | drigs/core/resource_manager.py:59-184 | a key that is not AVAILABLE becomes AVAILABLE in one operation if and only if that operation releases an allocation holding it |
| ManagerUsage.ReleaseForgetsReport | drigs/core/resource_manager.py:82-89 | so a device reported UNAVAILABLE while held is offered again after the release |
| ManagerProperties.PersistMirrors | drigs/core/resource_manager.py:59-184 | every operation keeps the tables equal to the workers and grants in memory |
| ManagerProperties.RunMirrors | drigs/core/storage.py:183-308 | so does every run |
| ManagerProperties.RestartRestores | drigs/core/resource_manager.py:39-57 | after any run, a fresh manager loaded from the tables gives every job what it held, with exclusivity still holding |
| ManagerProperties.ReloadRestores | drigs/core/resource_manager.py:39-57 | the same from any consistent state, rows in any order |
| ManagerProperties.RestartForgetsHealth | drigs/core/resource_manager.py:39-57 | after a restart a device is ALLOCATED if it was held, and otherwise AVAILABLE whatever its health was |
| JobQueues.JobQueue.Add | drigs/core/queue.py:128-144 | capacity and duplicates refused without change, else queued, sorted and stored |
| JobQueues.JobQueue.Pop | drigs/core/queue.py:146-152 | takes the first pending job out of the queue and leaves the job table alone |
| JobQueues.JobQueue.GetPendingJobs | drigs/core/queue.py:162-165 | the QUEUED jobs of the queue, in order |
| JobQueues.JobQueue.RemoveJob | drigs/core/queue.py:172-180 | the job leaves the queue, memory and the table |
| JobQueues.JobQueue.UpdateJobStatus | drigs/core/queue.py:182-211 | refused without change unless the transition is valid; else status, times, error and row |
| JobQueues.JobQueue.LoadFromStorage | drigs/core/queue.py:111-123 | all stored jobs enter the table, only QUEUED ones the queue, which is sorted again |
| QueueProperties.QueueIsSortedArrivals | drigs/core/queue.py:108-152 | after any run the queue is the log of arrivals, stably sorted by (-priority, submission time) |
| QueueProperties.PendingIsExact | drigs/core/queue.py:146-221 | after any run, pending lists every QUEUED job that was not handed out by a dequeue exactly once, in order, and is as long as the count if and only if none of them was handed out |
| JobRules.PendingInOrder | drigs/core/queue.py:125-165 | over any run pending jobs stand by falling priority, and by submission among equals |
| QueueProperties.PendingCount | drigs/core/queue.py:162-221 | in general they are as long if and only if no QUEUED job has left the queue |
| QueueProperties.DequeuePartsCounts | drigs/core/queue.py:146-152 | after a dequeue they are as long if and only if no job was QUEUED |
| QueueProperties.DrainIsPending | drigs/core/queue.py:146-152 | dequeuing n times hands out the first n pending jobs in order |
| QueueProperties.CapacityCountsAllJobs | drigs/core/queue.py:128-180 | over any run, a job is refused for capacity if and only if that many jobs, finished ones included, are held and were not handed out |
| JobRules.EnqueuedIff | drigs/core/queue.py:128-144 | a job is taken in unless the queue is full or knows its id; a PENDING one is then QUEUED and in the list |
| JobRules.UpdateAcceptedIff | drigs/core/queue.py:26-47 | which update is accepted: live jobs may fail or be cancelled, only running ones complete or go into recovery, and only recovery leads back |
| JobRules.JobRecord | drigs/core/queue.py:182-211 | after any run a job has the status of its last accepted update, started with the first one to RUNNING or an end, was completed by the last one to an end, and carries the last message |
| LifeCycle.StatusBudget | drigs/core/queue.py:26-47 | over any run, status changes plus final potential are at most initial potential plus 4 per recovery |
| LifeCycle.StatusChangesAreBounded | drigs/core/queue.py:182-211 | from PENDING, a job that recovers r times changes status at most 4 + 4r times |
| LifeCycle.BoundIsReached | drigs/core/queue.py:26-35 | for every r some run makes that many |
| LifeCycle.HistoryIsKept | drigs/core/queue.py:182-211 | terminal statuses absorb, the start time is written once, priority and submission time never change |
| LifeCycle.RepeatedCompletionMoves | drigs/core/queue.py:40-41 | the completion time of a finished job is kept by an update if and only if the update is refused or comes at the same time |
| LifeCycle.TimesAreOrdered | drigs/core/queue.py:197-203 | over every run submitted <= started <= completed, and exactly finished jobs have a completion time |
| QueueRestart.PersistMirrorsJobs | drigs/core/storage.py:83-119 | every queue operation keeps the job table equal to the jobs in memory, environments aside |
| QueueRestart.RunMirrorsJobs | drigs/core/queue.py:128-211 | so does every run |
| QueueRestart.LoadKeepsIndex | drigs/core/queue.py:111-123 | rows read into a queue in use count as arrivals after all others |
| QueueRestart.ReloadRestoresQueue | drigs/core/queue.py:111-123 | a reload restores every job, lists exactly the QUEUED ones, and in the same order if none of them tie and none had been dequeued |
| QueueRestart.RestoredJobsAreLost | drigs/core/queue.py:117-121 | after a reload and any run, a job loaded in another status and not withdrawn is never pending, and pending is complete if and only if every QUEUED job is neither such nor handed out since |
| QueueRestart.RequeuedAfterRestart | drigs/core/queue.py:117-121 | a job RUNNING at the crash and re-queued later is QUEUED but not pending |
| Controllers.LocalController.SubmitJob | drigs/core/controller.py:111-129 | over-limit jobs and duplicates refused without change, else queued |
| Controllers.LocalController.Fail | drigs/core/controller.py:169-172 | the failure branch: FAILED and released, or an exception that leaves the step |
| Controllers.LocalController.LaunchGranted | drigs/core/controller.py:158-168 | note the allocation, launch, record the handle, mark RUNNING |
| Controllers.LocalController.Place | drigs/core/controller.py:140-172 | one proposed allocation, through every failure branch |
| Controllers.LocalController.PollHandle | drigs/core/controller.py:174-187 | one poll: finish, release and forget, or leave alone |
| Controllers.LocalController.Step | drigs/core/controller.py:131-189 | the whole pass; it keeps the bookkeeping, of a restarted controller too, and returns the number of RUNNING jobs it has handles for |
| Controllers.LocalController.CancelJob | drigs/core/controller.py:256-272 | forget and release if there is a handle, then CANCELLED if not finished |
| Controllers.LocalController.LoadPersistedState | drigs/core/controller.py:62-76 | manager and queue are filled from the tables, handles stay as they were |
| ControlProperties.BookkeepingCoincides | drigs/core/controller.py:47-51 | handles, allocations and RUNNING jobs are the same set of jobs, orphans of a restart aside, and grants are those and the orphans' |
| ControlProperties.PlaceQueued | drigs/core/controller.py:140-172 | placing a queued job keeps the bookkeeping, touches no other job, and ends RUNNING if and only if the devices were granted and the launch succeeded, else FAILED |
| ControlProperties.PlacementIsSafeIff | drigs/core/controller.py:140-172 | a single proposed allocation keeps the bookkeeping if and only if its job is not already RUNNING |
| ControlProperties.PlaceAllKeepsOk | drigs/core/controller.py:140-172 | the placement phase does not raise and leaves every proposed job RUNNING or FAILED; which of the two is `PlacementOutcome` |
| ControlProperties.PollAllKeepsOk | drigs/core/controller.py:174-187 | the polling phase keeps the bookkeeping and gives each running job the status it reported |
| ControlProperties.StepKeepsOk | drigs/core/controller.py:131-189 | a step with at most one allocation per job does not raise; jobs neither proposed nor running stay as they are |
| ControlProperties.ProposalsReady | drigs/core/controller.py:134-138 | every single-node scheduler proposes pending jobs only, each at most once |
| ControlFacts.ProposalsAre | drigs/core/controller.py:134-138 | the scheduler is asked for all pending jobs, in the order of the queue, on all registered workers |
| ControlFacts.SubmittedIff | drigs/core/controller.py:111-129 | a job is taken in if and only if it is within the GPU and CPU limits and its id is new; a refused one leaves no trace |
| ControlProperties.CancelKeepsOk | drigs/core/controller.py:256-272 | cancelling releases everything the job holds, unless a restart orphaned it, and touches no other job; finished jobs are left alone |
| ControlProperties.ControllerStaysInStep | drigs/core/controller.py:111-272 | the bookkeeping invariant over every run of submissions, steps, cancellations, worker churn and device failures, also of a restarted controller |
| ControlProperties.FreshControllerRuns | drigs/core/controller.py:29-57 | in particular from a fresh controller |
| ControlProperties.RunningJobsAreApart | drigs/core/controller.py:149-163 | two RUNNING jobs never run on the same device of a worker |
| ControlOutcomes.PlacementIsAtomic | drigs/core/controller.py:140-172 | a placement that fails, at whatever point, leaves the manager exactly as it was |
| ControlFacts.StartedHolds | drigs/core/controller.py:149-168 | a job that starts holds the proposed worker and devices, the cores it asked for as far as the worker has them, and its memory; job, controller and manager agree on it |
| ControlFacts.FailedSays | drigs/core/controller.py:169-172 | a proposed job that does not start is FAILED with the text of the error and holds nothing |
| ControlOutcomes.PlacementFate | drigs/core/controller.py:140-172 | for any proposals of waiting jobs, several for one job or device included, none following one that starts for its job: the state before the phase decides which jobs end RUNNING and which FAILED, and which device keys are taken; nothing else changes |
| ControlOutcomes.PlaceAllSafeIff | drigs/core/controller.py:140-172 | the phase keeps the bookkeeping if and only if no proposal follows one that starts for the same job |
| ControlOutcomes.PlacementOutcome | drigs/core/controller.py:140-172 | when no device is proposed twice, a proposed job ends RUNNING if and only if its devices could be granted before the phase and its launch succeeds, whatever became of the proposals before it |
| ControlOutcomes.StepOutcome | drigs/core/controller.py:131-189 | after a whole step of any single-node scheduler, a proposed job has the status its first poll gives if it starts, else FAILED; when worker ids hold no colon, it starts if and only if it could be granted alone and its launch succeeds |
| ControlFacts.ProposalStartsIff | drigs/core/controller.py:131-189 | for plain worker ids and devices with no more available than total memory, it starts if and only if all its devices are AVAILABLE before the step and its launch succeeds |
| ControlOutcomes.TakenDeviceFailsJob | drigs/core/controller.py:131-189 | a job proposed on a device that is not AVAILABLE is FAILED after the step |
| ControlOutcomes.TakenGpusFailJobs | drigs/core/controller.py:131-189 | with every GPU taken and waiting jobs that would fit an idle worker, every policy still proposes some, and each of those is FAILED after the step |
| ControlOutcomes.HeldGpuFailsWaitingJob | drigs/core/controller.py:131-189 | the family with one GPU held by a RUNNING job and one job waiting for it |
| ControlGang.GangStepIsSafeIff | drigs/scheduler/gang.py:25-64 | with gang placement as its scheduler, a controller's placement phase keeps the bookkeeping if and only if no gang has a share behind one that starts |
| ControlGang.FirstGangBreaksStep | drigs/scheduler/gang.py:120-206 | so it is broken when the first gang spans workers and its first share is granted and launched |
| ControlRestart.ControllerMirrors | drigs/core/controller.py:111-272 | after every operation of every run, the three tables hold exactly the jobs, workers and grants in memory |
| ControlRestart.RestartRestoresState | drigs/core/controller.py:62-76 | a restart restores every job's status and grant, exclusively |
| ControlRestart.RestartOrphansGrants | drigs/core/controller.py:62-76 | the invariant holds after a restart with exactly the grants held at the crash as orphans |
| ControlRestart.RestartIsOkIff | drigs/core/controller.py:62-76 | it holds without orphans if and only if nothing was held |
| ControlRestart.OrphansAreNeverReleased | drigs/core/controller.py:62-272 | over every run after a restart, no operation releases what a job held at the crash |
| ControlRestart.CancelReleasesIff | drigs/core/controller.py:263-267 | cancelling releases a grant if and only if the controller has the handle |
| Registries.WorkerRegistry.Register | drigs/workers/registry.py:37-55 | the worker is found under its id, every other id finds what it found before, and the row is written |
| Registries.WorkerRegistry.Heartbeat | drigs/workers/registry.py:57-78 | a known worker is found with the new status and time, every other as before; unknown ones are refused without change |
| Registries.WorkerRegistry.Deregister | drigs/workers/registry.py:80-89 | the worker is not found, every other as before; the row goes if it was known |
| Registries.WorkerRegistry.CheckTimeouts | drigs/workers/registry.py:91-119 | lapsed workers become OFFLINE and are returned, this once; the table is not written |
| Registries.WorkerRegistry.GetWorker | drigs/workers/registry.py:121-125 | a lookup after a timeout check whose report is dropped |
| Registries.WorkerRegistry.GetActiveWorkers | drigs/workers/registry.py:127-135 | the healthy and degraded workers, after the same |
| Registries.WorkerRegistry.GetAllWorkers | drigs/workers/registry.py:137-141 | all workers, after the same |
| Detection.TimeoutsNoticed | drigs/workers/registry.py:91-119 | a check marks exactly the workers whose last heartbeat is older than the timeout and that are not OFFLINE, and reports their ids |
| Detection.ActiveAre | drigs/workers/registry.py:127-135 | active workers are those HEALTHY or DEGRADED |
| Recovery.Rescheduler.RescheduleJob | drigs/recovery/rescheduler.py:30-59 | release, RECOVERING, checkpoint, QUEUED, and what reaches the three tables |
| Recovery.FailureDetector.TrackJob | drigs/recovery/detector.py:46-61 | the job is monitored on that worker, once, and every other job as before |
| Recovery.FailureDetector.UntrackJob | drigs/recovery/detector.py:63-66 | the job is not monitored, and every other job is as before |
| Recovery.FailureDetector.CheckFailures | drigs/recovery/detector.py:68-130 | the three scans, with callbacks run in order and their exceptions swallowed |
| RecoveryProperties.RescheduleOutcome | drigs/recovery/rescheduler.py:30-59 | re-queued if and only if RUNNING or RECOVERING; the grant is released either way and no other grant changes |
| RecoveryProperties.CheckpointIsRestored | drigs/recovery/rescheduler.py:46-54 | the checkpoint's path and step are in the environment, the rest of it is unchanged |
| RecoveryProperties.RescheduleMirrorsIff | drigs/recovery/rescheduler.py:38-43 | the job table still mirrors memory if and only if the job was re-queued or had no allocation |
| RecoveryProperties.RescheduleMirrorsTables | drigs/recovery/rescheduler.py:39 | the worker and allocation tables mirror the manager in every case |
| RecoveryProperties.StaleHandle | drigs/core/controller.py:175-185 | after rescheduling, the old handle's next poll ends the queued job if and only if it reports FAILED or CANCELLED |
| RecoveryProperties.RescheduleIsSafeIff | drigs/recovery/rescheduler.py:30-59 | rescheduling a job beside a controller keeps its bookkeeping if and only if the job is neither RUNNING nor left over from a restart |
| RecoveryProperties.CheckReportsExactly | drigs/recovery/detector.py:88-128 | a check reports a job, once, if and only if it was never reported, is monitored, and its worker failed, its poll reports FAILED, or it cannot be polled |
| Detection.ReportedIff | drigs/recovery/detector.py:74-128 | the same in terms of heartbeats and polls alone |
| Detection.CalledIff | drigs/recovery/detector.py:92-128 | the rescheduler is called in the first two cases and not for a process that only cannot be polled |
| Detection.CheckOutcome | drigs/recovery/detector.py:68-130 | a check re-queues a job if and only if it is called for and RUNNING or RECOVERING; a job that is not called for is untouched |
| Detection.CheckRemembers | drigs/recovery/detector.py:68-130 | a check adds the silent workers and the reported jobs to those remembered, and forgets nothing |
| RecoveryProperties.WorkerReportsExactly | drigs/recovery/detector.py:74-86 | a check reports a worker if and only if its lapse was not noticed before and it never failed before |
| RecoveryRuns.JobsReportedOnce | drigs/recovery/detector.py:88-128 | over any run no job is reported twice |
| RecoveryRuns.WorkersReportedOnce | drigs/recovery/detector.py:74-86 | over any run no worker is reported twice, even when it returns and lapses again |
| RecoveryRuns.QueriesConsumeTimeouts | drigs/workers/registry.py:121-141 | the next check reports a lapsed worker unless it failed before, but after a query no later check does until it registers or beats again |
| RecoveryRuns.RecoveredAtMostOnce | drigs/recovery/rescheduler.py:61-65 | when recovery comes only through the detector, a job enters RECOVERING at most once and a queued job changes status at most seven times |
| RecoveryRuns.SecondFailureIsIgnored | drigs/recovery/detector.py:92-106 | a check leaves a job that was reported before untouched |

## Left out

- Execution backends (native, docker, distributed): OS processes; `launch` and `get_status` are oracles that may raise, `stop` is taken not to raise.
- REST server, CLI, worker agent, metrics, diagnostics, authentication, hardware discovery, checkpoint files: plumbing or foreign calls; devices and the latest checkpoint are inputs.
- SQL, JSON and YAML encodings: tables are maps of rows, read back in any order.
- Threads, locks, asyncio and the background loops: each public operation is one atomic step.
- Floating-point rounding: times, scores and surpluses are exact reals; the accumulated `sim_time` is the exact multiple of the step, and metrics rounding, percentiles, fragmentation and topology samples of the harness are not modelled.
- The counters `worker_cpu_alloc` and `worker_mem_alloc` of the harness: they are written but never reach the view given to the scheduler.
- Gang placement inside the harness: its results are for the seven single-node policies. Inside the controller gangs are covered up to the end of the placement phase (`GangStepIsSafeIff`); polling after a phase that broke the bookkeeping is not.
- Names, entrypoints and the non-negativity checks of job validation: only the GPU and CPU limits of admission are modelled; negative requests are excluded by the types.
- The texts of exceptions: the error recorded on a failed job is a parameter, and log messages are left out.
- Allocation ids and timestamps of scheduler output: they are generated and compared by nobody.
- Distinctness of object identity and of job ids: the model has one job object per id.
- `min_compute_capability` and `topology_aware` of a request, and topology tags other than `nvlink_group`: no modelled code reads them.
- Harness.BenchmarkHarness.RunSingleTrial: the wait times, fragmentation samples and topology scores of the result are not modelled; no later iteration reads them.
- JobQueues.JobQueue.LoadFromStorage: requires rows of jobs that are not in the queue's list, as in a new queue; when the list has a job of that id already, the original keeps two job objects of that id, which the model cannot tell apart.
- Controllers.LocalController.LoadPersistedState: the same, and worker rows with distinct ids, which their primary key provides.
- Controllers.LocalController.Step: requires distinct device ids per worker and fresh uuids, which discovery and uuid4 provide, and the invariant of `ControllerStaysInStep`, orphans of a restart included; one clock reading serves a whole step.
- Recovery.FailureDetector.CheckFailures: the only job callback is the rescheduler's, and worker callbacks only observe.
- Registries.WorkerRegistry.GetWorker: the report of its timeout check is dropped, as in the original; loading a registry from storage is not modelled.
- The class `GPUIsolationManager`, `RemoteDispatcher`, trace generation, plotting and paper exporters: they would only add easy members.
