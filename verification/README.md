# Keck, verified

Keck measures the power of Kubernetes nodes, splits it among processes, pods and namespaces, and keeps
a cluster-wide view of the result. This project models the parts of Keck that carry its promises and
proves those promises in Dafny 4.11. `dafny verify dfyconfig.toml` checks everything.

The model has four parts.

**Attribution.** `SocketSplit`, `Engine` and `Attribution` follow the attribution engine: socket energy
is split to cores, core energy to tasks, DRAM energy to tasks, and energy becomes power. Almost every
stage truncates, so the theorems are conservation with exact bounds on what truncation loses. `Models`
has the three weighting models. `Tuner`, `TunerError` and `TunerRun` have the coefficient tuner and its
stability over every run, and `TunerDescent` says that the updates follow the error. `ProcPods`,
`EbpfPods`, `EbpfReports`, `PodMerge` and `PodTick` follow one collection tick of the agent from
per-process metrics to pod reports, `EbpfShares` says what the weighted path computes, and `MergeExact`
says exactly when merging the two paths stays within the node. `Enrich` rolls processes up into containers, pods and
namespaces.

**Observation.** `SchedSwitch` is the scheduler handlers and the userspace drain as a state machine whose
steps are single map operations; a run is any interleaving of them, and a ledger accounts for every
nanosecond. `Observer` has the same two programs updating the maps in place, and
`AtomicDrain` is what an uninterrupted drain keeps and an interrupted one can lose. `EnergyCounter` and
`Collector` are the wrapping energy counters and the tiered poller.

**The cluster.** `Aggregator` is the controller's state machine: reports, staleness and node removal,
shared by several metering methods. `PodOwnership` and `ClusterViews` prove what every reachable state
and every view satisfies, `NodePresence` says what is held after any run in terms of the reports and
removals alone, `ClusterAggregator` (module `AggregatorObject`) is the object that updates the
maps in place, `Grouping` is the grouped view, and `GroupMethods` is what that view makes of several
metering methods. `Scores` and `Scheduler` are the scheduler extender over that state.

**Store and parser.** `Outbox` and `Store` are the agent's outbox protocol, rings and queries; `Labels`
is the parser of scraped metric lines.

`Sums`, `SeqSums`, `Shares`, `Ratios` and `Tallies` hold sums that do not depend on the order of
iteration, truncated shares and sorting; `Entries` says which entries of a list decide a key;
`KernelData`, `Options` and `PodReports` hold shared data.

## Conventions

- An f64 is an exact `real`. `as u64` and `as u32` truncate and saturate. Division by zero is written
  out where the code can reach it (a platform reading of zero in `Scores`).
- Iterating over a hash map visits its keys in an arbitrary order (`while todo != {}` with `:|`), so
  results that hold of the loops hold for every order.
- Integers are unbounded; sums that would overflow u64 or u128 are outside the model.
- The clock, file and network reads, `/proc`, cgroups, the kubelet's map and f64 parsing are inputs. The
  square root of the tuner is a parameter of which only `sqrt(x) * sqrt(x) == x` is used.
- The kernel may refuse an insert or a removal; the code ignores both results, and so does the model.

Where the code and its comments or tests disagree, the model follows the code: `select_model` without
frequency data but with counters gives CpuTimeRatio; `filter` passes nodes without power data although
its comment says they are removed; `group_power` has no filter on the metering method; the field called
unaccounted power holds an energy; a ring of capacity zero keeps one element; the outbox is unbounded.

## Model

| member | source | states |
|---|---|---|
| SchedSwitch.LedgerBalances | keck-ebpf/src/main.rs:82-149 | for every interleaving of the handlers' lookups and updates with separate reads and removals, the time a task ran on a CPU plus what a failed removal reports twice equals what is reported, still in the map (beyond what the running drain has read), or lost; an update through the pointer of a lookup whose entry has been removed since is lost time |
| SchedSwitch.KeptIffUndisturbed | keck-agent/src/ebpf/mod.rs:155-173 | in every run and for every key: nothing is lost, counted again or about to be if and only if no credit of the key falls between its read and its removal or on an entry removed since the lookup, and the kernel refuses neither its inserts nor its removals |
| SchedSwitch.NothingLostWhenUndisturbed | keck-agent/src/ebpf/mod.rs:155-173 | for a key that was never disturbed in that sense, reported plus still in the map is exactly the time the task ran |
| AtomicDrain.AtomicIsUndisturbed | keck-agent/src/ebpf/mod.rs:155-173 | if no handler is half way when a drain begins, none takes a step until it ends and the kernel refuses nothing, no key is ever disturbed |
| AtomicDrain.NothingLostWhenDrainIsAtomic | keck-agent/src/ebpf/mod.rs:155-173 | with such drains, outside a drain, reported plus still in the map is exactly the time the task ran, for every task and every run |
| AtomicDrain.InterruptedDrainLoses | keck-agent/src/ebpf/mod.rs:155-173 | for every task and times a < b < c: a legal run in which it runs from a to c, a switch at c falls between the read and the removal, the kernel refuses nothing, b - a is reported and c - b is lost |
| SchedSwitch.CpuLedgerBalances | keck-ebpf/src/main.rs:82-149 | the same balance for a whole CPU: the non-idle time between its first and its last switch |
| SchedSwitch.BusyIsTheSumOfRuns | keck-ebpf/src/main.rs:96-110 | a CPU's non-idle time is the sum over the tasks ever brought in of the time each ran |
| SchedSwitch.Invariant | keck-ebpf/src/main.rs:93-149 | in every run each slot holds the last switch of its CPU, only real tasks have entries, an entry read by the drain only grows until it is removed, and an entry a handler did not find is still missing when it inserts |
| Observer.BpfMaps.HandleSchedSwitch | keck-ebpf/src/main.rs:82-149 | the handler's in-place updates are exactly a Lookup and a Switch step of the state machine, with the insert refused when the map is full |
| Observer.BpfMaps.Update | keck-ebpf/src/main.rs:96-149 | whatever the drain did since the lookup, the second half is one Switch step, and no entry goes or shrinks |
| Observer.BpfMaps.Drain | keck-agent/src/ebpf/mod.rs:155-173 | with lookups and updates of any CPUs in between, the drain returns each key at most once, returns every key present at the start with at least its value then, and what it returns is exactly what the ledger newly reports |
| Observer.BpfMaps.RemoveAll | keck-agent/src/ebpf/mod.rs:170-172 | the second loop removes or tries to remove exactly the keys that were read, and reports nothing |
| SocketSplit.SplitSocketToCores | keck-agent/src/attribution/engine.rs:279-335 | each core gets its truncated weighted share of its socket, or the truncated even share when the socket has no weight; each socket's cores fall short of its energy by less than the number of its cores, and all cores of the node by at most the number of cores minus the number of sockets |
| SocketSplit.SocketIsConserved | keck-agent/src/attribution/engine.rs:307-331 | in both branches the cores of a socket get at most its energy and lose less than one unit per core |
| SocketSplit.SocketsAddUp | keck-agent/src/attribution/engine.rs:307-331 | the cores of all sockets together get at most the sockets' energy, and what is missing is at most the number of cores minus the number of sockets |
| SocketSplit.CoreWeightsAre | keck-agent/src/attribution/engine.rs:287-305 | a core has a weight exactly if it has an entry, and the weight is the sum over its entries of time times squared average frequency |
| SocketSplit.AvgFreqIs | keck-agent/src/attribution/engine.rs:338-358 | the average frequency of a CPU times the time in its entries is the sum of frequency times time over them; 1 GHz without time |
| SocketSplit.CoreShareIs | keck-agent/src/attribution/engine.rs:307-331 | a core's energy times all weights is the socket's energy times the core's weight, up to less than one unit; without weight every core gets the floor of an even part |
| Models.CoreIsConserved | keck-agent/src/attribution/model.rs:102-199 | under every model the truncated charges of a core's tasks are at most its energy and lose less than one unit per task, or nothing is charged because the weights are zero |
| Models.ExactIffWhole | keck-agent/src/attribution/model.rs:20-21 | under every model the charges add up to exactly the core's energy if and only if every task's share is whole, or, when the weights are zero, if there is no energy |
| Models.ExactIffDivisible | keck-agent/src/attribution/model.rs:179-199 | for the time ratio that condition in integers: every task's time times the energy is divisible by the total time |
| Models.TruncationLosesEnergy | keck-agent/src/attribution/model.rs:20-21 | under every model, two equal tasks sharing one unit of energy both get nothing, so exact conservation does not hold in general |
| Models.FrequencyWeightedRefinesTimeRatio | keck-agent/src/attribution/model.rs:155-169 | at every positive core frequency FrequencyWeighted charges each task exactly what CpuTimeRatio charges it, and at frequency zero it charges nothing |
| Models.FullModelStaysNearTimeShare | keck-agent/src/attribution/model.rs:103-139 | FullModel's share of a task lies between lo/hi and hi/lo of its time share, where lo and hi bound the workload factors on the core |
| Models.WorkloadFactorIs | keck-agent/src/attribution/model.rs:113-130 | the factor is one plus alpha times instructions per cycle plus beta times misses per instruction, where those are the numbers whose products with the denominators are the counters, or zero without a denominator |
| Models.ChargeIs | keck-agent/src/attribution/model.rs:102-199 | under every model a task's charge times all weights is the core's energy times the task's weight, up to less than one unit; nothing without weights |
| Models.SelectModelIs | keck-agent/src/attribution/model.rs:201-211 | FullModel, with 0.3 and 1.5, exactly with frequencies and counters, FrequencyWeighted exactly with frequencies alone, CpuTimeRatio exactly without frequencies |
| Engine.ChargeCores | keck-agent/src/attribution/engine.rs:103-176 | each task's energy is the sum of its per-core detail, its detail lists exactly the cores that charged it, and all energies together are what the cores handed out |
| Engine.DetailIs | keck-agent/src/attribution/engine.rs:148-176 | every entry of a task's detail is of a core that was charged and that the task ran on, with what it was charged there, in ascending order of the cores |
| Engine.DetailLists | keck-agent/src/attribution/engine.rs:148-176 | and every such core has an entry |
| Engine.ChargedCoreIsConserved | keck-agent/src/attribution/engine.rs:148-161 | a core hands out at most its energy, and one that is charged falls short by less than the number of its tasks |
| Engine.ChargedIff | keck-agent/src/attribution/engine.rs:106-154 | a core is charged exactly if it has energy, a task ran on it, and its frequency is not zero, unless the model is CpuTimeRatio |
| Attribution.AttributionEngine.constructor | keck-agent/src/attribution/engine.rs:62-75 | a new engine starts with CpuTimeRatio, and has a core for every socket exactly if there are cores and no fewer than sockets |
| Attribution.AttributionEngine.Attribute | keck-agent/src/attribution/engine.rs:80-270 | every power in the snapshot is the whole number of microwatts of the energy it stands for: power times interval is at most energy times a thousand million and less than one interval short of it; a task's energy is the sum of its charges, its DRAM energy its part by cache misses, else by CPU energy, else nothing; idle energy is the core energy less exactly what was charged; platform power, unaccounted energy and error ratio are those of the platform's and the components' energy; process plus idle power is at most measured CPU power and short by at most the number of processes |
| Attribution.ChargesFitTheTotal | keck-agent/src/attribution/engine.rs:209-212 | what is charged to tasks never exceeds the total core energy |
| Attribution.CpuPowerIsConserved | keck-agent/src/attribution/engine.rs:183-211 | process CPU power plus idle power is at most measured CPU power and short by at most the number of processes |
| Attribution.MemoryIsConserved | keck-agent/src/attribution/engine.rs:431-471 | DRAM energy given to tasks never exceeds the total in either branch, and when a branch fires it is short by less than the number of tasks |
| Attribution.MemoryPowerFits | keck-agent/src/attribution/engine.rs:183-211 | the memory power of the processes is at most measured memory power |
| Attribution.AttributeMemory | keck-agent/src/attribution/engine.rs:431-471 | DRAM energy is divided by cache misses if any were counted, else by CPU energy, else not at all |
| Attribution.MemorySplitIs | keck-agent/src/attribution/engine.rs:431-471 | a task's DRAM energy times all misses is the DRAM energy times its misses, up to less than one unit; the same by CPU energy when there are no misses; nothing when there is neither |
| Attribution.PidMissesAre | keck-agent/src/attribution/engine.rs:474-501 | a task has misses exactly if some counter entry is of a busy core it ran on, and they are the sum over those entries of its truncated time share of the core's misses |
| Attribution.CountersAreSplit | keck-agent/src/attribution/engine.rs:384-425 | the counter parts given to the tasks of a core add up to at most the core's counter and lose less than one unit per task |
| Attribution.LastCountersAre | keck-agent/src/attribution/engine.rs:397-422 | a core's counters are those of its last entry, and there are some exactly if it has one |
| Attribution.ObserveIs | keck-agent/src/attribution/engine.rs:403-421 | a task's counter times the core's busy time is the core's counter times the task's time, up to less than one unit; nothing on a core without counters |
| Attribution.InputIs | keck-agent/src/attribution/engine.rs:106-144 | a core's input has its energy, its average frequency in whole kHz, and exactly the tasks with an entry for it, each with the time of its last entry and its part of the counters last listed for the core |
| Attribution.CorePidsHold | keck-agent/src/attribution/engine.rs:361-375 | a core's map holds exactly the tasks with an entry for that core, each with the time of the last entry for the pair |
| Attribution.BuildInputs | keck-agent/src/attribution/engine.rs:106-144 | every core's input is its energy, average frequency and observed tasks |
| Attribution.Reconcile | keck-agent/src/attribution/engine.rs:213-231 | unaccounted energy is the platform's minus the components', and the error ratio times the platform's energy is the size of that difference; both are zero without a platform reading, and the ratio also for a reading of zero |
| Shares.EnergyToPowerAdds | keck-agent/src/attribution/engine.rs:505-511 | converting an energy in two parts loses at most one microwatt |
| Shares.EnergyToPowerIs | keck-agent/src/attribution/engine.rs:505-511 | power times interval is at most energy times a thousand million, and less than one interval short of it; zero without an interval |
| Shares.ShareIs | keck-agent/src/attribution/engine.rs:157-161 | a truncated share times all weights is the total times the weight, up to less than one unit |
| Shares.SplitLosesLessThanCount | keck-agent/src/attribution/engine.rs:157-161 | truncated proportional shares hand out at most the total and lose less than one unit per share |
| TunerError.ErrorBound | keck-agent/src/attribution/tuner.rs:182-217 | the consistency error is nonnegative and its square is at most the number of tasks minus one |
| TunerError.ErrorZeroIff | keck-agent/src/attribution/tuner.rs:182-217 | the error is zero exactly when every task's energy per cycle is one |
| Tuner.VarianceBound | keck-agent/src/attribution/tuner.rs:210-216 | the variance of n nonnegative numbers is at most n minus one times the square of their mean |
| TunerRun.UpdateIsStable | keck-agent/src/attribution/tuner.rs:65-150 | for any input with at most n tasks per core and any b with b*b >= n-1: the smoothed gradients stay within b/0.01, an effective update leaves both coefficients in their clamp ranges, and a coefficient that was in range moves by at most the learning rate times b/0.01 |
| TunerRun.EveryRunIsStable | keck-agent/src/attribution/tuner.rs:65-150 | after every sequence of updates the smoothed gradients are within b/0.01 and the coefficients in their ranges, and no update of the sequence moved a coefficient that was in range by more than the learning rate times b/0.01 |
| TunerRun.UpdateDescends | keck-agent/src/attribution/tuner.rs:137-149 | an update moves a coefficient that is in range against its smoothed gradient, never with it |
| TunerDescent.AlphaFollowsTheError | keck-agent/src/attribution/tuner.rs:105-149 | if raising alpha by 0.01 raises the error of no qualifying core and the moving average is not positive, alpha does not fall, and it rises if that lowers the error of all of them and there is room; likewise downwards |
| TunerDescent.BetaFollowsTheError | keck-agent/src/attribution/tuner.rs:105-149 | the same for beta |
| TunerDescent.GradientsAre | keck-agent/src/attribution/tuner.rs:123-129 | each gradient is a hundred times the error at 0.01 more of its own coefficient less the error |
| TunerDescent.QualifiesIff | keck-agent/src/attribution/tuner.rs:105-118 | a core qualifies exactly if it has two tasks or more, every one has instructions, and some task's instructions per cycle are at least twice another's |
| TunerDescent.ErrorIs | keck-agent/src/attribution/tuner.rs:182-217 | the error is nonnegative, and its square times the squared mean of the energies per cycle is the mean of their squared deviations, whatever numbers are those energies, mean and deviations |
| TunerDescent.ObservedIs | keck-agent/src/attribution/tuner.rs:88-97 | instructions per cycle times cycles are the instructions, and misses per instruction times instructions the misses, zero without instructions |
| TunerRun.SmoothingApproaches | keck-agent/src/attribution/tuner.rs:140-142 | under a steady gradient the moving average approaches it by a factor of 0.9 per update |
| TunerDescent.UpdateIs | keck-agent/src/attribution/tuner.rs:132-152 | whatever numbers are the averages of the gradients over the qualifying cores: ten times each moving average is nine times the old one plus that number, and each coefficient steps by exactly the learning rate times its moving average, or to the nearer bound |
| TunerRun.CoefficientTuner.Update | keck-agent/src/attribution/tuner.rs:65-150 | the in-place update gives the specified state whatever the order in which cores are visited, and changes nothing without a qualifying core |
| TunerRun.GatherSelects | keck-agent/src/attribution/tuner.rs:75-99 | a core is there exactly if it has an entry with time and cycles, and its observations are those of its own such entries, in their order, and no others |
| ProcPods.EnumeratePods | keck-agent/src/main.rs:1207-1433 | one report per pod with a process, each component the pod's part of the node's by what the pod used: CPU by ticks of all, memory by set size of all or six tenths so and four tenths by ticks with cache misses, storage by bytes of all, network by bytes among the pods or else by ticks; for every order of the map |
| ProcPods.ReportFollowsUse | keck-agent/src/main.rs:1369-1433 | in integers: a component times what all used is the node's power times what the pod used, up to less than one unit, and zero if nothing was used; for memory the parts are over the common denominator |
| ProcPods.ProcFitsNode | keck-agent/src/main.rs:1353-1433 | pod CPU, memory, storage and network power each add up to at most the node's, and every report's total is the sum of its components |
| ProcPods.ProcLosesLessThanCount | keck-agent/src/main.rs:1375-1414 | network power is short by less than one microwatt per pod when bytes were counted among the pods; CPU, storage and memory likewise when every process is in a pod and the quantity they go by was counted |
| ProcPods.PodsUseAtMostAll | keck-agent/src/main.rs:1315-1346 | what the pods use of any quantity is at most what all processes use, and exactly that if every process is in a pod |
| EbpfPods.CoresAddUp | keck-agent/src/main.rs:897-940 | in all three weight fallbacks the cores' powers add up to the node's CPU power |
| EbpfPods.CoreIsConserved | keck-agent/src/main.rs:974-1009 | a core gives the pods at most its power, and all of it when all its tasks are in pods |
| EbpfPods.PodsShareTheCpu | keck-agent/src/main.rs:897-1009 | the pods' CPU powers add up to at most the node's, and to exactly it when every core with weight ran only tasks of pods |
| EbpfReports.EbpfFitsNode | keck-agent/src/main.rs:1023-1041 | the reported CPU and memory powers add up to at most the node's; CPU loses less than one microwatt per pod when nothing ran outside pods |
| EbpfReports.PssAddsUp | keck-agent/src/main.rs:1011-1020 | the pods' set sizes add up to the total by which they are normalised |
| EbpfShares.CorePowerIs | keck-agent/src/main.rs:935-940 | a core's power times all weights is the node's power times the core's weight |
| EbpfShares.TaskWeightIs | keck-agent/src/main.rs:976-995 | without per-task counters a task weighs its time; with them its time times one plus alpha times instructions per cycle plus beta times misses per instruction |
| EbpfShares.CoreShareIs | keck-agent/src/main.rs:997-1005 | a pod's part of a core times the weight of all tasks is the core's power times the weight of the pod's tasks; nothing without power or weight |
| EbpfShares.PidPodsAre | keck-agent/src/main.rs:946-955 | a task has a pod exactly if some entry of it names one, and it is the one of the first such entry |
| EbpfShares.TasksOnAre | keck-agent/src/main.rs:957-957 | the tasks of a core are exactly its entries, each as often as it is there |
| EbpfShares.PodPssIs | keck-agent/src/main.rs:1010-1016 | a pod's set size is the sum over its tasks, zero for a task without a reading |
| EbpfShares.ReportIs | keck-agent/src/main.rs:1018-1041 | a report has the floor of the pod's CPU power and the floor of the memory power times its part, by set size or six tenths so and four tenths by CPU power when cache misses were counted; the other components are zero |
| EbpfReports.EnumerateWeighted | keck-agent/src/main.rs:886-1068 | no reports when no core has weight; otherwise one report per resolved pod with its CPU power and blended memory power, for every order of the maps |
| EbpfPods.CoreWeightsAre | keck-agent/src/main.rs:897-930 | if any core counted cycles, exactly the cores that did have a weight, the cycles each last counted; else, with frequency data, the sum of squared frequency times time over a core's entries; else the sum of the times on it |
| EbpfReports.ChargeCores | keck-agent/src/main.rs:974-1009 | after all cores, in any order, each pod has the sum of its parts of every core |
| PodMerge.MergedComponent | keck-agent/src/main.rs:531-545 | after the override a component adds up to exactly the eBPF amounts of the pods it lists plus what the pods eBPF did not see keep |
| MergeExact.MergeFitsIff | keck-agent/src/main.rs:531-545 | for any two sets of pods: every choice of amounts that fits the node on both sides merges within the node if and only if eBPF saw all of the pods /proc knows, or none of them; for CPU and for memory |
| PodMerge.MergeBounds | keck-agent/src/main.rs:531-545 | for one merge: CPU and memory fit the node if the eBPF path covers every pod, and never exceed twice the node |
| PodTick.MergeReachesTwice | keck-agent/src/main.rs:531-545 | twice the node is reached on every node: when eBPF hands all CPU power to a pod that is idle in /proc and misses the busy one, the merged reports claim exactly twice the node's power |
| PodTick.BusyPodCanBeUnseen | keck-agent/src/main.rs:531-545 | such a tick exists for every node |
| PodTick.Merge | keck-agent/src/main.rs:531-545 | each report takes the eBPF powers of its uid, if any, with its total recomputed, and is left alone otherwise |
| PodMerge.MergedIs | keck-agent/src/main.rs:531-545 | a report takes CPU and memory power of the last eBPF report of its uid, keeps everything else, and its total is the sum of the five; it is left alone exactly if there is none |
| PodMerge.PlacedSteps | keck-agent/src/main.rs:1548-1578 | a GPU measurement changes no other component and adds its power to its own identity exactly if a report or the cache knows it |
| PodMerge.PlacedWellFormed | keck-agent/src/main.rs:1548-1578 | placing GPU power keeps uids unique, totals right and names those of the cache |
| PodTick.AddGpu | keck-agent/src/main.rs:1548-1578 | over all measurements each identity gains exactly what was measured for it, the sum gains exactly the known part, and of the reports that were there only GPU power and total change |
| PodTick.CollectPods | keck-agent/src/main.rs:513-551 | for every tick: the reports are those of /proc, overridden by those of the eBPF path exactly when CPU power is estimated and the snapshot has entries, with GPU power added if there is any; unique uids, totals equal to sums of components, storage and network within the node, CPU and memory within twice the node, and within the node when eBPF is unused or covers every pod |
| Enrich.AttributionSnapshot.Enrich | keck-agent/src/k8s/mod.rs:71-165 | the input processes are exactly the uncontained ones plus those of all containers, each once; no pod uid, container id or namespace comes twice and every pod's namespace has an entry; per component the namespaces and the uncontained processes have the input's power; each namespace entry adds up and counts its pods |
| Enrich.LevelsAccount | keck-agent/src/k8s/mod.rs:71-165 | whatever is added up over processes, the four levels of grouping lose and repeat nothing, for any resolver and order |
| Enrich.PodsAreDistinct | keck-agent/src/k8s/mod.rs:119-145 | every pod uid is returned in one pod only |
| Enrich.ContainersAreDistinct | keck-agent/src/k8s/mod.rs:92-145 | every container id is returned in one container of one pod only |
| Enrich.IsPartition | keck-agent/src/k8s/mod.rs:75-90 | accounting for every quantity means equal multisets of processes |
| Enrich.PodPowerIsProcessPower | keck-agent/src/k8s/mod.rs:92-140 | a pod's power is that of its processes, component by component |
| Enrich.ProcessesAreAtHome | keck-agent/src/k8s/mod.rs:92-140 | with a coherent resolver every process is in its own container, pod and namespace |
| Enrich.GroupByContainer | keck-agent/src/k8s/mod.rs:75-90 | groups are nonempty and hold processes of one container; the rest are exactly processes that do not resolve |
| Enrich.GroupByPod | keck-agent/src/k8s/mod.rs:92-117 | every group becomes one container with its power, name and first cgroup; the branch for an unresolvable first process is unreachable |
| Enrich.GroupByNamespace | keck-agent/src/k8s/mod.rs:119-145 | every group of containers becomes one pod with its power and the first container's identity; the branch for an unresolvable first container is unreachable |
| Enrich.AggregatePower | keck-agent/src/k8s/mod.rs:168-178 | the result is the component-wise sum |
| EnergyCounter.DeltasTelescope | keck-agent/src/main.rs:344-358 | over any run of successful and failed reads of interleaved sources, the deltas never count more than was consumed between the first and last successful read, and exactly that if and only if no successful read came a whole range late |
| EnergyCounter.DeltaIsRightIff | keck-agent/src/hardware/collector.rs:337-349 | one delta is right exactly if the energy advanced by less than the counter's range, or the range is unknown |
| EnergyCounter.ResetCounts | keck-agent/src/hardware/collector.rs:345-347 | a counter of unknown range that was set back to zero counts all that was consumed since exactly if it shows less than before or showed nothing, and is short by what it showed otherwise |
| EnergyCounter.EnergyMeter.Read | keck-agent/src/main.rs:344-358 | the returned delta is the one the run counts, and what is stored stays the last successful read of every source |
| Collector.SlotsCountTheRun | keck-agent/src/hardware/collector.rs:322-349 | the collector's two reading slots give the same deltas as storing one value, so the telescoping holds of them |
| Collector.PowerDeltaIs | keck-agent/src/hardware/collector.rs:350-367 | the delta of two powers is the later power times the time between them in whole microjoules, zero if the clock went back; a counter and a power make none |
| Collector.PollingGapIsBounded | keck-agent/src/hardware/collector.rs:137-171 | for every schedule of ticks at most d apart, successive attempts of a tier are at most its interval plus d apart and all sources are attempted together at least every heartbeat plus d |
| Collector.AttemptsAreSpaced | keck-agent/src/hardware/collector.rs:137-171 | a tier is attempted before its interval is over only by a heartbeat |
| Collector.HeartbeatAttemptsAll | keck-agent/src/hardware/collector.rs:141-150 | every heartbeat attempts every tier |
| Collector.HardwareCollector.constructor | keck-agent/src/hardware/collector.rs:93-131 | each source gets the tier of its own interval and no readings, and all timers start together |
| Collector.TierIs | keck-agent/src/hardware/collector.rs:370-381 | a source is in the fastest tier whose interval is no shorter than its own, or else in the slow one |
| Collector.HardwareCollector.Tick | keck-agent/src/hardware/collector.rs:137-171 | each source is read at most once, exactly if its tier is attempted, the timers are those of the run, and the result says whether there is a heartbeat or a successful read |
| Collector.HardwareCollector.ReadTier | keck-agent/src/hardware/collector.rs:236-246 | exactly the sources of the tier are read, and the result says whether one succeeded |
| Collector.HardwareCollector.ReadAll | keck-agent/src/hardware/collector.rs:229-233 | every source is read once |
| Aggregator.MethodsAreIsolated | keck-controller/src/aggregator/mod.rs:248-297 | for any interleaving of reports of any methods with node removals on a nondecreasing clock, the slice of a method is what replaying its own reports and the removals gives after one eviction at the last time |
| ClusterViews.ViewsAreIsolated | keck-controller/src/aggregator/mod.rs:306-430 | cluster power, namespace power and node views of a method are those of its own run |
| ClusterViews.PodViewsIsolatedIff | keck-controller/src/aggregator/mod.rs:299-303 | after any clocked run the pod views of all methods are those of the methods' own runs if and only if every stored pod says the method it is stored under |
| ClusterViews.AlwaysIsolatedIff | keck-controller/src/aggregator/mod.rs:248-303 | for clocked runs in which no report is stale by the time it is ingested, the pod views are isolated throughout the run if and only if every reported pod carries no method or its node's |
| ClusterViews.UntaggedReportLeaks | keck-controller/src/aggregator/mod.rs:299-303 | a keck report whose pod says kepler is counted for kepler |
| ClusterViews.AcceptKeepsAlignmentIff | keck-controller/src/aggregator/mod.rs:258-283 | a report keeps every pod under its own method exactly if its pods carry no method or the node's |
| ClusterViews.RunKeepsAlignment | keck-controller/src/aggregator/mod.rs:248-297 | in every reachable state node keys agree with their reports, and pod keys do when every reported pod carries no method or its node's |
| PodOwnership.RunLeavesNoOrphans | keck-controller/src/aggregator/mod.rs:248-297 | in every reachable state each stored pod has a node entry for its node and method with the same time |
| PodOwnership.NodeHoldsItsLatestReport | keck-controller/src/aggregator/mod.rs:248-297 | the pods held for a node and method are exactly its latest report's, minus uids later reported under that method by another node |
| NodePresence.NodeIsHeldIff | keck-controller/src/aggregator/mod.rs:248-297 | after any run, a node that ever reported is in the state exactly if at every ingest since its latest report that report was less than sixty seconds old, and every removal since lists the node as live; the entry is that report with its time |
| NodePresence.NeverReported | keck-controller/src/aggregator/mod.rs:248-297 | a node that never reported is not in the state |
| NodePresence.PodIsHeldIff | keck-controller/src/aggregator/mod.rs:248-297 | a pod is held for a node exactly if the node is, its latest report lists the pod, and no other node has since reported the pod under that method; it is held as last listed there, under the report's method if it names none |
| PodOwnership.AcceptLeavesNoOrphansIff | keck-controller/src/aggregator/mod.rs:248-297 | a newer report leaves no orphan exactly if each pod it lists names the reporting node |
| AggregatorObject.ClusterAggregator.Ingest | keck-controller/src/aggregator/mod.rs:248-297 | the in-place ingest is one Ingest step of the state machine, eviction included |
| AggregatorObject.ClusterAggregator.EvictRemovedNodes | keck-controller/src/aggregator/mod.rs:633-648 | a node stays exactly if its name is listed and a pod exactly if the node of its report is, of all methods; what stays is unchanged; and this is one RemoveNodes step of the state machine |
| AggregatorObject.ClusterAggregator.ClusterPowerView | keck-controller/src/aggregator/mod.rs:306-355 | each power is the sum of that field over the method's nodes and attributed power the sum of CPU, memory and GPU power; PSU loss is what platform power exceeds PSU output by, or zero; the average error times the number of nodes is the sum of their errors; for every order |
| AggregatorObject.ClusterAggregator.NamespacePowerView | keck-controller/src/aggregator/mod.rs:358-390 | one entry per namespace with a pod, each the sum of its pods, descending by total and without duplicates |
| Tallies.SumIs | keck-controller/src/aggregator/mod.rs:361-385 | every field of a tally is the sum of that field over its pods, and the count their number |
| AggregatorObject.ClusterAggregator.PodsInNamespace | keck-controller/src/aggregator/mod.rs:393-399 | each matching report once, adding up to the namespace's entry |
| AggregatorObject.ClusterAggregator.NodeSummaries | keck-controller/src/aggregator/mod.rs:402-430 | each matching node once, with its headroom |
| ClusterViews.HeadroomIs | keck-controller/src/aggregator/mod.rs:406-427 | headroom is what the platform's power exceeds CPU, memory and GPU power by, zero if it does not, and there is one exactly with a platform reading |
| Grouping.GroupPower | keck-controller/src/aggregator/mod.rs:516-622 | one group for each key some pod has, holding exactly its pods, their sum, and a namespace that is nonempty exactly when all share it, sorted by descending total, for any order |
| Grouping.GroupsCoverThePods | keck-controller/src/aggregator/mod.rs:516-622 | the groups add up to the pods that were kept |
| Grouping.CategoriesAddUp | keck-controller/src/aggregator/mod.rs:519-530 | the platform, operator and application parts of a group add up to the uncategorised group |
| Grouping.OnlyLabelsDropPods | keck-controller/src/aggregator/mod.rs:532-580 | the groups returned add up to all pods except those without the label of a grouping by label, and they count every stored pod exactly if there are no such pods |
| Grouping.GroupIs | keck-controller/src/aggregator/mod.rs:531-580 | for every grouping the key, name and kind of a pod's group; a pod has none exactly if the label of a grouping by label is missing |
| Grouping.MatchedAppIs | keck-controller/src/aggregator/mod.rs:554-568 | a pod belongs to the first application that lists its namespace or has a nonempty selector whose labels it all carries, and to none exactly if no application does |
| GroupMethods.GroupMatchesMethodIff | keck-controller/src/aggregator/mod.rs:516-522 | a namespace's group equals the namespace's entry for a metering method if and only if every stored pod of the namespace is of that method |
| GroupMethods.PodCountsTwice | keck-controller/src/aggregator/mod.rs:516-522 | after a keck and a kepler report of the same pod, its namespace's group counts it twice |
| Grouping.BuildClassification | keck-controller/src/application.rs:42-74 | the operator namespaces are the subscription namespaces no cluster operator owns, so each namespace has one category |
| Scheduler.PowerScheduler.Filter | keck-controller/src/scheduler/mod.rs:108-177 | passed is the passing candidates in order and failed holds exactly the others with their reasons |
| Scheduler.FilterSplits | keck-controller/src/scheduler/mod.rs:108-177 | every candidate is passed or refused and none is both |
| Scheduler.RefusedIff | keck-controller/src/scheduler/mod.rs:124-172 | a candidate is refused exactly if it has reported and its error ratio is above one half, or the keck pods of the namespace use at least its budget; the reason says which, the error first, with the numbers |
| Scheduler.PassingInOrder | keck-controller/src/scheduler/mod.rs:134-172 | filtering two lists one after the other is filtering them as one, so order and repetitions are kept |
| Scheduler.PowerScheduler.CurrentPower | keck-controller/src/scheduler/mod.rs:126-132 | the namespace's power is the sum of its keck pods, zero if it has none |
| Scheduler.PowerScheduler.Prioritize | keck-controller/src/scheduler/mod.rs:182-251 | one score per candidate, in order and at most 100, and exactly 50 for nodes that have not reported |
| Scores.CapNeverBindsIff | keck-controller/src/scheduler/mod.rs:204-243 | with default weights, no node with a given error ratio scores above 100 before the cap, under either strategy, if and only if the ratio is above -0.04 |
| Scores.StrategiesAreComplementary | keck-controller/src/scheduler/mod.rs:204-232 | on a node with platform power the two headroom scores add up to 99 or 100 |
| Scores.HeadroomScoreIs | keck-controller/src/scheduler/mod.rs:205-233 | BinPack gives the whole percentage of platform power in use, at most 100, and Spread that of the headroom; both 50 without a platform reading; 100 and 0 for a reading of zero |
| Scores.AccuracyScoreIs | keck-controller/src/scheduler/mod.rs:216-230 | the whole percentage that the error leaves of one, within the range of a u32 |
| Scores.DefaultScoreIs | keck-controller/src/scheduler/mod.rs:235-241 | ten times the score is seven times headroom plus three times accuracy up to less than ten, capped at 100 |
| Scores.ScoreIs | keck-controller/src/scheduler/mod.rs:235-241 | for any weights the score is the weighted sum truncated, at least 0 and at most 100 |
| Scores.StrategiesRankOppositely | keck-controller/src/scheduler/mod.rs:204-243 | for equal platform power and error the busier node never scores lower under BinPack and never higher under Spread |
| Scores.AccuracyRaisesTheScore | keck-controller/src/scheduler/mod.rs:204-243 | between nodes that differ in their error ratio only, the better metered one never scores lower |
| Outbox.OneBatchKeepsOrder | keck-agent/src/store/mod.rs:213-223 | in every run with one batch in flight, acknowledged, in flight and outbox together are everything produced, in order |
| Outbox.RunIsExactlyOnce | keck-agent/src/store/mod.rs:213-223 | with any number of batches in flight, settled in any order, nothing is lost or duplicated |
| Outbox.RunKeepsOrderIff | keck-agent/src/store/mod.rs:213-223 | a run of distinct summaries is in order throughout if and only if no step acknowledges a batch while earlier summaries are in flight or puts one back while later ones are |
| Outbox.RequeueKeepsOrderIff | keck-agent/src/store/mod.rs:219-223 | putting a batch back keeps the order exactly if the batch is empty or nothing drained later is still in flight |
| Outbox.AcknowledgeKeepsOrderIff | keck-agent/src/store/mod.rs:213-215 | acknowledging a batch keeps the order exactly if the batch is empty or nothing drained earlier is still in flight |
| Outbox.OrderlyRunsKeepOrder | keck-agent/src/store/mod.rs:213-223 | in particular, and also with repeated summaries, order is kept when the oldest batch is acknowledged and the newest put back |
| Outbox.TwoBatchesCanSwap | keck-agent/src/store/mod.rs:219-223 | with two batches in flight, putting the older back first reverses them |
| Store.LocalStore.Push | keck-agent/src/store/mod.rs:135-157 | the rings stay the newest part of the full history and the outbox gains exactly one summary per pod, in order, each with the pod's identity, CPU, memory and GPU power and the sum of all five components |
| Store.RingRefines | keck-agent/src/store/mod.rs:144-156 | evict-then-append on the last elements of a history gives the last elements of the longer history |
| Store.LocalStore.DrainOutbox | keck-agent/src/store/mod.rs:213-215 | the Drain step of the protocol |
| Store.LocalStore.Requeue | keck-agent/src/store/mod.rs:219-223 | the Requeue step: the batch goes to the front in its own order |
| Store.EarlyStopIsExactIff | keck-agent/src/store/mod.rs:166-199 | stopping at the first element that is too old gives what a full filter gives, exactly if nothing recent enough is behind it |
| Store.QueriesAreExact | keck-agent/src/store/mod.rs:166-199 | with nondecreasing timestamps both queries equal a full filter of the newest part of the history |
| Store.NamespaceQueryFinds | keck-agent/src/store/mod.rs:188-199 | with nondecreasing timestamps the namespace query finds a summary exactly if it is among those the ring keeps, is of that namespace and is recent enough |
| Store.PodQueryFinds | keck-agent/src/store/mod.rs:166-185 | likewise the pod query finds a process exactly if it is in a container of a pod of that uid in a snapshot the ring keeps that is recent enough |
| Store.OutOfOrderMisses | keck-agent/src/store/mod.rs:188-199 | out of order, a query can miss a summary that is recent enough |
| Store.HistoryIsNewestFirst | keck-agent/src/store/mod.rs:202-209 | the reconciliation history is the newest part of the full history, newest first |
| Labels.ParseLabels | keck-controller/src/kepler_scraper.rs:287-319 | the loop ends on every string and gives the labels of the recursive definition, a later duplicate replacing an earlier one |
| Labels.RoundTrip | keck-controller/src/kepler_scraper.rs:287-319 | printing any list of labels with clean keys and unquoted values and parsing gives them back, the last duplicate winning |
| Labels.SurvivesIff | keck-controller/src/kepler_scraper.rs:287-319 | a list of labels with distinct keys survives printing and parsing exactly if no key has '=' or something to trim and no value has a quote |
| Labels.SeparableSurvivesIff | keck-controller/src/kepler_scraper.rs:287-319 | with duplicates, and keys and values that do not break the separators, a list survives exactly if no key has something to trim |
| Labels.DuplicatesCanHideAQuote | keck-controller/src/kepler_scraper.rs:287-319 | for any two plain labels there is a list with duplicates that survives although a value has a quote |
| Labels.CleanKeeps | keck-controller/src/kepler_scraper.rs:296-296 | keys without commas and white space have nothing to trim |
| Labels.CleanKeepsIff | keck-controller/src/kepler_scraper.rs:296-296 | a key has nothing to trim exactly if it does not begin with white space or a comma and does not end with white space |
| Labels.PodAndNodeRoundTrip | keck-controller/src/kepler_scraper.rs:256-285 | the pod and node parsers recover labels and value from a printed line whose labels avoid '}', exactly if their labels are there and the value is a number |
| Labels.PodLineRoundTrip | keck-controller/src/kepler_scraper.rs:256-285 | a line printed for any pod without quotes and braces gives back that pod, its node and its value |
| Labels.PodKeyIff | keck-controller/src/kepler_scraper.rs:264-270 | a pod is recognised exactly if all five labels are there |
| Labels.MetricLinesNeverPanic | keck-controller/src/kepler_scraper.rs:119-159 | a line that starts with a name without braces and '{', as every line the scraper passes on does, never aborts the parser |
| Labels.PanicsIff | keck-controller/src/kepler_scraper.rs:257-259 | taken alone, the parser aborts on exactly the lines whose first '}' comes before their first '{' |

## Left out

- The per-task hardware counters, frequency residency, cgroup and TCP maps of the kernel side: they repeat the time map's pattern or race across CPUs; only the time ledger is modelled.
- Reuse of a removed map element by another key while a handler still holds a pointer to it: an update through such a pointer is lost time, and its effect on the other key is not modelled.
- Hardware readers, sysfs, HTTP, perf and BPF loading: readings are inputs.
- `/proc` scanning and delta caches of `enumerate_pods` (its first phase's file reads): per-process deltas are inputs, and page faults, which are aggregated but never used, are dropped.
- `enumerate_pods_ebpf`, the unweighted eBPF path that no code calls in the collection loop.
- Workload, label, node name and timestamp fields of pod reports, and log-only fields of the tuner.
- The text parsing of DCGM lines: each measurement arrives as an identity and a power.
- `energy_input` and `reconcile` of the hardware collector: one more pass over the readings that the engine's own reconciliation repeats.
- Aggregator history and its trimming, carbon, the fleet hub, the operator, the user interface and all request handling.
- Overflow of u64 and u128 sums and products, and f64 rounding.
- The text of the scheduler's reasons; the reason is modelled as its kind and numbers.
- Unicode byte offsets of the label parser: strings are sequences of characters.
- Attribution.AttributionEngine.Attribute: requires a core for every socket unless there is no socket reading, because otherwise the even split of the source divides by zero.
