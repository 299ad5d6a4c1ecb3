# A model of profi in Dafny

profi traces CUDA and NCCL calls. Kernel probes write shared BPF maps; a userspace loop drains them into
Prometheus counters; a bounded cache turns event keys into metric series; a Kubernetes watcher changes pod
labels and tracing modes underneath. This project models those parts and proves what they keep over whole runs.
`dafny verify dfyconfig.toml` checks everything.

## Layout

| files | contents |
|---|---|
| `Events`, `PerCpuTable`, `Histograms`, `AggregateDrain` | bucket tables; a per-CPU hash map with hits, lookups and deletes as separate steps; histogram exactness; the drain as code |
| `Probes`, `Pipeline`, `PipelineExactness`, `Launches`, `Sampling`, `RecursionGuard`, `ActiveMemory`, `MemoryGauge` | the probes over all their maps, the step system of probes and drains, and its theorems |
| `HandleCache`, `HandleRuns`, `MetricCache`, `Admission` | the metric handle cache and the registry |
| `Enrichment`, `PromotionSync`, `EnricherProtocol`, `PodLabels`, `Promotions`, `EnricherRuns` | the enricher's tables and the kernel sync; the watcher and the event loop one lock at a time; what holds of pod labels and promotions, and two runs that go wrong |
| `Otlp`, `SymbolTable`, `SymbolResolver`, `Utf8`, `KernelNames`, `AdaptiveDrain`, `Stragglers` | the algorithms beside them |
| `Sums`, `Collections`, `StableSort` | finite sums, sizes, the library sort |

State that the source updates in place is a class whose methods are proved equal to a function on values; the
theorems are about that function, over every run of the step systems. A drain of one key is two steps, lookup
and delete, so hits may land in between; they are counted as *raced*, and a theorem shows that the count stays
zero when the delete follows at once. A full map *rejects* an insert; rejected hits are accounted for too.

Some promises turned out not to hold of the code. Each has its exact condition, and a case that shows it:

- A launch whose process is traced anonymously is published nowhere when launches are also sent one by one
  (`Launches.LaunchReachesNeitherPath`, `Launches.InvisibleLaunchRun`).
- Malloc and free bytes drift apart: a free inside another call forgets the size it untracks, a malloc that
  fails with a null pointer or is closed by another probe stays counted. Every step moves the imbalance by
  exactly its drift, and a run is balanced exactly when no step drifts (`ActiveMemory.NextDrift`,
  `ActiveMemory.RunBalancedIff`, `ActiveMemory.UnbalancedRun`).
- Resolving a process takes several locks. When the invalidation of its container comes and goes between the
  look-up and the filing, the process keeps labels that no later watch event removes
  (`PodLabels.FiledCoherentIff`, `PodLabels.StaleStays`, `EnricherRuns.StaleLabelRun`).
- An invalidation takes several locks too. A process filed between its two drops, or marked before the second
  one and filed after it, is cached with the annotation and not promoted (`Promotions.PromotionLostIff`,
  `EnricherRuns.LostPromotionRun`).
- A sync into a full UPGRADED_PIDS map loses promotions, and later syncs take the lost ones for present
  (`PromotionSync.SyncExactIff`, `PromotionSync.OverflowExample`, `PromotionSync.LostStaysLost`).
- OTLP counts exceed the sample count when the cumulative counts decrease (`Otlp.CountsTotal`, `Otlp.DecreasingExample`).
- Normalising an ASCII kernel name such as `_Z18446744073709551615` panics (`KernelNames.Demangle`,
  `KernelNames.OverflowExample`).
- A symbol that reaches past the last 64-bit address covers nothing but its start (`SymbolTable.CoversIff`,
  `SymbolTable.WrapExample`).

Where the code and its comments disagree the model follows the code: the comment of `normalize_kernel_name`
drops the return type of `void gemm_kernel<float, 128, 64>(float*, int)`, the code keeps it
(`KernelNames.SignatureStripped`).

## Model

| member | source | states |
|---|---|---|
| Events.TablesIncreasing | src/bpf/profi_events.h:77-120 | the three bound tables are strictly increasing and have 11, 13 and 8 bounds |
| Events.BucketDecidesLe | src/bpf/profi_events.h:226-271 | a duration is within bound i exactly when its bucket index is at most i, for every increasing table |
| Events.FindBucket | src/events.rs:245-263 | the userspace loop finds the same bucket as the probe's comparison chain |
| PerCpuTable.StepConserves | src/bpf/profi.bpf.c:218-251 | recorded = rejected + published + resident + raced is kept by every hit, lookup and delete, for any additive quantity, exactly or modulo 2^64 |
| PerCpuTable.DrainConserves | src/main.rs:553-566 | a lookup followed later by a delete keeps that balance, hits in between being raced |
| PerCpuTable.AtomicDrainRacesNothing | src/main.rs:553-566 | a delete right after its lookup races nothing, removes the row and publishes its whole weight |
| PerCpuTable.Update | src/bpf/profi.bpf.c:233-248 | in-place update of the CPU's cell or a bounded insert; refused exactly when the key is new and the map full |
| PerCpuTable.StepUnraced | src/main.rs:553-566 | while no hit comes between a lookup and its delete, no row is raced |
| Histograms.ApplyExact | src/bpf/profi.bpf.c:218-248 | a hit on a cell below 2^32 keeps the u32 buckets summing to the count, and moves each prefix sum by the hit |
| Histograms.StepExact | src/bpf/profi.bpf.c:218-248 | every step keeps every cell's buckets summing to its count while fewer than 2^32 weighted hits fall on it |
| Histograms.LeCountsDurations | src/bpf/profi_events.h:242-258 | the weight of a log at `le` position i is rate times its durations within bound i |
| Histograms.CountCountsCalls | src/bpf/profi.bpf.c:218-248 | the count of a log is rate times its calls |
| Histograms.RunSound | src/main.rs:545-568 | the balance for buckets, count, duration and size holds over every run of hits and drain steps |
| Histograms.InfIsCount | src/main.rs:570-589 | over rows whose cells are exact, the published `+Inf` counter of a label is its published count |
| Histograms.RunUnraced | src/main.rs:553-566 | a run whose lookups are followed at once by their deletes races nothing |
| Histograms.HistogramExact | src/main.rs:1343-1396 | after every interleaving, for every label and `le` position: published + resident + raced + rejected = rate times the durations within the bound; the same of the count; the published `+Inf` counter is the published count; with atomic drains nothing is raced |
| AggregateDrain.AddBuckets | src/main.rs:1347-1358 | adding one CPU's buckets never overflows and is element-wise exact |
| AggregateDrain.SumPerCpu | src/main.rs:1347-1358 | the loop over the CPUs gives the exact count and prefix sums, and the 64-bit duration and size sums |
| AggregateDrain.TotalsAre | src/main.rs:1351-1355 | those 64-bit sums are the row's durations and sizes modulo 2^64 |
| AggregateDrain.AggregateMap.constructor | src/bpf/profi.bpf.c:67-72 | an empty map with empty counters satisfies the invariant |
| AggregateDrain.AggregateMap.Record | src/bpf/profi.bpf.c:218-251 | a hit is one step of the table and keeps the counters matched to it |
| AggregateDrain.AggregateMap.IncCumulativeBucketCounters | src/main.rs:570-589 | each `le` series rises by the running sum, other series stay, zero series are not created |
| AggregateDrain.AggregateMap.Publish | src/main.rs:1343-1396 | a drained row moves exactly its prefix sums, count and duration to its label's series; a row without a count moves nothing |
| AggregateDrain.AggregateMap.DrainKey | src/main.rs:553-566 | publishing and deleting one key is a lookup step followed by a delete step |
| AggregateDrain.AggregateMap.DrainPercpuHash | src/main.rs:545-568 | the drain loop is the drain of the listed keys one after the other, skipping those that are gone |
| AggregateDrain.AggregateMap.Exactness | src/main.rs:1343-1396 | the published series of every label plus resident and rejected is what was recorded, and the `+Inf` series equals the count series |
| Probes.ProbeMaps.constructor | src/bpf/profi.bpf.c:50-156 | the maps start empty, the per-CPU counters at zero |
| Probes.ProbeMaps.Save | src/bpf/profi.bpf.c:165-195 | recursion guard, per-CPU sampling counter, then the INFLIGHT entry |
| Probes.ProbeMaps.EmitAggregated | src/bpf/profi.bpf.c:218-251 | an aggregatable call goes to AGGREGATED only |
| Probes.ProbeMaps.EmitNccl | src/bpf/profi.bpf.c:253-286 | a collective goes to NCCL_AGG only |
| Probes.ProbeMaps.RecordLaunch | src/bpf/profi.bpf.c:290-326 | a launch is counted in LAUNCH_AGG or LAUNCH_DROPPED, and is to be sent unless anonymous or not detailed |
| Probes.ProbeMaps.EmitLaunch | src/bpf/profi.bpf.c:290-357 | both halves of a returning launch together |
| Probes.ProbeMaps.EmitOther | src/bpf/profi.bpf.c:328-357 | any other call goes to the ring buffer only |
| Probes.ProbeMaps.Emit | src/bpf/profi.bpf.c:204-358 | a returning call changes exactly the maps of its one sink, and always leaves INFLIGHT |
| Probes.ProbeMaps.CudaMalloc | src/bpf/profi.bpf.c:360-368 | malloc entry remembers where the pointer goes, then saves the entry |
| Probes.ProbeMaps.CudaMallocRet | src/bpf/profi.bpf.c:370-391 | malloc return tracks the size under the pointer read, then emits |
| Probes.ProbeMaps.CudaFree | src/bpf/profi.bpf.c:393-409 | free entry takes the tracked size out of MALLOC_SIZES into the entry |
| Pipeline.NextAgg | src/bpf/profi.bpf.c:204-251 | every step of the whole system is at most one step of AGGREGATED |
| Pipeline.NextNccl | src/bpf/profi.bpf.c:253-286 | the same of NCCL_AGG |
| Pipeline.NextLaunch | src/bpf/profi.bpf.c:290-326 | the same of LAUNCH_AGG |
| Pipeline.RunHealthy | src/main.rs:545-568 | in every reachable state all rows have one cell per CPU and a pending drain holds a live row |
| Pipeline.RunCleanAgg | src/main.rs:553-566 | in every run with atomic drains nothing is raced in AGGREGATED |
| Pipeline.RunCleanNccl | src/main.rs:553-566 | the same of NCCL_AGG |
| Pipeline.RunCleanLaunch | src/main.rs:553-566 | the same of LAUNCH_AGG |
| PipelineExactness.PipelineHistogramsExact | src/main.rs:1343-1601 | in every state of every run, for every label and `le` position, AGGREGATED, NCCL_AGG and LAUNCH_AGG account for every completed call, and their published `+Inf` counters are their published counts |
| PipelineExactness.ServedHistogramsExact | src/cache.rs:133-149 | whatever handle a full cache serves for a row, the histograms account for every call under each part of the label that the handle served and the key agree on: all of it for rows served by their own handle, the process always |
| PipelineExactness.PipelineRacesNothing | src/main.rs:545-568 | with atomic drains the raced terms of all three are zero, for every quantity |
| Launches.LaunchConservation | src/bpf/profi.bpf.c:290-333 | completed launches = published + resident + LAUNCH_DROPPED + raced, in every state of every run; raced is zero with atomic drains |
| Launches.NoLaunchPublishedTwice | src/main.rs:1431-1475 | in every configuration launches are published by the drain only or by the ring buffer only |
| Launches.LaunchReachesNeitherPath | src/bpf/profi.bpf.c:290-333 | an accepted launch is visible on neither path exactly when launches are detailed and its process anonymous |
| Launches.InvisibleLaunchRun | src/bpf/profi.bpf.c:290-333 | a run from the start whose one launch is counted, not sent and never drained |
| Launches.RingConservation | src/bpf/profi.bpf.c:328-357 | in every state of every run the events sent are those in the ring buffer plus those DROPPED counts |
| Sampling.TakenTotal | src/bpf/profi.bpf.c:173-184 | rate times the sampled calls of all CPUs exceeds the calls by at most rate - 1 per CPU, and is never below |
| Sampling.SamplingBound | src/bpf/profi.bpf.c:173-184 | in every run, everything counted plus rate times the sampled calls in flight lies between n and n + cpus * (rate - 1) |
| RecursionGuard.GuardReports | src/bpf/profi.bpf.c:165-216 | in every run and for every thread the records are those the thread's own trace calls for, whatever other threads do |
| RecursionGuard.OneReportPerLeaf | src/bpf/profi.bpf.c:165-216 | a well-nested call forest calls for one record per leaf |
| RecursionGuard.GuardCountsLeaves | src/bpf/profi.bpf.c:204-216 | a thread whose calls form a forest has one record per leaf, the expected ones, and nothing in flight |
| RecursionGuard.ChainYieldsOneReport | src/bpf/profi.bpf.c:165-195 | a chain of wrappers yields one record, with type and start of the outermost call |
| ActiveMemory.MallocExitBalancedIff | src/bpf/profi.bpf.c:370-391 | when the return of a malloc probe keeps the balance, over any entry in flight, both directions |
| ActiveMemory.FreeEnterBalancedIff | src/bpf/profi.bpf.c:393-409 | a free entry keeps the balance exactly when it is not nested or frees nothing tracked |
| ActiveMemory.NextDrift | src/bpf/profi.bpf.c:360-409 | every step, nested or not, moves the imbalance of every process by its drift, read off the state before |
| ActiveMemory.RunDrift | src/bpf/profi.bpf.c:360-409 | in every state of every run the imbalance is the sum of the drifts |
| ActiveMemory.RunBalancedIff | src/bpf/profi.bpf.c:360-409 | a run is balanced throughout exactly when no step drifts |
| ActiveMemory.FailedMallocDrifts | src/bpf/profi.bpf.c:370-391 | a malloc that fails with a null pointer leaves its size counted |
| ActiveMemory.NestedFreeDrifts | src/bpf/profi.bpf.c:393-409 | a tracked pointer freed inside another call leaves its size forgotten |
| ActiveMemory.UnbalancedRun | src/bpf/profi.bpf.c:360-391 | a run from the start that is off by any wanted amount |
| ActiveMemory.RunBalanced | src/bpf/profi.bpf.c:360-409 | logged malloc bytes = logged free bytes + tracked bytes + bytes of frees in flight, after every step of every orderly run |
| ActiveMemory.MemoryConserved | src/bpf/profi.bpf.c:456-505 | in orderly runs, the same of published + resident + raced + rejected sums, modulo 2^64 |
| ActiveMemory.MemoryDrifts | src/bpf/profi.bpf.c:456-505 | in all runs, the same up to the drift |
| MemoryGauge.Deltas | src/main.rs:1402-1412 | one signed 64-bit delta per process with rows: its malloc minus free bytes |
| MemoryGauge.UpdateActiveMemory | src/main.rs:1603-1619 | the deltas move the gauges, which stay 64-bit numbers; a process without rows keeps its gauge |
| MemoryGauge.GaugeNet | src/main.rs:1402-1412 | however rows fall into ticks, the gauge is congruent to the net bytes of all rows drained |
| MemoryGauge.DrainSizes | src/main.rs:1347-1359 | the 64-bit sizes of the drained rows that have a count |
| MemoryGauge.RunTicks | src/main.rs:1603-1619 | tick after tick from empty gauges |
| MemoryGauge.GaugeInRange | src/main.rs:1603-1605 | every gauge is a signed 64-bit number after every sequence of ticks |
| MemoryGauge.GaugeShowsLive | src/main.rs:1603-1619 | in every run, for every way the drained rows fall into ticks, the gauge of a quiescent process is its tracked bytes plus the drift, as a 64-bit number |
| MemoryGauge.GaugeIsLive | src/main.rs:1603-1619 | in every orderly run the gauge of a quiescent process is its tracked bytes |
| HandleCache.BuildNamesPid | src/cache.rs:151-492 | every pid-labelled series of a new handle names the process of its key |
| HandleCache.RegistryAgrees | src/cache.rs:184-563 | after every sequence of operations the pid-labelled series are exactly those stored in handles, and the pid-less ones are among those stored |
| HandleCache.RemoveOneAgreesIff | src/cache.rs:566-645 | removing one handle keeps the agreement exactly when no sibling stores one of its pid-labelled series |
| HandleRuns.CardinalityBound | src/cache.rs:133-149 | handles never exceed max_time_series plus the processes holding one |
| HandleRuns.TrackedAlways | src/main.rs:1414-1418 | every cached process has a time stamp and tracked_pids is their number, between all steps |
| HandleRuns.SweepRemoves | src/cache.rs:522-563 | a collection leaves nothing of a process idle longer than the limit |
| HandleRuns.SweepKeeps | src/cache.rs:522-563 | a collection changes no handle, time stamp or admitted set of any other process |
| Admission.FirstComeSize | src/cache.rs:94-120 | first come, first served admits min(cap, distinct values) |
| Admission.StreamsFirstCome | src/cache.rs:94-106 | since a process's last collection its admitted streams are the first distinct non-zero ones requested |
| Admission.KernelsFirstCome | src/cache.rs:108-120 | the same of launch addresses |
| Admission.CanonicalIdempotent | src/cache.rs:91-131 | canonicalising a canonical key changes neither the key nor the admitted sets |
| Admission.AdmittedStays | src/cache.rs:501-520 | an admitted stream keeps its identity through requests, invalidations and collections of other processes |
| Admission.AdmittedKernelStays | src/cache.rs:551-553 | the same of an admitted launch address |
| Admission.KeysUseAdmitted | src/cache.rs:91-131 | every cached key uses admitted values or zero, after every sequence of operations |
| MetricCache.Metrics.RegisterHandle | src/cache.rs:184-492 | registering family by family adds exactly the series of the handle |
| MetricCache.SeriesUnion | src/cache.rs:566-645 | the families handled one by one are all the families a handle has |
| MetricCache.Metrics.RemoveHandle | src/cache.rs:566-645 | removes exactly the series of a handle |
| MetricCache.MetricHandleCache.Cap | src/cache.rs:94-120 | the look-up, admit or collapse branches give the admitted set and the value used |
| MetricCache.MetricHandleCache.Canonicalise | src/cache.rs:91-131 | both caps applied to a key |
| MetricCache.MetricHandleCache.Fallback | src/cache.rs:133-149 | a full cache counts the refusal and finds a handle of the process exactly if there is one |
| MetricCache.MetricHandleCache.Create | src/cache.rs:151-492 | stores the handle and registers its series |
| MetricCache.MetricHandleCache.GetOrCreate | src/cache.rs:81-495 | the whole operation, and that the handle served belongs to the process and is the canonical one if cached |
| MetricCache.MetricHandleCache.Observe | src/main.rs:1180-1184 | one event-loop step |
| MetricCache.MetricHandleCache.RemoveAll | src/cache.rs:514-519 | the removal loop removes those handles and exactly their series |
| MetricCache.MetricHandleCache.InvalidatePids | src/cache.rs:501-520 | removes all handles of the processes and keeps their admitted sets |
| MetricCache.MetricHandleCache.SweepPid | src/cache.rs:536-554 | one idle process is removed whole |
| MetricCache.MetricHandleCache.Gc | src/cache.rs:522-563 | sweeps and returns exactly the processes idle longer than the limit |
| Enrichment.Enricher.constructor | src/enrichment.rs:68-92 | the tables start empty |
| Enrichment.Enricher.ResolveK8s | src/enrichment.rs:129-166 | the cached answer, or the container map's, filed; the dirty flag is raised exactly when the promoted set changes |
| Enrichment.Enricher.EvictPid | src/enrichment.rs:121-127 | forgets the process; the flag is raised exactly when the promoted set changes |
| Enrichment.Enricher.Collect | src/enrichment.rs:172-179 | the processes ever seen in any of the containers |
| Enrichment.Enricher.DropUpgraded | src/enrichment.rs:192-201 | comparing sizes raises the flag exactly when the set changes |
| Enrichment.Enricher.Invalidate | src/enrichment.rs:168-207 | drops the affected processes from cache and promoted set and queues them |
| Enrichment.Enricher.Take | src/main.rs:1104-1112 | hands over the queued processes, all or none |
| Enrichment.ApplyReplaces | src/enrichment.rs:262-285 | after an apply the map lists exactly the reported containers for the pod, and for other pods what it listed |
| Enrichment.Enricher.SwapApply | src/enrichment.rs:267-285 | an applied pod's old containers are returned for invalidation; those reported replace them, and other pods' entries stay |
| Enrichment.Enricher.SwapDelete | src/enrichment.rs:289-312 | a deleted pod's containers leave the map and are to be invalidated |
| Enrichment.Enricher.SwapRelist | src/enrichment.rs:241-248 | a relist replaces the map; the vanished containers are to be invalidated |
| EnricherProtocol.ResolveUninterrupted | src/enrichment.rs:129-166 | the look, join, mark and file steps with nothing in between are the whole resolve |
| EnricherProtocol.InvalidationUninterrupted | src/enrichment.rs:168-207 | the collect, drop, drop and queue steps with nothing in between are the whole invalidation |
| PodLabels.LabelsDelivered | src/enrichment.rs:181-206 | in every state of every interleaving dropped processes are queued or about to be, has_changes says whether anything is queued, and no metric handle keeps a place that is neither cached nor queued |
| PodLabels.DroppedIsDelivered | src/main.rs:1104-1112 | a process whose pod entry an invalidation dropped is among those the first take after it hands over |
| PodLabels.OwedUntilTaken | src/enrichment.rs:203-206 | such a process stays owed through every other step |
| PodLabels.NextCoherent | src/enrichment.rs:129-207 | no step but the filing of the process itself makes a coherent pod entry incoherent |
| PodLabels.FiledCoherentIff | src/enrichment.rs:138-164 | a filed pod entry is coherent exactly when no invalidation overtook the resolve: collected since its container was last listed, with no collection that caught the process still to be dropped |
| PodLabels.PodLabelsCoherentIff | src/enrichment.rs:129-207 | all pod entries are coherent in all states of a run exactly when no resolve in it was overtaken |
| PodLabels.UninterruptedCoherent | src/enrichment.rs:241-315 | in runs that collect no invalidation while a process is being resolved, all entries are coherent in all states |
| PodLabels.StaleStays | src/enrichment.rs:168-207 | a stale entry lasts through every run without an eviction of the process or a pod that lists the container again |
| EnricherRuns.StaleLabelRun | src/enrichment.rs:138-164 | a run from the start: a pod deleted during a resolve leaves a stale entry with nothing in progress |
| Promotions.PromotionsSynced | src/main.rs:1263-1294 | in every state of every interleaving no change of the promoted set is lost to the sync, and the kernel map is part of the set last written, all of it unless some set exceeded 1024 |
| Promotions.PromotionLostIff | src/enrichment.rs:155-201 | a process cached with the annotation is not promoted exactly when an invalidation dropped the promoted set after it was marked and left its entry standing |
| Promotions.UpgradedIsCachedIff | src/enrichment.rs:121-201 | with nothing half done, upgraded_pids is the set cached with the annotation exactly when no promotion was lost that way |
| Promotions.SeparateLosesNothing | src/enrichment.rs:155-201 | nothing is lost when no filing falls between the two drops of an invalidation and no second drop between marking and filing |
| Promotions.QuietMeansSyncedIff | src/main.rs:1263-1294 | with nothing in progress and the flag clear, the kernel map is exactly the set cached with the annotation, if and only if no promotion was lost |
| EnricherRuns.LostPromotionRun | src/enrichment.rs:181-201 | a run from the start that ends with a process cached with the annotation and not promoted |
| PromotionSync.UpgradedPids.DeleteAll | src/main.rs:1284-1286 | the delete loop |
| PromotionSync.UpgradedPids.UpdateAll | src/main.rs:1287-1293 | the insert loop into a bounded map: all inserted, or the map is full |
| PromotionSync.UpgradedPids.Sync | src/main.rs:1263-1294 | what a sync may leave in the kernel map |
| PromotionSync.SyncExactIff | src/bpf/profi.bpf.c:95-100 | a sync leaves a subset of the set it read, and all of it exactly when it fits in 1024 and nothing believed present is missing |
| PromotionSync.OverflowExample | src/bpf/profi.bpf.c:95-100 | 1025 processes and an empty map: one is refused, and the next sync, when only that one is promoted, can only leave the map empty |
| PromotionSync.LostStaysLost | src/main.rs:1284-1294 | a promotion missing after one sync is missing after every later one while the process stays promoted |
| Otlp.HistogramToOtlp | src/otlp.rs:414-452 | bounds are the finite ones, one more count than bounds, each count the rise of the cumulative counts |
| Otlp.ConvertedUnique | src/otlp.rs:414-452 | a histogram determines its data point |
| Otlp.InfiniteBucketsIgnored | src/otlp.rs:420-424 | a bucket without a finite bound, anywhere, has no effect |
| Otlp.CountsTotal | src/otlp.rs:431-438 | the counts sum to at least the sample count, exactly to it if and only if the levels never decrease |
| Otlp.DecreasingExample | src/otlp.rs:431-438 | five below a bound, three in all: the counts sum to five |
| Otlp.PrefixesRecoverIff | src/otlp.rs:431-438 | prefix sums recover the input under the same condition, both directions |
| Otlp.InvertsDrain | src/main.rs:570-589 | the conversion gives back the per-bucket counts whose running sums the drain published |
| SymbolTable.Dedup | src/symbols.rs:234-235 | strictly increasing addresses, the first symbol of each kept |
| SymbolTable.ParseElfSymbols | src/symbols.rs:218-242 | the table holds exactly the first usable symbol of the file at each address; the skip of empty symbols changes nothing |
| SymbolTable.BinarySearch | src/symbols.rs:152-154 | the position of the key or its insertion point |
| SymbolTable.FindSymbol | src/symbols.rs:150-169 | the search answers as a linear search for the nearest symbol |
| SymbolTable.NearestIsGreatest | src/symbols.rs:150-169 | that symbol has the greatest address at or below the offset |
| SymbolTable.TableAnswersForFile | src/symbols.rs:218-242 | looking up in the table is looking through the file |
| SymbolTable.CoversIff | src/symbols.rs:159 | the end test means covering, except for symbols that wrap |
| SymbolTable.WrapExample | src/symbols.rs:159 | an offset inside a symbol that wraps is reported as unknown |
| SymbolResolver.Put | src/symbols.rs:97-104 | a bounded cache keeps its bound and its other entries' values |
| SymbolResolver.Resolver.constructor | src/symbols.rs:97-104 | empty caches agree with every image |
| SymbolResolver.Resolver.LoadSymbols | src/symbols.rs:207-216 | the library cache stays within 65 entries and returns the file's table |
| SymbolResolver.Resolver.NameIn | src/symbols.rs:149-169 | the name found through the table is the one found by looking through the file |
| SymbolResolver.Resolver.LoadMaps | src/symbols.rs:136-140 | the mappings cache stays within 256 processes and returns the process's mappings |
| SymbolResolver.Resolver.ResolveUncached | src/symbols.rs:135-170 | the answer is the one read off mappings and file |
| SymbolResolver.Resolver.Resolve | src/symbols.rs:106-117 | the address cache never changes the answer |
| SymbolResolver.Resolver.EvictPids | src/symbols.rs:119-133 | the caches stay right, also for a later image in which those processes have other mappings |
| SymbolResolver.Resolver.Serve | src/main.rs:973-985 | every answer of a request queue is the image's, under any sequence of resolves and evictions |
| Utf8.BoundaryIff | src/kernel.rs:88-91 | character boundaries are exactly the ends of well-formed prefixes |
| Utf8.BoundaryNear | src/kernel.rs:88-91 | some boundary lies within three bytes below any position |
| Utf8.Truncate | src/kernel.rs:83-93 | the longest well-formed prefix within the limit, at most three bytes short |
| KernelNames.TakeIdent | src/kernel.rs:23-35 | one length prefix: panics exactly when number plus position overflows 64 bits, otherwise takes or skips the identifier |
| KernelNames.SkipDigits | src/kernel.rs:20-22 | where a number ends |
| KernelNames.Scan | src/kernel.rs:13-39 | the scan panics exactly on an overflowing prefix and otherwise finds the first longest identifier |
| KernelNames.Demangle | src/kernel.rs:10-40 | the same of the demangling step, the raw name when nothing is found |
| KernelNames.LongestIs | src/kernel.rs:25-30 | the identifier taken is one announced, none is longer, all before are shorter |
| KernelNames.ShortNumbersSafe | src/kernel.rs:23-24 | a name without twenty digits in a row never panics |
| KernelNames.OverflowExample | src/kernel.rs:23-25 | a name that panics |
| KernelNames.StripTemplates | src/kernel.rs:43-52 | the loop keeps exactly the characters at depth 0 |
| KernelNames.TemplateArgsRemoved | src/kernel.rs:43-52 | balanced template arguments, nested ones included, disappear and nothing else does |
| KernelNames.DropNumber | src/kernel.rs:63-72 | drops a trailing underscore and number exactly when there is one |
| KernelNames.TruncateAscii | src/kernel.rs:74 | an ASCII name is cut to exactly 64 bytes |
| KernelNames.NormalizeKernelName | src/kernel.rs:7-81 | terminates, panics exactly on an overflowing prefix, otherwise the steps in order with the raw name as fallback |
| KernelNames.NormalizedShape | src/kernel.rs:7-81 | at most 64 bytes, never empty for a non-empty name; unless it falls back, a prefix of the depth-0 characters without `<` and `(` |
| KernelNames.SignatureStripped | src/kernel.rs:3-6 | `f<args>(params` comes down to f, for every plain f and balanced args |
| AdaptiveDrain.Ticker.Tick | src/main.rs:1309-1340 | one tick on the counters and the interval |
| AdaptiveDrain.PublishedIsMax | src/main.rs:1309-1312 | the published drops are the greatest total read |
| AdaptiveDrain.PublishedIsLast | src/main.rs:1309-1312 | for a counter that never goes down, the last one |
| AdaptiveDrain.SwitchEndsStreak | src/main.rs:1318-1339 | a switch to fast ends three overflowing ticks in a row, a switch back thirty clear ones |
| AdaptiveDrain.SwitchBound | src/main.rs:1318-1339 | n readable ticks hold at most (n + 30) / 33 switches to fast |
| AdaptiveDrain.SwitchBoundMet | src/main.rs:1318-1339 | for every k a run of 33k + 3 readings with k + 1 switches, which is the bound |
| StableSort.SortIsStable | src/symbols.rs:234 | the library sort: ordered, stable, a permutation |
| Stragglers.MiddleIsMedian | src/main.rs:1702-1703 | the middle of the sorted ranks is the upper median |
| Stragglers.MedianUnique | src/main.rs:1702-1703 | a list has one upper median |
| Stragglers.StragglerRatios | src/main.rs:1700-1717 | no ratios exactly for fewer than two ranks or a zero median; otherwise one per rank over the median, at most (n - 1) / 2 above one and some rank at one |
| Stragglers.TwoRanksNoStraggler | src/main.rs:1700-1717 | two ranks never produce a straggler |

## Left out

- BPF loading, uprobe attachment, /proc and cgroup reading, ELF parsing, NVML, HTTP and TLS: foreign calls; their results are inputs.
- Scheduling, clocks and hash map order: steps come in any order, times are inputs, iteration order is arbitrary.
- Floating-point counters and ratios: counts and nanoseconds are integers, ratios are kept as numerator and denominator.
- Per-label histogram theorems take the label of a key as a fixed function: a relabelled pod starts new series, and at the global cap a row is published under another handle's labels (PipelineExactness.ServedHistogramsExact says what then still holds).
- Eviction from INFLIGHT and the other LRU maps of the kernel: the maps are taken as large enough, except where a full map is modelled.
- Eviction order of the symbol caches: a full cache loses an arbitrary entry.
- The longest launch duration of LAUNCH_AGG: the drain reads it and does not publish it.
- The 95th percentile of a rank's window: an input, its index is computed in floating point.
- `cuModuleGetFunction` probes and NVTX markers: they bypass the guard.
- Histogram families that the drain writes per bucket are not part of the cache's agreement with the registry.
- Names that are not ASCII in `normalize_kernel_name`; truncation is modelled for all well-formed UTF-8.
- The nesting depth, tick counters and handle counters are unbounded; their 32-bit overflow needs billions of steps.
- Replacing a library file under a cached path: the library cache is never evicted per process, so answers are for fixed files.
- Summing a per-CPU counter, kernel classification, label rename tables, metric registration: each is settled by reading one branch.
- PodLabels.FiledCoherentIff: coherence is about namespace, pod and container; the annotation bit of a container kept by a relist is not refreshed by the code.
- Promotions.PromotionLostIff: each lock is one step; loads and stores of the flags are sequentially consistent.
- MemoryGauge.GaugeIsLive: until the process is collected, which drops its gauge, and with fewer than 2^32 hits per key and CPU between drains, so that no row's count wraps to nothing.
- ActiveMemory.MemoryConserved: for rate 1 and orderly runs; ActiveMemory.MemoryDrifts covers all others with rate 1.
- RecursionGuard.GuardReports: for rate 1, since sampling makes the guard skip entries.
