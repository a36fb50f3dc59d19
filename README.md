# go-sensor core, modelled in Dafny

This project models three parts of the Instana Go sensor:

- **The sampler scheduler** (`autoprofile/sampler_scheduler.go`). It decides when a profiling
  sampler may open a capture window: the scheduler must be started, the capture time already
  spent in the current report window must be within `maxProfileDuration`, and a process-wide
  guard must be free. It closes each window after `maxSpanDuration` and, when the sampler stops
  without error, adds the window's length to the time spent. A report does nothing while the scheduler is stopped, or when it
  samples and has spent no capture time. Otherwise it asks the sampler for a profile. When the
  build fails, the report returns and the window's capture time is kept for the next report.
  When it succeeds, a profile with roots goes to the recorder, and a new report window starts.
- **The heap-allocation sampler** (`autoprofile/allocation_sampler.go`). It turns a heap snapshot
  into a call-graph tree. It finds the `inuse_space` and `inuse_objects` measurements, walks
  each sample's stack from the outermost frame inwards, skips agent frames and
  `runtime.goexit`, and adds the sample's (space, object count) to the node where the walk ends.
  The profile's roots are the children of the synthetic top node.
- **Trace-context propagation** (`propagation.go`). `inject` writes a span context into a text
  map or HTTP headers under `x-instana-t`, `x-instana-s`, `x-instana-l` and `x-instana-b-<name>`,
  reusing whatever spelling of those keys the carrier already holds. `extract` reads it back,
  matching keys case-insensitively.

Files:

- `wrappers.dfy`: `Option` and `Result`.
- `call_sites.dfy`: the call-graph tree. It is a class whose one field maps each node's key
  path (frames from the top node down) to the node's accumulators.
- `profiles.dfy`: the profile record handed to the recorder.
- `allocation_sampler.dfy`: the aggregation, specified by pure functions. The methods are proved
  against them, and the lemmas state what the aggregation promises.
- `sampler_scheduler.dfy`: the scheduler and the guard, as classes whose methods take the clock
  and the sampler's outcomes as parameters.
- `heap_scheduling.dfy`: the scheduler driving the heap-allocation sampler, whose hooks supply
  those outcomes.
- `propagation.dfy`: the carrier as a class over a map, `Extract` and `Inject` as loops proved
  against specification functions, and the round trip.

Modelling choices:

- The clock is the `now` parameter (nanoseconds), and the sampler's outcomes are parameters:
  whether start and stop succeed, and the profile or error `buildProfile` returns.
- The calls the scheduler makes into its sampler are logged in a sequence field. So are the
  profiles handed to the recorder.
- The guard `samplerActive` is a shared `Flag` object. Its ghost `holder` names the scheduler
  whose window holds it.
- A carrier visits its entries in Go map order, which is unspecified. The model takes that order
  as a parameter `order`, which must list every key exactly once. The baggage map's iteration
  order is a parameter `bagOrder` in the same way.
- `ParseID` and `FormatID` are function parameters. The round trip requires that parsing the
  formatted trace and span ids gives them back.

## Model

| member | source | states |
|---|---|---|
| CallSites.CallGraph.constructor | autoprofile/allocation_sampler.go:79 | the tree starts as a lone top node with the empty key and zero weight |
| CallSites.CallGraph.FindOrAddChild | autoprofile/allocation_sampler.go:101 | the child of `current` keyed by the frame is returned; the tree gains it with zero weight only when it was missing, and stays a tree |
| CallSites.CallGraph.Increment | autoprofile/allocation_sampler.go:104 | the weight is added to the accumulators of exactly one node; every other node is unchanged |
| CallSites.AddPath | autoprofile/allocation_sampler.go:92-102 | descending along a path keeps the tree shape, makes every prefix of the path a node, keeps old nodes and their weights, and adds only zero-weight nodes on the path |
| CallSites.TotalWeightFindOrAdd | autoprofile/allocation_sampler.go:101 | find-or-add leaves the summed weight of the tree unchanged |
| CallSites.TotalWeightIncrement | autoprofile/allocation_sampler.go:104 | incrementing one node by w adds exactly w to the summed weight |
| CallSites.TotalWeightAddPath | autoprofile/allocation_sampler.go:92-102 | descending along a path leaves the summed weight unchanged |
| AllocationSampler.StartSampler | autoprofile/allocation_sampler.go:24-26 | starting a heap sampler never fails |
| AllocationSampler.StopSampler | autoprofile/allocation_sampler.go:28-30 | stopping a heap sampler never fails |
| AllocationSampler.FirstTypeIndex | autoprofile/allocation_sampler.go:57-72 | the result is -1 exactly when no sample type has the name; otherwise it is the first index with that name |
| AllocationSampler.FindSampleType | autoprofile/allocation_sampler.go:57-63 | the scan returns the first index of the named sample type, or -1 |
| AllocationSampler.SurvivingPath | autoprofile/allocation_sampler.go:93-102 | the path is no longer than the stack and holds only frames of the stack that are not skipped |
| AllocationSampler.Kept | autoprofile/allocation_sampler.go:93-99 | the frames kept are exactly the stack's frames that are neither agent frames (when those are excluded) nor `runtime.goexit` |
| AllocationSampler.SurvivingPathIsReversedKept | autoprofile/allocation_sampler.go:93-102 | the path is exactly the kept frames in reverse order: the walk from the last location to the first drops only skipped frames |
| AllocationSampler.SurvivingPathReversed | autoprofile/allocation_sampler.go:93-102 | with no frame skipped, the path is the stack read from its last location to its first, so the outermost frame is the shallowest node |
| AllocationSampler.Step | autoprofile/allocation_sampler.go:82-104 | adding one sample keeps the tree shape |
| AllocationSampler.Aggregate | autoprofile/allocation_sampler.go:81-105 | adding the samples in order keeps the tree shape |
| AllocationSampler.AllocationGraph | autoprofile/allocation_sampler.go:78-105 | the call graph of a snapshot is a tree |
| AllocationSampler.Descend | autoprofile/allocation_sampler.go:92-102 | the inner loop ends on the node named by the surviving frames, outermost first, and the tree gains exactly the find-or-add nodes along that path |
| AllocationSampler.AddSample | autoprofile/allocation_sampler.go:82-104 | the method grows the tree exactly as the specification step does: an agent stack (when agent frames are excluded) or zero in-use space leaves it as it was; otherwise it descends along the surviving frames and adds (space, count) to the final node |
| AllocationSampler.AggregateSamples | autoprofile/allocation_sampler.go:79-105 | the loop over the samples grows a fresh top node into the aggregate of all samples in order |
| AllocationSampler.CreateAllocationCallGraph | autoprofile/allocation_sampler.go:55-108 | fails with "unrecognized profile data" exactly when either measurement is missing, whatever the samples; otherwise returns a fresh tree equal to the snapshot's call graph |
| AllocationSampler.CollectRoots | autoprofile/allocation_sampler.go:47-50 | the roots are exactly the keys of the top node's children, each listed once |
| AllocationSampler.BuildProfile | autoprofile/allocation_sampler.go:32-53 | a read error is returned as is; a missing snapshot gives "no profile returned"; an aggregation error is propagated; otherwise the memory/allocation/bytes profile carries the given duration and timespan, the children of the top node as roots, each once, and the tree below the top node |
| AllocationSampler.StepChangesOnlyFinalNode | autoprofile/allocation_sampler.go:92-104 | an accepted sample adds its weight to the final node of its path only; every other old node keeps its weight and every added node has zero weight |
| AllocationSampler.SamePathMerges | autoprofile/allocation_sampler.go:101 | two accepted samples with the same surviving frames end on the same node, which holds both weights, and the second adds no node |
| AllocationSampler.StepTop | autoprofile/allocation_sampler.go:92-104 | one sample adds its weight to the top node exactly when it is accepted and every one of its frames is skipped |
| AllocationSampler.StepWeight | autoprofile/allocation_sampler.go:82-104 | one sample adds exactly its (space, count) to the summed weight when accepted, and nothing otherwise |
| AllocationSampler.AggregateWeight | autoprofile/allocation_sampler.go:81-105 | conservation: the summed space and count over all nodes grow by exactly the space and count of the accepted samples |
| AllocationSampler.AggregateTopWeight | autoprofile/allocation_sampler.go:92-104 | the top node collects exactly the weight of accepted samples whose every frame is skipped |
| AllocationSampler.StepRoots | autoprofile/allocation_sampler.go:93-102 | one sample adds to the top node's children exactly the outermost surviving frame of an accepted sample, and removes none |
| AllocationSampler.AggregateRoots | autoprofile/allocation_sampler.go:93-102 | the top node's children are the old ones plus the outermost surviving frame of each accepted sample |
| AllocationSampler.AllocationGraphWeight | autoprofile/allocation_sampler.go:79-105 | the call graph's summed weight equals that of the accepted samples; the top node, which no profile root includes, holds the weight of fully skipped samples, and the rest of the tree holds the remainder |
| AllocationSampler.AllocationGraphRoots | autoprofile/allocation_sampler.go:93-102 | the roots of a snapshot's call graph are the outermost surviving frames of its accepted samples |
| AllocationSampler.NothingAcceptedUnchanged | autoprofile/allocation_sampler.go:82-89 | when no sample is accepted the tree is left exactly as it was |
| SamplerScheduler.Flag.constructor | autoprofile/sampler_scheduler.go:53 | a guard starts unset, like the `&flag{}` the scheduler creates for `started` |
| SamplerScheduler.Flag.SetIfUnset | autoprofile/sampler_scheduler.go:123-125 | succeeds exactly when the guard was unset, and then records the caller as holder; otherwise changes nothing |
| SamplerScheduler.Flag.Unset | autoprofile/sampler_scheduler.go:131 | the guard is free afterwards |
| SamplerScheduler.Scheduler.constructor | autoprofile/sampler_scheduler.go:50-66 | a new scheduler is stopped, has no timers and zero counters |
| SamplerScheduler.Scheduler.Reset | autoprofile/sampler_scheduler.go:104-108 | the sampler is reset, the window starts at the current second and the capture time spent is zero; nothing else changes |
| SamplerScheduler.Scheduler.Start | autoprofile/sampler_scheduler.go:68-88 | a second start changes nothing; the first resets, arms the sampling timer (unless only reporting) and the report timer, both firing at once and then periodically |
| SamplerScheduler.Scheduler.Stop | autoprofile/sampler_scheduler.go:90-102 | stopping a stopped scheduler changes nothing; otherwise both periodic timers are stopped and the counters, the open window and its timeout are untouched |
| SamplerScheduler.Scheduler.StartProfiling | autoprofile/sampler_scheduler.go:110-142 | refused with nothing changed when stopped, over budget (strictly more than maxProfileDuration seconds spent) or when the guard is held; otherwise the sampler is started and the result is its success, with the guard held, the start time recorded and a one-shot timeout of maxSpanDuration armed; on failure the guard is released |
| SamplerScheduler.Scheduler.StopSampler | autoprofile/sampler_scheduler.go:144-160 | the timeout is stopped and the sampler stopped; on success exactly now - samplerStart is added to the time spent, on failure it is unchanged |
| SamplerScheduler.Scheduler.OnSamplerTimeout | autoprofile/sampler_scheduler.go:136-139 | the timeout, armed only while this scheduler's window holds the guard, stops the sampler as above and frees the guard whatever the outcome |
| SamplerScheduler.Scheduler.Report | autoprofile/sampler_scheduler.go:162-200 | no effect when stopped or when sampling with no capture time spent; otherwise the sampler builds from the time spent and the timespan in seconds; on failure the window is kept; on success a profile with roots is recorded exactly once (with the agent's process id when it has one), an empty one never, and the window is reset |
| SamplerScheduler.GuardExcludes | autoprofile/sampler_scheduler.go:123-125 | while one scheduler's window is open, another scheduler sharing the guard is refused at any time and whatever its sampler would do, leaving the open window open and itself unchanged |
| SamplerScheduler.SharedGuardScenario | autoprofile/sampler_scheduler.go:123-139 | while one scheduler's window is open another cannot open one; after the timeout frees the guard it can |
| SamplerScheduler.ReportWindowScenario | autoprofile/sampler_scheduler.go:162-199 | the sampler sees exactly reset, start, stop, a build from 10 s of capture over a 60 s timespan, and reset: the report at 0 s builds nothing, and the report at 60 s after a window from 5 s to 15 s records the profile once, with the agent's process id, and resets |
| HeapScheduling.StartHeapProfiling | autoprofile/allocation_sampler.go:24-26 | starting the heap sampler never fails, so a window opens exactly when the scheduler is started, within budget and the guard is free (`autoprofile/sampler_scheduler.go:110-142`) |
| HeapScheduling.HeapSamplerTimeout | autoprofile/allocation_sampler.go:28-30 | stopping the heap sampler never fails, so the timeout adds the whole window to the capture time spent and frees the guard (`autoprofile/sampler_scheduler.go:144-160`) |
| HeapScheduling.NoRootFramesNoRoots | autoprofile/allocation_sampler.go:47-50 | the roots collected from the top node's children are empty exactly when the top node has no children |
| HeapScheduling.HeapReport | autoprofile/allocation_sampler.go:32-53 | a report that goes ahead records a snapshot with both measurements and a root once, with the capture time, the timespan and the snapshot's call graph, and resets; a snapshot without roots is not recorded; a failed read or missing measurements record nothing and keep the window (`autoprofile/sampler_scheduler.go:178-199`) |
| SamplerScheduler.BudgetScenario | autoprofile/sampler_scheduler.go:118-121 | with a budget of 0 seconds, a 10-second window is admitted, later windows are refused, and a successful report at the end of the report window admits them again |
| Propagation.Classify | propagation.go:108-131 | a key is the trace id, span id or level key exactly when it lower-cases to that field; it is a baggage key exactly when it lower-cases to something starting with the prefix, and its name is the rest of the lower-cased key |
| Propagation.LastIndex | propagation.go:107-126 | the result is the last entry of the kind, or -1 when there is none |
| Propagation.BaggageLastName | propagation.go:127-131 | a name is in the extracted baggage exactly when some entry bears it, and carries the value of the last such entry |
| Propagation.ScanOfMeaning | propagation.go:107-131 | the extraction loop's state after reading the entries in order is the number of id entries, the last trace and span ids and the baggage, each name with its last value |
| Propagation.Extract | propagation.go:96-147 | the loop yields the specification: invalid carrier for non-readers; corrupted when an id does not parse; not found with no id entry; corrupted with one; otherwise the last trace id, last span id and the baggage |
| Propagation.NotFoundIffNoIds | propagation.go:140-141 | a readable carrier yields "not found" exactly when none of its keys spells the trace or span id |
| Propagation.TwoTraceKeysSuffice | propagation.go:140-146 | occurrences are counted: two trace-id entries and no span-id entry make a context, with span id zero |
| Propagation.CanonicalKey | propagation.go:66-73 | the canonical header form only changes letter case |
| Propagation.StoreKey | propagation.go:86-92 | the key a carrier stores under lower-cases to the key given |
| Propagation.Spelling | propagation.go:44-51 | the spelling reused is a key of the carrier that lower-cases to the field, or the field itself when the carrier has none |
| Propagation.BaggageSpelling | propagation.go:52-55 | when the carrier holds a baggage key, the prefix spelling reused is the first twelve characters of one of them; only when it holds none is it the prefix itself; it always lower-cases to the prefix |
| Propagation.Cleared | propagation.go:74-83 | the headers kept are exactly those that are not one of the three id spellings and not baggage keys |
| Propagation.Carrier.constructor | propagation.go:33-36 | a carrier has its entries and its kind, which stands for the interfaces the Go value implements (reader at lines 33-36 and 97-100, writer at 60-63, HTTP headers at 65) |
| Propagation.Carrier.Set | propagation.go:86-92 | the value is stored under the carrier's form of the key, replacing any value there |
| Propagation.Carrier.Delete | propagation.go:75-81 | exactly that key is removed |
| Propagation.SpellingsOfMeaning | propagation.go:44-58 | visiting the carrier's keys one by one, as the switch does, finds the spellings named by Spelling and BaggageSpelling |
| Propagation.ReadSpellings | propagation.go:38-58 | the scan finds the reused spellings of the trace, span and level keys and of the baggage prefix |
| Propagation.ClearHeaders | propagation.go:74-83 | deleting the three spellings and then every baggage key leaves exactly the cleared headers |
| Propagation.SetBaggage | propagation.go:90-92 | every baggage item is set, in the visiting order, under the prefix spelling |
| Propagation.Inject | propagation.go:27-94 | a foreign context gives ErrInvalidSpanContext and a carrier that cannot be both read and written gives ErrInvalidCarrier, leaving it untouched; otherwise HTTP headers are cleared and the ids, level "1" and baggage set under the reused spellings |
| Propagation.InjectBase | propagation.go:65-84 | with at most one spelling of each id, the entries kept before setting hold no baggage key and no other spelling of the ids |
| Propagation.WithIdsSet | propagation.go:86-88 | after setting, the trace and span ids are held under the carrier's form of the reused spellings |
| Propagation.WithIdsKey | propagation.go:65-88 | after setting, any key spelling an id is the one it was set under, and no key is a baggage key |
| Propagation.WithBaggageKeeps | propagation.go:90-92 | setting baggage only touches baggage keys, and only adds keys of names it visits |
| Propagation.WithBaggageStores | propagation.go:90-92 | with lower-case names, every visited baggage item ends up under its own key with its own value |
| Propagation.InjectedIds | propagation.go:65-88 | after injection there is exactly one trace-id key and one span-id key, holding the formatted ids |
| Propagation.InjectedBaggage | propagation.go:90-92 | after injection, with lower-case names, every baggage name has a key and the baggage keys carry exactly the context's baggage |
| Propagation.ExtractIds | propagation.go:107-126 | with exactly one trace-id key and one span-id key whose values parse, extraction reads two occurrences and those ids |
| Propagation.ExtractBaggage | propagation.go:127-131 | when every name has a key and every baggage key carries its name's value, extraction reads exactly that baggage |
| Propagation.RoundTrip | propagation.go:86-131 | extracting after injecting gives back the same trace id, span id and baggage, in any visiting order, given at most one spelling of each id, no prior baggage in a text map, lower-case baggage names and ids that parse back |
| Propagation.StaleTraceSpelling | propagation.go:44-58 | in a text map with two spellings of the trace-id key, one of them keeps its old value after injection |

## Left out

- Timers are values recording their delay, interval and whether they were stopped. Their firing, the goroutine callbacks, the random jitter sleep and the mutex are not modelled; each firing is a call of the corresponding method.
- The `started` flag's atomic operations are a plain boolean field.
- `readHeapProfile`, which calls the runtime profiler, the pprof parser, symbolization and the validity check, is not modelled. Its outcome is the `HeapRead` parameter of `BuildProfile`. The validity check's guarantee that every sample has one value per sample type is the `WellFormed` precondition.
- `getPID`, the logging and the recorder's serialisation (`Profile.toMap`) are not modelled. The agent's process id is a parameter of `Report`, and the local one a parameter of `BuildProfile`.
- The heap sampler's `resetSampler` (`autoprofile/allocation_sampler.go:21-22`) has an empty body and no result, so it is not a member of its own. The scheduler logs the call as `ResetCall`.
- The declaration of the `samplerActive` guard is not part of this model. It is modelled as a `Flag` shared by the schedulers.
- `isSensorStack`, `isSensorFrame` and `readFuncInfo` are not part of this model. The first two are the `isSensorStack` and `isSensorFrame` parameters of `SensorFilter`. Each pprof Location is taken as a single `Frame`: the function name, file name and line that `readFuncInfo` reads from it.
- `newProfile` and the `CallSite` type are not part of this model. The profile is a record holding the roots and the tree below the top node. A CallSite is modelled by its key path from the top node.
- AllocationSampler.SampleWeight: values are unbounded integers; the `float64` conversion of the space value and 64-bit overflow of the sums are not modelled.
- SamplerScheduler.Scheduler.StopSampler: the nanosecond counters are unbounded integers, so int64 overflow is not modelled.
- SamplerScheduler.Scheduler.Reset: `profileStart` is `now / 1e9`, floored like Go's `Unix()` for times after 1970.
- Propagation.Lower: lower-casing is ASCII only; Unicode case folding is not modelled.
- Propagation.CanonicalKey: net/textproto is not part of this model. The canonical form is modelled as upper-casing the first letter and each letter after '-', lower-casing the rest, and leaving keys with non-token characters unchanged.
- HTTP headers with several values per key are not modelled: each key has one value.
- `ParseID` and `FormatID` are not part of this model; they are parameters.
- Span contexts carry only the trace id, span id and baggage; other fields of the sensor's span context are not part of this model.
