# A verified model of Dasha's decision logic

Dasha watches PostgreSQL clusters. This project models the parts of its backend that decide
something, in Dafny, and proves what they promise:

- **Plans** (`PlanTree`, `PlanText`, `PlanLayout`, `PlanRoles`, `PlanSeparation`, `PlanBuilder`, `PlanHash`, `PlanQuoting`,
  `PlanSettings`, `PlanWalk`, `PlanRules`, `PlanTriggers`): the reader of EXPLAIN text, the plan fingerprint, and the rule catalogue over a plan.
- **Hot objects** (`HotModel`, `HotHistogram`, `HotRanking`, `HotActivity`, `HotHistory`, `HotRecord`, `HotStorage`): per-host
  deltas of cumulative counters, rankings with a tail histogram, and what is carried from capture to capture.
- **Activity spikes** (`SpikeSpec`, `SpikeMonitor`): when an automatic snapshot is taken.
- **Fleet scoring** (`FleetTargets`, `FleetFlights`, `FleetServer`, `FleetDispatch`, `FleetScoring`, `FleetPrefilter`):
  shared computations, the dispatch loop over a pool of slots, and the split of the fleet.
- **Health score** (`HealthMetrics`, `HealthPenalties`, `HealthScore`, `HealthEngine`, `HealthPerDb`, `HealthRules`,
  `HealthCharges`, `HealthPoints`, `HealthFormula`, `HealthPerDbFormula`): penalties, weights, the ceiling, and the rules that must agree with them.
- **Index advice** (`IndexAdvice`) and the **token cache** (`TokenCache`).

`Common`, `RealArithmetic`, `Sorting` and `Text` serve all of them.

Code that works in place is modelled in place: a class has the fields of the source's struct, its methods are
proved against a specification on values, and the laws are proved of the specification. `PlanBuilder` goes as far as
the memory of the child slices, so that a pointer into a slice that was moved would be seen. Concurrent code is a
transition system: the laws hold for every sequence of actions, whoever takes them, and the classes
(`FleetServer.Fleet`, `FleetScoring.Scoring`) carry the schedule that led to their state as a ghost field. Numbers
that the source keeps as floating point are exact reals.

Thresholds, points, weights, roles and orders are stated a second time, in numbers and names of their own, by lemmas
that do not use the functions they describe (`PlanRoles`, `PlanTriggers`, `HotActivity`, `HealthPoints`,
`HealthFormula`, `FleetPrefilter.SweptByReadings`, `SpikeMonitor.TickInNumbers`, `IndexAdvice.VerdictInNumbers`).

`dafny verify dfyconfig.toml` checks the project. Nothing was executed.

## Model

| member | source | states |
|---|---|---|
| `PlanLayout.RoundTrip` | backend/internal/explain/parse_text.go:28-130 | Printing any plan tree in preorder (children and their SubPlan header deeper than the parent, attributes first, values wrapped or followed by deeper blocks, a node or its header no deeper than the sibling before it, any text before the plan and trailer after it) and reading the lines back gives that tree; its roles are those of PlanRoles.RolesReadBack, its fields those of PlanRoles.AttrsReadBack |
| `PlanRoles.RolesReadBack` | backend/internal/explain/parse_text.go:439-475 | The tree read back from a printed plan has every child in the role written out here: "Member" under Append, Merge Append, BitmapAnd and BitmapOr, "Subquery" under Subquery Scan, elsewhere "Outer" for the first child without a header, "Inner" for the second and "Member" for later ones; "SubPlan" under a header that starts so, "InitPlan" under any other |
| `PlanRoles.SidesReadBack` | backend/internal/explain/parse_text.go:451-465 | Of a printed join, whatever stands under headers in between, the outer side found is the first child printed without a header and the inner side the second |
| `PlanRoles.NthPlainOnce` | backend/internal/explain/parse_text.go:437-449 | Among the children there is only one first and one second without a header |
| `PlanRoles.AttrsReadBack` | backend/internal/explain/parse_text.go:501-556 | Which key fills which field, key by key: a field of the node read back is the trimmed value of the last printed line with its key, and is missing without one |
| `Text.TrimTakesBlanks` | backend/internal/explain/parse_text.go:490-499 | Trimming takes blanks off both ends and nothing else |
| `PlanSeparation.RoundTripExact` | backend/internal/explain/parse_text.go:28-130 | Without the sibling condition the lines still parse, trailer included, and they give the printed tree if and only if every node, or the header above it, starts no deeper than the sibling before it |
| `PlanSeparation.PrintedDeep` | backend/internal/explain/parse_text.go:81-119 | Wherever a printed node is read, its nodes end up at least as deep as printed, all of them exactly as deep only when the siblings are separated |
| `PlanSeparation.DeeperSiblingMoves` | backend/internal/explain/parse_text.go:81-119 | A four-line plan that is read back as another tree |
| `PlanBuilder.ParseText` | backend/internal/explain/parse_text.go:28-130 | The parser that fills nodes in place inside growing child slices, through a stack of pointers, returns the tree and trailer of the line-by-line meaning for every input (for printed plans the tree RolesReadBack describes), and fails exactly when no line is a node |
| `PlanBuilder.Builder.Feed` | backend/internal/explain/parse_text.go:69-130 | One turn of the line loop: every frame still points at the live node of the rightmost spine, indents grow, and the tree is the one the line calls for, whether or not an append moved the slice |
| `PlanBuilder.Builder.FeedAll` | backend/internal/explain/parse_text.go:69-130 | The line loop keeps frames live from the first line to the last and ends where running the lines leads |
| `PlanBuilder.MovedConsistent` | backend/internal/explain/parse_text.go:80-102 | An append that moves the child slice to a new array leaves the tree and every remaining frame right, the frame of the new child pointing into the new array |
| `PlanBuilder.Builder.ApplyTextAttr` | backend/internal/explain/parse_text.go:477-499 | An attribute line changes the fields of the node on top of the stack and nothing else in the tree |
| `PlanLayout.AttrsShown` | backend/internal/explain/parse_text.go:477-556 | Attribute lines with their wrapped tails and deeper blocks leave exactly the printed fields, trimmed, last one winning |
| `PlanHash.FingerprintExact` | backend/internal/explain/hash.go:18-64 | Two plans have the same fingerprint if and only if they have the same shape up to the order of the children of Parallel Append nodes, at any depth |
| `PlanHash.SwapKeepsFingerprint` | backend/internal/explain/hash.go:45-60 | Two children of different fingerprints can trade places without changing the fingerprint if and only if the node is an Append and parallel |
| `PlanHash.VolatilePartsKeepFingerprint` | backend/internal/explain/hash.go:25-60 | Costs, rows, measurements, alias, conditions and the order of the children of a Parallel Append do not reach the fingerprint of a node; for all depths at once see FingerprintExact |
| `PlanHash.HashPlan` | backend/internal/explain/hash.go:18-64 | The running hash that sorts sub-hashes in place writes exactly the stream the fingerprint is defined by |
| `PlanHash.StreamDecodes` | backend/internal/explain/hash.go:25-64 | The stream of length-prefixed fields is uniquely decodable: equal streams, whatever follows, come from equal shapes |
| `PlanQuoting.OnClauseRoundTrip` | backend/internal/explain/parse_text.go:257-332 | Schema, relation and alias printed as SQL names, quoted or bare, with dots, blanks and quotes inside, are read back; an alias equal to the relation is dropped |
| `PlanQuoting.ParseOnClause` | backend/internal/explain/parse_text.go:257-273 | The scanner with its quote flag computes the clause the round trip is about |
| `PlanQuoting.SplitIdents` | backend/internal/explain/parse_text.go:275-305 | Splitting at blanks outside quotes, as the recursive reading has it |
| `PlanSettings.SettingsRoundTrip` | backend/internal/explain/parse_text.go:707-765 | Settings printed as key = 'value' with doubled quotes are read back as the same table, whatever the values contain |
| `PlanSettings.ParseSettings` | backend/internal/explain/parse_text.go:707-731 | The loop over the parts computes the table of the round trip |
| `PlanSettings.SplitTopLevel` | backend/internal/explain/parse_text.go:733-765 | The byte scanner with quote and depth cuts exactly at the top-level commas of the recursive reading |
| `PlanWalk.WalkIsExact` | backend/internal/explain/plan.go:167-192 | The walk visits every node once, with a path of its own that leads back to it and with the node above it as parent |
| `PlanWalk.EachNode` | backend/internal/explain/rules.go:592-604 | The visitor recursion yields exactly that walk |
| `PlanWalk.FollowPath` | backend/internal/explain/plan.go:182-192 | Stepping through child indexes finds the node at the path, none when an index is out of range |
| `PlanWalk.SelfCostsCoverTotal` | backend/internal/explain/plan.go:208-219 | Self costs, although clamped at zero, add up to at least the cost of the root |
| `PlanWalk.ComputeSelfCost` | backend/internal/explain/plan.go:208-219 | Subtracting the children one by one gives the clamped self cost |
| `PlanRules.RulesPoint` | backend/internal/explain/rules.go:103-603 | Each of the fifteen rules reports under its own code and only at paths that lead to a node of the reported type and relation, also below Materialize and Memoize |
| `PlanRules.Evaluate` | backend/internal/explain/rule.go:87-113 | For every plan: the findings of exactly the rules that can run, high before medium before low and by code within a severity, all of them at nodes of the plan; the rules that lack something, each once and in the order of the catalogue, with exactly what they lack |
| `Sorting.SortStable` | backend/internal/explain/rule.go:105-111 | Findings that rank equal keep the order of the catalogue and of the walk |
| `PlanTriggers.FindingsInNumbers` | backend/internal/explain/rules.go:64-524 | Each of the eleven per-node rules reports exactly the visited nodes that meet its condition, written out in numbers without quotients, with that severity and at that place |
| `PlanTriggers.HotspotInNumbers` | backend/internal/explain/rules.go:154-181 | An estimated plan has a hotspot if and only if some node spends 100 and half of the total by itself; the one reported is spent on most |
| `PlanTriggers.CandidatesInNumbers` | backend/internal/explain/rules.go:213-271 | Every nested loop whose inner side, below nodes that only hold rows back, scans a whole table with something to look up is reported at that scan, and nothing else |
| `PlanTriggers.OverheadInNumbers` | backend/internal/explain/rules.go:525-579 | Compilation and triggers are reported, at the root, if and only if they take 10 ms and a quarter of the statement, whichever time is known of it |
| `PlanTriggers.TimesAddUp` | backend/internal/explain/rules.go:544-566 | The time of the triggers is the sum of their times |
| `PlanTriggers.RunsWhen` | backend/internal/explain/rules.go:85-101 | What each rule needs to run |
| `PlanRules.Registered` | backend/internal/explain/rules.go:85-101 | The catalogue has every rule once |
| `PlanRules.FoundOrDormant` | backend/internal/explain/rule.go:96-104 | No code is both reported and dormant |
| `PlanRules.ReportedIs` | backend/internal/explain/rules.go:592-604 | A per-node rule reports exactly the visited nodes it names, each at its own path |
| `PlanRules.EvalNodes` | backend/internal/explain/rules.go:103-603 | The traversal that appends where a rule reports computes these findings |
| `PlanRules.HotspotIs` | backend/internal/explain/rules.go:154-181 | A hotspot is reported exactly when some node of an estimated plan is one, and then at a node no other exceeds |
| `PlanRules.CostHotspot` | backend/internal/explain/rules.go:154-181 | The best-so-far traversal finds that node |
| `PlanRules.UnwrappedIsThere` | backend/internal/explain/rules.go:264-271 | The extended path leads to the node below the buffering ones, which buffers nothing itself |
| `PlanRules.IndexCandidateJoin` | backend/internal/explain/rules.go:213-243 | One finding for each join whose unwrapped inner side an index could serve |
| `PlanRules.JoinSides` | backend/internal/explain/rules.go:247-260 | The first outer and the first inner child, whatever else stands among the children |
| `HotHistogram.PercentileAccurate` | backend/internal/hotobjects/report.go:300-453 | For a histogram of any tail, the percentile of a value and the true share of objects up to it lie in the same step of the ladder, so they differ by at most 0.1, 0.05, 0.04 or 0.01 |
| `HotHistogram.PercentileBetweenMarks` | backend/internal/hotobjects/report.go:414-453 | Between two neighbouring marks (nothing, the deciles, the 95th and 99th percentile, the largest key) the percentile grows in proportion |
| `HotHistogram.PercentileAtTheTop` | backend/internal/hotobjects/report.go:414-453 | From the largest key on it is 100, or 99 when the largest is no higher than the mark for 99 |
| `HotHistogram.MarksOfTail` | backend/internal/hotobjects/report.go:380-402 | The marks of a tail never fall, so the readings between them are all there are |
| `HotHistogram.PercentileMonotone` | backend/internal/hotobjects/report.go:414-453 | The percentile never falls when the value grows and stays in 0..1 |
| `HotHistogram.ComputePercentile` | backend/internal/hotobjects/report.go:414-453 | The loop over the ladder computes the interpolated percentile |
| `HotHistogram.ComputeQuantiles` | backend/internal/hotobjects/report.go:380-404 | Nearest-rank quantiles of the sorted tail |
| `HotRanking.ClusterDeltaIsSum` | backend/internal/hotobjects/report.go:123-165 | The delta of an object is, counter by counter, the sum of its per-host deltas over the measured hosts |
| `HotRanking.SnapshotConserves` | backend/internal/hotobjects/report.go:106-201 | In every ranking of a built snapshot: at most the wanted number of busy top entries, each no less than any tail key; top and tail together are all objects; the histogram count, sum and maximum are exact; the coverage is the top share of the total, in 0..1 |
| `HotActivity.RankedByCounters` | backend/internal/hotobjects/report.go:276-345 | Each of the five rankings of a built snapshot goes by the counters named here: its objects are those measurable on some host, each once, by the sum of these counters over the hosts and equals by name; the busy ones among the first topN are stored, the rest as the distribution of their sums, with the share the stored ones have |
| `HotActivity.SizeIsLargest` | backend/internal/hotobjects/report.go:123-146 | The size kept of an object is the largest any host reports of it |
| `HotRanking.BuildSnapshot` | backend/internal/hotobjects/report.go:106-201 | The maps and slices filled host by host are the snapshot these properties are about |
| `HotModel.ComputeDelta` | backend/internal/hotobjects/report.go:53-66 | The difference of every counter, none at all when any went backwards |
| `HotModel.CheckEpoch` | backend/internal/hotobjects/report.go:250-273 | Same statistics epoch and same partition signature, else not comparable |
| `HotHistory.QuietMarkStep` | backend/internal/hotobjects/report.go:216-247 | Advancing an anchor by one capture keeps its quiet time the one the whole history calls for |
| `HotHistory.QuietStartIsMaximal` | backend/internal/hotobjects/report.go:233-273 | The quiet chain that the mark names is the longest unbroken one, on a primary throughout |
| `HotHistory.ObservedCoversQuiet` | backend/internal/hotobjects/report.go:204-247 | A host has been observed since no later than a table has been quiet, if and only if the previous window was returned at every capture since the quiet start |
| `HotHistory.WindowNotReturned` | backend/internal/hotobjects/report.go:204-214 | Two captures after which the table is quiet since the first and the host observed since the second |
| `HotHistory.DeltasTelescope` | backend/internal/hotobjects/report.go:53-66 | Over measurable captures the deltas add up to the difference of the ends plus what vanished from the counters |
| `HotHistory.NothingLostOrCountedTwice` | backend/internal/hotobjects/report.go:53-66 | They add up to exactly the difference of the ends if and only if no counter disappeared on the way |
| `HotHistory.VanishedAndBack` | backend/internal/hotobjects/report.go:53-66 | Three captures of a counter that grew by 2 whose deltas add up to 12 |
| `HotHistory.AdvanceQuiet` | backend/internal/hotobjects/report.go:216-231 | Each row of the sample with its quiet time carried on or started anew |
| `HotRecord.AggregateHoldsInterval` | backend/internal/autosnapshot/hot.go:91-162 | The per-host delta computed for a snapshot is the interval from that host's previous commit to this one, none for a first or unmeasurable capture |
| `HotRecord.AggregatesSumIntervals` | backend/internal/autosnapshot/hot.go:91-162 | Over any run of commits, with hosts missing from some, the deltas computed for a host are the intervals of its own history, each once |
| `HotRecord.AggregatesLoseNothing` | backend/internal/autosnapshot/hot.go:91-162 | The deltas computed for a host add up to what its counters grew by, if and only if no counter disappeared |
| `HotRecord.StoredEntryIsInterval` | backend/internal/hotobjects/report.go:106-201 | A stored top entry keeps for each host the interval since that host's previous commit; of objects in the tail nothing is kept by name |
| `HotRecord.StoredSumShows` | backend/internal/hotobjects/report.go:106-201 | The stored tops of a run of snapshots never show more of an object than was computed, and all of it if and only if it made the top whenever it did something |
| `HotStorage.HotStore.TakeHotSnapshot` | backend/internal/autosnapshot/hot.go:82-172 | A capture stores snapshot, anchors and windows together or nothing; hosts that did not answer are missing and keep their state; after any run the stored state is what the histories call for |
| `HotStorage.HotStore.StoredEntriesAreIntervals` | backend/internal/autosnapshot/hot.go:82-172 | In every state the store can reach, each entry of each stored top holds these intervals |
| `HotStorage.HotStore.StoredDeltasAreGrowth` | backend/internal/autosnapshot/hot.go:82-172 | For an object that made a top whenever it did something on a host, the stored entries add up to what its counter grew by, if and only if it never disappeared |
| `HotStorage.HotStore.AttachPrevWindows` | backend/internal/autosnapshot/hot.go:174-205 | Each input gets the window its host last committed when the read returned it |
| `SpikeSpec.SpikeSnapshotsJustified` | backend/internal/autosnapshot/triggers.go:78-160 | Whenever a spike snapshot is attempted, the last probes span one to four spike durations, at least 70% of them met their own threshold, and each dip came within the grace after one that did |
| `SpikeSpec.JustifiedInNumbers` | backend/internal/autosnapshot/daemon.go:164-212 | The same in numbers: the first probe and seven of ten at or above their thresholds, the last of those no longer ago than half a spike duration, the whole no longer than four |
| `SpikeSpec.PeakIsLargest` | backend/internal/autosnapshot/daemon.go:164-200 | The reported peak is the largest count of a probe that met its threshold |
| `SpikeSpec.SpikeIsAttempted` | backend/internal/autosnapshot/triggers.go:98-160 | Conversely, in every run with a clock that does not go back, a spike that nothing breaks off is attempted with all its probes at the first tick at which it is justified and not debounced, and not before |
| `SpikeSpec.NeverAboveNeverFires` | backend/internal/autosnapshot/triggers.go:78-160 | A run whose probes never reach their threshold, or only below the floor, opens no candidate and attempts nothing |
| `SpikeSpec.DropIsAttempted` | backend/internal/autosnapshot/triggers.go:186-243 | Conversely to the next rows, in every run an incident that stays calm attempts its drop at the first tick at which the stretch has lasted, and not before |
| `SpikeSpec.IncidentFollows` | backend/internal/autosnapshot/triggers.go:140-243 | A stored spike opens an incident with its first probe or leaves the open one, a stored drop closes it, and nothing else changes it |
| `SpikeSpec.DropSnapshotsJustified` | backend/internal/autosnapshot/triggers.go:186-243 | A drop snapshot is taken only in an open incident, whose frozen threshold is that of the probe that opened it and never changed, after a full recovery time of probes all below it |
| `SpikeSpec.DropsSeparatedBySpike` | backend/internal/autosnapshot/triggers.go:186-243 | Between any two drop snapshots there is a saved spike snapshot |
| `SpikeSpec.OpenIncidentHistory` | backend/internal/autosnapshot/triggers.go:140-159 | An open incident was opened by one saved spike and has been open ever since |
| `SpikeMonitor.Watch.Poll` | backend/internal/autosnapshot/triggers.go:45-178 | A host polled any number of times, whatever fails, is where the evaluated ticks lead, and each snapshot it attempts is justified by them |
| `SpikeMonitor.HostState.TickActivitySpike` | backend/internal/autosnapshot/triggers.go:45-178 | One tick on the counters does what the machine that remembers every probe does, on the input that TickInNumbers describes |
| `SpikeMonitor.TickInNumbers` | backend/internal/autosnapshot/triggers.go:60-98 | In whole numbers: with n samples in the window the probe is at its threshold if and only if 100 (n - 1) times the count reaches (100 + pct) times the sum of the others, and below the floor if and only if that sum is less than the minimum times n - 1 |
| `SpikeMonitor.Watch.PollAll` | backend/internal/autosnapshot/triggers.go:45-178 | A host polled any number of times: with a positive percentage and a load that never changes no spike snapshot is attempted |
| `SpikeMonitor.SteadyIsNotAbove` | backend/internal/autosnapshot/triggers.go:60-98 | A count equal to all samples before it is not above |
| `SpikeMonitor.HostState.AdvanceSpike` | backend/internal/autosnapshot/daemon.go:164-200 | The three counters and two times stay those of the candidate's probes |
| `SpikeMonitor.HostState.HandleRecovery` | backend/internal/autosnapshot/triggers.go:186-243 | Recovery closes the incident with its snapshot, and leaves no candidate running |
| `SpikeMonitor.CoverageIsDensity` | backend/internal/autosnapshot/daemon.go:206-212 | The coverage computed from the counters is the share of probes at their threshold |
| `SpikeMonitor.TrimSamples` | backend/internal/autosnapshot/triggers.go:482-493 | The loop drops samples from the front up to the first one in the window |
| `SpikeMonitor.TrimKeeps` | backend/internal/autosnapshot/triggers.go:482-493 | Of samples in time order that leaves exactly those at or after the cutoff |
| `SpikeMonitor.AverageExcludingLast` | backend/internal/autosnapshot/triggers.go:495-506 | The mean of all samples but the newest, zero without any |
| `FleetFlights.SingleFlight` | backend/internal/healthscore/fleet.go:190-278 | In every interleaving at most one unpublished computation of a key exists, it is the one listed, and at most one run is in the sweep |
| `FleetFlights.CapAndOnce` | backend/internal/healthscore/fleet.go:190-278 | The counter is the number of unreleased runs and never above the cap; every finished run has published once and released once, also after a panic |
| `FleetFlights.JoinIsSound` | backend/internal/healthscore/fleet.go:190-222 | Joining gives a computation of that key, unpublished if there is one, else one not expired; it is refused only when the cap is reached, and then changes nothing |
| `FleetFlights.ReusedUntilExpiry` | backend/internal/healthscore/fleet.go:190-222 | A computation is shared until it expires: joining its key before gives it again and changes nothing |
| `FleetFlights.SharedForTtl` | backend/internal/healthscore/fleet.go:190-258 | In every run, a computation that ended at some moment is what a caller of its key gets if and only if the caller comes less than resultTtl later |
| `FleetFlights.FailureIsNotShared` | backend/internal/healthscore/fleet.go:235-262 | One that panicked without a result is given to nobody from the moment it is recovered |
| `FleetFlights.StaysListed` | backend/internal/healthscore/fleet.go:190-278 | In every run a listed computation stays the one listed under its key until its own timer fires or a caller finds it expired; late timers, panics and other keys never unlist it |
| `FleetFlights.CanDrain` | backend/internal/healthscore/fleet.go:224-278 | From every reachable state the runs can all finish |
| `FleetFlights.StepsEnd` | backend/internal/healthscore/fleet.go:224-278 | Every own step of a run uses it up, so a run that keeps stepping ends |
| `FleetServer.Fleet.Join` | backend/internal/healthscore/fleet.go:190-222 | The mutex-guarded map and counter do what the protocol's join does |
| `FleetServer.Fleet.Publish` | backend/internal/healthscore/fleet.go:235-258 | The result and its expiry are published once; a second call changes nothing |
| `FleetServer.Fleet.ReleaseOnce` | backend/internal/healthscore/fleet.go:224-278 | The slot of a run is given back once, as in the protocol |
| `FleetServer.Fleet.TrySweep` | backend/internal/healthscore/fleet.go:270-278 | One sweep at a time |
| `FleetServer.Fleet.Expire` | backend/internal/healthscore/fleet.go:235-255 | The timer removes its own computation only |
| `FleetServer.Fleet.Promised` | backend/internal/healthscore/fleet.go:190-278 | What the protocol promises holds of the fields: the cap, and every unfinished computation is the one listed under its key |
| `FleetDispatch.ScoredAtMostOnce` | backend/internal/healthscore/fleet.go:677-769 | In every schedule a target is started and written at most once, rows keep their targets, a worker scores its own target with the metrics read for it, and an unwritten row is marked uncomputed |
| `FleetDispatch.WrittenByItsWorker` | backend/internal/healthscore/fleet.go:721-750 | Every written row holds the outcome of the one worker that was started for it |
| `FleetDispatch.MetricsWereSent` | backend/internal/healthscore/fleet.go:698-744 | The metrics that candidates are scored with are a reading that was sent |
| `FleetDispatch.ReturnedComplete` | backend/internal/healthscore/fleet.go:677-769 | When it returns, all that was started is written, and without the end of the budget every target was |
| `FleetDispatch.SlotsConserved` | backend/internal/healthscore/fleet.go:711-751 | Slots in use are those of the workers, of the dispatcher and of others, never above capacity; the loop waits for metrics only while they are pending and without a slot |
| `FleetDispatch.CandidatesFirst` | backend/internal/healthscore/fleet.go:698-744 | No candidate starts before the metrics are in, and from then on no snapshot-only instance starts until every candidate has |
| `FleetDispatch.RowsArePermutation` | backend/internal/healthscore/fleet.go:749-769 | The rows returned are the queue, each target once; of two rows the one with the lower score comes first, a scored one before an unscored one, equals by cluster and then instance |
| `FleetDispatch.WorkShrinks` | backend/internal/healthscore/fleet.go:711-751 | Every action but a newcomer's and the clock's uses up work, so the loop ends |
| `FleetDispatch.NeverStuck` | backend/internal/healthscore/fleet.go:711-751 | Until it has returned, the loop, a worker, the metrics read or another holder of a slot can go on |
| `FleetScoring.Scoring.ScoreAll` | backend/internal/healthscore/fleet.go:677-769 | The loop over shared positions, slots and rows: with any outside events between its steps it returns these rows, lowest score first, or, with every event used, is where only something outside can go on |
| `FleetTargets.TargetLeIs` | backend/internal/healthscore/fleet.go:894-896 | Targets are ordered by cluster and then instance, at the first character where they differ |
| `FleetScoring.Scoring.DispatchAll` | backend/internal/healthscore/fleet.go:711-753 | The dispatch loop ends with all targets started or the budget ended |
| `FleetScoring.Scoring.StartNext` | backend/internal/healthscore/fleet.go:712-744 | With a slot in hand: a candidate with its metrics, else a snapshot-only instance, else the slot goes back |
| `FleetScoring.Scoring.WriteRow` | backend/internal/healthscore/fleet.go:746-750 | A worker writes its own row and frees its slot |
| `FleetScoring.Scoring.AcquireOrGiveUp` | backend/internal/healthscore/fleet.go:771-780 | Waits until a slot is free or the budget ends |
| `FleetPrefilter.Memory.Prefilter` | backend/internal/healthscore/fleet.go:450-591 | The three parts hold exactly the targets they should, each in its order: candidates by urgency, snapshot-only instances by recent score, the sweep by age; distinct targets are each in one part; without metrics, or when all are wanted, the single part the source gives |
| `FleetPrefilter.CandidatesInOrder` | backend/internal/healthscore/fleet.go:548-581 | Candidates come floored first, then sticky, then the lowest estimates, each by adjusted estimate, then those without signals and those whose read failed |
| `FleetPrefilter.SplitIsLossless` | backend/internal/healthscore/fleet.go:450-591 | For distinct targets the three parts are disjoint and together the fleet |
| `FleetPrefilter.SweptIsOutsideTheBest` | backend/internal/healthscore/fleet.go:555-591 | A swept target is behind a full list of better ones by adjusted estimate |
| `FleetPrefilter.SweptByReadings` | backend/internal/healthscore/fleet.go:525-591 | On the readings and the memory themselves: for a swept target there are 50 and margin other ranked ones whose estimate, or exact score younger than the sticky time, is no higher than its own estimate, and no higher than its own exact score of that age |
| `FleetPrefilter.AdjustedIsLower` | backend/internal/healthscore/fleet.go:525-541 | A target is ranked by the lower of its estimate and its exact score while that is recent; an expired one plays no part |
| `FleetPrefilter.SplitByReadings` | backend/internal/healthscore/fleet.go:450-591 | Which target goes where, by what was read of it and remembered |
| `FleetPrefilter.CandidatesByReadings` | backend/internal/healthscore/fleet.go:548-581 | Of two candidates none is floored, sticky or estimated where the one before it is less urgent; equally urgent ones stand by the lower of estimate and recent exact score |
| `FleetPrefilter.TopStaysCandidate` | backend/internal/healthscore/fleet.go:868-892 | What was at the top of a finished computation is passed over by no prefilter within the sticky time, however many computations end in between |
| `FleetPrefilter.Memory.Remember` | backend/internal/healthscore/fleet.go:868-892 | Scores and top places recorded, entries past their time forgotten |
| `FleetPrefilter.ScoredNoted` | backend/internal/healthscore/fleet.go:868-892 | Of a target scored in a computation its last score and the time are noted, and as its time at the top when one of its rows was among the first |
| `FleetPrefilter.KeptWhileRecent` | backend/internal/healthscore/fleet.go:868-892 | What is noted of a target is forgotten only when both its score and its last time at the top are older than the sticky time |
| `FleetPrefilter.Memory.ByKnownScore` | backend/internal/healthscore/fleet.go:594-625 | A permutation, recently scored first by score |
| `FleetPrefilter.Memory.StalestFirst` | backend/internal/healthscore/fleet.go:628-640 | A permutation, never scored first, then the longest ago |
| `HealthScore.ScoreAntitone` | backend/internal/health/score.go:212-274 | Making any graded metric worse never raises the score, through every breakpoint, cap, rounding, redistribution and ceiling; of the checkpoints it asks what the next row shows to be exact |
| `HealthScore.CheckpointsAndTheScore` | backend/internal/health/score.go:212-274 | More requested and fewer timed checkpoints never raise the score, whatever else gets worse and whatever the weights, if and only if the sample stays gradable or there was nothing to lose |
| `HealthScore.ScoreInRange` | backend/internal/health/score.go:212-328 | The score is in 0..100, the weighted penalty in 0..100 up to the weight tolerance, and at most 30 under a catastrophic condition |
| `HealthScore.FewerTimedCheckpointsRaiseTheScore` | backend/internal/health/score.go:866-900 | An input at which one timed checkpoint fewer raises the score from 93 to 100 |
| `HealthScore.NormalizeSumsToOne` | backend/internal/health/weights.go:68-89 | Valid weights end up non-negative and sum to one |
| `HealthScore.FinalWeightsKeepRatios` | backend/internal/health/weights.go:68-89 | From valid weights to the weights of the result, through normalising and redistribution, the categories that count keep their ratios |
| `HealthScore.RedistributeKeepsSum` | backend/internal/health/score.go:535-575 | Redistribution keeps the sum of the weights, zero when nothing is left to receive |
| `HealthScore.RedistributeKeepsRatios` | backend/internal/health/score.go:535-575 | Redistribution keeps the ratios of the remaining categories, whatever the weights |
| `HealthScore.DroppedWeighNothing` | backend/internal/health/score.go:535-575 | Dropped categories contribute nothing and the others keep their penalties |
| `HealthPenalties.PenaltyAntitone` | backend/internal/health/score.go:368-496 | No category's penalty falls when a graded metric gets worse; only the checkpoint category asks for its sample |
| `HealthPenalties.PenaltyAntitoneExact` | backend/internal/health/score.go:866-900 | With more requested and fewer timed checkpoints and everything else worse, a category's penalty does not fall if and only if it is another category, or the sample stays gradable or there was nothing to lose |
| `HealthPenalties.PenaltyInRange` | backend/internal/health/score.go:577-982 | Every penalty is in 0..100 |
| `HealthPenalties.CheckpointsMonotone` | backend/internal/health/score.go:866-900 | With more requested and fewer timed checkpoints the penalty does not fall if and only if the sample stays gradable or there was nothing to lose |
| `HealthEngine.CalculateWithWeights` | backend/internal/health/score.go:212-274 | The category slice changed in place ends as the graded categories, each with 100 less its penalty as its score, and the result is the score; HealthFormula and HealthPoints spell out both |
| `HealthPoints.ChargeInPoints` | backend/internal/health/score.go:577-982 | What each of the 39 conditions costs, in points at every breakpoint, on the line between breakpoints and in steps where it steps |
| `HealthPoints.PointsAreDetermined` | backend/internal/health/score.go:577-982 | That table leaves no choice: one amount for every condition and every metrics |
| `HealthPoints.TriggeredInNumbers` | backend/internal/health/rules.go:251-885 | When each of the 39 rules reports which severity, in numbers |
| `HealthPoints.AppliesWhen` | backend/internal/health/rules.go:125-205 | Rule by rule: on one database those about the instance are skipped, on a standby those about upkeep |
| `HealthPoints.SeverityMatchesCharge` | backend/internal/health/score.go:577-982 | The severity reported and the points charged lie in the same band: low up to 30 points, medium up to 70 and high above for the connection share, the horizon and the checkpoint share, and likewise for the other graded rules |
| `HealthFormula.PenaltySpelled` | backend/internal/health/score.go:368-496 | The penalty of each category from the charges of its rules, by name, with the cap and the rounding |
| `HealthFormula.CategoriesSpelled` | backend/internal/health/weights.go:68-112 | Each category counts with the weight of its own name, as its share of the weights that count; replication not without replicas, maintenance not in recovery |
| `HealthFormula.ScoreSpelled` | backend/internal/health/score.go:212-274 | One hundred less the weighted penalties, held in 0..100, at most 30 in a catastrophe, to one decimal place |
| `HealthFormula.RoundedIsNear` | backend/internal/health/score.go:262-272 | A rounded number is a whole number of tenths and at most half a tenth off, by half only away from zero |
| `HealthFormula.CatastropheFloors` | backend/internal/health/score.go:277-328 | What counts as a catastrophe, in numbers |
| `HealthFormula.DefaultsStandIn` | backend/internal/health/weights.go:27-66 | Weights that are negative or all zero count as 15, 15, 10, 15, 15, 10, 10 and 10 percent |
| `HealthEngine.ApplyInstanceAdjustments` | backend/internal/health/score.go:368-496 | Adding one bump at a time with a cap after each is adding them all and capping once |
| `HealthEngine.RedistributeWeights` | backend/internal/health/score.go:535-575 | The loops over the slice compute the redistribution |
| `HealthPerDb.PerDbScoreAntitone` | backend/internal/health/per_db.go:48-120 | The per-database score never rises when a metric gets worse, as long as no applicable weight is negative |
| `HealthPerDb.NegativeWeightHelps` | backend/internal/health/per_db.go:150-179 | Weights that are not checked here: with a negative one a colder cache raises the score from 40 to 90 |
| `HealthPerDb.PerDbPenaltyInRange` | backend/internal/health/per_db.go:48-120 | Every per-database penalty is in 0..100 |
| `HealthPerDb.PerDbScoreInRange` | backend/internal/health/per_db.go:48-120 | It is in 0..100, and at most 30 at the failsafe age |
| `HealthPerDb.PerDbWeightsSumToOne` | backend/internal/health/per_db.go:150-179 | Per-database weights sum to one whatever the weights given |
| `HealthPerDb.ComputePerDb` | backend/internal/health/per_db.go:48-120 | One score for each database, in order |
| `HealthPerDbFormula.PerDbPenaltySpelled` | backend/internal/health/per_db.go:54-102 | A database is charged, condition by condition, what an instance with the same readings is, and for nothing else; no maintenance in recovery |
| `HealthPerDbFormula.PerDbWeightsSpelled` | backend/internal/health/per_db.go:150-179 | The weights of performance, storage and maintenance as their shares of those that count, the defaults when none does |
| `HealthPerDbFormula.PerDbCategoriesSpelled` | backend/internal/health/per_db.go:69-102 | Performance, storage and maintenance, each with its own penalty and weight |
| `HealthPerDbFormula.PerDbScoreSpelled` | backend/internal/health/per_db.go:100-120 | One hundred less the three weighted penalties, held in 0..100, at most 30 at the failsafe age of a primary, to one decimal place |
| `HealthPerDb.WorstDatabase` | backend/internal/health/per_db.go:124-146 | The first of the lowest scores, none without databases |
| `HealthRules.FlooredIffHighRule` | backend/internal/health/score.go:277-328 | The score is floored if and only if a rule for a catastrophic condition reports HIGH |
| `HealthRules.Evaluate` | backend/internal/health/rules.go:187-225 | Exactly the triggered rules that apply, high before medium before low and by id within a severity; a floored instance starts with a HIGH one |
| `HealthRules.RulesMonotone` | backend/internal/health/rules.go:251-885 | When the metrics get worse no rule gets milder, the checkpoint rule if and only if it keeps its sample |
| `HealthRules.CheckpointRuleMonotone` | backend/internal/health/rules.go:555-582 | With more requested and fewer timed checkpoints the rule gets no milder if and only if the sample stays large enough or it was not triggered |
| `HealthCharges.ChargedIffReported` | backend/internal/health/rules.go:251-885 | For each of the 39 rules: its condition is charged points if and only if the rule reports it outside an explicit gap, or it is one of three conditions charged early |
| `HealthCharges.PenaltyIsCharges` | backend/internal/health/score.go:368-982 | A category's penalty is made of the charges of its rules and of nothing else |
| `HealthCharges.ChargeShows` | backend/internal/health/score.go:232-235 | A charge shows in its category's penalty, up to the cap and the rounding to one decimal place |
| `HealthCharges.NothingReportedNothingCharged` | backend/internal/health/score.go:232-235 | A category whose rules report nothing outside their gaps, with nothing charged early, has no penalty |
| `HealthCharges.ReportedNotCharged` | backend/internal/health/rules.go:343-356 | An input in a gap: a table average of 10% dead tuples is reported and charged nothing |
| `IndexAdvice.Report` | backend/internal/indexadvice/indexadvice.go:290-388 | One report for each root that any host has, with per-host sums over its children, the largest size, the table and partitioning of its first sample, and the right verdict |
| `IndexAdvice.DropVerdictExact` | backend/internal/indexadvice/indexadvice.go:290-463 | A drop candidate if and only if every host answered, no child was scanned anywhere and every host's window reaches the minimum |
| `IndexAdvice.UsedVerdictExact` | backend/internal/indexadvice/indexadvice.go:393-463 | Used if and only if some host scans the root often enough, all its partitions together |
| `IndexAdvice.UnknownVerdictExact` | backend/internal/indexadvice/indexadvice.go:393-396 | Unknown if and only if some host did not answer |
| `IndexAdvice.DropVerdictOverSamples` | backend/internal/indexadvice/indexadvice.go:290-463 | With windows constant per host the drop condition is one on every sample |
| `IndexAdvice.VerdictExact` | backend/internal/indexadvice/indexadvice.go:290-463 | The verdict by hosts is the verdict read off the samples |
| `IndexAdvice.VerdictInNumbers` | backend/internal/indexadvice/indexadvice.go:56-68 | The verdict by the limits as given, 7 days and 0.1 scans a day where none are: used when some host has more scans than its window, an hour at least, allows at that rate, too little when some window is short, and so on in order |
| `IndexAdvice.RowOfHost` | backend/internal/indexadvice/indexadvice.go:348-370 | The row of every host: the scans of all its samples, the window and role of the first, and the rate over that window |
| `IndexAdvice.UsedOnAre` | backend/internal/indexadvice/indexadvice.go:426-434 | The hosts named as using the index are exactly those above the rate |
| `IndexAdvice.SumsAddUp` | backend/internal/indexadvice/indexadvice.go:340-343 | Scans and sizes of a host are summed over its own samples of the root, each once, and over no other |
| `IndexAdvice.OrderFreeExact` | backend/internal/indexadvice/indexadvice.go:325-340 | The verdict is the same for every order of the samples if and only if no host's windows straddle a threshold that counts |
| `IndexAdvice.ConstantWindowsAreOrderFree` | backend/internal/indexadvice/indexadvice.go:325-340 | With windows that belong to the host the order never matters |
| `IndexAdvice.StraddlingWindows` | backend/internal/indexadvice/indexadvice.go:325-340 | Two samples of one host whose order decides between a drop candidate and insufficient data |
| `IndexAdvice.Decide` | backend/internal/indexadvice/indexadvice.go:393-463 | The reason carries the numbers and notes that belong to the verdict |
| `TokenCache.PatResolver.ResolveToken` | backend/internal/deps/container.go:270-320 | One call at a time: a token is accepted only on an answer of the store that was cached no longer ago than the time to live, or given now, and not past the token's own expiry; a live entry decides without the store; a failed query caches nothing |
| `TokenCache.PatResolver.EvictIfFull` | backend/internal/deps/container.go:401-425 | Makes room, and evicts a live positive entry only when there is no expired or negative one |
| `TokenCache.PatResolver.StorePositive` | backend/internal/deps/container.go:358-383 | The entry lives no longer than the time to live and the token itself |
| `TokenCache.PatResolver.FromCache` | backend/internal/deps/container.go:322-354 | Only a live entry answers |

## Findings

Properties that the code has only under a condition. Each condition is exact unless said otherwise.

- **A smaller checkpoint sample can raise the score.** The checkpoint penalty is graded from ten checkpoints on, so
  with 2 requested checkpoints and 8 timed ones the score is 93 and with 7 timed ones it is 100
  (`HealthScore.FewerTimedCheckpointsRaiseTheScore`). `HealthScore.CheckpointsAndTheScore` gives the exact condition
  for the score, `HealthPenalties.PenaltyAntitoneExact` for the penalties and `HealthRules.CheckpointRuleMonotone`
  for the rule.
- **The score does not move on everything the rules report,** which `score.go:232-235` says of it.
  `HealthCharges.InGap` lists where: an average dead ratio of 5 to 15%, exactly five bloated tables, a replication lag of 10
  to 100 MB, a transaction age of 150 to 200 million, the idle and long transaction rules without a connection limit,
  the disconnected rule without replicas, cold tables, checksum failures and sequence exhaustion (which act through
  the ceiling or not at all), and single boundary values where a rule has "at least" and the penalty "more than".
  `HealthCharges.Early` lists the three conditions charged before they are reported.
  `HealthCharges.ChargedIffReported` proves that there are no others.
- **The index verdict can depend on the order of the samples** when one host reports different windows for the
  children of a root, because the first one counts. `IndexAdvice.OrderFree` is the exact condition. The comment at
  `indexadvice.go:326-327` says every index in a database shares one reset time, the case that
  `IndexAdvice.ConstantWindowsAreOrderFree` covers.
- **`ObservedSince` can be later than `QuietSince`** when the previous window of a host was no longer returned while
  its anchors were: `HotHistory.WindowNotReturned` is an input, `HotHistory.ObservedCoversQuiet` the exact condition.
- **Deltas stop adding up when a counter disappears** from a host's sample: when it comes back, all it holds is
  counted again. `HotHistory.VanishedAndBack` is an input; `HotHistory.NothingLostOrCountedTwice` and
  `HotRecord.AggregatesLoseNothing` show that it happens only then.
- **A node that starts deeper than the sibling printed before it is read as a descendant of that sibling.** Plain
  children that share one indent are never affected; after a child under a SubPlan or InitPlan header it depends on
  the two indents. `PlanSeparation.DeeperSiblingMoves` is an input, `PlanSeparation.RoundTripExact` the
  exact condition for any plan.
- **Per-database weights are not validated.** With a negative weight a worse metric can raise the score
  (`HealthPerDb.NegativeWeightHelps`); `HealthPerDb.PerDbScoreAntitone` holds without one. This condition is not exact:
  rounding hides a weight that is negative by very little.

## Left out

- Recognition of plan lines: the regular expressions that classify a line and read its label, rows, cost and width
  are not modelled; a line comes classified, and `PlanRules.Reader` stands for reading numbers out of attribute texts.
- Plan parts beside the tree: the text before the first node, query text, triggers, JIT blocks and the values of the trailer are carried, not
  interpreted; the JSON form and the capability flags derived from a plan are not modelled.
- Rule parameters: the numbers a finding quotes, and the prose around them.
- The digest of the fingerprint: an injective function stands for SHA-256; the digest of a flight's key likewise.
- Floating point: rounding error, NaN and infinities; weights are finite.
- Details of a category (the tooltip map), and attribution of a recommendation to a database.
- Order among equal keys inside the stored top list; keys of objects are tuples and not concatenated names, and a
  partition is named by one string.
- Hot capture assumptions: object keys are unique within a host's sample, capture times increase, and a commit replaces
  a host's anchors and windows together. Retention of old snapshots is not modelled.
- Spike monitor: lock peaks, the queue of deferred snapshots, role changes and the debounce times restored at start.
- Fleet: reading targets and cluster inputs, the priority of waiting computations over the sweep, and the wording
  of errors. A worker's scoring is its outcome; panics are failed outcomes.
- Index advice: the text of a reason.
- Token cache: hashing of tokens, the rate limiter and the call that records a use appear as parameters and results;
  calls that overlap are not modelled, and age counts from the moment an answer is cached.
- Storage, HTTP, discovery, logs, configuration and the frontend: input and output around what is modelled.
- HealthPerDb.PerDbScoreAntitone: does not cover negative applicable weights, which the code does not reject, for the
  reason given under Findings.
