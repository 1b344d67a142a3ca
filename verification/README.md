# A deterministic concurrent log generator, verified

This project models `logsgenreceiver`, an OpenTelemetry receiver that generates synthetic logs, and
proves properties of the model with Dafny 4.11. `dafny verify dfyconfig.toml` checks everything.

Each simulated interval is a *round*. A main thread resolves the volume of every scenario, runs
sequential scenarios itself and forks workers for concurrent ones; every thread draws from its own
pseudo-random generator, writes to its own statistics shard and hands one batch of records to the
consumer. At shutdown the shards are merged into one report. The documentation promises that the same
seed and the same configuration give identical output.

## How the model is built

* `Rand`: a generator is a seed and the history of the requests made of it; what it answers is an
  arbitrary function of the two. Every deterministic generator has this form, so a theorem for all
  sources holds of `math/rand`. Equal histories mean equally many draws of the same kinds.
* `Bags`, `Intervals`, `Records`, `Values`: sums of multisets, sets of consecutive numbers, emitted records,
  and dynamically typed values.
  Attributes of a record are a map: the Go program copies them in map iteration order, which it does not
  control.
* `Rounds`: one round as a state machine. A `Choice` names the thread that moves next; a schedule is a
  sequence of choices. Emitting a record is one step (it touches only the thread's own generator, batch
  and shard, and one atomic counter); the shared total is loaded and stored in two steps by the main
  thread and added to atomically by workers. What a scenario does with a draw is left open
  (`plan`, `perInstance`, `emit`), so the theorems hold for all scenarios; `Emission` supplies the
  receiver's own.
* `Determinism`, `Shards`, `RoundTheorems`: the reference run of a round, which runs each worker from its
  spawn to its end in one go, the ownership of shards, and confluence: all schedules end where the
  reference does, up to the order of the batches.  `BatchOrder` and `OutputOrder` say when that order is
  fixed too, by the batches and by the configuration; `Turns` reads the reference scenario by scenario, and
  `Replay` says in closed form what it comes to: where the base generator stands before each scenario, the seed
  of every worker, and what each shard gets.
* `Conservation`, `Progress`, `RoundTotal`: what is true at every moment of a round, termination, and the
  reported total.
* `Lifecycle`, `RunProgress`, `RunTotal`, `Timestamps`, `Receiver`: whole runs with `Start`, cancellation and
  `Shutdown` interleaved with the rounds, their termination, and what the final report says of the records
  that were sent.
* `Config`, `Startup`: validation, the preparation of the scenarios, and what the other theorems say of every
  configuration that is accepted. `AddressPool`: the pool of addresses that a profile draws from.
* `Stats`, `Decimal`: the statistics shards as classes over mutable maps, their merge, and number
  formatting.
* `Generator`, `Sprintf`, `LongTail`, `Weights`: the prepared record generator against the plain one, and
  the fast paths they use. `Contents` says what the records contain, draw by draw.
* `Volume`, `Diurnal`, `Skew`, `Partition`, `WorkShare`: volume shaping and the division of work.
* `Json`, `Payloads`, `ErrorPayloads`: JSON texts (RFC 8259, sections 4 to 7) and the two builders that
  place commas by the length of the text so far.
* `Emission`: one record with jitter, needles and trace context, and the loops around it. `EmittedRecords` says
  what the record is made of.
* `VolumeHistory`: the volume of an interval, and bursts and quiet periods over whole runs.

`float64` is modelled by `real`; integers are unbounded. The cosine and the exponential are arbitrary
functions with the few facts the proofs use (`Diurnal.Wave.Valid`, `Skew.Positive`). `fmt.Sprint`,
`strconv.Quote`, the text of an attribute value in the statistics and the recognition of address blocks are
arbitrary functions.  What templates and the tables of profiles provide for a scenario (`Startup.Given`), the
built-in lists of scenarios and the start and end of the simulated time are parameters.

## What the proofs found

* The documentation promises identical output for the same seed and configuration.  Records, statistics and
  generator are identical on all schedules, but batches sent once a worker has been spawned may come in
  another order: `Startup.OutputCanDiffer` is an accepted configuration of one scenario with two workers on
  which they do.  `Startup.AcceptedOutputIdenticalIff` is the exact condition, for every accepted configuration
  whose instances have resources of their own: the output is identical if and only if at most one batch of an
  interval competes with a worker's, or no scenario that emits from the first concurrent one on has instances,
  or there is no interval to simulate.
* The total that a round reports can be too small, and so can the number of records that a run reports.  The
  main thread adds the batch of a sequential scenario with a plain `+=` while workers add theirs atomically.
  `RoundTotal.TotalExactIffSequentialFirst` and `RunTotal.CountExactIff` give the exact condition: they are
  right on every schedule if and only if no emitting sequential scenario comes after a concurrent one whose
  workers have instances (or, for a run, there is no interval to simulate).
* The plain and the prepared generator fall back differently when the picked severity has no message:
  to the first INFO message, and to all of them. `Generator.CandidatesAgreeIff` says exactly when they
  choose among the same messages; `Generator.BodiesAgreeIff` says exactly when they give the same bodies, for
  profiles whose INFO messages have fixed texts; `Generator.FallbacksDiffer` is a profile on which they differ.
* Validation accepts a block of a single address, from which no host can be drawn: building the pool then
  panics. `AddressPool.PoolBuildsIff` is the exact condition; `AddressPool.SingleAddressPanics` is the input.
* Validation trims the severity of a needle and generation does not, so `" info"` is accepted and
  comes out as ERROR. `Config.NeedleSeverityAsAccepted` is the exact condition.
* A concurrent scenario with `logs_per_interval: 0` takes a tracked statistics shard but does not move the
  base from which later scenarios count, so the tracked shards are no longer those of the first workers.
  `Shards.TrackedShardsAreFirstWorkers`: they are exactly when every concurrent scenario emits.
* `Shutdown` before `Start` waits on a channel closed in advance and may merge in the middle of a round
  (`Lifecycle.EarlyShutdownMergesTooSoon`).  `Lifecycle.ShutdownSafeIff` is the exact condition: a call cannot
  lead to that if and only if the run has started or there is no interval to simulate.
* A comment in the configuration says that all-zero severity weights mean the default; validation rejects
  them (`Weights.AllZerosRejected`). The model follows the code.

## Model

| member | source | states |
|---|---|---|
| Determinism.StepKeepsOutcome | logsgenreceiver/receiver.go:347-422 | whatever thread moves, what the round will have left in every shard, the needle counters, the generator, the volume states and the sink does not change |
| Determinism.RestStep | logsgenreceiver/receiver.go:352-419 | each step of the main thread is exactly the next effect of the reference run |
| Determinism.WorkerKeeps | logsgenreceiver/receiver.go:394-416 | a worker's step moves one contribution from its future to the store and touches no other thread's |
| RoundTheorems.RoundIsDeterministic | logsgenreceiver/receiver.go:347-422 | every schedule that completes a round leaves what running each worker to its end at its spawn leaves, up to the order of the batches; `Replay.RoundIsReplayed` says what that is without the steps of the main thread |
| RoundTheorems.SchedulesAgree | logsgenreceiver/receiver.go:347-422 | any two schedules of a round leave the same records in the same shards, the same counters, generator and volume states, and the same batches, in the same order up to the first spawn and in some order after it |
| Replay.RoundIsReplayed | logsgenreceiver/receiver.go:352-421 | on every schedule a round leaves the base generator and volume states of the last position, and in each shard the records of the worker that owns it, whose generator is new and has the seed that the base generator answered to its own request after the plan of its scenario; the base generator goes on behind as many requests as there are workers |
| Replay.ReferenceIsReplay | logsgenreceiver/receiver.go:388-389 | the workers of the reference and their generators, in closed form |
| Replay.SeedsTellApart | logsgenreceiver/receiver.go:515-517 | two workers of a scenario have the same generator if and only if their requests for a seed were answered alike |
| OutputOrder.AlikeIffOrderly | logsgenreceiver/receiver.go:352-419 | where no two instances can emit the same record, the batches sent once a worker has been spawned are all alike if and only if there is at most one or none of their scenarios has instances |
| OutputOrder.OrderFixedIffOrderly | logsgenreceiver/receiver.go:347-422 | and that is exactly when the batches of a round come in the same order on all schedules |
| BatchOrder.LateCount | logsgenreceiver/receiver.go:352-419 | how many batches that is follows from the list of scenarios alone |
| Shards.SizeShards | logsgenreceiver/receiver.go:238-250 | the number of shards and the tracked ones that the receiver sets up |
| Shards.WorkersOwnTheirShards | logsgenreceiver/receiver.go:388-391 | all workers of a round own pairwise distinct shards, none of them the main thread's |
| Shards.SpawnedShard | logsgenreceiver/internal/logstats/logstats.go:246-248 | the modulus in the shard lookup never wraps |
| Shards.ReceiverHasRoom | logsgenreceiver/receiver.go:246-250 | the shards that the receiver makes are enough for every round, idle scenarios or not |
| Shards.AllTrackedIff | logsgenreceiver/receiver.go:238-250 | every shard is tracked if and only if no scenario has more than one worker |
| Shards.TrackedShardsAreFirstWorkers | logsgenreceiver/receiver.go:238-245 | the tracked shards are shard 0 and each emitting scenario's first worker if and only if every concurrent scenario emits |
| Conservation.ScheduleKeepsBalance | logsgenreceiver/receiver.go:424-513 | at every moment of every schedule the records in the shards are those sent plus those still in a batch, and the needle counters count the replaced ones |
| Conservation.RoundConserves | logsgenreceiver/receiver.go:410-422 | after a round the records in the shards are exactly the records sent |
| Progress.RoundTakesItsSteps | logsgenreceiver/receiver.go:352-421 | every schedule terminates: a round takes the same number of steps on all of them, and has returned exactly when it has taken them |
| Progress.SomeThreadMoves | logsgenreceiver/receiver.go:420 | no deadlock: until the round returns some thread can move |
| RoundTotal.TotalExactIffSequentialFirst | logsgenreceiver/receiver.go:379-421 | the returned total is the number of records sent on every schedule if and only if no sequential scenario follows a concurrent one |
| RoundTotal.LoseAnAddition | logsgenreceiver/receiver.go:379-413 | otherwise some schedule loses a worker's addition |
| RoundTotal.LossPersists | logsgenreceiver/receiver.go:379-413 | the shortfall of the total never shrinks |
| Lifecycle.RunStep | logsgenreceiver/receiver.go:268-312 | every step of a run, of its rounds or of the shutdown keeps the run's invariant |
| RunProgress.MoveCounts | logsgenreceiver/receiver.go:281-300 | every step of the loop or of a thread brings the end of the run nearer, by exactly one unless it was cancelled |
| RunProgress.RunTakesItsSteps | logsgenreceiver/receiver.go:281-300 | termination: no schedule makes more moves than were left, and when it has made them the run is over; uncancelled, it is over exactly then |
| RunProgress.SomethingMoves | logsgenreceiver/receiver.go:281-300 | no deadlock: a run that has started and is not over can move |
| RunProgress.UncancelledRunIsComplete | logsgenreceiver/receiver.go:280-300 | without cancellation a run makes the same number of moves on every schedule, is over exactly when it has made them, has then made one round per interval begun between start and end, and can always get there |
| RunProgress.ShutdownCompletes | logsgenreceiver/receiver.go:536-551 | the shutdown of a started run can always be completed, and merges when the run is over |
| Lifecycle.CancellationStopsRounds | logsgenreceiver/receiver.go:281-284 | after cancellation no round begins; at most the one in progress is finished |
| Lifecycle.RunsAgree | logsgenreceiver/receiver.go:280-300 | two runs with the same seed and configuration agree on every round both complete, whatever their schedules and cancellations, but for the order of the batches within each round |
| OutputOrder.RunIdenticalIffOrderly | logsgenreceiver/receiver.go:280-300 | all runs leave what a given uncancelled run leaves, batches in order included, if and only if it completed no round or the list of scenarios is so |
| OutputOrder.OutputIdenticalIff | docs/log-tuning-guide.md:377-379 | any two runs have identical output, batches in order included, if and only if the list of scenarios is so or there is no interval to simulate |
| Receiver.ReceiverOutputIdenticalIff | docs/log-tuning-guide.md:377-379 | that holds of the receiver's own scenarios, for every generator and store, where no two instances share a resource |
| Startup.AcceptedOutputIdenticalIff | README.md:76 | and so of every accepted configuration, with the condition read off the configuration |
| Startup.OutputCanDiffer | logsgenreceiver/receiver.go:388-416 | an accepted configuration with two workers does not have identical output |
| BatchOrder.RunsIdentical | logsgenreceiver/receiver.go:280-300 | that is so whatever the scenarios emit where at most one batch of a round is sent once a worker has been spawned |
| Lifecycle.ShutdownMergesEverything | logsgenreceiver/receiver.go:536-551 | a shutdown after start merges only when the run is over, and what it merges is exactly what was sent |
| Lifecycle.ShutdownSafeIff | logsgenreceiver/receiver.go:536-546 | a shutdown called now can never merge in the middle of a round if and only if the run has started or there is no interval to simulate |
| Lifecycle.EarlyShutdownMergesTooSoon | logsgenreceiver/receiver.go:252-253 | otherwise some schedule does |
| RunTotal.CountExactIff | logsgenreceiver/receiver.go:294 | the number of records that a run adds up is that of the records sent on every schedule if and only if no sequential scenario follows a concurrent one or there is no interval to simulate |
| RunTotal.StepCounted | logsgenreceiver/receiver.go:294 | it never exceeds the records sent in completed rounds |
| Timestamps.RoundsDoNotOverlap | logsgenreceiver/receiver.go:317-326 | on every schedule the records of round k are stamped in [start + k*interval, start + (k+1)*interval) |
| Receiver.ReportCountsWhatWasSent | logsgenreceiver/receiver.go:536-556 | the merged report equals the counters of one shard that recorded all sent records, severities add up to the total, needle counters to the replaced records, the number reported is at most that of the records sent, and the index holds what the tracked shards saw unless one was overrun |
| Receiver.ReportCanBeHad | logsgenreceiver/receiver.go:536-551 | every started run can be shut down and then reports so |
| Receiver.ReceiverTotalExactIff | logsgenreceiver/receiver.go:294-422 | the receiver's own scenarios meet the hypotheses of the theorems on totals |
| Emission.AddJitter | logsgenreceiver/receiver.go:317-326 | a jittered time stays inside its interval |
| EmittedRecords.JitterIsWholePart | logsgenreceiver/receiver.go:317-326 | the jitter is the whole part of the absolute deviation of one normal draw, cut off at the last nanosecond of the interval; without a deviation nothing is drawn |
| EmittedRecords.HourOfTheDay | logsgenreceiver/receiver.go:71 | the hour of a time is that of its day in local time, before 1970 too |
| EmittedRecords.SeverityNames | logsgenreceiver/internal/loggen/loggen.go:27-46 | each severity is parsed from its text in any case |
| EmittedRecords.OtherNames | logsgenreceiver/internal/loggen/loggen.go:27-46 | every other text stands for an error |
| EmittedRecords.SeverityTextNames | logsgenreceiver/receiver.go:328-345 | the text of a severity names it, or INFO if it is none of the six |
| EmittedRecords.RecordInParts | logsgenreceiver/receiver.go:431-511 | a record is a generated one at a jittered time for its instance's resource, without nil attributes, replaced by the first needle whose roll passes, and traced by two draws of bytes; each part draws where the one before left the generator |
| EmittedRecords.FirstPassingNeedleReplaces | logsgenreceiver/receiver.go:481-498 | one draw per needle, always; the first whose roll passes gives the record its message, severity, name and attributes, its attributes over its name over those of the record, and nothing else changes |
| EmittedRecords.CertainNeedles | logsgenreceiver/receiver.go:483-484 | a needle of rate one always passes and one of rate zero never does |
| Emission.ScenarioMeetsHypotheses | logsgenreceiver/receiver.go:358-363 | an active scenario emits at least one record from every instance, each stamped within its interval; how many it is due is `VolumeHistory.PlanCountsVolume` |
| Emission.EmitRecord | logsgenreceiver/receiver.go:431-511 | the body of the record loop computes the record and generator state of the specification and bumps the needle counter it should |
| Emission.ApplyNeedles | logsgenreceiver/receiver.go:481-498 | the needle loop computes the specification |
| Emission.AppendInstanceLogs | logsgenreceiver/receiver.go:424-513 | batch, shard and counters are extended by exactly the instance's records |
| Emission.RunWorker | logsgenreceiver/receiver.go:394-416 | a worker's loops run exactly its jobs |
| Emission.RunSequential | logsgenreceiver/receiver.go:372-378 | the sequential loop runs exactly its jobs |
| Emission.ScenarioSimulates | logsgenreceiver/receiver.go:352-378 | the scenario of a setup is one whose jobs these loops run |
| WorkShare.ConcurrencyKeepsTheWork | logsgenreceiver/receiver.go:401-410 | the workers together run exactly the jobs of the sequential path |
| WorkShare.InstanceShare | logsgenreceiver/receiver.go:372-377 | each instance is simulated exactly as often as it is due |
| Partition.InstanceInRange | logsgenreceiver/receiver.go:401-405 | every index is below the scale, for any scale and concurrency: the guard never fires |
| Partition.InstancesDisjoint | logsgenreceiver/receiver.go:401-402 | no instance is simulated by two workers or twice by one |
| Partition.VisitedCount | logsgenreceiver/receiver.go:401-402 | exactly concurrency * (scale / concurrency) instances are simulated |
| Partition.AllVisitedIffDivides | logsgenreceiver/config.go:170-172 | every instance is simulated if and only if the concurrency divides the scale |
| Volume.VolumeState.Resolve | logsgenreceiver/receiver.go:95-116 | one interval of the burst state machine; the counter stays non-negative |
| Volume.RunsAreEpisodes | logsgenreceiver/receiver.go:95-116 | every run splits into normal intervals and legal bursts and quiet periods, only the last cut off, with exactly the draws that begin them |
| Volume.CoursesAreEpisodes | logsgenreceiver/receiver.go:95-116 | that holds too where others draw from the generator between two intervals, as in a receiver; the rolls made in its first interval give an episode its kind, multiplier and length |
| Volume.MidEpisode | logsgenreceiver/receiver.go:99-102 | within an episode the multiplier is constant, the counter falls by one and nothing is drawn |
| VolumeHistory.PlanCountsVolume | logsgenreceiver/receiver.go:358-363 | the base count of an interval is the whole part of records times curve times burst multiplier, but at least one |
| VolumeHistory.ResolveVolume | logsgenreceiver/receiver.go:358-363 | the statements that resolve the volume, on the burst state in place, compute the plan of the scenario |
| VolumeHistory.RunFollowsVolume | logsgenreceiver/receiver.go:281-363 | in every run, on every schedule, the volume states that the rounds leave are the successive phases of the burst state machine, each from the base generator where the round comes to the scenario; they make up episodes that span rounds, and their multipliers are those of the rounds' counts |
| VolumeHistory.OwnTurnMovesVolume | logsgenreceiver/receiver.go:352-359 | in a round only the turn of a scenario moves its volume state |
| Skew.BuildInstanceMultipliers | logsgenreceiver/receiver.go:129-144 | one normal draw per instance; the array holds the exponentials divided by their mean |
| Skew.NormalisedMean | logsgenreceiver/config.go:50 | normalised multipliers are positive and have mean one |
| Skew.NormalisedInProportion | logsgenreceiver/receiver.go:139-142 | and in proportion to the log-normal values |
| Skew.RawMultiplierIs | logsgenreceiver/receiver.go:135-136 | each of which is the exponential of sigma times its own normal draw |
| Skew.SkewPreservesVolume | docs/log-tuning-guide.md:158-160 | rounding moves the total volume by at most half a record down and one up per instance |
| Skew.EveryInstanceEmits | logsgenreceiver/receiver.go:118-127 | a scenario that emits at all emits from every instance |
| Diurnal.DiurnalProfileCfg.ApplyDefaults | logsgenreceiver/config.go:252-266 | makes ready exactly the profiles that validation accepts, leaves both multipliers positive, changes nothing when applied again, and keeps the curve of a ready profile |
| Diurnal.DefaultsKeepTheCurve | logsgenreceiver/receiver.go:61-68 | the defaults for the multipliers inside the curve are those filled in before, so the result is the same at every time |
| Diurnal.DocumentedDefaults | docs/log-tuning-guide.md:47-50 | without hours and multipliers the curve has 3.0 at 14 and 0.2 at 4 |
| Diurnal.Validate | logsgenreceiver/config.go:268-302 | accepts exactly the profiles that defaulting makes ready, and otherwise names a check that fails |
| Diurnal.AngleShape | logsgenreceiver/receiver.go:72-79 | the angle lies in [0, 2 pi), is 0 exactly at the peak and pi exactly at the trough, and grows strictly with the hours since the peak |
| Diurnal.AngleSteps | logsgenreceiver/receiver.go:74-79 | the angle grows by equal steps from peak to trough, and by equal steps from trough to peak |
| Diurnal.BaseAtExtremes | docs/log-tuning-guide.md:69-70 | the peak hour has the peak multiplier and the trough hour the trough multiplier |
| Diurnal.HeightInProportion | docs/log-tuning-guide.md:72 | between them the multiplier follows the cosine in proportion, and is their mean where the cosine is zero |
| Diurnal.BaseUnimodal | logsgenreceiver/receiver.go:80 | the curve falls from peak to trough and rises back, between the two multipliers |
| Diurnal.WindowIsEuclidean | logsgenreceiver/receiver.go:84-87 | the burst window is the Euclidean modulus, before 1970 too |
| Diurnal.BurstWindow | logsgenreceiver/receiver.go:83-88 | a burst is active in exactly the first nanoseconds of every period, as many as its duration |
| Diurnal.BurstsOnlyRaise | docs/log-tuning-guide.md:85-87 | the result is the maximum of the base and all active bursts |
| Diurnal.DiurnalMultiplier | logsgenreceiver/receiver.go:57-93 | the loop computes that maximum |
| Generator.CandidatesAgreeIff | logsgenreceiver/internal/loggen/loggen.go:114-127 | the generators choose among the same messages if and only if the severity has a message or there is at most one INFO message |
| Generator.PreparedRefinesPlain | logsgenreceiver/internal/loggen/loggen.go:252-312 | then body, severity, attributes and generator state are the plain generator's, with the long tail laid over |
| Contents.RecordSeverity | logsgenreceiver/internal/loggen/loggen.go:111-168 | both generators give the severity that was rolled for if the profile has a message of it, otherwise INFO if it has one of that, otherwise that of its first message; so it is that of a message, unless there is none |
| Contents.ShareGivesSeverity | logsgenreceiver/internal/loggen/loggen.go:170-186 | with validated weights a roll between two weights gives a record of the severity between them, if it has a message |
| Contents.RecordShare | logsgenreceiver/internal/loggen/loggen.go:61-63 | with a message of every severity exactly w[i] - w[i-1] of the hundred rolls give a record of severity i |
| Contents.RecordsAreMade | logsgenreceiver/internal/loggen/loggen.go:252-312 | arguments are drawn in order; attributes are those taken from arguments (a routed URL as its template), then those drawn, each unless its key is there, nil left out, then the rare ones whose roll passes, over all others, and then the long tail; each draw is made where the one before left the generator |
| Contents.FilterKeeps | logsgenreceiver/internal/loggen/loggen.go:188-196 | filtering keeps the messages of the severity, each as often as it is there |
| Contents.FilterAppend | logsgenreceiver/internal/loggen/loggen.go:188-196 | and in order: filtering distributes over concatenation |
| Generator.SomeSourceDiffers | logsgenreceiver/internal/loggen/loggen.go:259-265 | for every profile: if a roll picks a severity without a message and an INFO message of fixed text differs from the first, of fixed text too, then on some source the bodies differ |
| Generator.BodiesAgreeIff | logsgenreceiver/internal/loggen/loggen.go:114-127 | where INFO messages have fixed texts, the bodies are the same on every source if and only if every severity that can be picked has a message or all INFO messages say the same |
| Generator.FallbacksDiffer | logsgenreceiver/internal/loggen/loggen.go:259-265 | a profile and a roll on which they differ |
| Generator.GenerateFromPreparedInto | logsgenreceiver/internal/loggen/loggen.go:252-312 | the stale contents of the reused map, argument slice and byte buffer never affect the result |
| Generator.GenerateLogRecord | logsgenreceiver/internal/loggen/loggen.go:111-168 | the plain generator computes its specification |
| Generator.PreparedProfile.constructor | logsgenreceiver/internal/loggen/loggen.go:206-216 | the buckets are what filtering would find |
| Generator.PreparedProfile.MaxArgs | logsgenreceiver/internal/loggen/loggen.go:233-241 | the greatest number of arguments of a message |
| Generator.FilterMessagesBySeverity | logsgenreceiver/internal/loggen/loggen.go:188-196 | the loop keeps exactly the messages of the severity, in order |
| Sprintf.SprintfSimple | logsgenreceiver/internal/loggen/loggen.go:320-352 | equals parse-then-render for any arguments; the loop runs past their end exactly when there are fewer than verbs; the incoming buffer does not matter |
| Sprintf.VerbPrints | logsgenreceiver/internal/loggen/loggen.go:329-344 | wherever a verb stands in a format: %d prints integers that read back in base ten and %x in base sixteen, %s and %v strings and the bodies of routes as they are, %q quotes them |
| Values.NumeralsReadBack | logsgenreceiver/internal/loggen/loggen.go:367-391 | numerals in both bases read back as the integer, negative ones included, without leading zeros |
| Sprintf.FailsIffShort | logsgenreceiver/internal/loggen/loggen.go:329-344 | rendering has no result exactly when there are fewer arguments than verbs |
| Sprintf.ConsumesItsArity | logsgenreceiver/internal/loggen/loggen.go:320-352 | exactly as many arguments as there are verbs are consumed |
| Sprintf.ParseAppend | logsgenreceiver/internal/loggen/loggen.go:323-350 | parsing distributes over concatenation except where a dangling percent sign is completed, exactly |
| Sprintf.FormatAppend | logsgenreceiver/internal/loggen/loggen.go:320-352 | formats without a dangling percent sign compose |
| Sprintf.DoublingEscapes | logsgenreceiver/internal/loggen/loggen.go:345-346 | any text with its percent signs doubled formats to itself |
| LongTail.BuildSchedule | logsgenreceiver/internal/loggen/longtail.go:183-198 | every slot holds the entries of its own rolls, and the generator position does not depend on outcomes |
| LongTail.SlotClosedForm | logsgenreceiver/internal/loggen/longtail.go:186-194 | a field is in a slot, with its pool index, exactly when its own roll says so; entries are ordered and in bounds |
| LongTail.LookupIsSimulation | logsgenreceiver/internal/loggen/longtail.go:82-84 | a lookup equals rolling for every field |
| LongTail.EmitLongTail | logsgenreceiver/internal/loggen/longtail.go:85-93 | one draw per record selects the slot whose entries are stored |
| LongTail.BuildLongTail | logsgenreceiver/internal/loggen/longtail.go:175-176 | a set gets the schedule that is drawn where its fields left the generator |
| LongTail.EmissionIsSimulation | logsgenreceiver/internal/loggen/longtail.go:82-93 | for such a set the low sixteen bits s of the draw give the attributes that rolling for each field would give, with rolls number s * fields and following; a field is put if draw 2k is below its threshold out of ten thousand, with the value that draw 2k + 1 points to, and of two with one key the later stays |
| LongTail.EverySlotIsReached | logsgenreceiver/internal/loggen/longtail.go:86-88 | every slot is selected by some draw |
| LongTail.BuiltScheduleValid | logsgenreceiver/internal/loggen/longtail.go:88-92 | a built schedule never leads out of bounds |
| Weights.Pick | logsgenreceiver/internal/loggen/loggen.go:539-546 | the subtraction loop picks the one choice that the cumulative weights select, and always picks below the total |
| Weights.WeightIsExact | logsgenreceiver/internal/loggen/loggen.go:527-534 | of the rolls below the total exactly weight many fall to a choice |
| Weights.RandomHTTPStatus | logsgenreceiver/internal/loggen/loggen.go:527-547 | the fallback is never taken |
| Weights.WeightedPool | logsgenreceiver/internal/loggen/proxy.go:73-92 | every slot of a pool holds the choice of its own roll |
| Weights.PickSeverityFromWeights | logsgenreceiver/internal/loggen/loggen.go:170-186 | the loop computes the severity of the specification |
| Weights.ValidateSeverityWeights | logsgenreceiver/config.go:216-234 | accepts exactly non-decreasing weights from 0 to a last one of 100, and otherwise names the first that fails |
| Weights.SeverityFallsTo | logsgenreceiver/internal/loggen/loggen.go:180-185 | for validated weights the fallback is unreachable and severity i takes the rolls between two weights |
| Weights.SeverityShare | logsgenreceiver/internal/loggen/loggen.go:61-63 | exactly w[i] - w[i-1] of the hundred rolls give severity i |
| Stats.LogStats.Record | logsgenreceiver/internal/logstats/logstats.go:43-73 | a shard's counters and index are those of the stream it recorded |
| Stats.TallyCounts | logsgenreceiver/internal/logstats/logstats.go:43-60 | each counter is the number of records of that severity, service, node or namespace |
| Stats.ValuesMean | logsgenreceiver/internal/logstats/logstats.go:66-74 | the values of a field are those that a resource or a record has for it |
| Stats.LogStats.AddCardinality | logsgenreceiver/internal/logstats/logstats.go:77-92 | the index of a field is the first 500 distinct values in arrival order |
| Stats.IndexFull | logsgenreceiver/internal/logstats/logstats.go:78-85 | a full set stays as it is, whether or not the field is marked capped |
| Stats.IndexGrows | logsgenreceiver/internal/logstats/logstats.go:86-91 | any other set gains the value; a capped field is full, so the mark is only a shortcut |
| Stats.IndexExactIff | logsgenreceiver/internal/logstats/logstats.go:75 | the index loses nothing if and only if there are at most 500 distinct values |
| Stats.ShardedLogStats.constructor | logsgenreceiver/internal/logstats/logstats.go:226-244 | at least one shard; exactly the listed ones track cardinality |
| Stats.ShardedLogStats.Merge | logsgenreceiver/internal/logstats/logstats.go:250-278 | the merge counts what one shard fed all streams would count, and its index is the union over the tracking shards |
| Stats.MergedIndexExact | logsgenreceiver/internal/logstats/logstats.go:266-275 | the merged index is exact for what the tracking shards saw, if none was overrun |
| Stats.IndexOfTheStream | logsgenreceiver/internal/logstats/logstats.go:266-275 | however a stream is dealt out to shards, the merged index holds only its values, all that the tracking shards saw if none was overrun, and all there are if every shard tracks |
| Stats.MergeCountsTheStream | logsgenreceiver/internal/logstats/logstats.go:250-265 | however a stream is dealt out to shards, the merge has the counters of the stream |
| Stats.SeveritiesAddUp | logsgenreceiver/internal/logstats/logstats.go:44-46 | the severity counters add up to the number of records |
| Decimal.FormatNumber | logsgenreceiver/internal/logstats/logstats.go:199-212 | the left-to-right loop groups in threes from the right |
| Decimal.FormatRoundTrip | logsgenreceiver/internal/logstats/logstats.go:199-212 | deleting the commas and reading the number gives it back |
| Decimal.CommaPositions | logsgenreceiver/internal/logstats/logstats.go:205-209 | the first group has one to three digits and every later one three |
| Payloads.BuildLargeJSONPayload | logsgenreceiver/internal/loggen/traces.go:221-243 | for every stream of draws and target the text is JSON, of the items that the draws give, ten each, and overshoots the target by a bounded amount |
| ErrorPayloads.BuildErrorResponse | logsgenreceiver/internal/loggen/crosscutting.go:34-66 | likewise for error responses, five draws an item |
| ErrorPayloads.OpeningLength | logsgenreceiver/internal/loggen/crosscutting.go:36-52 | before the first item the text is at most 289 long, so the test against 300 is right |
| ErrorPayloads.ShardLength | logsgenreceiver/internal/loggen/crosscutting.go:54-64 | an item is at least 109 long, so after one the text is at least 302 |
| Config.ValidateVolumeProfile | logsgenreceiver/config.go:304-339 | accepts exactly the profiles the state machine relies on |
| Config.ValidateNeedles | logsgenreceiver/config.go:179-196 | accepts exactly the needles with a name, a message, a rate in [0, 1] and a known or blank severity, and otherwise names the first that is not so |
| Config.ValidateIPPool | logsgenreceiver/config.go:236-250 | accepts exactly the pools of address blocks with a skew above one or unset |
| AddressPool.BuildIPPool | logsgenreceiver/internal/loggen/loggen.go:414-446 | the loops draw the addresses of the specification, or panic where it does |
| AddressPool.AddressesInRange | logsgenreceiver/internal/loggen/loggen.go:438-444 | every address lies in one of the blocks and is not its network address |
| AddressPool.AddressesAreDrawn | logsgenreceiver/internal/loggen/loggen.go:439-442 | every address is that of two draws, one for the block and one for the host, made where the address before left the generator |
| AddressPool.BlockRange | logsgenreceiver/internal/loggen/loggen.go:425-432 | the range of a block is all of its addresses but the first |
| AddressPool.UsableInOrder | logsgenreceiver/internal/loggen/loggen.go:420-433 | the ranges are those of the usable blocks, in order |
| AddressPool.DefaultBlock | logsgenreceiver/internal/loggen/loggen.go:434-436 | without a usable block the addresses are those of 10.0.0.0/8 |
| AddressPool.PoolBuildsIff | logsgenreceiver/internal/loggen/loggen.go:420-441 | no source makes the building of a pool panic if and only if no block of version 4 is a single address |
| AddressPool.SingleAddressPanics | logsgenreceiver/config.go:236-250 | validation accepts a block of a single address, and building the pool then panics on some source |
| Config.ValidateScenario | logsgenreceiver/config.go:166-212 | accepts exactly the acceptable scenarios, and otherwise names a check that fails; what they are good for is `AcceptedConfigurationWorks` |
| Config.ValidateScenarios | logsgenreceiver/config.go:165-214 | reports the first scenario that is not acceptable, if there is one |
| Config.ValidateConfig | logsgenreceiver/config.go:113-146 | accepts exactly the configurations with a sensible interval and time that name one source of scenarios, for which the effective scenarios exist and are all acceptable, and otherwise names a check that fails |
| Startup.Prepare | logsgenreceiver/receiver.go:187-231 | the loops set up every scenario as specified, with the generator where the draws of the multipliers leave it |
| Startup.SetupsFollowInputs | logsgenreceiver/receiver.go:187-231 | every scenario is set up with its own configuration, its profile with overridden weights, and multipliers drawn one scenario after the other, a normal value for every instance of a scenario with skew |
| Startup.AcceptedSetupsWork | logsgenreceiver/config.go:165-214 | every setup built from accepted scenarios meets what the theorems about the receiver ask, and its multipliers are positive with mean one |
| Startup.AcceptedConfigurationWorks | logsgenreceiver/config.go:165-214 | for every accepted configuration whose templates, profiles and address pools can be built (what they give fits the scenario), all reports of its runs are faithful, the count is exact under the known condition, and workers share each scenario's work without loss |
| Startup.AcceptedSkewKeepsVolume | docs/log-tuning-guide.md:158-160 | skew keeps the volume of an accepted scenario to rounding |
| Config.NeedleSeverityAsAccepted | logsgenreceiver/config.go:189-195 | a record gets the severity that was accepted if and only if there was nothing to trim or it is an error anyway |
| Config.TrimSpaceCuts | logsgenreceiver/config.go:189 | what is trimmed is the white space at both ends, and nothing else |
| Config.PaddedSeverityIsMisread | logsgenreceiver/receiver.go:486 | a padded name is accepted and misread |

## Left out

- Rounding, overflow, NaN and infinities of floating-point numbers: `real` has none of them.
- The width of integers: counters and lengths are unbounded.
- The order of attributes within a record, which follows Go's map iteration and is not reproducible.
- A finer interleaving than one record per step, and the Go memory model: the shared total is the only unsynchronised access that is modelled in parts.
- More than one `Start`: a run is started at most once.
- The consumer, observability reports, logging, tickers and sleeps: a batch is a sequence of records and the consumer a sink.
- Templates of resources, YAML loading and the tables of messages and fields: scenarios and profiles are arbitrary inputs.
- Zipf and normal distributions: only that a draw is made. The text of an address.
- What templates and profile tables give a scenario, address pool included, is a parameter that fits it (`Startup.AllFit`); that a pool can be built is `AddressPool.PoolBuildsIff`.
- The defaults of start and end that are read from the clock: start and end are parameters.
- The layout of the summary text, percentages and the sorting of keys.
- The other builders of stack traces and error texts: the same length-driven loop without separators.
- ErrorPayloads.BuildErrorResponse: begins after the draw that chooses this branch of the builder.
- Config.NeedleSeverityAsAccepted: upper case is ASCII's and white space Latin-1's, because Unicode tables are not modelled.
- Generator.GenerateLogRecord: takes the formatter as a parameter; the comparison with the prepared generator uses one formatter for both, since some templates mismatch verbs and arguments on purpose.
