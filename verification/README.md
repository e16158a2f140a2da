# Distributed MATSim master, and five freight, routing and charging components, in Dafny

This project models six parts of a MATSim code base and proves properties of each.

**The distributed master controller** (`MasterControler`). A master process drives a fixed number of slave processes through each iteration of a traffic simulation. Each slave holds part of the synthetic population.
- Registration: each slave gets its number, the PSim iteration count and the initial-routing flag, and reports its memory and thread statistics. Then each slave gets its part of the population.
- Phases: the master starts every slave in one communications mode and waits for all of them. The modes are TRANSMIT_SCENARIO, TRANSMIT_PLANS_TO_MASTER, TRANSMIT_PERFORMANCE, POOL_PERSONS, DISTRIBUTE_PERSONS, TRANSMIT_TRAVEL_TIMES, CONTINUE and DIE.
- Slave exchange: `Slave.run` is modelled as a trace of writes and reads on the slave's connection. What the slave writes back, and how many of the master's reads go through before the connection breaks, are parameters of the model.
- Wait: the slaves' threads are modelled as the started exchanges running one after another, in slave order. The wait fails when any exchange failed.
- Load balancing, every `loadBalanceInterval`-th iteration, in four steps:
  - measure each slave's time per plan;
  - compute a target population per slave, proportional to its speed and clamped for slaves near their memory limit;
  - pool the surplus persons of the slaves that are too big;
  - hand the pool out, front first and in slave order, to the slaves that are too small.
- Proved end to end: the targets add up to the population; the allocation divides by zero exactly when every slave is clamped and persons are left over; with honest slaves every request is served and the pool ends empty.

**`CarrierShipment`**: a freight shipment built through a fluent builder, with identity by id. `equals` compares ids, and `hashCode` is computed in 32-bit `int` arithmetic.

**`TransshipmentHubTourEndEventHandler`**: a hub records which carrier services it awaits for which shipment. When a tour ends at the hub, the handling of each service delivered there is logged once per key in the shipment's log, and an event is emitted for each.

**`FixedRouteLegTravelTimeEstimator`**: estimates a leg's travel time.
- A car leg is timed along a fixed route. The route is memoised per leg index and is computed lazily as a free-speed path. It is timed in the order that the sim-leg interpretation prescribes.
- Other modes are timed by the router once per index and mode.

**`MyEventBasedCarrierScorer`**: scores a carrier with two functions.
- The event-based function charges fixed, per-second and per-metre costs.
- The link-based toll function charges each entry of a tolled link by a tolled vehicle type, up to a cap.

**`ChargingInfrastructureImpl`**: chargers by id, in insertion order, with a view of all of them and of those on one link. An initialisation step gives each charger its charging logic.

Floating-point quantities are exact `real`s. Details of the code that the model keeps as written:
- `setSlaveTargetPopulationSizes` gives the last part of the remainder (`evenMoreExtra`) to slave 0 alone, after every slave of the distribution set got `extra` (MasterControler.java:401-404).
- `notifyAfterMobsim` balances the load whenever `iteration % loadBalanceInterval == 0` with more than one slave, so iteration 0 is balanced too (MasterControler.java:312).
- A slave's connection can break at any of the master's reads. The exchange then ends in the catch block. Whatever was read before the break is kept, and the writes before it went out.

## Model

| member | source | states |
|---|---|---|
| Wire.RunTrace | playgrounds/pieter/src/main/java/playground/pieter/distributed/MasterControler.java:520-562 | The exchange of `Slave.run` in each mode starts by writing the mode; when every read goes through and the pool did not run dry it ends with reading the acknowledgement; the plan exchange resets the writer before the plans are read |
| Wire.ReadsIn | playgrounds/pieter/src/main/java/playground/pieter/distributed/MasterControler.java:473-487 | A complete exchange reads at least once: four times for TRANSMIT_PERFORMANCE (three measurements and the acknowledgement), once for DISTRIBUTE_PERSONS, CONTINUE and DIE |
| Wire.ContinueWrittenBack | playgrounds/pieter/src/main/java/playground/pieter/distributed/MasterControler.java:527-547 | CONTINUE is written back after the mode exactly in TRANSMIT_TRAVEL_TIMES and TRANSMIT_SCENARIO, and only once the acknowledgement was read |
| Wire.RunTraceEndsWithAck | playgrounds/pieter/src/main/java/playground/pieter/distributed/MasterControler.java:526-559 | An exchange ends with the closing acknowledgement exactly when it ran (the pool did not run dry) and every one of its reads went through |
| Wire.UpToReadIsPrefix | playgrounds/pieter/src/main/java/playground/pieter/distributed/MasterControler.java:555-559 | What gets through when the connection breaks after `k` reads is a prefix of the complete exchange; if anything is cut off, it starts with a read and exactly `k` reads came before it |
| Wire.UpToReadSends | playgrounds/pieter/src/main/java/playground/pieter/distributed/MasterControler.java:555-559 | Writes ahead of the next read are never cut off |
| Wire.UpToReadRecv | playgrounds/pieter/src/main/java/playground/pieter/distributed/MasterControler.java:555-559 | A read is the one that throws when no reads are left to go through, and is kept otherwise |
| Wire.UpToReadLast | playgrounds/pieter/src/main/java/playground/pieter/distributed/MasterControler.java:555-559 | The closing read is kept exactly when one more read goes through |
| Wire.RunTraceIsCut | playgrounds/pieter/src/main/java/playground/pieter/distributed/MasterControler.java:520-562 | In every mode, the exchange of a connection that breaks after `delivered` reads is the complete exchange cut right before the read that throws |
| Wire.PoolPersonsCut | playgrounds/pieter/src/main/java/playground/pieter/distributed/MasterControler.java:500-507 | POOL_PERSONS: the cut of the complete exchange is the exchange with `delivered` reads |
| Wire.PlansCut | playgrounds/pieter/src/main/java/playground/pieter/distributed/MasterControler.java:473-481 | TRANSMIT_PLANS_TO_MASTER: the cut of the complete exchange is the exchange with `delivered` reads |
| Wire.PerformanceCut | playgrounds/pieter/src/main/java/playground/pieter/distributed/MasterControler.java:483-487 | TRANSMIT_PERFORMANCE: the cut of the complete exchange is the exchange with `delivered` reads |
| Wire.MeasurementsCut | playgrounds/pieter/src/main/java/playground/pieter/distributed/MasterControler.java:483-487 | The three measurements and the acknowledgement, cut after `k` reads, are the first `k` measurements, plus the acknowledgement when four reads went through |
| Wire.OneRead | playgrounds/pieter/src/main/java/playground/pieter/distributed/MasterControler.java:526-559 | Writes, one read and the closing read, cut after `k` reads, keep the writes, the read when `k >= 1` and the closing read when `k >= 2` |
| Wire.ReadThenContinue | playgrounds/pieter/src/main/java/playground/pieter/distributed/MasterControler.java:527-547 | Writes, the acknowledgement, CONTINUE and the closing read, cut after `k` reads: CONTINUE goes out only when the first acknowledgement went through |
| Wire.RegistrationTrace | playgrounds/pieter/src/main/java/playground/pieter/distributed/MasterControler.java:131-145 | Registration is seven messages: the slave number, the PSim iteration count and the routing flag go out first, then four values come back; exactly three are writes |
| Slaves.TakeFromPool | playgrounds/pieter/src/main/java/playground/pieter/distributed/MasterControler.java:349-358 | `getPersonsFromPool`: a non-negative diff takes nothing; a negative diff takes `-diff` persons off the front, and what it takes followed by what is left is the old pool; a pool that runs dry throws and is left empty |
| Slaves.ConcatPersonsSamePools | playgrounds/pieter/src/main/java/playground/pieter/distributed/MasterControler.java:360-365 | The merged pool depends only on the persons each slave returned |
| Slaves.ConcatPersonsContents | playgrounds/pieter/src/main/java/playground/pieter/distributed/MasterControler.java:360-365 | The merged pool holds exactly the persons some slave returned, as many as all of them returned together |
| Slaves.MergedPlansKeys | playgrounds/pieter/src/main/java/playground/pieter/distributed/MasterControler.java:341-347 | The merged plan map has exactly the keys some slave reported |
| Slaves.MergedPlansLastWins | playgrounds/pieter/src/main/java/playground/pieter/distributed/MasterControler.java:341-347 | On a key that several slaves report, the plan of the last slave in slave order wins |
| Slaves.DonatedMatchesNeeded | playgrounds/pieter/src/main/java/playground/pieter/distributed/MasterControler.java:398-413 | Persons donated minus persons needed equals the sum of the diffs, so diffs that cancel out donate exactly what they need |
| Slaves.NeededFrontIsNeeded | playgrounds/pieter/src/main/java/playground/pieter/distributed/MasterControler.java:509-513 | Counting the persons needed from the front or from the back gives the same total |
| Slaves.DrawInOrderServesAll | playgrounds/pieter/src/main/java/playground/pieter/distributed/MasterControler.java:509-513 | A pool holding at least what the slaves need serves every slave in order; the lists handed out, followed by what is left, are the pool |
| Slaves.DrawFront | playgrounds/pieter/src/main/java/playground/pieter/distributed/MasterControler.java:509-513 | A pool that covers what is needed is never run dry, and it shrinks by exactly what was needed |
| Slaves.DrawInOrderPartitions | playgrounds/pieter/src/main/java/playground/pieter/distributed/MasterControler.java:509-513 | Whatever a successful round hands out, followed by what it leaves, is the pool it started from |
| Slaves.RebalanceEmptiesPool | playgrounds/pieter/src/main/java/playground/pieter/distributed/MasterControler.java:327-339 | When the diffs cancel out and the pool holds what the donors gave, every request is served and the pool ends empty |
| LoadBalance.TimePerPlan | playgrounds/pieter/src/main/java/playground/pieter/distributed/MasterControler.java:374-378 | A slave that reported a positive iteration time and population has a positive time per plan |
| LoadBalance.Reciprocal | playgrounds/pieter/src/main/java/playground/pieter/distributed/MasterControler.java:374-378 | A measured slave has a positive speed in plans per unit of time |
| LoadBalance.SumOfReciprocals | playgrounds/pieter/src/main/java/playground/pieter/distributed/MasterControler.java:374-378 | The sum of the speeds is non-negative, and positive when there is at least one slave |
| LoadBalance.Optima | playgrounds/pieter/src/main/java/playground/pieter/distributed/MasterControler.java:381-390 | There is one floored, clamped share per slave |
| LoadBalance.Indices | playgrounds/pieter/src/main/java/playground/pieter/distributed/MasterControler.java:381-397 | The slave numbers `0 .. k-1`, each exactly once |
| LoadBalance.Distribute | playgrounds/pieter/src/main/java/playground/pieter/distributed/MasterControler.java:398-407 | Spreading the remainder keeps one target per slave |
| LoadBalance.TargetSizes | playgrounds/pieter/src/main/java/playground/pieter/distributed/MasterControler.java:367-413 | The allocation, when it succeeds, gives one target per slave |
| LoadBalance.Currents | playgrounds/pieter/src/main/java/playground/pieter/distributed/MasterControler.java:367-413 | The reported sizes, one per slave |
| LoadBalance.SumOfReciprocalsSamePerformance | playgrounds/pieter/src/main/java/playground/pieter/distributed/MasterControler.java:374-378 | The sum of speeds reads only the measured time and population |
| LoadBalance.TargetSizesSamePerformance | playgrounds/pieter/src/main/java/playground/pieter/distributed/MasterControler.java:367-413 | The allocation reads only each slave's measured time, population and memory use; targets, pools and modes do not change it |
| LoadBalance.WithTargets | playgrounds/pieter/src/main/java/playground/pieter/distributed/MasterControler.java:409-413 | Writing the targets sets each slave's target to its allocation |
| LoadBalance.Differences | playgrounds/pieter/src/main/java/playground/pieter/distributed/MasterControler.java:409-413 | There is one difference per slave: its current size minus its target |
| LoadBalance.SumBound | playgrounds/pieter/src/main/java/playground/pieter/distributed/MasterControler.java:381-390 | Floored shares bounded one by one by the exact shares are bounded in sum |
| LoadBalance.RealSumScaled | playgrounds/pieter/src/main/java/playground/pieter/distributed/MasterControler.java:381-390 | Scaling every exact share by a constant scales their sum |
| LoadBalance.SumOfReciprocalsIsRealSum | playgrounds/pieter/src/main/java/playground/pieter/distributed/MasterControler.java:374-378 | The sum of speeds is the plain sum of the slaves' speeds |
| LoadBalance.OptimumBound | playgrounds/pieter/src/main/java/playground/pieter/distributed/MasterControler.java:381-390 | A floored and clamped share never exceeds the exact proportional share |
| LoadBalance.OptimaBound | playgrounds/pieter/src/main/java/playground/pieter/distributed/MasterControler.java:381-390 | The floored and clamped shares add up to at most the population |
| LoadBalance.RemainderNonNegative | playgrounds/pieter/src/main/java/playground/pieter/distributed/MasterControler.java:398-400 | The remainder to spread is never negative |
| LoadBalance.MembersBelowStep | playgrounds/pieter/src/main/java/playground/pieter/distributed/MasterControler.java:398-407 | One more slave number adds one set member below it exactly when it is in the set |
| LoadBalance.DistributePrefixSum | playgrounds/pieter/src/main/java/playground/pieter/distributed/MasterControler.java:398-407 | The spread targets of the first `k` slaves add the extra once per set member among them, and the rest once, to slave 0 |
| LoadBalance.SumDistribute | playgrounds/pieter/src/main/java/playground/pieter/distributed/MasterControler.java:398-407 | Spreading adds `extra` once per member of the distribution set and `evenMoreExtra` once |
| LoadBalance.AllNearMemoryBranch | playgrounds/pieter/src/main/java/playground/pieter/distributed/MasterControler.java:391-397 | The "all slaves near memory" branch is taken exactly when no slave was clamped, and it leaves the distribution set as it was |
| LoadBalance.NoClampEveryoneShares | playgrounds/pieter/src/main/java/playground/pieter/distributed/MasterControler.java:381-397 | With nobody clamped, every slave shares the remainder |
| LoadBalance.DivisionByZeroExactly | playgrounds/pieter/src/main/java/playground/pieter/distributed/MasterControler.java:398-403 | The allocation divides by zero exactly when every slave was clamped and persons are left over |
| LoadBalance.TargetsSumToPopulation | playgrounds/pieter/src/main/java/playground/pieter/distributed/MasterControler.java:367-413 | Whenever the allocation succeeds, the targets add up to the whole population |
| LoadBalance.ClampedSlaveKeepsSize | playgrounds/pieter/src/main/java/playground/pieter/distributed/MasterControler.java:386-389 | A clamped slave other than slave 0 keeps exactly its current size |
| LoadBalance.SumPointwiseEqual | playgrounds/pieter/src/main/java/playground/pieter/distributed/MasterControler.java:409-413 | Sequences equal slave by slave have equal sums |
| LoadBalance.ConservedSizesAllocate | playgrounds/pieter/src/main/java/playground/pieter/distributed/MasterControler.java:367-413 | When the reported sizes add up to the population, the allocation never divides by zero |
| LoadBalance.SumDifference | playgrounds/pieter/src/main/java/playground/pieter/distributed/MasterControler.java:409-413 | The sum of differences is the difference of the sums |
| LoadBalance.DifferencesBalance | playgrounds/pieter/src/main/java/playground/pieter/distributed/MasterControler.java:409-413 | With sizes that add up to the population, the differences cancel out: donors give exactly what receivers take |
| LoadBalance.RawOptimumMonotone | playgrounds/pieter/src/main/java/playground/pieter/distributed/MasterControler.java:381-383 | A slave that is faster per plan is never allotted fewer persons before clamping |
| Rounds.Diffs | playgrounds/pieter/src/main/java/playground/pieter/distributed/MasterControler.java:504 | One diff per slave: current size minus target |
| Rounds.SlaveAfter | playgrounds/pieter/src/main/java/playground/pieter/distributed/MasterControler.java:473-518 | An exchange never changes a slave's number, target or handshake statistics; the mode becomes CONTINUE after TRANSMIT_TRAVEL_TIMES and TRANSMIT_SCENARIO once the acknowledgement was read; each measurement is stored exactly when its own read went through |
| Rounds.ExchangeTrace | playgrounds/pieter/src/main/java/playground/pieter/distributed/MasterControler.java:520-562 | The exchange as it reaches the wire starts with the mode; it fails exactly when it does not end with the closing acknowledgement |
| Rounds.RunOne | playgrounds/pieter/src/main/java/playground/pieter/distributed/MasterControler.java:520-562 | Running one slave keeps the number of slaves and transcripts |
| Rounds.Round | playgrounds/pieter/src/main/java/playground/pieter/distributed/MasterControler.java:263-275 | The started slaves run one after another, keeping the number of slaves and transcripts |
| Rounds.RoundPending | playgrounds/pieter/src/main/java/playground/pieter/distributed/MasterControler.java:263-275 | After the wait no started slave is pending, and a failure is never forgotten |
| Rounds.RoundSlaves | playgrounds/pieter/src/main/java/playground/pieter/distributed/MasterControler.java:252-275 | Each started slave's record is updated by its own exchange and nothing else |
| Rounds.StepKeepsLater | playgrounds/pieter/src/main/java/playground/pieter/distributed/MasterControler.java:252-275 | Running one slave changes nothing the later slaves see |
| Rounds.RoundKeepsPool | playgrounds/pieter/src/main/java/playground/pieter/distributed/MasterControler.java:520-562 | A phase other than DISTRIBUTE_PERSONS leaves the pool alone |
| Rounds.RoundFailsOnBreak | playgrounds/pieter/src/main/java/playground/pieter/distributed/MasterControler.java:555-559 | A phase other than DISTRIBUTE_PERSONS fails exactly when it had failed before or the connection of some started slave breaks before its exchange's last read |
| Rounds.RoundTranscripts | playgrounds/pieter/src/main/java/playground/pieter/distributed/MasterControler.java:520-562 | A phase other than DISTRIBUTE_PERSONS appends each started slave's exchange to its own connection |
| Rounds.PhaseAfter | playgrounds/pieter/src/main/java/playground/pieter/distributed/MasterControler.java:252-275 | One record per slave after the phase |
| Rounds.PhaseRound | playgrounds/pieter/src/main/java/playground/pieter/distributed/MasterControler.java:252-275 | A whole phase with every slave started: each record is updated by its own exchange, each exchange is appended to its own connection's transcript, the pool is untouched, nobody is pending |
| Rounds.PhaseRoundTranscripts | playgrounds/pieter/src/main/java/playground/pieter/distributed/MasterControler.java:520-562 | A whole phase appends each slave's exchange to its own connection's transcript |
| Rounds.PhaseRoundFails | playgrounds/pieter/src/main/java/playground/pieter/distributed/MasterControler.java:263-275 | A whole phase fails exactly when it had failed before or some slave does not answer every read of its exchange |
| Rounds.BreaksUnlessAllReply | playgrounds/pieter/src/main/java/playground/pieter/distributed/MasterControler.java:263-275 | Some slave's connection breaks before its last read exactly when not every slave answers every read |
| Rounds.PhaseRoundSlaves | playgrounds/pieter/src/main/java/playground/pieter/distributed/MasterControler.java:252-275 | A whole phase leaves each slave's record as its own exchange in that mode leaves it |
| Rounds.RoundRemainsNoDistribution | playgrounds/pieter/src/main/java/playground/pieter/distributed/MasterControler.java:252-275 | Running one slave keeps "nobody draws from the pool" true of the later slaves |
| Rounds.DrawnRestOfEmpty | playgrounds/pieter/src/main/java/playground/pieter/distributed/MasterControler.java:349-358 | Drawing from an empty pool leaves it empty |
| Rounds.RoundDraws | playgrounds/pieter/src/main/java/playground/pieter/distributed/MasterControler.java:509-513 | A DISTRIBUTE_PERSONS round is the draw of each slave's diff from the front of the pool, in slave order; it fails exactly when a draw runs the pool dry |
| Lifecycle.BalanceCadence | playgrounds/pieter/src/main/java/playground/pieter/distributed/MasterControler.java:312 | With several slaves and a positive interval the load is balanced after iterations 0, interval, 2 interval, ...: `ceil(k / interval)` times in the first `k` iterations; a single slave is never balanced |
| Lifecycle.CeilStep | playgrounds/pieter/src/main/java/playground/pieter/distributed/MasterControler.java:312 | One more iteration adds a balancing exactly when the iteration is a multiple of the interval |
| Lifecycle.HonestPoolSize | playgrounds/pieter/src/main/java/playground/pieter/distributed/MasterControler.java:500-507 | Slaves that give up what their diffs ask fill the pool with exactly the donated count |
| Lifecycle.DistributionEmptiesPool | playgrounds/pieter/src/main/java/playground/pieter/distributed/MasterControler.java:327-339 | End to end: after the targets are stored, the persons pooled and merged, and every slave answers DISTRIBUTE_PERSONS, every slave is served and the pool ends empty |
| MasterControl.WithMode | playgrounds/pieter/src/main/java/playground/pieter/distributed/MasterControler.java:256-257 | Setting the mode keeps one record per slave |
| MasterControl.PerformancePhase | playgrounds/pieter/src/main/java/playground/pieter/distributed/MasterControler.java:483-487 | A TRANSMIT_PERFORMANCE phase in which every slave replies records what the slaves reported; positive reports make the records measurable |
| MasterControl.PlansPhase | playgrounds/pieter/src/main/java/playground/pieter/distributed/MasterControler.java:473-481 | A TRANSMIT_PLANS_TO_MASTER phase in which every slave replies leaves each record holding the plans its slave sent |
| MasterControl.MergedSentPlans | playgrounds/pieter/src/main/java/playground/pieter/distributed/MasterControler.java:341-347 | Merging records that hold what the slaves sent is the merge of what the slaves sent, in slave order |
| MasterControl.PlansRound | playgrounds/pieter/src/main/java/playground/pieter/distributed/MasterControler.java:281-284 | A round with every slave started in TRANSMIT_PLANS_TO_MASTER: when nothing failed, each record holds what its slave sent and the merge of the records is `SentPlans` |
| MasterControl.StartupModesRouting | playgrounds/pieter/src/main/java/playground/pieter/distributed/MasterControler.java:278-295 | With initial routing, `notifyStartup` starts the scenario and then the modes of the routing |
| MasterControl.PoolPhase | playgrounds/pieter/src/main/java/playground/pieter/distributed/MasterControler.java:500-507 | A POOL_PERSONS phase in which every slave replies keeps each record's measurements and target, and stores the persons the slave gave up |
| MasterControl.PoolPhaseRestarted | playgrounds/pieter/src/main/java/playground/pieter/distributed/MasterControler.java:336-338 | Restarting the slaves in DISTRIBUTE_PERSONS keeps what pooling recorded |
| MasterControl.RoutedPlans | playgrounds/pieter/src/main/java/playground/pieter/distributed/MasterControler.java:286-291 | Every person's selected plan is the routed plan under their id, or null; no other id is touched |
| MasterControl.SelectOneMore | playgrounds/pieter/src/main/java/playground/pieter/distributed/MasterControler.java:286-291 | Selecting one more person extends the selection of the persons before them |
| MasterControl.Targeted | playgrounds/pieter/src/main/java/playground/pieter/distributed/MasterControler.java:409-413 | Writing the allocation into the records makes each target its allocation and keeps the measurements |
| MasterControl.TargetsKept | playgrounds/pieter/src/main/java/playground/pieter/distributed/MasterControler.java:334-338 | Pooling and restarting keep measurements and targets, so the targets stay the allocation |
| MasterControl.Targets | playgrounds/pieter/src/main/java/playground/pieter/distributed/MasterControler.java:409-413 | One target per slave |
| MasterControl.MasterControler.constructor | playgrounds/pieter/src/main/java/playground/pieter/distributed/MasterControler.java:131-169 | Registration with each slave in order: number, iteration count and routing flag out, memory and thread statistics in; then each slave gets its part of the population; everything else starts empty |
| MasterControl.MasterControler.GetPersonsFromPool | playgrounds/pieter/src/main/java/playground/pieter/distributed/MasterControler.java:349-358 | The loop takes persons one at a time and ends with what `TakeFromPool` describes |
| MasterControl.MasterControler.MergePersonsFromSlaves | playgrounds/pieter/src/main/java/playground/pieter/distributed/MasterControler.java:360-365 | The pool becomes every slave's returned persons in slave order |
| MasterControl.MasterControler.MergePlansFromSlaves | playgrounds/pieter/src/main/java/playground/pieter/distributed/MasterControler.java:341-347 | The plan map becomes the slaves' plans put in slave order |
| MasterControl.MasterControler.StartSlavesInMode | playgrounds/pieter/src/main/java/playground/pieter/distributed/MasterControler.java:252-261 | Every slave gets the mode and is started; nothing else in its record changes; it is only called once no exchange is pending |
| MasterControl.MasterControler.ExchangeTravelTimes | playgrounds/pieter/src/main/java/playground/pieter/distributed/MasterControler.java:489-498 | Travel times (and transit times when transit is on) go out, the acknowledgement comes in, CONTINUE goes out |
| MasterControl.MasterControler.ExchangePoolPersons | playgrounds/pieter/src/main/java/playground/pieter/distributed/MasterControler.java:500-507 | The slave's list is reset, the diff goes out, the slave's persons come in |
| MasterControl.MasterControler.ExchangeDistributePersons | playgrounds/pieter/src/main/java/playground/pieter/distributed/MasterControler.java:509-513 | The slave's diff is drawn from the pool and the persons drawn go out; a dry pool throws before anything is written |
| MasterControl.MasterControler.ExchangePlans | playgrounds/pieter/src/main/java/playground/pieter/distributed/MasterControler.java:473-481 | The writer is reset, the plan map is cleared and refilled with the plans the slave sends |
| MasterControl.MasterControler.ExchangePerformance | playgrounds/pieter/src/main/java/playground/pieter/distributed/MasterControler.java:483-487 | Iteration time, population size and memory use are read in that order, each stored as soon as its read goes through |
| MasterControl.MasterControler.ExchangeInitialPlans | playgrounds/pieter/src/main/java/playground/pieter/distributed/MasterControler.java:515-518 | The slave's part of the population goes out, the acknowledgement comes in, CONTINUE goes out |
| MasterControl.MasterControler.ExchangeInMode | playgrounds/pieter/src/main/java/playground/pieter/distributed/MasterControler.java:525-553 | The part of `run` that the mode selects, with the pool changed only by DISTRIBUTE_PERSONS |
| MasterControl.MasterControler.RunSlave | playgrounds/pieter/src/main/java/playground/pieter/distributed/MasterControler.java:520-562 | `Slave.run` for one slave: its record, its transcript, the pool and the failure flag change as one exchange prescribes |
| MasterControl.MasterControler.WriteTargets | playgrounds/pieter/src/main/java/playground/pieter/distributed/MasterControler.java:409-413 | The differences are current minus target, and the targets are written into the records |
| MasterControl.MasterControler.SetSlaveTargetPopulationSizes | playgrounds/pieter/src/main/java/playground/pieter/distributed/MasterControler.java:367-413 | Fails exactly when the allocation divides by zero, changing nothing; otherwise the records get the allocation as targets and the differences are current minus target |
| MasterControl.MasterControler.WaitForSlaveThreads | playgrounds/pieter/src/main/java/playground/pieter/distributed/MasterControler.java:263-275 | Every started exchange runs; the wait succeeds exactly when nothing has failed |
| MasterControl.MasterControler.StartAndWait | playgrounds/pieter/src/main/java/playground/pieter/distributed/MasterControler.java:252-275 | A phase other than DISTRIBUTE_PERSONS: each record is updated by its own exchange and each exchange appended to its own connection's transcript, the pool is untouched, and it succeeds exactly when nothing failed before and every slave answers every read of its exchange |
| MasterControl.MasterControler.WaitPhase | playgrounds/pieter/src/main/java/playground/pieter/distributed/MasterControler.java:252-275 | The wait of a phase other than DISTRIBUTE_PERSONS started on every slave: the records are `PhaseAfter`, the transcripts `PhaseTranscripts`, the pool is untouched, and it succeeds exactly when nothing failed before and every slave answers every read |
| MasterControl.MasterControler.MeasureAndTarget | playgrounds/pieter/src/main/java/playground/pieter/distributed/MasterControler.java:328-333 | Performance is measured, the pool emptied and the targets are the allocation for what was measured; an empty distribution set is the arithmetic error |
| MasterControl.MasterControler.MergeAndDistribute | playgrounds/pieter/src/main/java/playground/pieter/distributed/MasterControler.java:336-338 | The pool becomes the slaves' returned persons and every slave is started in DISTRIBUTE_PERSONS |
| MasterControl.MasterControler.PoolAndDistribute | playgrounds/pieter/src/main/java/playground/pieter/distributed/MasterControler.java:334-338 | Surplus persons are pooled and merged and distribution starts; measurements and targets stay |
| MasterControl.MasterControler.LoadBalance | playgrounds/pieter/src/main/java/playground/pieter/distributed/MasterControler.java:327-339 | On success the modes issued are TRANSMIT_PERFORMANCE, POOL_PERSONS and DISTRIBUTE_PERSONS, and the state is `Balanced`: the targets are the allocation for what was measured, the pool is the merged surplus, every slave is distributing |
| MasterControl.MasterControler.ReplaceSelectedPlans | playgrounds/pieter/src/main/java/playground/pieter/distributed/MasterControler.java:286-291 | Every person's selected plan becomes the routed plan for them, or null |
| MasterControl.MasterControler.CollectInitialPlans | playgrounds/pieter/src/main/java/playground/pieter/distributed/MasterControler.java:281-291 | After the scenario, every slave is asked for its routed plans; when all reply, each record holds the plans its slave sent, the plan map is their merge in slave order (`SentPlans`), and each person's selected plan becomes their entry in it |
| MasterControl.MasterControler.SelectRoutedPlans | playgrounds/pieter/src/main/java/playground/pieter/distributed/MasterControler.java:283-291 | The state is the round of the pending exchanges; on success the plan map is the merge of the records' plans and each person's selected plan becomes their entry in it, and on failure neither changes |
| MasterControl.MasterControler.InitialRouting | playgrounds/pieter/src/main/java/playground/pieter/distributed/MasterControler.java:280-295 | With initial routing: the plan map is the merge of what the slaves sent and the selected plans are taken from it; with more than one slave the state before the last wait is `Balanced`; the records, pool and transcripts are that wait's round, with CONTINUE started |
| MasterControl.MasterControler.BalanceThenContinue | playgrounds/pieter/src/main/java/playground/pieter/distributed/MasterControler.java:292-294 | With more than one slave the state after balancing is `Balanced` (measured, targeted, pooled, DISTRIBUTE_PERSONS started), otherwise unchanged; then the records, pool and transcripts are those of the wait, with CONTINUE started |
| MasterControl.MasterControler.NotifyStartup | playgrounds/pieter/src/main/java/playground/pieter/distributed/MasterControler.java:277-296 | Pending exchanges end and the scenario goes out; without initial routing the state is that round with TRANSMIT_SCENARIO started; with it, the plan map is the merge of what the slaves sent, the selected plans are taken from it, the balancing leaves a `Balanced` state for more than one slave, and the final state is the last wait's round with CONTINUE started |
| MasterControl.MasterControler.StartScenario | playgrounds/pieter/src/main/java/playground/pieter/distributed/MasterControler.java:279 | The state is the round of the pending exchanges, with TRANSMIT_SCENARIO started on every slave |
| MasterControl.MasterControler.WaitThenStart | playgrounds/pieter/src/main/java/playground/pieter/distributed/MasterControler.java:302-304 | The records, pool, transcripts and failure flag are those of the round of the pending exchanges; on success the mode is started on every slave, and on failure nothing is started |
| MasterControl.MasterControler.NotifyIterationStarts | playgrounds/pieter/src/main/java/playground/pieter/distributed/MasterControler.java:299-305 | The records, pool, transcripts and failure flag are those of the round of the previous exchanges; on success every slave is started in TRANSMIT_PLANS_TO_MASTER, and on failure nothing is started |
| MasterControl.MasterControler.DecideBalance | playgrounds/pieter/src/main/java/playground/pieter/distributed/MasterControler.java:312 | `isLoadBalanceIteration` is set exactly on the iterations `BalancesAfter` names; it fails, with the flag untouched, exactly when there are several slaves and the interval is zero (the division by zero) |
| MasterControl.MasterControler.BalanceIfDue | playgrounds/pieter/src/main/java/playground/pieter/distributed/MasterControler.java:314-316 | Balances exactly when `isLoadBalanceIteration` is set and then leaves a `Balanced` state; otherwise the records, pool, pending set and transcripts are unchanged; the flag is reset; it fails only when balancing was due |
| MasterControl.MasterControler.NotifyAfterMobsim | playgrounds/pieter/src/main/java/playground/pieter/distributed/MasterControler.java:307-319 | The plan map is the merge of the records after the wait, and the merge of what the slaves sent when they were all started in TRANSMIT_PLANS_TO_MASTER; on balancing iterations the state is then `Balanced`; the final records, pool and transcripts are the next wait's round with TRANSMIT_TRAVEL_TIMES started; a zero interval with several slaves is the division by zero |
| MasterControl.MasterControler.CollectPlans | playgrounds/pieter/src/main/java/playground/pieter/distributed/MasterControler.java:310-311 | The state is the round of the pending exchanges; on success the plan map is the merge of the records, and the merge of what the slaves sent when they were all started in TRANSMIT_PLANS_TO_MASTER |
| MasterControl.MasterControler.BalanceThenTransmit | playgrounds/pieter/src/main/java/playground/pieter/distributed/MasterControler.java:314-318 | When `isLoadBalanceIteration` is set the state after balancing is `Balanced`, otherwise unchanged; then the records, pool and transcripts are those of the wait, with TRANSMIT_TRAVEL_TIMES started |
| MasterControl.MasterControler.NotifyShutdown | playgrounds/pieter/src/main/java/playground/pieter/distributed/MasterControler.java:321-325 | The exchanges still pending come to an end, their outcome recorded, and then every slave is started in DIE |
| MasterControl.MemoryCheck | playgrounds/pieter/src/main/java/playground/pieter/distributed/MasterControler.java:391-397 | The "all slaves near memory" branch as written |
| MasterControl.SpreadRemainder | playgrounds/pieter/src/main/java/playground/pieter/distributed/MasterControler.java:398-407 | Each member of the distribution set gets `extra`, slave 0 also gets `evenMoreExtra` |
| MasterControl.MeasureSlaves | playgrounds/pieter/src/main/java/playground/pieter/distributed/MasterControler.java:374-378 | Time per plan and size per slave, and the sum of the speeds |
| MasterControl.OptimalNumbers | playgrounds/pieter/src/main/java/playground/pieter/distributed/MasterControler.java:381-397 | Each slave's floored, clamped share, their total, and the slaves that were not clamped |
| MasterControl.AllocateTargets | playgrounds/pieter/src/main/java/playground/pieter/distributed/MasterControler.java:367-413 | The allocation loops compute exactly `TargetSizes` |
| Shipments.Wrap32 | contribs/freight/src/main/java/org/matsim/freight/carriers/CarrierShipment.java:368-373 | Java `int` arithmetic: unchanged in range, congruent modulo 2^32 otherwise |
| Shipments.Builder.constructor | contribs/freight/src/main/java/org/matsim/freight/carriers/CarrierShipment.java:77-87 | A builder keeps id, links and demand; windows start at `[0, Integer.MAX_VALUE]` and durations at 0 |
| Shipments.Builder.SetPickupStartsTimeWindow | contribs/freight/src/main/java/org/matsim/freight/carriers/CarrierShipment.java:99-102 | Fluent: returns the builder itself and replaces only the pickup window |
| Shipments.Builder.SetPickupDuration | contribs/freight/src/main/java/org/matsim/freight/carriers/CarrierShipment.java:111-114 | Fluent: returns the builder itself and replaces only the pickup duration |
| Shipments.Builder.SetDeliveryStartsTimeWindow | contribs/freight/src/main/java/org/matsim/freight/carriers/CarrierShipment.java:126-129 | Fluent: returns the builder itself and replaces only the delivery window |
| Shipments.Builder.SetDeliveryDuration | contribs/freight/src/main/java/org/matsim/freight/carriers/CarrierShipment.java:138-141 | Fluent: returns the builder itself and replaces only the delivery duration |
| Shipments.Builder.SetPickupTimeWindow | contribs/freight/src/main/java/org/matsim/freight/carriers/CarrierShipment.java:154-156 | The deprecated alias behaves as `setPickupStartsTimeWindow` |
| Shipments.Builder.SetPickupServiceTime | contribs/freight/src/main/java/org/matsim/freight/carriers/CarrierShipment.java:162-164 | The deprecated alias behaves as `setPickupDuration` |
| Shipments.Builder.SetDeliveryTimeWindow | contribs/freight/src/main/java/org/matsim/freight/carriers/CarrierShipment.java:170-172 | The deprecated alias behaves as `setDeliveryStartsTimeWindow` |
| Shipments.Builder.SetDeliveryServiceTime | contribs/freight/src/main/java/org/matsim/freight/carriers/CarrierShipment.java:178-180 | The deprecated alias behaves as `setDeliveryDuration` |
| Shipments.Builder.Build | contribs/freight/src/main/java/org/matsim/freight/carriers/CarrierShipment.java:143-145 | A new shipment carrying every field of the builder |
| Shipments.CarrierShipment.constructor | contribs/freight/src/main/java/org/matsim/freight/carriers/CarrierShipment.java:203-212 | Every field is copied from the builder |
| Shipments.CarrierShipment.SetPickupDuration | contribs/freight/src/main/java/org/matsim/freight/carriers/CarrierShipment.java:231-233 | Only the pickup duration changes |
| Shipments.CarrierShipment.SetDeliveryDuration | contribs/freight/src/main/java/org/matsim/freight/carriers/CarrierShipment.java:242-244 | Only the delivery duration changes |
| Shipments.CarrierShipment.SetPickupServiceTime | contribs/freight/src/main/java/org/matsim/freight/carriers/CarrierShipment.java:311-313 | The deprecated alias behaves as `setPickupDuration` |
| Shipments.CarrierShipment.SetDeliveryServiceTime | contribs/freight/src/main/java/org/matsim/freight/carriers/CarrierShipment.java:352-354 | The deprecated alias behaves as `setDeliveryDuration` |
| Shipments.CarrierShipment.GetSize | contribs/freight/src/main/java/org/matsim/freight/carriers/CarrierShipment.java:286-288 | The deprecated getter answers the capacity demand |
| Shipments.CarrierShipment.GetFrom | contribs/freight/src/main/java/org/matsim/freight/carriers/CarrierShipment.java:295-297 | The deprecated getter answers the pickup link |
| Shipments.CarrierShipment.GetTo | contribs/freight/src/main/java/org/matsim/freight/carriers/CarrierShipment.java:328-330 | The deprecated getter answers the delivery link |
| Shipments.CarrierShipment.GetPickupTimeWindow | contribs/freight/src/main/java/org/matsim/freight/carriers/CarrierShipment.java:303-305 | The deprecated getter answers the pickup start window |
| Shipments.CarrierShipment.GetDeliveryTimeWindow | contribs/freight/src/main/java/org/matsim/freight/carriers/CarrierShipment.java:336-338 | The deprecated getter answers the delivery start window |
| Shipments.CarrierShipment.GetPickupServiceTime | contribs/freight/src/main/java/org/matsim/freight/carriers/CarrierShipment.java:319-321 | The deprecated getter answers the pickup duration |
| Shipments.CarrierShipment.GetDeliveryServiceTime | contribs/freight/src/main/java/org/matsim/freight/carriers/CarrierShipment.java:344-346 | The deprecated getter answers the delivery duration |
| Shipments.CarrierShipment.HashCode | contribs/freight/src/main/java/org/matsim/freight/carriers/CarrierShipment.java:367-373 | A null id hashes to 31; otherwise the hash is 31 plus the id's hash, modulo 2^32 |
| Shipments.CarrierShipment.Equals | contribs/freight/src/main/java/org/matsim/freight/carriers/CarrierShipment.java:378-390 | `equals` rejects null and other classes; on a shipment it holds exactly when the ids are equal, so the reference check only shortcuts |
| Shipments.EqualsById | contribs/freight/src/main/java/org/matsim/freight/carriers/CarrierShipment.java:378-391 | `equals` is reflexive and symmetric, rejects null and other classes, and holds exactly when the ids are equal |
| Shipments.EqualsHashCode | contribs/freight/src/main/java/org/matsim/freight/carriers/CarrierShipment.java:366-391 | Equal shipments have equal hash codes |
| Shipments.DefaultShipment | contribs/freight/src/main/java/org/matsim/freight/carriers/CarrierShipment.java:53-87 | A builder used as is builds windows `[0, Integer.MAX_VALUE]` and zero durations |
| TransshipmentHub.UnloadTimeAppend | src/main/java/lsp/resourceImplementations/transshipmentHub/TransshipmentHubTourEndEventHandler.java:172-180 | The unload time of two pieces of a tour is the sum of theirs |
| TransshipmentHub.UnloadTimeNonNegative | src/main/java/lsp/resourceImplementations/transshipmentHub/TransshipmentHubTourEndEventHandler.java:172-180 | With non-negative service durations the unload time is non-negative |
| TransshipmentHub.FirstTour | src/main/java/lsp/resourceImplementations/transshipmentHub/TransshipmentHubTourEndEventHandler.java:110-115 | The position of the first tour with the id, or none when no tour has it |
| TransshipmentHub.LoggedOnce | src/main/java/lsp/resourceImplementations/transshipmentHub/TransshipmentHubTourEndEventHandler.java:160-163 | An entry is added under its key only when the key is absent; every earlier entry stays |
| TransshipmentHub.LoggedOnceIdempotent | src/main/java/lsp/resourceImplementations/transshipmentHub/TransshipmentHubTourEndEventHandler.java:160-163 | Offering an entry under a key already logged changes nothing |
| TransshipmentHub.TransshipmentHubTourEndEventHandler.constructor | src/main/java/lsp/resourceImplementations/transshipmentHub/TransshipmentHubTourEndEventHandler.java:64-71 | The handler starts with the hub's link and resource and no awaited services |
| TransshipmentHub.TransshipmentHubTourEndEventHandler.HubEvents | src/main/java/lsp/resourceImplementations/transshipmentHub/TransshipmentHubTourEndEventHandler.java:119-129 | A tour end emits at most one event per tour element |
| TransshipmentHub.TransshipmentHubTourEndEventHandler.ElementEvents | src/main/java/lsp/resourceImplementations/transshipmentHub/TransshipmentHubTourEndEventHandler.java:120-127 | An element emits one event exactly when it is a service activity at the hub, on a tour that ends there and starts elsewhere |
| TransshipmentHub.TransshipmentHubTourEndEventHandler.NotifyAfterMobsim | src/main/java/lsp/resourceImplementations/transshipmentHub/TransshipmentHubTourEndEventHandler.java:81-84 | Every awaited service is forgotten |
| TransshipmentHub.TransshipmentHubTourEndEventHandler.Reset | src/main/java/lsp/resourceImplementations/transshipmentHub/TransshipmentHubTourEndEventHandler.java:86-91 | Nothing changes |
| TransshipmentHub.TransshipmentHubTourEndEventHandler.AddShipment | src/main/java/lsp/resourceImplementations/transshipmentHub/TransshipmentHubTourEndEventHandler.java:93-103 | Every service of a leg whose chain element is followed by the element awaits (shipment, element); other services keep what they awaited |
| TransshipmentHub.TransshipmentHubTourEndEventHandler.AllShipmentsOfTourEndInOnePoint | src/main/java/lsp/resourceImplementations/transshipmentHub/TransshipmentHubTourEndEventHandler.java:134-144 | True exactly when every service activity of the tour is awaited |
| TransshipmentHub.TransshipmentHubTourEndEventHandler.AllServicesAreInOnePoint | src/main/java/lsp/resourceImplementations/transshipmentHub/TransshipmentHubTourEndEventHandler.java:182-191 | True exactly when every service activity of the tour is on its end link |
| TransshipmentHub.TransshipmentHubTourEndEventHandler.GetUnloadEndTime | src/main/java/lsp/resourceImplementations/transshipmentHub/TransshipmentHubTourEndEventHandler.java:172-180 | The service durations added up in tour order |
| TransshipmentHub.TransshipmentHubTourEndEventHandler.LogHandlingInHub | src/main/java/lsp/resourceImplementations/transshipmentHub/TransshipmentHubTourEndEventHandler.java:146-170 | The handling lasts the fixed need plus the linear need per unit of size; it is logged only if nothing is logged under its key; the event is emitted every time |
| TransshipmentHub.TransshipmentHubTourEndEventHandler.HandleEvent | src/main/java/lsp/resourceImplementations/transshipmentHub/TransshipmentHubTourEndEventHandler.java:105-132 | A tour end elsewhere and a tour whose services are not all awaited change nothing; a tour missing from the plan at the hub is the NullPointerException and changes nothing; otherwise one event per qualifying service in tour order, and each awaited shipment's log is its old log with the handlings of its qualifying services offered in tour order |
| TransshipmentHub.TransshipmentHubTourEndEventHandler.LogTour | src/main/java/lsp/resourceImplementations/transshipmentHub/TransshipmentHubTourEndEventHandler.java:119-129 | The loop emits exactly the events of the qualifying services, in tour order, and leaves each awaited shipment's log as `ShipmentLog` folds the tour over it |
| TransshipmentHub.TransshipmentHubTourEndEventHandler.LogStep | src/main/java/lsp/resourceImplementations/transshipmentHub/TransshipmentHubTourEndEventHandler.java:119-129 | One pass of the loop extends the events and every awaited shipment's log by one tour element |
| TransshipmentHub.TransshipmentHubTourEndEventHandler.ShipmentLogStep | src/main/java/lsp/resourceImplementations/transshipmentHub/TransshipmentHubTourEndEventHandler.java:119-129 | The log after one more element is that element's handling offered to the log after the elements before it |
| TransshipmentHub.TransshipmentHubTourEndEventHandler.ShipmentLogExtends | src/main/java/lsp/resourceImplementations/transshipmentHub/TransshipmentHubTourEndEventHandler.java:160-163 | A tour end never overwrites nor removes a log entry: it only adds |
| TransshipmentHub.TransshipmentHubTourEndEventHandler.HubEventsStep | src/main/java/lsp/resourceImplementations/transshipmentHub/TransshipmentHubTourEndEventHandler.java:119-129 | The events of one more element follow those of the elements before it, after whatever was emitted earlier |
| TransshipmentHub.TransshipmentHubTourEndEventHandler.LogElement | src/main/java/lsp/resourceImplementations/transshipmentHub/TransshipmentHubTourEndEventHandler.java:120-127 | One element emits its event, if it qualifies, and each awaited shipment's log becomes what `ElementLog` says of it |
| TransshipmentHub.FindTour | src/main/java/lsp/resourceImplementations/transshipmentHub/TransshipmentHubTourEndEventHandler.java:110-115 | The loop with `break` finds the first tour with the id |
| LegTravelTime.Leg.constructor | matsim/src/org/matsim/planomat/costestimators/FixedRouteLegTravelTimeEstimator.java:70-72 | A leg with its mode and route |
| LegTravelTime.Memo | matsim/src/org/matsim/planomat/costestimators/FixedRouteLegTravelTimeEstimator.java:81-90 | A memo lookup-or-insert: a stored key keeps its value, a new key gets the computed one, other keys stay |
| LegTravelTime.MemoIdempotent | matsim/src/org/matsim/planomat/costestimators/FixedRouteLegTravelTimeEstimator.java:114-130 | A second lookup of the same key returns the first result and changes nothing |
| LegTravelTime.FixedRouteLegTravelTimeEstimator.constructor | matsim/src/org/matsim/planomat/costestimators/FixedRouteLegTravelTimeEstimator.java:57-68 | The estimator starts with empty memos and no current plan |
| LegTravelTime.FixedRouteLegTravelTimeEstimator.ProcessDeparture | matsim/src/org/matsim/planomat/costestimators/FixedRouteLegTravelTimeEstimator.java:136-141 | The departure delay never ends before the departure when it is not negative |
| LegTravelTime.FixedRouteLegTravelTimeEstimator.ProcessLink | matsim/src/org/matsim/planomat/costestimators/FixedRouteLegTravelTimeEstimator.java:154-159 | A link is never left before it is entered when its travel time is not negative |
| LegTravelTime.FixedRouteLegTravelTimeEstimator.RouteTravelTime | matsim/src/org/matsim/planomat/costestimators/FixedRouteLegTravelTimeEstimator.java:143-159 | With non-negative link times a route is never left before it is entered |
| LegTravelTime.FixedRouteLegTravelTimeEstimator.CarTravelTime | matsim/src/org/matsim/planomat/costestimators/FixedRouteLegTravelTimeEstimator.java:92-113 | Under an unknown interpretation a car leg takes exactly its departure delay; with non-negative link times, never less |
| LegTravelTime.FixedRouteLegTravelTimeEstimator.RouteTravelTimeAppend | matsim/src/org/matsim/planomat/costestimators/FixedRouteLegTravelTimeEstimator.java:143-152 | Timing two routes one after the other is timing their concatenation |
| LegTravelTime.FixedRouteLegTravelTimeEstimator.ProcessRouteTravelTime | matsim/src/org/matsim/planomat/costestimators/FixedRouteLegTravelTimeEstimator.java:143-152 | The loop computes the fold of `processLink` over the route |
| LegTravelTime.FixedRouteLegTravelTimeEstimator.CarEstimate | matsim/src/org/matsim/planomat/costestimators/FixedRouteLegTravelTimeEstimator.java:92-101 | The car timing in the order each interpretation prescribes is the car travel time |
| LegTravelTime.FixedRouteLegTravelTimeEstimator.GetLegTravelTimeEstimation | matsim/src/org/matsim/planomat/costestimators/FixedRouteLegTravelTimeEstimator.java:70-134 | A car leg gets its free-speed route memoised under its index, is timed along it, and has its route replaced exactly when `doModifyLeg`; any other leg is timed once per index and mode and answered from the memo after that |
| LegTravelTime.FixedRouteLegTravelTimeEstimator.ResetPlanSpecificInformation | matsim/src/org/matsim/planomat/costestimators/FixedRouteLegTravelTimeEstimator.java:166-170 | Both memos emptied and the plan forgotten |
| LegTravelTime.FixedRouteLegTravelTimeEstimator.InitPlanSpecificInformation | matsim/src/org/matsim/planomat/costestimators/FixedRouteLegTravelTimeEstimator.java:175-194 | The plan becomes current and every leg with a network route has its links stored under its index; other entries stay |
| LegTravelTime.StoredIsUnion | matsim/src/org/matsim/planomat/costestimators/FixedRouteLegTravelTimeEstimator.java:181-193 | The puts one at a time amount to overlaying the network routes on what was stored |
| LegTravelTime.NetworkRoutesStep | matsim/src/org/matsim/planomat/costestimators/FixedRouteLegTravelTimeEstimator.java:181-193 | One more element adds its network route, if any, under its own position |
| CarrierScoring.CountTolledAppend | src/main/java/example/lsp/initialPlans/MyEventBasedCarrierScorer.java:135-143 | Counting tolled tours over two runs adds up and never exceeds the number of tours |
| CarrierScoring.CountTolledExtremes | src/main/java/example/lsp/initialPlans/MyEventBasedCarrierScorer.java:135-143 | All tours count when every type is tolled, none when none is |
| CarrierScoring.EventBasedScoring.constructor | src/main/java/example/lsp/initialPlans/MyEventBasedCarrierScorer.java:66-69 | A new scoring function at zero with no tour started |
| CarrierScoring.EventBasedScoring.HandleEvent | src/main/java/example/lsp/initialPlans/MyEventBasedCarrierScorer.java:78-112 | A tour start records its time; a tour end charges fixed costs, then duration times cost per second, failing between the two when the start is unknown; a link enter charges length times cost per metre; with non-negative costs the score never rises |
| CarrierScoring.EventBasedScoring.HandleTourEnd | src/main/java/example/lsp/initialPlans/MyEventBasedCarrierScorer.java:95-105 | Fixed costs are charged before the start time is looked up |
| CarrierScoring.LinkBasedTollScoring.constructor | src/main/java/example/lsp/initialPlans/MyEventBasedCarrierScorer.java:131-144 | The cap counts the planned tours with a tolled vehicle type |
| CarrierScoring.LinkBasedTollScoring.HandleEvent | src/main/java/example/lsp/initialPlans/MyEventBasedCarrierScorer.java:152-175 | Only link entries count; an unknown vehicle fails; a tolled entry below the cap raises the counter by one and lowers the score by the toll; the score stays the toll times the counter, negated, within the cap |
| CarrierScoring.LinkBasedTollScoring.TollIsCapped | src/main/java/example/lsp/initialPlans/MyEventBasedCarrierScorer.java:166-172 | With a non-negative toll the score stays between zero and the toll times the cap, negated |
| CarrierScoring.MyEventBasedCarrierScorer.constructor | src/main/java/example/lsp/initialPlans/MyEventBasedCarrierScorer.java:30-38 | A scorer with toll 0 |
| CarrierScoring.MyEventBasedCarrierScorer.SetToll | src/main/java/example/lsp/initialPlans/MyEventBasedCarrierScorer.java:47-49 | The toll is replaced |
| CarrierScoring.MyEventBasedCarrierScorer.CreateScoringFunction | src/main/java/example/lsp/initialPlans/MyEventBasedCarrierScorer.java:40-45 | Two new scoring functions at zero, the toll one with the current toll and its cap |
| ChargingInfrastructure.Charger.constructor | contribs/ev/src/main/java/org/matsim/contrib/ev/data/ChargingInfrastructureImpl.java:35 | A charger with its id and link and no logic yet |
| ChargingInfrastructure.ChargingInfrastructureImpl.constructor | contribs/ev/src/main/java/org/matsim/contrib/ev/data/ChargingInfrastructureImpl.java:35 | The infrastructure starts empty |
| ChargingInfrastructure.ChargingInfrastructureImpl.GetChargers | contribs/ev/src/main/java/org/matsim/contrib/ev/data/ChargingInfrastructureImpl.java:38-41 | The stored entries in insertion order |
| ChargingInfrastructure.ChargingInfrastructureImpl.GetChargersExactlyStored | contribs/ev/src/main/java/org/matsim/contrib/ev/data/ChargingInfrastructureImpl.java:38-41 | The view holds every stored charger once, under its own id, and nothing else |
| ChargingInfrastructure.ChargingInfrastructureImpl.GetChargersAtLink | contribs/ev/src/main/java/org/matsim/contrib/ev/data/ChargingInfrastructureImpl.java:43-46 | Exactly the stored chargers on the link, each under its own id |
| ChargingInfrastructure.ChargingInfrastructureImpl.AddCharger | contribs/ev/src/main/java/org/matsim/contrib/ev/data/ChargingInfrastructureImpl.java:48-50 | The charger is stored under its id, replacing any with that id in place; a new id goes last in the order |
| ChargingInfrastructure.ChargingInfrastructureImpl.InitChargingLogics | contribs/ev/src/main/java/org/matsim/contrib/ev/data/ChargingInfrastructureImpl.java:52-59 | Every stored charger gets the logic the factory makes for it |

## Left out

- Sockets, object streams and serialization are left out. What a slave writes is a parameter (`Inbound`, `HandshakeReply`), and messages are abstract values. `PersonSerializable` and `PlanSerializable` are opaque records.
- Writes on a slave's connection are modelled as always going through. A broken connection shows at the master's next read, which throws.
- `MasterControl.MasterControler.NotifyShutdown` and `MasterControl.MasterControler.NotifyStartup`: the code starts the new mode even while earlier exchanges are still running, and `startSlavesInMode` only logs a warning about it (MasterControler.java:253-254). The model lets those exchanges finish first, so it does not capture a race between the old exchanges and the new ones.
- Threads, the `AtomicInteger` counter, the sleep-polling wait and the double decrement in the catch block are left out. The started exchanges run one after another in slave order, and the wait reports whether anything failed.
- Interleavings of concurrent exchanges on the shared pool are not modelled. The order is ascending slave order, the order the threads are started in.
- Reading the configuration, the command line, the scenario and the population is left out. `MemoryUsageCalculator` and the memory-per-plan estimate are left out too. These are JVM-level measurements.
- `CollectionUtils.split` is left out. The per-slave split of the population is a parameter of the constructor.
- The logging in `setSlaveTargetPopulationSizes` and in the other methods is left out. It has no effect on state.
- `getTotalNumberOfPlansFromSlaves` and `getTotalNumberOfPlansOnMaster` only feed that logging, so they are left out as well.
- `Controler` and the replanning strategy are not part of this model. `notifyStartup`'s replacement of the selected plan is modelled as a map from person id to plan (or null).
- Java `double` arithmetic is exact `real` arithmetic, and `(int)` of a non-negative double is `Floor`. Rounding differences are not modelled.
- `LoadBalance.TargetSizes` and `MasterControl.MasterControler.LoadBalance` require every slave's reported `totalIterationTime` and `currentPopulationSize` to be positive (`Measurable`). So do the allocation's other members, `SetSlaveTargetPopulationSizes` and `MeasureAndTarget`. The hooks that may balance — `InitialRouting`, `BalanceThenContinue`, `NotifyStartup`, `BalanceIfDue`, `BalanceThenTransmit` and `NotifyAfterMobsim` — require it of the replies through `MeasurableReplies`. The code accepts zero: the `double` divisions at MasterControler.java:375 and :377 then give an infinite or NaN time per plan, and the `(int)` cast at :382 turns NaN into 0. Allocations from such reports are not modelled.
- `MasterControl.MasterControler.RunSlave`: an exception thrown inside `getPersonsFromPool` after some persons were taken leaves the pool empty, as in the code. The model does not distinguish which of the four exception types was thrown.
- `CarrierShipment.toString` and `getAttributes` are left out. The non-deprecated getters `GetCapacityDemand`, `GetPickupDuration` and `GetDeliveryDuration` are members without a contract of their own, since each only returns a field. The deprecated getters are stated in terms of them.
- The hub handler's constructor registers itself with the hub resource through `addSimulationTracker`. The resource is not part of this model, so the registration is left out.
- The commented-out branch of `handleEvent` that would log at the unload end time is not modelled. The carriers lookup by carrier id is replaced by the scheduled tours carried on the event.
- `getServicesWaitedFor`, `getTranshipmentHub`, `getResourceId`, `getLinkId`, `setEmbeddingContainer` and `setEventsManager` are plain accessors, and they are left out. Emitted events are appended to a sequence instead of going to the events manager.
- `FixedRouteLegTravelTimeEstimator`: link travel times, departure delays, the free-speed path calculator and `handleLeg` are function parameters. Any side effect of `handleLeg` on the leg is not modelled. `getActLegIndex` is the leg's position, passed as `legIndex`.
- `LegTravelTime.FixedRouteLegTravelTimeEstimator.GetLegTravelTimeEstimation`: a call without a current plan, the NullPointerException of `getActLegIndex`, is not modelled.
- `MyEventBasedCarrierScorer`: `finish()` and `getScore()` are left out, since they do nothing or return the field. `SumScoringFunction` is a pair of the two functions, and adding their scores is not modelled.
- The link network is a map from link id to length, and the scenario's vehicles are a map from vehicle id to vehicle type.
- The tolling counter and the cap are `nat` rather than `double`. They only ever count up from zero by one.
- `ChargingInfrastructure.ChargingInfrastructureImpl.GetChargersAtLink`: the iteration order of the `HashMap` that `getChargersAtLink` returns is not modelled. The result is a map.
- `getChargers`'s unmodifiable view is a sequence copy. The charging logic is a value naming its factory, charger and events manager.
