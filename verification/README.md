# UrbanEV-v2 charging core, modelled in Dafny

UrbanEV-v2 extends the MATSim traffic simulation with electric vehicles. This
project models the bookkeeping that sits between MATSim's events and the
charging infrastructure:

- **Price curve.** The time-of-use price curve maps a simulation time to one of six
  hourly cost multipliers (`ChargingCostUtils`).
- **Start-time optimiser.** It scans 15-minute candidate start times and keeps the
  cheapest one, with a randomised tie rule and a coincidence block
  (`SmartChargingTouHelper`).
- **Deferred-charging scheduler.** It holds at most one pending plug-in per vehicle
  and fires the due ones (`SmartChargingScheduler`).
- **Charging handler.** It tracks charging sessions, allocates the nearest eligible
  charger when a charging activity starts, and emits scoring events
  (`VehicleChargingHandler`).
- **Behaviour scoring.** A rule table turns scoring events into utility components
  and a running score (`ChargingBehaviourScoring`, its event record and its
  parameters).
- **Statistics collectors.** These are the per-vehicle charging log
  (`ChargerPowerCollector`) and the per-charger occupancy history
  (`ChargerOccupancyHistoryCollector`).
- **Configuration group.** It supplies defaults and clamping setters
  (`UrbanEVConfigGroup`).

One Dafny module models each source file:

| file | module | form |
|---|---|---|
| common.dfy | `Common` | shared values: `Option`, ids, coordinates, vehicles, chargers, string predicates |
| charging_cost_utils.dfy | `CostCurve` | pure functions and lemmas |
| smart_charging_tou_helper.dfy | `TouSolver` | a specification function plus the imperative nested-loop method proved against it |
| smart_charging_scheduler.dfy | `Scheduling` | class over the `scheduled` map |
| vehicle_charging_handler.dfy | `ChargingHandler` | class over the four session maps; `findBestCharger` as a function |
| charging_behaviour_scoring.dfy | `Scoring` | class accumulating `score`; one pure function per rule |
| charging_behaviour_scoring_event.dfy | `ScoringEvents` | the event record and the imperative attribute serialiser |
| charging_behaviour_scoring_parameters.dfy | `ScoringParameters` | parameter record and builder |
| charger_power_collector.dfy | `PowerStats` | class over `activeChargingProcesses` and `logList` |
| charger_occupancy_history_collector.dfy | `OccupancyStats` | classes over per-charger insertion-ordered histories |
| urban_ev_config_group.dfy | `Config` | class with clamping setters |

### Conventions

- **Times** are integer seconds. The source's 1e-3 s tolerances on times then
  change nothing. The 1e-9 tolerance on cost ties is modelled as exact equality.
- **Injected functions.** `Math.exp`, `Math.pow`, `DistanceUtils.calculateDistance`
  and `Math.random` are function-typed parameters. The random draws are a stream
  `nat -> real` consumed in call order.
- **Collaborators become state.** The charger logic, the events manager, the
  scores collector and the smart-charge notification hook become append-only
  logs that the model writes: `chargerOps`, `emitted`, `collectorLog` and
  `notifications`.
- **The fleet** (batteries) and the chargers' current occupancy are passed to each
  event handler as values.

## Model


| member | source | states |
|---|---|---|
| CostCurve.HourlyCostMultiplier | src/main/java/se/urbanEV/charging/ChargingCostUtils.java:14-30 | total: every time gives one of the six multipliers {0.7, 1.6, 1.47, 0.92, 1.14, 1.0}, all positive |
| CostCurve.MinuteOfDay | src/main/java/se/urbanEV/charging/ChargingCostUtils.java:15 | Java's truncating `(t/60) % 1440` lies in [0, 1440) for t ≥ 0 and in (-1440, 0] for negative t |
| CostCurve.TariffTilesTheDay | src/main/java/se/urbanEV/charging/ChargingCostUtils.java:17-28 | the seven bins of the tariff table (the night rate appears twice) cover minutes 0..1440 without gap or overlap |
| CostCurve.MultiplierIsTariffBin | src/main/java/se/urbanEV/charging/ChargingCostUtils.java:17-28 | for t ≥ 0, the multiplier is the value of the tariff bin that holds the minute of day |
| CostCurve.SameMinuteSameMultiplier | src/main/java/se/urbanEV/charging/ChargingCostUtils.java:15 | two non-negative times in the same whole minute have the same multiplier |
| CostCurve.DailyPeriod | src/main/java/se/urbanEV/charging/ChargingCostUtils.java:15 | for t ≥ 0, m(t + 86400) == m(t) |
| CostCurve.NegativeTimeIsNightRate | src/main/java/se/urbanEV/charging/ChargingCostUtils.java:15-18 | a negative time has a non-positive truncated minute and so gets the night rate 0.7 |
| CostCurve.ConstantOnSpan | src/main/java/se/urbanEV/charging/ChargingCostUtils.java:17-28 | every second inside one bin's span of the day has that bin's multiplier |
| TouSolver.SubStepsCoverDuration | src/main/java/se/urbanEV/charging/SmartChargingTouHelper.java:76-82 | the sub-step lengths add up to exactly the charging duration |
| TouSolver.NumCandidates | src/main/java/se/urbanEV/charging/SmartChargingTouHelper.java:63-74 | the candidates are arrival + 900k; the last one is ≤ the latest start and the next would exceed it; there is at least one |
| TouSolver.CandidateOrder | src/main/java/se/urbanEV/charging/SmartChargingTouHelper.java:74 | candidate times are strictly increasing in k |
| TouSolver.ScanInvariant | src/main/java/se/urbanEV/charging/SmartChargingTouHelper.java:84-93 | after k candidates, the best is one of them and costs no more than any of them; the tie count is the number of candidates at the best cost (≥ 1) |
| TouSolver.NoneAtCheaperCost | src/main/java/se/urbanEV/charging/SmartChargingTouHelper.java:84-93 | no scanned candidate costs strictly less than the current best |
| TouSolver.FirstCandidateIsInitialBest | src/main/java/se/urbanEV/charging/SmartChargingTouHelper.java:65-87 | since the best cost starts at +∞, the arrival time is the best after the first candidate, with tie count 1 |
| TouSolver.UnawareStartsAtArrival | src/main/java/se/urbanEV/charging/SmartChargingTouHelper.java:41-49 | smart charging disabled or an unaware person gives the arrival time |
| TouSolver.InfeasibleStartsAtArrival | src/main/java/se/urbanEV/charging/SmartChargingTouHelper.java:52-61 | a non-positive duration, or a window too short for the duration, gives the arrival time |
| TouSolver.StartWithinWindow | src/main/java/se/urbanEV/charging/SmartChargingTouHelper.java:63-119 | the result is the arrival time or a 15-minute grid candidate inside [arrival, departure − duration] |
| TouSolver.UnblockedStartIsCheapest | src/main/java/se/urbanEV/charging/SmartChargingTouHelper.java:84-119 | when not blocked, the returned start is a candidate whose cost is ≤ every candidate's cost |
| TouSolver.CoincidenceBlocks | src/main/java/se/urbanEV/charging/SmartChargingTouHelper.java:97-110 | a positive coincidence factor makes one more draw, and a draw below the factor returns the arrival time, otherwise the best start; a factor ≤ 0 makes no draw and returns the best start |
| TouSolver.IntegrateWindow | src/main/java/se/urbanEV/charging/SmartChargingTouHelper.java:76-82 | the inner loop computes exactly the window cost under the weight m(t)^alpha |
| TouSolver.ComputeOptimalStartTime | src/main/java/se/urbanEV/charging/SmartChargingTouHelper.java:41-119 | the nested-loop method returns exactly the specified optimal start |
| TouSolver.WindowCostConstant | src/main/java/se/urbanEV/charging/SmartChargingTouHelper.java:76-82 | a window over which the per-second weight is constant v costs v times its length |
| TouSolver.WindowCostSplit | src/main/java/se/urbanEV/charging/SmartChargingTouHelper.java:76-82 | under any weight, the cost of a window splits at any 900 s sub-step boundary |
| TouSolver.DaytimeWeights | src/main/java/se/urbanEV/charging/SmartChargingTouHelper.java:76-82 | with the tariff, every second from 08:00 to 10:00 weighs 1.47^alpha and every second from 10:00 to 17:00 weighs 0.92^alpha |
| TouSolver.MiddayCandidateCost | src/main/java/se/urbanEV/charging/SmartChargingTouHelper.java:76-82 | for a weight that is constant from 10:00 to 17:00, a two-hour charge starting in 10:00–12:00 costs 7200 times that weight |
| TouSolver.MorningCandidateCost | src/main/java/se/urbanEV/charging/SmartChargingTouHelper.java:76-82 | for a weight higher from 08:00 to 10:00 than from 10:00 to 17:00, a two-hour charge starting on the grid between 08:00 and 09:45 costs strictly more than one wholly at midday |
| TouSolver.MixedCostExceedsCheap | src/main/java/se/urbanEV/charging/SmartChargingTouHelper.java:84-87 | two hours that spend a positive share at a higher weight cost more than two hours at the lower weight |
| TouSolver.WorkedExampleDefersToMidday | src/main/java/se/urbanEV/charging/SmartChargingTouHelper.java:74-119 | arriving at 08:00, leaving at 14:00 and needing two hours, with no coincidence factor and 0.92^alpha < 1.47^alpha, the start lies in 10:00–12:00 and is strictly cheaper than starting on arrival |
| Scheduling.Pending | src/main/java/se/urbanEV/charging/SmartChargingScheduler.java:83-104 | the tasks that remain after handleEvent are a subset of the scheduled ones |
| Scheduling.PlugOps | src/main/java/se/urbanEV/charging/SmartChargingScheduler.java:95 | one plug-in call per fired task, in order |
| Scheduling.SmartChargingScheduler.constructor | src/main/java/se/urbanEV/charging/SmartChargingScheduler.java:37-50 | starts with no pending task and empty logs |
| Scheduling.SmartChargingScheduler.Schedule | src/main/java/se/urbanEV/charging/SmartChargingScheduler.java:54-56 | stores the task with start max(0, startTime) under the vehicle id, replacing any earlier one; everything else is unchanged |
| Scheduling.SmartChargingScheduler.CancelIfScheduled | src/main/java/se/urbanEV/charging/SmartChargingScheduler.java:64-70 | removes only that vehicle's task; a no-op without one |
| Scheduling.SmartChargingScheduler.Reset | src/main/java/se/urbanEV/charging/SmartChargingScheduler.java:107-110 | empties the map |
| Scheduling.SmartChargingScheduler.HandleEvent | src/main/java/se/urbanEV/charging/SmartChargingScheduler.java:77-105 | keeps exactly the later tasks; logs one plug-in and one notification `(ev, charger, now)` for each due task whose vehicle and charger exist, and nothing for the others; old log entries are kept |
| Scheduling.PendingKeepsOnlyLaterTasks | src/main/java/se/urbanEV/charging/SmartChargingScheduler.java:83-104 | a task survives iff its start is later than now, and it survives unchanged |
| Scheduling.SecondCallFiresNothing | src/main/java/se/urbanEV/charging/SmartChargingScheduler.java:83-101 | a second call at the same time leaves the map unchanged and fires nothing |
| Scheduling.FiredExactly | src/main/java/se/urbanEV/charging/SmartChargingScheduler.java:86-101 | a task fires iff it is due and both its vehicle and its charger exist |
| Scheduling.ScheduleThenCancel | src/main/java/se/urbanEV/charging/SmartChargingScheduler.java:54-70 | a negative start is stored as 0, a later schedule replaces an earlier one, and cancelling one vehicle leaves the other's task |
| ChargingHandler.FirstActivityFrom | src/main/java/se/urbanEV/charging/VehicleChargingHandler.java:238-266 | the first matching index from a position on, or None iff no index from there matches |
| ChargingHandler.FirstActivity | src/main/java/se/urbanEV/charging/VehicleChargingHandler.java:238-266 | the first plan element that is an activity ending after the time, or the last element if it is an activity; None iff nothing matches |
| ChargingHandler.GetActivity | src/main/java/se/urbanEV/charging/VehicleChargingHandler.java:238-266 | the scan loop with early exit returns exactly that first match |
| ChargingHandler.LastActivityAlwaysFound | src/main/java/se/urbanEV/charging/VehicleChargingHandler.java:252-262 | a plan that ends with an activity always yields an activity |
| ChargingHandler.MarkFailed | src/main/java/se/urbanEV/charging/VehicleChargingHandler.java:136-142 | the found activity's type gets " failed" appended; every other plan element is unchanged |
| ChargingHandler.FindBestCharger | src/main/java/se/urbanEV/charging/VehicleChargingHandler.java:273-301 | a returned charger is in the list, passes all four filters and has minimal squared distance among those that pass; None iff none passes |
| ChargingHandler.UniqueNearestIsChosen | src/main/java/se/urbanEV/charging/VehicleChargingHandler.java:292-300 | an eligible charger strictly nearer than every other eligible one is chosen |
| ChargingHandler.EnergyChargedMeaning | src/main/java/se/urbanEV/charging/VehicleChargingHandler.java:168-176 | the energy is ≥ 0; it is positive iff a start SOC was recorded and the SOC rose; then energy · 3.6e6 is the joules gained |
| ChargingHandler.ChargerTypeClassification | src/main/java/se/urbanEV/charging/VehicleChargingHandler.java:182-190 | the type is home, work or public: home iff the activity starts with "home", work iff with "work" |
| ChargingHandler.CostEventScoresOnlyCost | src/main/java/se/urbanEV/charging/VehicleChargingHandler.java:192-207 | the cost-only event emitted at activity end (energy > 0) produces a component of some kind iff that kind is the charging cost, the charger type's price is positive and beta·alpha ≠ 0 |
| ChargingHandler.StartEventHasNoCost | src/main/java/se/urbanEV/charging/VehicleChargingHandler.java:145-150 | the event emitted at activity start never produces a charging-cost component |
| ChargingHandler.VehicleChargingHandler.constructor | src/main/java/se/urbanEV/charging/VehicleChargingHandler.java:76-106 | empty session maps; the parking radius comes from the configuration |
| ChargingHandler.VehicleChargingHandler.HandlePersonLeavesVehicle | src/main/java/se/urbanEV/charging/VehicleChargingHandler.java:221-224 | overwrites the person's last vehicle and changes nothing else |
| ChargingHandler.VehicleChargingHandler.ArrivedWith | src/main/java/se/urbanEV/charging/VehicleChargingHandler.java:112-115 | the person's last vehicle, when it is a known EV |
| ChargingHandler.VehicleChargingHandler.HandleActivityStart | src/main/java/se/urbanEV/charging/VehicleChargingHandler.java:108-153 | no EV user: nothing changes. Non-charging activity: only a scoring event with walking distance 0. Charging with a charger found: plug-in, charger, start SOC and start time recorded, walking distance emitted. No charger: the found activity is marked " failed" and the event carries that type and distance 0 |
| ChargingHandler.VehicleChargingHandler.AllocateCharger | src/main/java/se/urbanEV/charging/VehicleChargingHandler.java:120-142 | with a charger found, the session is opened there and the walking distance is reported; otherwise no session is opened, the found activity is renamed with " failed" and distance 0 is reported |
| ChargingHandler.VehicleChargingHandler.HandleActivityEnd | src/main/java/se/urbanEV/charging/VehicleChargingHandler.java:155-219 | a non-charging end changes nothing. A charging end drops the start SOC, start time and charger entries. It unplugs if a charger was recorded. It emits a cost-only event only when energy > 0, with the charger type and the recorded start time (or the end time) as pricing time |
| ChargingHandler.VehicleChargingHandler.EmitCostEvent | src/main/java/se/urbanEV/charging/VehicleChargingHandler.java:168-207 | emits one cost-only event carrying the energy charged and the charger type exactly when that energy is positive, and nothing otherwise |
| Scoring.TotalValueAppend | src/main/java/se/urbanEV/scoring/ChargingBehaviourScoring.java:140-142 | the collector's value total is additive over appended logs |
| Scoring.EntriesTotal | src/main/java/se/urbanEV/scoring/ChargingBehaviourScoring.java:140-142 | the collector entries of a list of components total their deltas |
| Scoring.ChargingBehaviourScoring.constructor | src/main/java/se/urbanEV/scoring/ChargingBehaviourScoring.java:21-33 | score 0 and an empty collector log |
| Scoring.ChargingBehaviourScoring.HandleEvent | src/main/java/se/urbanEV/scoring/ChargingBehaviourScoring.java:36-146 | other event types change nothing; a scoring event appends its components to the collector and adds their sum to the score, keeping score == total of the collector log |
| Scoring.ChargingBehaviourScoring.ScoreBehaviour | src/main/java/se/urbanEV/scoring/ChargingBehaviourScoring.java:44-102 | the five behavioural rules, applied in order when the event is not cost-only |
| Scoring.ChargingBehaviourScoring.ScoreRangeAnxiety | src/main/java/se/urbanEV/scoring/ChargingBehaviourScoring.java:48-53 | records the range-anxiety component iff 0 < soc < threshold |
| Scoring.ChargingBehaviourScoring.ScoreEmptyBattery | src/main/java/se/urbanEV/scoring/ChargingBehaviourScoring.java:56-61 | records the empty-battery penalty iff soc == 0 |
| Scoring.ChargingBehaviourScoring.ScoreWalking | src/main/java/se/urbanEV/scoring/ChargingBehaviourScoring.java:64-72 | records the walking component for charging activities |
| Scoring.ChargingBehaviourScoring.ScoreHomeCharging | src/main/java/se/urbanEV/scoring/ChargingBehaviourScoring.java:75-81 | records the home bonus for "home charging" when the person has a home charger |
| Scoring.ChargingBehaviourScoring.ScoreEnergyBalance | src/main/java/se/urbanEV/scoring/ChargingBehaviourScoring.java:84-102 | records the energy-balance component for last activities |
| Scoring.ChargingBehaviourScoring.ScoreCost | src/main/java/se/urbanEV/scoring/ChargingBehaviourScoring.java:107-143 | records the cost component when it applies |
| Scoring.ChargingBehaviourScoring.GetScore | src/main/java/se/urbanEV/scoring/ChargingBehaviourScoring.java:151-153 | the score is the total of all deltas in the collector log |
| Scoring.ComponentKinds | src/main/java/se/urbanEV/scoring/ChargingBehaviourScoring.java:44-143 | a component of each kind is produced iff its rule's condition holds: only cost when cost-only; range anxiety iff 0 < soc < thr; empty battery iff soc == 0; walking iff " charging"; home bonus iff "home charging" with a home charger; energy balance iff " end"; cost iff energy > 0, a type, a positive price and beta·alpha ≠ 0 |
| Scoring.RangeAnxietyBounded | src/main/java/se/urbanEV/scoring/ChargingBehaviourScoring.java:48-53 | with a negative utility, the range-anxiety delta lies strictly between the utility and 0 |
| Scoring.ChargingEndCountsAsFull | src/main/java/se/urbanEV/scoring/ChargingBehaviourScoring.java:84-101 | a last activity that is also a charging activity counts soc as 1 and records 0 when it started at or below full |
| Scoring.EnergyBalancePenalty | src/main/java/se/urbanEV/scoring/ChargingBehaviourScoring.java:84-101 | the penalty is mu·(startSoc − soc) when soc ≤ startSoc, else 0 is recorded |
| Scoring.TouOnlyForHome | src/main/java/se/urbanEV/scoring/ChargingBehaviourScoring.java:130-135 | among home/work/public, only "home" gets the time-of-use multiplier |
| Scoring.CostTerm | src/main/java/se/urbanEV/scoring/ChargingBehaviourScoring.java:110-138 | delta = beta · alpha · energy · price · multiplier, with the home multiplier read at the pricing time (or the event time) and 1.0 otherwise |
| Scoring.CostSign | src/main/java/se/urbanEV/scoring/ChargingBehaviourScoring.java:112-138 | a negative beta·alpha makes the cost component negative; an unknown charger type gives no cost component |
| ScoringEvents.ShortEvent | src/main/java/se/urbanEV/scoring/ChargingBehaviourScoringEvent.java:24-32 | the short constructor keeps its arguments, leaves pricing time, energy and charger type unset, and is not cost-only |
| ScoringEvents.GetAttributes | src/main/java/se/urbanEV/scoring/ChargingBehaviourScoringEvent.java:91-111 | the five mandatory keys are always present; energy, charger type and pricing time are present iff set; the base attributes are kept otherwise |
| ScoringParameters.BuilderFrom | src/main/java/se/urbanEV/scoring/ChargingBehaviourScoringParameters.java:64-77 | the builder copies the five utilities, beta, alpha and the three costs from the configuration |
| ScoringParameters.BuiltFieldsMatchConfig | src/main/java/se/urbanEV/scoring/ChargingBehaviourScoringParameters.java:22-93 | every built parameter equals its configuration value, so nothing is swapped |
| PowerStats.ChargingRatioBounds | src/main/java/se/urbanEV/stats/ChargerPowerCollector.java:114-121 | the ratio lies in [0, 1]; it is positive iff 0 < charging ≤ plugged, and 1 iff they are equal |
| PowerStats.UnpluggedMeaning | src/main/java/se/urbanEV/stats/ChargerPowerCollector.java:100-121 | an unplugged entry survives iff the unplug time is after the start; it then carries the unplug time, the plugged duration and a ratio in [0, 1], and no other field changes |
| PowerStats.UnplugKeepsLogWell | src/main/java/se/urbanEV/stats/ChargerPowerCollector.java:107-127 | every logged entry has a positive plugged duration and a ratio in [0, 1] |
| PowerStats.ChargerPowerCollector.constructor | src/main/java/se/urbanEV/stats/ChargerPowerCollector.java:33-43 | no active process and an empty log |
| PowerStats.ChargerPowerCollector.HandleChargingStart | src/main/java/se/urbanEV/stats/ChargerPowerCollector.java:45-60 | an unknown EV is ignored; otherwise the active entry is created or overwritten with the start time and SOC |
| PowerStats.ChargerPowerCollector.HandleChargingEnd | src/main/java/se/urbanEV/stats/ChargerPowerCollector.java:62-84 | ignored without a known EV and an active entry; otherwise it sets the end fields and transmitted = end SOC − start SOC |
| PowerStats.ChargerPowerCollector.HandleUnplugging | src/main/java/se/urbanEV/stats/ChargerPowerCollector.java:86-128 | removes the active entry; appends it when the plugged duration is positive and it is complete and valid; the log never shrinks and grows by at most one |
| PowerStats.ChargerPowerCollector.HandleScoringEvent | src/main/java/se/urbanEV/stats/ChargerPowerCollector.java:130-144 | only sets the walking distance on an existing active entry; never creates one |
| PowerStats.ChargerPowerCollector.GetLogList | src/main/java/se/urbanEV/stats/ChargerPowerCollector.java:146-148 | returns the log |
| OccupancyStats.OccupancyHistory.constructor | src/main/java/se/urbanEV/stats/ChargerOccupancyHistoryCollector.java:51-58 | an empty history |
| OccupancyStats.OccupancyHistory.AddEntry | src/main/java/se/urbanEV/stats/ChargerOccupancyHistoryCollector.java:60-62 | sets the count at the time; a new time is appended to the insertion order, an existing time keeps its place |
| OccupancyStats.OneEntryPerTime | src/main/java/se/urbanEV/stats/ChargerOccupancyHistoryCollector.java:60-62 | a time is in the map iff it is listed once in the order; there are as many entries as distinct times |
| OccupancyStats.ChargerOccupancyHistoryCollector.constructor | src/main/java/se/urbanEV/stats/ChargerOccupancyHistoryCollector.java:25-33 | exactly one fresh, empty, distinct history per charger |
| OccupancyStats.ChargerOccupancyHistoryCollector.HandleUnplugging | src/main/java/se/urbanEV/stats/ChargerOccupancyHistoryCollector.java:35-40 | records time → plugged count for that charger; other chargers' histories are unchanged |
| OccupancyStats.ChargerOccupancyHistoryCollector.HandleChargingStart | src/main/java/se/urbanEV/stats/ChargerOccupancyHistoryCollector.java:42-47 | records time → plugged count for that charger; other chargers' histories are unchanged |
| Config.UnitClampAsWritten | src/main/java/se/urbanEV/config/UrbanEVConfigGroup.java:432-437 | for finite input, the stored value lies in [0, 1] and the warning is raised iff the input is outside [0, 1] |
| Config.UnitClampAsWrittenKeepsNaN | src/main/java/se/urbanEV/config/UrbanEVConfigGroup.java:432-437 | as written, NaN is stored and no warning is raised |
| Config.UnitClamp | src/main/java/se/urbanEV/config/UrbanEVConfigGroup.java:432-445 | the corrected clamp: the stored value always lies in [0, 1]; in-range values are kept; anything else warns |
| Config.UnitClampAgreesExceptNaN | src/main/java/se/urbanEV/config/UrbanEVConfigGroup.java:432-445 | the corrected clamp agrees with the source on every input but NaN |
| Config.AlphaScaleTemporalSetting | src/main/java/se/urbanEV/config/UrbanEVConfigGroup.java:463-479 | non-finite gives 1.0, below 0 gives 0.0, above 1 gives 1.0, each with a warning; an in-range value is kept silently |
| Config.UrbanEVConfigGroup.constructor | src/main/java/se/urbanEV/config/UrbanEVConfigGroup.java:92-169 | the defaults, among them radius 500, smart charging off and awareness and coincidence 0 |
| Config.UrbanEVConfigGroup.SetAwarenessFactor | src/main/java/se/urbanEV/config/UrbanEVConfigGroup.java:431-437 | stores the corrected clamp UnitClamp(v), which always lies in [0, 1], and warns iff v was not already in range; this agrees with the source on every non-NaN input |
| Config.UrbanEVConfigGroup.SetCoincidenceFactor | src/main/java/se/urbanEV/config/UrbanEVConfigGroup.java:440-445 | stores the corrected clamp UnitClamp(v), which always lies in [0, 1], and warns iff v was not already in range; this agrees with the source on every non-NaN input |
| Config.UrbanEVConfigGroup.SetAlphaScaleTemporal | src/main/java/se/urbanEV/config/UrbanEVConfigGroup.java:463-479 | stores the clamped exponent and warns as the setter does |
| Config.UrbanEVConfigGroup.LogIfSuspicious | src/main/java/se/urbanEV/config/UrbanEVConfigGroup.java:481-490 | warns iff betaMoney > 0; errors iff a charging cost is negative; changes no field |
| Config.UrbanEVConfigGroup.SetMaxNumberSimultaneousPlanChanges | src/main/java/se/urbanEV/config/UrbanEVConfigGroup.java:219-221 | stores the value verbatim; nothing else changes |
| Config.UrbanEVConfigGroup.SetTimeAdjustmentProbability | src/main/java/se/urbanEV/config/UrbanEVConfigGroup.java:229-231 | stores the value verbatim; nothing else changes |
| Config.UrbanEVConfigGroup.SetMaxTimeFlexibility | src/main/java/se/urbanEV/config/UrbanEVConfigGroup.java:239-241 | stores the value verbatim; nothing else changes |
| Config.UrbanEVConfigGroup.SetRangeAnxietyUtility | src/main/java/se/urbanEV/config/UrbanEVConfigGroup.java:247 | stores the value verbatim; nothing else changes |
| Config.UrbanEVConfigGroup.SetEmptyBatteryUtility | src/main/java/se/urbanEV/config/UrbanEVConfigGroup.java:253 | stores the value verbatim; nothing else changes |
| Config.UrbanEVConfigGroup.SetWalkingUtility | src/main/java/se/urbanEV/config/UrbanEVConfigGroup.java:259 | stores the value verbatim; nothing else changes |
| Config.UrbanEVConfigGroup.SetHomeChargingUtility | src/main/java/se/urbanEV/config/UrbanEVConfigGroup.java:265 | stores the value verbatim; nothing else changes |
| Config.UrbanEVConfigGroup.SetSocDifferenceUtility | src/main/java/se/urbanEV/config/UrbanEVConfigGroup.java:271 | stores the value verbatim; nothing else changes |
| Config.UrbanEVConfigGroup.SetDefaultRangeAnxietyThreshold | src/main/java/se/urbanEV/config/UrbanEVConfigGroup.java:279-281 | stores the value verbatim; nothing else changes |
| Config.UrbanEVConfigGroup.SetVehicleTypesFile | src/main/java/se/urbanEV/config/UrbanEVConfigGroup.java:289-291 | stores the value verbatim; nothing else changes |
| Config.UrbanEVConfigGroup.SetParkingSearchRadius | src/main/java/se/urbanEV/config/UrbanEVConfigGroup.java:299-301 | stores the value verbatim; nothing else changes |
| Config.UrbanEVConfigGroup.SetGenerateHomeChargersByPercentage | src/main/java/se/urbanEV/config/UrbanEVConfigGroup.java:309-311 | stores the value verbatim; nothing else changes |
| Config.UrbanEVConfigGroup.SetGenerateWorkChargersByPercentage | src/main/java/se/urbanEV/config/UrbanEVConfigGroup.java:319-321 | stores the value verbatim; nothing else changes |
| Config.UrbanEVConfigGroup.SetHomeChargerPercentage | src/main/java/se/urbanEV/config/UrbanEVConfigGroup.java:330-332 | stores the value verbatim; nothing else changes |
| Config.UrbanEVConfigGroup.SetWorkChargerPercentage | src/main/java/se/urbanEV/config/UrbanEVConfigGroup.java:341-343 | stores the value verbatim; nothing else changes |
| Config.UrbanEVConfigGroup.SetDefaultHomeChargerPower | src/main/java/se/urbanEV/config/UrbanEVConfigGroup.java:352-354 | stores the value verbatim; nothing else changes |
| Config.UrbanEVConfigGroup.SetDefaultWorkChargerPower | src/main/java/se/urbanEV/config/UrbanEVConfigGroup.java:363-365 | stores the value verbatim; nothing else changes |
| Config.UrbanEVConfigGroup.SetHomeChargingCost | src/main/java/se/urbanEV/config/UrbanEVConfigGroup.java:377-379 | stores the value verbatim; nothing else changes |
| Config.UrbanEVConfigGroup.SetWorkChargingCost | src/main/java/se/urbanEV/config/UrbanEVConfigGroup.java:387-389 | stores the value verbatim; nothing else changes |
| Config.UrbanEVConfigGroup.SetPublicChargingCost | src/main/java/se/urbanEV/config/UrbanEVConfigGroup.java:397-399 | stores the value verbatim; nothing else changes |
| Config.UrbanEVConfigGroup.SetBetaMoney | src/main/java/se/urbanEV/config/UrbanEVConfigGroup.java:407-409 | stores the value verbatim; nothing else changes |
| Config.UrbanEVConfigGroup.SetAlphaScaleCost | src/main/java/se/urbanEV/config/UrbanEVConfigGroup.java:417-419 | stores the value verbatim; nothing else changes |
| Config.UrbanEVConfigGroup.SetEnableSmartCharging | src/main/java/se/urbanEV/config/UrbanEVConfigGroup.java:427-429 | stores the value verbatim; nothing else changes |
| Config.ClampedFactorsStayInUnitInterval | src/main/java/se/urbanEV/config/UrbanEVConfigGroup.java:431-479 | from the defaults, through any setter calls, awareness, coincidence and the temporal exponent stay in [0, 1] |

### Where the code and its documentation differ (the model follows the code)

- **Tie rule.** Near-ties in the optimiser are broken by a reservoir draw: the k-th
  tying candidate replaces the best with probability 1/k. They are not broken by
  earliest-wins (`SmartChargingTouHelper.java:88-93`).
- **Coincidence factor.** `coincidenceFactor` is the probability of *not*
  shifting, that is, of returning the arrival time (`SmartChargingTouHelper.java:97-110`).
  The doc comment at `SmartChargingTouHelper.java:28-29` and the configuration
  comment at `UrbanEVConfigGroup.java:206-208` describe it differently.
- **Temporal exponent.** The comment at `SmartChargingTouHelper.java:71` asks for an
  exponent ≥ 1, but `setAlphaScaleTemporal` clamps it to [0, 1]. The model
  takes the clamp.

## Left out

- GotEVMain.java (command line, configuration loading, controller wiring) is not part of this model: it is I/O and setup.
- SmartChargingEngine.java is not part of this model. It only forwards to a `tick` method that the charging handler does not define.
- MATSim plumbing is left out: the event bus, injection, handler registration and the reflective configuration getters and setters. Events are plain method calls.
- The configuration getters are the class's fields, read directly.
- The charging handler's `ChargingEndEvent` overload has an empty body, so it has no member.
- `onSmartChargePlugged` is called by the scheduler but defined nowhere in the handler. The model records it as an abstract notification log.
- Battery readings and charger occupancy come from external code. They are passed in as values per event: the fleet map and the charger list with plugged counts.
- `DistanceUtils.calculateDistance`, `Math.exp`, `Math.pow` and `Math.random` are uninterpreted function parameters.
- ChargingHandler.FindBestCharger: `PartialSort`'s order among equally near chargers is not visible, so the model picks the first such charger in list order.
- Floating point is not modelled: reals are exact, apart from the NaN and infinity cases of the clamping setters. The 1e-3 s tolerances vanish with integer seconds. The 1e-9 cost tolerance becomes exact equality.
- Integer-second times: the source's double-valued times are truncated to whole seconds.
- Null `soc` or `walkingDistance` in scoring events is not modelled. Those fields are always present here.
- Scoring.Person carries an already-parsed range-anxiety threshold. In the source, a missing `rangeAnxietyThreshold` person attribute throws a null-pointer exception and an unparseable one throws a `NumberFormatException` (`ChargingBehaviourScoring.java:47`). The configured `defaultRangeAnxietyThreshold` is only stored and returned; no scoring code applies it.
- Scoring.EqualsIgnoreCase folds ASCII letters only. Java's Unicode case folding is not modelled.
- `ChargingLogEntry.complete()` and `valid()` are opaque collaborator methods. They are parameters of `HandleUnplugging`.
- PowerStats.Unplugged reads an unset charging duration as 0, which yields ratio 0. The entry's own default is not visible.
- Log entries are values, not shared objects. This is harmless here: an unplugged entry is removed from the active map before it is logged, so no alias survives.
- ChargingHandler.VehicleChargingHandler.HandleActivityStart requires the person's plan to exist when an EV user starts a charging activity. The source would throw a null-pointer exception otherwise.
- OccupancyStats.ChargerOccupancyHistoryCollector.Record, HandleUnplugging and HandleChargingStart require the event's charger to have a history. In the source, an event for a charger missing from the map finds no history, and the call on it throws a null-pointer exception (`ChargerOccupancyHistoryCollector.java:37-39`, `:44-46`). The model also keys the histories by charger id, where the source keys them by the `Charger` object.
- Config.UrbanEVConfigGroup.SetAwarenessFactor / SetCoincidenceFactor store the corrected clamp `UnitClamp` of the Findings row, not the source's expression. They agree with the source on every non-NaN input (`Config.UnitClampAgreesExceptNaN`). On NaN the source stores NaN and does not warn, which `Config.UnitClampAsWritten` models; the setters store 0 and warn.
- Config.UrbanEVConfigGroup.SetTimeAdjustmentProbability takes a number. The boxed `Double` argument can be null in the source, and that is not modelled.
- All log4j output is left out, apart from whether the configuration setters and `logIfSuspicious` warn or error.

## Findings

| source | as written | input that shows it | evidently intended | confidence | as-written member | corrected member |
|---|---|---|---|---|---|---|
| src/main/java/se/urbanEV/config/UrbanEVConfigGroup.java:432-445 | `setAwarenessFactor` and `setCoincidenceFactor` store `Math.max(0, Math.min(1, v))`. They warn only when `v < 0 \|\| v > 1` | `v = NaN`: both comparisons are false and `Math.min`/`Math.max` return NaN. So NaN is stored silently and the factor leaves [0, 1] | the stored factor always lies in [0, 1], and an unusable input warns, as `setAlphaScaleTemporal` does for non-finite input | not executed | Config.UnitClampAsWrittenKeepsNaN | Config.UnitClamp |
