/** The charging session tracker and charger allocator (VehicleChargingHandler).
    It remembers each person's last vehicle, allocates a charger when a charging
    activity starts, meters the energy charged when it ends, and emits the
    scoring events. The fleet's batteries, the chargers' occupancy and the
    distance function are the current state of collaborators and are passed in
    with each event; calls into the charger logic and the events manager are
    kept as append-only logs. */
module ChargingHandler {

  import opened Common
  import opened ScoringEvents
  import Scoring
  import ScoringParameters

  const ChargingIdentifier: string := " charging"
  const FailedSuffix: string := " failed"
  /** Joules in one kilowatt-hour. */
  const JoulesPerKWh: real := 3600000.0

  /** A plan activity: its type, location and optional end time (seconds). */
  datatype Activity = Activity(actType: string, coord: Coord, endTime: Option<int>)

  datatype PlanElement = Act(activity: Activity) | Leg

  // ---------------------------------------------------------------------------
  // getActivity
  // ---------------------------------------------------------------------------

  /** getActivity's test on plan element i: an activity that ends after `time`,
      or the last element of the plan when it is an activity (with or without
      an end time). */
  predicate Matches(plan: seq<PlanElement>, i: int, time: int)
    requires 0 <= i < |plan|
  {
    plan[i].Act? &&
    (i == |plan| - 1 || (plan[i].activity.endTime.Some? && plan[i].activity.endTime.value > time))
  }

  /** The index of the first matching element at or after `from`. */
  function FirstActivityFrom(plan: seq<PlanElement>, time: int, from: nat): (r: Option<nat>)
    requires from <= |plan|
    ensures r.Some? ==> from <= r.value < |plan| && Matches(plan, r.value, time)
    ensures r.Some? ==> forall j | from <= j < r.value :: !Matches(plan, j, time)
    ensures r.None? <==> forall j | from <= j < |plan| :: !Matches(plan, j, time)
    decreases |plan| - from
  {
    if from == |plan| then None
    else if Matches(plan, from, time) then Some(from)
    else FirstActivityFrom(plan, time, from + 1)
  }

  /** The activity getActivity finds, as an index into the plan. */
  function FirstActivity(plan: seq<PlanElement>, time: int): (r: Option<nat>)
    ensures r.Some? ==> r.value < |plan| && Matches(plan, r.value, time)
    ensures r.Some? ==> forall j | 0 <= j < r.value :: !Matches(plan, j, time)
    ensures r.None? <==> forall j | 0 <= j < |plan| :: !Matches(plan, j, time)
  {
    FirstActivityFrom(plan, time, 0)
  }

  /** getActivity: a scan over the plan that stops at the first match. Returns
      the index of the activity found, so that the caller can rename it. */
  method GetActivity(plan: seq<PlanElement>, time: int) returns (found: Option<nat>)
    ensures found == FirstActivity(plan, time)
  {
    found := None;
    var i := 0;
    while i < |plan|
      invariant 0 <= i <= |plan|
      invariant found.None?
      invariant forall j | 0 <= j < i :: !Matches(plan, j, time)
    {
      var planElement := plan[i];
      if planElement.Act? {
        if planElement.activity.endTime.Some? {
          var activityEndTime := planElement.activity.endTime.value;
          if activityEndTime > time || i == |plan| - 1 {
            found := Some(i);
            break;
          }
        } else if i == |plan| - 1 {
          found := Some(i);
          break;
        } else {
          i := i + 1;
          continue;
        }
      }
      i := i + 1;
    }
    if found.Some? {
      FirstActivityUnique(plan, time, found.value);
    }
  }

  lemma FirstActivityUnique(plan: seq<PlanElement>, time: int, i: nat)
    requires i < |plan| && Matches(plan, i, time)
    requires forall j | 0 <= j < i :: !Matches(plan, j, time)
    ensures FirstActivity(plan, time) == Some(i)
  {
    assert FirstActivity(plan, time).Some?;
  }

  /** A plan whose last element is an activity always yields an activity. */
  lemma LastActivityAlwaysFound(plan: seq<PlanElement>, time: int)
    requires |plan| > 0 && plan[|plan| - 1].Act?
    ensures FirstActivity(plan, time).Some?
  {
    assert Matches(plan, |plan| - 1, time);
  }

  /** The activity renamed after a failed allocation: its own type plus " failed". */
  function MarkFailed(plan: seq<PlanElement>, i: nat): (r: seq<PlanElement>)
    requires i < |plan| && plan[i].Act?
    ensures |r| == |plan| && r[i].Act? && r[i].activity.actType == plan[i].activity.actType + FailedSuffix
    ensures r[i].activity.coord == plan[i].activity.coord && r[i].activity.endTime == plan[i].activity.endTime
    ensures forall j | 0 <= j < |plan| && j != i :: r[j] == plan[j]
  {
    plan[i := Act(plan[i].activity.(actType := plan[i].activity.actType + FailedSuffix))]
  }

  // ---------------------------------------------------------------------------
  // findBestCharger
  // ---------------------------------------------------------------------------

  /** The four filters: allowed vehicle, strictly within the search radius,
      a type the vehicle can use, and a free plug. */
  predicate Eligible(c: Charger, stopCoord: Coord, ev: ElectricVehicle, radius: int, dist: (Coord, Coord) -> real) {
    && (c.allowedVehicles == {} || ev.id in c.allowedVehicles)
    && dist(stopCoord, c.coord) < radius as real
    && c.chargerType in ev.chargerTypes
    && c.pluggedCount < c.plugCount
  }

  /** findBestCharger over the chargers in iteration order: an eligible charger
      at minimal squared distance, none iff no charger is eligible. Among equally
      near chargers the first is taken. As in the source, the radius filter uses
      the walking distance `dist` while the choice uses SquaredDistance; the two
      are not linked, so the chosen charger need not have the least `dist`. */
  function FindBestCharger(chargers: seq<Charger>, stopCoord: Coord, ev: ElectricVehicle, radius: int,
                           dist: (Coord, Coord) -> real): (r: Option<Charger>)
    ensures r.Some? ==> r.value in chargers && Eligible(r.value, stopCoord, ev, radius, dist)
    ensures r.Some? ==> forall c | c in chargers && Eligible(c, stopCoord, ev, radius, dist) ::
      SquaredDistance(stopCoord, r.value.coord) <= SquaredDistance(stopCoord, c.coord)
    ensures r.None? <==> forall c | c in chargers :: !Eligible(c, stopCoord, ev, radius, dist)
  {
    if chargers == [] then None
    else
      var rest := FindBestCharger(chargers[1..], stopCoord, ev, radius, dist);
      var c := chargers[0];
      if Eligible(c, stopCoord, ev, radius, dist)
         && (rest.None? || SquaredDistance(stopCoord, c.coord) <= SquaredDistance(stopCoord, rest.value.coord))
      then Some(c)
      else rest
  }

  /** A nearest charger that is strictly nearer than all other eligible ones is
      the one chosen. */
  lemma UniqueNearestIsChosen(chargers: seq<Charger>, stopCoord: Coord, ev: ElectricVehicle, radius: int,
                              dist: (Coord, Coord) -> real, best: Charger)
    requires best in chargers && Eligible(best, stopCoord, ev, radius, dist)
    requires forall c | c in chargers && Eligible(c, stopCoord, ev, radius, dist) && c != best ::
      SquaredDistance(stopCoord, best.coord) < SquaredDistance(stopCoord, c.coord)
    ensures FindBestCharger(chargers, stopCoord, ev, radius, dist) == Some(best)
  {
  }

  // ---------------------------------------------------------------------------
  // Energy metering at activity end
  // ---------------------------------------------------------------------------

  /** Energy charged in kWh: the soc fraction gained since the session started
      times the capacity in kWh, or 0 when nothing was gained or no start was
      recorded. */
  function EnergyChargedKWh(startSocFrac: Option<real>, b: Battery): real
    requires b.capacity > 0.0
  {
    if startSocFrac.Some? then
      var deltaSocFrac := SocFraction(b) - startSocFrac.value;
      if deltaSocFrac > 0.0 then deltaSocFrac * (b.capacity / JoulesPerKWh) else 0.0
    else 0.0
  }

  /** The metered energy is never negative, is positive exactly when the soc
      rose since the recorded start, and is then the energy gained in joules
      divided by 3.6e6. */
  lemma EnergyChargedMeaning(startSocFrac: Option<real>, b: Battery)
    requires b.capacity > 0.0
    ensures EnergyChargedKWh(startSocFrac, b) >= 0.0
    ensures EnergyChargedKWh(startSocFrac, b) > 0.0 <==> startSocFrac.Some? && SocFraction(b) > startSocFrac.value
    ensures EnergyChargedKWh(startSocFrac, b) > 0.0 ==>
      EnergyChargedKWh(startSocFrac, b) * JoulesPerKWh == b.soc - startSocFrac.value * b.capacity
  {
    if startSocFrac.Some? && SocFraction(b) > startSocFrac.value {
      var d := SocFraction(b) - startSocFrac.value;
      var k := b.capacity / JoulesPerKWh;
      assert k > 0.0;
      assert d * k > 0.0;
      assert k * JoulesPerKWh == b.capacity;
      assert SocFraction(b) * b.capacity == b.soc;
      calc {
        d * k * JoulesPerKWh;
        d * (k * JoulesPerKWh);
        d * b.capacity;
        SocFraction(b) * b.capacity - startSocFrac.value * b.capacity;
      }
    }
  }

  /** The charger type an activity type is priced as: by its prefix. */
  function ChargerTypeOf(actType: string): string {
    if StartsWith(actType, "home") then "home"
    else if StartsWith(actType, "work") then "work"
    else "public"
  }

  /** Every activity type is priced as one of the three known charger types,
      "home ..." and "work ..." as their own and everything else as public. */
  lemma ChargerTypeClassification(actType: string)
    ensures ChargerTypeOf(actType) in {"home", "work", "public"}
    ensures ChargerTypeOf(actType) == "home" <==> StartsWith(actType, "home")
    ensures ChargerTypeOf(actType) == "work" <==> StartsWith(actType, "work")
  {
    if |actType| > 0 {
      assert StartsWith(actType, "home") ==> actType[0] == 'h';
      assert StartsWith(actType, "work") ==> actType[0] == 'w';
    }
  }

  /** The cost-only event emitted when a charging activity ends. */
  function CostEvent(time: int, personId: Id, actType: string, b: Battery, pricingTime: int, energy: real): ScoringEvent
    requires b.capacity > 0.0
  {
    ScoringEvent(time, personId, SocFraction(b), 0.0, actType, b.startSoc / b.capacity,
                 Some(pricingTime), Some(energy), Some(ChargerTypeOf(actType)), true)
  }

  /** The cost-only event of an activity end is scored for its cost alone, and
      charged exactly when its charger type has a positive price and
      betaMoney * alphaScaleCost is non-zero. */
  lemma CostEventScoresOnlyCost(p: ScoringParameters.Parameters, person: Scoring.Person, time: int, personId: Id,
                                actType: string, b: Battery, pricingTime: int, energy: real,
                                exp: real -> real, kind: Scoring.ScoreComponent)
    requires b.capacity > 0.0 && energy > 0.0
    ensures Scoring.HasKind(Scoring.Components(p, person, CostEvent(time, personId, actType, b, pricingTime, energy), exp), kind)
      <==> kind == Scoring.ChargingCost && Scoring.UnitPrice(p, ChargerTypeOf(actType)) > 0.0
           && p.betaMoney * p.alphaScaleCost != 0.0
  {
    ChargerTypeClassification(actType);
    Scoring.ComponentKinds(p, person, CostEvent(time, personId, actType, b, pricingTime, energy), exp, kind);
  }

  /** The event of an activity start never carries a cost. */
  lemma StartEventHasNoCost(p: ScoringParameters.Parameters, person: Scoring.Person, time: int, personId: Id,
                            soc: real, walkingDistance: real, actType: string, startSoc: real, exp: real -> real)
    ensures !Scoring.HasKind(Scoring.Components(p, person, ShortEvent(time, personId, soc, walkingDistance, actType, startSoc), exp),
                             Scoring.ChargingCost)
  {
    Scoring.ComponentKinds(p, person, ShortEvent(time, personId, soc, walkingDistance, actType, startSoc), exp, Scoring.ChargingCost);
  }

  // ---------------------------------------------------------------------------
  // The handler
  // ---------------------------------------------------------------------------

  class VehicleChargingHandler {
    /** The fleet's vehicle ids; the batteries themselves evolve and are read
        from the fleet passed with each event. */
    const evIds: set<Id>
    const parkingSearchRadius: int
    var lastVehicleUsed: map<Id, Id>
    var vehiclesAtChargers: map<Id, Id>
    var chargeStartSoc: map<Id, real>
    var chargeStartTime: map<Id, int>
    /** Each person's selected plan; a failed allocation renames an activity in it. */
    var plans: map<Id, seq<PlanElement>>
    /** addVehicle / removeVehicle calls on charger logics, in order. */
    var chargerOps: seq<ChargerOp>
    /** Scoring events handed to the events manager, in order. */
    var emitted: seq<ScoringEvent>

    /** The three session maps describe the same vehicles, all of the fleet:
        a session is opened and closed in all three at once. */
    ghost predicate Valid()
      reads this
    {
      && vehiclesAtChargers.Keys == chargeStartSoc.Keys
      && chargeStartSoc.Keys == chargeStartTime.Keys
      && chargeStartSoc.Keys <= evIds
    }

    /** The fleet passed with an event: the fixed set of vehicles, each with a
        positive battery capacity. */
    predicate FleetMatches(fleet: map<Id, ElectricVehicle>)
      reads this
    {
      WellFormedFleet(fleet) && fleet.Keys == evIds
    }

    constructor (evIds: set<Id>, parkingSearchRadius: int, plans: map<Id, seq<PlanElement>>)
      ensures Valid()
      ensures this.evIds == evIds && this.parkingSearchRadius == parkingSearchRadius && this.plans == plans
      ensures lastVehicleUsed == map[] && vehiclesAtChargers == map[]
      ensures chargeStartSoc == map[] && chargeStartTime == map[]
      ensures chargerOps == [] && emitted == []
    {
      this.evIds := evIds;
      this.parkingSearchRadius := parkingSearchRadius;
      this.plans := plans;
      lastVehicleUsed := map[];
      vehiclesAtChargers := map[];
      chargeStartSoc := map[];
      chargeStartTime := map[];
      chargerOps := [];
      emitted := [];
    }

    /** handleEvent(PersonLeavesVehicleEvent): remember the vehicle. */
    method HandlePersonLeavesVehicle(personId: Id, vehicleId: Id)
      requires Valid()
      modifies this`lastVehicleUsed
      ensures Valid()
      ensures lastVehicleUsed == old(lastVehicleUsed)[personId := vehicleId]
    {
      lastVehicleUsed := lastVehicleUsed[personId := vehicleId];
    }

    /** The electric vehicle a person arrived with, if the last vehicle used is
        one of the fleet. */
    function ArrivedWith(personId: Id): (r: Option<Id>)
      reads this
      ensures r.Some? <==> personId in lastVehicleUsed && lastVehicleUsed[personId] in evIds
      ensures r.Some? ==> r.value == lastVehicleUsed[personId]
    {
      if personId in lastVehicleUsed && lastVehicleUsed[personId] in evIds then Some(lastVehicleUsed[personId])
      else None
    }

    /** handleEvent(ActivityStartEvent). For a person who arrived with an EV:
        on a charging activity, allocate the best charger near the activity (the
        link's coordinate when no activity is found), plug in and open the
        session, or mark the activity as failed; then emit a scoring event. */
    method HandleActivityStart(time: int, personId: Id, eventActType: string, linkCoord: Coord,
                               fleet: map<Id, ElectricVehicle>, chargers: seq<Charger>,
                               dist: (Coord, Coord) -> real)
      requires Valid() && FleetMatches(fleet)
      requires ArrivedWith(personId).Some? && EndsWith(eventActType, ChargingIdentifier) ==> personId in plans
      modifies this`vehiclesAtChargers, this`chargeStartSoc, this`chargeStartTime, this`plans,
               this`chargerOps, this`emitted
      ensures Valid()
      ensures lastVehicleUsed == old(lastVehicleUsed)
      // not an EV user: nothing happens
      ensures ArrivedWith(personId).None? ==>
        && vehiclesAtChargers == old(vehiclesAtChargers) && chargeStartSoc == old(chargeStartSoc)
        && chargeStartTime == old(chargeStartTime) && plans == old(plans)
        && chargerOps == old(chargerOps) && emitted == old(emitted)
      // not a charging activity: only the scoring event
      ensures ArrivedWith(personId).Some? && !EndsWith(eventActType, ChargingIdentifier) ==>
        var b := fleet[ArrivedWith(personId).value].battery;
        && vehiclesAtChargers == old(vehiclesAtChargers) && chargeStartSoc == old(chargeStartSoc)
        && chargeStartTime == old(chargeStartTime) && plans == old(plans) && chargerOps == old(chargerOps)
        && emitted == old(emitted) + [ShortEvent(time, personId, SocFraction(b), 0.0, eventActType, b.startSoc / b.capacity)]
      // a charging activity
      ensures ArrivedWith(personId).Some? && EndsWith(eventActType, ChargingIdentifier) ==>
        var evId := ArrivedWith(personId).value;
        var ev := fleet[evId];
        var plan := old(plans)[personId];
        var found := FirstActivity(plan, time);
        var stopCoord := if found.Some? then plan[found.value].activity.coord else linkCoord;
        var best := FindBestCharger(chargers, stopCoord, ev, parkingSearchRadius, dist);
        if best.Some? then
          && vehiclesAtChargers == old(vehiclesAtChargers)[evId := best.value.id]
          && chargeStartSoc == old(chargeStartSoc)[evId := SocFraction(ev.battery)]
          && chargeStartTime == old(chargeStartTime)[evId := time]
          && plans == old(plans)
          && chargerOps == old(chargerOps) + [AddVehicle(evId, best.value.id, time)]
          && emitted == old(emitted) + [ShortEvent(time, personId, SocFraction(ev.battery),
                                                   dist(stopCoord, best.value.coord), eventActType,
                                                   ev.battery.startSoc / ev.battery.capacity)]
        else
          && vehiclesAtChargers == old(vehiclesAtChargers) && chargeStartSoc == old(chargeStartSoc)
          && chargeStartTime == old(chargeStartTime) && chargerOps == old(chargerOps)
          && (found.Some? ==> plans == old(plans)[personId := MarkFailed(plan, found.value)])
          && (found.None? ==> plans == old(plans))
          && emitted == old(emitted) + [ShortEvent(time, personId, SocFraction(ev.battery), 0.0,
                                                   if found.Some? then plan[found.value].activity.actType + FailedSuffix
                                                   else eventActType,
                                                   ev.battery.startSoc / ev.battery.capacity)]
    {
      if personId in lastVehicleUsed {
        var vehicleId := lastVehicleUsed[personId];
        var evId := vehicleId;
        if evId in fleet {
          var ev := fleet[evId];
          var walkingDistance := 0.0;
          var actType := eventActType;
          if EndsWith(eventActType, ChargingIdentifier) {
            walkingDistance, actType := AllocateCharger(time, personId, evId, ev, eventActType, linkCoord, chargers, dist);
          }
          var soc := ev.battery.soc / ev.battery.capacity;
          var startSoc := ev.battery.startSoc / ev.battery.capacity;
          emitted := emitted + [ShortEvent(time, personId, soc, walkingDistance, actType, startSoc)];
        }
      }
    }

    /** The charging branch of handleEvent(ActivityStartEvent): locate the planned
        activity, pick the nearest eligible charger and open the session there,
        or mark the activity failed. Returns the walking distance and activity
        type the scoring event reports. */
    method AllocateCharger(time: int, personId: Id, evId: Id, ev: ElectricVehicle, eventActType: string,
                           linkCoord: Coord, chargers: seq<Charger>, dist: (Coord, Coord) -> real)
      returns (walkingDistance: real, actType: string)
      requires Valid() && evId in evIds && ev.battery.capacity > 0.0 && personId in plans
      modifies this`vehiclesAtChargers, this`chargeStartSoc, this`chargeStartTime, this`plans, this`chargerOps
      ensures Valid()
      ensures var plan := old(plans)[personId];
        var found := FirstActivity(plan, time);
        var stopCoord := if found.Some? then plan[found.value].activity.coord else linkCoord;
        var best := FindBestCharger(chargers, stopCoord, ev, parkingSearchRadius, dist);
        if best.Some? then
          && vehiclesAtChargers == old(vehiclesAtChargers)[evId := best.value.id]
          && chargeStartSoc == old(chargeStartSoc)[evId := SocFraction(ev.battery)]
          && chargeStartTime == old(chargeStartTime)[evId := time]
          && plans == old(plans)
          && chargerOps == old(chargerOps) + [AddVehicle(evId, best.value.id, time)]
          && walkingDistance == dist(stopCoord, best.value.coord) && actType == eventActType
        else
          && vehiclesAtChargers == old(vehiclesAtChargers) && chargeStartSoc == old(chargeStartSoc)
          && chargeStartTime == old(chargeStartTime) && chargerOps == old(chargerOps)
          && (found.Some? ==> plans == old(plans)[personId := MarkFailed(plan, found.value)])
          && (found.None? ==> plans == old(plans))
          && walkingDistance == 0.0
          && actType == if found.Some? then plan[found.value].activity.actType + FailedSuffix else eventActType
    {
      walkingDistance := 0.0;
      actType := eventActType;
      var plan := plans[personId];
      var activity := GetActivity(plan, time);
      var activityCoord := if activity.Some? then plan[activity.value].activity.coord else linkCoord;
      var selectedCharger := FindBestCharger(chargers, activityCoord, ev, parkingSearchRadius, dist);
      if selectedCharger.Some? {
        chargerOps := chargerOps + [AddVehicle(evId, selectedCharger.value.id, time)];
        vehiclesAtChargers := vehiclesAtChargers[evId := selectedCharger.value.id];
        walkingDistance := dist(activityCoord, selectedCharger.value.coord);
        var socFraction := ev.battery.soc / ev.battery.capacity;
        chargeStartSoc := chargeStartSoc[evId := socFraction];
        chargeStartTime := chargeStartTime[evId := time];
      } else {
        if activity.Some? {
          actType := plan[activity.value].activity.actType + FailedSuffix;
          plans := plans[personId := MarkFailed(plan, activity.value)];
        }
      }
    }

    /** The cost part of handleEvent(ActivityEndEvent): the energy charged since
        the session opened, and a cost-only scoring event when it is positive. */
    method EmitCostEvent(time: int, personId: Id, actType: string, b: Battery,
                         startSocFrac: Option<real>, pricingTime: int)
      requires b.capacity > 0.0
      modifies this`emitted
      ensures var energy := EnergyChargedKWh(startSocFrac, b);
        emitted == old(emitted) + (if energy > 0.0 then [CostEvent(time, personId, actType, b, pricingTime, energy)] else [])
    {
      var energyChargedKWh := 0.0;
      if startSocFrac.Some? {
        var currentSocFrac := b.soc / b.capacity;
        var deltaSocFrac := currentSocFrac - startSocFrac.value;
        if deltaSocFrac > 0.0 {
          var capacityKWh := b.capacity / JoulesPerKWh;
          energyChargedKWh := deltaSocFrac * capacityKWh;
        }
      }
      assert energyChargedKWh == EnergyChargedKWh(startSocFrac, b);
      if energyChargedKWh > 0.0 {
        var chargerType: string;
        if StartsWith(actType, "home") {
          chargerType := "home";
        } else if StartsWith(actType, "work") {
          chargerType := "work";
        } else {
          chargerType := "public";
        }
        assert chargerType == ChargerTypeOf(actType);
        var socFrac := b.soc / b.capacity;
        var startSocForScore := b.startSoc / b.capacity;
        emitted := emitted + [ScoringEvent(time, personId, socFrac, 0.0, actType, startSocForScore,
                                           Some(pricingTime), Some(energyChargedKWh), Some(chargerType), true)];
      }
    }

    /** handleEvent(ActivityEndEvent). When a charging activity ends for a person
        with a last vehicle: close the session of a fleet vehicle, emit a
        cost-only event if energy was charged, and unplug the vehicle from the
        charger it was allocated, if any. */
    method HandleActivityEnd(time: int, personId: Id, actType: string, fleet: map<Id, ElectricVehicle>)
      requires Valid() && FleetMatches(fleet)
      modifies this`vehiclesAtChargers, this`chargeStartSoc, this`chargeStartTime,
               this`chargerOps, this`emitted
      ensures Valid()
      ensures lastVehicleUsed == old(lastVehicleUsed) && plans == old(plans)
      ensures !EndsWith(actType, ChargingIdentifier) || personId !in old(lastVehicleUsed) ==>
        && vehiclesAtChargers == old(vehiclesAtChargers) && chargeStartSoc == old(chargeStartSoc)
        && chargeStartTime == old(chargeStartTime) && chargerOps == old(chargerOps) && emitted == old(emitted)
      ensures EndsWith(actType, ChargingIdentifier) && personId in old(lastVehicleUsed) ==>
        var evId := old(lastVehicleUsed)[personId];
        && vehiclesAtChargers == old(vehiclesAtChargers) - {evId}
        && chargeStartSoc == old(chargeStartSoc) - {evId}
        && chargeStartTime == old(chargeStartTime) - {evId}
        && chargerOps == old(chargerOps)
             + (if evId in old(vehiclesAtChargers) then [RemoveVehicle(evId, old(vehiclesAtChargers)[evId], time)] else [])
        && (evId !in fleet ==> emitted == old(emitted))
        && (evId in fleet ==>
              var b := fleet[evId].battery;
              var startSocFrac := if evId in old(chargeStartSoc) then Some(old(chargeStartSoc)[evId]) else None;
              var energy := EnergyChargedKWh(startSocFrac, b);
              var pricingTime := if evId in old(chargeStartTime) then old(chargeStartTime)[evId] else time;
              emitted == old(emitted)
                + (if energy > 0.0 then [CostEvent(time, personId, actType, b, pricingTime, energy)] else []))
    {
      if EndsWith(actType, ChargingIdentifier) {
        if personId in lastVehicleUsed {
          var vehicleId := lastVehicleUsed[personId];
          var evId := vehicleId;
          if evId in fleet {
            var ev := fleet[evId];
            var startSocFrac: Option<real> := None;
            if evId in chargeStartSoc {
              startSocFrac := Some(chargeStartSoc[evId]);
              chargeStartSoc := chargeStartSoc - {evId};
            }
            var startTime: Option<int> := None;
            if evId in chargeStartTime {
              startTime := Some(chargeStartTime[evId]);
              chargeStartTime := chargeStartTime - {evId};
            }
            var pricingTime := if startTime.Some? then startTime.value else time;
            EmitCostEvent(time, personId, actType, ev.battery, startSocFrac, pricingTime);
          } else {
            // Valid(): a vehicle outside the fleet has no open session
            assert evId !in chargeStartSoc && evId !in chargeStartTime;
            assert chargeStartSoc - {evId} == chargeStartSoc;
            assert chargeStartTime - {evId} == chargeStartTime;
          }
          if evId in vehiclesAtChargers {
            var chargerId := vehiclesAtChargers[evId];
            vehiclesAtChargers := vehiclesAtChargers - {evId};
            chargerOps := chargerOps + [RemoveVehicle(evId, chargerId, time)];
          } else {
            assert vehiclesAtChargers - {evId} == vehiclesAtChargers;
          }
        }
      }
    }
  }
}
