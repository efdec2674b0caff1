/** Charging-session statistics (ChargerPowerCollector): per vehicle, an active
    log entry opened at charging start, completed at charging end and closed at
    unplugging, when a complete and valid entry is appended to the log list.
    The entries' own complete() and valid() checks are supplied by the caller. */
module PowerStats {

  import opened Common
  import ScoringEvents

  /** ChargingLogEntry as this collector fills it; fields never set are None. */
  datatype LogEntry = LogEntry(
    evId: Id,
    chargerId: Option<Id>,
    startTime: int,
    startSoc: real,
    startSocJ: real,
    endTime: Option<int>,
    endSoc: Option<real>,
    endSocJ: Option<real>,
    chargingDuration: Option<int>,
    transmittedEnergyJ: Option<real>,
    unplugTime: Option<int>,
    pluggedDuration: Option<int>,
    chargingRatio: Option<real>,
    walkingDistance: Option<real>)

  /** A new entry at charging start. */
  function StartEntry(evId: Id, chargerId: Option<Id>, time: int, b: Battery): LogEntry
    requires b.capacity > 0.0
  {
    LogEntry(evId, chargerId, time, SocFraction(b), b.soc,
             None, None, None, None, None, None, None, None, None)
  }

  /** The end fields, with the energy transmitted since the start in joules. */
  function EndEntry(entry: LogEntry, time: int, b: Battery, chargingDuration: int): LogEntry
    requires b.capacity > 0.0
  {
    entry.(endTime := Some(time), endSocJ := Some(b.soc), endSoc := Some(SocFraction(b)),
           chargingDuration := Some(chargingDuration), transmittedEnergyJ := Some(b.soc - entry.startSocJ))
  }

  /** Share of the plugged time spent charging: 0 when the charging duration
      is not positive or exceeds the plugged duration. */
  function ChargingRatio(chargingDuration: int, pluggedDuration: int): real
    requires pluggedDuration > 0
  {
    if chargingDuration <= 0 || chargingDuration > pluggedDuration then 0.0
    else chargingDuration as real / pluggedDuration as real
  }

  /** The ratio always lies in [0, 1]; it is positive exactly when the charging
      duration is positive and fits in the plugged duration, and is 1 exactly
      when the vehicle charged the whole time it was plugged. */
  lemma ChargingRatioBounds(chargingDuration: int, pluggedDuration: int)
    requires pluggedDuration > 0
    ensures 0.0 <= ChargingRatio(chargingDuration, pluggedDuration) <= 1.0
    ensures ChargingRatio(chargingDuration, pluggedDuration) > 0.0 <==> 0 < chargingDuration <= pluggedDuration
    ensures ChargingRatio(chargingDuration, pluggedDuration) == 1.0 <==> chargingDuration == pluggedDuration
  {
    if 0 < chargingDuration <= pluggedDuration {
      var c := chargingDuration as real;
      var p := pluggedDuration as real;
      assert c / p * p == c;
      if c / p > 1.0 {
        assert c / p * p > p;
      }
      if c / p == 1.0 {
        assert c == p;
      }
    }
  }

  /** The entry closed at unplugging, or None when the plugged duration is not
      positive and the entry is dropped. An entry that never saw a charging end
      has a charging duration of 0. */
  function Unplugged(entry: LogEntry, time: int): Option<LogEntry> {
    var pluggedDuration := time - entry.startTime;
    if pluggedDuration <= 0 then None
    else
      Some(entry.(unplugTime := Some(time), pluggedDuration := Some(pluggedDuration),
                  chargingRatio := Some(ChargingRatio(entry.chargingDuration.GetOr(0), pluggedDuration))))
  }

  /** A closed entry was plugged for a positive time, unplugged at the event
      time, and its ratio lies in [0, 1]; nothing before the unplugging changes. */
  lemma UnpluggedMeaning(entry: LogEntry, time: int)
    ensures Unplugged(entry, time).Some? <==> time > entry.startTime
    ensures Unplugged(entry, time).Some? ==>
      var u := Unplugged(entry, time).value;
      && u.unplugTime == Some(time)
      && u.pluggedDuration == Some(time - entry.startTime)
      && u.chargingRatio.Some? && 0.0 <= u.chargingRatio.value <= 1.0
      && u.(unplugTime := None, pluggedDuration := None, chargingRatio := None)
         == entry.(unplugTime := None, pluggedDuration := None, chargingRatio := None)
  {
    if time > entry.startTime {
      ChargingRatioBounds(entry.chargingDuration.GetOr(0), time - entry.startTime);
    }
  }

  class ChargerPowerCollector {
    /** The fleet's vehicle ids; batteries are read from the fleet passed in. */
    const evIds: set<Id>
    /** The infrastructure's charger ids. */
    const chargerIds: set<Id>
    var activeChargingProcesses: map<Id, LogEntry>
    var logList: seq<LogEntry>

    /** Active entries belong to fleet vehicles and are keyed by their vehicle;
        every logged entry was plugged for a positive time with a ratio in [0, 1]. */
    ghost predicate Valid()
      reads this
    {
      && (forall id | id in activeChargingProcesses :: id in evIds && activeChargingProcesses[id].evId == id)
      && WellLogged(logList)
    }

    predicate FleetMatches(fleet: map<Id, ElectricVehicle>)
      reads this
    {
      WellFormedFleet(fleet) && fleet.Keys == evIds
    }

    constructor (evIds: set<Id>, chargerIds: set<Id>)
      ensures Valid()
      ensures this.evIds == evIds && this.chargerIds == chargerIds
      ensures activeChargingProcesses == map[] && logList == []
    {
      this.evIds := evIds;
      this.chargerIds := chargerIds;
      activeChargingProcesses := map[];
      logList := [];
    }

    /** handleEvent(ChargingStartEvent): open (or replace) the vehicle's entry;
        unknown vehicles are ignored. */
    method HandleChargingStart(time: int, vehicleId: Id, chargerId: Id, fleet: map<Id, ElectricVehicle>)
      requires Valid() && FleetMatches(fleet)
      modifies this`activeChargingProcesses
      ensures Valid()
      ensures vehicleId !in fleet ==> activeChargingProcesses == old(activeChargingProcesses)
      ensures vehicleId in fleet ==>
        activeChargingProcesses == old(activeChargingProcesses)[vehicleId :=
          StartEntry(vehicleId, if chargerId in chargerIds then Some(chargerId) else None, time, fleet[vehicleId].battery)]
    {
      if vehicleId !in fleet {
        return;
      }
      var ev := fleet[vehicleId];
      var charger := if chargerId in chargerIds then Some(chargerId) else None;
      var chargingProcess := StartEntry(ev.id, charger, time, ev.battery);
      activeChargingProcesses := activeChargingProcesses[ev.id := chargingProcess];
    }

    /** handleEvent(ChargingEndEvent): fill in the end of the active entry;
        ignored for unknown vehicles and vehicles without an active entry. */
    method HandleChargingEnd(time: int, vehicleId: Id, chargingDuration: int, fleet: map<Id, ElectricVehicle>)
      requires Valid() && FleetMatches(fleet)
      modifies this`activeChargingProcesses
      ensures Valid()
      ensures vehicleId !in fleet || vehicleId !in old(activeChargingProcesses) ==>
        activeChargingProcesses == old(activeChargingProcesses)
      ensures vehicleId in fleet && vehicleId in old(activeChargingProcesses) ==>
        activeChargingProcesses == old(activeChargingProcesses)[vehicleId :=
          EndEntry(old(activeChargingProcesses)[vehicleId], time, fleet[vehicleId].battery, chargingDuration)]
    {
      if vehicleId !in fleet {
        return;
      }
      var ev := fleet[vehicleId];
      if ev.id !in activeChargingProcesses {
        return;
      }
      var chargingProcess := activeChargingProcesses[ev.id];
      chargingProcess := EndEntry(chargingProcess, time, ev.battery, chargingDuration);
      activeChargingProcesses := activeChargingProcesses[ev.id := chargingProcess];
    }

    /** handleEvent(UnpluggingEvent): close the active entry and log it if it
        was plugged for a positive time and is complete and valid. The log list
        only ever grows. */
    method HandleUnplugging(time: int, vehicleId: Id, fleet: map<Id, ElectricVehicle>,
                            complete: LogEntry -> bool, valid: LogEntry -> bool)
      requires Valid() && FleetMatches(fleet)
      modifies this`activeChargingProcesses, this`logList
      ensures Valid()
      ensures old(logList) <= logList && |logList| <= |old(logList)| + 1
      ensures vehicleId !in fleet || vehicleId !in old(activeChargingProcesses) ==>
        activeChargingProcesses == old(activeChargingProcesses) && logList == old(logList)
      ensures vehicleId in fleet && vehicleId in old(activeChargingProcesses) ==>
        var closed := Unplugged(old(activeChargingProcesses)[vehicleId], time);
        && activeChargingProcesses == old(activeChargingProcesses) - {vehicleId}
        && logList == old(logList)
             + (if closed.Some? && complete(closed.value) && valid(closed.value) then [closed.value] else [])
    {
      if vehicleId !in fleet {
        return;
      }
      var ev := fleet[vehicleId];
      if ev.id !in activeChargingProcesses {
        return;
      }
      var chargingProcess := activeChargingProcesses[ev.id];
      activeChargingProcesses := activeChargingProcesses - {ev.id};
      chargingProcess := chargingProcess.(unplugTime := Some(time));
      var startTime := chargingProcess.startTime;
      var unplugTime := time;
      var pluggedDuration := unplugTime - startTime;
      if pluggedDuration <= 0 {
        return;
      }
      chargingProcess := chargingProcess.(pluggedDuration := Some(pluggedDuration));
      var chargingDuration := chargingProcess.chargingDuration.GetOr(0);
      var ratio: real;
      if chargingDuration <= 0 || chargingDuration > pluggedDuration {
        ratio := 0.0;
      } else {
        ratio := chargingDuration as real / pluggedDuration as real;
      }
      chargingProcess := chargingProcess.(chargingRatio := Some(ratio));
      assert Unplugged(old(activeChargingProcesses)[vehicleId], time) == Some(chargingProcess);
      if complete(chargingProcess) && valid(chargingProcess) {
        UnplugKeepsLogWell(logList, old(activeChargingProcesses)[vehicleId], time);
        logList := logList + [chargingProcess];
      }
    }

    /** handleEvent(ChargingBehaviourScoringEvent): record the walking distance
        on the person's vehicle's active entry, if any; never opens one. */
    method HandleScoringEvent(e: ScoringEvents.ScoringEvent)
      requires Valid()
      modifies this`activeChargingProcesses
      ensures Valid()
      ensures activeChargingProcesses.Keys == old(activeChargingProcesses.Keys)
      ensures e.personId in evIds && e.personId in old(activeChargingProcesses) ==>
        activeChargingProcesses == old(activeChargingProcesses)[e.personId :=
          old(activeChargingProcesses)[e.personId].(walkingDistance := Some(e.walkingDistance))]
      ensures e.personId !in evIds || e.personId !in old(activeChargingProcesses) ==>
        activeChargingProcesses == old(activeChargingProcesses)
    {
      var evId := e.personId;
      if evId !in evIds {
        return;
      }
      if evId in activeChargingProcesses {
        var chargingProcess := activeChargingProcesses[evId];
        activeChargingProcesses := activeChargingProcesses[evId := chargingProcess.(walkingDistance := Some(e.walkingDistance))];
      }
    }

    /** getLogList */
    function GetLogList(): (l: seq<LogEntry>)
      reads this
      ensures l == logList
    {
      logList
    }
  }

  /** Every logged entry was closed with a positive plugged duration and a
      charging ratio in [0, 1]. */
  predicate WellLogged(log: seq<LogEntry>) {
    forall i | 0 <= i < |log| ::
      && log[i].pluggedDuration.Some? && log[i].pluggedDuration.value > 0
      && log[i].chargingRatio.Some? && 0.0 <= log[i].chargingRatio.value <= 1.0
  }

  /** Appending an entry closed at unplugging keeps the log well formed. */
  lemma UnplugKeepsLogWell(log: seq<LogEntry>, entry: LogEntry, time: int)
    requires WellLogged(log)
    requires Unplugged(entry, time).Some?
    ensures WellLogged(log + [Unplugged(entry, time).value])
  {
    UnpluggedMeaning(entry, time);
    var l := log + [Unplugged(entry, time).value];
    forall i | 0 <= i < |l|
      ensures l[i].pluggedDuration.Some? && l[i].pluggedDuration.value > 0
      ensures l[i].chargingRatio.Some? && 0.0 <= l[i].chargingRatio.value <= 1.0
    {
      if i < |log| {
        assert l[i] == log[i];
      }
    }
  }
}
