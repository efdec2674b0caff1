/** Per-charger occupancy history (ChargerOccupancyHistoryCollector): one
    history per charger, each an insertion-ordered map from event time to the
    number of vehicles plugged in at that time. */
module OccupancyStats {

  import opened Common

  /** OccupancyHistory: the LinkedHashMap as its keys in insertion order plus
      the key-to-count map. */
  class OccupancyHistory {
    var times: seq<int>
    var pluggedVehicleCounts: map<int, nat>

    /** One entry per time, listed once each in insertion order. */
    ghost predicate Valid()
      reads this
    {
      && (forall i, j | 0 <= i < j < |times| :: times[i] != times[j])
      && (forall t | t in times :: t in pluggedVehicleCounts)
      && (forall t | t in pluggedVehicleCounts :: t in times)
    }

    constructor ()
      ensures Valid()
      ensures times == [] && pluggedVehicleCounts == map[]
    {
      times := [];
      pluggedVehicleCounts := map[];
    }

    /** addEntry: put(time, count). A new time is appended to the order; an
        existing time keeps its place and gets the new count. */
    method AddEntry(time: int, plugCount: nat)
      requires Valid()
      modifies this
      ensures Valid()
      ensures pluggedVehicleCounts == old(pluggedVehicleCounts)[time := plugCount]
      ensures time in old(pluggedVehicleCounts) ==> times == old(times)
      ensures time !in old(pluggedVehicleCounts) ==> times == old(times) + [time]
    {
      if time !in pluggedVehicleCounts {
        times := times + [time];
      }
      pluggedVehicleCounts := pluggedVehicleCounts[time := plugCount];
    }
  }

  /** Recording at a time already present overwrites its count and adds no
      entry; recording at a new time adds exactly one. */
  lemma OneEntryPerTime(h: OccupancyHistory, time: int)
    requires h.Valid()
    ensures time in h.pluggedVehicleCounts <==> exists i | 0 <= i < |h.times| :: h.times[i] == time
    ensures |h.times| == |h.pluggedVehicleCounts.Keys|
  {
    if time in h.pluggedVehicleCounts {
      var i :| 0 <= i < |h.times| && h.times[i] == time;
    }
    DistinctSize(h.times, h.pluggedVehicleCounts.Keys);
  }

  /** A duplicate-free sequence has as many elements as the set it lists. */
  lemma {:induction false} DistinctSize(s: seq<int>, keys: set<int>)
    requires forall i, j | 0 <= i < j < |s| :: s[i] != s[j]
    requires forall t | t in s :: t in keys
    requires forall t | t in keys :: t in s
    ensures |s| == |keys|
    decreases |s|
  {
    if s != [] {
      var last := s[|s| - 1];
      var rest := s[..|s| - 1];
      assert forall t | t in rest :: t in keys - {last} by {
        forall t | t in rest ensures t in keys - {last} {
          var i :| 0 <= i < |rest| && rest[i] == t;
          assert s[i] == t && s[|s| - 1] == last;
        }
      }
      assert forall t | t in keys - {last} :: t in rest by {
        forall t | t in keys - {last} ensures t in rest {
          assert t in s;
          var i :| 0 <= i < |s| && s[i] == t;
          assert i != |s| - 1;
          assert rest[i] == t;
        }
      }
      DistinctSize(rest, keys - {last});
    } else {
      assert forall t :: t !in keys;
      assert keys == {};
    }
  }

  class ChargerOccupancyHistoryCollector {
    /** One history per charger of the infrastructure, keyed by charger id. */
    const occupancyHistories: map<Id, OccupancyHistory>

    ghost function Histories(): set<object> {
      set id | id in occupancyHistories :: occupancyHistories[id]
    }

    /** Each charger has its own valid history. */
    ghost predicate Valid()
      reads Histories()
    {
      && (forall id | id in occupancyHistories :: occupancyHistories[id].Valid())
      && (forall a, b | a in occupancyHistories && b in occupancyHistories && a != b ::
            occupancyHistories[a] != occupancyHistories[b])
    }

    /** The constructor: a fresh, empty history for every charger. */
    constructor (chargerIds: seq<Id>)
      ensures Valid()
      ensures occupancyHistories.Keys == set id | id in chargerIds
      ensures forall id | id in occupancyHistories ::
        fresh(occupancyHistories[id])
        && occupancyHistories[id].times == [] && occupancyHistories[id].pluggedVehicleCounts == map[]
    {
      var m: map<Id, OccupancyHistory> := map[];
      for k := 0 to |chargerIds|
        invariant m.Keys == set id | id in chargerIds[..k]
        invariant forall id | id in m :: fresh(m[id]) && m[id].times == [] && m[id].pluggedVehicleCounts == map[]
        invariant forall a, b | a in m && b in m && a != b :: m[a] != m[b]
      {
        if chargerIds[k] !in m {
          var h := new OccupancyHistory();
          m := m[chargerIds[k] := h];
        }
        assert chargerIds[..k + 1] == chargerIds[..k] + [chargerIds[k]];
      }
      assert chargerIds[..|chargerIds|] == chargerIds;
      occupancyHistories := m;
    }

    /** Record the charger's plugged-vehicle count at the event time. */
    method Record(chargerId: Id, time: int, pluggedCount: nat)
      requires Valid() && chargerId in occupancyHistories
      modifies occupancyHistories[chargerId]
      ensures Valid()
      ensures var h := occupancyHistories[chargerId];
        && h.pluggedVehicleCounts == old(h.pluggedVehicleCounts)[time := pluggedCount]
        && h.times == if time in old(h.pluggedVehicleCounts) then old(h.times) else old(h.times) + [time]
      ensures forall id | id in occupancyHistories && id != chargerId ::
        && occupancyHistories[id].times == old(occupancyHistories[id].times)
        && occupancyHistories[id].pluggedVehicleCounts == old(occupancyHistories[id].pluggedVehicleCounts)
    {
      occupancyHistories[chargerId].AddEntry(time, pluggedCount);
    }

    /** handleEvent(UnpluggingEvent). `pluggedCount` is the size of the
        charger logic's plugged-vehicle set at that moment. */
    method HandleUnplugging(chargerId: Id, time: int, pluggedCount: nat)
      requires Valid() && chargerId in occupancyHistories
      modifies occupancyHistories[chargerId]
      ensures Valid()
      ensures var h := occupancyHistories[chargerId];
        && h.pluggedVehicleCounts == old(h.pluggedVehicleCounts)[time := pluggedCount]
        && h.times == if time in old(h.pluggedVehicleCounts) then old(h.times) else old(h.times) + [time]
      ensures forall id | id in occupancyHistories && id != chargerId ::
        && occupancyHistories[id].times == old(occupancyHistories[id].times)
        && occupancyHistories[id].pluggedVehicleCounts == old(occupancyHistories[id].pluggedVehicleCounts)
    {
      Record(chargerId, time, pluggedCount);
    }

    /** handleEvent(ChargingStartEvent), recorded the same way. */
    method HandleChargingStart(chargerId: Id, time: int, pluggedCount: nat)
      requires Valid() && chargerId in occupancyHistories
      modifies occupancyHistories[chargerId]
      ensures Valid()
      ensures var h := occupancyHistories[chargerId];
        && h.pluggedVehicleCounts == old(h.pluggedVehicleCounts)[time := pluggedCount]
        && h.times == if time in old(h.pluggedVehicleCounts) then old(h.times) else old(h.times) + [time]
      ensures forall id | id in occupancyHistories && id != chargerId ::
        && occupancyHistories[id].times == old(occupancyHistories[id].times)
        && occupancyHistories[id].pluggedVehicleCounts == old(occupancyHistories[id].pluggedVehicleCounts)
    {
      Record(chargerId, time, pluggedCount);
    }
  }
}
