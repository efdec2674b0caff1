/** The deferred-charging scheduler (SmartChargingScheduler): at most one pending
    plug-in task per vehicle, fired by the first event at or after its start time.
    Times are whole seconds, so "startTime <= now + 1e-3" is "startTime <= now". */
module Scheduling {

  import opened Common

  /** A pending task: plug vehicle evId in at chargerId at startTime. */
  datatype ScheduledCharge = ScheduledCharge(evId: Id, chargerId: Id, startTime: int)

  /** A plug-in performed by the scheduler, as reported to the charging
      handler through onSmartChargePlugged(evId, chargerId, now). */
  datatype Plugging = Plugging(evId: Id, chargerId: Id, time: int)

  /** A task is due at `now` once its start time has come. */
  predicate Due(sc: ScheduledCharge, now: int) {
    sc.startTime <= now
  }

  /** The tasks a handleEvent(now) leaves in place: exactly those not yet due. */
  function Pending(scheduled: map<Id, ScheduledCharge>, now: int): (r: map<Id, ScheduledCharge>)
    ensures r.Keys <= scheduled.Keys
  {
    map ev | ev in scheduled && !Due(scheduled[ev], now) :: scheduled[ev]
  }

  /** The plug-ins a handleEvent(now) performs among the tasks of the vehicles in
      `keys`: a due task whose vehicle is in the fleet and whose charger is in the
      infrastructure. */
  function FiredAmong(scheduled: map<Id, ScheduledCharge>, keys: set<Id>, now: int,
                      fleet: set<Id>, chargers: set<Id>): set<Plugging>
  {
    set ev | ev in keys && ev in scheduled && Due(scheduled[ev], now)
                && scheduled[ev].evId in fleet && scheduled[ev].chargerId in chargers
      :: Plugging(scheduled[ev].evId, scheduled[ev].chargerId, now)
  }

  /** All the plug-ins a handleEvent(now) performs. */
  function Fired(scheduled: map<Id, ScheduledCharge>, now: int, fleet: set<Id>, chargers: set<Id>): set<Plugging> {
    FiredAmong(scheduled, scheduled.Keys, now, fleet, chargers)
  }

  /** The charger-logic calls that go with a sequence of plug-ins, one each, in order. */
  function PlugOps(ps: seq<Plugging>): (ops: seq<ChargerOp>)
    ensures |ops| == |ps|
  {
    if ps == [] then []
    else PlugOps(ps[..|ps| - 1]) + [AddVehicle(ps[|ps| - 1].evId, ps[|ps| - 1].chargerId, ps[|ps| - 1].time)]
  }

  predicate NoDuplicates<T(==)>(s: seq<T>) {
    forall i, j | 0 <= i < j < |s| :: s[i] != s[j]
  }

  /** Well-formed task maps: keyed by the task's own vehicle id, start times clamped. */
  predicate WellKeyed(scheduled: map<Id, ScheduledCharge>) {
    forall ev | ev in scheduled :: scheduled[ev].evId == ev && scheduled[ev].startTime >= 0
  }

  class SmartChargingScheduler {
    /** The pending tasks, at most one per vehicle. */
    var scheduled: map<Id, ScheduledCharge>
    /** The vehicles of the fleet and the chargers of the infrastructure. */
    const fleet: set<Id>
    const chargers: set<Id>
    /** addVehicle calls made on charger logics, in order. */
    var chargerOps: seq<ChargerOp>
    /** onSmartChargePlugged notifications sent to the charging handler, in order. */
    var notifications: seq<Plugging>

    ghost predicate Valid()
      reads this
    {
      WellKeyed(scheduled)
    }

    constructor (fleet: set<Id>, chargers: set<Id>)
      ensures Valid()
      ensures this.fleet == fleet && this.chargers == chargers
      ensures scheduled == map[] && chargerOps == [] && notifications == []
    {
      this.fleet := fleet;
      this.chargers := chargers;
      scheduled := map[];
      chargerOps := [];
      notifications := [];
    }

    /** schedule: store the task with its start clamped to >= 0, replacing any
        earlier task of the same vehicle. */
    method Schedule(evId: Id, chargerId: Id, startTime: int)
      requires Valid()
      modifies this`scheduled
      ensures Valid()
      ensures scheduled == old(scheduled)[evId := ScheduledCharge(evId, chargerId, Max(0, startTime))]
    {
      var clampedStart := Max(0, startTime);
      scheduled := scheduled[evId := ScheduledCharge(evId, chargerId, clampedStart)];
    }

    /** cancelIfScheduled: drop the vehicle's task, if any. */
    method CancelIfScheduled(evId: Id)
      requires Valid()
      modifies this`scheduled
      ensures Valid()
      ensures scheduled == old(scheduled) - {evId}
    {
      if evId in scheduled {
        scheduled := scheduled - {evId};
      }
    }

    /** reset: drop every task. */
    method Reset()
      modifies this`scheduled
      ensures Valid()
      ensures scheduled == map[]
    {
      scheduled := map[];
    }

    /** handleEvent: remove every due task; for each whose vehicle and charger
        exist, plug the vehicle in and notify the handler, in the order the map
        is visited; drop the others silently. */
    method HandleEvent(now: int)
      requires Valid()
      modifies this`scheduled, this`chargerOps, this`notifications
      ensures Valid()
      ensures scheduled == Pending(old(scheduled), now)
      ensures |notifications| >= |old(notifications)|
      ensures notifications[..|old(notifications)|] == old(notifications)
      ensures var added := notifications[|old(notifications)|..];
        && NoDuplicates(added)
        && (forall p :: p in added <==> p in Fired(old(scheduled), now, fleet, chargers))
        && chargerOps == old(chargerOps) + PlugOps(added)
    {
      if scheduled == map[] {
        assert Fired(old(scheduled), now, fleet, chargers) == {};
        return;
      }
      ghost var s0 := scheduled;
      ghost var n0 := notifications;
      ghost var o0 := chargerOps;
      ghost var visited: set<Id> := {};
      var toVisit := scheduled.Keys;
      while toVisit != {}
        invariant toVisit !! visited && toVisit + visited == s0.Keys
        invariant scheduled == Remaining(s0, toVisit, now)
        invariant LogsSoFar(notifications, chargerOps, n0, o0, s0, visited, now, fleet, chargers)
        decreases toVisit
      {
        var ev :| ev in toVisit;
        RemainingStep(s0, toVisit, ev, now);
        var sc := scheduled[ev];
        if sc.startTime <= now && sc.evId in fleet && sc.chargerId in chargers {
          LogsStepFired(notifications, chargerOps, n0, o0, s0, visited, ev, now, fleet, chargers);
          chargerOps := chargerOps + [AddVehicle(sc.evId, sc.chargerId, now)];
          notifications := notifications + [Plugging(sc.evId, sc.chargerId, now)];
        } else {
          LogsStepSkipped(notifications, chargerOps, n0, o0, s0, visited, ev, now, fleet, chargers);
        }
        if sc.startTime <= now {
          scheduled := scheduled - {ev};
        }
        visited := visited + {ev};
        toVisit := toVisit - {ev};
      }
      assert scheduled == Pending(s0, now);
    }
  }

  /** What handleEvent has logged after visiting the vehicles in `visited`:
      the logs it started with, followed by the plug-ins that fire among those
      vehicles, each once, with one addVehicle call per plug-in. */
  ghost predicate LogsSoFar(notes: seq<Plugging>, ops: seq<ChargerOp>, n0: seq<Plugging>, o0: seq<ChargerOp>,
                            s0: map<Id, ScheduledCharge>, visited: set<Id>,
                            now: int, fleet: set<Id>, chargers: set<Id>) {
    && |notes| >= |n0| && notes[..|n0|] == n0
    && Reported(notes[|n0|..], s0, visited, now, fleet, chargers)
    && ops == o0 + PlugOps(notes[|n0|..])
  }

  lemma LogsStepFired(notes: seq<Plugging>, ops: seq<ChargerOp>, n0: seq<Plugging>, o0: seq<ChargerOp>,
                      s0: map<Id, ScheduledCharge>, visited: set<Id>, ev: Id,
                      now: int, fleet: set<Id>, chargers: set<Id>)
    requires WellKeyed(s0) && ev in s0 && ev !in visited
    requires Due(s0[ev], now) && s0[ev].evId in fleet && s0[ev].chargerId in chargers
    requires LogsSoFar(notes, ops, n0, o0, s0, visited, now, fleet, chargers)
    ensures LogsSoFar(notes + [Plugging(s0[ev].evId, s0[ev].chargerId, now)],
                      ops + [AddVehicle(s0[ev].evId, s0[ev].chargerId, now)],
                      n0, o0, s0, visited + {ev}, now, fleet, chargers)
  {
    var p := Plugging(s0[ev].evId, s0[ev].chargerId, now);
    var op := AddVehicle(p.evId, p.chargerId, p.time);
    var before := notes[|n0|..];
    assert (notes + [p])[|n0|..] == before + [p];
    assert (notes + [p])[..|n0|] == n0;
    PlugOpsAppend(before, p);
    assert (o0 + PlugOps(before)) + [op] == o0 + (PlugOps(before) + [op]);
    ReportedAppend(before, p, s0, visited, ev, now, fleet, chargers);
  }

  lemma LogsStepSkipped(notes: seq<Plugging>, ops: seq<ChargerOp>, n0: seq<Plugging>, o0: seq<ChargerOp>,
                        s0: map<Id, ScheduledCharge>, visited: set<Id>, ev: Id,
                        now: int, fleet: set<Id>, chargers: set<Id>)
    requires ev in s0
    requires !(Due(s0[ev], now) && s0[ev].evId in fleet && s0[ev].chargerId in chargers)
    requires LogsSoFar(notes, ops, n0, o0, s0, visited, now, fleet, chargers)
    ensures LogsSoFar(notes, ops, n0, o0, s0, visited + {ev}, now, fleet, chargers)
  {
    FiredAmongStep(s0, visited, ev, now, fleet, chargers);
  }

  /** The tasks left while handleEvent is part-way through its visit: those
      still to visit, and those visited but not due. */
  function Remaining(s0: map<Id, ScheduledCharge>, toVisit: set<Id>, now: int): map<Id, ScheduledCharge> {
    map ev | ev in s0 && (ev in toVisit || !Due(s0[ev], now)) :: s0[ev]
  }

  lemma RemainingStep(s0: map<Id, ScheduledCharge>, toVisit: set<Id>, ev: Id, now: int)
    requires ev in toVisit && ev in s0
    ensures ev in Remaining(s0, toVisit, now) && Remaining(s0, toVisit, now)[ev] == s0[ev]
    ensures Remaining(s0, toVisit - {ev}, now)
         == if Due(s0[ev], now) then Remaining(s0, toVisit, now) - {ev} else Remaining(s0, toVisit, now)
  {
  }

  /** The plug-ins reported so far are duplicate-free, belong to visited
      vehicles, and are exactly those that fire among them. */
  ghost predicate Reported(added: seq<Plugging>, s0: map<Id, ScheduledCharge>, visited: set<Id>,
                           now: int, fleet: set<Id>, chargers: set<Id>) {
    && NoDuplicates(added)
    && (forall p | p in added :: p.evId in visited)
    && (forall p :: p in added <==> p in FiredAmong(s0, visited, now, fleet, chargers))
  }

  /** Visiting one more vehicle adds at most its own plug-in. */
  lemma FiredAmongStep(s0: map<Id, ScheduledCharge>, visited: set<Id>, ev: Id, now: int,
                       fleet: set<Id>, chargers: set<Id>)
    requires ev in s0
    ensures FiredAmong(s0, visited + {ev}, now, fleet, chargers)
         == FiredAmong(s0, visited, now, fleet, chargers)
            + (if Due(s0[ev], now) && s0[ev].evId in fleet && s0[ev].chargerId in chargers
               then {Plugging(s0[ev].evId, s0[ev].chargerId, now)} else {})
  {
  }

  /** One addVehicle call per plug-in, with the same vehicle, charger and time. */
  lemma {:induction false} PlugOpsPairwise(ps: seq<Plugging>, i: nat)
    requires i < |ps|
    ensures PlugOps(ps)[i] == AddVehicle(ps[i].evId, ps[i].chargerId, ps[i].time)
  {
    if i < |ps| - 1 {
      PlugOpsPairwise(ps[..|ps| - 1], i);
    }
  }

  lemma PlugOpsAppend(ps: seq<Plugging>, p: Plugging)
    ensures PlugOps(ps + [p]) == PlugOps(ps) + [AddVehicle(p.evId, p.chargerId, p.time)]
  {
    assert (ps + [p])[..|ps|] == ps;
  }

  lemma ReportedAppend(added: seq<Plugging>, p: Plugging, s0: map<Id, ScheduledCharge>, visited: set<Id>,
                       ev: Id, now: int, fleet: set<Id>, chargers: set<Id>)
    requires WellKeyed(s0)
    requires Reported(added, s0, visited, now, fleet, chargers)
    requires ev in s0 && ev !in visited
    requires Due(s0[ev], now) && s0[ev].evId in fleet && s0[ev].chargerId in chargers
    requires p == Plugging(s0[ev].evId, s0[ev].chargerId, now)
    ensures Reported(added + [p], s0, visited + {ev}, now, fleet, chargers)
  {
    FiredAmongStep(s0, visited, ev, now, fleet, chargers);
  }

  /** Firing is idempotent: once handleEvent(now) has run, a second call at the
      same time finds no due task, fires nothing and removes nothing. */
  lemma SecondCallFiresNothing(scheduled: map<Id, ScheduledCharge>, now: int, fleet: set<Id>, chargers: set<Id>)
    ensures Pending(Pending(scheduled, now), now) == Pending(scheduled, now)
    ensures Fired(Pending(scheduled, now), now, fleet, chargers) == {}
  {
  }

  /** Exactly which plug-ins fire: a due task, its vehicle in the fleet and its
      charger in the infrastructure, reported with the event time. A due task
      whose vehicle or charger is missing fires nothing (and is still removed). */
  lemma FiredExactly(scheduled: map<Id, ScheduledCharge>, now: int, fleet: set<Id>, chargers: set<Id>,
                     ev: Id, chargerId: Id, t: int)
    requires WellKeyed(scheduled)
    ensures Plugging(ev, chargerId, t) in Fired(scheduled, now, fleet, chargers)
        <==> (&& ev in scheduled && Due(scheduled[ev], now) && t == now
              && ev in fleet && chargerId in chargers && scheduled[ev].chargerId == chargerId)
  {
    if Plugging(ev, chargerId, t) in Fired(scheduled, now, fleet, chargers) {
      var k :| k in scheduled && Due(scheduled[k], now) && scheduled[k].evId in fleet
               && scheduled[k].chargerId in chargers
               && Plugging(scheduled[k].evId, scheduled[k].chargerId, now) == Plugging(ev, chargerId, t);
      assert k == ev;
    }
  }

  /** After handleEvent(now) no due task is left, and every task not yet due is
      kept as it was. */
  lemma PendingKeepsOnlyLaterTasks(scheduled: map<Id, ScheduledCharge>, now: int, ev: Id)
    ensures ev in Pending(scheduled, now) <==> ev in scheduled && scheduled[ev].startTime > now
    ensures ev in Pending(scheduled, now) ==> Pending(scheduled, now)[ev] == scheduled[ev]
  {
  }

  /** The scheduler in use: a task scheduled at a negative time is clamped to 0,
      a later schedule replaces an earlier one, and cancelling leaves other
      vehicles' tasks alone. */
  method ScheduleThenCancel(s: SmartChargingScheduler, a: Id, b: Id, c: Id)
    requires s.Valid() && s.scheduled == map[] && a != b
    modifies s
    ensures s.Valid()
    ensures s.scheduled == map[b := ScheduledCharge(b, c, 0)]
  {
    s.Schedule(a, c, 100);
    s.Schedule(b, c, 50);
    s.Schedule(b, c, -7);
    s.CancelIfScheduled(a);
    assert s.scheduled == map[a := ScheduledCharge(a, c, 100), b := ScheduledCharge(b, c, 0)] - {a};
  }
}
