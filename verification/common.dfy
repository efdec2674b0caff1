/** Shared vocabulary of the model: optional values, identifiers, the Java
    string predicates the charging code relies on, and the simulation's
    vehicles and chargers as seen by the charging core. */
module Common {

  /** Java's nullable references (Double, String, Id) become Option. */
  datatype Option<+T> = None | Some(value: T) {
    function GetOr(default: T): T {
      match this
      case Some(v) => v
      case None => default
    }
  }

  /** MATSim Ids are interned strings; Id.create(x, Other.class) keeps the string. */
  type Id = string

  function Max(a: int, b: int): int { if a >= b then a else b }

  function Min(a: int, b: int): int { if a <= b then a else b }

  /** String.startsWith */
  predicate StartsWith(s: string, prefix: string) {
    prefix <= s
  }

  /** String.endsWith */
  predicate EndsWith(s: string, suffix: string) {
    |suffix| <= |s| && s[|s| - |suffix|..] == suffix
  }

  /** String.contains */
  predicate Contains(s: string, sub: string)
    decreases |s|
  {
    sub <= s || (|s| > 0 && Contains(s[1..], sub))
  }

  /** Planar coordinates of activities and chargers. */
  datatype Coord = Coord(x: real, y: real)

  /** DistanceUtils.calculateSquaredDistance */
  function SquaredDistance(a: Coord, b: Coord): (d: real)
    ensures d >= 0.0
  {
    (a.x - b.x) * (a.x - b.x) + (a.y - b.y) * (a.y - b.y)
  }

  /** Battery readings in the simulation's internal energy unit (joules). */
  datatype Battery = Battery(soc: real, capacity: real, startSoc: real)

  /** An electric vehicle of the fleet: its battery and the charger types it can use. */
  datatype ElectricVehicle = ElectricVehicle(id: Id, battery: Battery, chargerTypes: set<string>)

  /** A charger of the infrastructure, with the number of vehicles its
      (external) charger logic currently holds plugged in. */
  datatype Charger = Charger(
    id: Id,
    coord: Coord,
    chargerType: string,
    plugCount: nat,
    allowedVehicles: set<Id>,
    pluggedCount: nat)

  /** The fleet registry as the core reads it: keyed by vehicle id, every
      battery with a positive capacity (state of charge is soc / capacity). */
  predicate WellFormedFleet(fleet: map<Id, ElectricVehicle>) {
    forall id | id in fleet :: fleet[id].id == id && fleet[id].battery.capacity > 0.0
  }

  /** State of charge as a fraction of capacity: getSoc() / getCapacity(). */
  function SocFraction(b: Battery): real
    requires b.capacity > 0.0
  {
    b.soc / b.capacity
  }

  /** Calls the core makes into the external charger logic, kept in order. */
  datatype ChargerOp =
    | AddVehicle(evId: Id, chargerId: Id, time: int)
    | RemoveVehicle(evId: Id, chargerId: Id, time: int)
}
