/** The scoring event the charging handler emits and the scoring function consumes
    (ChargingBehaviourScoringEvent): an immutable record, some of whose fields may
    be absent (null), and its attribute map for the events file. */
module ScoringEvents {

  import opened Common

  /** getEventType() of every scoring event. */
  const EventType: string := "scoring"

  /** The record. Times are whole seconds; soc, walking distance and start soc are
      always supplied by the producers in this model, the cost fields may be null. */
  datatype ScoringEvent = ScoringEvent(
    time: int,
    personId: Id,
    soc: real,
    walkingDistance: real,
    activityType: string,
    startSoc: real,
    pricingTime: Option<int>,
    energyChargedKWh: Option<real>,
    chargerType: Option<string>,
    costOnly: bool)

  /** The backward-compatible constructor: no cost information. */
  function ShortEvent(time: int, personId: Id, soc: real, walkingDistance: real,
                      activityType: string, startSoc: real): (e: ScoringEvent)
    ensures e.time == time && e.personId == personId && e.soc == soc
    ensures e.walkingDistance == walkingDistance && e.activityType == activityType && e.startSoc == startSoc
    ensures e.pricingTime == None && e.energyChargedKWh == None && e.chargerType == None
    ensures !e.costOnly
  {
    ScoringEvent(time, personId, soc, walkingDistance, activityType, startSoc, None, None, None, false)
  }

  /** Boolean.toString */
  function BoolString(b: bool): string {
    if b then "true" else "false"
  }

  /** The keys getAttributes always writes. */
  const MandatoryKeys: set<string> := {"soc", "walkingDistance", "activityType", "startSoc", "costOnly"}

  /** getAttributes: start from the attributes of the base event, then put the
      mandatory keys and, for each cost field that is present, its key.
      Double.toString is the parameter `fmt`. */
  method GetAttributes(e: ScoringEvent, base: map<string, string>, fmt: real -> string)
    returns (attributes: map<string, string>)
    ensures attributes.Keys == base.Keys + MandatoryKeys
      + (if e.energyChargedKWh.Some? then {"energyChargedKWh"} else {})
      + (if e.chargerType.Some? then {"chargerType"} else {})
      + (if e.pricingTime.Some? then {"pricingTime"} else {})
    ensures attributes["soc"] == fmt(e.soc)
    ensures attributes["walkingDistance"] == fmt(e.walkingDistance)
    ensures attributes["activityType"] == e.activityType
    ensures attributes["startSoc"] == fmt(e.startSoc)
    ensures attributes["costOnly"] == BoolString(e.costOnly)
    ensures e.energyChargedKWh.Some? ==> attributes["energyChargedKWh"] == fmt(e.energyChargedKWh.value)
    ensures e.chargerType.Some? ==> attributes["chargerType"] == e.chargerType.value
    ensures e.pricingTime.Some? ==> attributes["pricingTime"] == fmt(e.pricingTime.value as real)
    ensures forall k | k in base && k !in MandatoryKeys
                       && (k == "energyChargedKWh" ==> e.energyChargedKWh.None?)
                       && (k == "chargerType" ==> e.chargerType.None?)
                       && (k == "pricingTime" ==> e.pricingTime.None?)
      :: attributes[k] == base[k]
  {
    attributes := base;
    attributes := attributes["soc" := fmt(e.soc)];
    attributes := attributes["walkingDistance" := fmt(e.walkingDistance)];
    attributes := attributes["activityType" := e.activityType];
    attributes := attributes["startSoc" := fmt(e.startSoc)];
    if e.energyChargedKWh.Some? {
      attributes := attributes["energyChargedKWh" := fmt(e.energyChargedKWh.value)];
    }
    if e.chargerType.Some? {
      attributes := attributes["chargerType" := e.chargerType.value];
    }
    if e.pricingTime.Some? {
      attributes := attributes["pricingTime" := fmt(e.pricingTime.value as real)];
    }
    attributes := attributes["costOnly" := BoolString(e.costOnly)];
  }
}
