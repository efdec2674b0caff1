/** The charging part of a person's score (ChargingBehaviourScoring): a rule table
    over each scoring event, whose applicable components are added to the
    running score and reported to the scores collector. Math.exp is the
    parameter `exp`; the collector is a log of what this scoring function reports. */
module Scoring {

  import opened Common
  import opened ScoringEvents
  import opened ScoringParameters
  import CostCurve

  datatype ScoreComponent =
    | RangeAnxiety
    | EmptyBattery
    | WalkingDistance
    | HomeCharging
    | EnergyBalance
    | ChargingCost

  /** One applied component and the amount added to the score. */
  datatype Component = Component(kind: ScoreComponent, delta: real)

  /** The two collector calls, addScoringComponentValue and addScoringPerson. */
  datatype CollectorEntry =
    | ComponentValue(kind: ScoreComponent, value: real)
    | ScoringPerson(kind: ScoreComponent, personId: Id)

  /** The person attributes the rules read: the parsed "rangeAnxietyThreshold"
      and whether "homeChargerPower" is set. */
  datatype Person = Person(id: Id, rangeAnxietyThreshold: real, hasHomeChargerPower: bool)

  /** An event reaching handleEvent: a scoring event, or any other MATSim event. */
  datatype SimEvent = Scoring(e: ScoringEvent) | Other(eventType: string)

  const ChargingIdentifier: string := " charging"
  const LastActIdentifier: string := " end"
  /** beta of the inverted walking utility. */
  const WalkingBeta: real := 0.005

  /** Range anxiety: only for 0 < soc < threshold, scaled by the shortfall. */
  function RangeAnxietyDelta(p: Parameters, threshold: real, soc: real): Option<real> {
    if 0.0 < soc < threshold then Some(p.marginalUtilityOfRangeAnxietySoc * (threshold - soc) / threshold)
    else None
  }

  /** Empty battery: only at soc exactly 0. */
  function EmptyBatteryDelta(p: Parameters, soc: real): Option<real> {
    if soc == 0.0 then Some(p.utilityOfEmptyBattery) else None
  }

  /** Math.exp, supplied by the caller. */
  function Exp(exp: real -> real, x: real): real { exp(x) }

  /** Walking: for charging activities, mu * (1 - exp(-beta * distance)). */
  function WalkingDelta(p: Parameters, activityType: string, walkingDistance: real, exp: real -> real): Option<real> {
    if Contains(activityType, ChargingIdentifier)
    then Some(p.marginalUtilityOfWalkingM * (1.0 - Exp(exp, -WalkingBeta * walkingDistance)))
    else None
  }

  /** Home charging: for "home charging" by a person with a home charger. */
  function HomeChargingDelta(p: Parameters, activityType: string, hasHomeCharger: bool): Option<real> {
    if activityType == "home" + ChargingIdentifier && hasHomeCharger then Some(p.utilityOfHomeCharging)
    else None
  }

  /** Energy balance: for the last activity (" end"); a charging last activity
      counts as full. A loss against the start soc is scaled by |diff|, a gain
      records 0. */
  function EnergyBalanceDelta(p: Parameters, activityType: string, soc: real, startSoc: real): Option<real> {
    if Contains(activityType, LastActIdentifier) then
      var socAtEnd := if Contains(activityType, ChargingIdentifier) then 1.0 else soc;
      var diff := socAtEnd - startSoc;
      if diff <= 0.0 then Some(p.marginalUtilityOfSocDifference * Abs(diff)) else Some(0.0)
    else None
  }

  function Abs(x: real): real { if x < 0.0 then -x else x }

  /** The switch on the charger type: unknown types cost nothing. */
  function UnitPrice(p: Parameters, chargerType: string): real {
    if chargerType == "home" then p.homeChargingCost
    else if chargerType == "work" then p.workChargingCost
    else if chargerType == "public" then p.publicChargingCost
    else 0.0
  }

  /** Character.toLowerCase on ASCII letters. */
  function ToLowerAscii(c: char): char {
    if 'A' <= c <= 'Z' then (c as int + 32) as char else c
  }

  /** String.equalsIgnoreCase, for ASCII text. */
  predicate EqualsIgnoreCase(a: string, b: string) {
    |a| == |b| && forall i | 0 <= i < |a| :: ToLowerAscii(a[i]) == ToLowerAscii(b[i])
  }

  /** The time-of-use multiplier: for "home" (ignoring case) at the pricing time,
      or the event time when none is given; 1.0 for every other type. */
  function TouMultiplier(e: ScoringEvent, chargerType: string): real {
    if EqualsIgnoreCase("home", chargerType)
    then CostCurve.HourlyCostMultiplier(e.pricingTime.GetOr(e.time))
    else 1.0
  }

  /** The charging cost term: only for a positive energy, a charger type, a
      positive unit price and a non-zero betaMoney * alphaScaleCost. */
  function CostDelta(p: Parameters, e: ScoringEvent): Option<real> {
    if e.energyChargedKWh.Some? && e.energyChargedKWh.value > 0.0 && e.chargerType.Some? then
      var price := UnitPrice(p, e.chargerType.value);
      var effectiveBetaMoney := p.betaMoney * p.alphaScaleCost;
      if price > 0.0 && effectiveBetaMoney != 0.0 then
        Some(effectiveBetaMoney * (e.energyChargedKWh.value * price * TouMultiplier(e, e.chargerType.value)))
      else None
    else None
  }

  /** The component, if the rule applies. */
  function Opt(kind: ScoreComponent, d: Option<real>): seq<Component> {
    if d.Some? then [Component(kind, d.value)] else []
  }

  /** The behavioural components, skipped altogether for cost-only events. */
  function BehaviourComponents(p: Parameters, person: Person, e: ScoringEvent, exp: real -> real): seq<Component> {
    if e.costOnly then []
    else
      Opt(RangeAnxiety, RangeAnxietyDelta(p, person.rangeAnxietyThreshold, e.soc))
      + Opt(EmptyBattery, EmptyBatteryDelta(p, e.soc))
      + Opt(WalkingDistance, WalkingDelta(p, e.activityType, e.walkingDistance, exp))
      + Opt(HomeCharging, HomeChargingDelta(p, e.activityType, person.hasHomeChargerPower))
      + Opt(EnergyBalance, EnergyBalanceDelta(p, e.activityType, e.soc, e.startSoc))
  }

  /** Every component one scoring event applies, in the order the rules run. */
  function Components(p: Parameters, person: Person, e: ScoringEvent, exp: real -> real): seq<Component> {
    BehaviourComponents(p, person, e, exp) + Opt(ChargingCost, CostDelta(p, e))
  }

  /** Sum of the deltas. */
  function Total(cs: seq<Component>): real {
    if cs == [] then 0.0 else Total(cs[..|cs| - 1]) + cs[|cs| - 1].delta
  }

  /** The collector calls for a sequence of components: value, then person. */
  function Entries(cs: seq<Component>, personId: Id): seq<CollectorEntry> {
    if cs == [] then []
    else Entries(cs[..|cs| - 1], personId)
         + [ComponentValue(cs[|cs| - 1].kind, cs[|cs| - 1].delta), ScoringPerson(cs[|cs| - 1].kind, personId)]
  }

  /** The sum of the component values in a collector log. */
  function TotalValue(log: seq<CollectorEntry>): real {
    if log == [] then 0.0
    else TotalValue(log[..|log| - 1]) + (if log[|log| - 1].ComponentValue? then log[|log| - 1].value else 0.0)
  }

  lemma {:induction false} TotalValueAppend(a: seq<CollectorEntry>, b: seq<CollectorEntry>)
    ensures TotalValue(a + b) == TotalValue(a) + TotalValue(b)
    decreases |b|
  {
    if b == [] {
      assert a + b == a;
    } else {
      assert (a + b)[..|a + b| - 1] == a + b[..|b| - 1];
      assert (a + b)[|a + b| - 1] == b[|b| - 1];
      TotalValueAppend(a, b[..|b| - 1]);
    }
  }

  /** The two entries of one component carry its delta once. */
  lemma PairValue(c: Component, personId: Id)
    ensures TotalValue([ComponentValue(c.kind, c.delta), ScoringPerson(c.kind, personId)]) == c.delta
  {
    var pair := [ComponentValue(c.kind, c.delta), ScoringPerson(c.kind, personId)];
    var single := [ComponentValue(c.kind, c.delta)];
    assert pair[..1] == single;
    assert single[..0] == [];
    assert TotalValue(single) == TotalValue([]) + c.delta;
    assert TotalValue(pair) == TotalValue(single) + 0.0;
  }

  /** The values reported to the collector add up to the score increments. */
  lemma {:induction false} EntriesTotal(cs: seq<Component>, personId: Id)
    ensures TotalValue(Entries(cs, personId)) == Total(cs)
    decreases |cs|
  {
    if cs != [] {
      var c := cs[|cs| - 1];
      EntriesTotal(cs[..|cs| - 1], personId);
      TotalValueAppend(Entries(cs[..|cs| - 1], personId), [ComponentValue(c.kind, c.delta), ScoringPerson(c.kind, personId)]);
      PairValue(c, personId);
    }
  }

  class ChargingBehaviourScoring {
    const params: Parameters
    const person: Person
    const exp: real -> real
    var score: real
    /** What this scoring function has reported to the scores collector. */
    var collectorLog: seq<CollectorEntry>

    /** The score is the running sum of the component values reported. */
    ghost predicate Valid()
      reads this
    {
      score == TotalValue(collectorLog)
    }

    constructor (params: Parameters, person: Person, exp: real -> real)
      ensures Valid()
      ensures this.params == params && this.person == person && this.exp == exp
      ensures score == 0.0 && collectorLog == []
    {
      this.params := params;
      this.person := person;
      this.exp := exp;
      score := 0.0;
      collectorLog := [];
    }

    /** Record one applied component. */
    method Apply(kind: ScoreComponent, delta: real, ghost cs: seq<Component>, ghost log0: seq<CollectorEntry>, ghost s0: real)
      requires collectorLog == log0 + Entries(cs, person.id) && score == s0 + Total(cs)
      modifies this`score, this`collectorLog
      ensures collectorLog == log0 + Entries(cs + [Component(kind, delta)], person.id)
      ensures score == s0 + Total(cs + [Component(kind, delta)])
    {
      assert (cs + [Component(kind, delta)])[..|cs|] == cs;
      collectorLog := collectorLog + [ComponentValue(kind, delta), ScoringPerson(kind, person.id)];
      score := score + delta;
    }

    /** handleEvent: only events of type "scoring" are scored. Their applicable
        components are reported and added to the score, in rule order. */
    method HandleEvent(ev: SimEvent)
      requires Valid()
      requires ev.Other? ==> ev.eventType != EventType
      modifies this`score, this`collectorLog
      ensures Valid()
      ensures ev.Other? ==> score == old(score) && collectorLog == old(collectorLog)
      ensures ev.Scoring? ==>
        && collectorLog == old(collectorLog) + Entries(Components(params, person, ev.e, exp), person.id)
        && score == old(score) + Total(Components(params, person, ev.e, exp))
    {
      if ev.Other? {
        return;
      }
      var e := ev.e;
      ghost var log0 := collectorLog;
      ghost var s0 := score;
      ghost var cs: seq<Component> := [];
      var costOnly := e.costOnly;
      if !costOnly {
        ScoreBehaviour(e, log0, s0);
      }
      cs := BehaviourComponents(params, person, e, exp);
      ScoreCost(e, cs, log0, s0);
      cs := cs + Opt(ChargingCost, CostDelta(params, e));
      EntriesTotal(cs, person.id);
      TotalValueAppend(log0, Entries(cs, person.id));
    }

    /** The behavioural rules of handleEvent, run for events that are not
        cost-only, in the source's order. */
    method ScoreBehaviour(e: ScoringEvent, ghost log0: seq<CollectorEntry>, ghost s0: real)
      requires !e.costOnly
      requires collectorLog == log0 && score == s0
      modifies this`score, this`collectorLog
      ensures collectorLog == log0 + Entries(BehaviourComponents(params, person, e, exp), person.id)
      ensures score == s0 + Total(BehaviourComponents(params, person, e, exp))
    {
      ghost var cs: seq<Component> := [];
      ScoreRangeAnxiety(e, cs, log0, s0);
      cs := cs + Opt(RangeAnxiety, RangeAnxietyDelta(params, person.rangeAnxietyThreshold, e.soc));
      ScoreEmptyBattery(e, cs, log0, s0);
      cs := cs + Opt(EmptyBattery, EmptyBatteryDelta(params, e.soc));
      ScoreWalking(e, cs, log0, s0);
      cs := cs + Opt(WalkingDistance, WalkingDelta(params, e.activityType, e.walkingDistance, exp));
      ScoreHomeCharging(e, cs, log0, s0);
      cs := cs + Opt(HomeCharging, HomeChargingDelta(params, e.activityType, person.hasHomeChargerPower));
      ScoreEnergyBalance(e, cs, log0, s0);
      cs := cs + Opt(EnergyBalance, EnergyBalanceDelta(params, e.activityType, e.soc, e.startSoc));
      assert cs == BehaviourComponents(params, person, e, exp);
    }

    /** The range-anxiety rule of handleEvent. */
    method ScoreRangeAnxiety(e: ScoringEvent, ghost cs: seq<Component>, ghost log0: seq<CollectorEntry>, ghost s0: real)
      requires collectorLog == log0 + Entries(cs, person.id) && score == s0 + Total(cs)
      modifies this`score, this`collectorLog
      ensures collectorLog == log0 + Entries(cs + Opt(RangeAnxiety, RangeAnxietyDelta(params, person.rangeAnxietyThreshold, e.soc)), person.id)
      ensures score == s0 + Total(cs + Opt(RangeAnxiety, RangeAnxietyDelta(params, person.rangeAnxietyThreshold, e.soc)))
    {
      var soc := e.soc;
      var threshold := person.rangeAnxietyThreshold;
      if soc > 0.0 && soc < threshold {
        var delta := params.marginalUtilityOfRangeAnxietySoc * (threshold - soc) / threshold;
        assert RangeAnxietyDelta(params, threshold, e.soc).value == delta;
        Apply(RangeAnxiety, delta, cs, log0, s0);
      } else {
        assert cs + Opt(RangeAnxiety, RangeAnxietyDelta(params, threshold, e.soc)) == cs;
      }
    }

    /** The empty-battery rule of handleEvent. */
    method ScoreEmptyBattery(e: ScoringEvent, ghost cs: seq<Component>, ghost log0: seq<CollectorEntry>, ghost s0: real)
      requires collectorLog == log0 + Entries(cs, person.id) && score == s0 + Total(cs)
      modifies this`score, this`collectorLog
      ensures collectorLog == log0 + Entries(cs + Opt(EmptyBattery, EmptyBatteryDelta(params, e.soc)), person.id)
      ensures score == s0 + Total(cs + Opt(EmptyBattery, EmptyBatteryDelta(params, e.soc)))
    {
      var soc := e.soc;
      if soc == 0.0 {
        var delta := params.utilityOfEmptyBattery;
        Apply(EmptyBattery, delta, cs, log0, s0);
      } else {
        assert cs + Opt(EmptyBattery, EmptyBatteryDelta(params, e.soc)) == cs;
      }
    }

    /** The walking rule of handleEvent. */
    method ScoreWalking(e: ScoringEvent, ghost cs: seq<Component>, ghost log0: seq<CollectorEntry>, ghost s0: real)
      requires collectorLog == log0 + Entries(cs, person.id) && score == s0 + Total(cs)
      modifies this`score, this`collectorLog
      ensures collectorLog == log0 + Entries(cs + Opt(WalkingDistance, WalkingDelta(params, e.activityType, e.walkingDistance, exp)), person.id)
      ensures score == s0 + Total(cs + Opt(WalkingDistance, WalkingDelta(params, e.activityType, e.walkingDistance, exp)))
    {
      var walkingDistance := e.walkingDistance;
      if Contains(e.activityType, ChargingIdentifier) {
        var beta := WalkingBeta;
        var delta := params.marginalUtilityOfWalkingM * (1.0 - Exp(exp, -beta * walkingDistance));
        assert WalkingDelta(params, e.activityType, e.walkingDistance, exp).value == delta;
        Apply(WalkingDistance, delta, cs, log0, s0);
      } else {
        assert cs + Opt(WalkingDistance, WalkingDelta(params, e.activityType, e.walkingDistance, exp)) == cs;
      }
    }

    /** The home-charging rule of handleEvent. */
    method ScoreHomeCharging(e: ScoringEvent, ghost cs: seq<Component>, ghost log0: seq<CollectorEntry>, ghost s0: real)
      requires collectorLog == log0 + Entries(cs, person.id) && score == s0 + Total(cs)
      modifies this`score, this`collectorLog
      ensures collectorLog == log0 + Entries(cs + Opt(HomeCharging, HomeChargingDelta(params, e.activityType, person.hasHomeChargerPower)), person.id)
      ensures score == s0 + Total(cs + Opt(HomeCharging, HomeChargingDelta(params, e.activityType, person.hasHomeChargerPower)))
    {
      var hasChargerAtHome := person.hasHomeChargerPower;
      if e.activityType == "home" + ChargingIdentifier && hasChargerAtHome {
        var delta := params.utilityOfHomeCharging;
        assert HomeChargingDelta(params, e.activityType, person.hasHomeChargerPower).value == delta;
        Apply(HomeCharging, delta, cs, log0, s0);
      } else {
        assert cs + Opt(HomeCharging, HomeChargingDelta(params, e.activityType, person.hasHomeChargerPower)) == cs;
      }
    }

    /** The energy-balance rule of handleEvent: a charging last activity counts
        as a full battery. */
    method ScoreEnergyBalance(e: ScoringEvent, ghost cs: seq<Component>, ghost log0: seq<CollectorEntry>, ghost s0: real)
      requires collectorLog == log0 + Entries(cs, person.id) && score == s0 + Total(cs)
      modifies this`score, this`collectorLog
      ensures collectorLog == log0 + Entries(cs + Opt(EnergyBalance, EnergyBalanceDelta(params, e.activityType, e.soc, e.startSoc)), person.id)
      ensures score == s0 + Total(cs + Opt(EnergyBalance, EnergyBalanceDelta(params, e.activityType, e.soc, e.startSoc)))
    {
      var soc := e.soc;
      var activityType := e.activityType;
      if Contains(activityType, LastActIdentifier) {
        if Contains(activityType, ChargingIdentifier) {
          soc := 1.0;
        }
        var socDiff := soc - e.startSoc;
        if socDiff <= 0.0 {
          var delta := params.marginalUtilityOfSocDifference * Abs(socDiff);
          Apply(EnergyBalance, delta, cs, log0, s0);
          assert EnergyBalanceDelta(params, e.activityType, e.soc, e.startSoc).value == delta;
        } else {
          Apply(EnergyBalance, 0.0, cs, log0, s0);
          assert EnergyBalanceDelta(params, e.activityType, e.soc, e.startSoc).value == 0.0;
        }
      } else {
        assert cs + Opt(EnergyBalance, EnergyBalanceDelta(params, e.activityType, e.soc, e.startSoc)) == cs;
      }
    }

    /** The charging-cost rule of handleEvent, run for every scoring event. */
    method ScoreCost(e: ScoringEvent, ghost cs: seq<Component>, ghost log0: seq<CollectorEntry>, ghost s0: real)
      requires collectorLog == log0 + Entries(cs, person.id) && score == s0 + Total(cs)
      modifies this`score, this`collectorLog
      ensures collectorLog == log0 + Entries(cs + Opt(ChargingCost, CostDelta(params, e)), person.id)
      ensures score == s0 + Total(cs + Opt(ChargingCost, CostDelta(params, e)))
    {
      var energyChargedKWh := e.energyChargedKWh;
      var chargerType := e.chargerType;
      if energyChargedKWh.Some? && energyChargedKWh.value > 0.0 && chargerType.Some? {
        var unitPricePerKWh := UnitPrice(params, chargerType.value);
        var effectiveBetaMoney := params.betaMoney * params.alphaScaleCost;
        if unitPricePerKWh > 0.0 && effectiveBetaMoney != 0.0 {
          var touMultiplier := 1.0;
          if EqualsIgnoreCase("home", chargerType.value) {
            var tForPricing := if e.pricingTime.Some? then e.pricingTime.value else e.time;
            touMultiplier := CostCurve.HourlyCostMultiplier(tForPricing);
          }
          var baseChargingCost := energyChargedKWh.value * unitPricePerKWh * touMultiplier;
          var delta := effectiveBetaMoney * baseChargingCost;
          Apply(ChargingCost, delta, cs, log0, s0);
          assert CostDelta(params, e).value == delta;
          return;
        }
      }
      assert cs + Opt(ChargingCost, CostDelta(params, e)) == cs;
    }

    /** getScore: the running sum of every component value reported so far. */
    function GetScore(): (s: real)
      reads this
      requires Valid()
      ensures s == TotalValue(collectorLog)
    {
      score
    }
  }

  /** Some component of `cs` is of the given kind. */
  predicate HasKind(cs: seq<Component>, kind: ScoreComponent) {
    exists c | c in cs :: c.kind == kind
  }

  lemma HasKindAppend(a: seq<Component>, b: seq<Component>, kind: ScoreComponent)
    ensures HasKind(a + b, kind) <==> HasKind(a, kind) || HasKind(b, kind)
  {
    if HasKind(a + b, kind) {
      var c :| c in a + b && c.kind == kind;
      assert c in a || c in b;
    }
    if HasKind(a, kind) {
      var c :| c in a && c.kind == kind;
      assert c in a + b;
    }
    if HasKind(b, kind) {
      var c :| c in b && c.kind == kind;
      assert c in a + b;
    }
  }

  lemma HasKindOpt(k: ScoreComponent, d: Option<real>, kind: ScoreComponent)
    ensures HasKind(Opt(k, d), kind) <==> k == kind && d.Some?
  {
    if d.Some? && k == kind {
      assert Opt(k, d)[0] in Opt(k, d);
    }
  }

  /** The condition under which handleEvent applies each rule. */
  predicate RuleApplies(p: Parameters, person: Person, e: ScoringEvent, kind: ScoreComponent) {
    match kind
    case RangeAnxiety => !e.costOnly && 0.0 < e.soc < person.rangeAnxietyThreshold
    case EmptyBattery => !e.costOnly && e.soc == 0.0
    case WalkingDistance => !e.costOnly && Contains(e.activityType, ChargingIdentifier)
    case HomeCharging => !e.costOnly && e.activityType == "home charging" && person.hasHomeChargerPower
    case EnergyBalance => !e.costOnly && Contains(e.activityType, LastActIdentifier)
    case ChargingCost =>
      && e.energyChargedKWh.Some? && e.energyChargedKWh.value > 0.0
      && e.chargerType.Some? && e.chargerType.value in {"home", "work", "public"}
      && UnitPrice(p, e.chargerType.value) > 0.0 && p.betaMoney * p.alphaScaleCost != 0.0
  }

  /** Only the named rules apply, each exactly under its condition: a cost-only
      event skips all five behavioural rules, the cost rule ignores costOnly and
      unknown charger types. */
  lemma ComponentKinds(p: Parameters, person: Person, e: ScoringEvent, exp: real -> real, kind: ScoreComponent)
    ensures HasKind(Components(p, person, e, exp), kind) <==> RuleApplies(p, person, e, kind)
  {
    var ra := Opt(RangeAnxiety, RangeAnxietyDelta(p, person.rangeAnxietyThreshold, e.soc));
    var eb := Opt(EmptyBattery, EmptyBatteryDelta(p, e.soc));
    var wd := Opt(WalkingDistance, WalkingDelta(p, e.activityType, e.walkingDistance, exp));
    var hc := Opt(HomeCharging, HomeChargingDelta(p, e.activityType, person.hasHomeChargerPower));
    var en := Opt(EnergyBalance, EnergyBalanceDelta(p, e.activityType, e.soc, e.startSoc));
    var co := Opt(ChargingCost, CostDelta(p, e));
    HasKindOpt(ChargingCost, CostDelta(p, e), kind);
    if e.costOnly {
      assert Components(p, person, e, exp) == [] + co;
      HasKindAppend([], co, kind);
    } else {
      HasKindAppend(ra, eb, kind);
      HasKindAppend(ra + eb, wd, kind);
      HasKindAppend(ra + eb + wd, hc, kind);
      HasKindAppend(ra + eb + wd + hc, en, kind);
      HasKindAppend(ra + eb + wd + hc + en, co, kind);
      HasKindOpt(RangeAnxiety, RangeAnxietyDelta(p, person.rangeAnxietyThreshold, e.soc), kind);
      HasKindOpt(EmptyBattery, EmptyBatteryDelta(p, e.soc), kind);
      HasKindOpt(WalkingDistance, WalkingDelta(p, e.activityType, e.walkingDistance, exp), kind);
      HasKindOpt(HomeCharging, HomeChargingDelta(p, e.activityType, person.hasHomeChargerPower), kind);
      HasKindOpt(EnergyBalance, EnergyBalanceDelta(p, e.activityType, e.soc, e.startSoc), kind);
      assert "home" + ChargingIdentifier == "home charging";
    }
  }

  /** With a negative marginal utility the range-anxiety penalty is negative and
      never worse than the utility itself. */
  lemma RangeAnxietyBounded(p: Parameters, threshold: real, soc: real)
    requires RangeAnxietyDelta(p, threshold, soc).Some?
    requires p.marginalUtilityOfRangeAnxietySoc < 0.0
    ensures p.marginalUtilityOfRangeAnxietySoc < RangeAnxietyDelta(p, threshold, soc).value < 0.0
  {
    var mu := p.marginalUtilityOfRangeAnxietySoc;
    var n := mu * (threshold - soc);
    assert n == mu * threshold - mu * soc;
    assert mu * soc < 0.0;
    assert n < 0.0 && n > mu * threshold;
    assert n / threshold > (mu * threshold) / threshold;
  }

  /** A charging last activity counts as full, so its energy balance records 0
      whenever the cycle started below full. */
  lemma ChargingEndCountsAsFull(p: Parameters, activityType: string, soc: real, startSoc: real)
    requires Contains(activityType, LastActIdentifier) && Contains(activityType, ChargingIdentifier)
    requires startSoc < 1.0
    ensures EnergyBalanceDelta(p, activityType, soc, startSoc) == Some(0.0)
  {
  }

  /** The energy-balance penalty is |diff| times the marginal utility, and
      applies only when the soc did not rise. */
  lemma EnergyBalancePenalty(p: Parameters, activityType: string, soc: real, startSoc: real)
    requires Contains(activityType, LastActIdentifier) && !Contains(activityType, ChargingIdentifier)
    ensures soc <= startSoc ==>
      EnergyBalanceDelta(p, activityType, soc, startSoc) == Some(p.marginalUtilityOfSocDifference * (startSoc - soc))
    ensures soc > startSoc ==> EnergyBalanceDelta(p, activityType, soc, startSoc) == Some(0.0)
  {
    if soc <= startSoc {
      assert Abs(soc - startSoc) == startSoc - soc;
      assert EnergyBalanceDelta(p, activityType, soc, startSoc).value == p.marginalUtilityOfSocDifference * (startSoc - soc);
    }
  }

  /** Ignoring case changes nothing among the charger types with a price:
      the time-of-use multiplier applies to "home" and to no other priced type. */
  lemma TouOnlyForHome(chargerType: string)
    requires chargerType in {"home", "work", "public"}
    ensures EqualsIgnoreCase("home", chargerType) <==> chargerType == "home"
  {
    if chargerType == "work" {
      assert ToLowerAscii("home"[0]) != ToLowerAscii(chargerType[0]);
    }
  }

  /** The cost term in closed form: beta * alpha * energy * price * multiplier,
      the multiplier taken at the pricing time (else the event time) for home
      charging and 1.0 for work and public charging. */
  lemma CostTerm(p: Parameters, e: ScoringEvent)
    requires CostDelta(p, e).Some?
    ensures e.chargerType.Some? && e.chargerType.value in {"home", "work", "public"}
    ensures var t := e.chargerType.value;
      var mult := if t == "home" then CostCurve.HourlyCostMultiplier(e.pricingTime.GetOr(e.time)) else 1.0;
      CostDelta(p, e).value == p.betaMoney * p.alphaScaleCost * (e.energyChargedKWh.value * UnitPrice(p, t) * mult)
  {
    TouOnlyForHome(e.chargerType.value);
  }

  /** With a negative betaMoney * alphaScaleCost, charging always lowers the
      score; an unknown charger type is never charged. */
  lemma CostSign(p: Parameters, e: ScoringEvent)
    ensures CostDelta(p, e).Some? && p.betaMoney * p.alphaScaleCost < 0.0 ==> CostDelta(p, e).value < 0.0
    ensures e.chargerType.Some? && e.chargerType.value !in {"home", "work", "public"} ==> CostDelta(p, e).None?
  {
    if CostDelta(p, e).Some? {
      var t := e.chargerType.value;
      var m := TouMultiplier(e, t);
      assert m > 0.0;
      var base := e.energyChargedKWh.value * UnitPrice(p, t) * m;
      assert e.energyChargedKWh.value * UnitPrice(p, t) > 0.0;
      assert base > 0.0;
    }
  }
}
