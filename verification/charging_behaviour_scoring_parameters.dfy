/** The scoring parameters (ChargingBehaviourScoringParameters): an immutable
    record assembled by a Builder that copies the values once from the
    configuration group. */
module ScoringParameters {

  import Config

  /** The record, fields in declaration order. */
  datatype Parameters = Parameters(
    marginalUtilityOfRangeAnxietySoc: real,
    utilityOfEmptyBattery: real,
    marginalUtilityOfWalkingM: real,
    utilityOfHomeCharging: real,
    marginalUtilityOfSocDifference: real,
    betaMoney: real,
    homeChargingCost: real,
    workChargingCost: real,
    publicChargingCost: real,
    alphaScaleCost: real)

  /** The private constructor: its parameter list puts alphaScaleCost right after
      betaMoney, ahead of the three prices, unlike the field order. */
  function NewParameters(marginalUtilityOfRangeAnxietySoc: real, utilityOfEmptyBattery: real,
                         marginalUtilityOfWalkingM: real, utilityOfHomeCharging: real,
                         marginalUtilityOfSocDifference: real, betaMoney: real, alphaScaleCost: real,
                         homeChargingCost: real, workChargingCost: real, publicChargingCost: real): Parameters
  {
    Parameters(marginalUtilityOfRangeAnxietySoc, utilityOfEmptyBattery, marginalUtilityOfWalkingM,
               utilityOfHomeCharging, marginalUtilityOfSocDifference, betaMoney,
               homeChargingCost, workChargingCost, publicChargingCost, alphaScaleCost)
  }

  /** The Builder's fields, in the Builder's declaration order. */
  datatype Builder = Builder(
    marginalUtilityOfRangeAnxietySoc: real,
    utilityOfEmptyBattery: real,
    marginalUtilityOfWalkingM: real,
    utilityOfHomeCharging: real,
    marginalUtilityOfSocDifference: real,
    betaMoney: real,
    alphaScaleCost: real,
    homeChargingCost: real,
    workChargingCost: real,
    publicChargingCost: real)

  /** Builder(UrbanEVConfigGroup): one getter per Builder field. */
  function BuilderFrom(cfg: Config.UrbanEVConfigGroup): (b: Builder)
    reads cfg
    ensures b.marginalUtilityOfRangeAnxietySoc == cfg.rangeAnxietyUtility
    ensures b.utilityOfEmptyBattery == cfg.emptyBatteryUtility
    ensures b.marginalUtilityOfWalkingM == cfg.walkingUtility
    ensures b.utilityOfHomeCharging == cfg.homeChargingUtility
    ensures b.marginalUtilityOfSocDifference == cfg.socDifferenceUtility
    ensures b.betaMoney == cfg.betaMoney && b.alphaScaleCost == cfg.alphaScaleCost
    ensures b.homeChargingCost == cfg.homeChargingCost
    ensures b.workChargingCost == cfg.workChargingCost
    ensures b.publicChargingCost == cfg.publicChargingCost
  {
    Builder(cfg.rangeAnxietyUtility, cfg.emptyBatteryUtility, cfg.walkingUtility,
            cfg.homeChargingUtility, cfg.socDifferenceUtility,
            cfg.betaMoney, cfg.alphaScaleCost,
            cfg.homeChargingCost, cfg.workChargingCost, cfg.publicChargingCost)
  }

  /** build(): the Builder's values passed positionally to the private constructor. */
  function Build(b: Builder): Parameters {
    NewParameters(b.marginalUtilityOfRangeAnxietySoc, b.utilityOfEmptyBattery, b.marginalUtilityOfWalkingM,
                  b.utilityOfHomeCharging, b.marginalUtilityOfSocDifference,
                  b.betaMoney, b.alphaScaleCost,
                  b.homeChargingCost, b.workChargingCost, b.publicChargingCost)
  }

  /** Building from a configuration lands every value in the field of the same
      name: nothing is swapped by the differing parameter order, in particular
      betaMoney and alphaScaleCost. */
  lemma BuiltFieldsMatchConfig(cfg: Config.UrbanEVConfigGroup)
    ensures var p := Build(BuilderFrom(cfg));
      && p.marginalUtilityOfRangeAnxietySoc == cfg.rangeAnxietyUtility
      && p.utilityOfEmptyBattery == cfg.emptyBatteryUtility
      && p.marginalUtilityOfWalkingM == cfg.walkingUtility
      && p.utilityOfHomeCharging == cfg.homeChargingUtility
      && p.marginalUtilityOfSocDifference == cfg.socDifferenceUtility
      && p.betaMoney == cfg.betaMoney
      && p.alphaScaleCost == cfg.alphaScaleCost
      && p.homeChargingCost == cfg.homeChargingCost
      && p.workChargingCost == cfg.workChargingCost
      && p.publicChargingCost == cfg.publicChargingCost
  {
  }
}
