/** The urban_ev configuration group (UrbanEVConfigGroup): plain parameters
    with their defaults, three clamping setters and a sanity report. */
module Config {

  import Common

  /** A Java double as a setter may receive it from the configuration file. */
  datatype Double = Finite(v: real) | NaN | PositiveInfinity | NegativeInfinity {
    /** Double.isFinite */
    predicate IsFinite() { Finite? }
  }

  /** Java's `a < b` on doubles: false whenever NaN is involved. */
  predicate JavaLess(a: Double, b: Double) {
    match (a, b)
    case (NaN, _) => false
    case (_, NaN) => false
    case (NegativeInfinity, NegativeInfinity) => false
    case (NegativeInfinity, _) => true
    case (_, PositiveInfinity) => !a.PositiveInfinity?
    case (PositiveInfinity, _) => false
    case (_, NegativeInfinity) => false
    case (Finite(x), Finite(y)) => x < y
  }

  /** Math.min on doubles: NaN if either argument is NaN. */
  function JavaMin(a: Double, b: Double): Double {
    if a.NaN? || b.NaN? then NaN else if JavaLess(b, a) then b else a
  }

  /** Math.max on doubles: NaN if either argument is NaN. */
  function JavaMax(a: Double, b: Double): Double {
    if a.NaN? || b.NaN? then NaN else if JavaLess(a, b) then b else a
  }

  /** What setAwarenessFactor and setCoincidenceFactor store, and whether they warn,
      exactly as written: warn on `v < 0.0 || v > 1.0`, store max(0, min(1, v)). */
  function UnitClampAsWritten(v: Double): (r: (Double, bool))
    ensures v.Finite? ==> r.0.Finite? && 0.0 <= r.0.v <= 1.0
    ensures v.Finite? ==> (r.1 <==> v.v < 0.0 || v.v > 1.0)
  {
    var warned := JavaLess(v, Finite(0.0)) || JavaLess(Finite(1.0), v);
    (JavaMax(Finite(0.0), JavaMin(Finite(1.0), v)), warned)
  }

  /** The setters as written store NaN, outside [0, 1], and do not warn. */
  lemma UnitClampAsWrittenKeepsNaN()
    ensures UnitClampAsWritten(NaN) == (NaN, false)
  {
  }

  /** The clamp the two setters evidently intend: the stored value always lies in
      [0, 1]; a value already in [0, 1] is kept; anything else warns; NaN falls
      back to the field default 0.0. Infinite inputs clamp as in the source. */
  function UnitClamp(v: Double): (r: (real, bool))
    ensures 0.0 <= r.0 <= 1.0
    ensures r.1 <==> !(v.Finite? && 0.0 <= v.v <= 1.0)
    ensures v.Finite? && 0.0 <= v.v <= 1.0 ==> r.0 == v.v
    ensures v.Finite? && v.v < 0.0 ==> r.0 == 0.0
    ensures v.Finite? && v.v > 1.0 ==> r.0 == 1.0
  {
    if v.NaN? then (0.0, true)
    else
      var (stored, warned) := UnitClampAsWritten(v);
      (stored.v, warned)
  }

  /** On every input but NaN the corrected clamp agrees with the source. */
  lemma UnitClampAgreesExceptNaN(v: Double)
    requires !v.NaN?
    ensures UnitClampAsWritten(v) == (Finite(UnitClamp(v).0), UnitClamp(v).1)
  {
  }

  /** setAlphaScaleTemporal: non-finite gives 1.0, below 0 gives 0.0, above 1
      gives 1.0, each with a warning; a value in [0, 1] is kept silently. */
  function AlphaScaleTemporalSetting(v: Double): (r: (real, bool))
    ensures 0.0 <= r.0 <= 1.0
    ensures !v.IsFinite() ==> r == (1.0, true)
    ensures v.Finite? && v.v < 0.0 ==> r == (0.0, true)
    ensures v.Finite? && v.v > 1.0 ==> r == (1.0, true)
    ensures v.Finite? && 0.0 <= v.v <= 1.0 ==> r == (v.v, false)
  {
    if !v.IsFinite() then (1.0, true)
    else if v.v < 0.0 then (0.0, true)
    else if v.v > 1.0 then (1.0, true)
    else (v.v, false)
  }

  class UrbanEVConfigGroup {
    // charger generation
    var generateHomeChargersByPercentage: bool
    var generateWorkChargersByPercentage: bool
    var homeChargerPercentage: real
    var workChargerPercentage: real
    var defaultHomeChargerPower: real
    var defaultWorkChargerPower: real
    // scoring
    var rangeAnxietyUtility: real
    var emptyBatteryUtility: real
    var walkingUtility: real
    var homeChargingUtility: real
    var socDifferenceUtility: real
    var defaultRangeAnxietyThreshold: real
    var vehicleTypesFile: Common.Option<string>
    // charging
    var parkingSearchRadius: int
    // replanning
    var maxNumberSimultaneousPlanChanges: int
    var timeAdjustmentProbability: real
    var maxTimeFlexibility: int
    // charging cost and time of use
    var betaMoney: real
    var homeChargingCost: real
    var workChargingCost: real
    var publicChargingCost: real
    var alphaScaleCost: real
    var alphaScaleTemporal: real
    var enableSmartCharging: bool
    var awarenessFactor: real
    var coincidenceFactor: real

    /** The factors the clamping setters guard stay in [0, 1]. */
    ghost predicate Valid()
      reads this
    {
      && 0.0 <= awarenessFactor <= 1.0
      && 0.0 <= coincidenceFactor <= 1.0
      && 0.0 <= alphaScaleTemporal <= 1.0
    }

    /** The field initialisers. */
    constructor ()
      ensures Valid()
      ensures !generateHomeChargersByPercentage && !generateWorkChargersByPercentage
      ensures homeChargerPercentage == 0.0 && workChargerPercentage == 0.0
      ensures defaultHomeChargerPower == 11.0 && defaultWorkChargerPower == 11.0
      ensures rangeAnxietyUtility == -5.0 && emptyBatteryUtility == -10.0
      ensures walkingUtility == -1.0 && homeChargingUtility == 1.0
      ensures socDifferenceUtility == -10.0 && defaultRangeAnxietyThreshold == 0.2
      ensures vehicleTypesFile == Common.None
      ensures parkingSearchRadius == 500
      ensures maxNumberSimultaneousPlanChanges == 2
      ensures timeAdjustmentProbability == 0.1 && maxTimeFlexibility == 600
      ensures betaMoney == 0.0 && homeChargingCost == 0.0
      ensures workChargingCost == 0.0 && publicChargingCost == 0.0
      ensures alphaScaleCost == 1.0 && alphaScaleTemporal == 1.0
      ensures !enableSmartCharging && awarenessFactor == 0.0 && coincidenceFactor == 0.0
    {
      generateHomeChargersByPercentage := false;
      generateWorkChargersByPercentage := false;
      homeChargerPercentage := 0.0;
      workChargerPercentage := 0.0;
      defaultHomeChargerPower := 11.0;
      defaultWorkChargerPower := 11.0;
      rangeAnxietyUtility := -5.0;
      emptyBatteryUtility := -10.0;
      walkingUtility := -1.0;
      homeChargingUtility := 1.0;
      socDifferenceUtility := -10.0;
      defaultRangeAnxietyThreshold := 0.2;
      vehicleTypesFile := Common.None;
      parkingSearchRadius := 500;
      maxNumberSimultaneousPlanChanges := 2;
      timeAdjustmentProbability := 0.1;
      maxTimeFlexibility := 600;
      betaMoney := 0.0;
      homeChargingCost := 0.0;
      workChargingCost := 0.0;
      publicChargingCost := 0.0;
      alphaScaleCost := 1.0;
      alphaScaleTemporal := 1.0;
      enableSmartCharging := false;
      awarenessFactor := 0.0;
      coincidenceFactor := 0.0;
    }

    /** setAwarenessFactor, with NaN handled as the corrected clamp does. */
    method SetAwarenessFactor(v: Double) returns (warned: bool)
      requires Valid()
      modifies this`awarenessFactor
      ensures Valid()
      ensures (awarenessFactor, warned) == UnitClamp(v)
    {
      var r := UnitClamp(v);
      awarenessFactor := r.0;
      warned := r.1;
    }

    /** setCoincidenceFactor, with NaN handled as the corrected clamp does. */
    method SetCoincidenceFactor(v: Double) returns (warned: bool)
      requires Valid()
      modifies this`coincidenceFactor
      ensures Valid()
      ensures (coincidenceFactor, warned) == UnitClamp(v)
    {
      var r := UnitClamp(v);
      coincidenceFactor := r.0;
      warned := r.1;
    }

    /** setAlphaScaleTemporal */
    method SetAlphaScaleTemporal(v: Double) returns (warned: bool)
      requires Valid()
      modifies this`alphaScaleTemporal
      ensures Valid()
      ensures (alphaScaleTemporal, warned) == AlphaScaleTemporalSetting(v)
    {
      if !v.IsFinite() {
        alphaScaleTemporal := 1.0;
        warned := true;
        return;
      }
      if v.v < 0.0 {
        alphaScaleTemporal := 0.0;
        warned := true;
      } else if v.v > 1.0 {
        alphaScaleTemporal := 1.0;
        warned := true;
      } else {
        alphaScaleTemporal := v.v;
        warned := false;
      }
    }

    /** logIfSuspicious: a warning iff betaMoney is positive, an error iff some
        charging cost is negative; it only reads the configuration. */
    method LogIfSuspicious() returns (warned: bool, errored: bool)
      ensures warned <==> betaMoney > 0.0
      ensures errored <==> homeChargingCost < 0.0 || workChargingCost < 0.0 || publicChargingCost < 0.0
    {
      warned := betaMoney > 0.0;
      errored := homeChargingCost < 0.0 || workChargingCost < 0.0 || publicChargingCost < 0.0;
    }

    // The plain setters store their argument verbatim; each getter is the field read.

    method SetMaxNumberSimultaneousPlanChanges(v: int)
      modifies this`maxNumberSimultaneousPlanChanges
      ensures maxNumberSimultaneousPlanChanges == v
    { maxNumberSimultaneousPlanChanges := v; }

    method SetTimeAdjustmentProbability(v: real)
      modifies this`timeAdjustmentProbability
      ensures timeAdjustmentProbability == v
    { timeAdjustmentProbability := v; }

    method SetMaxTimeFlexibility(v: int)
      modifies this`maxTimeFlexibility
      ensures maxTimeFlexibility == v
    { maxTimeFlexibility := v; }

    method SetRangeAnxietyUtility(v: real)
      modifies this`rangeAnxietyUtility
      ensures rangeAnxietyUtility == v
    { rangeAnxietyUtility := v; }

    method SetEmptyBatteryUtility(v: real)
      modifies this`emptyBatteryUtility
      ensures emptyBatteryUtility == v
    { emptyBatteryUtility := v; }

    method SetWalkingUtility(v: real)
      modifies this`walkingUtility
      ensures walkingUtility == v
    { walkingUtility := v; }

    method SetHomeChargingUtility(v: real)
      modifies this`homeChargingUtility
      ensures homeChargingUtility == v
    { homeChargingUtility := v; }

    method SetSocDifferenceUtility(v: real)
      modifies this`socDifferenceUtility
      ensures socDifferenceUtility == v
    { socDifferenceUtility := v; }

    method SetDefaultRangeAnxietyThreshold(v: real)
      modifies this`defaultRangeAnxietyThreshold
      ensures defaultRangeAnxietyThreshold == v
    { defaultRangeAnxietyThreshold := v; }

    method SetVehicleTypesFile(v: Common.Option<string>)
      modifies this`vehicleTypesFile
      ensures vehicleTypesFile == v
    { vehicleTypesFile := v; }

    method SetParkingSearchRadius(v: int)
      modifies this`parkingSearchRadius
      ensures parkingSearchRadius == v
    { parkingSearchRadius := v; }

    method SetGenerateHomeChargersByPercentage(v: bool)
      modifies this`generateHomeChargersByPercentage
      ensures generateHomeChargersByPercentage == v
    { generateHomeChargersByPercentage := v; }

    method SetGenerateWorkChargersByPercentage(v: bool)
      modifies this`generateWorkChargersByPercentage
      ensures generateWorkChargersByPercentage == v
    { generateWorkChargersByPercentage := v; }

    method SetHomeChargerPercentage(v: real)
      modifies this`homeChargerPercentage
      ensures homeChargerPercentage == v
    { homeChargerPercentage := v; }

    method SetWorkChargerPercentage(v: real)
      modifies this`workChargerPercentage
      ensures workChargerPercentage == v
    { workChargerPercentage := v; }

    method SetDefaultHomeChargerPower(v: real)
      modifies this`defaultHomeChargerPower
      ensures defaultHomeChargerPower == v
    { defaultHomeChargerPower := v; }

    method SetDefaultWorkChargerPower(v: real)
      modifies this`defaultWorkChargerPower
      ensures defaultWorkChargerPower == v
    { defaultWorkChargerPower := v; }

    method SetHomeChargingCost(v: real)
      modifies this`homeChargingCost
      ensures homeChargingCost == v
    { homeChargingCost := v; }

    method SetWorkChargingCost(v: real)
      modifies this`workChargingCost
      ensures workChargingCost == v
    { workChargingCost := v; }

    method SetPublicChargingCost(v: real)
      modifies this`publicChargingCost
      ensures publicChargingCost == v
    { publicChargingCost := v; }

    method SetBetaMoney(v: real)
      modifies this`betaMoney
      ensures betaMoney == v
    { betaMoney := v; }

    method SetAlphaScaleCost(v: real)
      modifies this`alphaScaleCost
      ensures alphaScaleCost == v
    { alphaScaleCost := v; }

    method SetEnableSmartCharging(v: bool)
      modifies this`enableSmartCharging
      ensures enableSmartCharging == v
    { enableSmartCharging := v; }
  }

  /** A client: from the defaults, any mix of clamping setter calls (here one of
      each, on hostile inputs) leaves the three factors in [0, 1]. */
  method ClampedFactorsStayInUnitInterval(a: Double, c: Double, t: Double)
    returns (cfg: UrbanEVConfigGroup)
    ensures 0.0 <= cfg.awarenessFactor <= 1.0
    ensures 0.0 <= cfg.coincidenceFactor <= 1.0
    ensures 0.0 <= cfg.alphaScaleTemporal <= 1.0
  {
    cfg := new UrbanEVConfigGroup();
    var _ := cfg.SetAwarenessFactor(a);
    var _ := cfg.SetCoincidenceFactor(c);
    var _ := cfg.SetAlphaScaleTemporal(t);
    var _ := cfg.SetCoincidenceFactor(NaN);
  }
}
