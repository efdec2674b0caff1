/** The time-of-use price curve: a dimensionless multiplier per minute of the day
    (ChargingCostUtils.getHourlyCostMultiplier). */
module CostCurve {

  const SecondsPerMinute: int := 60
  const MinutesPerDay: int := 1440
  const SecondsPerDay: int := 86400

  /** Java's int division of a non-negative divisor: truncates toward zero. */
  function JavaDiv(a: int, b: int): (q: int)
    requires b > 0
    ensures a >= 0 ==> q == a / b
    ensures a < 0 ==> q <= 0
  {
    if a >= 0 then a / b else -((-a) / b)
  }

  /** Java's % for a positive divisor: takes the sign of the dividend. */
  function JavaRem(a: int, b: int): (r: int)
    requires b > 0
    ensures a >= 0 ==> r == a % b
    ensures a < 0 ==> -b < r <= 0
  {
    a - JavaDiv(a, b) * b
  }

  /** ((int) (timeSeconds / 60)) % 1440 for a time given in whole seconds. */
  function MinuteOfDay(t: int): (m: int)
    ensures t >= 0 ==> 0 <= m < MinutesPerDay
    ensures t < 0 ==> -MinutesPerDay < m <= 0
  {
    JavaRem(JavaDiv(t, SecondsPerMinute), MinutesPerDay)
  }

  /** The six multipliers of the tariff, all positive. */
  const Multipliers: set<real> := {0.7, 1.6, 1.47, 0.92, 1.14, 1.0}

  /** The if/else chain of getHourlyCostMultiplier over the minute of the day. */
  function HourlyCostMultiplier(t: int): (m: real)
    ensures m in Multipliers
    ensures m > 0.0
  {
    var minute := MinuteOfDay(t);
    if minute < 360 || minute >= 1320 then 0.7
    else if minute < 480 then 1.6
    else if minute < 600 then 1.47
    else if minute < 1020 then 0.92
    else if minute < 1200 then 1.14
    else 1.0
  }

  /** One bin of the tariff table: minutes [from, to) of the day cost `value`. */
  datatype Bin = Bin(from: int, to: int, value: real)

  /** The tariff as a table of bins that tile the day; the night rate appears twice. */
  const Tariff: seq<Bin> := [
    Bin(0, 360, 0.7),
    Bin(360, 480, 1.6),
    Bin(480, 600, 1.47),
    Bin(600, 1020, 0.92),
    Bin(1020, 1200, 1.14),
    Bin(1200, 1320, 1.0),
    Bin(1320, 1440, 0.7)
  ]

  /** The table tiles [0, 1440): consecutive bins meet and none is empty. */
  lemma TariffTilesTheDay()
    ensures Tariff[0].from == 0 && Tariff[|Tariff| - 1].to == MinutesPerDay
    ensures forall i | 0 <= i < |Tariff| :: Tariff[i].from < Tariff[i].to
    ensures forall i | 0 < i < |Tariff| :: Tariff[i - 1].to == Tariff[i].from
  {
  }

  /** For non-negative times the multiplier is the value of the table bin that
      holds the minute of the day. */
  lemma {:induction false} MultiplierIsTariffBin(t: int, i: nat)
    requires t >= 0
    requires i < |Tariff| && Tariff[i].from <= MinuteOfDay(t) < Tariff[i].to
    ensures HourlyCostMultiplier(t) == Tariff[i].value
  {
    var minute := MinuteOfDay(t);
    assert Tariff[i] == Tariff[i];
    if i == 0 { assert minute < 360; }
    else if i == 1 { assert 360 <= minute < 480; }
    else if i == 2 { assert 480 <= minute < 600; }
    else if i == 3 { assert 600 <= minute < 1020; }
    else if i == 4 { assert 1020 <= minute < 1200; }
    else if i == 5 { assert 1200 <= minute < 1320; }
    else { assert minute >= 1320; }
  }

  /** The result depends only on the whole minute: two non-negative times in
      the same minute get the same multiplier. */
  lemma SameMinuteSameMultiplier(t1: int, t2: int)
    requires 0 <= t1 && 0 <= t2
    requires t1 / SecondsPerMinute == t2 / SecondsPerMinute
    ensures HourlyCostMultiplier(t1) == HourlyCostMultiplier(t2)
  {
    assert MinuteOfDay(t1) == MinuteOfDay(t2);
  }

  /** For non-negative times the curve repeats every day. */
  lemma DailyPeriod(t: int)
    requires t >= 0
    ensures HourlyCostMultiplier(t + SecondsPerDay) == HourlyCostMultiplier(t)
  {
    var q := t / SecondsPerMinute;
    assert (t + SecondsPerDay) / SecondsPerMinute == q + MinutesPerDay;
    assert (q + MinutesPerDay) % MinutesPerDay == q % MinutesPerDay;
    assert MinuteOfDay(t + SecondsPerDay) == MinuteOfDay(t);
  }

  /** Java's truncating % leaves negative times with a minute <= 0, which the
      first test classifies as the night rate. */
  lemma NegativeTimeIsNightRate(t: int)
    requires t < 0
    ensures HourlyCostMultiplier(t) == 0.7
  {
  }

  /** Every non-negative time in [from, to) seconds whose minutes all lie in
      the same tariff bin has that bin's multiplier. */
  lemma ConstantOnSpan(from: int, to: int, i: nat, s: int)
    requires 0 <= from <= s < to
    requires i < |Tariff|
    requires Tariff[i].from * SecondsPerMinute <= from
    requires to <= Tariff[i].to * SecondsPerMinute
    ensures HourlyCostMultiplier(s) == Tariff[i].value
  {
    assert Tariff[i].from <= s / SecondsPerMinute < Tariff[i].to;
    assert s / SecondsPerMinute < MinutesPerDay;
    MultiplierIsTariffBin(s, i);
  }
}
