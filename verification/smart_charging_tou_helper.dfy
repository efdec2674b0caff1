/** The time-of-use start-time optimiser (SmartChargingTouHelper.computeOptimalStartTime).
    Times are whole seconds. Math.pow is the parameter `pow`; the stream of values
    Math.random() returns is the parameter `random`, read in call order.

    Costs are stated over a weight per second `w`; the optimiser's weight is
    `Weights(alpha, pow)`, the tariff multiplier raised to alpha. The scan and
    window lemmas hold for any weight. */
module TouSolver {

  import opened CostCurve
  import Config
  import Common

  /** STEP: candidate starts and cost sub-steps are 15 minutes apart. */
  const Step: int := 900

  /** Double.POSITIVE_INFINITY or a finite best cost. */
  datatype Bound = Infinite | Finite(value: real)

  /** `cost + 1e-9 < bestCost`, with exact costs. */
  predicate Cheaper(cost: real, best: Bound) {
    best.Infinite? || cost < best.value
  }

  /** `Math.abs(cost - bestCost) <= 1e-9`, with exact costs. */
  predicate Ties(cost: real, best: Bound) {
    best.Finite? && cost == best.value
  }

  /** The weight the optimiser gives one second at time t: Math.pow(m(t), alpha). */
  function Weights(alpha: real, pow: (real, real) -> real): int -> real {
    t => pow(HourlyCostMultiplier(t), alpha)
  }

  /** The inner loop's sum of w(tt) * min(STEP, end - tt) over the sub-steps
      tt = start, start + STEP, ... below end. */
  function WindowCost(start: int, end: int, w: int -> real): real
    decreases end - start
  {
    if start >= end then 0.0
    else w(start) * (Common.Min(Step, end - start) as real) + WindowCost(start + Step, end, w)
  }

  /** The length of the sub-steps the inner loop weighs, summed. */
  function CoveredSeconds(start: int, end: int): int
    decreases end - start
  {
    if start >= end then 0 else Common.Min(Step, end - start) + CoveredSeconds(start + Step, end)
  }

  /** The sub-step lengths add up to the charging duration: the last one is cut short. */
  lemma {:induction false} SubStepsCoverDuration(start: int, end: int)
    requires start <= end
    ensures CoveredSeconds(start, end) == end - start
    decreases end - start
  {
    if start < end && start + Step < end {
      SubStepsCoverDuration(start + Step, end);
    }
  }

  /** The cost of starting to charge at t for `duration` seconds. */
  function CandidateCost(t: int, duration: int, w: int -> real): real {
    WindowCost(t, t + duration, w)
  }

  /** The k-th candidate start. */
  function Candidate(arrival: int, k: nat): int {
    arrival + k * Step
  }

  /** How many candidates the scan visits: t = arrival, arrival + STEP, ... <= latest. */
  function NumCandidates(arrival: int, latest: int): (n: nat)
    requires arrival <= latest
    ensures n >= 1
    ensures Candidate(arrival, n - 1) <= latest < Candidate(arrival, n)
  {
    (latest - arrival) / Step + 1
  }

  /** Later candidates start later. */
  lemma CandidateOrder(arrival: int, j: nat, k: nat)
    ensures j < k <==> Candidate(arrival, j) < Candidate(arrival, k)
  {
    assert Candidate(arrival, k) - Candidate(arrival, j) == (k - j) * Step;
  }

  /** The scan's variables bestStart, bestCost, nBest, and how many random draws
      the tie rule has consumed. */
  datatype ScanState = ScanState(bestStart: int, bestCost: Bound, nBest: nat, draws: nat)

  /** One iteration of the scan over candidate t of cost `cost`: a strictly cheaper
      candidate takes over and resets the tie count; a tie increments it and takes
      over when the next random draw is below 1 / nBest (reservoir rule). */
  function ScanStep(s: ScanState, t: int, cost: real, random: nat -> real): ScanState {
    if Cheaper(cost, s.bestCost) then ScanState(t, Finite(cost), 1, s.draws)
    else if Ties(cost, s.bestCost) then
      var n := s.nBest + 1;
      ScanState(if random(s.draws) < 1.0 / (n as real) then t else s.bestStart, s.bestCost, n, s.draws + 1)
    else s
  }

  /** The scan's state after its first k candidates. */
  function ScanUpTo(arrival: int, duration: int, k: nat, w: int -> real, random: nat -> real): ScanState
    decreases k
  {
    if k == 0 then ScanState(arrival, Infinite, 0, 0)
    else
      var t := Candidate(arrival, k - 1);
      ScanStep(ScanUpTo(arrival, duration, k - 1, w, random), t, CandidateCost(t, duration, w), random)
  }

  /** The start time chosen and the number of random draws made. */
  datatype Decision = Decision(start: int, draws: nat)

  /** computeOptimalStartTime as a function of its inputs. */
  function OptimalStart(arrival: int, departure: int, duration: int,
                        smartCharging: bool, alpha: real, pBlock: real, isAware: bool,
                        pow: (real, real) -> real, random: nat -> real): Decision
  {
    if !smartCharging || !isAware then Decision(arrival, 0)
    else if duration <= 0 || departure <= arrival + duration then Decision(arrival, 0)
    else
      var n := NumCandidates(arrival, departure - duration);
      var s := ScanUpTo(arrival, duration, n, Weights(alpha, pow), random);
      if pBlock > 0.0 then
        Decision(if random(s.draws) < pBlock then arrival else s.bestStart, s.draws + 1)
      else Decision(s.bestStart, s.draws)
  }

  /** How many of the first k candidates cost exactly c. */
  function CountAtCost(arrival: int, duration: int, k: nat, c: real, w: int -> real): nat
    decreases k
  {
    if k == 0 then 0
    else CountAtCost(arrival, duration, k - 1, c, w)
         + (if CandidateCost(Candidate(arrival, k - 1), duration, w) == c then 1 else 0)
  }

  /** A cost below every scanned candidate's is shared by none of them. */
  lemma {:induction false} NoneAtCheaperCost(arrival: int, duration: int, k: nat, c: real, w: int -> real)
    requires forall j | 0 <= j < k :: c < CandidateCost(Candidate(arrival, j), duration, w)
    ensures CountAtCost(arrival, duration, k, c, w) == 0
    decreases k
  {
    if k > 0 {
      NoneAtCheaperCost(arrival, duration, k - 1, c, w);
    }
  }

  /** What the scan keeps after k >= 1 candidates: bestStart is one of them and
      bestCost is its cost; no candidate seen is cheaper; nBest counts the
      candidates seen at that cost (the size of the tie reservoir). Before any
      candidate, bestCost is infinite and bestStart is the arrival time. */
  lemma {:induction false} ScanInvariant(arrival: int, duration: int, k: nat, w: int -> real, random: nat -> real)
    ensures var s := ScanUpTo(arrival, duration, k, w, random);
      && (k == 0 ==> s.bestCost.Infinite? && s.bestStart == arrival)
      && (k > 0 ==>
            && s.bestCost.Finite?
            && (exists j :: 0 <= j < k && s.bestStart == Candidate(arrival, j))
            && s.bestCost.value == CandidateCost(s.bestStart, duration, w)
            && (forall j | 0 <= j < k :: s.bestCost.value <= CandidateCost(Candidate(arrival, j), duration, w))
            && s.nBest == CountAtCost(arrival, duration, k, s.bestCost.value, w) >= 1)
    decreases k
  {
    if k > 0 {
      ScanInvariant(arrival, duration, k - 1, w, random);
      var prev := ScanUpTo(arrival, duration, k - 1, w, random);
      var t := Candidate(arrival, k - 1);
      var c := CandidateCost(t, duration, w);
      if Cheaper(c, prev.bestCost) {
        NoneAtCheaperCost(arrival, duration, k - 1, c, w);
      }
    }
  }

  /** The first candidate, the arrival time, always becomes the initial best. */
  lemma FirstCandidateIsInitialBest(arrival: int, duration: int, w: int -> real, random: nat -> real)
    ensures ScanUpTo(arrival, duration, 1, w, random)
         == ScanState(arrival, Finite(CandidateCost(arrival, duration, w)), 1, 0)
  {
  }

  /** Smart charging off or a person not aware: start at arrival, no draw. */
  lemma UnawareStartsAtArrival(arrival: int, departure: int, duration: int,
                               smartCharging: bool, alpha: real, pBlock: real, isAware: bool,
                               pow: (real, real) -> real, random: nat -> real)
    requires !smartCharging || !isAware
    ensures OptimalStart(arrival, departure, duration, smartCharging, alpha, pBlock, isAware, pow, random)
         == Decision(arrival, 0)
  {
  }

  /** A non-positive duration or a window too short to hold it: start at arrival. */
  lemma InfeasibleStartsAtArrival(arrival: int, departure: int, duration: int,
                                  smartCharging: bool, alpha: real, pBlock: real, isAware: bool,
                                  pow: (real, real) -> real, random: nat -> real)
    requires duration <= 0 || departure <= arrival + duration
    ensures OptimalStart(arrival, departure, duration, smartCharging, alpha, pBlock, isAware, pow, random).start
         == arrival
  {
  }

  /** The result is the arrival time or a candidate on the 15-minute grid inside
      the feasible window [arrival, departure - duration]. */
  lemma StartWithinWindow(arrival: int, departure: int, duration: int,
                          smartCharging: bool, alpha: real, pBlock: real, isAware: bool,
                          pow: (real, real) -> real, random: nat -> real)
    ensures var r := OptimalStart(arrival, departure, duration, smartCharging, alpha, pBlock, isAware, pow, random).start;
      || r == arrival
      || (0 < duration && arrival < r <= departure - duration && exists j: nat :: r == Candidate(arrival, j))
  {
    if smartCharging && isAware && 0 < duration && arrival + duration < departure {
      var n := NumCandidates(arrival, departure - duration);
      ScanInvariant(arrival, duration, n, Weights(alpha, pow), random);
      var s := ScanUpTo(arrival, duration, n, Weights(alpha, pow), random);
      var j :| 0 <= j < n && s.bestStart == Candidate(arrival, j);
      assert Candidate(arrival, j) <= Candidate(arrival, n - 1);
    }
  }

  /** Unless the coincidence draw blocks, the returned start is no costlier than
      any candidate the scan visited. */
  lemma UnblockedStartIsCheapest(arrival: int, departure: int, duration: int,
                                 alpha: real, pBlock: real,
                                 pow: (real, real) -> real, random: nat -> real, k: nat)
    requires 0 < duration && arrival + duration < departure
    requires k < NumCandidates(arrival, departure - duration)
    requires var s := ScanUpTo(arrival, duration, NumCandidates(arrival, departure - duration), Weights(alpha, pow), random);
      pBlock <= 0.0 || pBlock <= random(s.draws)
    ensures var r := OptimalStart(arrival, departure, duration, true, alpha, pBlock, true, pow, random).start;
      CandidateCost(r, duration, Weights(alpha, pow)) <= CandidateCost(Candidate(arrival, k), duration, Weights(alpha, pow))
  {
    ScanInvariant(arrival, duration, NumCandidates(arrival, departure - duration), Weights(alpha, pow), random);
  }

  /** The coincidence rule: with pBlock > 0 one more draw is made after the scan and
      a draw below pBlock returns the arrival time; with pBlock <= 0 no draw is made
      and the scan's best start is returned. */
  lemma CoincidenceBlocks(arrival: int, departure: int, duration: int,
                          alpha: real, pBlock: real,
                          pow: (real, real) -> real, random: nat -> real)
    requires 0 < duration && arrival + duration < departure
    ensures var s := ScanUpTo(arrival, duration, NumCandidates(arrival, departure - duration), Weights(alpha, pow), random);
      var d := OptimalStart(arrival, departure, duration, true, alpha, pBlock, true, pow, random);
      && (pBlock > 0.0 ==> d.draws == s.draws + 1)
      && (pBlock > 0.0 && random(s.draws) < pBlock ==> d.start == arrival)
      && (pBlock > 0.0 && random(s.draws) >= pBlock ==> d.start == s.bestStart)
      && (pBlock <= 0.0 ==> d == Decision(s.bestStart, s.draws))
  {
  }

  /** The inner loop of computeOptimalStartTime: the price of charging over
      [start, end), integrated in 15-minute sub-steps. */
  method IntegrateWindow(start: int, end: int, alpha: real, pow: (real, real) -> real)
    returns (cost: real)
    ensures cost == WindowCost(start, end, Weights(alpha, pow))
  {
    ghost var w := Weights(alpha, pow);
    cost := 0.0;
    var tt := start;
    while tt < end
      invariant cost + WindowCost(tt, end, w) == WindowCost(start, end, w)
      decreases end - tt
    {
      var m := HourlyCostMultiplier(tt);
      var dt := Common.Min(Step, end - tt);
      assert w(tt) == pow(m, alpha);
      cost := cost + pow(m, alpha) * (dt as real);
      tt := tt + Step;
    }
  }

  /** A window over which the weight is constant costs that weight times its length. */
  lemma {:induction false} WindowCostConstant(start: int, end: int, v: real, w: int -> real)
    requires start <= end
    requires forall s | start <= s < end :: w(s) == v
    ensures WindowCost(start, end, w) == v * ((end - start) as real)
    decreases end - start
  {
    if start < end && start + Step < end {
      WindowCostConstant(start + Step, end, v, w);
    }
  }

  /** Integrating up to a point on the sub-step grid and on from there is the
      same as integrating the whole window. */
  lemma {:induction false} WindowCostSplit(start: int, k: nat, end: int, w: int -> real)
    requires start + k * Step <= end
    ensures WindowCost(start, end, w) == WindowCost(start, start + k * Step, w) + WindowCost(start + k * Step, end, w)
    decreases k
  {
    if k > 0 {
      WindowCostSplit(start + Step, k - 1, end, w);
    }
  }

  /** On the first day the optimiser weighs every second from 08:00 to 10:00 at the
      1.47 rate and every second from 10:00 to 17:00 at the midday rate 0.92. */
  lemma DaytimeWeights(alpha: real, pow: (real, real) -> real)
    ensures forall s | 28800 <= s < 36000 :: Weights(alpha, pow)(s) == pow(1.47, alpha)
    ensures forall s | 36000 <= s < 61200 :: Weights(alpha, pow)(s) == pow(0.92, alpha)
  {
    forall s | 28800 <= s < 36000
      ensures Weights(alpha, pow)(s) == pow(1.47, alpha)
    {
      ConstantOnSpan(28800, 36000, 2, s);
    }
    forall s | 36000 <= s < 61200
      ensures Weights(alpha, pow)(s) == pow(0.92, alpha)
    {
      ConstantOnSpan(36000, 61200, 3, s);
    }
  }

  /** A weight that is `hi` from 08:00 to 10:00 and `lo` from 10:00 to 17:00. */
  ghost predicate MorningThenMidday(w: int -> real, hi: real, lo: real) {
    && (forall s | 28800 <= s < 36000 :: w(s) == hi)
    && (forall s | 36000 <= s < 61200 :: w(s) == lo)
  }

  /** In the worked example below, every candidate from 10:00 on lies wholly in
      the midday bin. */
  lemma MiddayCandidateCost(c: int, w: int -> real, hi: real, lo: real)
    requires MorningThenMidday(w, hi, lo)
    requires 36000 <= c <= 43200
    ensures CandidateCost(c, 7200, w) == 7200.0 * lo
  {
    WindowCostConstant(c, c + 7200, lo, w);
  }

  /** In the worked example below, every earlier candidate spends part of its
      window at the higher morning weight. */
  lemma MorningCandidateCost(j: nat, w: int -> real, hi: real, lo: real)
    requires MorningThenMidday(w, hi, lo) && lo < hi
    requires j < 8
    ensures CandidateCost(Candidate(28800, j), 7200, w) > 7200.0 * lo
  {
    var c := Candidate(28800, j);
    assert c + (8 - j) * Step == 36000;
    WindowCostSplit(c, 8 - j, c + 7200, w);
    WindowCostConstant(c, 36000, hi, w);
    WindowCostConstant(36000, c + 7200, lo, w);
    MixedCostExceedsCheap(CandidateCost(c, 7200, w), WindowCost(c, 36000, w), WindowCost(36000, c + 7200, w),
                          hi, lo, (36000 - c) as real, (c + 7200 - 36000) as real);
  }

  /** A window that spends d > 0 seconds at weight hi and e seconds at a lower
      weight lo costs more than all d + e seconds at lo. */
  lemma MixedCostExceedsCheap(cost: real, morning: real, midday: real, hi: real, lo: real, d: real, e: real)
    requires cost == morning + midday
    requires morning == hi * d && midday == lo * e
    requires lo < hi && 0.0 < d && d + e == 7200.0
    ensures cost > 7200.0 * lo
  {
    assert cost == hi * d + lo * e;
    assert hi * d > lo * d;
    assert cost > lo * d + lo * e;
    assert lo * d + lo * e == lo * (d + e) == lo * 7200.0;
    assert lo * 7200.0 == 7200.0 * lo;
  }

  /** The worked example: arriving at 08:00, leaving at 14:00, needing two hours,
      with no coincidence blocking and a price weight that is lower at the midday
      rate (0.92) than at the 08:00-10:00 rate (1.47). Every candidate from 10:00
      on costs two hours at the midday rate, every earlier one costs more, so the
      chosen start lies between 10:00 and 12:00 and is strictly cheaper than
      starting on arrival. */
  lemma WorkedExampleDefersToMidday(arrival: int, departure: int, duration: int, alpha: real, pBlock: real,
                                    pow: (real, real) -> real, random: nat -> real)
    requires arrival == 28800 && departure == 50400 && duration == 7200
    requires pow(0.92, alpha) < pow(1.47, alpha)
    requires pBlock <= 0.0
    ensures var r := OptimalStart(arrival, departure, duration, true, alpha, pBlock, true, pow, random).start;
      && 36000 <= r <= 43200
      && CandidateCost(r, duration, Weights(alpha, pow)) == 7200.0 * pow(0.92, alpha)
      && CandidateCost(r, duration, Weights(alpha, pow)) < CandidateCost(arrival, duration, Weights(alpha, pow))
  {
    var w := Weights(alpha, pow);
    var hi := pow(1.47, alpha);
    var lo := pow(0.92, alpha);
    DaytimeWeights(alpha, pow);
    assert MorningThenMidday(w, hi, lo);
    var r := OptimalStart(arrival, departure, duration, true, alpha, pBlock, true, pow, random).start;
    var n := NumCandidates(arrival, departure - duration);
    assert n == 17;
    UnblockedStartIsCheapest(arrival, departure, duration, alpha, pBlock, pow, random, 8);
    MiddayCandidateCost(Candidate(arrival, 8), w, hi, lo);
    StartWithinWindow(arrival, departure, duration, true, alpha, pBlock, true, pow, random);
    MorningCandidateCost(0, w, hi, lo);
    if r < 36000 {
      if r != arrival {
        var j: nat :| r == Candidate(arrival, j);
        MorningCandidateCost(j, w, hi, lo);
      }
      assert false;
    }
    MiddayCandidateCost(r, w, hi, lo);
  }

  /** The loop version, as written: scan candidates, integrate each window,
      keep the cheapest with the reservoir tie rule, then apply coincidence. */
  method ComputeOptimalStartTime(arrivalTime: int, departureTime: int, chargingDuration: int,
                                 cfg: Config.UrbanEVConfigGroup, isAware: bool,
                                 pow: (real, real) -> real, random: nat -> real)
    returns (start: int)
    ensures start == OptimalStart(arrivalTime, departureTime, chargingDuration,
                                  cfg.enableSmartCharging, cfg.alphaScaleTemporal,
                                  cfg.coincidenceFactor, isAware, pow, random).start
  {
    if !cfg.enableSmartCharging || !isAware {
      return arrivalTime;
    }
    if chargingDuration <= 0 || departureTime <= arrivalTime + chargingDuration {
      return arrivalTime;
    }
    var latestStart := departureTime - chargingDuration;
    var bestStart := arrivalTime;
    var bestCost: Bound := Infinite;
    var nBest: nat := 0;
    var draws: nat := 0;
    var alphaTemporal := cfg.alphaScaleTemporal;
    ghost var w := Weights(alphaTemporal, pow);
    ghost var n := NumCandidates(arrivalTime, latestStart);
    ghost var k: nat := 0;
    var t := arrivalTime;
    while t <= latestStart
      invariant k <= n && t == Candidate(arrivalTime, k)
      invariant ScanState(bestStart, bestCost, nBest, draws) == ScanUpTo(arrivalTime, chargingDuration, k, w, random)
      decreases latestStart - t
    {
      CandidateOrder(arrivalTime, k, n);
      var cost := IntegrateWindow(t, t + chargingDuration, alphaTemporal, pow);
      if Cheaper(cost, bestCost) {
        bestCost := Finite(cost);
        bestStart := t;
        nBest := 1;
      } else if Ties(cost, bestCost) {
        nBest := nBest + 1;
        if random(draws) < 1.0 / (nBest as real) {
          bestStart := t;
        }
        draws := draws + 1;
      }
      assert cost == CandidateCost(t, chargingDuration, w);
      t := t + Step;
      k := k + 1;
    }
    CandidateOrder(arrivalTime, n - 1, k);
    assert k == n;
    var pBlock := cfg.coincidenceFactor;
    if pBlock > 0.0 {
      var r := random(draws);
      draws := draws + 1;
      if r < pBlock {
        return arrivalTime;
      }
    }
    return bestStart;
  }
}
