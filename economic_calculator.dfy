/** The economy calculator: what one taxi trip earns, how many trips reach a sum, and how many
    days of daily rewards and trips reach a target balance. Money is rounded to cents where the
    calculator rounds it. */
module EconomicCalculator {
  import opened Text
  import opened Rounding

  const WelcomeBonus: real := 5000.0
  const DailyReward: real := 250.0
  const TaxiBaseRate: real := 15.0
  const TaxiPerKmRate: real := 3.5
  const DriverCommission: real := 0.75
  const Targets: seq<real> := [10000.0, 20000.0, 30000.0]

  /** math.ceil on a real. */
  function Ceil(x: real): (c: int)
    ensures (c - 1) as real < x <= c as real
  {
    if x.Floor as real == x then x.Floor else x.Floor + 1
  }

  lemma CeilMonotone(x: real, y: real)
    requires x <= y
    ensures Ceil(x) <= Ceil(y)
  {
  }

  /** For a positive step, the ceiling of amount / step is the least whole number of steps
      whose sum reaches the amount. */
  lemma CeilDivIsLeast(amount: real, step: real)
    requires step > 0.0
    ensures Ceil(amount / step) as real * step >= amount
    ensures (Ceil(amount / step) - 1) as real * step < amount
  {
    var q := amount / step;
    var c := Ceil(q);
    assert q * step == amount;
    assert q <= c as real && (c - 1) as real < q;
    MultiplyLe(q, c as real, step);
    MultiplyLt((c - 1) as real, q, step);
    assert c as real * step >= amount;
    assert (c - 1) as real * step < amount;
  }

  /** n steps of the given size reach the amount and n - 1 do not. */
  predicate FewestSteps(n: int, step: real, amount: real) {
    n as real * step >= amount && (n - 1) as real * step < amount
  }

  lemma CeilIsFewestSteps(amount: real, step: real, n: int)
    requires step > 0.0 && n == Ceil(amount / step)
    ensures FewestSteps(n, step, amount)
  {
    CeilDivIsLeast(amount, step);
  }

  lemma MultiplyLe(a: real, b: real, k: real)
    requires a <= b && k >= 0.0
    ensures a * k <= b * k
  {
  }

  lemma MultiplyLt(a: real, b: real, k: real)
    requires a < b && k > 0.0
    ensures a * k < b * k
  {
  }

  /** For a non-negative amount, dividing by a larger positive step gives a smaller quotient. */
  lemma DivideAntitone(amount: real, small: real, large: real)
    requires amount >= 0.0 && 0.0 < small <= large
    ensures amount / large <= amount / small
  {
    var p, q := amount / large, amount / small;
    assert p * large == amount && q * small == amount;
    assert q * large >= q * small by { MultiplyLe(small, large, q); }
    if p > q {
      MultiplyLt(q, p, large);
      assert false;
    }
  }

  datatype Fare = Fare(totalFare: real, driverEarning: real, platformFee: real)

  /** The fare of a trip before the calculator rounds it to cents. */
  function ExactFare(distanceKm: real): (e: Fare)
    ensures e.totalFare == TaxiBaseRate + distanceKm * TaxiPerKmRate
    ensures e.driverEarning == e.totalFare * DriverCommission
    ensures e.driverEarning + e.platformFee == e.totalFare
  {
    var total := TaxiBaseRate + distanceKm * TaxiPerKmRate;
    var driver := total * DriverCommission;
    Fare(total, driver, total - driver)
  }

  /** calculate_taxi_fare: the base rate and the distance rate make the total, the driver keeps
      the commission share and the platform the rest; each figure is rounded to cents. */
  function CalculateTaxiFare(distanceKm: real): (f: Fare)
    ensures f.totalFare == Round2(ExactFare(distanceKm).totalFare)
    ensures f.driverEarning == Round2(ExactFare(distanceKm).driverEarning)
    ensures f.platformFee == Round2(ExactFare(distanceKm).platformFee)
    ensures -0.015 <= f.driverEarning + f.platformFee - f.totalFare <= 0.015
  {
    var e := ExactFare(distanceKm);
    Fare(Round2(e.totalFare), Round2(e.driverEarning), Round2(e.platformFee))
  }

  /** A longer trip earns the driver at least as much, and every trip earns something. */
  lemma DriverEarningGrows(d1: real, d2: real)
    requires 0.0 <= d1 <= d2
    ensures 0.0 < CalculateTaxiFare(d1).driverEarning <= CalculateTaxiFare(d2).driverEarning
  {
    Round2Monotone(ExactFare(d1).driverEarning, ExactFare(d2).driverEarning);
  }

  datatype DistanceRow = DistanceRow(distance: int, totalFare: real, driverEarning: real, tripsFor1000: int, tripsFor5000: int)

  const AnalysedDistances: seq<int> := [1, 2, 5, 10, 15, 20, 30]

  function DistanceRowFor(km: int): (row: DistanceRow)
    requires km >= 0
    ensures row.distance == km && row.driverEarning > 0.0
    ensures row.tripsFor1000 == Ceil(1000.0 / row.driverEarning)
    ensures row.tripsFor5000 == Ceil(5000.0 / row.driverEarning)
  {
    var fare := CalculateTaxiFare(km as real);
    DistanceRow(km, fare.totalFare, fare.driverEarning,
                Ceil(1000.0 / fare.driverEarning), Ceil(5000.0 / fare.driverEarning))
  }

  /** analyze_taxi_distances: one row per analysed distance, keyed "<km>km", in order. */
  function AnalyzeTaxiDistances(): (rows: seq<(string, DistanceRow)>)
    ensures |rows| == |AnalysedDistances|
    ensures forall i :: 0 <= i < |rows| ==>
      rows[i].0 == IntToString(AnalysedDistances[i]) + "km" && rows[i].1 == DistanceRowFor(AnalysedDistances[i])
  {
    seq(|AnalysedDistances|, i requires 0 <= i < |AnalysedDistances| =>
      (IntToString(AnalysedDistances[i]) + "km", DistanceRowFor(AnalysedDistances[i])))
  }

  /** The trip counts of a row are the fewest trips that earn 1000 and 5000, and reaching 5000
      never takes fewer trips than reaching 1000. */
  lemma TripsAreFewestNeeded(row: DistanceRow)
    requires row.driverEarning > 0.0
    requires row.tripsFor1000 == Ceil(1000.0 / row.driverEarning)
    requires row.tripsFor5000 == Ceil(5000.0 / row.driverEarning)
    ensures FewestSteps(row.tripsFor1000, row.driverEarning, 1000.0)
    ensures FewestSteps(row.tripsFor5000, row.driverEarning, 5000.0)
    ensures row.tripsFor1000 <= row.tripsFor5000
  {
    CeilIsFewestSteps(1000.0, row.driverEarning, row.tripsFor1000);
    CeilIsFewestSteps(5000.0, row.driverEarning, row.tripsFor5000);
    MoreStepsForMore(1000.0, 5000.0, row.driverEarning);
  }

  lemma MoreStepsForMore(a: real, b: real, step: real)
    requires a <= b && step > 0.0
    ensures Ceil(a / step) <= Ceil(b / step)
  {
    DivideMonotone(a, b, step);
    CeilMonotone(a / step, b / step);
  }

  lemma DivideMonotone(a: real, b: real, k: real)
    requires a <= b && k > 0.0
    ensures a / k <= b / k
  {
    var p, q := a / k, b / k;
    assert p * k == a && q * k == b;
    if p > q {
      MultiplyLt(q, p, k);
      assert false;
    }
  }

  // ---------------------------------------------------------------- time to target

  const TripsPerDayOptions: seq<int> := [0, 1, 2, 3, 5, 10]

  datatype Scenario = Scenario(tripsPerDay: int, dailyTaxiIncome: real, totalDailyIncome: real, daysNeeded: int,
                               weeksNeeded: real, monthsNeeded: real)

  datatype TargetReport =
    | AlreadyReached(target: real, excess: real)
    | Plan(target: real, remaining: real, startingAmount: real, scenarios: seq<(string, Scenario)>)

  /** The driver earning of an average (5 km) trip, as calculate_taxi_fare returns it: the exact
      24.375 rounded half to even, 24.38. */
  function AverageTripEarning(): (e: real)
    ensures e == 24.38 && ExactFare(5.0).driverEarning == 24.375
  {
    CalculateTaxiFare(5.0).driverEarning
  }

  /** One trips-per-day option: the days are the ceiling of the remaining amount over the day's
      income, the weeks and months the days over 7 and 30 rounded to one decimal. */
  function ScenarioFor(remaining: real, trips: int): (s: Scenario)
    requires trips >= 0
    ensures s.tripsPerDay == trips
    ensures s.dailyTaxiIncome == trips as real * 24.38
    ensures s.totalDailyIncome == DailyReward + trips as real * 24.38 > 0.0
    ensures s.daysNeeded == Ceil(remaining / s.totalDailyIncome)
    ensures -0.05 <= s.weeksNeeded - s.daysNeeded as real / 7.0 <= 0.05
    ensures -0.05 <= s.monthsNeeded - s.daysNeeded as real / 30.0 <= 0.05
  {
    var taxiIncome := trips as real * AverageTripEarning();
    var total := DailyReward + taxiIncome;
    var days := Ceil(remaining / total);
    CentsStayCents(trips);
    Scenario(trips, Round2(taxiIncome), Round2(total), days, Round1(days as real / 7.0), Round1(days as real / 30.0))
  }

  /** One trip a day at 24.38 covers 274.379 in a single day; at the exact 24.375 it would take two. */
  lemma OneTripCoversInOneDay()
    ensures ScenarioFor(274.379, 1).daysNeeded == 1
    ensures Ceil(274.379 / (DailyReward + ExactFare(5.0).driverEarning)) == 2
  {
  }

  /** Incomes built from whole trips at 24.38 are whole cents, so rounding them changes nothing. */
  lemma CentsStayCents(trips: int)
    ensures Round2(trips as real * 24.38) == trips as real * 24.38
    ensures Round2(DailyReward + trips as real * 24.38) == DailyReward + trips as real * 24.38
  {
    Round2OfHundredths(trips * 2438);
    assert (trips * 2438) as real / 100.0 == trips as real * 24.38;
    Round2OfHundredths(25000 + trips * 2438);
    assert (25000 + trips * 2438) as real / 100.0 == DailyReward + trips as real * 24.38;
  }

  /** calculate_time_to_target: a target already covered by the starting amount reports the
      excess; otherwise one scenario per trips-per-day option, keyed "<n>_trips_per_day". */
  function CalculateTimeToTarget(target: real, startingAmount: real): (r: TargetReport)
    ensures target - startingAmount <= 0.0 <==> r.AlreadyReached?
    ensures r.AlreadyReached? ==> r.target == target && r.excess == startingAmount - target
    ensures r.Plan? ==> r.remaining == target - startingAmount && |r.scenarios| == |TripsPerDayOptions|
    ensures r.Plan? ==> forall i :: 0 <= i < |r.scenarios| ==>
      r.scenarios[i].0 == IntToString(TripsPerDayOptions[i]) + "_trips_per_day"
      && r.scenarios[i].1 == ScenarioFor(r.remaining, TripsPerDayOptions[i])
  {
    var remaining := target - startingAmount;
    if remaining <= 0.0 then AlreadyReached(target, if remaining < 0.0 then -remaining else remaining)
    else
      Plan(target, remaining, startingAmount,
           seq(|TripsPerDayOptions|, i requires 0 <= i < |TripsPerDayOptions| =>
             (IntToString(TripsPerDayOptions[i]) + "_trips_per_day", ScenarioFor(remaining, TripsPerDayOptions[i]))))
  }

  /** The days of a scenario are the fewest days whose income covers the remaining amount. */
  lemma DaysNeededIsFewest(remaining: real, trips: int)
    requires trips >= 0
    ensures FewestSteps(ScenarioFor(remaining, trips).daysNeeded, ScenarioFor(remaining, trips).totalDailyIncome, remaining)
  {
    var s := ScenarioFor(remaining, trips);
    CeilIsFewestSteps(remaining, s.totalDailyIncome, s.daysNeeded);
  }

  /** More trips per day never take more days. */
  lemma MoreTripsNeverSlower(remaining: real, fewer: int, more: int)
    requires remaining >= 0.0 && 0 <= fewer <= more
    ensures ScenarioFor(remaining, more).daysNeeded <= ScenarioFor(remaining, fewer).daysNeeded
  {
    var e := 24.38;
    var a, b := ScenarioFor(remaining, fewer).totalDailyIncome, ScenarioFor(remaining, more).totalDailyIncome;
    assert fewer as real * e <= more as real * e by { MultiplyLe(fewer as real, more as real, e); }
    DivideAntitone(remaining, a, b);
    CeilMonotone(remaining / b, remaining / a);
  }

  /** Along the options of a plan the days needed never increase. */
  lemma PlanDaysNonIncreasing(target: real, startingAmount: real, i: int, j: int)
    requires CalculateTimeToTarget(target, startingAmount).Plan?
    requires 0 <= i <= j < |TripsPerDayOptions|
    ensures var s := CalculateTimeToTarget(target, startingAmount).scenarios;
      s[j].1.daysNeeded <= s[i].1.daysNeeded
  {
    var r := CalculateTimeToTarget(target, startingAmount);
    OptionsAscending(i, j);
    assert r.scenarios[i].1 == ScenarioFor(r.remaining, TripsPerDayOptions[i]);
    assert r.scenarios[j].1 == ScenarioFor(r.remaining, TripsPerDayOptions[j]);
    MoreTripsNeverSlower(r.remaining, TripsPerDayOptions[i], TripsPerDayOptions[j]);
  }

  /** The trips-per-day options are listed in ascending order. */
  lemma OptionsAscending(i: int, j: int)
    requires 0 <= i <= j < |TripsPerDayOptions|
    ensures 0 <= TripsPerDayOptions[i] <= TripsPerDayOptions[j]
  {
  }
}
