/** The economy optimiser: for a proposed welcome bonus, daily reward and driver commission, the
    days needed to reach each target with daily rewards only, or with two or five 5 km trips a
    day. The proposal is a dictionary that the calculation fills in place. */
module EconomicOptimization {
  import opened Wrappers
  import EC = EconomicCalculator

  const OptimizationTargets: seq<int> := [10000, 20000, 30000]

  /** The total fare of a 5 km trip at the calculator's rates: 15 + 5 * 3.5. */
  const FiveKmFare: real := 15.0 + 5.0 * 3.5

  datatype TargetDays = TargetDays(dailyOnly: int, with2Trips: int, with5Trips: int)

  /** The days of one target: the ceiling of what is missing over each daily income. */
  function DaysFor(target: int, welcome: real, daily: real, driverEarning: real): TargetDays
    requires daily > 0.0 && driverEarning >= 0.0
  {
    var remaining := target as real - welcome;
    TargetDays(EC.Ceil(remaining / daily),
               EC.Ceil(remaining / (daily + 2.0 * driverEarning)),
               EC.Ceil(remaining / (daily + 5.0 * driverEarning)))
  }

  /** The results dictionary after the first targets have been processed, in order. */
  function Results(targets: seq<int>, welcome: real, daily: real, driverEarning: real): map<int, TargetDays>
    requires daily > 0.0 && driverEarning >= 0.0
  {
    if targets == [] then map[]
    else Results(targets[..|targets| - 1], welcome, daily, driverEarning)
           [targets[|targets| - 1] := DaysFor(targets[|targets| - 1], welcome, daily, driverEarning)]
  }

  /** Every target gets an entry, and the entry is that target's days. */
  lemma {:induction false} ResultsCover(targets: seq<int>, welcome: real, daily: real, driverEarning: real)
    requires daily > 0.0 && driverEarning >= 0.0
    ensures Results(targets, welcome, daily, driverEarning).Keys == set t | t in targets
    ensures forall t :: t in targets ==> Results(targets, welcome, daily, driverEarning)[t] == DaysFor(t, welcome, daily, driverEarning)
  {
    if targets != [] {
      var init := targets[..|targets| - 1];
      ResultsCover(init, welcome, daily, driverEarning);
      assert targets == init + [targets[|targets| - 1]];
    }
  }

  /** Each count is the fewest days whose income covers what is missing. */
  lemma DaysAreFewest(target: int, welcome: real, daily: real, driverEarning: real)
    requires daily > 0.0 && driverEarning >= 0.0
    ensures var d := DaysFor(target, welcome, daily, driverEarning);
      var remaining := target as real - welcome;
      && EC.FewestSteps(d.dailyOnly, daily, remaining)
      && EC.FewestSteps(d.with2Trips, daily + 2.0 * driverEarning, remaining)
      && EC.FewestSteps(d.with5Trips, daily + 5.0 * driverEarning, remaining)
  {
    var d := DaysFor(target, welcome, daily, driverEarning);
    var remaining := target as real - welcome;
    EC.CeilIsFewestSteps(remaining, daily, d.dailyOnly);
    EC.CeilIsFewestSteps(remaining, daily + 2.0 * driverEarning, d.with2Trips);
    EC.CeilIsFewestSteps(remaining, daily + 5.0 * driverEarning, d.with5Trips);
  }

  /** With a target not yet reached, trips never slow the plan down: five trips a day take at
      most as many days as two, and two at most as many as none. */
  lemma TripsShortenThePlan(target: int, welcome: real, daily: real, driverEarning: real)
    requires daily > 0.0 && driverEarning >= 0.0 && target as real >= welcome
    ensures var d := DaysFor(target, welcome, daily, driverEarning);
      d.with5Trips <= d.with2Trips <= d.dailyOnly
  {
    var remaining := target as real - welcome;
    var two, five := daily + 2.0 * driverEarning, daily + 5.0 * driverEarning;
    EC.DivideAntitone(remaining, daily, two);
    EC.DivideAntitone(remaining, two, five);
    EC.CeilMonotone(remaining / two, remaining / daily);
    EC.CeilMonotone(remaining / five, remaining / two);
  }

  /** A proposal: the dictionary passed to calculate_with_config. `results` and
      `taxi5kmDriver` are absent until the calculation adds them. */
  class Proposal {
    var welcomeBonus: real
    var dailyReward: real
    var taxiCommission: real
    var description: string
    var results: Option<map<int, TargetDays>>
    var taxi5kmDriver: Option<real>

    constructor (welcomeBonus: real, dailyReward: real, taxiCommission: real, description: string)
      ensures this.welcomeBonus == welcomeBonus && this.dailyReward == dailyReward
      ensures this.taxiCommission == taxiCommission && this.description == description
      ensures results.None? && taxi5kmDriver.None?
    {
      this.welcomeBonus := welcomeBonus;
      this.dailyReward := dailyReward;
      this.taxiCommission := taxiCommission;
      this.description := description;
      results := None;
      taxi5kmDriver := None;
    }
  }

  /** calculate_with_config: the driver's share of a 5 km fare, then one entry per target; the
      proposal itself gains the results and that share and is returned. */
  method CalculateWithConfig(config: Proposal) returns (r: Proposal)
    requires config.dailyReward > 0.0 && config.taxiCommission >= 0.0
    modifies config
    ensures config.welcomeBonus == old(config.welcomeBonus) && config.dailyReward == old(config.dailyReward)
    ensures config.taxiCommission == old(config.taxiCommission) && config.description == old(config.description)
    ensures r == config
    ensures config.results == Some(Results(OptimizationTargets, config.welcomeBonus, config.dailyReward,
                                           FiveKmFare * config.taxiCommission))
    ensures config.taxi5kmDriver == Some(FiveKmFare * config.taxiCommission)
  {
    var welcome, daily, commission := config.welcomeBonus, config.dailyReward, config.taxiCommission;
    var taxi5kmTotal := 15.0 + 5.0 * 3.5;
    var taxi5kmDriver := taxi5kmTotal * commission;
    var results: map<int, TargetDays> := map[];
    var i := 0;
    while i < |OptimizationTargets|
      invariant 0 <= i <= |OptimizationTargets|
      invariant results == Results(OptimizationTargets[..i], welcome, daily, taxi5kmDriver)
    {
      var target := OptimizationTargets[i];
      var remaining := target as real - welcome;
      var daysDailyOnly := EC.Ceil(remaining / daily);
      var daysWith2Trips := EC.Ceil(remaining / (daily + 2.0 * taxi5kmDriver));
      var daysWith5Trips := EC.Ceil(remaining / (daily + 5.0 * taxi5kmDriver));
      assert OptimizationTargets[..i + 1][..i] == OptimizationTargets[..i];
      results := results[target := TargetDays(daysDailyOnly, daysWith2Trips, daysWith5Trips)];
      i := i + 1;
    }
    assert OptimizationTargets[..i] == OptimizationTargets;
    config.results := Some(results);
    config.taxi5kmDriver := Some(taxi5kmDriver);
    r := config;
  }
}
