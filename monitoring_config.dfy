/**
 * The tiered monitoring strategy of `monitoring_config.py`: risk-score
 * bands that decide how often an address is checked, and the daily request
 * budget they add up to.
 */
module MonitoringConfig {
  import opened Wrappers

  datatype MonitoringTier = MonitoringTier(
    name: string, riskScoreMin: real, riskScoreMax: Option<real>, maxAddresses: int, checkIntervalMinutes: int)

  datatype ApiLimits = ApiLimits(requestsPerDay: int, requestsPerHour: int, requestsPerSecond: real)

  datatype MonitoringStrategy = MonitoringStrategy(name: string, apiLimits: ApiLimits, monitoringTiers: seq<MonitoringTier>)

  /** The strategy built with every default. */
  function DefaultStrategy(): MonitoringStrategy
  {
    MonitoringStrategy(
      "tiered_risk_based",
      ApiLimits(1000, 100, 3.0),
      [MonitoringTier("critical", 95.0, None, 50, 60),
       MonitoringTier("high", 80.0, Some(94.0), 200, 240),
       MonitoringTier("medium", 60.0, Some(79.0), 600, 1440)])
  }

  // ----- Tier selection -----

  /** The score lies in the tier's band: at least its minimum and, when it has a maximum, at most that. */
  predicate InTier(tier: MonitoringTier, score: real)
  {
    score >= tier.riskScoreMin && (tier.riskScoreMax.None? || score <= tier.riskScoreMax.value)
  }

  /** The first tier, in list order, whose band holds the score. */
  function FirstTier(tiers: seq<MonitoringTier>, score: real): Option<MonitoringTier>
  {
    if tiers == [] then None
    else if InTier(tiers[0], score) then Some(tiers[0])
    else FirstTier(tiers[1..], score)
  }

  /** `FirstTier` finds a tier exactly when some band holds the score, and then the earliest such tier. */
  lemma {:induction false} FirstTierIff(tiers: seq<MonitoringTier>, score: real)
    ensures FirstTier(tiers, score).None? <==> forall i :: 0 <= i < |tiers| ==> !InTier(tiers[i], score)
    ensures FirstTier(tiers, score).Some? ==>
      exists i :: 0 <= i < |tiers| && tiers[i] == FirstTier(tiers, score).value && InTier(tiers[i], score) &&
        forall j :: 0 <= j < i ==> !InTier(tiers[j], score)
  {
    if tiers != [] && !InTier(tiers[0], score) {
      FirstTierIff(tiers[1..], score);
      if FirstTier(tiers[1..], score).Some? {
        var i :| 0 <= i < |tiers[1..]| && tiers[1..][i] == FirstTier(tiers[1..], score).value &&
          InTier(tiers[1..][i], score) && forall j :: 0 <= j < i ==> !InTier(tiers[1..][j], score);
        assert tiers[i + 1] == tiers[1..][i];
        forall j | 0 <= j < i + 1 ensures !InTier(tiers[j], score) {
          if j > 0 {
            assert tiers[j] == tiers[1..][j - 1];
          }
        }
      } else {
        forall i | 0 <= i < |tiers| ensures !InTier(tiers[i], score) {
          if i > 0 {
            assert tiers[i] == tiers[1..][i - 1];
          }
        }
      }
    }
  }

  method GetTierForScore(strategy: MonitoringStrategy, riskScore: real) returns (r: Option<MonitoringTier>)
    ensures r == FirstTier(strategy.monitoringTiers, riskScore)
  {
    var tiers := strategy.monitoringTiers;
    for i := 0 to |tiers|
      invariant FirstTier(tiers, riskScore) == FirstTier(tiers[i..], riskScore)
    {
      assert tiers[i..][1..] == tiers[i + 1..];
      var tier := tiers[i];
      if riskScore >= tier.riskScoreMin {
        if tier.riskScoreMax.None? || riskScore <= tier.riskScoreMax.value {
          return Some(tier);
        }
      }
    }
    return None;
  }

  /**
   * With the default tiers a score of 95 or more is critical, 80 to 94 high
   * and 60 to 79 medium; below 60, and in the gaps above 94 and below 95 or
   * above 79 and below 80, no tier applies.
   */
  lemma DefaultTierForScore(score: real)
    ensures var t := FirstTier(DefaultStrategy().monitoringTiers, score);
      (score >= 95.0 ==> t.Some? && t.value.name == "critical") &&
      (80.0 <= score <= 94.0 ==> t.Some? && t.value.name == "high") &&
      (60.0 <= score <= 79.0 ==> t.Some? && t.value.name == "medium") &&
      (score < 60.0 || 94.0 < score < 95.0 || 79.0 < score < 80.0 ==> t.None?)
  {
    var tiers := DefaultStrategy().monitoringTiers;
    assert tiers[1..] == [tiers[1], tiers[2]];
    assert [tiers[1], tiers[2]][1..] == [tiers[2]];
    assert [tiers[2]][1..] == [];
    assert FirstTier([], score) == None;
    var third := FirstTier([tiers[2]], score);
    assert third == if InTier(tiers[2], score) then Some(tiers[2]) else None;
    var second := FirstTier([tiers[1], tiers[2]], score);
    assert second == if InTier(tiers[1], score) then Some(tiers[1]) else third;
    assert FirstTier(tiers, score) == if InTier(tiers[0], score) then Some(tiers[0]) else second;
  }

  // ----- Daily request budget -----

  /** Python's `int(x)`: truncation toward zero. */
  function Truncate(x: real): (n: int)
    ensures x >= 0.0 ==> n as real <= x < n as real + 1.0
    ensures x < 0.0 ==> n as real - 1.0 < x <= n as real
  {
    if x >= 0.0 then x.Floor else -((-x).Floor)
  }

  /** `sum(max_addresses * (24 * 60) / check_interval_minutes)` over exact reals. */
  function DailyTotal(tiers: seq<MonitoringTier>): real
    requires forall i :: 0 <= i < |tiers| ==> tiers[i].checkIntervalMinutes != 0
  {
    if tiers == [] then 0.0
    else
      var last := tiers[|tiers| - 1];
      DailyTotal(tiers[..|tiers| - 1]) + last.maxAddresses as real * ((24 * 60) as real / last.checkIntervalMinutes as real)
  }

  /** Some tier is checked every 0 minutes: the division raises `ZeroDivisionError`. */
  predicate HasZeroInterval(tiers: seq<MonitoringTier>)
  {
    exists i :: 0 <= i < |tiers| && tiers[i].checkIntervalMinutes == 0
  }

  /** `calculate_daily_requests`, or `None` where it raises. */
  function DailyRequests(tiers: seq<MonitoringTier>): (r: Option<int>)
    ensures r.None? <==> HasZeroInterval(tiers)
  {
    if HasZeroInterval(tiers) then None else Some(Truncate(DailyTotal(tiers)))
  }

  method CalculateDailyRequests(strategy: MonitoringStrategy) returns (r: Option<int>)
    ensures r == DailyRequests(strategy.monitoringTiers)
  {
    var tiers := strategy.monitoringTiers;
    var total := 0.0;
    for i := 0 to |tiers|
      invariant !HasZeroInterval(tiers[..i])
      invariant total == DailyTotal(tiers[..i])
    {
      var tier := tiers[i];
      if tier.checkIntervalMinutes == 0 {
        return None;
      }
      var checksPerDay := (24 * 60) as real / tier.checkIntervalMinutes as real;
      assert tiers[..i + 1][..i] == tiers[..i];
      total := total + tier.maxAddresses as real * checksPerDay;
    }
    assert tiers[..|tiers|] == tiers;
    r := Some(Truncate(total));
  }

  /** Tiers with positive intervals and address counts never ask for a negative budget. */
  lemma {:induction false} DailyTotalNonNegative(tiers: seq<MonitoringTier>)
    requires forall i :: 0 <= i < |tiers| ==> tiers[i].checkIntervalMinutes > 0 && tiers[i].maxAddresses >= 0
    ensures DailyTotal(tiers) >= 0.0
  {
    if tiers != [] {
      var last := tiers[|tiers| - 1];
      DailyTotalNonNegative(tiers[..|tiers| - 1]);
      var q := (24 * 60) as real / last.checkIntervalMinutes as real;
      assert q > 0.0;
      assert last.maxAddresses as real * q >= 0.0;
    }
  }

  /** The defaults: 50 * 24 + 200 * 6 + 600 * 1 = 3000 requests a day. */
  lemma DefaultDailyRequests()
    ensures DailyRequests(DefaultStrategy().monitoringTiers) == Some(3000)
  {
    var tiers := DefaultStrategy().monitoringTiers;
    assert !HasZeroInterval(tiers);
    assert [tiers[0]][..0] == [];
    assert DailyTotal([tiers[0]]) == 1200.0;
    assert [tiers[0], tiers[1]][..1] == [tiers[0]];
    assert DailyTotal([tiers[0], tiers[1]]) == 2400.0;
    assert tiers[..2] == [tiers[0], tiers[1]];
    assert DailyTotal(tiers) == 3000.0;
  }

  /** `is_within_limits`, or `None` where counting the requests raises. */
  function IsWithinLimits(strategy: MonitoringStrategy): (r: Option<bool>)
    ensures r.Some? <==> !HasZeroInterval(strategy.monitoringTiers)
    ensures r.Some? ==> (r.value <==> DailyRequests(strategy.monitoringTiers).value <= strategy.apiLimits.requestsPerDay)
  {
    match DailyRequests(strategy.monitoringTiers)
    case None => None
    case Some(daily) => Some(daily <= strategy.apiLimits.requestsPerDay)
  }

  /** The default strategy is over its own budget: 3000 requests a day against 1000 allowed. */
  lemma DefaultNotWithinLimits()
    ensures IsWithinLimits(DefaultStrategy()) == Some(false)
  {
    DefaultDailyRequests();
  }
}
