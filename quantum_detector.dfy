/**
 * The emergency-pattern detector of `src/services/quantum_detector.py`: four
 * stateless rules over a list of recent wallet activities (dormant-wallet
 * surge, coordinated movement, high-value concentration, transaction burst),
 * the additive severity score and the market-impact estimate.
 *
 * Times are integer epoch seconds, amounts and balances integer satoshis, and
 * ratios `real`. numpy's mean and population variance are exact rational
 * sums here; the standard deviation needs a square root, which the burst
 * rule receives as a parameter.
 */
module QuantumDetector {
  import opened Wrappers
  import opened Seqs
  import opened Settings
  import opened Statistics

  datatype Severity = Low | Medium | High | Critical

  datatype PatternType =
    | DormantWalletSurge
    | CoordinatedMovement
    | HighValueConcentration
    | TransactionBurst

  /** `WalletActivity`: one observed transaction of a monitored wallet. */
  datatype WalletActivity = WalletActivity(
    address: string,
    transactionTime: int,
    amount: int,
    balance: int,
    dormancyDays: int,
    lastActivityBefore: Option<int>,
    vulnerabilityType: string)

  /** `EmergencyPattern` without its free-form `metadata`; `timeWindow` is in seconds. */
  datatype EmergencyPattern = EmergencyPattern(
    patternType: PatternType,
    severity: Severity,
    confidence: real,
    affectedWallets: seq<string>,
    totalValue: int,
    timeWindow: real)

  function Address(a: WalletActivity): string { a.address }
  function Balance(a: WalletActivity): int { a.balance }
  function Amount(a: WalletActivity): int { a.amount }
  function Dormancy(a: WalletActivity): int { a.dormancyDays }
  function Time(a: WalletActivity): int { a.transactionTime }

  function Min(x: real, y: real): (r: real)
    ensures r <= x && r <= y && (r == x || r == y)
  {
    if x <= y then x else y
  }

  // ---------------------------------------------------------------------------
  // Time buckets
  // ---------------------------------------------------------------------------

  /**
   * The key `_group_by_time_window` files an activity at time `t` under, for a
   * window of `w` seconds. Operator precedence makes the subtracted minutes
   * `(minute % w) / 60`, that is `minute % w` seconds, so together with the
   * seconds the key is `t - second - (minute % w)`: not the start of a
   * `w`-second window.
   */
  function WindowStart(t: int, w: int): int
    requires w > 0
  {
    t - t % 60 - ((t / 60) % 60) % w
  }

  /** For any window of at least a minute the key is `60m - m % 60` with `m` the minute count. */
  lemma WindowStartClosedForm(t: int, w: int)
    requires w >= 60
    ensures WindowStart(t, w) == 60 * (t / 60) - (t / 60) % 60
  {
  }

  /** Two activities share a bucket exactly when they fall in the same calendar minute. */
  lemma SameBucketIffSameMinute(t1: int, t2: int, w: int)
    requires w >= 60
    ensures WindowStart(t1, w) == WindowStart(t2, w) <==> t1 / 60 == t2 / 60
  {
    WindowStartClosedForm(t1, w);
    WindowStartClosedForm(t2, w);
    var m1, m2 := t1 / 60, t2 / 60;
    if m1 < m2 {
      assert 60 * m2 >= 60 * m1 + 60;
    } else if m2 < m1 {
      assert 60 * m1 >= 60 * m2 + 60;
    }
  }

  /** The key is strictly increasing in the minute, so buckets are ordered like their minutes. */
  lemma WindowStartMonotone(t1: int, t2: int, w: int)
    requires w >= 60
    requires t1 / 60 < t2 / 60
    ensures WindowStart(t1, w) < WindowStart(t2, w)
  {
    WindowStartClosedForm(t1, w);
    WindowStartClosedForm(t2, w);
    assert 60 * (t2 / 60) >= 60 * (t1 / 60) + 60;
  }

  /** All of `g` falls in one calendar minute. */
  predicate SameMinute(g: seq<WalletActivity>)
  {
    forall i, j :: 0 <= i < |g| && 0 <= j < |g| ==> g[i].transactionTime / 60 == g[j].transactionTime / 60
  }

  /** The bucket of the surge rule: the default 30-minute window. */
  function SurgeBucket(a: WalletActivity): int
  {
    WindowStart(a.transactionTime, EmergencyWindowSeconds)
  }

  /** The bucket of the coordination rule: `window_minutes=10`. */
  function CoordinationBucket(a: WalletActivity): int
  {
    WindowStart(a.transactionTime, 10 * 60)
  }

  /**
   * `_group_by_time_window`: the buckets in first-appearance order and the
   * activities of each, in input order.
   */
  method GroupByTimeWindow(activities: seq<WalletActivity>, coordination: bool)
    returns (keys: seq<int>, groups: map<int, seq<WalletActivity>>)
    ensures coordination ==> Grouped(activities, CoordinationBucket, keys, groups)
    ensures !coordination ==> Grouped(activities, SurgeBucket, keys, groups)
  {
    if coordination {
      keys, groups := GroupBy(activities, CoordinationBucket);
    } else {
      keys, groups := GroupBy(activities, SurgeBucket);
    }
  }

  // ---------------------------------------------------------------------------
  // Severity
  // ---------------------------------------------------------------------------

  /** The wallet-count factor: 20, 10 and 5 wallets are inclusive thresholds. */
  function WalletCountPoints(walletCount: int): (p: int)
    ensures p == 40 <==> walletCount >= 20
    ensures p == 30 <==> 10 <= walletCount < 20
    ensures p == 20 <==> 5 <= walletCount < 10
    ensures p == 10 <==> walletCount < 5
  {
    if walletCount >= 20 then 40
    else if walletCount >= 10 then 30
    else if walletCount >= 5 then 20
    else 10
  }

  /** The value factor: 10000, 1000 and 100 BTC are inclusive thresholds. */
  function ValuePoints(totalValueBtc: real): (p: int)
    ensures p == 40 <==> totalValueBtc >= 10000.0
    ensures p == 30 <==> 1000.0 <= totalValueBtc < 10000.0
    ensures p == 20 <==> 100.0 <= totalValueBtc < 1000.0
    ensures p == 10 <==> totalValueBtc < 100.0
  {
    if totalValueBtc >= 10000.0 then 40
    else if totalValueBtc >= 1000.0 then 30
    else if totalValueBtc >= 100.0 then 20
    else 10
  }

  /** The dormancy factor: 10, 5 and 2 years are inclusive thresholds. */
  function DormancyYearsPoints(avgDormancyYears: real): (p: int)
    ensures p == 20 <==> avgDormancyYears >= 10.0
    ensures p == 15 <==> 5.0 <= avgDormancyYears < 10.0
    ensures p == 10 <==> 2.0 <= avgDormancyYears < 5.0
    ensures p == 5 <==> avgDormancyYears < 2.0
  {
    if avgDormancyYears >= 10.0 then 20
    else if avgDormancyYears >= 5.0 then 15
    else if avgDormancyYears >= 2.0 then 10
    else 5
  }

  /** The additive score of `_calculate_severity`. */
  function SeverityScore(walletCount: int, totalValueBtc: real, avgDormancyYears: real): (score: int)
    ensures 25 <= score <= 100
    ensures score == WalletCountPoints(walletCount) + ValuePoints(totalValueBtc) + DormancyYearsPoints(avgDormancyYears)
  {
    WalletCountPoints(walletCount) + ValuePoints(totalValueBtc) + DormancyYearsPoints(avgDormancyYears)
  }

  /** The score's severity: 80, 60 and 40 are inclusive thresholds. */
  function SeverityOfScore(score: int): (r: Severity)
    ensures r == Critical <==> score >= 80
    ensures r == High <==> 60 <= score < 80
    ensures r == Medium <==> 40 <= score < 60
    ensures r == Low <==> score < 40
  {
    if score >= 80 then Critical
    else if score >= 60 then High
    else if score >= 40 then Medium
    else Low
  }

  /** `_calculate_severity`. */
  function CalculateSeverity(walletCount: int, totalValueBtc: real, avgDormancyYears: real): Severity
  {
    SeverityOfScore(SeverityScore(walletCount, totalValueBtc, avgDormancyYears))
  }

  function SeverityRank(s: Severity): nat
  {
    match s
    case Low => 0
    case Medium => 1
    case High => 2
    case Critical => 3
  }

  /** More wallets, more value or longer dormancy never lowers the score or the severity. */
  lemma SeverityMonotone(c1: int, v1: real, y1: real, c2: int, v2: real, y2: real)
    requires c1 <= c2 && v1 <= v2 && y1 <= y2
    ensures SeverityScore(c1, v1, y1) <= SeverityScore(c2, v2, y2)
    ensures SeverityRank(CalculateSeverity(c1, v1, y1)) <= SeverityRank(CalculateSeverity(c2, v2, y2))
  {
  }

  /** Five wallets holding 600 BTC, dormant ten years on average, score 20 + 20 + 20 = 60: HIGH. */
  lemma SeverityExample()
    ensures SeverityScore(5, 600.0, 10.0) == 60
    ensures CalculateSeverity(5, 600.0, 10.0) == High
  {
  }

  /** The smallest possible score (one wallet, no value, no dormancy) is LOW; the largest is CRITICAL. */
  lemma SeverityExtremes()
    ensures CalculateSeverity(0, 0.0, 0.0) == Low
    ensures CalculateSeverity(20, 10000.0, 10.0) == Critical
  {
  }

  // ---------------------------------------------------------------------------
  // Rule 1: dormant wallet surge
  // ---------------------------------------------------------------------------

  predicate IsDormant(a: WalletActivity)
  {
    a.dormancyDays >= DormancyThresholdDays
  }

  /** The activities of bucket `k` among `s`. */
  function SurgeGroup(s: seq<WalletActivity>, k: int): seq<WalletActivity>
  {
    Members(s, SurgeBucket, k)
  }

  /** The first of the keys `ks` whose bucket holds at least `min_wallets` activities. */
  function FirstSurgeKey(s: seq<WalletActivity>, ks: seq<int>): (r: Option<int>)
    ensures r.Some? ==> r.value in ks && |SurgeGroup(s, r.value)| >= MinDormantWalletsForAlert
    ensures r.None? ==> forall j :: 0 <= j < |ks| ==> |SurgeGroup(s, ks[j])| < MinDormantWalletsForAlert
  {
    if ks == [] then None
    else if |SurgeGroup(s, ks[0])| >= MinDormantWalletsForAlert then Some(ks[0])
    else
      var r := FirstSurgeKey(s, ks[1..]);
      assert forall j :: 1 <= j < |ks| ==> ks[j] == ks[1..][j - 1];
      r
  }

  /** The key found is the first qualifying one: every key before it in `ks` has too small a bucket. */
  lemma {:induction false} FirstSurgeKeyIsFirst(s: seq<WalletActivity>, ks: seq<int>)
    ensures FirstSurgeKey(s, ks).Some? ==>
      exists i :: 0 <= i < |ks| && ks[i] == FirstSurgeKey(s, ks).value
        && forall j :: 0 <= j < i ==> |SurgeGroup(s, ks[j])| < MinDormantWalletsForAlert
  {
    if ks != [] && |SurgeGroup(s, ks[0])| < MinDormantWalletsForAlert && FirstSurgeKey(s, ks[1..]).Some? {
      FirstSurgeKeyIsFirst(s, ks[1..]);
      var i :| 0 <= i < |ks[1..]| && ks[1..][i] == FirstSurgeKey(s, ks[1..]).value
        && forall j :: 0 <= j < i ==> |SurgeGroup(s, ks[1..][j])| < MinDormantWalletsForAlert;
      assert ks[i + 1] == ks[1..][i];
      forall j | 0 <= j < i + 1 ensures |SurgeGroup(s, ks[j])| < MinDormantWalletsForAlert {
        if j > 0 {
          assert ks[j] == ks[1..][j - 1];
        }
      }
    }
  }

  /** A surge bucket spans a single calendar minute, not thirty. */
  lemma SurgeGroupSameMinute(s: seq<WalletActivity>, k: int)
    ensures SameMinute(SurgeGroup(s, k))
  {
    var g := SurgeGroup(s, k);
    forall i, j | 0 <= i < |g| && 0 <= j < |g|
      ensures g[i].transactionTime / 60 == g[j].transactionTime / 60
    {
      SameBucketIffSameMinute(g[i].transactionTime, g[j].transactionTime, EmergencyWindowSeconds);
    }
  }

  /** The bucket's total balance in BTC. */
  function TotalBtc(g: seq<WalletActivity>): (btc: real)
    ensures btc * SatoshisPerBtc as real == Sum(g, Balance) as real
  {
    Sum(g, Balance) as real / SatoshisPerBtc as real
  }

  /** The bucket's mean dormancy in years of 365 days. */
  function MeanDormancyYears(g: seq<WalletActivity>): (years: real)
    requires |g| > 0
    ensures years * 365.0 * |g| as real == Sum(g, Dormancy) as real
  {
    var avgDormancy := Sum(g, Dormancy) as real / |g| as real;
    assert avgDormancy * |g| as real == Sum(g, Dormancy) as real;
    avgDormancy / 365.0
  }

  /** The pattern reported for a surge bucket `g`. */
  function SurgePattern(g: seq<WalletActivity>): EmergencyPattern
    requires |g| > 0
  {
    EmergencyPattern(
      DormantWalletSurge,
      CalculateSeverity(|g|, TotalBtc(g), MeanDormancyYears(g)),
      Min(0.95, |g| as real / 10.0),
      Map(g, Address),
      Sum(g, Balance),
      EmergencyWindowSeconds as real)
  }

  /** A surge bucket of the dormant activities holds every dormant activity of its minute and nothing else. */
  lemma SurgeGroupMembers(activities: seq<WalletActivity>, k: int)
    ensures var dormant := Filter(activities, IsDormant);
      var g := SurgeGroup(dormant, k);
      && (forall m :: 0 <= m < |g| ==> g[m] in activities && IsDormant(g[m]) && SurgeBucket(g[m]) == k)
      && (forall m :: 0 <= m < |dormant| && SurgeBucket(dormant[m]) == k ==> dormant[m] in g)
  {
    var dormant := Filter(activities, IsDormant);
    var g := SurgeGroup(dormant, k);
    MembersComplete(dormant, SurgeBucket, k);
    forall m | 0 <= m < |g| ensures g[m] in activities && IsDormant(g[m]) {
      assert g[m] in dormant;
    }
  }

  /** The fields of a surge pattern over a bucket of at least `min_wallets` activities. */
  lemma SurgePatternFields(g: seq<WalletActivity>)
    requires |g| >= MinDormantWalletsForAlert
    ensures var p := SurgePattern(g);
      && p.patternType == DormantWalletSurge
      && p.timeWindow == EmergencyWindowSeconds as real
      && p.affectedWallets == Map(g, Address)
      && p.totalValue == Sum(g, Balance)
      && 0.5 <= p.confidence <= 0.95
      && p.confidence == Min(0.95, |g| as real / 10.0)
  {
  }

  /** The severity of a surge pattern: that of the bucket's size, its total value in BTC and its mean dormancy in years. */
  lemma SurgePatternSeverity(g: seq<WalletActivity>)
    requires |g| > 0
    ensures var p := SurgePattern(g);
      && p.severity == CalculateSeverity(|g|, TotalBtc(g), MeanDormancyYears(g))
      && (p.severity == Critical <==> WalletCountPoints(|g|) + ValuePoints(TotalBtc(g)) + DormancyYearsPoints(MeanDormancyYears(g)) >= 80)
  {
  }

  /** `_detect_dormant_wallet_surge` as a function of the activities. */
  function DormantSurge(activities: seq<WalletActivity>): (r: Option<EmergencyPattern>)
    ensures r.Some? ==> r.value.patternType == DormantWalletSurge
  {
    var dormant := Filter(activities, IsDormant);
    if |dormant| < MinDormantWalletsForAlert then None
    else
      match FirstSurgeKey(dormant, FirstKeys(dormant, SurgeBucket))
      case None => None
      case Some(k) => Some(SurgePattern(SurgeGroup(dormant, k)))
  }

  /** A reported surge is the pattern of the bucket of the key `FirstSurgeKey` finds. */
  lemma DormantSurgeOfFirstKey(activities: seq<WalletActivity>)
    requires DormantSurge(activities).Some?
    ensures var dormant := Filter(activities, IsDormant);
      var k := FirstSurgeKey(dormant, FirstKeys(dormant, SurgeBucket));
      && k.Some?
      && |SurgeGroup(dormant, k.value)| >= MinDormantWalletsForAlert
      && DormantSurge(activities).value == SurgePattern(SurgeGroup(dormant, k.value))
  {
  }

  /** `_detect_dormant_wallet_surge`: the first bucket, in first-appearance order, with enough dormant activities. */
  method DetectDormantWalletSurge(activities: seq<WalletActivity>) returns (r: Option<EmergencyPattern>)
    ensures r == DormantSurge(activities)
  {
    var dormant := Filter(activities, IsDormant);
    if |dormant| < MinDormantWalletsForAlert {
      return None;
    }
    var keys, groups := GroupByTimeWindow(dormant, false);
    ghost var spec := FirstSurgeKey(dormant, keys);
    assert DormantSurge(activities) == if spec.Some? then Some(SurgePattern(SurgeGroup(dormant, spec.value))) else None;
    for i := 0 to |keys|
      invariant spec == FirstSurgeKey(dormant, keys[i..])
    {
      assert keys[i..][1..] == keys[i + 1..];
      GroupedLookup(dormant, SurgeBucket, keys, groups, i);
      var g := groups[keys[i]];
      if |g| >= MinDormantWalletsForAlert {
        return Some(SurgePattern(g));
      }
    }
    return None;
  }

  /**
   * A surge is reported exactly when some dormant activity shares its calendar
   * minute with at least `min_wallets` dormant activities (itself included).
   */
  lemma DormantSurgeIff(activities: seq<WalletActivity>)
    ensures var dormant := Filter(activities, IsDormant);
      DormantSurge(activities).Some? <==>
        exists i :: 0 <= i < |dormant| && |SurgeGroup(dormant, SurgeBucket(dormant[i]))| >= MinDormantWalletsForAlert
  {
    var dormant := Filter(activities, IsDormant);
    var ks := FirstKeys(dormant, SurgeBucket);
    if exists i :: 0 <= i < |dormant| && |SurgeGroup(dormant, SurgeBucket(dormant[i]))| >= MinDormantWalletsForAlert {
      var i :| 0 <= i < |dormant| && |SurgeGroup(dormant, SurgeBucket(dormant[i]))| >= MinDormantWalletsForAlert;
      var j :| 0 <= j < |ks| && ks[j] == SurgeBucket(dormant[i]);
      assert FirstSurgeKey(dormant, ks).Some?;
    }
  }

  /**
   * What a reported surge holds: the whole bucket of the key `FirstSurgeKey`
   * finds among the keys in first-appearance order (the first qualifying one,
   * by `FirstSurgeKeyIsFirst`), with at least `min_wallets` dormant activities;
   * every dormant activity of that bucket and nothing else, all in one
   * calendar minute; the affected addresses in input order, the summed
   * balances, and a confidence of `min(0.95, n / 10)` that reaches 0.5 at the
   * threshold.
   */
  lemma DormantSurgeShape(activities: seq<WalletActivity>)
    requires DormantSurge(activities).Some?
    ensures var p := DormantSurge(activities).value;
      var dormant := Filter(activities, IsDormant);
      var ks := FirstKeys(dormant, SurgeBucket);
      var k := FirstSurgeKey(dormant, ks).value;
      var g := SurgeGroup(dormant, k);
      && |g| >= MinDormantWalletsForAlert
      && (forall m :: 0 <= m < |g| ==> g[m] in activities && IsDormant(g[m]) && SurgeBucket(g[m]) == k)
      && (forall m :: 0 <= m < |dormant| && SurgeBucket(dormant[m]) == k ==> dormant[m] in g)
      && SameMinute(g)
      && p.patternType == DormantWalletSurge
      && p.timeWindow == EmergencyWindowSeconds as real
      && p.affectedWallets == Map(g, Address)
      && p.totalValue == Sum(g, Balance)
      && 0.5 <= p.confidence <= 0.95
      && p.confidence == Min(0.95, |g| as real / 10.0)
  {
    var dormant := Filter(activities, IsDormant);
    var ks := FirstKeys(dormant, SurgeBucket);
    var k := FirstSurgeKey(dormant, ks).value;
    DormantSurgeOfFirstKey(activities);
    SurgePatternFields(SurgeGroup(dormant, k));
    SurgeGroupSameMinute(dormant, k);
    SurgeGroupMembers(activities, k);
  }

  // ---------------------------------------------------------------------------
  // Rule 2: coordinated movement
  // ---------------------------------------------------------------------------

  function CoordinationGroup(s: seq<WalletActivity>, k: int): seq<WalletActivity>
  {
    Members(s, CoordinationBucket, k)
  }

  /** A coordination bucket spans a single calendar minute, not ten. */
  lemma CoordinationGroupSameMinute(s: seq<WalletActivity>, k: int)
    ensures SameMinute(CoordinationGroup(s, k))
  {
    var g := CoordinationGroup(s, k);
    forall i, j | 0 <= i < |g| && 0 <= j < |g|
      ensures g[i].transactionTime / 60 == g[j].transactionTime / 60
    {
      SameBucketIffSameMinute(g[i].transactionTime, g[j].transactionTime, 600);
    }
  }

  /** A 10-minute bucket that is reported: at least five members with near-equal amounts. */
  predicate Coordinated(g: seq<WalletActivity>)
  {
    |g| >= 5 && LowDispersion(Map(g, Amount))
  }

  /** The first of the keys `ks` whose bucket is coordinated. */
  function FirstCoordinatedKey(s: seq<WalletActivity>, ks: seq<int>): (r: Option<int>)
    ensures r.Some? ==> r.value in ks && Coordinated(CoordinationGroup(s, r.value))
    ensures r.None? ==> forall j :: 0 <= j < |ks| ==> !Coordinated(CoordinationGroup(s, ks[j]))
  {
    if ks == [] then None
    else if Coordinated(CoordinationGroup(s, ks[0])) then Some(ks[0])
    else
      var r := FirstCoordinatedKey(s, ks[1..]);
      assert forall j :: 1 <= j < |ks| ==> ks[j] == ks[1..][j - 1];
      r
  }

  /** The key found is the first coordinated one: no bucket of a key before it in `ks` is coordinated. */
  lemma {:induction false} FirstCoordinatedKeyIsFirst(s: seq<WalletActivity>, ks: seq<int>)
    ensures FirstCoordinatedKey(s, ks).Some? ==>
      exists i :: 0 <= i < |ks| && ks[i] == FirstCoordinatedKey(s, ks).value
        && forall j :: 0 <= j < i ==> !Coordinated(CoordinationGroup(s, ks[j]))
  {
    if ks != [] && !Coordinated(CoordinationGroup(s, ks[0])) && FirstCoordinatedKey(s, ks[1..]).Some? {
      FirstCoordinatedKeyIsFirst(s, ks[1..]);
      var i :| 0 <= i < |ks[1..]| && ks[1..][i] == FirstCoordinatedKey(s, ks[1..]).value
        && forall j :: 0 <= j < i ==> !Coordinated(CoordinationGroup(s, ks[1..][j]));
      assert ks[i + 1] == ks[1..][i];
      forall j | 0 <= j < i + 1 ensures !Coordinated(CoordinationGroup(s, ks[j])) {
        if j > 0 {
          assert ks[j] == ks[1..][j - 1];
        }
      }
    }
  }

  /** The search from position `i` looks at the key there first. */
  lemma FirstCoordinatedStep(s: seq<WalletActivity>, ks: seq<int>, i: int)
    requires 0 <= i < |ks|
    ensures FirstCoordinatedKey(s, ks[i..]) ==
      if Coordinated(CoordinationGroup(s, ks[i])) then Some(ks[i]) else FirstCoordinatedKey(s, ks[i + 1..])
  {
    assert ks[i..][0] == ks[i] && ks[i..][1..] == ks[i + 1..];
  }

  function CoordinatedPattern(g: seq<WalletActivity>): EmergencyPattern
  {
    EmergencyPattern(CoordinatedMovement, High, 0.8, Map(g, Address), Sum(g, Balance), 600.0)
  }

  /** `_detect_coordinated_movements` as a function of the activities. */
  function CoordinatedMovements(activities: seq<WalletActivity>): (r: Option<EmergencyPattern>)
    ensures r.Some? ==> r.value.patternType == CoordinatedMovement
  {
    if |activities| < 3 then None
    else
      match FirstCoordinatedKey(activities, FirstKeys(activities, CoordinationBucket))
      case None => None
      case Some(k) => Some(CoordinatedPattern(CoordinationGroup(activities, k)))
  }

  /** `_detect_coordinated_movements`: buckets under three are skipped, the first coordinated one is reported. */
  method DetectCoordinatedMovements(activities: seq<WalletActivity>) returns (r: Option<EmergencyPattern>)
    ensures r == CoordinatedMovements(activities)
  {
    if |activities| < 3 {
      return None;
    }
    var keys, groups := GroupByTimeWindow(activities, true);
    ghost var spec := FirstCoordinatedKey(activities, keys);
    assert CoordinatedMovements(activities) == if spec.Some? then Some(CoordinatedPattern(CoordinationGroup(activities, spec.value))) else None;
    for i := 0 to |keys|
      invariant spec == FirstCoordinatedKey(activities, keys[i..])
    {
      FirstCoordinatedStep(activities, keys, i);
      GroupedLookup(activities, CoordinationBucket, keys, groups, i);
      var g := groups[keys[i]];
      if |g| < 3 {
        continue;
      }
      var amounts := Map(g, Amount);
      if LowDispersion(amounts) && |g| >= 5 {
        return Some(CoordinatedPattern(g));
      }
    }
    return None;
  }

  /**
   * A coordinated-movement report names the whole bucket of the key
   * `FirstCoordinatedKey` finds among the keys in first-appearance order (the
   * first coordinated one, by `FirstCoordinatedKeyIsFirst`): every activity of that
   * 10-minute bucket and nothing else, all in one calendar minute, at least
   * five, whose amounts have low dispersion; and it sums their balances (not
   * their amounts).
   */
  lemma CoordinatedShape(activities: seq<WalletActivity>)
    requires CoordinatedMovements(activities).Some?
    ensures var p := CoordinatedMovements(activities).value;
      var ks := FirstKeys(activities, CoordinationBucket);
      var k := FirstCoordinatedKey(activities, ks).value;
      var g := CoordinationGroup(activities, k);
      && |g| >= 5
      && (forall m :: 0 <= m < |g| ==> g[m] in activities && CoordinationBucket(g[m]) == k)
      && (forall m :: 0 <= m < |activities| && CoordinationBucket(activities[m]) == k ==> activities[m] in g)
      && SameMinute(g)
      && LowDispersion(Map(g, Amount))
      && p.patternType == CoordinatedMovement && p.severity == High && p.confidence == 0.8
      && p.affectedWallets == Map(g, Address)
      && p.totalValue == Sum(g, Balance)
  {
    var ks := FirstKeys(activities, CoordinationBucket);
    var k := FirstCoordinatedKey(activities, ks).value;
    CoordinationGroupSameMinute(activities, k);
    MembersComplete(activities, CoordinationBucket, k);
  }

  /** Five or more activities in one minute with the same positive amount are always reported. */
  lemma IdenticalAmountsReported(activities: seq<WalletActivity>, k: int, c: int)
    requires c > 0
    requires |CoordinationGroup(activities, k)| >= 5
    requires forall i :: 0 <= i < |CoordinationGroup(activities, k)| ==> CoordinationGroup(activities, k)[i].amount == c
    ensures CoordinatedMovements(activities).Some?
  {
    var g := CoordinationGroup(activities, k);
    IdenticalLowDispersion(Map(g, Amount), c);
    var ks := FirstKeys(activities, CoordinationBucket);
    assert g[0] in activities;
    var i :| 0 <= i < |activities| && activities[i] == g[0];
    var j :| 0 <= j < |ks| && ks[j] == CoordinationBucket(activities[i]);
    assert ks[j] == k;
  }

  // ---------------------------------------------------------------------------
  // Rule 3: high-value concentration
  // ---------------------------------------------------------------------------

  /** 100 BTC. */
  const HighValueThreshold: int := 100 * SatoshisPerBtc

  predicate IsHighValue(a: WalletActivity)
  {
    a.balance >= HighValueThreshold
  }

  function LatestTime(s: seq<WalletActivity>): (t: int)
    requires |s| > 0
    ensures forall i :: 0 <= i < |s| ==> s[i].transactionTime <= t
    ensures exists i :: 0 <= i < |s| && s[i].transactionTime == t
  {
    if |s| == 1 then s[0].transactionTime
    else
      var t := LatestTime(s[..|s| - 1]);
      assert forall i :: 0 <= i < |s| - 1 ==> s[..|s| - 1][i] == s[i];
      if s[|s| - 1].transactionTime > t then s[|s| - 1].transactionTime else t
  }

  function EarliestTime(s: seq<WalletActivity>): (t: int)
    requires |s| > 0
    ensures forall i :: 0 <= i < |s| ==> t <= s[i].transactionTime
    ensures exists i :: 0 <= i < |s| && s[i].transactionTime == t
  {
    if |s| == 1 then s[0].transactionTime
    else
      var t := EarliestTime(s[..|s| - 1]);
      assert forall i :: 0 <= i < |s| - 1 ==> s[..|s| - 1][i] == s[i];
      if s[|s| - 1].transactionTime < t then s[|s| - 1].transactionTime else t
  }

  /** `_detect_value_concentration`. */
  function ValueConcentration(activities: seq<WalletActivity>): (r: Option<EmergencyPattern>)
    ensures r.Some? ==> r.value.patternType == HighValueConcentration
  {
    var hv := Filter(activities, IsHighValue);
    if |hv| < 3 then None
    else
      var span := LatestTime(hv) - EarliestTime(hv);
      if span <= EmergencyWindowSeconds then
        Some(EmergencyPattern(HighValueConcentration, Critical, 0.9, Map(hv, Address), Sum(hv, Balance), span as real))
      else None
  }

  /**
   * A concentration is reported exactly when at least three activities hold
   * 100 BTC or more and every two of them lie at most the emergency window
   * apart (inclusive); the report covers all of them, in input order.
   */
  lemma ValueConcentrationIff(activities: seq<WalletActivity>)
    ensures var hv := Filter(activities, IsHighValue);
      && (ValueConcentration(activities).Some? <==>
          |hv| >= 3 &&
          forall i, j :: 0 <= i < |hv| && 0 <= j < |hv| ==> hv[i].transactionTime - hv[j].transactionTime <= EmergencyWindowSeconds)
      && (ValueConcentration(activities).Some? ==>
          var p := ValueConcentration(activities).value;
          p.severity == Critical && p.confidence == 0.9 &&
          p.affectedWallets == Map(hv, Address) && p.totalValue == Sum(hv, Balance) &&
          0.0 <= p.timeWindow <= EmergencyWindowSeconds as real)
  {
    var hv := Filter(activities, IsHighValue);
    if |hv| >= 3 {
      var i :| 0 <= i < |hv| && hv[i].transactionTime == LatestTime(hv);
      var j :| 0 <= j < |hv| && hv[j].transactionTime == EarliestTime(hv);
    }
  }

  // ---------------------------------------------------------------------------
  // Rule 4: transaction burst
  // ---------------------------------------------------------------------------

  predicate SortedInts(xs: seq<int>)
  {
    forall i, j :: 0 <= i < j < |xs| ==> xs[i] <= xs[j]
  }

  function InsertInt(x: int, xs: seq<int>): (r: seq<int>)
    requires SortedInts(xs)
    ensures SortedInts(r) && |r| == |xs| + 1
    ensures r[0] == x || (xs != [] && r[0] == xs[0])
  {
    if xs == [] || x <= xs[0] then [x] + xs
    else
      var r := InsertInt(x, xs[1..]);
      assert forall j :: 0 <= j < |r| ==> xs[0] <= r[0] <= r[j];
      [xs[0]] + r
  }

  /** The transaction times of `sorted(acts, key=transaction_time)`. */
  function SortInts(xs: seq<int>): (r: seq<int>)
    ensures SortedInts(r) && |r| == |xs|
  {
    if xs == [] then [] else InsertInt(xs[0], SortInts(xs[1..]))
  }

  lemma {:induction false} InsertIntPermutes(x: int, xs: seq<int>)
    requires SortedInts(xs)
    ensures multiset(InsertInt(x, xs)) == multiset(xs) + multiset{x}
  {
    if xs != [] && x > xs[0] {
      InsertIntPermutes(x, xs[1..]);
      assert xs == [xs[0]] + xs[1..];
    }
  }

  /** Sorting keeps every time, as often as it occurs. */
  lemma {:induction false} SortIntsPermutes(xs: seq<int>)
    ensures multiset(SortInts(xs)) == multiset(xs)
  {
    if xs != [] {
      var rest := SortInts(xs[1..]);
      assert multiset(xs) == multiset{xs[0]} + multiset(xs[1..]) by {
        assert xs == [xs[0]] + xs[1..];
      }
      assert multiset(rest) == multiset(xs[1..]) by {
        SortIntsPermutes(xs[1..]);
      }
      assert multiset(InsertInt(xs[0], rest)) == multiset(rest) + multiset{xs[0]} by {
        InsertIntPermutes(xs[0], rest);
      }
    }
  }

  /** The gaps between consecutive times. */
  function Intervals(ts: seq<int>): (ds: seq<int>)
    ensures |ds| == if |ts| == 0 then 0 else |ts| - 1
    ensures forall i :: 0 <= i < |ds| ==> ds[i] == ts[i + 1] - ts[i]
  {
    if |ts| <= 1 then [] else Intervals(ts[..|ts| - 1]) + [ts[|ts| - 1] - ts[|ts| - 2]]
  }

  /** The gaps add up to the distance from the first time to the last. */
  lemma {:induction false} IntervalsTelescope(ts: seq<int>)
    requires |ts| >= 2
    ensures Total(Intervals(ts)) == ts[|ts| - 1] - ts[0]
  {
    var n := |ts|;
    var ds := Intervals(ts);
    assert ds == Intervals(ts[..n - 1]) + [ts[n - 1] - ts[n - 2]];
    assert ds[..|ds| - 1] == Intervals(ts[..n - 1]);
    assert Total(ds) == Total(Intervals(ts[..n - 1])) + (ts[n - 1] - ts[n - 2]);
    if n > 2 {
      IntervalsTelescope(ts[..n - 1]);
    } else {
      assert Intervals(ts[..n - 1]) == [];
    }
  }

  /** The gaps between sorted times are never negative. */
  lemma SortedIntervalsNonNegative(ts: seq<int>)
    requires SortedInts(ts)
    ensures forall i :: 0 <= i < |Intervals(ts)| ==> Intervals(ts)[i] >= 0
  {
  }

  /** The `for i in range(1, len(sorted_acts))` loop collecting time differences. */
  method TimeDifferences(ts: seq<int>) returns (diffs: seq<int>)
    ensures diffs == Intervals(ts)
  {
    diffs := [];
    if |ts| == 0 {
      return;
    }
    for i := 1 to |ts|
      invariant diffs == Intervals(ts[..i])
    {
      var prefix := ts[..i + 1];
      assert prefix[..i] == ts[..i];
      assert prefix[i] - prefix[i - 1] == ts[i] - ts[i - 1];
      assert Intervals(prefix) == Intervals(ts[..i]) + [ts[i] - ts[i - 1]];
      diffs := diffs + [ts[i] - ts[i - 1]];
    }
    assert ts[..|ts|] == ts;
  }

  /** `sqrt` is the square root on the non-negative reals: non-negative, squaring back, and positive on positive inputs. */
  ghost predicate IsSqrt(sqrt: real -> real)
  {
    forall x: real {:trigger sqrt(x)} :: 0.0 <= x ==> 0.0 <= sqrt(x) && sqrt(x) * sqrt(x) == x && (0.0 < sqrt(x) <==> 0.0 < x)
  }

  /** The time differences of one wallet's activities, in time order. */
  function BurstIntervals(acts: seq<WalletActivity>): (diffs: seq<int>)
    ensures |acts| > 0 ==> |diffs| == |acts| - 1
    ensures forall i :: 0 <= i < |diffs| ==> diffs[i] >= 0
  {
    var ts := SortInts(Map(acts, Time));
    SortedIntervalsNonNegative(ts);
    Intervals(ts)
  }

  /**
   * The report of a burst: confidence `min(0.9, zscore / 5)`, the balance of
   * the wallet's first activity, and a window of `mean * count` seconds.
   */
  function BurstReport(address: string, acts: seq<WalletActivity>, diffs: seq<int>, std: real): (p: EmergencyPattern)
    requires |acts| > 0 && |diffs| > 0 && std > 0.0
    ensures p.patternType == TransactionBurst && p.severity == Medium && p.confidence <= 0.9 && p.affectedWallets == [address]
  {
    EmergencyPattern(
      TransactionBurst, Medium, Min(0.9, ZScore(diffs, std) / 5.0),
      [address], acts[0].balance, Mean(diffs) * |acts| as real)
  }

  /** The burst check of one wallet with at least five activities, with `std = sqrt(var)`. */
  function BurstPattern(address: string, acts: seq<WalletActivity>, sqrt: real -> real): (r: Option<EmergencyPattern>)
    ensures r.Some? ==> && |acts| >= 5 && r.value.patternType == TransactionBurst && r.value.severity == Medium
                        && r.value.confidence <= 0.9 && r.value.affectedWallets == [address]
  {
    if |acts| < 5 then None
    else
      var diffs := BurstIntervals(acts);
      var stdDiff := sqrt(Variance(diffs));
      if ZScoreExceeds(diffs, stdDiff) then Some(BurstReport(address, acts, diffs, stdDiff))
      else None
  }

  /**
   * For a true square root, a wallet is flagged exactly when it has at least
   * five activities and its sorted time differences pass the burst test:
   * positive spread, a mean under 300 seconds and a z-score above 3.
   */
  lemma BurstIff(address: string, acts: seq<WalletActivity>, sqrt: real -> real)
    requires IsSqrt(sqrt)
    ensures BurstPattern(address, acts, sqrt).Some? <==> |acts| >= 5 && BurstTest(BurstIntervals(acts))
  {
    if |acts| >= 5 {
      var diffs := BurstIntervals(acts);
      SqrtOfVariance(diffs, sqrt);
      BurstTestIsZScore(diffs, sqrt(Variance(diffs)));
    }
  }

  lemma SqrtOfVariance(diffs: seq<int>, sqrt: real -> real)
    requires |diffs| > 0 && IsSqrt(sqrt)
    ensures var std := sqrt(Variance(diffs));
      std >= 0.0 && std * std == Variance(diffs) && (std > 0.0 <==> Variance(diffs) > 0.0)
  {
    VarianceNonNegative(diffs);
  }

  /** Evenly spaced activities are never flagged, however close together: their differences have no spread. */
  lemma EvenlySpacedNeverBurst(acts: seq<WalletActivity>, gap: int)
    requires forall i :: 0 <= i < |BurstIntervals(acts)| ==> BurstIntervals(acts)[i] == gap
    ensures !BurstTest(BurstIntervals(acts))
  {
    ConstantSpread(BurstIntervals(acts), gap);
  }

  /** The burst check of one wallet: sort its times, collect the differences, apply the z-score test. */
  method CheckWalletBurst(address: string, acts: seq<WalletActivity>, sqrt: real -> real)
    returns (r: Option<EmergencyPattern>)
    requires |acts| >= 5
    ensures r == BurstPattern(address, acts, sqrt)
  {
    var diffs := TimeDifferences(SortInts(Map(acts, Time)));
    assert diffs == BurstIntervals(acts);
    r := None;
    if |diffs| > 0 {
      var stdDiff := sqrt(Variance(diffs));
      if stdDiff > 0.0 && Mean(diffs) < 300.0 {
        var zscore := ZScore(diffs, stdDiff);
        if zscore > 3.0 {
          r := Some(BurstReport(address, acts, diffs, stdDiff));
        }
      }
    }
  }

  function BurstsFrom(activities: seq<WalletActivity>, ks: seq<string>, sqrt: real -> real): seq<EmergencyPattern>
  {
    if ks == [] then []
    else
      var last := ks[|ks| - 1];
      BurstsFrom(activities, ks[..|ks| - 1], sqrt) + OptionList(BurstPattern(last, Members(activities, Address, last), sqrt))
  }

  /** `_detect_statistical_anomalies` as a function: one burst check per address, in first-appearance order. */
  function BurstPatterns(activities: seq<WalletActivity>, sqrt: real -> real): seq<EmergencyPattern>
  {
    BurstsFrom(activities, FirstKeys(activities, Address), sqrt)
  }

  /** The per-wallet step of `_detect_statistical_anomalies`: fewer than two activities are skipped, five or more checked. */
  method CheckWallet(address: string, acts: seq<WalletActivity>, sqrt: real -> real)
    returns (r: Option<EmergencyPattern>)
    ensures r == BurstPattern(address, acts, sqrt)
  {
    r := None;
    if |acts| < 2 {
      return;
    }
    if |acts| >= 5 {
      r := CheckWalletBurst(address, acts, sqrt);
    }
  }

  /** `_detect_statistical_anomalies`. */
  method DetectStatisticalAnomalies(activities: seq<WalletActivity>, sqrt: real -> real)
    returns (patterns: seq<EmergencyPattern>)
    ensures patterns == BurstPatterns(activities, sqrt)
  {
    var addresses, walletActivities := GroupBy(activities, Address);
    patterns := [];
    for i := 0 to |addresses|
      invariant patterns == BurstsFrom(activities, addresses[..i], sqrt)
    {
      BurstsFromStep(activities, addresses, walletActivities, i, sqrt);
      var p := CheckWallet(addresses[i], walletActivities[addresses[i]], sqrt);
      patterns := patterns + OptionList(p);
    }
    assert addresses[..|addresses|] == addresses;
  }

  /** The loop step of `DetectStatisticalAnomalies`: the next key's group is its members, and its report is appended. */
  lemma BurstsFromStep(activities: seq<WalletActivity>, keys: seq<string>, groups: map<string, seq<WalletActivity>>,
                       i: int, sqrt: real -> real)
    requires Grouped(activities, Address, keys, groups)
    requires 0 <= i < |keys|
    ensures keys[i] in groups
    ensures BurstsFrom(activities, keys[..i + 1], sqrt) ==
      BurstsFrom(activities, keys[..i], sqrt) + OptionList(BurstPattern(keys[i], groups[keys[i]], sqrt))
  {
    GroupedLookup(activities, Address, keys, groups, i);
    BurstsFromSnoc(activities, keys[..i + 1], sqrt);
    assert keys[..i + 1][..i] == keys[..i];
  }

  /** One more key appends that key's burst report, if any. */
  lemma BurstsFromSnoc(activities: seq<WalletActivity>, ks: seq<string>, sqrt: real -> real)
    requires ks != []
    ensures var last := ks[|ks| - 1];
      BurstsFrom(activities, ks, sqrt) ==
        BurstsFrom(activities, ks[..|ks| - 1], sqrt) + OptionList(BurstPattern(last, Members(activities, Address, last), sqrt))
  {
  }

  /** The burst reports for the keys `ks`, each for one key with at least five activities, and no key twice. */
  lemma {:induction false} BurstsFromShape(activities: seq<WalletActivity>, ks: seq<string>, sqrt: real -> real)
    requires forall i, j :: 0 <= i < j < |ks| ==> ks[i] != ks[j]
    ensures var ps := BurstsFrom(activities, ks, sqrt);
      && (forall i :: 0 <= i < |ps| ==>
        && ps[i].patternType == TransactionBurst && ps[i].severity == Medium && ps[i].confidence <= 0.9
        && |ps[i].affectedWallets| == 1 && ps[i].affectedWallets[0] in ks
        && |Members(activities, Address, ps[i].affectedWallets[0])| >= 5)
      && (forall i, j :: 0 <= i < j < |ps| ==> ps[i].affectedWallets != ps[j].affectedWallets)
  {
    if ks != [] {
      var ks', last := ks[..|ks| - 1], ks[|ks| - 1];
      BurstsFromShape(activities, ks', sqrt);
      BurstsFromSnoc(activities, ks, sqrt);
      var ps', o := BurstsFrom(activities, ks', sqrt), BurstPattern(last, Members(activities, Address, last), sqrt);
      var ps := ps' + OptionList(o);
      assert last !in ks';
      forall i | 0 <= i < |ps|
        ensures && ps[i].patternType == TransactionBurst && ps[i].severity == Medium && ps[i].confidence <= 0.9
                && |ps[i].affectedWallets| == 1 && ps[i].affectedWallets[0] in ks
                && |Members(activities, Address, ps[i].affectedWallets[0])| >= 5
      {
        if i < |ps'| {
          assert ps[i] == ps'[i];
        } else {
          assert ps[i] == o.value;
        }
      }
      forall i, j | 0 <= i < j < |ps| ensures ps[i].affectedWallets != ps[j].affectedWallets {
        if j >= |ps'| {
          assert ps[j].affectedWallets == [last];
          assert ps[i] == ps'[i];
        } else {
          assert ps[i] == ps'[i] && ps[j] == ps'[j];
        }
      }
    }
  }

  /** Some pattern of `ps` names exactly the one wallet `address`. */
  predicate Names(ps: seq<EmergencyPattern>, address: string)
  {
    exists i :: 0 <= i < |ps| && ps[i].affectedWallets == [address]
  }

  lemma NamesConcat(a: seq<EmergencyPattern>, b: seq<EmergencyPattern>, address: string)
    ensures Names(a + b, address) <==> Names(a, address) || Names(b, address)
  {
    if Names(a + b, address) {
      var i :| 0 <= i < |a + b| && (a + b)[i].affectedWallets == [address];
      if i >= |a| {
        assert b[i - |a|] == (a + b)[i];
      }
    }
    if Names(a, address) {
      var i :| 0 <= i < |a| && a[i].affectedWallets == [address];
      assert (a + b)[i] == a[i];
    }
    if Names(b, address) {
      var i :| 0 <= i < |b| && b[i].affectedWallets == [address];
      assert (a + b)[|a| + i] == b[i];
    }
  }

  lemma NamesOption(o: Option<EmergencyPattern>, address: string)
    ensures Names(OptionList(o), address) <==> o.Some? && o.value.affectedWallets == [address]
  {
    if o.Some? {
      assert OptionList(o)[0] == o.value;
    }
  }

  /** Appending the report of one more key, which names only that key, extends the "named exactly when listed and firing" relation. */
  lemma NamesSnocIff(ps: seq<EmergencyPattern>, o: Option<EmergencyPattern>, ks: seq<string>, last: string,
                     address: string, fires: bool)
    requires Names(ps, address) <==> address in ks && fires
    requires o.Some? ==> o.value.affectedWallets == [last]
    requires address == last ==> (o.Some? <==> fires)
    ensures Names(ps + OptionList(o), address) <==> address in ks + [last] && fires
  {
    NamesConcat(ps, OptionList(o), address);
    NamesOption(o, address);
    assert address in ks + [last] <==> address in ks || address == last;
  }

  /** The step of `BurstsFromIff`: adding the last key. */
  lemma BurstsFromIffStep(activities: seq<WalletActivity>, ks: seq<string>, sqrt: real -> real, address: string)
    requires ks != []
    requires Names(BurstsFrom(activities, ks[..|ks| - 1], sqrt), address)
      <==> address in ks[..|ks| - 1] && BurstPattern(address, Members(activities, Address, address), sqrt).Some?
    ensures Names(BurstsFrom(activities, ks, sqrt), address)
      <==> address in ks && BurstPattern(address, Members(activities, Address, address), sqrt).Some?
  {
    var ks', last := ks[..|ks| - 1], ks[|ks| - 1];
    assert ks' + [last] == ks;
    BurstsFromSnoc(activities, ks, sqrt);
    var o := BurstPattern(last, Members(activities, Address, last), sqrt);
    var fires := BurstPattern(address, Members(activities, Address, address), sqrt).Some?;
    NamesSnocIff(BurstsFrom(activities, ks', sqrt), o, ks', last, address, fires);
  }

  /** An address gets a burst report from the keys `ks` exactly when it is one of them and its own check fires. */
  lemma {:induction false} BurstsFromIff(activities: seq<WalletActivity>, ks: seq<string>, sqrt: real -> real, address: string)
    ensures Names(BurstsFrom(activities, ks, sqrt), address)
      <==> address in ks && BurstPattern(address, Members(activities, Address, address), sqrt).Some?
  {
    if ks != [] {
      BurstsFromIff(activities, ks[..|ks| - 1], sqrt, address);
      BurstsFromIffStep(activities, ks, sqrt, address);
    }
  }

  /**
   * Every burst pattern is MEDIUM with confidence at most 0.9 and names one
   * address with at least five activities, no address twice; for a true
   * square root, an address is reported exactly when it occurs, has at least
   * five activities and the times of those pass the burst test.
   */
  lemma BurstPatternsShape(activities: seq<WalletActivity>, sqrt: real -> real, address: string)
    requires IsSqrt(sqrt)
    ensures var ps := BurstPatterns(activities, sqrt);
      && (forall i :: 0 <= i < |ps| ==>
        && ps[i].patternType == TransactionBurst && ps[i].severity == Medium && ps[i].confidence <= 0.9
        && |ps[i].affectedWallets| == 1
        && |Members(activities, Address, ps[i].affectedWallets[0])| >= 5)
      && (forall i, j :: 0 <= i < j < |ps| ==> ps[i].affectedWallets != ps[j].affectedWallets)
      && (Names(ps, address) <==>
          && (exists i :: 0 <= i < |activities| && activities[i].address == address)
          && |Members(activities, Address, address)| >= 5
          && BurstTest(BurstIntervals(Members(activities, Address, address))))
  {
    var ks := FirstKeys(activities, Address);
    FirstKeysDistinct(activities, Address);
    BurstsFromShape(activities, ks, sqrt);
    BurstsFromIff(activities, ks, sqrt, address);
    BurstIff(address, Members(activities, Address, address), sqrt);
    if exists i :: 0 <= i < |activities| && activities[i].address == address {
      var i :| 0 <= i < |activities| && activities[i].address == address;
      assert Address(activities[i]) in ks;
    }
  }

  // ---------------------------------------------------------------------------
  // All rules
  // ---------------------------------------------------------------------------

  function OptionList(o: Option<EmergencyPattern>): seq<EmergencyPattern>
  {
    match o
    case None => []
    case Some(p) => [p]
  }

  /** `analyze_recent_activity` as a function. */
  function RecentActivityPatterns(activities: seq<WalletActivity>, sqrt: real -> real): seq<EmergencyPattern>
  {
    OptionList(DormantSurge(activities))
      + OptionList(CoordinatedMovements(activities))
      + OptionList(ValueConcentration(activities))
      + BurstPatterns(activities, sqrt)
  }

  /** `analyze_recent_activity`: surge, coordination and concentration (each at most once), then every burst. */
  method AnalyzeRecentActivity(activities: seq<WalletActivity>, sqrt: real -> real)
    returns (patterns: seq<EmergencyPattern>)
    ensures patterns == RecentActivityPatterns(activities, sqrt)
  {
    patterns := [];
    var dormantPattern := DetectDormantWalletSurge(activities);
    if dormantPattern.Some? {
      patterns := patterns + [dormantPattern.value];
    }
    assert patterns == OptionList(DormantSurge(activities));
    var coordinatedPattern := DetectCoordinatedMovements(activities);
    if coordinatedPattern.Some? {
      patterns := patterns + [coordinatedPattern.value];
    }
    assert patterns == OptionList(DormantSurge(activities)) + OptionList(CoordinatedMovements(activities));
    var concentrationPattern := ValueConcentration(activities);
    if concentrationPattern.Some? {
      patterns := patterns + [concentrationPattern.value];
    }
    assert patterns == OptionList(DormantSurge(activities)) + OptionList(CoordinatedMovements(activities))
      + OptionList(ValueConcentration(activities));
    var anomalyPatterns := DetectStatisticalAnomalies(activities, sqrt);
    patterns := patterns + anomalyPatterns;
  }

  function PatternRank(t: PatternType): nat
  {
    match t
    case DormantWalletSurge => 0
    case CoordinatedMovement => 1
    case HighValueConcentration => 2
    case TransactionBurst => 3
  }

  /** Every pattern of `ps` is of type `t`. */
  predicate AllOfType(ps: seq<EmergencyPattern>, t: PatternType)
  {
    forall i :: 0 <= i < |ps| ==> ps[i].patternType == t
  }

  lemma OptionListOfType(o: Option<EmergencyPattern>, t: PatternType)
    requires o.Some? ==> o.value.patternType == t
    ensures |OptionList(o)| <= 1 && AllOfType(OptionList(o), t)
  {
  }

  lemma AllOfTypeConcat(a: seq<EmergencyPattern>, b: seq<EmergencyPattern>, t: PatternType)
    requires AllOfType(a, t) && AllOfType(b, t)
    ensures AllOfType(a + b, t)
  {
    forall i | 0 <= i < |a + b| ensures (a + b)[i].patternType == t {
      if i < |a| {
        assert (a + b)[i] == a[i];
      } else {
        assert (a + b)[i] == b[i - |a|];
      }
    }
  }

  /** Every report of the burst rule is a burst. */
  lemma {:induction false} BurstsFromOfType(activities: seq<WalletActivity>, ks: seq<string>, sqrt: real -> real)
    ensures AllOfType(BurstsFrom(activities, ks, sqrt), TransactionBurst)
  {
    if ks != [] {
      var last := ks[|ks| - 1];
      var o := BurstPattern(last, Members(activities, Address, last), sqrt);
      BurstsFromOfType(activities, ks[..|ks| - 1], sqrt);
      OptionListOfType(o, TransactionBurst);
      AllOfTypeConcat(BurstsFrom(activities, ks[..|ks| - 1], sqrt), OptionList(o), TransactionBurst);
    }
  }

  /** Four runs of patterns, one per rule, the first three of length at most one, concatenate in rule order. */
  lemma RuleOrderConcat(a: seq<EmergencyPattern>, b: seq<EmergencyPattern>, c: seq<EmergencyPattern>, d: seq<EmergencyPattern>)
    requires |a| <= 1 && AllOfType(a, DormantWalletSurge)
    requires |b| <= 1 && AllOfType(b, CoordinatedMovement)
    requires |c| <= 1 && AllOfType(c, HighValueConcentration)
    requires AllOfType(d, TransactionBurst)
    ensures var ps := a + b + c + d;
      && (forall i, j :: 0 <= i < j < |ps| ==> PatternRank(ps[i].patternType) <= PatternRank(ps[j].patternType))
      && (forall i, j :: 0 <= i < j < |ps| && ps[i].patternType == ps[j].patternType ==> ps[i].patternType == TransactionBurst)
  {
    var ps := a + b + c + d;
    forall i | 0 <= i < |ps|
      ensures PatternRank(ps[i].patternType) == if i < |a| then 0 else if i < |a| + |b| then 1 else if i < |a| + |b| + |c| then 2 else 3
    {
      if i < |a| {
        assert ps[i] == a[i];
      } else if i < |a| + |b| {
        assert ps[i] == b[i - |a|];
      } else if i < |a| + |b| + |c| {
        assert ps[i] == c[i - |a| - |b|];
      } else {
        assert ps[i] == d[i - |a| - |b| - |c|];
      }
    }
  }

  /**
   * The report lists its patterns in rule order, and each of the first three
   * rules contributes at most one pattern.
   */
  lemma RecentActivityOrder(activities: seq<WalletActivity>, sqrt: real -> real)
    ensures var ps := RecentActivityPatterns(activities, sqrt);
      && (forall i, j :: 0 <= i < j < |ps| ==> PatternRank(ps[i].patternType) <= PatternRank(ps[j].patternType))
      && (forall i, j :: 0 <= i < j < |ps| && ps[i].patternType == ps[j].patternType ==> ps[i].patternType == TransactionBurst)
  {
    OptionListOfType(DormantSurge(activities), DormantWalletSurge);
    OptionListOfType(CoordinatedMovements(activities), CoordinatedMovement);
    OptionListOfType(ValueConcentration(activities), HighValueConcentration);
    BurstsFromOfType(activities, FirstKeys(activities, Address), sqrt);
    RuleOrderConcat(OptionList(DormantSurge(activities)), OptionList(CoordinatedMovements(activities)),
      OptionList(ValueConcentration(activities)), BurstPatterns(activities, sqrt));
  }

  // ---------------------------------------------------------------------------
  // Market impact
  // ---------------------------------------------------------------------------

  datatype ImpactConfidence = LowConfidence | MediumConfidence

  datatype MarketImpact = MarketImpact(
    totalBtcAtRisk: real,
    estimatedPriceImpactPercent: real,
    marketCapImpactUsd: real,
    confidence: ImpactConfidence)

  /** `calculate_market_impact`: 1000 BTC move the price by 1%, capped at 20%, at $50k per BTC. */
  function CalculateMarketImpact(activities: seq<WalletActivity>): MarketImpact
  {
    var totalBtc := Sum(activities, Balance) as real / SatoshisPerBtc as real;
    var impact := Min(20.0, totalBtc / 1000.0);
    MarketImpact(
      totalBtc, impact, totalBtc * 50000.0 * impact / 100.0,
      if |activities| >= 10 then MediumConfidence else LowConfidence)
  }

  /**
   * The price impact never exceeds 20%, is linear (1% per 1000 BTC) up to
   * 20000 BTC, grows with the value at risk, and the confidence is "medium"
   * exactly for ten or more activities.
   */
  lemma MarketImpactBounds(activities: seq<WalletActivity>, more: seq<WalletActivity>)
    requires Sum(activities, Balance) <= Sum(more, Balance)
    ensures var m := CalculateMarketImpact(activities);
      && m.estimatedPriceImpactPercent <= 20.0
      && (m.totalBtcAtRisk <= 20000.0 ==> m.estimatedPriceImpactPercent == m.totalBtcAtRisk / 1000.0)
      && m.estimatedPriceImpactPercent <= CalculateMarketImpact(more).estimatedPriceImpactPercent
      && (m.confidence == MediumConfidence <==> |activities| >= 10)
  {
  }
}
