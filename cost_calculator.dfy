/**
 * The v3.0 ad-cost estimator: a subscriber tier classifier, a CPM cost measured
 * against a per-tier floor, a seven-band engagement multiplier, and a Korean
 * market wrapper that scales the global figure down.
 *
 * Every amount is in Korean won. Python's `int()` on the non-negative
 * amounts computed here truncates toward zero, which is `Floor`. Multipliers
 * are exact reals (binary floating-point error is not modelled).
 */
module CostCalculator {

  /** The five audience-size brackets. */
  datatype Tier = Nano | Micro | MidTier | Macro | Mega

  /** Position of a tier in ascending order of audience size. */
  function TierIndex(t: Tier): nat {
    match t
    case Nano => 0
    case Micro => 1
    case MidTier => 2
    case Macro => 3
    case Mega => 4
  }

  /**
   * `get_influencer_tier`: strict `<` against 10,000, 100,000, 500,000 and
   * 1,000,000 in ascending order, falling through to Mega. A count equal to
   * a breakpoint therefore lands in the upper bracket.
   */
  function ClassifyTier(subscribers: nat): (t: Tier)
    ensures t == Nano <==> subscribers < 10000
    ensures t == Micro <==> 10000 <= subscribers < 100000
    ensures t == MidTier <==> 100000 <= subscribers < 500000
    ensures t == Macro <==> 500000 <= subscribers < 1000000
    ensures t == Mega <==> 1000000 <= subscribers
  {
    if subscribers < 10000 then Nano
    else if subscribers < 100000 then Micro
    else if subscribers < 500000 then MidTier
    else if subscribers < 1000000 then Macro
    else Mega
  }

  function TierName(t: Tier): string {
    match t
    case Nano => "나노 (Nano)"
    case Micro => "마이크로 (Micro)"
    case MidTier => "미드티어 (Mid-tier)"
    case Macro => "매크로 (Macro)"
    case Mega => "메가 (Mega)"
  }

  function TierRange(t: Tier): string {
    match t
    case Nano => "1K-10K"
    case Micro => "10K-100K"
    case MidTier => "100K-500K"
    case Macro => "500K-1M"
    case Mega => "1M+"
  }

  /**
   * `get_influencer_tier` as the source returns it: the pair (name, range label).
   * Distinct tiers give distinct pairs, so the pair identifies the tier.
   */
  function GetInfluencerTier(subscribers: nat): (r: (string, string))
    ensures forall t: Tier :: (TierName(t), TierRange(t)) == r <==> t == ClassifyTier(subscribers)
  {
    var t := ClassifyTier(subscribers);
    (TierName(t), TierRange(t))
  }

  /** The tier never moves down when the subscriber count grows. */
  lemma {:induction false} TierMonotone(s1: nat, s2: nat)
    requires s1 <= s2
    ensures TierIndex(ClassifyTier(s1)) <= TierIndex(ClassifyTier(s2))
  {
  }

  /** The guaranteed minimum fee of each tier (won). */
  function TierFloor(t: Tier): (f: nat)
    ensures f == 350000 || f == 2500000 || f == 5200000 || f == 19500000 || f == 47500000
  {
    match t
    case Nano => 350000
    case Micro => 2500000
    case MidTier => 5200000
    case Macro => 19500000
    case Mega => 47500000
  }

  /** A larger tier always has a strictly larger floor. */
  lemma TierFloorStrictlyIncreasing(t1: Tier, t2: Tier)
    requires TierIndex(t1) < TierIndex(t2)
    ensures TierFloor(t1) < TierFloor(t2)
  {
  }

  /** Cost per 1,000 views (won). */
  const CpmKrw: nat := 39000

  /** The engagement bands, from highest to lowest. */
  datatype EngagementBand = Exceptional | VeryHigh | High | Good | Fair | Low | VeryLow

  /** `>=` thresholds 10, 7, 5, 3, 2, 1 tried in that order; below 1 is the last band. */
  function ClassifyEngagement(rate: real): (b: EngagementBand)
    ensures b == Exceptional <==> 10.0 <= rate
    ensures b == VeryHigh <==> 7.0 <= rate < 10.0
    ensures b == High <==> 5.0 <= rate < 7.0
    ensures b == Good <==> 3.0 <= rate < 5.0
    ensures b == Fair <==> 2.0 <= rate < 3.0
    ensures b == Low <==> 1.0 <= rate < 2.0
    ensures b == VeryLow <==> rate < 1.0
  {
    if rate >= 10.0 then Exceptional
    else if rate >= 7.0 then VeryHigh
    else if rate >= 5.0 then High
    else if rate >= 3.0 then Good
    else if rate >= 2.0 then Fair
    else if rate >= 1.0 then Low
    else VeryLow
  }

  function EngagementMultiplier(b: EngagementBand): (m: real)
    ensures m == 1.5 || m == 1.3 || m == 1.2 || m == 1.1 || m == 1.0 || m == 0.9 || m == 0.85
    ensures 0.85 <= m <= 1.5
  {
    match b
    case Exceptional => 1.5
    case VeryHigh => 1.3
    case High => 1.2
    case Good => 1.1
    case Fair => 1.0
    case Low => 0.9
    case VeryLow => 0.85
  }

  function EngagementLevel(b: EngagementBand): string {
    match b
    case Exceptional => "최상 (10%+)"
    case VeryHigh => "매우 높음 (7-10%)"
    case High => "높음 (5-7%)"
    case Good => "양호 (3-5%)"
    case Fair => "보통 (2-3%)"
    case Low => "낮음 (1-2%)"
    case VeryLow => "매우 낮음 (<1%)"
  }

  /** A higher engagement rate never yields a smaller multiplier. */
  lemma {:induction false} EngagementMultiplierMonotone(r1: real, r2: real)
    requires r1 <= r2
    ensures EngagementMultiplier(ClassifyEngagement(r1)) <= EngagementMultiplier(ClassifyEngagement(r2))
  {
  }

  /** Each band carries its own level label, so the label identifies the band. */
  lemma EngagementLevelsDistinct(b1: EngagementBand, b2: EngagementBand)
    requires b1 != b2
    ensures EngagementLevel(b1) != EngagementLevel(b2)
  {
  }

  /** The dictionary returned by `estimate_ad_cost_global`. */
  datatype GlobalCost = GlobalCost(
    baseCostCpm: int,
    tierBase: int,
    baseCost: int,
    engagementMultiplier: real,
    engagementLevel: string,
    finalCost: int,
    cpmUsed: int)

  /**
   * `estimate_ad_cost_global`: the CPM cost `avg_views / 1000 * 39000`, the
   * tier floor, the larger of the two as base, times the engagement
   * multiplier, truncated.
   */
  function EstimateAdCostGlobal(subscribers: nat, avgViews: nat, engagementRate: real): (g: GlobalCost)
    ensures g.cpmUsed == 39000
    ensures g.baseCostCpm == 39 * avgViews
    ensures g.tierBase == TierFloor(ClassifyTier(subscribers))
    ensures g.baseCost >= g.baseCostCpm && g.baseCost >= g.tierBase
    ensures g.baseCost == g.baseCostCpm || g.baseCost == g.tierBase
    ensures g.engagementMultiplier == EngagementMultiplier(ClassifyEngagement(engagementRate))
    ensures g.engagementLevel == EngagementLevel(ClassifyEngagement(engagementRate))
    ensures g.finalCost == (g.baseCost as real * g.engagementMultiplier).Floor
  {
    // `avg_views / 1000 * 39000` is a whole number of won (`CpmCostIsWhole`), so
    // `max` and `int()` can be taken on integers.
    var baseCostCpm := 39 * avgViews;
    var tierBase := TierFloor(ClassifyTier(subscribers));
    var baseCost := if baseCostCpm >= tierBase then baseCostCpm else tierBase;
    var band := ClassifyEngagement(engagementRate);
    var multiplier := EngagementMultiplier(band);
    GlobalCost(baseCostCpm, tierBase, baseCost, multiplier, EngagementLevel(band),
      (baseCost as real * multiplier).Floor, CpmKrw)
  }

  /** On exact reals `avg_views / 1000 * 39000` is 39 won per view, so truncating it loses nothing. */
  lemma CpmCostIsWhole(avgViews: nat)
    ensures (avgViews as real / 1000.0) * CpmKrw as real == (39 * avgViews) as real
    ensures ((39 * avgViews) as real).Floor == 39 * avgViews
  {
  }

  /**
   * However few the views and however low the engagement, the global fee is
   * at least 85% of the tier floor, and so never zero.
   */
  lemma GlobalAtLeastTierFloor(subscribers: nat, avgViews: nat, engagementRate: real)
    ensures var g := EstimateAdCostGlobal(subscribers, avgViews, engagementRate);
      g.finalCost >= (0.85 * g.tierBase as real).Floor > 0
  {
    var g := EstimateAdCostGlobal(subscribers, avgViews, engagementRate);
    FinalAboveFloor(g.baseCost, g.tierBase, g.engagementMultiplier);
  }

  lemma FinalAboveFloor(baseCost: int, tierBase: nat, multiplier: real)
    requires baseCost >= tierBase && tierBase >= 350000 && multiplier >= 0.85
    ensures (baseCost as real * multiplier).Floor >= (0.85 * tierBase as real).Floor > 0
  {
    assert baseCost as real * multiplier >= tierBase as real * 0.85;
  }

  /** More views never lower the global fee. */
  lemma {:induction false} GlobalMonotoneInViews(subscribers: nat, v1: nat, v2: nat, rate: real)
    requires v1 <= v2
    ensures EstimateAdCostGlobal(subscribers, v1, rate).finalCost <= EstimateAdCostGlobal(subscribers, v2, rate).finalCost
  {
    var g1, g2 := EstimateAdCostGlobal(subscribers, v1, rate), EstimateAdCostGlobal(subscribers, v2, rate);
    assert g1.baseCost <= g2.baseCost;
    FloorScaleMonotone(g1.baseCost, g2.baseCost, g1.engagementMultiplier);
  }

  /** A higher engagement rate never lowers the global fee. */
  lemma {:induction false} GlobalMonotoneInRate(subscribers: nat, avgViews: nat, r1: real, r2: real)
    requires r1 <= r2
    ensures EstimateAdCostGlobal(subscribers, avgViews, r1).finalCost <= EstimateAdCostGlobal(subscribers, avgViews, r2).finalCost
  {
    var g1, g2 := EstimateAdCostGlobal(subscribers, avgViews, r1), EstimateAdCostGlobal(subscribers, avgViews, r2);
    EngagementMultiplierMonotone(r1, r2);
    FloorScaleMonotoneInFactor(g1.baseCost, g1.engagementMultiplier, g2.engagementMultiplier);
  }

  /** More subscribers never lower the global fee: the floors grow with the tier. */
  lemma {:induction false} GlobalMonotoneInSubscribers(s1: nat, s2: nat, avgViews: nat, rate: real)
    requires s1 <= s2
    ensures EstimateAdCostGlobal(s1, avgViews, rate).finalCost <= EstimateAdCostGlobal(s2, avgViews, rate).finalCost
  {
    var g1, g2 := EstimateAdCostGlobal(s1, avgViews, rate), EstimateAdCostGlobal(s2, avgViews, rate);
    TierMonotone(s1, s2);
    if ClassifyTier(s1) != ClassifyTier(s2) {
      TierFloorStrictlyIncreasing(ClassifyTier(s1), ClassifyTier(s2));
    }
    assert g1.baseCost <= g2.baseCost;
    FloorScaleMonotone(g1.baseCost, g2.baseCost, g1.engagementMultiplier);
  }

  lemma FloorScaleMonotone(x: int, y: int, m: real)
    requires x <= y && m >= 0.0
    ensures (x as real * m).Floor <= (y as real * m).Floor
  {
    assert x as real * m <= y as real * m;
  }

  lemma FloorScaleMonotoneInFactor(x: int, m1: real, m2: real)
    requires x >= 0 && m1 <= m2
    ensures (x as real * m1).Floor <= (x as real * m2).Floor
  {
    assert x as real * m1 <= x as real * m2;
  }

  /** The Korean market factor: 0.85 below 100,000 subscribers, 0.75 from there on. */
  function KoreaAdjustment(subscribers: nat): (a: real)
    ensures a == 0.85 <==> subscribers < 100000
    ensures a == 0.75 <==> subscribers >= 100000
  {
    if subscribers < 100000 then 0.85 else 0.75
  }

  /** `int(amount * adjustment)`, as every field of the Korean record is computed. */
  function Scale(amount: int, adjustment: real): int {
    (amount as real * adjustment).Floor
  }

  /** The dictionary returned by `estimate_ad_cost_korea`. */
  datatype KoreaCost = KoreaCost(
    baseCostCpm: int,
    tierBase: int,
    baseCost: int,
    engagementMultiplier: real,
    engagementLevel: string,
    finalCost: int,
    cpmUsed: int,
    koreaAdjustment: real)

  /**
   * `estimate_ad_cost_korea`: the global record with every money field scaled
   * by the market factor and truncated on its own; the engagement multiplier
   * and level are passed through.
   */
  function EstimateAdCostKorea(subscribers: nat, avgViews: nat, engagementRate: real): (k: KoreaCost)
    ensures var g := EstimateAdCostGlobal(subscribers, avgViews, engagementRate);
      && k.koreaAdjustment == KoreaAdjustment(subscribers)
      && k.finalCost == Scale(g.finalCost, k.koreaAdjustment)
      && (0.75 * g.finalCost as real).Floor <= k.finalCost <= g.finalCost
      && k.baseCostCpm == Scale(g.baseCostCpm, k.koreaAdjustment)
      && k.tierBase == Scale(g.tierBase, k.koreaAdjustment)
      && k.baseCost == Scale(g.baseCost, k.koreaAdjustment)
      && k.engagementMultiplier == g.engagementMultiplier
      && k.engagementLevel == g.engagementLevel
    ensures k.cpmUsed == (if subscribers < 100000 then 33150 else 29250)
  {
    var g := EstimateAdCostGlobal(subscribers, avgViews, engagementRate);
    var adjustment := KoreaAdjustment(subscribers);
    KoreaBounds(g.finalCost, adjustment);
    KoreaCost(
      Scale(g.baseCostCpm, adjustment),
      Scale(g.tierBase, adjustment),
      Scale(g.baseCost, adjustment),
      g.engagementMultiplier,
      g.engagementLevel,
      Scale(g.finalCost, adjustment),
      Scale(g.cpmUsed, adjustment),
      adjustment)
  }

  lemma KoreaBounds(amount: int, adjustment: real)
    requires amount >= 0 && 0.75 <= adjustment <= 0.85
    ensures (0.75 * amount as real).Floor <= Scale(amount, adjustment) <= amount
  {
    assert 0.75 * amount as real <= amount as real * adjustment <= amount as real;
  }

  /** More views never lower the Korean fee. */
  lemma {:induction false} KoreaMonotoneInViews(subscribers: nat, v1: nat, v2: nat, rate: real)
    requires v1 <= v2
    ensures EstimateAdCostKorea(subscribers, v1, rate).finalCost <= EstimateAdCostKorea(subscribers, v2, rate).finalCost
  {
    GlobalMonotoneInViews(subscribers, v1, v2, rate);
    FloorScaleMonotone(EstimateAdCostGlobal(subscribers, v1, rate).finalCost,
                       EstimateAdCostGlobal(subscribers, v2, rate).finalCost,
                       KoreaAdjustment(subscribers));
  }

  /** A higher engagement rate never lowers the Korean fee. */
  lemma {:induction false} KoreaMonotoneInRate(subscribers: nat, avgViews: nat, r1: real, r2: real)
    requires r1 <= r2
    ensures EstimateAdCostKorea(subscribers, avgViews, r1).finalCost <= EstimateAdCostKorea(subscribers, avgViews, r2).finalCost
  {
    GlobalMonotoneInRate(subscribers, avgViews, r1, r2);
    FloorScaleMonotone(EstimateAdCostGlobal(subscribers, avgViews, r1).finalCost,
                       EstimateAdCostGlobal(subscribers, avgViews, r2).finalCost,
                       KoreaAdjustment(subscribers));
  }

  /**
   * Unlike the global fee, the Korean fee is not monotone in subscribers: when
   * the CPM cost is binding on both sides of 100,000, crossing that count
   * only swaps the factor 0.85 for 0.75.
   */
  lemma KoreaDropsAtHundredThousand()
    ensures EstimateAdCostKorea(99999, 1000000, 5.0).finalCost == 39780000
    ensures EstimateAdCostKorea(100000, 1000000, 5.0).finalCost == 35100000
  {
    var g1 := EstimateAdCostGlobal(99999, 1000000, 5.0);
    var g2 := EstimateAdCostGlobal(100000, 1000000, 5.0);
    assert g1.finalCost == 46800000;
    assert g2.finalCost == 46800000;
  }

  /**
   * Because each Korean field is truncated separately, the Korean record's
   * final cost need not equal its own base cost times the multiplier.
   */
  lemma KoreaFieldsTruncatedSeparately()
    ensures var k := EstimateAdCostKorea(0, 10001, 3.0);
      k.finalCost == 364685 && (k.baseCost as real * k.engagementMultiplier).Floor == 364686
  {
    var g := EstimateAdCostGlobal(0, 10001, 3.0);
    assert g.baseCost == 390039;
    assert g.finalCost == 429042;
  }
}
