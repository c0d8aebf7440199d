/**
 * The computations of the v1.0 search app: extracting a channel reference
 * from a URL, the per-video engagement rate, the floor mean of views, the mean
 * engagement rate over the sample, the legacy estimator (10 won per view times
 * two multipliers) and the displayed ±20% range.
 *
 * The app does not use the v3.0 estimator in `CostCalculator`; the two are
 * modelled independently.
 */
module InfluencerApp {
  import opened Wrappers
  import opened VideoData

  // ----- extract_channel_id -----

  /** The regex class `[a-zA-Z0-9_-]`. */
  predicate IsIdChar(c: char) {
    ('a' <= c <= 'z') || ('A' <= c <= 'Z') || ('0' <= c <= '9') || c == '_' || c == '-'
  }

  predicate IsChannelId(id: string) {
    |id| > 0 && forall i :: 0 <= i < |id| ==> IsIdChar(id[i])
  }

  /** The four URL shapes, in the order the app tries them. */
  datatype Pattern = ChannelPath | Handle | CustomPath | UserPath

  const Patterns: seq<Pattern> := [ChannelPath, Handle, CustomPath, UserPath]

  /** The literal text each regex requires before its capture group. */
  function Prefix(p: Pattern): string {
    match p
    case ChannelPath => "youtube.com/channel/"
    case Handle => "youtube.com/@"
    case CustomPath => "youtube.com/c/"
    case UserPath => "youtube.com/user/"
  }

  /** The regex `prefix([a-zA-Z0-9_-]+)` matches starting at position `i` of `url`. */
  predicate MatchesAt(prefix: string, url: string, i: nat) {
    i + |prefix| < |url| && url[i..i + |prefix|] == prefix && IsIdChar(url[i + |prefix|])
  }

  /** The greedy `+`: the longest run of id characters starting at `j`. */
  function IdRun(url: string, j: nat): (r: string)
    requires j <= |url|
    ensures j + |r| <= |url| && r == url[j..j + |r|]
    ensures forall i :: 0 <= i < |r| ==> IsIdChar(r[i])
    ensures j + |r| == |url| || !IsIdChar(url[j + |r|])
    ensures j < |url| && IsIdChar(url[j]) ==> |r| > 0
    decreases |url| - j
  {
    if j < |url| && IsIdChar(url[j]) then [url[j]] + IdRun(url, j + 1) else []
  }

  /** `re.search` scans left to right: the first match position at or after `i`. */
  function LeftmostFrom(prefix: string, url: string, i: nat): (r: Option<nat>)
    ensures r.Some? ==> i <= r.value && MatchesAt(prefix, url, r.value)
    ensures r.Some? ==> forall k :: i <= k < r.value ==> !MatchesAt(prefix, url, k)
    ensures r.None? ==> forall k :: i <= k ==> !MatchesAt(prefix, url, k)
    decreases |url| - i
  {
    if i >= |url| then None
    else if MatchesAt(prefix, url, i) then Some(i)
    else LeftmostFrom(prefix, url, i + 1)
  }

  /** `re.search(pattern, url)` followed by `match.group(1)`. */
  function Search(p: Pattern, url: string): (m: Option<string>)
    ensures m.None? <==> forall k: nat :: !MatchesAt(Prefix(p), url, k)
    ensures m.Some? ==> IsChannelId(m.value)
    ensures m.Some? ==> (LeftmostFrom(Prefix(p), url, 0).Some?
      && MatchesAt(Prefix(p), url, LeftmostFrom(Prefix(p), url, 0).value)
      && m.value == IdRun(url, LeftmostFrom(Prefix(p), url, 0).value + |Prefix(p)|))
  {
    match LeftmostFrom(Prefix(p), url, 0)
    case None => None
    case Some(i) => Some(IdRun(url, i + |Prefix(p)|))
  }

  /**
   * What `extract_channel_id` returns on success: the captured id and the
   * pattern that matched (the source returns the regex text, which the tag
   * identifies one to one).
   */
  datatype ChannelRef = ChannelRef(identifier: string, pattern: Pattern)

  /** Where a pattern stands in the order the patterns are tried. */
  function PatternIndex(p: Pattern): (k: nat)
    ensures k < |Patterns| && Patterns[k] == p
  {
    match p
    case ChannelPath => 0
    case Handle => 1
    case CustomPath => 2
    case UserPath => 3
  }

  lemma PatternIndexOf(k: nat)
    requires k < |Patterns|
    ensures PatternIndex(Patterns[k]) == k
  {
  }

  /** The first pattern of `pats` that matches `url`, with its capture. */
  function FirstMatch(url: string, pats: seq<Pattern>): Option<ChannelRef> {
    if pats == [] then None
    else match Search(pats[0], url)
      case Some(id) => Some(ChannelRef(id, pats[0]))
      case None => FirstMatch(url, pats[1..])
  }

  /**
   * `extract_channel_id`: try the patterns in list order and return the first
   * match; `None` stands for the source's `(None, None)`.
   */
  method ExtractChannelId(url: string) returns (r: Option<ChannelRef>)
    ensures r == FirstMatch(url, Patterns)
    ensures r.None? <==> forall k :: 0 <= k < |Patterns| ==> Search(Patterns[k], url).None?
    ensures r.Some? ==> IsChannelId(r.value.identifier) && Search(r.value.pattern, url) == Some(r.value.identifier)
    ensures r.Some? ==> forall j :: 0 <= j < PatternIndex(r.value.pattern) ==> Search(Patterns[j], url).None?
  {
    for k := 0 to |Patterns|
      invariant FirstMatch(url, Patterns) == FirstMatch(url, Patterns[k..])
      invariant forall j :: 0 <= j < k ==> Search(Patterns[j], url).None?
    {
      var m := Search(Patterns[k], url);
      assert Patterns[k..][0] == Patterns[k] && Patterns[k..][1..] == Patterns[k + 1..];
      if m.Some? {
        PatternIndexOf(k);
        return Some(ChannelRef(m.value, Patterns[k]));
      }
    }
    assert Patterns[|Patterns|..] == [];
    return None;
  }

  /**
   * A `/channel/` match wins over every other shape, wherever it sits in the
   * URL, and its id is the maximal id run after the leftmost `/channel/`.
   */
  lemma ChannelPathTakesPrecedence(url: string, i: nat)
    requires MatchesAt(Prefix(ChannelPath), url, i)
    ensures FirstMatch(url, Patterns).Some?
    ensures FirstMatch(url, Patterns).value.pattern == ChannelPath
    ensures LeftmostFrom(Prefix(ChannelPath), url, 0).Some?
    ensures var start := LeftmostFrom(Prefix(ChannelPath), url, 0).value;
      start <= i && FirstMatch(url, Patterns).value.identifier == IdRun(url, start + 20)
  {
  }

  // ----- calculate_engagement_rate -----

  /** The unrounded rate `((likes + comments) / views) * 100` of a video with views. */
  function ExactRate(s: VideoStats): (e: real)
    requires Views(s) > 0
    ensures e >= 0.0 && e * Views(s) as real == (Likes(s) + Comments(s)) as real * 100.0
  {
    ((Likes(s) + Comments(s)) as real / Views(s) as real) * 100.0
  }

  /**
   * `round(x, 2)` for a non-negative `x`, on exact reals with ties rounded up:
   * a whole number of hundredths within half a hundredth of `x`.
   */
  function RoundTo2(x: real): (r: real)
    requires x >= 0.0
    ensures r >= 0.0
    ensures (r * 100.0).Floor as real == r * 100.0
    ensures x - 0.005 < r <= x + 0.005
  {
    var k := (x * 100.0 + 0.5).Floor;
    assert k as real <= x * 100.0 + 0.5 < k as real + 1.0;
    assert (k as real / 100.0) * 100.0 == k as real;
    k as real / 100.0
  }

  /**
   * `calculate_engagement_rate`: (likes + comments) / views * 100 rounded to
   * two decimals, or 0 for a video with no views. Absent counters read as 0.
   */
  function CalculateEngagementRate(s: VideoStats): (r: real)
    ensures r >= 0.0
    ensures Views(s) == 0 ==> r == 0.0
    ensures Views(s) > 0 ==> r == RoundTo2(ExactRate(s))
  {
    if Views(s) == 0 then 0.0
    else RoundTo2(ExactRate(s))
  }

  /**
   * The rounding can decide the legacy band: 2,996 likes on 100,000 views is
   * 2.996%, which rounds to 3.0 and so already earns the 1.0 multiplier.
   */
  lemma RoundingCanLiftLegacyBand()
    ensures var s := VideoStats(Some(100000), Some(2996), Some(0));
      && ExactRate(s) < 3.0
      && CalculateEngagementRate(s) == 3.0
      && LegacyEngagementMultiplier(ExactRate(s)) == 0.9
      && LegacyEngagementMultiplier(CalculateEngagementRate(s)) == 1.0
  {
    var s := VideoStats(Some(100000), Some(2996), Some(0));
    assert ExactRate(s) == 2.996;
    assert (2.996 * 100.0 + 0.5).Floor == 300;
  }

  // ----- calculate_average_views -----

  function ViewsOf(v: Video): nat {
    Views(v.statistics)
  }

  /** `sum(int(video['statistics'].get('viewCount', 0)) for video in videos)`. */
  function SumViews(videos: seq<Video>): nat {
    if videos == [] then 0 else SumViews(videos[..|videos| - 1]) + ViewsOf(videos[|videos| - 1])
  }

  function MinViews(videos: seq<Video>): (m: nat)
    requires |videos| > 0
    ensures forall i :: 0 <= i < |videos| ==> m <= ViewsOf(videos[i])
    ensures exists i :: 0 <= i < |videos| && m == ViewsOf(videos[i])
  {
    if |videos| == 1 then ViewsOf(videos[0])
    else
      var rest := MinViews(videos[..|videos| - 1]);
      var last := ViewsOf(videos[|videos| - 1]);
      if last < rest then last else rest
  }

  function MaxViews(videos: seq<Video>): (m: nat)
    requires |videos| > 0
    ensures forall i :: 0 <= i < |videos| ==> ViewsOf(videos[i]) <= m
    ensures exists i :: 0 <= i < |videos| && m == ViewsOf(videos[i])
  {
    if |videos| == 1 then ViewsOf(videos[0])
    else
      var rest := MaxViews(videos[..|videos| - 1]);
      var last := ViewsOf(videos[|videos| - 1]);
      if last > rest then last else rest
  }

  lemma {:induction false} SumViewsBounds(videos: seq<Video>, lo: nat, hi: nat)
    requires forall i :: 0 <= i < |videos| ==> lo <= ViewsOf(videos[i]) <= hi
    ensures |videos| * lo <= SumViews(videos) <= |videos| * hi
  {
    if videos != [] {
      var init := videos[..|videos| - 1];
      assert forall i :: 0 <= i < |init| ==> init[i] == videos[i];
      SumViewsBounds(init, lo, hi);
      assert |videos| * lo == |init| * lo + lo;
      assert |videos| * hi == |init| * hi + hi;
    }
  }

  /**
   * `calculate_average_views`: 0 for an empty list, otherwise `sum // len`,
   * which lies between the smallest and the largest view count.
   */
  function CalculateAverageViews(videos: seq<Video>): (r: nat)
    ensures |videos| == 0 ==> r == 0
    ensures |videos| > 0 ==> r * |videos| <= SumViews(videos) < (r + 1) * |videos|
    ensures |videos| > 0 ==> MinViews(videos) <= r <= MaxViews(videos)
  {
    if videos == [] then 0
    else
      FloorMeanBetween(videos);
      SumViews(videos) / |videos|
  }

  lemma FloorMeanBetween(videos: seq<Video>)
    requires |videos| > 0
    ensures var avg := SumViews(videos) / |videos|;
      && avg * |videos| <= SumViews(videos) < (avg + 1) * |videos|
      && MinViews(videos) <= avg <= MaxViews(videos)
  {
    SumViewsBounds(videos, MinViews(videos), MaxViews(videos));
    BoundedFloorMean(SumViews(videos), |videos|, MinViews(videos), MaxViews(videos));
  }

  lemma BoundedFloorMean(total: nat, n: nat, lo: nat, hi: nat)
    requires n > 0 && n * lo <= total <= n * hi
    ensures (total / n) * n <= total < (total / n + 1) * n
    ensures lo <= total / n <= hi
  {
    FloorDivision(total, n);
    MeanBetween(total, n, total / n, lo, hi);
  }

  lemma FloorDivision(total: nat, n: nat)
    requires n > 0
    ensures (total / n) * n <= total < (total / n + 1) * n
  {
    var q, r := total / n, total % n;
    assert total == q * n + r && 0 <= r < n;
    assert (q + 1) * n == q * n + n;
  }

  lemma MeanBetween(total: nat, n: nat, avg: int, lo: nat, hi: nat)
    requires n > 0 && avg * n <= total < (avg + 1) * n
    requires n * lo <= total <= n * hi
    ensures lo <= avg <= hi
  {
    if avg < lo {
      NatMulMonotone(avg + 1, lo, n);
    }
    if avg > hi {
      NatMulMonotone(hi + 1, avg, n);
    }
  }

  lemma NatMulMonotone(a: int, b: int, n: nat)
    requires a <= b
    ensures a * n <= b * n
  {
    assert b * n == a * n + (b - a) * n;
  }

  // ----- mean engagement rate over the sample (inline, lines 300-304) -----

  /** The list comprehension `[calculate_engagement_rate(video['statistics']) for video in recent_videos]`. */
  function EngagementRates(videos: seq<Video>): (rates: seq<real>)
    ensures |rates| == |videos|
    ensures forall i :: 0 <= i < |videos| ==> rates[i] == CalculateEngagementRate(videos[i].statistics)
  {
    seq(|videos|, i requires 0 <= i < |videos| => CalculateEngagementRate(videos[i].statistics))
  }

  function SumReals(xs: seq<real>): real {
    if xs == [] then 0.0 else SumReals(xs[..|xs| - 1]) + xs[|xs| - 1]
  }

  /**
   * `sum(engagement_rates) / len(engagement_rates)`. The app only reaches this
   * line with a non-empty sample (the `if recent_videos:` at line 295), so the
   * division never sees zero.
   */
  function AverageEngagementRate(videos: seq<Video>): (r: real)
    requires |videos| > 0
    ensures r * |videos| as real == SumReals(EngagementRates(videos))
    ensures r >= 0.0
  {
    SumRealsNonNegative(EngagementRates(videos));
    SumReals(EngagementRates(videos)) / |videos| as real
  }

  lemma {:induction false} SumRealsNonNegative(xs: seq<real>)
    requires forall i :: 0 <= i < |xs| ==> xs[i] >= 0.0
    ensures SumReals(xs) >= 0.0
  {
    if xs != [] {
      SumRealsNonNegative(xs[..|xs| - 1]);
    }
  }

  lemma {:induction false} SumRealsAtMost(xs: seq<real>, c: real)
    requires forall i :: 0 <= i < |xs| ==> xs[i] <= c
    ensures SumReals(xs) <= |xs| as real * c
  {
    if xs != [] {
      SumRealsAtMost(xs[..|xs| - 1], c);
    }
  }

  /** When every sampled video's rate is at most `c`, so is the mean. */
  lemma AverageEngagementRateAtMost(videos: seq<Video>, c: real)
    requires |videos| > 0
    requires forall i :: 0 <= i < |videos| ==> CalculateEngagementRate(videos[i].statistics) <= c
    ensures AverageEngagementRate(videos) <= c
  {
    SumRealsAtMost(EngagementRates(videos), c);
    QuotientAtMost(SumReals(EngagementRates(videos)), |videos| as real, c);
  }

  lemma QuotientAtMost(total: real, n: real, c: real)
    requires n > 0.0 && total <= n * c
    ensures total / n <= c
  {
    assert total / n <= (n * c) / n;
  }

  /**
   * A video with no views is not skipped: it adds a rate of 0 and still
   * counts in the denominator, diluting the mean by n / (n + 1).
   */
  lemma ZeroViewVideoDilutesMean(videos: seq<Video>, z: Video)
    requires |videos| > 0 && ViewsOf(z) == 0
    ensures AverageEngagementRate(videos + [z]) * (|videos| + 1) as real
         == AverageEngagementRate(videos) * |videos| as real
  {
    var all := videos + [z];
    assert EngagementRates(all)[..|all| - 1] == EngagementRates(videos);
  }

  // ----- estimate_ad_cost (legacy rule) -----

  /** Strict `<` at 100,000, 500,000 and 1,000,000. */
  function SubscriberMultiplier(subscribers: nat): (m: real)
    ensures m == 0.8 <==> subscribers < 100000
    ensures m == 1.0 <==> 100000 <= subscribers < 500000
    ensures m == 1.2 <==> 500000 <= subscribers < 1000000
    ensures m == 1.5 <==> 1000000 <= subscribers
  {
    if subscribers < 100000 then 0.8
    else if subscribers < 500000 then 1.0
    else if subscribers < 1000000 then 1.2
    else 1.5
  }

  /** Strict `<` at 3, 5 and 7 percent: a rate of exactly 3 already earns 1.0. */
  function LegacyEngagementMultiplier(rate: real): (m: real)
    ensures m == 0.9 <==> rate < 3.0
    ensures m == 1.0 <==> 3.0 <= rate < 5.0
    ensures m == 1.1 <==> 5.0 <= rate < 7.0
    ensures m == 1.2 <==> 7.0 <= rate
  {
    if rate < 3.0 then 0.9
    else if rate < 5.0 then 1.0
    else if rate < 7.0 then 1.1
    else 1.2
  }

  /** The dictionary returned by `estimate_ad_cost`. */
  datatype LegacyCost = LegacyCost(baseCost: int, subscriberMultiplier: real, engagementMultiplier: real, finalCost: int)

  /**
   * `estimate_ad_cost`: 10 won per average view, times both multipliers,
   * truncated. The fee therefore lies between 0.72 and 1.8 times the base.
   */
  function EstimateAdCost(subscribers: nat, avgViews: nat, engagementRate: real): (c: LegacyCost)
    ensures c.baseCost == 10 * avgViews
    ensures c.subscriberMultiplier == SubscriberMultiplier(subscribers)
    ensures c.engagementMultiplier == LegacyEngagementMultiplier(engagementRate)
    ensures c.finalCost == (c.baseCost as real * c.subscriberMultiplier * c.engagementMultiplier).Floor
    ensures (0.72 * c.baseCost as real).Floor <= c.finalCost <= (1.8 * c.baseCost as real).Floor
  {
    var baseCost := avgViews * 10;
    var s := SubscriberMultiplier(subscribers);
    var e := LegacyEngagementMultiplier(engagementRate);
    LegacyBounds(baseCost, s, e);
    LegacyCost(baseCost, s, e, (baseCost as real * s * e).Floor)
  }

  lemma LegacyBounds(baseCost: nat, s: real, e: real)
    requires 0.8 <= s <= 1.5 && 0.9 <= e <= 1.2
    ensures (0.72 * baseCost as real).Floor <= (baseCost as real * s * e).Floor <= (1.8 * baseCost as real).Floor
  {
    var b := baseCost as real;
    ScaleBetween(e, s, 0.8, 1.5);
    assert 0.8 * e <= e * s <= 1.5 * e;
    assert 0.72 <= 0.8 * e && 1.5 * e <= 1.8;
    assert s * e == e * s;
    ScaleBetween(b, s * e, 0.72, 1.8);
    assert b * s * e == b * (s * e);
    FloorMonotone(0.72 * b, b * (s * e));
    FloorMonotone(b * (s * e), 1.8 * b);
  }

  /** Scaling a non-negative amount by a factor between `lo` and `hi`. */
  lemma ScaleBetween(x: real, k: real, lo: real, hi: real)
    requires x >= 0.0 && lo <= k <= hi
    ensures lo * x <= x * k <= hi * x
  {
    assert x * k - lo * x == x * (k - lo);
    assert hi * x - x * k == x * (hi - k);
  }

  lemma FloorMonotone(x: real, y: real)
    requires x <= y
    ensures x.Floor <= y.Floor
  {
  }

  /** More average views never lower the legacy fee. */
  lemma LegacyMonotoneInViews(subscribers: nat, v1: nat, v2: nat, rate: real)
    requires v1 <= v2
    ensures EstimateAdCost(subscribers, v1, rate).finalCost <= EstimateAdCost(subscribers, v2, rate).finalCost
  {
    var m := SubscriberMultiplier(subscribers) * LegacyEngagementMultiplier(rate);
    assert (10 * v1) as real * m <= (10 * v2) as real * m;
  }

  /** More subscribers never lower the legacy fee. */
  lemma LegacyMonotoneInSubscribers(s1: nat, s2: nat, avgViews: nat, rate: real)
    requires s1 <= s2
    ensures EstimateAdCost(s1, avgViews, rate).finalCost <= EstimateAdCost(s2, avgViews, rate).finalCost
  {
    var b, e := (10 * avgViews) as real, LegacyEngagementMultiplier(rate);
    assert SubscriberMultiplier(s1) <= SubscriberMultiplier(s2);
    assert b * SubscriberMultiplier(s1) * e <= b * SubscriberMultiplier(s2) * e;
  }

  /** A higher mean engagement rate never lowers the legacy fee. */
  lemma LegacyMonotoneInRate(subscribers: nat, avgViews: nat, r1: real, r2: real)
    requires r1 <= r2
    ensures EstimateAdCost(subscribers, avgViews, r1).finalCost <= EstimateAdCost(subscribers, avgViews, r2).finalCost
  {
    var b, s := (10 * avgViews) as real, SubscriberMultiplier(subscribers);
    assert LegacyEngagementMultiplier(r1) <= LegacyEngagementMultiplier(r2);
    assert b * s * LegacyEngagementMultiplier(r1) <= b * s * LegacyEngagementMultiplier(r2);
  }

  // ----- the displayed range (inline, lines 356-357) -----

  datatype CostRange = CostRange(minCost: int, maxCost: int)

  /**
   * `int(final_cost * 0.8)` and `int(final_cost * 1.2)`. The range contains the
   * point estimate and is centred on it to within one won: the gap below is at
   * least the gap above and exceeds it by at most 1.
   */
  function DisplayedRange(finalCost: nat): (r: CostRange)
    ensures r.minCost == (0.8 * finalCost as real).Floor
    ensures r.maxCost == (1.2 * finalCost as real).Floor
    ensures 0 <= r.minCost <= finalCost <= r.maxCost
    ensures 0 <= (finalCost - r.minCost) - (r.maxCost - finalCost) <= 1
  {
    CostRange((finalCost as real * 0.8).Floor, (finalCost as real * 1.2).Floor)
  }

  // ----- the valuation flow of lines 295-357 -----

  /** What the app shows once the channel's statistics and its recent videos are in. */
  datatype Valuation = Valuation(avgViews: nat, avgEngagementRate: real, cost: LegacyCost, range: CostRange)

  /**
   * An empty sample gives no valuation at all ("recent videos unavailable"),
   * which the app keeps distinct from a zero fee; otherwise the averages feed
   * the legacy estimator and its fee feeds the range.
   */
  function Valuate(subscribers: nat, recentVideos: seq<Video>): (v: Option<Valuation>)
    ensures v.None? <==> recentVideos == []
    ensures v.Some? ==>
      && v.value.avgViews == CalculateAverageViews(recentVideos)
      && v.value.avgEngagementRate == AverageEngagementRate(recentVideos)
      && v.value.cost == EstimateAdCost(subscribers, v.value.avgViews, v.value.avgEngagementRate)
      && v.value.range == DisplayedRange(v.value.cost.finalCost)
      && v.value.range.minCost <= v.value.cost.finalCost <= v.value.range.maxCost
  {
    if recentVideos == [] then None
    else
      var avgViews := CalculateAverageViews(recentVideos);
      var rate := AverageEngagementRate(recentVideos);
      var cost := EstimateAdCost(subscribers, avgViews, rate);
      Some(Valuation(avgViews, rate, cost, DisplayedRange(cost.finalCost)))
  }
}
