# YouTube influencer ad-cost estimation, modelled in Dafny

This project models the deterministic core of a YouTube influencer search and
pricing tool. The tool reads a channel URL, fetches the channel and its recent
videos from the YouTube Data API, derives averages over that sample, and
prices a single sponsored video in Korean won. An optional Gemini-based
brand-safety report sits beside it. The model covers:

- **`CostCalculator`** (`cost_calculator.py`, v3.0 estimator):
  - the five-bracket subscriber tier;
  - the CPM cost of 39,000 won per 1,000 views, set against a per-tier floor of 350,000 / 2,500,000 / 5,200,000 / 19,500,000 / 47,500,000 won;
  - the seven-band engagement multiplier;
  - the Korean-market wrapper, which scales every money field by 0.85 below 100,000 subscribers and by 0.75 from there on.
- **`InfluencerApp`** (`youtube_influencer_app.py`):
  - extracting a channel reference from a URL, trying four patterns in order;
  - the per-video engagement rate;
  - the floor mean of views;
  - the mean engagement rate over the sample;
  - the legacy estimator the app actually calls: 10 won per view, times a subscriber multiplier and an engagement multiplier;
  - the displayed ±20% range;
  - the composed valuation flow of the results page.
- **`BrandSafety`** (`brand_safety_analyzer.py`):
  - the availability gate;
  - the summary of the first five videos, each title cut to 50 characters;
  - cleaning the model's reply: `strip()`, then the three code-fence rules, then `strip()` again;
  - the never-raise result shape.

  The remote generation call and `json.loads` are function parameters (oracles) here.
- **`NumberFormat`**: `format_number`, i.e. Python's `f"{num:,}"`. Both Python files define it, with the same body.
- **`VideoData`** and **`Wrappers`**: the video records the API returns, and `Option`/`Result`. An absent counter reads as 0, matching `.get(key, 0)`.

Every amount is an exact integer or real. Python's `int()` on a non-negative
number is `Floor`. The app does not call the v3.0 estimator, so the two
estimators are modelled independently.

Where the code and its own docstrings disagree, the model follows the code:

- The legacy estimator's docstring says "100,000 or below: 0.8" and "3% or below: 0.9". The code tests strict `< 100000` and `< 3`. So exactly 100,000 subscribers earns 1.0, and exactly 3% earns 1.0.

## Model

| member | source | states |
|---|---|---|
| CostCalculator.ClassifyTier | cost_calculator.py:10-24 | each of the five tiers holds exactly on its bracket (<10,000; 10,000–99,999; 100,000–499,999; 500,000–999,999; ≥1,000,000), so every count has exactly one tier and a breakpoint belongs to the upper bracket |
| CostCalculator.GetInfluencerTier | cost_calculator.py:10-24 | the returned (name, range) pair equals a tier's labels exactly when that tier is the count's tier, so the pair identifies the tier |
| CostCalculator.TierMonotone | cost_calculator.py:15-24 | more subscribers never gives a lower tier |
| CostCalculator.TierFloor | cost_calculator.py:42-51 | the floor is one of 350,000, 2,500,000, 5,200,000, 19,500,000, 47,500,000 |
| CostCalculator.TierFloorStrictlyIncreasing | cost_calculator.py:42-51 | a higher tier has a strictly higher floor |
| CostCalculator.ClassifyEngagement | cost_calculator.py:58-78 | the seven `>=` bands at 10/7/5/3/2/1, each holding exactly on its interval |
| CostCalculator.EngagementMultiplier | cost_calculator.py:58-78 | the multiplier is one of 1.5, 1.3, 1.2, 1.1, 1.0, 0.9, 0.85, and lies in [0.85, 1.5] |
| CostCalculator.EngagementMultiplierMonotone | cost_calculator.py:58-78 | a higher engagement rate never gives a smaller multiplier |
| CostCalculator.EngagementLevelsDistinct | cost_calculator.py:58-78 | different bands carry different level labels |
| CostCalculator.EstimateAdCostGlobal | cost_calculator.py:26-91 | `cpm_used` is 39,000; `base_cost_cpm` is 39 × views; `tier_base` is the tier's floor; `base_cost` is at least both and equals one of them (their max); the multiplier and level are the band's; `final_cost` is floor(base × multiplier) |
| CostCalculator.CpmCostIsWhole | cost_calculator.py:37-38 | on exact reals `avg_views / 1000 * 39000` equals 39 × avg_views, so `int()` loses nothing there (binary doubles can fall just below; see Left out) |
| CostCalculator.GlobalAtLeastTierFloor | cost_calculator.py:54-81 | the global final cost is at least floor(0.85 × tier floor), which is positive |
| CostCalculator.GlobalMonotoneInViews | cost_calculator.py:38-81 | more average views never lowers the global final cost |
| CostCalculator.GlobalMonotoneInRate | cost_calculator.py:58-81 | a higher engagement rate never lowers the global final cost |
| CostCalculator.GlobalMonotoneInSubscribers | cost_calculator.py:42-81 | more subscribers never lowers the global final cost |
| CostCalculator.KoreaAdjustment | cost_calculator.py:104-108 | the factor is 0.85 exactly when subscribers < 100,000 and 0.75 exactly when subscribers ≥ 100,000 |
| CostCalculator.KoreaBounds | cost_calculator.py:111 | scaling a non-negative amount by a factor in [0.75, 0.85] and truncating gives a value between floor(0.75 × amount) and the amount |
| CostCalculator.EstimateAdCostKorea | cost_calculator.py:93-122 | every money field is the global field times the factor, truncated on its own; floor(0.75 × global final) ≤ Korean final ≤ global final; multiplier and level pass through unchanged; `cpm_used` is 33,150 or 29,250 |
| CostCalculator.KoreaMonotoneInViews | cost_calculator.py:100-111 | more average views never lowers the Korean final cost |
| CostCalculator.KoreaMonotoneInRate | cost_calculator.py:100-111 | a higher engagement rate never lowers the Korean final cost |
| CostCalculator.KoreaDropsAtHundredThousand | cost_calculator.py:104-111 | the Korean fee is not monotone in subscribers: with 1,000,000 average views and a 5% rate, 99,999 subscribers gives 39,780,000 and 100,000 gives 35,100,000 |
| CostCalculator.KoreaFieldsTruncatedSeparately | cost_calculator.py:111-116 | because each field is truncated on its own, the Korean final cost (364,685 for 10,001 views at 3%) can differ from floor(Korean base × multiplier) (364,686) |
| InfluencerApp.IdRun | youtube_influencer_app.py:37-40 | the greedy `[a-zA-Z0-9_-]+`: a slice of the URL made only of id characters that cannot be extended, non-empty when an id character starts it |
| InfluencerApp.LeftmostFrom | youtube_influencer_app.py:44 | the scan returns the first position at or after the start where the pattern matches, or none when no later position matches |
| InfluencerApp.Search | youtube_influencer_app.py:37-45 | `re.search` finds nothing exactly when no position matches the pattern; otherwise the id is the maximal `[a-zA-Z0-9_-]` run right after the leftmost match of the prefix, and it is non-empty |
| InfluencerApp.PatternIndex | youtube_influencer_app.py:36-41 | each pattern's position in the list of patterns to try |
| InfluencerApp.ExtractChannelId | youtube_influencer_app.py:30-48 | the loop's result is the first pattern in list order that matches; no result exactly when no pattern matches; a result carries a valid id equal to its pattern's search result, and every earlier pattern found nothing |
| InfluencerApp.ChannelPathTakesPrecedence | youtube_influencer_app.py:36-46 | a `/channel/` match anywhere in the URL wins over the other shapes; its id is the maximal run after the leftmost `/channel/` |
| InfluencerApp.ExactRate | youtube_influencer_app.py:139 | the unrounded rate r satisfies r × views = (likes + comments) × 100 and is non-negative |
| InfluencerApp.RoundTo2 | youtube_influencer_app.py:140 | `round(x, 2)` is a whole number of hundredths within half a hundredth of x (above x − 0.005, at most x + 0.005) |
| InfluencerApp.CalculateEngagementRate | youtube_influencer_app.py:127-140 | the rate is non-negative, 0 for a video without views, and otherwise the exact rate rounded to two decimals |
| InfluencerApp.RoundingCanLiftLegacyBand | youtube_influencer_app.py:139-140 | 2,996 likes on 100,000 views is 2.996%, below 3, yet rounds to 3.0, so the legacy engagement multiplier is 1.0 rather than the 0.9 the unrounded rate would get |
| InfluencerApp.MinViews | youtube_influencer_app.py:149 | a lower bound on every video's views that is attained |
| InfluencerApp.MaxViews | youtube_influencer_app.py:149 | an upper bound on every video's views that is attained |
| InfluencerApp.SumViewsBounds | youtube_influencer_app.py:149 | when every count lies in [lo, hi], the total lies in [n·lo, n·hi] |
| InfluencerApp.CalculateAverageViews | youtube_influencer_app.py:142-150 | 0 for an empty list; otherwise the floor quotient (r·n ≤ total < (r+1)·n), which lies between the smallest and largest view counts |
| InfluencerApp.FloorMeanBetween | youtube_influencer_app.py:149-150 | `total // len` satisfies the floor-quotient bounds and lies between the minimum and maximum counts |
| InfluencerApp.EngagementRates | youtube_influencer_app.py:300-303 | one rate per video, in order, each that video's engagement rate |
| InfluencerApp.AverageEngagementRate | youtube_influencer_app.py:304 | mean × number of videos = sum of rates, and the mean is non-negative |
| InfluencerApp.SumRealsNonNegative | youtube_influencer_app.py:304 | a sum of non-negative rates is non-negative |
| InfluencerApp.SumRealsAtMost | youtube_influencer_app.py:304 | a sum of n rates each at most c is at most n·c |
| InfluencerApp.AverageEngagementRateAtMost | youtube_influencer_app.py:300-304 | when every video's rate is at most c, so is the mean |
| InfluencerApp.ZeroViewVideoDilutesMean | youtube_influencer_app.py:300-304 | a video without views still counts in the denominator: adding it to n videos gives mean' × (n+1) = mean × n |
| InfluencerApp.SubscriberMultiplier | youtube_influencer_app.py:176-183 | 0.8, 1.0, 1.2 or 1.5, each exactly on its strict-`<` bracket at 100,000 / 500,000 / 1,000,000 |
| InfluencerApp.LegacyEngagementMultiplier | youtube_influencer_app.py:186-193 | 0.9, 1.0, 1.1 or 1.2, each exactly on its strict-`<` bracket at 3 / 5 / 7, so exactly 3 gives 1.0 |
| InfluencerApp.EstimateAdCost | youtube_influencer_app.py:152-203 | base is 10 × views; the two multipliers are the bracket values; final is floor(base × subscriber × engagement multiplier), between floor(0.72 × base) and floor(1.8 × base) |
| InfluencerApp.LegacyBounds | youtube_influencer_app.py:196 | with multipliers in [0.8, 1.5] and [0.9, 1.2], the truncated product lies between floor(0.72 × base) and floor(1.8 × base) |
| InfluencerApp.LegacyMonotoneInViews | youtube_influencer_app.py:173-202 | more average views never lowers the legacy final cost |
| InfluencerApp.LegacyMonotoneInSubscribers | youtube_influencer_app.py:176-202 | more subscribers never lowers the legacy final cost |
| InfluencerApp.LegacyMonotoneInRate | youtube_influencer_app.py:186-202 | a higher mean engagement rate never lowers the legacy final cost |
| InfluencerApp.DisplayedRange | youtube_influencer_app.py:355-357 | min = floor(0.8 × final), max = floor(1.2 × final), min ≤ final ≤ max, and the gap below exceeds the gap above by 0 or 1 |
| InfluencerApp.Valuate | youtube_influencer_app.py:295-357 | no valuation exactly when the sample is empty; otherwise the average views, mean rate, legacy cost of those averages, and the displayed range of that cost (floors of 0.8× and 1.2×), which contains the fee |
| NumberFormat.Decimal | youtube_influencer_app.py:209 | the plain numeral: non-empty, all digits, a single digit below 10 (so 0 is "0"), and no leading zero for positive numbers |
| NumberFormat.DecimalRoundTrip | youtube_influencer_app.py:209 | reading the numeral's digits back gives the number |
| NumberFormat.Grouped | youtube_influencer_app.py:209 | non-empty, starting with a digit, only digits and commas, with a comma exactly at distances 3, 7, 11, … from the end |
| NumberFormat.GroupedDigits | brand_safety_analyzer.py:24-26 | deleting the commas from the grouped form gives the plain numeral |
| NumberFormat.FormatNumber | youtube_influencer_app.py:205-209 | a minus sign exactly for negative numbers, then a digit, then digits and commas with each comma before a group of three from the right; deleting the commas gives the sign followed by the numeral of the magnitude (the analyzer's copy at brand_safety_analyzer.py:24-26 is the same function) |
| BrandSafety.TrimStart | brand_safety_analyzer.py:217 | a suffix of the input: everything removed is whitespace and the result does not start with whitespace |
| BrandSafety.TrimEnd | brand_safety_analyzer.py:217 | a prefix of the input: everything removed is whitespace and the result does not end with whitespace |
| BrandSafety.Strip | brand_safety_analyzer.py:217 | the result is a slice of the input with only whitespace before and after it, neither starts nor ends with whitespace, and is empty exactly when the input is all whitespace |
| BrandSafety.StripKeepsTrimmed | brand_safety_analyzer.py:217 | `strip()` leaves text that has no edge whitespace unchanged, so it is idempotent |
| BrandSafety.StripSurrounded | brand_safety_analyzer.py:217 | whitespace around a body with non-blank ends is removed, giving exactly the body |
| BrandSafety.LeadingFenceLength | brand_safety_analyzer.py:219-222 | the two prefix rules together remove 0, 3, 7 or 10 characters, never more than the text has |
| BrandSafety.StripFences | brand_safety_analyzer.py:219-224 | every rule fires at most once: the result is the input with the leading fence length cut from the front and 3 characters cut from the back exactly when what remains after the front cut ends with "```" (none otherwise), so it is never longer than the input |
| BrandSafety.StripFencesPassThrough | brand_safety_analyzer.py:219-224 | text that neither starts nor ends with a fence is unchanged |
| BrandSafety.StripFencesDropsClosingFence | brand_safety_analyzer.py:223-224 | a reply that does not start with a fence but ends with one loses exactly that closing fence |
| BrandSafety.StripFencesUnwrapsJsonFence | brand_safety_analyzer.py:219-224 | a "```json" fence around a body that does not itself open with a fence gives back exactly the body |
| BrandSafety.StripFencesUnwrapsPlainFence | brand_safety_analyzer.py:219-224 | a plain fence around a body that opens with neither a fence nor "json" gives back exactly the body |
| BrandSafety.CleanResponse | brand_safety_analyzer.py:217-226 | the text handed to `json.loads` is never longer than the reply and has no edge whitespace |
| BrandSafety.CleanResponsePassThrough | brand_safety_analyzer.py:217-226 | a reply whose stripped form has no fence at either end is cleaned to just its stripped form |
| BrandSafety.CleanResponseUnwrapsFencedReply | brand_safety_analyzer.py:217-226 | a JSON body in a "```json" fence, with whitespace around, is cleaned to the stripped body |
| BrandSafety.Truncate | brand_safety_analyzer.py:65 | `title[:50]` is the prefix of length min(50, length of the title) |
| BrandSafety.SummaryLines | brand_safety_analyzer.py:59-65 | exactly min(5, number of videos) entries; entry i describes video i and is numbered i + 1 |
| BrandSafety.SummarizeVideos | brand_safety_analyzer.py:59-65 | the append loop produces exactly the specified entries |
| BrandSafety.JoinLines | brand_safety_analyzer.py:67 | no lines join to the empty text; otherwise every line appears in order at its offset (the earlier lines plus one separator each), a "\n" stands just before every line but the first, and the length is the lines together plus one per gap |
| BrandSafety.SummaryTitleCapped | brand_safety_analyzer.py:65 | a title longer than 50 characters is cut to its first 50; a shorter one is kept whole |
| BrandSafety.AnalyzeWithGemini | brand_safety_analyzer.py:54-231 | nothing exactly when the library is unavailable, the key is not loaded, or the reply parses to JSON `null` (returned as it is); otherwise a generation failure becomes an error record with its message, and a reply becomes the parsed report or the parser's error record |
| BrandSafety.UnparseableReplyIsErrorRecord | brand_safety_analyzer.py:226-231 | a reply the parser rejects becomes an error record with the parser's message, not a missing or raised result |

## Left out

- The Streamlit rendering and module-level UI flow of `youtube_influencer_app.py`. This includes the dispatch that sends a `/channel/` match to one lookup and any other match to the handle lookup. It is presentation only.
- The YouTube Data API calls `get_channel_info_by_id`, `get_channel_info_by_username` and `get_recent_videos`. They are network I/O. Their output enters the model only as `Video` and `VideoStats` records.
- The Gemini client (`GenerativeModel`, `generate_content`) and the prompt's fixed rubric text. They are foreign and non-deterministic. Generation is the `generate` oracle, which receives the values the prompt is built from.
- `json.loads`. It is the `parse` oracle, a partial function that returns a value, `None` for JSON `null`, or an error message.
- The module-level `import google.generativeai` attempt. Its outcome is the `geminiAvailable` parameter.
- Python's `str(e)` of an exception, which is modelled as the message carried by `Err`.
- `KeyError` for a video record missing `snippet`, `title` or `statistics`. The records are total here. In the source such an error inside `analyze_with_gemini` would also become an error record.
- `int()` on the API's string counters. Counters are already naturals here; a non-numeric string would raise in the source.
- InfluencerApp.RoundTo2: rounds every exact tie up. Python rounds the exact value of the binary double instead: a decimal tie such as 2.675 goes to whichever side its double falls on, and only ties the double holds exactly, such as 0.125, go to the even hundredth. So `round((107/4000)*100, 2)` is 2.67 and `round((1/800)*100, 2)` is 0.12, where the model gives 2.68 and 0.13. The two differ only when the exact rate lies halfway between two hundredths.
- IEEE-754 floating point. Multipliers, quotients and sums are exact reals, and binary doubles can differ in ways that matter:
  - `(avg_views / 1000) * 39000` can land just below the whole number: for 43 views it is 1676.9999999999998 as a double, so `int()` gives 1,676 where the model has 1,677. About one view count in 18 up to 2,000,000 is affected. With 8,979 views, under 10,000 subscribers and a 2% rate, the double result is a global final cost of 350,180 where the model has 350,181.
  - The mean of rounded rates at youtube_influencer_app.py:304 is a double sum, and it can fall just under a legacy threshold. Three videos of 10,000 views with 1, 70 and 829 likes have rates 0.01, 0.7 and 8.29. Their double mean is 2.9999999999999996, so line 186 gives ×0.9 and a fee of 72,000 at 50,000 subscribers, where the model's exact mean 3.0 gives ×1.0 and 80,000.
  - `final_cost * 0.8`, `* 1.2` and the multiplier products can likewise shift a truncation.
- The display-only formatting `f"{avg_engagement_rate:.2f}%"` and the prompt's `{engagement_rate:.2f}`.
- No premium, health, growth, consistency, loyalty or comment-quality rule, 30,000-won CPM or ±15% range occurs in these files, so the model has none.
