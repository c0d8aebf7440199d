/**
 * The deterministic parts of the brand-safety analyzer around the remote
 * Gemini call: the availability gate, the summary of the five most recent
 * videos, the cleaning of the model's reply (whitespace trim and code-fence
 * removal) and the shape "never raise: return a report, an error record, or
 * nothing". The remote call and `json.loads` are parameters of the model.
 */
module BrandSafety {
  import opened Wrappers
  import opened VideoData
  import NumberFormat

  // ----- str.strip() -----

  /**
   * The characters `strip()` removes: those for which Python's `str.isspace()`
   * holds (tab to carriage return, the four information separators, space,
   * NEL, no-break space and the Unicode space separators).
   */
  predicate IsSpace(c: char) {
    ('\t' <= c <= '\r') || ('\U{001C}' <= c <= ' ') || c == '\U{0085}' || c == '\U{00A0}'
    || c == '\U{1680}' || ('\U{2000}' <= c <= '\U{200A}') || c == '\U{2028}' || c == '\U{2029}'
    || c == '\U{202F}' || c == '\U{205F}' || c == '\U{3000}'
  }

  /** Drops leading whitespace: the result is a suffix whose removed part is all whitespace. */
  function TrimStart(s: string): (r: string)
    ensures |r| <= |s| && r == s[|s| - |r|..]
    ensures forall i :: 0 <= i < |s| - |r| ==> IsSpace(s[i])
    ensures r == [] || !IsSpace(r[0])
  {
    if s != [] && IsSpace(s[0]) then
      var r := TrimStart(s[1..]);
      assert forall i :: 1 <= i < |s| - |r| ==> s[i] == s[1..][i - 1];
      r
    else s
  }

  /** Drops trailing whitespace: the result is a prefix whose removed part is all whitespace. */
  function TrimEnd(s: string): (r: string)
    ensures |r| <= |s| && r == s[..|r|]
    ensures forall i :: |r| <= i < |s| ==> IsSpace(s[i])
    ensures r == [] || !IsSpace(r[|r| - 1])
  {
    if s != [] && IsSpace(s[|s| - 1]) then TrimEnd(s[..|s| - 1]) else s
  }

  /** Neither the first nor the last character is whitespace. */
  predicate Trimmed(s: string) {
    |s| == 0 || (!IsSpace(s[0]) && !IsSpace(s[|s| - 1]))
  }

  predicate AllSpace(s: string) {
    forall i :: 0 <= i < |s| ==> IsSpace(s[i])
  }

  /** `r` is `s` with `k` spaces cut off the front and only spaces cut off the back. */
  predicate SpacePadded(s: string, r: string, k: nat) {
    k + |r| <= |s| && r == s[k..k + |r|] && AllSpace(s[..k]) && AllSpace(s[k + |r|..])
  }

  /** `s.strip()`. */
  function Strip(s: string): (r: string)
    ensures |r| <= |s|
    ensures Trimmed(r)
    ensures SpacePadded(s, r, |s| - |TrimStart(s)|)
    ensures r == [] <==> AllSpace(s)
  {
    StripSlice(s);
    TrimEnd(TrimStart(s))
  }

  lemma StripSlice(s: string)
    ensures |TrimEnd(TrimStart(s))| <= |s| && Trimmed(TrimEnd(TrimStart(s)))
    ensures SpacePadded(s, TrimEnd(TrimStart(s)), |s| - |TrimStart(s)|)
    ensures TrimEnd(TrimStart(s)) == [] <==> AllSpace(s)
  {
    var t := TrimStart(s);
    var r := TrimEnd(t);
    var k := |s| - |t|;
    assert SpacePadded(s, r, k) by {
      TrimStartRemovesSpace(s);
      TrimEndRemovesSpace(t);
      SpacePaddedSlices(s, t, r, k);
    }
    assert Trimmed(r) by { StripTrimmed(s); }
    SpacePaddedEmpty(s, r, k);
  }

  lemma StripTrimmed(s: string)
    ensures Trimmed(TrimEnd(TrimStart(s)))
  {
    var t := TrimStart(s);
    var r := TrimEnd(t);
    if r != [] {
      assert r[0] == t[0];
    }
  }

  /** Cutting `k` spaces off the front and then only spaces off the back pads by spaces. */
  lemma SpacePaddedSlices(s: string, t: string, r: string, k: nat)
    requires k <= |s| && t == s[k..] && |r| <= |t| && r == t[..|r|]
    requires AllSpace(s[..k]) && AllSpace(t[|r|..])
    ensures SpacePadded(s, r, k)
  {
    assert s[k + |r|..] == t[|r|..];
  }

  /** A space-padded core is empty exactly when everything is space, given that it does not start with one. */
  lemma SpacePaddedEmpty(s: string, r: string, k: nat)
    requires SpacePadded(s, r, k) && Trimmed(r)
    ensures r == [] <==> AllSpace(s)
  {
    if r == [] {
      AllSpaceConcat(s[..k], s[k..]);
      assert s == s[..k] + s[k..];
    } else {
      assert s[k] == r[0];
    }
  }

  lemma TrimStartRemovesSpace(s: string)
    ensures AllSpace(s[..|s| - |TrimStart(s)|])
  {
    var k := |s| - |TrimStart(s)|;
    forall i | 0 <= i < k ensures IsSpace(s[..k][i]) {
      assert s[..k][i] == s[i];
    }
  }

  lemma TrimEndRemovesSpace(t: string)
    ensures AllSpace(t[|TrimEnd(t)|..])
  {
    var n := |TrimEnd(t)|;
    forall i | 0 <= i < |t| - n ensures IsSpace(t[n..][i]) {
      assert t[n..][i] == t[n + i];
    }
  }

  lemma AllSpaceConcat(a: string, b: string)
    requires AllSpace(a) && AllSpace(b)
    ensures AllSpace(a + b)
  {
    forall i | 0 <= i < |a + b| ensures IsSpace((a + b)[i]) {
      if i < |a| { assert (a + b)[i] == a[i]; } else { assert (a + b)[i] == b[i - |a|]; }
    }
  }

  /** Text that neither begins nor ends with whitespace is left alone by `strip()`. */
  lemma StripKeepsTrimmed(s: string)
    requires Trimmed(s)
    ensures Strip(s) == s
  {
  }

  lemma {:induction false} TrimStartSkipsSpace(ws: string, t: string)
    requires AllSpace(ws) && t != [] && !IsSpace(t[0])
    ensures TrimStart(ws + t) == t
    decreases |ws|
  {
    if ws == [] {
      assert ws + t == t;
    } else {
      assert (ws + t)[0] == ws[0];
      assert (ws + t)[1..] == ws[1..] + t;
      TrimStartSkipsSpace(ws[1..], t);
    }
  }

  lemma {:induction false} TrimEndSkipsSpace(t: string, ws: string)
    requires AllSpace(ws) && t != [] && !IsSpace(t[|t| - 1])
    ensures TrimEnd(t + ws) == t
    decreases |ws|
  {
    if ws == [] {
      assert t + ws == t;
    } else {
      assert (t + ws)[|t + ws| - 1] == ws[|ws| - 1];
      assert (t + ws)[..|t + ws| - 1] == t + ws[..|ws| - 1];
      TrimEndSkipsSpace(t, ws[..|ws| - 1]);
    }
  }

  /** `strip()` removes exactly the surrounding whitespace of text that has a non-blank first and last character. */
  lemma StripSurrounded(ws1: string, t: string, ws2: string)
    requires AllSpace(ws1) && AllSpace(ws2)
    requires t != [] && !IsSpace(t[0]) && !IsSpace(t[|t| - 1])
    ensures Strip(ws1 + t + ws2) == t
  {
    assert ws1 + t + ws2 == ws1 + (t + ws2);
    TrimStartSkipsSpace(ws1, t + ws2);
    TrimEndSkipsSpace(t, ws2);
  }

  // ----- code-fence stripping (lines 219-224) -----

  predicate StartsWith(s: string, p: string) {
    |p| <= |s| && s[..|p|] == p
  }

  predicate EndsWith(s: string, p: string) {
    |p| <= |s| && s[|s| - |p|..] == p
  }

  const JsonFence: string := "```json"
  const Fence: string := "```"

  function DropPrefix(s: string, p: string): (r: string)
    ensures StartsWith(s, p) ==> r == s[|p|..]
    ensures !StartsWith(s, p) ==> r == s
  {
    if StartsWith(s, p) then s[|p|..] else s
  }

  function DropSuffix(s: string, p: string): (r: string)
    ensures EndsWith(s, p) ==> r == s[..|s| - |p|]
    ensures !EndsWith(s, p) ==> r == s
  {
    if EndsWith(s, p) then s[..|s| - |p|] else s
  }

  /**
   * How many leading characters the two prefix rules remove together: 7 for
   * "```json", 3 more when a "```" follows it, 3 for a bare "```", else 0.
   */
  function LeadingFenceLength(text: string): (n: nat)
    ensures (n == 0 || n == 3 || n == 7 || n == 10) && n <= |text|
  {
    if StartsWith(text, JsonFence) then
      (if StartsWith(text[7..], Fence) then 10 else 7)
    else if StartsWith(text, Fence) then 3
    else 0
  }

  /**
   * The three `if`s in order: drop a leading "```json", then a leading "```",
   * then a trailing "```". Each rule is tried once, so the result is the
   * input with `LeadingFenceLength` characters cut from the front and 0 or 3
   * from the back, and never longer than the input.
   */
  function StripFences(text: string): (r: string)
    ensures |r| <= |text|
    ensures var front := LeadingFenceLength(text);
      && front + |r| <= |text| && r == text[front..front + |r|]
      && (|text| - front - |r| == 0 || |text| - front - |r| == 3)
      && (|text| - front - |r| == 3 <==> EndsWith(text[front..], Fence))
  {
    var afterJson := DropPrefix(text, JsonFence);
    var afterFence := DropPrefix(afterJson, Fence);
    var r := DropSuffix(afterFence, Fence);
    var front := |text| - |afterFence|;
    assert front == LeadingFenceLength(text);
    assert afterFence == text[front..];
    assert r == text[front..front + |r|];
    r
  }

  /** Text that neither starts nor ends with a fence passes through untouched. */
  lemma StripFencesPassThrough(text: string)
    requires !StartsWith(text, Fence) && !EndsWith(text, Fence)
    ensures StripFences(text) == text
  {
  }

  /** A reply that only ends with a fence loses just that closing fence. */
  lemma StripFencesDropsClosingFence(body: string)
    requires !StartsWith(body + Fence, Fence)
    ensures StripFences(body + Fence) == body
  {
    var text := body + Fence;
    assert text[|text| - 3..] == Fence;
    assert text[..|text| - 3] == body;
  }

  /** A body fenced as "```json ... ```" comes back exactly, unless the body itself opens with a fence. */
  lemma StripFencesUnwrapsJsonFence(body: string)
    requires !StartsWith(body, Fence)
    ensures StripFences(JsonFence + body + Fence) == body
  {
    var text := JsonFence + body + Fence;
    assert text[|JsonFence|..] == body + Fence;
    assert StartsWith(text, JsonFence);
    var rest := body + Fence;
    if StartsWith(rest, Fence) {
      // Only the empty body and bodies of one or two backquotes get here; the
      // second rule then removes the closing fence in place of the third.
      assert |body| < 3;
      assert forall i :: 0 <= i < |body| ==> body[i] == '`' by {
        forall i | 0 <= i < |body| ensures body[i] == '`' {
          assert rest[i] == Fence[i];
        }
      }
      assert rest[3..] == body by {
        assert |rest| == |body| + 3;
        forall i | 0 <= i < |body| ensures rest[3 + i] == body[i] {
          assert rest[3 + i] == '`';
        }
      }
      assert !EndsWith(body, Fence);
    } else {
      assert EndsWith(rest, Fence);
      assert rest[..|rest| - 3] == body;
    }
  }

  /** A body fenced as "``` ... ```" comes back exactly, unless it opens with "json" or a fence. */
  lemma StripFencesUnwrapsPlainFence(body: string)
    requires !StartsWith(body, Fence) && !StartsWith(body, "json")
    ensures StripFences(Fence + body + Fence) == body
  {
    var text := Fence + body + Fence;
    assert |text| < 7 || text[3..7] != "json" by {
      if |body| >= 4 {
        assert text[3..7] == body[..4];
      } else if |body| >= 1 {
        assert text[3..7][|body|] == '`';
      }
    }
    assert text[3..] == body + Fence;
    var rest := body + Fence;
    assert EndsWith(rest, Fence);
    assert rest[..|rest| - 3] == body;
  }

  /** Lines 217-226 up to `json.loads`: strip, remove the fences, strip again. */
  function CleanResponse(text: string): (r: string)
    ensures |r| <= |text|
    ensures Trimmed(r)
  {
    var stripped := Strip(text);
    var unfenced := StripFences(stripped);
    var cleaned := Strip(unfenced);
    assert |cleaned| <= |unfenced| <= |stripped| <= |text|;
    cleaned
  }

  /** A reply with no fence at either end, once stripped, comes out as just the stripped reply. */
  lemma CleanResponsePassThrough(text: string)
    requires !StartsWith(Strip(text), Fence) && !EndsWith(Strip(text), Fence)
    ensures CleanResponse(text) == Strip(text)
  {
    StripFencesPassThrough(Strip(text));
    StripKeepsTrimmed(Strip(text));
  }

  /**
   * The usual shape of a model reply, a JSON body inside a "```json" fence
   * with blank lines around, is cleaned down to the stripped body.
   */
  lemma CleanResponseUnwrapsFencedReply(ws1: string, body: string, ws2: string)
    requires AllSpace(ws1) && AllSpace(ws2) && !StartsWith(body, Fence)
    ensures CleanResponse(ws1 + JsonFence + body + Fence + ws2) == Strip(body)
  {
    var fenced := JsonFence + body + Fence;
    assert ws1 + JsonFence + body + Fence + ws2 == ws1 + fenced + ws2;
    assert fenced[0] == '`' && fenced[|fenced| - 1] == '`';
    StripSurrounded(ws1, fenced, ws2);
    StripFencesUnwrapsJsonFence(body);
  }

  // ----- the recent-video summary (lines 59-67) -----

  /** `s[:n]`. */
  function Truncate(s: string, n: nat): (r: string)
    ensures |r| == (if |s| <= n then |s| else n) && r == s[..|r|]
  {
    if |s| <= n then s else s[..n]
  }

  /** One `video_info` entry for the `index`-th video (1-based). */
  function SummaryLine(index: nat, v: Video): string {
    NumberFormat.Decimal(index) + ". 제목: " + Truncate(v.title, 50)
      + "..., 조회수: " + NumberFormat.FormatNumber(Views(v.statistics))
      + ", 좋아요: " + NumberFormat.FormatNumber(Likes(v.statistics))
      + ", 댓글: " + NumberFormat.FormatNumber(Comments(v.statistics))
  }

  function Min(a: nat, b: nat): nat {
    if a <= b then a else b
  }

  /** The entries the loop produces, as a specification. */
  function SummaryLines(videos: seq<Video>): (lines: seq<string>)
    ensures |lines| == Min(5, |videos|)
    ensures forall i :: 0 <= i < |lines| ==> lines[i] == SummaryLine(i + 1, videos[i])
  {
    seq(Min(5, |videos|), i requires 0 <= i < Min(5, |videos|) => SummaryLine(i + 1, videos[i]))
  }

  /**
   * The `for i, video in enumerate(recent_videos[:5], 1)` loop: one entry per
   * video among the first five, numbered from 1.
   */
  method SummarizeVideos(videos: seq<Video>) returns (lines: seq<string>)
    ensures lines == SummaryLines(videos)
  {
    var recent := videos[..Min(5, |videos|)];
    ghost var expected := SummaryLines(videos);
    lines := [];
    for i := 0 to |recent|
      invariant lines == expected[..i]
    {
      var line := SummaryLine(i + 1, recent[i]);
      assert line == expected[i] by { assert recent[i] == videos[i]; }
      PrefixStep(expected, i);
      lines := lines + [line];
    }
    PrefixWhole(expected);
  }

  lemma PrefixStep<T>(xs: seq<T>, i: nat)
    requires i < |xs|
    ensures xs[..i + 1] == xs[..i] + [xs[i]]
  {
  }

  lemma PrefixWhole<T>(xs: seq<T>)
    ensures xs[..|xs|] == xs
  {
  }

  /** The title text an entry carries is the title cut to at most 50 characters. */
  lemma SummaryTitleCapped(v: Video)
    ensures |v.title| > 50 ==> Truncate(v.title, 50) == v.title[..50]
    ensures |v.title| <= 50 ==> Truncate(v.title, 50) == v.title
  {
  }

  /** Total number of characters in `lines`. */
  function TotalLength(lines: seq<string>): nat {
    if lines == [] then 0 else TotalLength(lines[..|lines| - 1]) + |lines[|lines| - 1]|
  }

  /** Where line `i` starts in the joined text: after the earlier lines and one separator each. */
  function Offset(lines: seq<string>, i: nat): nat
    requires i <= |lines|
  {
    TotalLength(lines[..i]) + i
  }

  /** Dropping the last line moves none of the earlier lines. */
  lemma OffsetOfInit(lines: seq<string>)
    requires lines != []
    ensures forall i :: 0 <= i < |lines| ==> Offset(lines, i) == Offset(lines[..|lines| - 1], i)
  {
    forall i | 0 <= i < |lines| ensures Offset(lines, i) == Offset(lines[..|lines| - 1], i) {
      assert lines[..i] == lines[..|lines| - 1][..i];
    }
  }

  /**
   * `s` is `lines` joined by "\n": every line in order at its offset, a
   * separator just before each line but the first, and nothing else.
   */
  predicate Joined(lines: seq<string>, s: string) {
    && (lines == [] ==> s == "")
    && (lines != [] ==> |s| == TotalLength(lines) + |lines| - 1)
    && (forall i :: 0 <= i < |lines| ==>
          Offset(lines, i) + |lines[i]| <= |s| && s[Offset(lines, i)..Offset(lines, i) + |lines[i]|] == lines[i])
    && (forall i :: 0 < i < |lines| ==> Offset(lines, i) <= |s| && s[Offset(lines, i) - 1] == '\n')
  }

  /** `"\n".join(video_info)`: the empty text for no lines, one character per gap otherwise. */
  function JoinLines(lines: seq<string>): (s: string)
    ensures Joined(lines, s)
  {
    if lines == [] then ""
    else if |lines| == 1 then
      assert lines[..0] == [] && lines[..1] == lines;
      lines[0]
    else
      var j := JoinLines(lines[..|lines| - 1]);
      JoinedExtend(lines, j);
      j + "\n" + lines[|lines| - 1]
  }

  /** Appending a separator and the last line to the joined earlier lines joins them all. */
  lemma JoinedExtend(lines: seq<string>, j: string)
    requires |lines| >= 2 && Joined(lines[..|lines| - 1], j)
    ensures Joined(lines, j + "\n" + lines[|lines| - 1])
  {
    var s := j + "\n" + lines[|lines| - 1];
    OffsetOfInit(lines);
    LastOffset(lines, j);
    forall i | 0 <= i < |lines|
      ensures Offset(lines, i) + |lines[i]| <= |s| && s[Offset(lines, i)..Offset(lines, i) + |lines[i]|] == lines[i]
    {
      ExtendedLineAt(lines, j, i);
    }
    forall i | 0 < i < |lines| ensures Offset(lines, i) <= |s| && s[Offset(lines, i) - 1] == '\n' {
      ExtendedSeparatorAt(lines, j, i);
    }
  }

  lemma LastOffset(lines: seq<string>, j: string)
    requires |lines| >= 2 && Joined(lines[..|lines| - 1], j)
    ensures Offset(lines, |lines| - 1) == |j| + 1
    ensures |j| + 1 + |lines[|lines| - 1]| == TotalLength(lines) + |lines| - 1
  {
    assert lines[..|lines| - 1] == lines[..|lines| - 1];
    assert lines[..|lines|] == lines;
  }

  lemma ExtendedLineAt(lines: seq<string>, j: string, i: nat)
    requires |lines| >= 2 && Joined(lines[..|lines| - 1], j) && i < |lines|
    requires Offset(lines, |lines| - 1) == |j| + 1
    requires i < |lines| - 1 ==> Offset(lines, i) == Offset(lines[..|lines| - 1], i)
    ensures var s := j + "\n" + lines[|lines| - 1];
      Offset(lines, i) + |lines[i]| <= |s| && s[Offset(lines, i)..Offset(lines, i) + |lines[i]|] == lines[i]
  {
    var init := lines[..|lines| - 1];
    var s := j + "\n" + lines[|lines| - 1];
    if i < |init| {
      assert lines[i] == init[i];
      assert s[Offset(lines, i)..Offset(lines, i) + |lines[i]|] == j[Offset(init, i)..Offset(init, i) + |init[i]|];
    } else {
      assert s[|j| + 1..] == lines[|lines| - 1];
    }
  }

  lemma ExtendedSeparatorAt(lines: seq<string>, j: string, i: nat)
    requires |lines| >= 2 && Joined(lines[..|lines| - 1], j) && 0 < i < |lines|
    requires Offset(lines, |lines| - 1) == |j| + 1
    requires i < |lines| - 1 ==> Offset(lines, i) == Offset(lines[..|lines| - 1], i)
    ensures var s := j + "\n" + lines[|lines| - 1];
      Offset(lines, i) <= |s| && s[Offset(lines, i) - 1] == '\n'
  {
    var init := lines[..|lines| - 1];
    var s := j + "\n" + lines[|lines| - 1];
    if i < |init| {
      assert s[Offset(lines, i) - 1] == j[Offset(init, i) - 1];
    }
  }

  // ----- analyze_with_gemini -----

  /**
   * Everything the prompt is built from. The prompt's fixed rubric text is
   * not modelled; the generation oracle receives these values directly.
   */
  datatype PromptInput = PromptInput(
    channelName: string,
    subscriberCount: nat,
    avgViews: nat,
    engagementRate: real,
    videoSummary: string,
    finalCost: int)

  /** What the analyzer returns when it runs: the parsed report, or `{"error": message}`. */
  datatype Analysis<J> = Report(report: J) | ErrorRecord(error: string)

  /**
   * `analyze_with_gemini`. `geminiAvailable` is the module's import flag,
   * `generate` the remote generation (which may raise), and `parse` is
   * `json.loads` (which may raise), yielding `None` for a JSON `null`. The
   * function returns nothing when the library or the key is missing, and
   * also when the reply parses to `null`, which is returned as it is;
   * otherwise every raised error becomes an error record carrying its message.
   */
  function AnalyzeWithGemini<J>(
    channelName: string, subscriberCount: nat, avgViews: nat, engagementRate: real,
    recentVideos: seq<Video>, finalCost: int, geminiApiLoaded: bool, geminiAvailable: bool,
    generate: PromptInput -> Result<string>, parse: string -> Result<Option<J>>): (r: Option<Analysis<J>>)
    ensures var reply := generate(PromptInput(channelName, subscriberCount, avgViews, engagementRate,
                                              JoinLines(SummaryLines(recentVideos)), finalCost));
      r.None? <==> !geminiAvailable || !geminiApiLoaded
                   || (reply.Ok? && parse(CleanResponse(reply.value)) == Ok(None))
    ensures r.Some? ==>
      var reply := generate(PromptInput(channelName, subscriberCount, avgViews, engagementRate,
                                        JoinLines(SummaryLines(recentVideos)), finalCost));
      && (reply.Err? ==> r.value == ErrorRecord(reply.message))
      && (reply.Ok? ==> match parse(CleanResponse(reply.value))
                        case Ok(j) => j.Some? && r.value == Report(j.value)
                        case Err(m) => r.value == ErrorRecord(m))
  {
    if !geminiAvailable || !geminiApiLoaded then None
    else
      var summary := JoinLines(SummaryLines(recentVideos));
      var prompt := PromptInput(channelName, subscriberCount, avgViews, engagementRate, summary, finalCost);
      match generate(prompt)
      case Err(m) => Some(ErrorRecord(m))
      case Ok(text) =>
        match parse(CleanResponse(text))
        case Err(m) => Some(ErrorRecord(m))
        case Ok(None) => None
        case Ok(Some(j)) => Some(Report(j))
  }

  /** A reply the parser rejects surfaces as an error record, never as a missing or raised result. */
  lemma UnparseableReplyIsErrorRecord<J>(
    prompt: PromptInput, recentVideos: seq<Video>, generate: PromptInput -> Result<string>,
    parse: string -> Result<Option<J>>)
    requires prompt.videoSummary == JoinLines(SummaryLines(recentVideos))
    requires generate(prompt).Ok? && parse(CleanResponse(generate(prompt).value)).Err?
    ensures AnalyzeWithGemini(prompt.channelName, prompt.subscriberCount, prompt.avgViews,
      prompt.engagementRate, recentVideos, prompt.finalCost, true, true, generate, parse)
      == Some(ErrorRecord(parse(CleanResponse(generate(prompt).value)).message))
  {
  }
}
