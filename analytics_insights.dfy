/** `generateInsights`: the insight and recommendation texts chosen by
    thresholds on the five analyses. */
module AnalyticsInsights {
  import opened JsText
  import opened AnalyticsHashtags
  import opened AnalyticsCaptions
  import opened AnalyticsTranscripts
  import opened AnalyticsPostTimes
  import opened AnalyticsEngagement

  /** `${n}` for an integer. */
  function IntToString(n: int): string {
    if n < 0 then "-" + NatToString(-n) else NatToString(n)
  }

  /** `${x}` for a number `x` that is a whole number of hundredths `c`
      (`parseFloat(... .toFixed(2))`): the shortest decimal, without trailing
      zeros in the fraction. */
  function CentsToString(c: int): string {
    var m: nat := if c < 0 then -c else c;
    var whole, frac := m / 100, m % 100;
    var digits :=
      if frac == 0 then NatToString(whole)
      else if frac % 10 == 0 then NatToString(whole) + "." + [DigitChar(frac / 10)]
      else NatToString(whole) + "." + [DigitChar(frac / 10), DigitChar(frac % 10)];
    if c < 0 then "-" + digits else digits
  }

  function StyleName(s: CaptionStyle): string {
    match s
    case Short => "short"
    case Medium => "medium"
    case Long => "long"
  }

  function PaceName(p: Pace): string {
    match p
    case Fast => "fast"
    case MediumPace => "medium"
    case Slow => "slow"
  }

  function PaceEffect(p: Pace): string {
    match p
    case Fast => "keeps viewers engaged"
    case Slow => "allows for better comprehension"
    case MediumPace => "maintains good balance"
  }

  const DayNames: seq<string> := ["Sunday", "Monday", "Tuesday", "Wednesday", "Thursday", "Friday", "Saturday"]

  /** `dayNames[d]`, which is `undefined` outside the week. */
  function DayName(d: int): string {
    if 0 <= d < 7 then DayNames[d] else "undefined"
  }

  /** `hourFormat`: hours after noon count from 1 PM, noon is `12PM`, and
      every other hour, midnight included, is written as itself with `AM`. */
  function HourLabel(h: int): string {
    if h > 12 then IntToString(h - 12) + "PM"
    else if h == 12 then "12PM"
    else IntToString(h) + "AM"
  }

  /** One insight, before it is written out. */
  datatype Insight =
    | BestHashtag(tag: string, engagementRate: nat)
    | CaptionHabits(avgWordCount: nat, style: CaptionStyle)
    | PositiveTone
    | SeriousTone
    | SpeakingPace(pace: Pace)
    | BestTime(day: int, hour: int)
    | AverageRate(cents: int)
    | ExcellentRate

  /** One recommendation, before it is written out. */
  datatype Recommendation =
    | FocusHashtags(tags: seq<string>)
    | AddCallsToAction
    | AskQuestions
    | Schedule(day: int, hour: int)
    | TryTrends

  /** The opening words of the hashtag insight. */
  const HashtagLead := "Your best performing hashtag is #"

  /** The text of an insight; `formatNumber` is `toLocaleString`. Each text
      starts with a short literal of its own, which keeps the opening words
      of different insights comparable. */
  function InsightText(i: Insight, formatNumber: nat -> string): string {
    match i
    case BestHashtag(tag, rate) =>
      HashtagLead + tag + " with an average of " + formatNumber(rate) + " engagement per post"
    case CaptionHabits(words, style) =>
      "Your captions" + " average " + NatToString(words) + " words with " + StyleName(style) + " style"
    case PositiveTone => "Your content has" + " a positive tone, which resonates well with audiences"
    case SeriousTone => "Your content has" + " a more serious or critical tone"
    case SpeakingPace(pace) => "Your speaking" + " pace is " + PaceName(pace) + ", which " + PaceEffect(pace)
    case BestTime(day, hour) => "Your best posting" + " time is " + DayName(day) + "s at " + HourLabel(hour)
    case AverageRate(cents) => "Your average" + " engagement rate is " + CentsToString(cents) + "%"
    case ExcellentRate => "Your engagement" + " rate is excellent! Keep up the great content"
  }

  function RecommendationText(r: Recommendation): string {
    match r
    case FocusHashtags(tags) => "Focus on these high-performing hashtags: " + Join(tags, ", ")
    case AddCallsToAction => "Consider adding more calls-to-action in your captions to drive engagement"
    case AskQuestions => "Try asking more questions in your captions to boost comments"
    case Schedule(day, hour) =>
      "Schedule your posts on " + DayName(day) + "s around " + HourLabel(hour) + " for maximum reach"
    case TryTrends => "Try experimenting with trending audio and more dynamic hooks in the first 3 seconds"
  }

  /** The messages written out one by one, in order. */
  function Rendered<T>(xs: seq<T>, text: T -> string): seq<string> {
    if xs == [] then [] else Rendered(xs[..|xs| - 1], text) + [text(xs[|xs| - 1])]
  }

  function InsightTexts(ins: seq<Insight>, formatNumber: nat -> string): seq<string> {
    Rendered(ins, (i: Insight) => InsightText(i, formatNumber))
  }

  function RecommendationTexts(rs: seq<Recommendation>): seq<string> {
    Rendered(rs, RecommendationText)
  }

  /** Each message is rendered in its place. */
  lemma {:induction false} RenderedAt<T>(xs: seq<T>, text: T -> string, k: int)
    requires 0 <= k < |xs|
    ensures |Rendered(xs, text)| == |xs| && Rendered(xs, text)[k] == text(xs[k])
  {
    var init := xs[..|xs| - 1];
    if k < |xs| - 1 {
      RenderedAt(init, text, k);
    } else if init != [] {
      RenderedAt(init, text, 0);
    }
  }

  /** `hashtagAnalysis.slice(0, 3).map(h => `#${h.hashtag}`)`. */
  function TopThreeTags(h: seq<HashtagAnalysis>): seq<string>
    requires |h| >= 3
  {
    ["#" + h[0].hashtag, "#" + h[1].hashtag, "#" + h[2].hashtag]
  }

  /** The hashtag insight, when there is a hashtag. */
  function HashtagPart(h: seq<HashtagAnalysis>): seq<Insight> {
    if |h| > 0 then [BestHashtag(h[0].hashtag, h[0].engagementRate)] else []
  }

  /** The tone insight, when the score leaves the neutral band. */
  function TonePart(t: TranscriptAnalysis): seq<Insight> {
    if t.sentimentScore > 30 then [PositiveTone] else if t.sentimentScore < -30 then [SeriousTone] else []
  }

  /** The praise, for a rate that is not low and above 5 %. */
  function PraisePart(e: EngagementMetrics): seq<Insight> {
    if e.engagementRate >= 300 && e.engagementRate > 500 then [ExcellentRate] else []
  }

  /** The insights, in the order they are pushed. */
  function InsightsOf(h: seq<HashtagAnalysis>, c: CaptionAnalysis, t: TranscriptAnalysis,
                      p: PostTimeAnalysis, e: EngagementMetrics): seq<Insight> {
    HashtagPart(h) + [CaptionHabits(c.avgWordCount, c.captionStyle)] + TonePart(t) +
    [SpeakingPace(t.paceStyle)] + [BestTime(p.bestDayOfWeek, p.bestHour)] + [AverageRate(e.engagementRate)] +
    PraisePart(e)
  }

  /** The hashtag recommendation, with at least three hashtags. */
  function FocusPart(h: seq<HashtagAnalysis>): seq<Recommendation> {
    if |h| >= 3 then [FocusHashtags(TopThreeTags(h))] else []
  }

  function CtaPart(c: CaptionAnalysis): seq<Recommendation> {
    if c.callToActionUsage < 30 then [AddCallsToAction] else []
  }

  function QuestionPart(c: CaptionAnalysis): seq<Recommendation> {
    if c.questionUsage < 20 then [AskQuestions] else []
  }

  function TrendPart(e: EngagementMetrics): seq<Recommendation> {
    if e.engagementRate < 300 then [TryTrends] else []
  }

  /** The recommendations, in the order they are pushed. */
  function RecommendationsOf(h: seq<HashtagAnalysis>, c: CaptionAnalysis, p: PostTimeAnalysis,
                             e: EngagementMetrics): seq<Recommendation> {
    FocusPart(h) + CtaPart(c) + QuestionPart(c) + [Schedule(p.bestDayOfWeek, p.bestHour)] + TrendPart(e)
  }

  /** `generateInsights`, pushing each message in the order `generateInsights` does; the
      messages become text through `InsightTexts` and `RecommendationTexts`. */
  method GenerateInsights(h: seq<HashtagAnalysis>, c: CaptionAnalysis, t: TranscriptAnalysis,
                          p: PostTimeAnalysis, e: EngagementMetrics)
    returns (insights: seq<Insight>, recommendations: seq<Recommendation>)
    ensures insights == InsightsOf(h, c, t, p, e)
    ensures recommendations == RecommendationsOf(h, c, p, e)
  {
    insights, recommendations := [], [];
    if |h| > 0 {
      var top := h[0];
      insights := insights + [BestHashtag(top.hashtag, top.engagementRate)];
      if |h| >= 3 {
        recommendations := recommendations + [FocusHashtags(TopThreeTags(h))];
      }
    }
    assert insights == HashtagPart(h) && recommendations == FocusPart(h);
    insights := insights + [CaptionHabits(c.avgWordCount, c.captionStyle)];
    if c.callToActionUsage < 30 {
      recommendations := recommendations + [AddCallsToAction];
    }
    if c.questionUsage < 20 {
      recommendations := recommendations + [AskQuestions];
    }
    assert recommendations == FocusPart(h) + CtaPart(c) + QuestionPart(c);
    if t.sentimentScore > 30 {
      insights := insights + [PositiveTone];
    } else if t.sentimentScore < -30 {
      insights := insights + [SeriousTone];
    }
    assert insights == HashtagPart(h) + [CaptionHabits(c.avgWordCount, c.captionStyle)] + TonePart(t);
    insights := insights + [SpeakingPace(t.paceStyle)];
    insights := insights + [BestTime(p.bestDayOfWeek, p.bestHour)];
    recommendations := recommendations + [Schedule(p.bestDayOfWeek, p.bestHour)];
    insights := insights + [AverageRate(e.engagementRate)];
    if e.engagementRate < 300 {
      recommendations := recommendations + [TryTrends];
    } else if e.engagementRate > 500 {
      insights := insights + [ExcellentRate];
    }
  }

  /** The call-to-action advice is given exactly when fewer than 30 % of the
      captions carry a call to action, the question advice exactly below 20 %,
      and the trend advice exactly below a 3 % engagement rate. */
  lemma RecommendationsChoice(h: seq<HashtagAnalysis>, c: CaptionAnalysis, p: PostTimeAnalysis, e: EngagementMetrics)
    ensures AddCallsToAction in RecommendationsOf(h, c, p, e) <==> c.callToActionUsage < 30
    ensures AskQuestions in RecommendationsOf(h, c, p, e) <==> c.questionUsage < 20
    ensures TryTrends in RecommendationsOf(h, c, p, e) <==> e.engagementRate < 300
  {
    var s := [Schedule(p.bestDayOfWeek, p.bestHour)];
    assert RecommendationsOf(h, c, p, e) == FocusPart(h) + CtaPart(c) + QuestionPart(c) + s + TrendPart(e);
    assert AddCallsToAction !in FocusPart(h) && AddCallsToAction !in s;
    assert AskQuestions !in FocusPart(h) && AskQuestions !in s;
    assert TryTrends !in FocusPart(h) && TryTrends !in s;
  }

  /** The hashtag advice is given exactly with at least three hashtags, the
      scheduling advice always, and nothing else is recommended. */
  lemma RecommendationsCount(h: seq<HashtagAnalysis>, c: CaptionAnalysis, p: PostTimeAnalysis, e: EngagementMetrics)
    ensures (exists k :: 0 <= k < |RecommendationsOf(h, c, p, e)| && RecommendationsOf(h, c, p, e)[k].FocusHashtags?) <==> |h| >= 3
    ensures Schedule(p.bestDayOfWeek, p.bestHour) in RecommendationsOf(h, c, p, e)
    ensures |RecommendationsOf(h, c, p, e)| ==
            (if |h| >= 3 then 1 else 0) + (if c.callToActionUsage < 30 then 1 else 0) +
            (if c.questionUsage < 20 then 1 else 0) + 1 + (if e.engagementRate < 300 then 1 else 0)
  {
    var f, s := FocusPart(h), [Schedule(p.bestDayOfWeek, p.bestHour)];
    var a := f + CtaPart(c);
    var b := a + QuestionPart(c);
    var d := b + s;
    assert RecommendationsOf(h, c, p, e) == d + TrendPart(e);
    HasFocusAppend(f, CtaPart(c));
    HasFocusAppend(a, QuestionPart(c));
    HasFocusAppend(b, s);
    HasFocusAppend(d, TrendPart(e));
    if |h| >= 3 {
      assert f[0].FocusHashtags?;
    }
    assert !HasFocus(CtaPart(c)) && !HasFocus(QuestionPart(c)) && !HasFocus(s) && !HasFocus(TrendPart(e));
    assert d[|b|] == Schedule(p.bestDayOfWeek, p.bestHour);
  }

  predicate HasFocus(rs: seq<Recommendation>) {
    exists k :: 0 <= k < |rs| && rs[k].FocusHashtags?
  }

  lemma HasFocusAppend(a: seq<Recommendation>, b: seq<Recommendation>)
    ensures HasFocus(a + b) <==> HasFocus(a) || HasFocus(b)
  {
    if HasFocus(a + b) {
      var k :| 0 <= k < |a + b| && (a + b)[k].FocusHashtags?;
      if k >= |a| {
        assert b[k - |a|].FocusHashtags?;
      }
    }
    if HasFocus(a) {
      var k :| 0 <= k < |a| && a[k].FocusHashtags?;
      assert (a + b)[k] == a[k];
    }
    if HasFocus(b) {
      var k :| 0 <= k < |b| && b[k].FocusHashtags?;
      assert (a + b)[|a| + k] == b[k];
    }
  }

  /** The positive-tone insight appears exactly above a score of 0.3, the
      serious-tone insight exactly below -0.3, and the praise exactly above a
      5 % engagement rate. */
  lemma InsightsChoice(h: seq<HashtagAnalysis>, c: CaptionAnalysis, t: TranscriptAnalysis,
                       p: PostTimeAnalysis, e: EngagementMetrics)
    ensures PositiveTone in InsightsOf(h, c, t, p, e) <==> t.sentimentScore > 30
    ensures SeriousTone in InsightsOf(h, c, t, p, e) <==> t.sentimentScore < -30
    ensures ExcellentRate in InsightsOf(h, c, t, p, e) <==> e.engagementRate > 500
  {
    var fixed := [CaptionHabits(c.avgWordCount, c.captionStyle)];
    var tail := [SpeakingPace(t.paceStyle)] + [BestTime(p.bestDayOfWeek, p.bestHour)] + [AverageRate(e.engagementRate)];
    assert InsightsOf(h, c, t, p, e) == HashtagPart(h) + fixed + TonePart(t) + tail + PraisePart(e);
    assert PositiveTone !in HashtagPart(h) + fixed && PositiveTone !in tail;
    assert SeriousTone !in HashtagPart(h) + fixed && SeriousTone !in tail;
    assert ExcellentRate !in HashtagPart(h) + fixed && ExcellentRate !in tail;
  }

  /** The hashtag insight appears exactly with some hashtag and the
      posting-time insight always. */
  lemma InsightsAlways(h: seq<HashtagAnalysis>, c: CaptionAnalysis, t: TranscriptAnalysis,
                       p: PostTimeAnalysis, e: EngagementMetrics)
    ensures (exists k :: 0 <= k < |InsightsOf(h, c, t, p, e)| && InsightsOf(h, c, t, p, e)[k].BestHashtag?) <==> |h| > 0
    ensures BestTime(p.bestDayOfWeek, p.bestHour) in InsightsOf(h, c, t, p, e)
  {
    var ins := InsightsOf(h, c, t, p, e);
    var rest := [CaptionHabits(c.avgWordCount, c.captionStyle)] + TonePart(t) + [SpeakingPace(t.paceStyle)] +
                [BestTime(p.bestDayOfWeek, p.bestHour)] + [AverageRate(e.engagementRate)] + PraisePart(e);
    assert ins == HashtagPart(h) + rest;
    assert forall k :: 0 <= k < |rest| ==> !rest[k].BestHashtag?;
    if |h| > 0 {
      assert ins[0].BestHashtag?;
    } else {
      assert ins == rest;
    }
  }

  /** Only the hashtag insight is written with the hashtag opening. */
  lemma HashtagLeadOnly(i: Insight, formatNumber: nat -> string)
    ensures HashtagLead <= InsightText(i, formatNumber) <==> i.BestHashtag?
  {
    match i
    case BestHashtag(tag, rate) =>
      assert InsightText(i, formatNumber) ==
             HashtagLead + tag + " with an average of " + formatNumber(rate) + " engagement per post";
    case CaptionHabits(w, st) => CaptionLead(w, st, formatNumber);
    case PositiveTone => PositiveLead(formatNumber);
    case SeriousTone => SeriousLead(formatNumber);
    case SpeakingPace(pace) => PaceLead(pace, formatNumber);
    case BestTime(day, hour) => TimeLead(day, hour, formatNumber);
    case AverageRate(cents) => AverageLead(cents, formatNumber);
    case ExcellentRate => ExcellentLead(formatNumber);
  }

  // Each other insight differs from the hashtag opening at character 5, or 11 for the posting time.

  lemma CaptionLead(w: nat, st: CaptionStyle, formatNumber: nat -> string)
    ensures !(HashtagLead <= InsightText(CaptionHabits(w, st), formatNumber))
  {
    var x := InsightText(CaptionHabits(w, st), formatNumber);
    assert 5 < |x| && x[5] != HashtagLead[5];
  }

  lemma PositiveLead(formatNumber: nat -> string)
    ensures !(HashtagLead <= InsightText(PositiveTone, formatNumber))
  {
    var x := InsightText(PositiveTone, formatNumber);
    assert 5 < |x| && x[5] != HashtagLead[5];
  }

  lemma SeriousLead(formatNumber: nat -> string)
    ensures !(HashtagLead <= InsightText(SeriousTone, formatNumber))
  {
    var x := InsightText(SeriousTone, formatNumber);
    assert 5 < |x| && x[5] != HashtagLead[5];
  }

  lemma PaceLead(pace: Pace, formatNumber: nat -> string)
    ensures !(HashtagLead <= InsightText(SpeakingPace(pace), formatNumber))
  {
    var x := InsightText(SpeakingPace(pace), formatNumber);
    assert 5 < |x| && x[5] != HashtagLead[5];
  }

  lemma TimeLead(day: int, hour: int, formatNumber: nat -> string)
    ensures !(HashtagLead <= InsightText(BestTime(day, hour), formatNumber))
  {
    var x := InsightText(BestTime(day, hour), formatNumber);
    assert 11 < |x| && x[11] != HashtagLead[11];
  }

  lemma AverageLead(cents: int, formatNumber: nat -> string)
    ensures !(HashtagLead <= InsightText(AverageRate(cents), formatNumber))
  {
    var x := InsightText(AverageRate(cents), formatNumber);
    assert 5 < |x| && x[5] != HashtagLead[5];
  }

  lemma ExcellentLead(formatNumber: nat -> string)
    ensures !(HashtagLead <= InsightText(ExcellentRate, formatNumber))
  {
    var x := InsightText(ExcellentRate, formatNumber);
    assert 5 < |x| && x[5] != HashtagLead[5];
  }

  /** The written insights hold a text with the hashtag opening exactly when
      there is some hashtag, and always the posting-time text. */
  lemma InsightTextsAlways(h: seq<HashtagAnalysis>, c: CaptionAnalysis, t: TranscriptAnalysis,
                           p: PostTimeAnalysis, e: EngagementMetrics, formatNumber: nat -> string)
    ensures var texts := InsightTexts(InsightsOf(h, c, t, p, e), formatNumber);
            (exists k :: 0 <= k < |texts| && HashtagLead <= texts[k]) <==> |h| > 0
    ensures InsightText(BestTime(p.bestDayOfWeek, p.bestHour), formatNumber) in
            InsightTexts(InsightsOf(h, c, t, p, e), formatNumber)
  {
    var ins := InsightsOf(h, c, t, p, e);
    var text := (i: Insight) => InsightText(i, formatNumber);
    var texts := Rendered(ins, text);
    InsightsAlways(h, c, t, p, e);
    forall k | 0 <= k < |ins| ensures |texts| == |ins| && texts[k] == InsightText(ins[k], formatNumber) {
      RenderedAt(ins, text, k);
    }
    assert |ins| > 0;
    RenderedAt(ins, text, 0);
    if |h| > 0 {
      var k :| 0 <= k < |ins| && ins[k].BestHashtag?;
      HashtagLeadOnly(ins[k], formatNumber);
      assert HashtagLead <= texts[k];
    }
    if exists k :: 0 <= k < |texts| && HashtagLead <= texts[k] {
      var k :| 0 <= k < |texts| && HashtagLead <= texts[k];
      HashtagLeadOnly(ins[k], formatNumber);
    }
    var b := BestTime(p.bestDayOfWeek, p.bestHour);
    var k :| 0 <= k < |ins| && ins[k] == b;
    assert texts[k] == InsightText(b, formatNumber);
  }

  /** Hour 0 renders as `0AM`, noon as `12PM`, 1 PM as `1PM` and 11 PM as `11PM`. */
  lemma HourLabelExamples()
    ensures HourLabel(0) == "0AM" && HourLabel(11) == "11AM" && HourLabel(12) == "12PM"
    ensures HourLabel(13) == "1PM" && HourLabel(23) == "11PM"
  {
  }

  /** Within a day, different hours render differently. */
  lemma HourLabelInjective(a: int, b: int)
    requires 0 <= a < 24 && 0 <= b < 24 && HourLabel(a) == HourLabel(b)
    ensures a == b
  {
    var va: nat := if a > 12 then a - 12 else a;
    var vb: nat := if b > 12 then b - 12 else b;
    var sa := if a >= 12 then "PM" else "AM";
    var sb := if b >= 12 then "PM" else "AM";
    assert HourLabel(a) == NatToString(va) + sa;
    assert HourLabel(b) == NatToString(vb) + sb;
    SplitSuffix(NatToString(va), sa, NatToString(vb), sb);
    NatToStringInjective(va, vb);
  }

  /** Two equal strings that end in equally long suffixes have equal prefixes
      and equal suffixes. */
  lemma SplitSuffix(x: string, s: string, y: string, t: string)
    requires x + s == y + t && |s| == |t|
    ensures x == y && s == t
  {
    assert x == (x + s)[..|x|];
    assert y == (y + t)[..|y|];
    assert s == (x + s)[|x|..];
    assert t == (y + t)[|y|..];
  }

  /** A rate renders with a minus sign exactly when it is negative, and a
      whole number of percent renders without a decimal point. */
  lemma CentsToStringShape(c: int)
    ensures |CentsToString(c)| > 0
    ensures CentsToString(c)[0] == '-' <==> c < 0
    ensures c >= 0 && c % 100 == 0 ==> CentsToString(c) == NatToString(c / 100)
  {
    var m: nat := if c < 0 then -c else c;
    var d := NatToString(m / 100);
    assert d[0] != '-';
  }
}
