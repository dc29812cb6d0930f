/** `calculateEngagementMetrics`: totals and averages of the counts, the
    engagement rate, and the reels with the highest and the lowest
    likes + views + comments. */
module AnalyticsEngagement {
  import opened Wrappers
  import opened JsMath
  import opened StableSort
  import opened ReelTypes

  /** `engagementRate` is kept as a whole number of hundredths of a percent. */
  datatype EngagementMetrics = EngagementMetrics(
    avgLikes: nat, avgViews: nat, avgComments: nat, totalEngagement: nat,
    engagementRate: int, bestPerformingReel: string, worstPerformingReel: string)

  const NoEngagement := EngagementMetrics(0, 0, 0, 0, 0, "", "")

  /** `{ id, engagement }` of `reelsWithEngagement`. */
  datatype Scored = Scored(id: Option<string>, engagement: nat)

  function Score(s: Scored): int { s.engagement }

  /** `reels.reduce((sum, r) => sum + f(r), 0)`. */
  function Sum(reels: seq<Reel>, f: Reel -> nat): nat {
    if reels == [] then 0 else Sum(reels[..|reels| - 1], f) + f(reels[|reels| - 1])
  }

  /** `reels.map(r => ({ id: r.id, engagement: ... }))`. */
  function Scores(reels: seq<Reel>): (r: seq<Scored>)
    ensures |r| == |reels| && forall i :: 0 <= i < |reels| ==> r[i] == Scored(reels[i].id, Engagement(reels[i]))
  {
    seq(|reels|, i requires 0 <= i < |reels| => Scored(reels[i].id, Engagement(reels[i])))
  }

  /** `parseFloat(((likes + comments) / views * 100).toFixed(2))` in hundredths,
      or 0 without views. */
  function Rate(likes: nat, views: nat, comments: nat): int {
    if views > 0 then Cents(100 * (likes + comments), views) else 0
  }

  /** `reelsWithEngagement[0]?.id || ''` after the sort. */
  function Best(reels: seq<Reel>): string
    requires reels != []
  {
    OrEmpty(SortDesc(Scores(reels), Score)[0].id)
  }

  /** `reelsWithEngagement[reelsWithEngagement.length - 1]?.id || ''` after the sort. */
  function Worst(reels: seq<Reel>): string
    requires reels != []
  {
    OrEmpty(SortDesc(Scores(reels), Score)[|reels| - 1].id)
  }

  /** The result of `calculateEngagementMetrics`. */
  function EngagementReport(reels: seq<Reel>): EngagementMetrics {
    if reels == [] then NoEngagement
    else
      var likes, views, comments := Sum(reels, Likes), Sum(reels, Views), Sum(reels, Comments);
      EngagementMetrics(
        RoundDiv(likes, |reels|), RoundDiv(views, |reels|), RoundDiv(comments, |reels|),
        likes + views + comments, Rate(likes, views, comments), Best(reels), Worst(reels))
  }

  method CalculateEngagementMetrics(reels: seq<Reel>) returns (r: EngagementMetrics)
    ensures r == EngagementReport(reels)
  {
    if |reels| == 0 {
      return NoEngagement;
    }
    var totalLikes := Sum(reels, Likes);
    var totalViews := Sum(reels, Views);
    var totalComments := Sum(reels, Comments);
    var scored := Scores(reels);
    var a := new Scored[|scored|](i requires 0 <= i < |scored| => scored[i]);
    assert a[..] == scored;
    SortInPlace(a, Score);
    var best, worst := OrEmpty(a[0].id), OrEmpty(a[a.Length - 1].id);
    assert best == Best(reels) && worst == Worst(reels);
    r := EngagementMetrics(
      RoundDiv(totalLikes, |reels|), RoundDiv(totalViews, |reels|), RoundDiv(totalComments, |reels|),
      totalLikes + totalViews + totalComments, Rate(totalLikes, totalViews, totalComments), best, worst);
  }

  /** An empty batch gives zeros and empty ids. */
  lemma EngagementReportEmpty()
    ensures EngagementReport([]) == EngagementMetrics(0, 0, 0, 0, 0, "", "")
  {
  }

  /** Reel `j` has the highest engagement, and no earlier reel reaches it. */
  predicate HighestFirst(reels: seq<Reel>, j: int) {
    0 <= j < |reels| &&
    (forall i :: 0 <= i < |reels| ==> Engagement(reels[i]) <= Engagement(reels[j])) &&
    (forall i :: 0 <= i < j ==> Engagement(reels[i]) < Engagement(reels[j]))
  }

  /** Reel `j` has the lowest engagement, and no later reel is that low. */
  predicate LowestLast(reels: seq<Reel>, j: int) {
    0 <= j < |reels| &&
    (forall i :: 0 <= i < |reels| ==> Engagement(reels[j]) <= Engagement(reels[i])) &&
    (forall i :: j < i < |reels| ==> Engagement(reels[j]) < Engagement(reels[i]))
  }

  /** The best reel is the first one with the highest engagement. */
  lemma BestIsFirstMax(reels: seq<Reel>)
    requires reels != []
    ensures exists j :: HighestFirst(reels, j) && Best(reels) == OrEmpty(reels[j].id)
  {
    var s := Scores(reels);
    SortDescFirst(s, Score);
    var j :| FirstMax(s, Score, j) && SortDesc(s, Score)[0] == s[j];
    BestAt(reels, s, j);
  }

  lemma BestAt(reels: seq<Reel>, s: seq<Scored>, j: int)
    requires reels != [] && s == Scores(reels) && FirstMax(s, Score, j) && SortDesc(s, Score)[0] == s[j]
    ensures HighestFirst(reels, j) && Best(reels) == OrEmpty(reels[j].id)
  {
  }

  /** The worst reel is the last one with the lowest engagement. */
  lemma WorstIsLastMin(reels: seq<Reel>)
    requires reels != []
    ensures exists j :: LowestLast(reels, j) && Worst(reels) == OrEmpty(reels[j].id)
  {
    var s := Scores(reels);
    SortDescLast(s, Score);
    var j :| LastMin(s, Score, j) && SortDesc(s, Score)[|s| - 1] == s[j];
    WorstAt(reels, s, j);
  }

  lemma WorstAt(reels: seq<Reel>, s: seq<Scored>, j: int)
    requires reels != [] && s == Scores(reels) && LastMin(s, Score, j) && SortDesc(s, Score)[|s| - 1] == s[j]
    ensures LowestLast(reels, j) && Worst(reels) == OrEmpty(reels[j].id)
  {
    WorstId(reels, s, j);
  }

  lemma WorstId(reels: seq<Reel>, s: seq<Scored>, j: int)
    requires reels != [] && s == Scores(reels) && 0 <= j < |s| && SortDesc(s, Score)[|s| - 1] == s[j]
    ensures Worst(reels) == OrEmpty(reels[j].id)
  {
  }

  /** In a non-empty batch the best reel is the first one with the highest
      engagement and the worst reel the last one with the lowest. */
  lemma EngagementReportRanked(reels: seq<Reel>)
    requires reels != []
    ensures EngagementReport(reels).bestPerformingReel == Best(reels)
    ensures EngagementReport(reels).worstPerformingReel == Worst(reels)
    ensures exists j :: 0 <= j < |reels| && Best(reels) == OrEmpty(reels[j].id) &&
                        forall i :: 0 <= i < |reels| ==> Engagement(reels[i]) <= Engagement(reels[j])
    ensures exists j :: 0 <= j < |reels| && Worst(reels) == OrEmpty(reels[j].id) &&
                        forall i :: 0 <= i < |reels| ==> Engagement(reels[j]) <= Engagement(reels[i])
  {
    BestIsFirstMax(reels);
    var b :| HighestFirst(reels, b) && Best(reels) == OrEmpty(reels[b].id);
    WorstIsLastMin(reels);
    var w :| LowestLast(reels, w) && Worst(reels) == OrEmpty(reels[w].id);
  }

  /** For a single reel, best and worst are that reel. */
  lemma EngagementReportSingle(r: Reel)
    ensures EngagementReport([r]).bestPerformingReel == OrEmpty(r.id)
    ensures EngagementReport([r]).worstPerformingReel == OrEmpty(r.id)
  {
    BestIsFirstMax([r]);
    WorstIsLastMin([r]);
  }

  /** `x` is 0 without views; otherwise it is `(likes + comments) / views`
      in percent, rounded to the nearest hundredth. */
  predicate RateWithin(x: int, likes: nat, views: nat, comments: nat) {
    (views == 0 ==> x == 0) &&
    (views > 0 ==> 0 <= x && 2 * views * x <= 20000 * (likes + comments) + views < 2 * views * (x + 1))
  }

  /** The engagement rate of a non-empty batch is its rounded
      (likes + comments) / views in hundredths of a percent, or 0 without
      views. */
  lemma EngagementReportRate(reels: seq<Reel>)
    requires reels != []
    ensures RateWithin(EngagementReport(reels).engagementRate, Sum(reels, Likes), Sum(reels, Views), Sum(reels, Comments))
  {
    ReportRate(reels);
    RateNearest(Sum(reels, Likes), Sum(reels, Views), Sum(reels, Comments));
  }

  lemma ReportRate(reels: seq<Reel>)
    requires reels != []
    ensures EngagementReport(reels).engagementRate == Rate(Sum(reels, Likes), Sum(reels, Views), Sum(reels, Comments))
  {
  }

  /** `Rate` rounds to the nearest hundredth of a percent. */
  lemma RateNearest(l: nat, v: nat, c: nat)
    ensures RateWithin(Rate(l, v, c), l, v, c)
  {
    if v > 0 {
      CentsNearest(100 * (l + c), v);
    }
  }

  /** A sum of values that are each at most `m` is at most `m` times the count. */
  lemma {:induction false} SumAtMost(reels: seq<Reel>, f: Reel -> nat, m: nat)
    requires forall i :: 0 <= i < |reels| ==> f(reels[i]) <= m
    ensures Sum(reels, f) <= m * |reels|
  {
    if reels != [] {
      var p := reels[..|reels| - 1];
      assert forall i :: 0 <= i < |p| ==> p[i] == reels[i];
      SumAtMost(p, f, m);
      assert Sum(reels, f) == Sum(p, f) + f(reels[|p|]);
      assert m * |reels| == m * |p| + m;
    }
  }

  /** Each average is at most the largest count of its kind. */
  lemma EngagementReportAverages(reels: seq<Reel>, m: nat)
    requires reels != []
    requires forall i :: 0 <= i < |reels| ==> Likes(reels[i]) <= m && Views(reels[i]) <= m && Comments(reels[i]) <= m
    ensures var r := EngagementReport(reels);
            r.avgLikes <= m && r.avgViews <= m && r.avgComments <= m
  {
    SumAtMost(reels, Likes, m);
    SumAtMost(reels, Views, m);
    SumAtMost(reels, Comments, m);
    RoundDivAtMost(Sum(reels, Likes), |reels|, m);
    RoundDivAtMost(Sum(reels, Views), |reels|, m);
    RoundDivAtMost(Sum(reels, Comments), |reels|, m);
  }
}
