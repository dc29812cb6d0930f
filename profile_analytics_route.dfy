/** The `POST` handler of the profile analytics endpoint: the parameter
    check and the assembly of the five analyses and the advice. */
module ProfileAnalyticsRoute {
  import opened Wrappers
  import opened ReelTypes
  import opened AnalyticsHashtags
  import opened AnalyticsCaptions
  import opened AnalyticsTranscripts
  import opened AnalyticsPostTimes
  import opened AnalyticsEngagement
  import opened AnalyticsInsights

  /** The JSON body; a missing property is `None`. */
  datatype ProfileRequest = ProfileRequest(
    username: Option<string>, profileUrl: Option<string>,
    topReels: Option<seq<Reel>>, userId: Option<string>)

  datatype ProfileAnalytics = ProfileAnalytics(
    userId: string, username: string, profileUrl: Option<string>,
    totalReelsAnalyzed: nat, topReels: seq<Reel>,
    hashtagAnalysis: seq<HashtagAnalysis>, captionAnalysis: CaptionAnalysis,
    transcriptAnalysis: TranscriptAnalysis, postTimeAnalysis: PostTimeAnalysis,
    engagementMetrics: EngagementMetrics, lastAnalyzedAt: int,
    insights: seq<string>, recommendations: seq<string>)

  /** Status 400 with `Missing required parameters`, or status 200. */
  datatype ProfileResponse = MissingParameters | Analysed(body: ProfileAnalytics)

  function Status(r: ProfileResponse): nat {
    if r.MissingParameters? then 400 else 200
  }

  /** `!x` for an optional string: missing or empty. */
  predicate Falsy(x: Option<string>) {
    x == None || x == Some("")
  }

  /** The response body built from the five analyses. */
  function Assemble(userId: string, username: string, profileUrl: Option<string>, reels: seq<Reel>,
                    h: seq<HashtagAnalysis>, c: CaptionAnalysis, t: TranscriptAnalysis,
                    p: PostTimeAnalysis, e: EngagementMetrics, now: int,
                    formatNumber: nat -> string): ProfileAnalytics {
    ProfileAnalytics(
      userId, username, profileUrl, |reels|, reels, h, c, t, p, e, now,
      InsightTexts(InsightsOf(h, c, t, p, e), formatNumber),
      RecommendationTexts(RecommendationsOf(h, c, p, e)))
  }

  /** The response for a body, at time `now`, with `formatNumber` as
      `toLocaleString`. */
  function Respond(req: ProfileRequest, now: int, formatNumber: nat -> string): ProfileResponse {
    if Falsy(req.username) || req.topReels == None || Falsy(req.userId) then MissingParameters
    else
      var reels := req.topReels.value;
      Analysed(Assemble(req.userId.value, req.username.value, req.profileUrl, reels,
                        HashtagReport(reels), CaptionReport(reels), TranscriptReport(reels),
                        PostTimeReport(reels), EngagementReport(reels), now, formatNumber))
  }

  method Post(req: ProfileRequest, now: int, formatNumber: nat -> string) returns (r: ProfileResponse)
    ensures r == Respond(req, now, formatNumber)
  {
    if Falsy(req.username) || req.topReels == None || Falsy(req.userId) {
      return MissingParameters;
    }
    var reels := req.topReels.value;
    var h := AnalyzeHashtags(reels);
    var c := AnalyzeCaptions(reels);
    var t := AnalyzeTranscripts(reels);
    var p := AnalyzePostTimes(reels);
    var e := CalculateEngagementMetrics(reels);
    var insights, recommendations := GenerateInsights(h, c, t, p, e);
    r := Analysed(ProfileAnalytics(
      req.userId.value, req.username.value, req.profileUrl, |reels|, reels, h, c, t, p, e, now,
      InsightTexts(insights, formatNumber), RecommendationTexts(recommendations)));
    assert r.body == Assemble(req.userId.value, req.username.value, req.profileUrl, reels, h, c, t, p, e, now, formatNumber);
  }

  /** The request is refused exactly when the username or the user id is
      missing or empty, or the reels are missing; an empty list of reels is
      accepted. */
  lemma RespondRefuses(req: ProfileRequest, now: int, formatNumber: nat -> string)
    ensures Status(Respond(req, now, formatNumber)) == 400 <==>
            req.username in {None, Some("")} || req.topReels == None || req.userId in {None, Some("")}
    ensures Status(Respond(req, now, formatNumber)) in {200, 400}
  {
  }

  /** An accepted request echoes the identifiers and the reels, counts the
      reels and is stamped with the current time. */
  lemma RespondEchoes(req: ProfileRequest, now: int, formatNumber: nat -> string)
    requires Respond(req, now, formatNumber).Analysed?
    ensures var b := Respond(req, now, formatNumber).body;
            req.userId == Some(b.userId) && b.userId != "" &&
            req.username == Some(b.username) && b.username != "" &&
            b.profileUrl == req.profileUrl && req.topReels == Some(b.topReels) &&
            b.totalReelsAnalyzed == |b.topReels| && b.lastAnalyzedAt == now
  {
  }
}
