# Instagram reel repurposing dashboard: verified model of the analytics and repurposing core

This project models, in Dafny, the computational core of a dashboard that
analyses the top reels of an Instagram profile and repurposes a reel's
transcript for other platforms. The pieces modelled are:

- **Profile analytics engine** (`app/api/profile-analytics/route.ts`). The
  request check of the `POST` handler and the six analyses it runs over a
  batch of reels:
  - hashtag performance;
  - caption statistics;
  - transcript statistics, keyword bigrams and sentiment;
  - best posting hour and day;
  - aggregate engagement;
  - the threshold-driven insights and recommendations.

  The endpoint's imperative parts are Dafny methods whose loops carry
  invariants: the `Map` filling, the frequency loops, the sentiment
  counters, the hour/day buckets, the in-place sort and the `push` of
  messages. Each method is proved equal to a specification function. The
  properties the endpoint promises are lemmas about those functions.
- **Reel ingestion helpers** (`lib/apify-client.ts`):
  - `extractHashtags`;
  - `extractUsername`;
  - the pure filter, map and weighted sort of `fetchProfileReels`, which
    takes the scraped items as input.
- **Post-id extraction and the non-network branches of metadata fetching**
  (`lib/instagram-metadata.ts`). The oEmbed answer is an input.
- **The repurposing wizard** (`components/RepurposingWizard.tsx`). A class
  whose fields are the current step and the partial form. Its methods are
  the step moves, the option handlers and the submit guard.
- **The repurposing endpoint** (`app/api/repurpose/route.ts`):
  - the required-field check;
  - the system and user prompt builders;
  - the routing of parsed fields;
  - the status codes.

  The language model and `JSON.parse` are function parameters.

The JavaScript semantics the code relies on are modelled explicitly:

- `Math.round(a/b)` for `a, b >= 0` is `(2a+b) / (2b)`.
- `parseFloat(x.toFixed(2))` is an exact whole number of hundredths.
- `.length` counts UTF-16 code units.
- `split(/\s+/)` keeps a leading and a trailing empty token.
- `String.prototype.match` with a global pattern counts non-overlapping
  occurrences.
- `Array.prototype.sort` is stable. It is specified by a functional
  insertion sort (`StableSort.SortDesc`), and a sort on an array is proved
  equal to it.
- A `Map` iterates in insertion order. It is modelled as an association
  list.
- The integer keys of a plain object enumerate in ascending order.

Where the code and its written description disagree, the model follows the
code:

- Hour 0 is rendered `0AM`, not `12AM`.
- The analytics `POST` requires only `username`, `topReels` and `userId`.
  `profileUrl` may be missing, and an empty list of reels is accepted.
- An unknown `targetPlatform` passes validation. It then fails inside
  `buildSystemPrompt`, so the answer is status 500, not 400.

## Model

| member | source | states |
|---|---|---|
| AnalyticsHashtags.TallyKeys | app/api/profile-analytics/route.ts:25-49 | the tags of the map are the distinct tags of all reels, in first-encounter order |
| AnalyticsHashtags.TallyGet | app/api/profile-analytics/route.ts:25-49 | a tag has an entry iff it occurs, and the entry holds its occurrence count and its summed likes, views and comments |
| AnalyticsHashtags.TotalsOfCount | app/api/profile-analytics/route.ts:32-47 | a tag's count is its number of occurrences across all hashtag lists, and its engagement is likes + views + comments |
| AnalyticsHashtags.FillTotals | app/api/profile-analytics/route.ts:25-49 | the nested `forEach` leaves the map equal to the tally of every (reel, tag) use |
| AnalyticsHashtags.FillReel | app/api/profile-analytics/route.ts:26-48 | folding one reel's tags into a map that tallies earlier uses gives the tally extended by that reel's uses |
| AnalyticsHashtags.Summaries | app/api/profile-analytics/route.ts:51-61 | one summary per map entry, in map order |
| AnalyticsHashtags.Summarize | app/api/profile-analytics/route.ts:51-61 | the `push` loop builds exactly the summaries of the map |
| AnalyticsHashtags.AnalyzeHashtags | app/api/profile-analytics/route.ts:16-65 | the result is the hashtag report of the reels |
| AnalyticsHashtags.HashtagReportRanked | app/api/profile-analytics/route.ts:64 | at most 20 entries, sorted non-increasing by engagement rate |
| AnalyticsHashtags.HashtagReportEntries | app/api/profile-analytics/route.ts:51-61 | each entry's frequency is the tag's occurrence count, and each average is the rounded total over that count only |
| AnalyticsHashtags.HashtagReportDominates | app/api/profile-analytics/route.ts:64 | a tag that occurs but is cut off leaves 20 entries, each with a rate at least its own |
| AnalyticsHashtags.HashtagReportTies | app/api/profile-analytics/route.ts:64 | entries with equal rate keep their first-encounter order |
| AnalyticsCaptions.Captions | app/api/profile-analytics/route.ts:71 | only non-empty captions are kept, never more than there are reels |
| AnalyticsCaptions.CaptionsEmpty | app/api/profile-analytics/route.ts:71-73 | no caption is kept iff every reel's caption is missing or empty |
| AnalyticsCaptions.StripPunct | app/api/profile-analytics/route.ts:97 | what remains are word characters and whitespace of the input |
| AnalyticsCaptions.FilterKeywords | app/api/profile-analytics/route.ts:99 | every kept word is longer than 3 and not a common word, and comes from the input |
| AnalyticsCaptions.EmojiCount | app/api/profile-analytics/route.ts:112-115 | the emoji count never exceeds the caption's length |
| AnalyticsCaptions.QuestionCount | app/api/profile-analytics/route.ts:117 | at most one question per caption |
| AnalyticsCaptions.CtaCount | app/api/profile-analytics/route.ts:118-121 | at most one call to action per caption |
| AnalyticsCaptions.KeywordFrequencies | app/api/profile-analytics/route.ts:93-104 | the frequency loops leave the map equal to the tally of all keywords |
| AnalyticsCaptions.CountWords | app/api/profile-analytics/route.ts:101-103 | counting one caption's words extends the tally by those words |
| AnalyticsCaptions.AnalyzeCaptions | app/api/profile-analytics/route.ts:70-136 | the result is the caption report of the reels |
| AnalyticsCaptions.CaptionReportDefault | app/api/profile-analytics/route.ts:73-83 | with no non-empty caption the result is the neutral default: short style, zeros, no keywords |
| AnalyticsCaptions.CaptionReportStyle | app/api/profile-analytics/route.ts:123-125 | long iff average length > 500, medium iff 150 < average <= 500, short otherwise |
| AnalyticsCaptions.CaptionReportRates | app/api/profile-analytics/route.ts:112-134 | question and call-to-action usage lie in 0..100, and emoji usage is the rounded 100 times emoji matches per caption |
| AnalyticsCaptions.EmojiRateAbove100 | app/api/profile-analytics/route.ts:132 | one caption holding two emoji gives emoji usage 200 |
| AnalyticsCaptions.KeywordShape | app/api/profile-analytics/route.ts:95-99 | every keyword is lower case, made of word characters, longer than 3 and not a common word |
| AnalyticsCaptions.AllKeywordsShape | app/api/profile-analytics/route.ts:94-99 | the keyword shape holds for the keywords of every caption |
| AnalyticsCaptions.CaptionReportKeywords | app/api/profile-analytics/route.ts:106-109 | at most 10 keywords, each drawn from the captions, in non-increasing frequency; a keyword left out means 10 at least as frequent were kept |
| AnalyticsTranscripts.ChunkTexts | app/api/profile-analytics/route.ts:148 | the texts of the chunks, one per chunk, in order |
| AnalyticsTranscripts.Texts | app/api/profile-analytics/route.ts:142-151 | one transcript text per reel, in order |
| AnalyticsTranscripts.NonEmpty | app/api/profile-analytics/route.ts:152 | only non-empty transcripts are kept |
| AnalyticsTranscripts.NonEmptyNone | app/api/profile-analytics/route.ts:152 | nothing is kept iff every text is empty |
| AnalyticsTranscripts.TranscriptsEmpty | app/api/profile-analytics/route.ts:142-154 | no transcript is kept iff every reel's transcript text is empty |
| AnalyticsTranscripts.CountBigrams | app/api/profile-analytics/route.ts:170-176 | the `for` loop adds each adjacent-word bigram longer than 5 to the tally |
| AnalyticsTranscripts.PhraseFrequencies | app/api/profile-analytics/route.ts:168-177 | the phrase map is the tally of the bigrams of all transcripts |
| AnalyticsTranscripts.CountHits | app/api/profile-analytics/route.ts:192-197 | the counter adds the occurrence counts of the vocabulary words in the lower-cased text |
| AnalyticsTranscripts.CountSentiment | app/api/profile-analytics/route.ts:188-198 | the two counters are the positive and negative occurrences over all transcripts |
| AnalyticsTranscripts.KeyPhrases | app/api/profile-analytics/route.ts:179-182 | the key phrases are the 10 most frequent bigrams, ties in first-encounter order |
| AnalyticsTranscripts.AnalyzeTranscripts | app/api/profile-analytics/route.ts:141-219 | the result is the transcript report of the reels |
| AnalyticsTranscripts.TranscriptReportDefault | app/api/profile-analytics/route.ts:154-162 | with no non-empty transcript the result is the default: 0, no topics, medium pace, no phrases |
| AnalyticsTranscripts.TranscriptReportPhrases | app/api/profile-analytics/route.ts:213-217 | the topics are a prefix of the key phrases, at most 5 and at most 8 respectively |
| AnalyticsTranscripts.BigramsBeforeShape | app/api/profile-analytics/route.ts:171-175 | every bigram gathered so far joins two adjacent words |
| AnalyticsTranscripts.AllBigramsShape | app/api/profile-analytics/route.ts:169-177 | every gathered bigram comes from one transcript |
| AnalyticsTranscripts.TranscriptReportPhraseShape | app/api/profile-analytics/route.ts:171-182 | every key phrase is a bigram of adjacent words of one transcript, longer than 5 |
| AnalyticsTranscripts.SentimentBounds | app/api/profile-analytics/route.ts:200-215 | the score lies in -1..1, is 0 without hits, and is positive exactly when positives outweigh negatives by the margin that survives rounding to hundredths |
| AnalyticsTranscripts.HitsZero | app/api/profile-analytics/route.ts:192-197 | no hit in a text iff no vocabulary word occurs in it |
| AnalyticsTranscripts.AllHitsZero | app/api/profile-analytics/route.ts:190-198 | no hit at all iff no vocabulary word occurs in any transcript |
| AnalyticsTranscripts.TranscriptReportNeutral | app/api/profile-analytics/route.ts:188-202 | the score is 0 when no vocabulary word occurs |
| AnalyticsTranscripts.TranscriptReportPace | app/api/profile-analytics/route.ts:205-210 | fast iff words > 135 per transcript, slow iff < 90, medium otherwise |
| AnalyticsPostTimes.FirstKeyMax | app/api/profile-analytics/route.ts:267-273 | the first entry after the stable sort has a maximal value, strictly above every entry before it |
| AnalyticsPostTimes.FillAt | app/api/profile-analytics/route.ts:248-254 | a bucket exists iff some reel falls into it, and it holds that key's engagement total and count |
| AnalyticsPostTimes.AscEntriesSpec | app/api/profile-analytics/route.ts:258-263 | the object entries are the map's pairs in ascending key order |
| AnalyticsPostTimes.AscEntriesComplete | app/api/profile-analytics/route.ts:258-263 | every key of the map is among the entries |
| AnalyticsPostTimes.BestKeyIsBest | app/api/profile-analytics/route.ts:267-273 | the best key has a maximal average, and ties go to the smallest key |
| AnalyticsPostTimes.FillBuckets | app/api/profile-analytics/route.ts:236-255 | the bucket loop leaves the hour and day buckets equal to their specification |
| AnalyticsPostTimes.AverageBuckets | app/api/profile-analytics/route.ts:257-265 | each average is the rounded total over count of its bucket |
| AnalyticsPostTimes.AnalyzePostTimes | app/api/profile-analytics/route.ts:224-281 | the result is the posting-time report of the reels |
| AnalyticsPostTimes.SamplesEmpty | app/api/profile-analytics/route.ts:225 | no reel is kept iff none has a posting time or timestamp |
| AnalyticsPostTimes.PostTimeReportDefault | app/api/profile-analytics/route.ts:227-234 | without timestamps the result is hour 12, day 3 and empty maps |
| AnalyticsPostTimes.PostTimeReportBuckets | app/api/profile-analytics/route.ts:236-265 | an hour or day has an average iff some reel falls into it, and the average is its rounded mean engagement |
| AnalyticsPostTimes.PostTimeReportBest | app/api/profile-analytics/route.ts:267-273 | best hour and best day are keys with a maximal average; ties go to the smallest key |
| AnalyticsEngagement.Scores | app/api/profile-analytics/route.ts:304-307 | one (id, likes + views + comments) per reel, in order |
| AnalyticsEngagement.CalculateEngagementMetrics | app/api/profile-analytics/route.ts:286-320 | the metrics, with the array sorted in place, equal the engagement report |
| AnalyticsEngagement.EngagementReportEmpty | app/api/profile-analytics/route.ts:287-297 | an empty batch gives zeros and empty ids |
| AnalyticsEngagement.BestIsFirstMax | app/api/profile-analytics/route.ts:309-317 | the best id is that of the first reel with maximal engagement |
| AnalyticsEngagement.WorstIsLastMin | app/api/profile-analytics/route.ts:309-318 | the worst id is that of the last reel with minimal engagement |
| AnalyticsEngagement.EngagementReportRanked | app/api/profile-analytics/route.ts:304-318 | in a non-empty batch the best id has maximal and the worst id minimal engagement |
| AnalyticsEngagement.EngagementReportSingle | app/api/profile-analytics/route.ts:317-318 | for one reel, best and worst are its id |
| AnalyticsEngagement.EngagementReportRate | app/api/profile-analytics/route.ts:316 | the rate is 0 without views, otherwise (likes + comments) / views in percent, rounded to hundredths |
| AnalyticsEngagement.EngagementReportAverages | app/api/profile-analytics/route.ts:312-314 | each average is at most the largest count of its kind |
| AnalyticsInsights.GenerateInsights | app/api/profile-analytics/route.ts:325-384 | the pushes produce exactly the insight and recommendation lists of the specification |
| AnalyticsInsights.RecommendationsChoice | app/api/profile-analytics/route.ts:348-378 | the call-to-action advice appears iff usage < 30, the question advice iff usage < 20, the trend advice iff the rate < 3% |
| AnalyticsInsights.RecommendationsCount | app/api/profile-analytics/route.ts:340-378 | hashtag advice appears iff there are at least 3 hashtags, scheduling advice always, and the count is the sum of the conditions |
| AnalyticsInsights.InsightsChoice | app/api/profile-analytics/route.ts:357-381 | the positive tone insight iff score > 0.3, the serious one iff score < -0.3, the excellent one iff rate > 5% |
| AnalyticsInsights.InsightsAlways | app/api/profile-analytics/route.ts:336-371 | the best-hashtag insight iff some hashtag exists; the best-time insight always |
| AnalyticsInsights.HashtagLeadOnly | app/api/profile-analytics/route.ts:338-381 | a written insight opens with `Your best performing hashtag is #` iff it is the hashtag insight |
| AnalyticsInsights.InsightTextsAlways | app/api/profile-analytics/route.ts:336-371 | the pushed strings hold one opening with `Your best performing hashtag is #` iff some hashtag exists, and always the best-time string |
| AnalyticsInsights.HourLabelExamples | app/api/profile-analytics/route.ts:367-369 | hours 0, 11, 12, 13 and 23 read 0AM, 11AM, 12PM, 1PM and 11PM |
| AnalyticsInsights.HourLabelInjective | app/api/profile-analytics/route.ts:367-369 | different hours of the day get different labels |
| AnalyticsInsights.CentsToStringShape | app/api/profile-analytics/route.ts:375 | the rendered rate is non-empty, starts with `-` iff negative, and whole numbers render without a fraction |
| ProfileAnalyticsRoute.Post | app/api/profile-analytics/route.ts:386-440 | the handler's answer is the response of the specification |
| ProfileAnalyticsRoute.RespondRefuses | app/api/profile-analytics/route.ts:391-396 | status 400 iff username or user id is missing or empty or the reels are missing; otherwise 200 |
| ProfileAnalyticsRoute.RespondEchoes | app/api/profile-analytics/route.ts:413-427 | an accepted request echoes ids, URL and reels, counts the reels and carries the current time |
| ApifyClient.ScanSound | lib/apify-client.ts:19-20 | every match position holds a `#` followed by a tag character |
| ApifyClient.ScanComplete | lib/apify-client.ts:19-20 | every `#` followed by a tag character starts a match |
| ApifyClient.ScanOrdered | lib/apify-client.ts:19-20 | matches come in caption order and do not overlap |
| ApifyClient.ExtractHashtagsEmpty | lib/apify-client.ts:17-18 | a missing or empty caption gives no hashtags |
| ApifyClient.ExtractHashtagsShape | lib/apify-client.ts:19-21 | one hashtag per match, in order, with the `#` removed |
| ApifyClient.TagAtSpec | lib/apify-client.ts:19-21 | each tag is non-empty, made of word or Hebrew characters, lies in the caption, and is maximal |
| ApifyClient.ExtractUsernameSpec | lib/apify-client.ts:144-147 | none iff no `instagram.com/` is followed by a username character; otherwise the maximal run after the first such occurrence |
| ApifyClient.ToReel | lib/apify-client.ts:55-71 | posting time equals timestamp, caption is `caption \|\| text`, and hashtags are those extracted from the caption |
| ApifyClient.ProfileReelsOf | lib/apify-client.ts:44-85 | the nested `push` loops and the sort give the sorted reels of all items |
| ApifyClient.PostReelsSpec | lib/apify-client.ts:49-73 | exactly the posts of type Video or Reel, or whose display URL contains `video`, become reels |
| ApifyClient.CollectedSpec | lib/apify-client.ts:44-75 | every collected reel is built from a reel post of some item |
| ApifyClient.ProfileReelsRanked | lib/apify-client.ts:79-83 | the result is a permutation of the built reels, sorted non-increasing by likes + views + 2 comments, stable on ties |
| InstagramMetadata.ExtractInstagramIdSpec | lib/instagram-metadata.ts:65-67 | none iff no `instagram.com/p/` or `instagram.com/reel/` is followed by an id character; otherwise the maximal id run after the first such occurrence |
| InstagramMetadata.FetchMetadataKeepsUrl | lib/instagram-metadata.ts:26-58 | every branch keeps the input URL and never sets a description |
| InstagramMetadata.FetchMetadataInvalid | lib/instagram-metadata.ts:12-58 | an unparsable URL yields metadata with nothing but the URL |
| InstagramMetadata.FetchMetadataFallback | lib/instagram-metadata.ts:38-48 | without oEmbed the thumbnail is `https://instagram.com/p/<id>/media/?size=l` |
| InstagramMetadata.FetchMetadataOEmbed | lib/instagram-metadata.ts:23-32 | with oEmbed data the thumbnail, author and title are taken from it |
| UrlPatterns.Run | lib/apify-client.ts:145 | the capture is the longest prefix of characters in the class |
| UrlPatterns.FirstCaptureNone | lib/instagram-metadata.ts:66 | no match iff no position starts an alternative followed by a class character |
| UrlPatterns.FirstCaptureSome | lib/instagram-metadata.ts:66 | a match is at the leftmost position, takes the first alternative that fits, and captures the longest run |
| RepurposingWizard.IndexOf | components/RepurposingWizard.tsx:46 | the index of a step is its position in the step list |
| RepurposingWizard.StepsDistinct | components/RepurposingWizard.tsx:45 | the five steps are distinct |
| RepurposingWizard.NextBackSteps | components/RepurposingWizard.tsx:49-61 | next and back move one step, stop at review and at goal, and undo each other |
| RepurposingWizard.WalkForward | components/RepurposingWizard.tsx:45-61 | the steps run goal, platform, tone, visual, review |
| RepurposingWizard.CanProceedAt | components/RepurposingWizard.tsx:74-89 | a step may proceed iff its field is set; review always may |
| RepurposingWizard.ProceedEverywhereIsComplete | components/RepurposingWizard.tsx:63-89 | every step may proceed iff the form has all four required fields |
| RepurposingWizard.Wizard.constructor | components/RepurposingWizard.tsx:42-43 | a new wizard is at goal with an empty form |
| RepurposingWizard.Wizard.CanProceed | components/RepurposingWizard.tsx:74-89 | proceeding is allowed iff the current step's field is set, or the step is review |
| RepurposingWizard.Wizard.HandleNext | components/RepurposingWizard.tsx:49-54 | moves one step forward unless at review; the form is unchanged |
| RepurposingWizard.Wizard.HandleBack | components/RepurposingWizard.tsx:56-61 | moves one step back unless at goal; the form is unchanged |
| RepurposingWizard.Wizard.HandleSubmit | components/RepurposingWizard.tsx:63-72 | the form is handed on iff goal, platform, tone and visual are all set |
| RepurposingWizard.Wizard.ChooseGoal | components/RepurposingWizard.tsx:134 | only the goal changes |
| RepurposingWizard.Wizard.ChooseLanguage | components/RepurposingWizard.tsx:162 | only the target language changes |
| RepurposingWizard.Wizard.ChoosePlatform | components/RepurposingWizard.tsx:190 | only the platform changes |
| RepurposingWizard.Wizard.ChooseTone | components/RepurposingWizard.tsx:237 | only the tone changes |
| RepurposingWizard.Wizard.ChooseVisual | components/RepurposingWizard.tsx:269 | only the visual preference changes |
| RepurposingWizard.Wizard.SetInstructions | components/RepurposingWizard.tsx:298 | only the custom instructions change |
| RepurposingWizard.FillIn | components/RepurposingWizard.tsx:45-72 | choosing an option at each of the four steps reaches review and submits exactly those choices |
| RepurposingTypes.GoalRoundTrip | lib/repurposing-config.ts:46-52 | goal names parse back to their goal, and only goal names parse |
| RepurposingTypes.PlatformRoundTrip | lib/repurposing-config.ts:3-44 | platform keys parse back to their platform, and only those keys parse |
| RepurposingTypes.VisualRoundTrip | lib/repurposing-config.ts:65-70 | visual names parse back to their preference, and only those names parse |
| RepurposeRoute.BuildSystemPrompt | app/api/repurpose/route.ts:78-164 | the accumulated prompt is base, goal section, visual section and format, in that order |
| RepurposeRoute.SectionsChosen | app/api/repurpose/route.ts:101-152 | exactly one goal section for a known goal and none for an unknown one, and likewise for the visual preference |
| RepurposeRoute.Prefixed | app/api/repurpose/route.ts:179 | each tag gets a `#` prefix, in order |
| RepurposeRoute.HashtagSectionHasTags | app/api/repurpose/route.ts:178-180 | every `#`-prefixed tag occurs in the hashtag section |
| RepurposeRoute.BuildUserPrompt | app/api/repurpose/route.ts:166-189 | the accumulated prompt is the head, the optional sections and the closing sentence |
| RepurposeRoute.UserPromptEnds | app/api/repurpose/route.ts:172-186 | the prompt starts with the transcript head and ends with the fixed closing sentence |
| RepurposeRoute.UserPromptSections | app/api/repurpose/route.ts:174-184 | the caption, hashtag and instruction sections appear iff their input is non-empty |
| RepurposeRoute.ParseRouting | app/api/repurpose/route.ts:191-223 | each routed field is set only for its visual preference and holds the parsed suggestions; on failure the raw text is the script and everything else is empty |
| RepurposeRoute.Post | app/api/repurpose/route.ts:10-76 | the handler's answer is the response of the specification |
| RepurposeRoute.Generate | app/api/repurpose/route.ts:34-65 | building both prompts and asking the model gives the outcome of the answer |
| RepurposeRoute.OutcomeStatus | app/api/repurpose/route.ts:56-75 | status 200 iff the model answered with non-empty content, which is then parsed; otherwise 500 |
| RepurposeRoute.RespondNotRefused | app/api/repurpose/route.ts:27-75 | a request with every required field is never refused with 400 |
| RepurposeRoute.RespondPlatform | app/api/repurpose/route.ts:34-43 | an unknown platform fails with 500; a known one is answered from its configuration |
| RepurposeRoute.RespondMissingAsksNothing | app/api/repurpose/route.ts:27-32 | a missing required field gives 400 whatever the model or the parser would do |
| JsMath.RoundDivNearest | app/api/profile-analytics/route.ts:56-59 | the rounded quotient is the nearest integer, halves rounding up |
| JsMath.RoundDivAtMost | app/api/profile-analytics/route.ts:312-314 | a quotient of at most `m` rounds to at most `m` |
| JsMath.RoundDivPositive | app/api/profile-analytics/route.ts:87 | the rounded quotient is positive iff the quotient is at least one half |
| JsMath.CentsNearest | app/api/profile-analytics/route.ts:316 | hundredths are the nearest value, rounding halves away from zero |
| JsText.Utf16Len | app/api/profile-analytics/route.ts:85 | a string has between one and two code units per character |
| JsText.Utf16LenAppend | app/api/profile-analytics/route.ts:164 | lengths add up under concatenation |
| JsText.Word | app/api/profile-analytics/route.ts:86 | a token is the longest whitespace-free prefix |
| JsText.SplitWs | app/api/profile-analytics/route.ts:86 | splitting always yields at least one token |
| JsText.SplitWsNoSpace | app/api/profile-analytics/route.ts:86 | no token contains whitespace |
| JsText.SplitWsFlatten | app/api/profile-analytics/route.ts:86 | the tokens put together are the text without its whitespace |
| JsText.SplitWsFirst | app/api/profile-analytics/route.ts:205 | the first token is empty iff the text is empty or starts with whitespace |
| JsText.SplitWsMiddle | app/api/profile-analytics/route.ts:205 | only the first and the last token can be empty |
| JsText.IncludesAt | app/api/profile-analytics/route.ts:117 | `includes` holds iff the pattern occurs at some position |
| JsText.CountMatches | app/api/profile-analytics/route.ts:193 | non-overlapping matches cannot outnumber the characters |
| JsText.CountMatchesPositive | app/api/profile-analytics/route.ts:193 | the match count is positive iff the text includes the word |
| JsText.JoinHasPart | app/api/repurpose/route.ts:179 | every part occurs in the joined text |
| JsText.NatToString | app/api/profile-analytics/route.ts:346 | a number is written as digits without a leading zero |
| JsText.ParseNatToString | app/api/profile-analytics/route.ts:346 | the written number reads back as itself |
| JsText.NatToStringInjective | app/api/profile-analytics/route.ts:346 | different numbers are written differently |
| StableSort.SortDesc | app/api/profile-analytics/route.ts:64 | sorting keeps the length and the multiset of elements |
| StableSort.SortDescSorted | app/api/profile-analytics/route.ts:64 | the result is non-increasing by key |
| StableSort.SortDescFilter | app/api/profile-analytics/route.ts:64 | elements with the same key keep their relative order |
| StableSort.StableSortIsUnique | app/api/profile-analytics/route.ts:309 | any sorted arrangement that keeps equal-key order is the stable sort |
| StableSort.TakeSortDominates | app/api/profile-analytics/route.ts:64 | an element cut off by the slice leaves a full slice of elements with keys at least its own |
| StableSort.SortDescFirst | app/api/profile-analytics/route.ts:317 | the first element is the first one with a maximal key |
| StableSort.SortDescLast | app/api/profile-analytics/route.ts:318 | the last element is the last one with a minimal key |
| StableSort.SortInPlace | app/api/profile-analytics/route.ts:309 | sorting the array in place gives the stable sort of its old contents |
| StableSort.SortSeq | app/api/profile-analytics/route.ts:64 | sorting a copy gives the stable sort |
| WordCount.TallyKeys | app/api/profile-analytics/route.ts:101-103 | the counted words are the distinct words, in first-encounter order |
| WordCount.TallyGet | app/api/profile-analytics/route.ts:101-103 | a word has an entry iff it occurs, and the entry is its number of occurrences |
| WordCount.TopRanked | app/api/profile-analytics/route.ts:106-109 | at most `n` words, each occurring, in non-increasing frequency |
| WordCount.TopDominates | app/api/profile-analytics/route.ts:106-109 | a word left out means `n` words at least as frequent were kept |
| WordCount.TopTies | app/api/profile-analytics/route.ts:106-109 | equally frequent words keep their first-encounter order |
| OrderedMap.GetSet | app/api/profile-analytics/route.ts:41 | after a set the key maps to the new value and every other key is unchanged |

## Left out

- Network calls are not modelled. The Apify actor, the Supadata fetch, the
  oEmbed request and the OpenAI completion are inputs or function
  parameters: `items`, `oembed`, `complete`.
- `JSON.parse` and the greedy `{...}` pattern of `parseGeneratedContent` are
  not modelled. Their result is the abstract `ParseOutcome` given by a
  `parse` parameter.
- Decoding timestamps into hour and day with the host's time zone is not
  modelled. Each reel carries its already decoded hour and day.
- `Date.now()` is the `now` parameter.
- `toLocaleString` is the `formatNumber` parameter, because its output
  depends on the host locale.
- Binary floating point is not modelled:
  - `toFixed(2)` is exact rounding to hundredths, halves away from zero.
  - `Math.round` of a quotient is exact rational rounding.
  - The wizard's progress percentage is not modelled.
- Lower: `toLowerCase` maps only ASCII `A`-`Z`, because Unicode case
  mapping tables are outside the model.
- Utf16Len counts two code units for characters above U+FFFF. Strings are
  sequences of Unicode scalar values, so unpaired surrogates cannot occur.
- AnalyticsInsights.InsightsChoice, RecommendationsChoice and
  RecommendationsCount state their choices on the message datatypes.
  The rendered texts are their images under `InsightTexts` and
  `RecommendationTexts`, and the model does not prove that different
  messages render to different strings. InsightsAlways is stated on the
  message datatype too; InsightTextsAlways carries it to the pushed
  strings.
- RepurposeRoute.BuildSystemPrompt: no lemma states the length or the fixed
  wording of the system prompt beyond its section structure. The proof
  obligations about such long literals exceed the verifier's resource
  budget.
- Protocol and JavaScript quirks that are not modelled:
  - A property of `PLATFORM_CONFIGS` inherited from `Object.prototype` would
    count as a known platform. The model accepts only the five keys.
  - Request fields whose JSON value is the wrong type are out of the model.
- Exceptions are not modelled as such. An exception inside a handler
  becomes the 500 response.
- `fetchSingleReelMetadata` and the profile-reel network wrapper of
  `lib/apify-client.ts` are not part of this model.
- All React rendering, pages, persistence and authentication are not part
  of this model.
