/** The repurpose endpoint: the required-field check, the system and user
    prompts, and the routing of the parsed model answer into the response.
    The chat completion and the extraction and parsing of its JSON are
    inputs. */
module RepurposeRoute {
  import opened Wrappers
  import opened JsText
  import opened RepurposingTypes

  /** The JSON body as received; the options are plain strings here. */
  datatype RepurposeRequest = RepurposeRequest(
    goal: Option<string>, targetPlatform: Option<string>, tone: Option<string>,
    visualPreference: Option<string>, targetLanguage: Option<string>,
    customInstructions: Option<string>, originalTranscript: Option<string>,
    originalCaption: Option<string>, originalHashtags: Option<seq<string>>)

  /** `!!x` for an optional string. */
  predicate Truthy(x: Option<string>) {
    x.Some? && x.value != ""
  }

  /** The five fields the endpoint requires. */
  predicate HasRequiredFields(req: RepurposeRequest) {
    Truthy(req.goal) && Truthy(req.targetPlatform) && Truthy(req.tone) &&
    Truthy(req.visualPreference) && Truthy(req.originalTranscript)
  }

  // ----- System prompt -----

  function BasePrompt(config: PlatformConfig, tone: string, visual: string): string {
    "You are an expert content repurposing " +
    "strategist specializing in social " +
    "media optimization.\n\n" +
    "Platform: " + config.name + "\n" +
    "Platform characteristics:\n" +
    "- Ideal Duration: " + config.idealDuration + "\n" +
    "- Platform Tone: " + config.tone + "\n" +
    "- Caption Limit: " + NatToString(config.captionLimit) + " characters\n" +
    "- Hashtag Limit: " + NatToString(config.hashtagLimit) + " hashtags\n" +
    "- Description: " + config.description + "\n\n" +
    "Desired Tone: " + tone + "\n" +
    "Visual Preference: " + visual + "\n\n"
  }

  /** The instructions for one goal; each starts with `Goal: `. */
  function GoalText(g: Goal, config: PlatformConfig, targetLanguage: Option<string>): string {
    "Goal: " +
    match g
    case RepostLanguage => (
      "Translate and adapt the content to " +
      (if Truthy(targetLanguage) then targetLanguage.value else "the target language") + ".\n" +
      "- Maintain cultural relevance and " +
      "idioms appropriate for the target language\n" +
      "- Adapt jokes, references, and examples " +
      "to resonate with the target audience\n" +
      "- Keep the core message and value intact\n\n")
    case CreateVersion => (
      "Create a " + config.idealDuration + " version optimized for " + config.name + ".\n" +
      "- Adapt the pacing to match " +
      "platform expectations\n" +
      "- Restructure the hook and CTA " +
      "for the platform\n" +
      "- Adjust content density based " +
      "on ideal duration\n\n")
    case ExtractMessage => (
      "Extract the key message and " +
      "create a new script.\n" +
      "- Identify the core value proposition\n" +
      "- Create a fresh angle or perspective " +
      "on the same topic\n" +
      "- Write a complete new script that " +
      "conveys the same message differently\n\n")
    case CarouselCaption => (
      "Transform into a carousel post " +
      "or caption format.\n" +
      "- Break down content into digestible " +
      "slides (if carousel)\n" +
      "- Create engaging slide headlines\n" +
      "- Structure information for static " +
      "visual consumption\n\n")
    case BrandVoice => (
      "Recreate in the user's brand voice.\n" +
      "- Adapt language, terminology, and style\n" +
      "- Maintain authenticity while " +
      "covering the same topic\n" +
      "- Infuse personality and unique " +
      "perspective\n\n")
  }

  /** The instructions for one visual preference; each starts with `Visual: `. */
  function VisualText(v: Visual): string {
    "Visual: " +
    match v
    case TextOnly => (
      "Provide text-only content with " +
      "no visual suggestions.\n\n")
    case BRollIdeas => (
      "Suggest 5-7 B-roll shot ideas that " +
      "would accompany each section " +
      "of the script.\n\n")
    case CarouselPrompts => (
      "Create 5-10 carousel slide prompts " +
      "with headlines and key points " +
      "for each slide.\n\n")
    case ThumbnailSuggestions => (
      "Provide 3-5 AI-generated thumbnail " +
      "concepts with detailed descriptions " +
      "for DALL-E or Midjourney.\n\n")
  }

  function FormatSection(config: PlatformConfig): string {
    "Format your response as a JSON object " +
    "with the following structure:\n" +
    "{\n" +
    "  \"script\": \"The repurposed " +
    "script/content\",\n" +
    "  \"caption\": \"Social media caption " +
    "(within " + NatToString(config.captionLimit) + " chars)\",\n" +
    "  \"hashtags\": [\"hashtag1\", " +
    "\"hashtag2\", ...] (max " + NatToString(config.hashtagLimit) + "),\n" +
    "  \"duration\": \"Estimated duration\",\n" +
    "  \"visualSuggestions\": [] // Array " +
    "of visual suggestions based on preference\n" +
    "}"
  }

  /** The goal section chosen by the `switch`: nothing for an unknown goal. */
  function GoalSection(goal: string, config: PlatformConfig, targetLanguage: Option<string>): string {
    match GoalOf(goal)
    case Some(g) => GoalText(g, config, targetLanguage)
    case None => ""
  }

  function VisualSection(visual: string): string {
    match VisualOf(visual)
    case Some(v) => VisualText(v)
    case None => ""
  }

  /** The whole system prompt. */
  function SystemPrompt(goal: string, config: PlatformConfig, tone: string, visual: string,
                        targetLanguage: Option<string>): string {
    BasePrompt(config, tone, visual) + GoalSection(goal, config, targetLanguage) +
    VisualSection(visual) + FormatSection(config)
  }

  method BuildSystemPrompt(goal: string, config: PlatformConfig, tone: string, visual: string,
                           targetLanguage: Option<string>) returns (basePrompt: string)
    ensures basePrompt == SystemPrompt(goal, config, tone, visual, targetLanguage)
  {
    basePrompt := BasePrompt(config, tone, visual);
    basePrompt := basePrompt + GoalSection(goal, config, targetLanguage);
    basePrompt := basePrompt + VisualSection(visual);
    basePrompt := basePrompt + FormatSection(config);
  }

  /** A known goal contributes its own instructions and an unknown one
      contributes nothing; the same holds for the visual preference. */
  lemma SectionsChosen(goal: string, visual: string, config: PlatformConfig, targetLanguage: Option<string>)
    ensures GoalSection(goal, config, targetLanguage) == [] <==> GoalOf(goal) == None
    ensures forall g :: GoalSection(GoalName(g), config, targetLanguage) == GoalText(g, config, targetLanguage)
    ensures GoalOf(goal).Some? ==> "Goal: " <= GoalSection(goal, config, targetLanguage)
    ensures VisualSection(visual) == [] <==> VisualOf(visual) == None
    ensures forall v :: VisualSection(VisualName(v)) == VisualText(v)
    ensures VisualOf(visual).Some? ==> "Visual: " <= VisualSection(visual)
  {
    forall g ensures GoalOf(GoalName(g)) == Some(g) {
      GoalRoundTrip(g, goal);
    }
    forall v ensures VisualOf(VisualName(v)) == Some(v) {
      VisualRoundTrip(v, visual);
    }
  }

  // ----- User prompt -----

  function Head(transcript: string): string {
    "Original Content:\n\nTranscript:\n" + transcript + "\n\n"
  }

  const Closing := "Please repurpose this content according " +
    "to the specifications above. " +
    "Return a valid JSON object."

  function CaptionSection(caption: Option<string>): string {
    if Truthy(caption) then "Original Caption:\n" + caption.value + "\n\n" else ""
  }

  /** `hashtags.map((h) => `#${h}`)`. */
  function Prefixed(tags: seq<string>): (r: seq<string>)
    ensures |r| == |tags| && forall k :: 0 <= k < |tags| ==> r[k] == "#" + tags[k]
  {
    seq(|tags|, k requires 0 <= k < |tags| => "#" + tags[k])
  }

  function HashtagSection(hashtags: Option<seq<string>>): string {
    if hashtags.Some? && |hashtags.value| > 0 then "Original Hashtags:\n" + Join(Prefixed(hashtags.value), " ") + "\n\n"
    else ""
  }

  /** Each hashtag occurs, `#`-prefixed, in the hashtag section. */
  lemma HashtagSectionHasTags(tags: seq<string>, k: int) returns (i: nat)
    requires 0 <= k < |tags|
    ensures OccursAt(HashtagSection(Some(tags)), "#" + tags[k], i)
  {
    var joined := Join(Prefixed(tags), " ");
    var j := JoinHasPart(Prefixed(tags), " ", k);
    var head := "Original Hashtags:\n";
    assert HashtagSection(Some(tags)) == head + (joined + "\n\n");
    i := |head| + j;
    assert (head + (joined + "\n\n"))[i..i + |"#" + tags[k]|] == joined[j..j + |"#" + tags[k]|];
  }

  function CustomSection(instructions: Option<string>): string {
    if Truthy(instructions) then "Custom Instructions:\n" + instructions.value + "\n\n" else ""
  }

  function UserPrompt(transcript: string, caption: Option<string>, hashtags: Option<seq<string>>,
                      instructions: Option<string>): string {
    Head(transcript) + CaptionSection(caption) + HashtagSection(hashtags) + CustomSection(instructions) + Closing
  }

  method BuildUserPrompt(transcript: string, caption: Option<string>, hashtags: Option<seq<string>>,
                         instructions: Option<string>) returns (prompt: string)
    ensures prompt == UserPrompt(transcript, caption, hashtags, instructions)
  {
    prompt := Head(transcript);
    prompt := prompt + CaptionSection(caption);
    prompt := prompt + HashtagSection(hashtags);
    prompt := prompt + CustomSection(instructions);
    prompt := prompt + Closing;
  }

  /** The user prompt starts with the transcript block and ends with the
      closing request. */
  lemma UserPromptEnds(transcript: string, caption: Option<string>, hashtags: Option<seq<string>>,
                       instructions: Option<string>)
    ensures var p := UserPrompt(transcript, caption, hashtags, instructions);
            Head(transcript) <= p && |Closing| <= |p| && p[|p| - |Closing|..] == Closing
  {
    var mid := CaptionSection(caption) + HashtagSection(hashtags) + CustomSection(instructions);
    Framed(Head(transcript), mid, Closing);
  }

  lemma Framed<T>(h: seq<T>, mid: seq<T>, t: seq<T>)
    ensures var p := h + mid + t;
            h <= p && |t| <= |p| && p[|p| - |t|..] == t
  {
    var p := h + mid + t;
    assert p == h + (mid + t);
  }

  /** The user prompt has a caption section exactly for a non-empty caption,
      a hashtag section exactly for a non-empty list of hashtags and an
      instructions section exactly for non-empty instructions. */
  lemma UserPromptSections(caption: Option<string>, hashtags: Option<seq<string>>, instructions: Option<string>)
    ensures CaptionSection(caption) != [] <==> caption.Some? && caption.value != []
    ensures HashtagSection(hashtags) != [] <==> hashtags.Some? && hashtags.value != []
    ensures CustomSection(instructions) != [] <==> instructions.Some? && instructions.value != []
  {
  }

  // ----- Parsing the answer -----

  /** What extracting and parsing the `{...}` of the answer gave: nothing
      usable, or an object with these optional properties. */
  datatype ParseOutcome =
    | Unparsable
    | Parsed(script: Option<string>, caption: Option<string>, hashtags: Option<seq<string>>,
             duration: Option<string>, visualSuggestions: Option<seq<string>>)

  datatype GeneratedContent = GeneratedContent(
    generatedScript: string, generatedCaption: string, suggestedHashtags: seq<string>,
    duration: string, visualSuggestions: seq<string>,
    thumbnailIdeas: Option<seq<string>>, bRollSuggestions: Option<seq<string>>,
    carouselSlides: Option<seq<string>>)

  /** `x || ''`. */
  function TextOr(x: Option<string>): string {
    if Truthy(x) then x.value else ""
  }

  /** `parseGeneratedContent`. */
  function ParseGeneratedContent(content: string, visual: string, outcome: ParseOutcome): GeneratedContent {
    match outcome
    case Unparsable => GeneratedContent(content, "", [], "", [], None, None, None)
    case Parsed(script, caption, hashtags, duration, suggestions) =>
      GeneratedContent(
        TextOr(script), TextOr(caption), hashtags.GetOr([]), TextOr(duration), suggestions.GetOr([]),
        if visual == "thumbnail-suggestions" then suggestions else None,
        if visual == "b-roll-ideas" then suggestions else None,
        if visual == "carousel-prompts" then suggestions else None)
  }

  /** After a parse, each of the three routed fields is present only for its
      own visual preference, and then carries the suggestions as parsed; at
      most one of them is ever set. On failure the raw answer is the script
      and every other field is empty. */
  lemma ParseRouting(content: string, visual: string, outcome: ParseOutcome)
    ensures var r := ParseGeneratedContent(content, visual, outcome);
            (r.thumbnailIdeas.Some? ==> visual == VisualName(ThumbnailSuggestions)) &&
            (r.bRollSuggestions.Some? ==> visual == VisualName(BRollIdeas)) &&
            (r.carouselSlides.Some? ==> visual == VisualName(CarouselPrompts)) &&
            (outcome.Parsed? && visual == VisualName(ThumbnailSuggestions) ==> r.thumbnailIdeas == outcome.visualSuggestions) &&
            (outcome.Parsed? && visual == VisualName(BRollIdeas) ==> r.bRollSuggestions == outcome.visualSuggestions) &&
            (outcome.Parsed? && visual == VisualName(CarouselPrompts) ==> r.carouselSlides == outcome.visualSuggestions) &&
            (r.thumbnailIdeas.None? || r.bRollSuggestions.None?) &&
            (r.thumbnailIdeas.None? || r.carouselSlides.None?) &&
            (r.bRollSuggestions.None? || r.carouselSlides.None?)
    ensures outcome == Unparsable ==>
              ParseGeneratedContent(content, visual, outcome) == GeneratedContent(content, "", [], "", [], None, None, None)
  {
    assert "thumbnail-suggestions"[0] == 't' && "b-roll-ideas"[0] == 'b' && "carousel-prompts"[0] == 'c';
  }

  // ----- The endpoint -----

  /** Status 400, status 500 (an unknown platform makes reading its
      configuration throw; an empty answer is an error), or status 200. */
  datatype RepurposeResponse = MissingFields | RepurposeFailed | Repurposed(content: GeneratedContent)

  function Status(r: RepurposeResponse): nat {
    match r
    case MissingFields => 400
    case RepurposeFailed => 500
    case Repurposed(_) => 200
  }

  /** The answer of the chat completion, given as a function of the system
      and user prompts, for a request with the required fields. */
  function Answer(req: RepurposeRequest, p: Platform, complete: (string, string) -> Option<string>): Option<string>
    requires HasRequiredFields(req)
  {
    complete(SystemPrompt(req.goal.value, Config(p), req.tone.value, req.visualPreference.value, req.targetLanguage),
             UserPrompt(req.originalTranscript.value, req.originalCaption, req.originalHashtags, req.customInstructions))
  }

  /** What the endpoint answers for the completion's `answer`: an empty one is
      an error, any other is parsed. */
  function Outcome(answer: Option<string>, visual: string, parse: string -> ParseOutcome): RepurposeResponse {
    if !Truthy(answer) then RepurposeFailed
    else Repurposed(ParseGeneratedContent(answer.value, visual, parse(answer.value)))
  }

  /** The response, given the chat completion and the parse of its answer. */
  function Respond(req: RepurposeRequest, complete: (string, string) -> Option<string>,
                   parse: string -> ParseOutcome): RepurposeResponse {
    if !HasRequiredFields(req) then MissingFields
    else
      match PlatformOf(req.targetPlatform.value)
      case None => RepurposeFailed
      case Some(p) => Outcome(Answer(req, p, complete), req.visualPreference.value, parse)
  }

  method Post(req: RepurposeRequest, complete: (string, string) -> Option<string>,
              parse: string -> ParseOutcome) returns (r: RepurposeResponse)
    ensures r == Respond(req, complete, parse)
  {
    if !Truthy(req.goal) || !Truthy(req.targetPlatform) || !Truthy(req.tone) ||
       !Truthy(req.visualPreference) || !Truthy(req.originalTranscript) {
      return MissingFields;
    }
    var platform := PlatformOf(req.targetPlatform.value);
    if platform.None? {
      return RepurposeFailed;
    }
    r := Generate(req, platform.value, complete, parse);
  }

  /** The `try` block after the platform lookup: both prompts, the completion
      and the parse of its answer. */
  method Generate(req: RepurposeRequest, p: Platform, complete: (string, string) -> Option<string>,
                  parse: string -> ParseOutcome) returns (r: RepurposeResponse)
    requires HasRequiredFields(req)
    ensures r == Outcome(Answer(req, p, complete), req.visualPreference.value, parse)
  {
    var system := BuildSystemPrompt(req.goal.value, Config(p), req.tone.value,
                                    req.visualPreference.value, req.targetLanguage);
    var user := BuildUserPrompt(req.originalTranscript.value, req.originalCaption, req.originalHashtags,
                                req.customInstructions);
    var answer := complete(system, user);
    r := Outcome(answer, req.visualPreference.value, parse);
  }

  /** An answer of the completion gives 200 exactly when it has some text,
      and then the parse of that text; otherwise 500. */
  lemma OutcomeStatus(answer: Option<string>, visual: string, parse: string -> ParseOutcome)
    ensures Status(Outcome(answer, visual, parse)) in {200, 500}
    ensures Status(Outcome(answer, visual, parse)) == 200 <==> Truthy(answer)
    ensures Truthy(answer) ==>
              Outcome(answer, visual, parse).content == ParseGeneratedContent(answer.value, visual, parse(answer.value))
  {
  }

  /** A request with the five required fields is never refused with 400. */
  lemma RespondNotRefused(req: RepurposeRequest, complete: (string, string) -> Option<string>,
                          parse: string -> ParseOutcome)
    requires HasRequiredFields(req)
    ensures Status(Respond(req, complete, parse)) in {200, 500}
  {
    RespondPlatform(req, complete, parse);
    var platform := PlatformOf(req.targetPlatform.value);
    if platform.Some? {
      OutcomeStatus(Answer(req, platform.value, complete), req.visualPreference.value, parse);
    }
  }

  /** With the required fields, a platform outside the configured five gives
      500, and one of the five gives what the completion's answer to the two
      prompts built for it gives. */
  lemma RespondPlatform(req: RepurposeRequest, complete: (string, string) -> Option<string>,
                        parse: string -> ParseOutcome)
    requires HasRequiredFields(req)
    ensures PlatformOf(req.targetPlatform.value).None? ==> Status(Respond(req, complete, parse)) == 500
    ensures PlatformOf(req.targetPlatform.value).Some? ==>
              Respond(req, complete, parse) ==
              Outcome(Answer(req, PlatformOf(req.targetPlatform.value).value, complete), req.visualPreference.value, parse)
  {
  }

  /** A request without one of the five required fields is refused with 400,
      whatever the completion and the parser would do. */
  lemma RespondMissingAsksNothing(req: RepurposeRequest, complete: (string, string) -> Option<string>,
                                  complete': (string, string) -> Option<string>,
                                  parse: string -> ParseOutcome, parse': string -> ParseOutcome)
    requires !HasRequiredFields(req)
    ensures Respond(req, complete, parse) == Respond(req, complete', parse') == MissingFields
  {
  }
}
