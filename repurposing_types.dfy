/** The repurposing options, their wire names, and the per-platform
    configuration table. */
module RepurposingTypes {
  import opened Wrappers

  datatype Goal = RepostLanguage | CreateVersion | ExtractMessage | CarouselCaption | BrandVoice
  datatype Platform = Instagram | YouTube | TikTok | LinkedIn | Twitter
  datatype Tone = Motivational | Educational | Conversational | Humorous | Inspirational | Persuasive | Calm | Empathetic
  datatype Visual = TextOnly | BRollIdeas | CarouselPrompts | ThumbnailSuggestions

  function GoalName(g: Goal): string {
    match g
    case RepostLanguage => "repost-language"
    case CreateVersion => "create-version"
    case ExtractMessage => "extract-message"
    case CarouselCaption => "carousel-caption"
    case BrandVoice => "brand-voice"
  }

  /** The goal a wire name denotes, if any. */
  function GoalOf(s: string): Option<Goal> {
    if s == "repost-language" then Some(RepostLanguage)
    else if s == "create-version" then Some(CreateVersion)
    else if s == "extract-message" then Some(ExtractMessage)
    else if s == "carousel-caption" then Some(CarouselCaption)
    else if s == "brand-voice" then Some(BrandVoice)
    else None
  }

  /** A name parses back to its goal, and only names of goals parse. */
  lemma GoalRoundTrip(g: Goal, s: string)
    ensures GoalOf(GoalName(g)) == Some(g)
    ensures GoalOf(s).Some? ==> GoalName(GoalOf(s).value) == s
  {
    assert "repost-language"[0] == 'r' && "extract-message"[0] == 'e';
  }

  function PlatformName(p: Platform): string {
    match p
    case Instagram => "instagram"
    case YouTube => "youtube"
    case TikTok => "tiktok"
    case LinkedIn => "linkedin"
    case Twitter => "twitter"
  }

  /** The platform a key of the configuration table denotes, if any. */
  function PlatformOf(s: string): Option<Platform> {
    if s == "instagram" then Some(Instagram)
    else if s == "youtube" then Some(YouTube)
    else if s == "tiktok" then Some(TikTok)
    else if s == "linkedin" then Some(LinkedIn)
    else if s == "twitter" then Some(Twitter)
    else None
  }

  lemma PlatformRoundTrip(p: Platform, s: string)
    ensures PlatformOf(PlatformName(p)) == Some(p)
    ensures PlatformOf(s).Some? ==> PlatformName(PlatformOf(s).value) == s
  {
    assert "youtube"[0] == 'y' && "twitter"[0] == 't';
  }

  function ToneName(t: Tone): string {
    match t
    case Motivational => "motivational"
    case Educational => "educational"
    case Conversational => "conversational"
    case Humorous => "humorous"
    case Inspirational => "inspirational"
    case Persuasive => "persuasive"
    case Calm => "calm"
    case Empathetic => "empathetic"
  }

  function VisualName(v: Visual): string {
    match v
    case TextOnly => "text-only"
    case BRollIdeas => "b-roll-ideas"
    case CarouselPrompts => "carousel-prompts"
    case ThumbnailSuggestions => "thumbnail-suggestions"
  }

  function VisualOf(s: string): Option<Visual> {
    if s == "text-only" then Some(TextOnly)
    else if s == "b-roll-ideas" then Some(BRollIdeas)
    else if s == "carousel-prompts" then Some(CarouselPrompts)
    else if s == "thumbnail-suggestions" then Some(ThumbnailSuggestions)
    else None
  }

  lemma VisualRoundTrip(v: Visual, s: string)
    ensures VisualOf(VisualName(v)) == Some(v)
    ensures VisualOf(s).Some? ==> VisualName(VisualOf(s).value) == s
  {
  }

  datatype PlatformConfig = PlatformConfig(
    name: string, idealDuration: string, tone: string,
    captionLimit: nat, hashtagLimit: nat, description: string)

  /** `PLATFORM_CONFIGS`. */
  function Config(p: Platform): PlatformConfig {
    match p
    case Instagram => PlatformConfig("Instagram", "15-60 seconds", "Authentic + Visual-first", 2200, 30,
      "Short, engaging videos with strong " +
      "visual appeal. Focus on the first " +
      "3 seconds to hook viewers.")
    case YouTube => PlatformConfig("YouTube", "8-15 minutes (Shorts: 60 seconds)", "In-depth + Educational", 5000, 15,
      "Longer-form content with detailed " +
      "explanations. Optimize for search " +
      "with keywords in title and description.")
    case TikTok => PlatformConfig("TikTok", "15-60 seconds", "Energetic + Trend-focused", 2200, 30,
      "Fast-paced, trending content with " +
      "immediate hooks. Use popular sounds " +
      "and challenges.")
    case LinkedIn => PlatformConfig("LinkedIn", "30-90 seconds", "Professional + Storytelling", 3000, 5,
      "Professional insights and thought " +
      "leadership. Share lessons, experiences, " +
      "and industry knowledge.")
    case Twitter => PlatformConfig("Twitter (X)", "30-45 seconds", "Concise + Conversational", 280, 2,
      "Quick, punchy content. Get to the " +
      "point immediately and spark conversation.")
  }
}
