/** The reel record the analytics work on, as it arrives from the scraper
    together with an optional transcript. */
module ReelTypes {
  import opened Wrappers

  /** `Date.getHours()` and `Date.getDay()` (0 is Sunday). */
  type Hour = h: int | 0 <= h < 24
  type Day = d: int | 0 <= d < 7

  /** A timestamp string with the hour and day of the week it decodes to. */
  datatype Timestamp = Timestamp(text: string, hour: Hour, day: Day)

  datatype TranscriptChunk = TranscriptChunk(text: string, offset: int, duration: int)

  /** The `content` of a transcript response: missing, plain text or timed chunks. */
  datatype TranscriptContent = NoContent | Plain(text: string) | Chunks(chunks: seq<TranscriptChunk>)

  datatype Reel = Reel(
    id: Option<string>,
    url: string,
    caption: Option<string>,
    thumbnail: Option<string>,
    likesCount: Option<nat>,
    viewsCount: Option<nat>,
    commentsCount: Option<nat>,
    timestamp: Option<Timestamp>,
    postedTime: Option<Timestamp>,
    videoUrl: Option<string>,
    hashtags: Option<seq<string>>,
    musicTitle: Option<string>,
    transcript: Option<TranscriptContent>)

  /** `reel.likesCount || 0` and its siblings. */
  function Likes(r: Reel): nat { r.likesCount.GetOr(0) }
  function Views(r: Reel): nat { r.viewsCount.GetOr(0) }
  function Comments(r: Reel): nat { r.commentsCount.GetOr(0) }

  /** likes + views + comments, the engagement of the analytics. */
  function Engagement(r: Reel): nat { Likes(r) + Views(r) + Comments(r) }

  /** `s || ''`. */
  function OrEmpty(s: Option<string>): string { s.GetOr("") }

  /** A string-valued field is truthy when present and non-empty. */
  predicate TruthyTime(t: Option<Timestamp>) { t.Some? && t.value.text != "" }

  /** `reel.posted_time || reel.timestamp`, if either is truthy. */
  function PostTime(r: Reel): Option<Timestamp> {
    if TruthyTime(r.postedTime) then r.postedTime
    else if TruthyTime(r.timestamp) then r.timestamp
    else None
  }
}
