/** Post-id extraction from a post or reel URL, and the branches of the
    metadata lookup that do not depend on the network: the oEmbed outcome is
    an input. */
module InstagramMetadata {
  import opened Wrappers
  import opened UrlPatterns

  /** `[A-Za-z0-9_-]`. */
  predicate IdChar(c: char) {
    ('A' <= c <= 'Z') || ('a' <= c <= 'z') || ('0' <= c <= '9') || c == '_' || c == '-'
  }

  /** The two alternatives of `instagram\.com\/(?:p|reel)\/`, in order. */
  const PostPrefixes: seq<string> := ["instagram.com/p/", "instagram.com/reel/"]

  /** `extractInstagramId`. */
  function ExtractInstagramId(url: string): Option<string> {
    FirstCapture(url, PostPrefixes, IdChar)
  }

  /** No id exactly when neither prefix is followed by an id character
      anywhere; otherwise the id is the longest run of id characters (so it
      stops at `/` or `?`) after the leftmost such prefix. */
  lemma ExtractInstagramIdSpec(url: string)
    ensures ExtractInstagramId(url) == None <==>
            forall j :: !PrefixedAt(url, j, "instagram.com/p/", IdChar) && !PrefixedAt(url, j, "instagram.com/reel/", IdChar)
    ensures ExtractInstagramId(url).Some? ==>
              var j, id := Pos(url, PostPrefixes, IdChar, 0), ExtractInstagramId(url).value;
              (PrefixedAt(url, j, "instagram.com/p/", IdChar) || PrefixedAt(url, j, "instagram.com/reel/", IdChar)) &&
              (forall j' :: 0 <= j' < j ==>
                 !PrefixedAt(url, j', "instagram.com/p/", IdChar) && !PrefixedAt(url, j', "instagram.com/reel/", IdChar)) &&
              id != [] && (forall c :: 0 <= c < |id| ==> IdChar(id[c])) &&
              (id == Run(url[j + 16..], IdChar) || id == Run(url[j + 19..], IdChar))
  {
    var pats := PostPrefixes;
    assert pats[0] == "instagram.com/p/" && pats[1] == "instagram.com/reel/";
    FirstCaptureNone(url, pats, IdChar);
    if ExtractInstagramId(url).Some? {
      FirstCaptureSome(url, pats, IdChar);
    } else {
      forall j ensures !PrefixedAt(url, j, "instagram.com/p/", IdChar) && !PrefixedAt(url, j, "instagram.com/reel/", IdChar) {
        assert !PrefixedAt(url, j, pats[0], IdChar) && !PrefixedAt(url, j, pats[1], IdChar);
      }
    }
  }

  datatype Metadata = Metadata(
    url: string, thumbnail: Option<string>, username: Option<string>,
    title: Option<string>, description: Option<string>)

  /** What the oEmbed request gave: a failure (a network error, a response
      that is not ok, or a body that is not JSON) or the fields read from it. */
  datatype OEmbed = OEmbedFailed | OEmbedData(thumbnailUrl: Option<string>, authorName: Option<string>, title: Option<string>)

  /** `https://instagram.com/p/${postId}/media/?size=l`. */
  function FallbackThumbnail(postId: string): string {
    "https://instagram.com/p/" + postId + "/media/?size=l"
  }

  /** `fetchInstagramMetadata`, given the oEmbed outcome. */
  function FetchMetadata(url: string, oembed: OEmbed): Metadata {
    match ExtractInstagramId(url)
    case None => Metadata(url, None, None, None, None)
    case Some(postId) =>
      match oembed
      case OEmbedData(thumbnail, author, title) => Metadata(url, thumbnail, author, title, None)
      case OEmbedFailed => Metadata(url, Some(FallbackThumbnail(postId)), None, None, None)
  }

  /** Every branch returns the URL it was given and no description. */
  lemma FetchMetadataKeepsUrl(url: string, oembed: OEmbed)
    ensures FetchMetadata(url, oembed).url == url
    ensures FetchMetadata(url, oembed).description == None
  {
  }

  /** A URL without a post id gives metadata with nothing but the URL,
      whatever oEmbed would say. */
  lemma FetchMetadataInvalid(url: string, oembed: OEmbed)
    requires ExtractInstagramId(url) == None
    ensures FetchMetadata(url, oembed) == Metadata(url, None, None, None, None)
  {
  }

  /** When oEmbed fails for a valid URL, the thumbnail is the one built from
      the post id and nothing else is known. */
  lemma FetchMetadataFallback(url: string)
    requires ExtractInstagramId(url).Some?
    ensures var m := FetchMetadata(url, OEmbedFailed);
            m.thumbnail == Some("https://instagram.com/p/" + ExtractInstagramId(url).value + "/media/?size=l") &&
            m.username == None && m.title == None
  {
  }

  /** When oEmbed answers for a valid URL, its thumbnail, author and title are
      passed through. */
  lemma FetchMetadataOEmbed(url: string, thumbnail: Option<string>, author: Option<string>, title: Option<string>)
    requires ExtractInstagramId(url).Some?
    ensures FetchMetadata(url, OEmbedData(thumbnail, author, title)) == Metadata(url, thumbnail, author, title, None)
  {
  }
}
