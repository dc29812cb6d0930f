/** The pure part of reel ingestion from the profile scraper: hashtags of a
    caption, the username of a profile URL, the post-to-reel filter and map,
    and the ranking by weighted engagement. The scraper run itself is an
    input: the list of dataset items it returned. */
module ApifyClient {
  import opened Wrappers
  import opened JsText
  import opened StableSort
  import opened UrlPatterns

  /** `[\w֐-׿]`: ASCII word characters and the Hebrew block. */
  predicate TagChar(c: char) {
    IsWordChar(c) || ('\U{0590}' <= c <= '\U{05FF}')
  }

  /** A `#` at `j` followed by a tag character: where `/#[\w\u0590-\u05ff]+/`
      can start. */
  predicate HashAt(s: string, j: int) {
    0 <= j && j + 1 < |s| && s[j] == '#' && TagChar(s[j + 1])
  }

  /** The tag that follows the `#` at `j`. */
  function TagAt(s: string, j: int): string {
    if 0 <= j < |s| then Run(s[j + 1..], TagChar) else []
  }

  /** The positions of the `#` of each global match at or after `i`, left to
      right; a match consumes the longest run of tag characters. */
  function Scan(s: string, i: nat): seq<nat>
    decreases |s| - i
  {
    if i >= |s| then []
    else if HashAt(s, i) then [i] + Scan(s, i + 1 + |TagAt(s, i)|)
    else Scan(s, i + 1)
  }

  /** `extractHashtags`: the matches with their `#` removed. */
  function ExtractHashtags(caption: Option<string>): seq<string> {
    if caption == None || caption == Some("") then []
    else
      var s := caption.value;
      var ps := Scan(s, 0);
      ScanInText(s, 0);
      seq(|ps|, k requires 0 <= k < |ps| => TagAt(s, ps[k]))
  }

  lemma {:induction false} ScanInText(s: string, i: nat)
    ensures forall k :: 0 <= k < |Scan(s, i)| ==> i <= Scan(s, i)[k] < |s|
    decreases |s| - i
  {
    if i < |s| {
      if HashAt(s, i) {
        ScanInText(s, i + 1 + |TagAt(s, i)|);
      } else {
        ScanInText(s, i + 1);
      }
    }
  }

  /** Every position the scan finds holds a `#` followed by a tag character. */
  lemma {:induction false} ScanSound(s: string, i: nat)
    ensures forall k :: 0 <= k < |Scan(s, i)| ==> HashAt(s, Scan(s, i)[k])
    decreases |s| - i
  {
    if i < |s| {
      if HashAt(s, i) {
        ScanSound(s, i + 1 + |TagAt(s, i)|);
      } else {
        ScanSound(s, i + 1);
      }
    }
  }

  /** The scan from `i` finds no position before `i`. */
  lemma {:induction false} ScanAbove(s: string, i: nat)
    ensures forall k :: 0 <= k < |Scan(s, i)| ==> i <= Scan(s, i)[k]
    decreases |s| - i
  {
    if i < |s| {
      if HashAt(s, i) {
        ScanAbove(s, i + 1 + |TagAt(s, i)|);
      } else {
        ScanAbove(s, i + 1);
      }
    }
  }

  /** A `#` is not a tag character, so none lies inside a tag. */
  lemma NoHashInTag(s: string, i: nat, j: int)
    requires HashAt(s, i) && i < j < i + 1 + |TagAt(s, i)|
    ensures !HashAt(s, j)
  {
    var t := TagAt(s, i);
    assert t <= s[i + 1..];
    assert s[j] == t[j - i - 1];
  }

  /** The scan finds every `#` followed by a tag character: no match hides
      another. */
  lemma {:induction false} ScanComplete(s: string, i: nat)
    ensures forall j :: i <= j && HashAt(s, j) ==> j in Scan(s, i)
    decreases |s| - i
  {
    if i < |s| {
      if HashAt(s, i) {
        var next := i + 1 + |TagAt(s, i)|;
        ScanComplete(s, next);
        forall j | i < j < next {
          NoHashInTag(s, i, j);
        }
      } else {
        ScanComplete(s, i + 1);
      }
    }
  }

  /** Where the match that starts at a position ends. */
  function TagEnd(s: string): nat -> int {
    p => p + 1 + |TagAt(s, p)|
  }

  /** Each position's match ends before every later position in `ps`. */
  predicate Spaced(ps: seq<nat>, end: nat -> int) {
    forall k, l :: 0 <= k < l < |ps| ==> end(ps[k]) <= ps[l]
  }

  lemma SpacedCons(p: nat, rest: seq<nat>, end: nat -> int)
    requires Spaced(rest, end) && forall l :: 0 <= l < |rest| ==> end(p) <= rest[l]
    ensures Spaced([p] + rest, end)
  {
    var ps := [p] + rest;
    forall k, l | 0 <= k < l < |ps| ensures end(ps[k]) <= ps[l] {
      assert ps[l] == rest[l - 1];
      if k > 0 {
        assert ps[k] == rest[k - 1];
      }
    }
  }

  /** The positions increase, and each tag ends before the next `#`. */
  lemma {:induction false} ScanOrdered(s: string, i: nat)
    ensures Spaced(Scan(s, i), TagEnd(s))
    decreases |s| - i
  {
    if i < |s| {
      if HashAt(s, i) {
        var next := i + 1 + |TagAt(s, i)|;
        ScanOrdered(s, next);
        ScanAbove(s, next);
        MatchSpaced(s, i, Scan(s, next));
      } else {
        ScanOrdered(s, i + 1);
      }
    }
  }

  lemma MatchSpaced(s: string, i: nat, rest: seq<nat>)
    requires i < |s| && HashAt(s, i) && rest == Scan(s, i + 1 + |TagAt(s, i)|)
    requires Spaced(rest, TagEnd(s)) && forall l :: 0 <= l < |rest| ==> i + 1 + |TagAt(s, i)| <= rest[l]
    ensures Spaced(Scan(s, i), TagEnd(s))
  {
    assert TagEnd(s)(i) == i + 1 + |TagAt(s, i)|;
    SpacedCons(i, rest, TagEnd(s));
    assert Scan(s, i) == [i] + rest;
  }

  /** A missing or empty caption has no hashtags. */
  lemma ExtractHashtagsEmpty()
    ensures ExtractHashtags(None) == [] && ExtractHashtags(Some("")) == []
  {
  }

  /** The hashtags of a non-empty caption are the tags at the positions the
      scan finds, in that order. */
  lemma ExtractHashtagsShape(s: string)
    requires s != []
    ensures |ExtractHashtags(Some(s))| == |Scan(s, 0)|
    ensures forall k :: 0 <= k < |Scan(s, 0)| ==> ExtractHashtags(Some(s))[k] == TagAt(s, Scan(s, 0)[k])
  {
  }

  /** The tag after a `#` is the non-empty, longest run of tag characters
      (none of them a `#`) that follows it in the caption. */
  lemma TagAtSpec(s: string, j: int)
    requires HashAt(s, j)
    ensures var t := TagAt(s, j);
            t != [] && j + 1 + |t| <= |s| && t == s[j + 1..j + 1 + |t|] &&
            (forall c :: 0 <= c < |t| ==> TagChar(t[c]) && t[c] != '#') &&
            (j + 1 + |t| == |s| || !TagChar(s[j + 1 + |t|]))
  {
    var t := TagAt(s, j);
    assert t <= s[j + 1..];
    assert s[j + 1..][0] == s[j + 1];
  }

  /** `[a-zA-Z0-9._]`. */
  predicate UserChar(c: char) {
    ('a' <= c <= 'z') || ('A' <= c <= 'Z') || ('0' <= c <= '9') || c == '.' || c == '_'
  }

  /** `extractUsername`: the group of `/instagram\.com\/([a-zA-Z0-9._]+)/`. */
  function ExtractUsername(url: string): Option<string> {
    FirstCapture(url, ["instagram.com/"], UserChar)
  }

  /** No username exactly when `instagram.com/` is nowhere followed by a
      username character; otherwise the username is the longest run of them
      after the first such occurrence. */
  lemma ExtractUsernameSpec(url: string)
    ensures ExtractUsername(url) == None <==> forall j :: !PrefixedAt(url, j, "instagram.com/", UserChar)
    ensures ExtractUsername(url).Some? ==>
              var j, u := Pos(url, ["instagram.com/"], UserChar, 0), ExtractUsername(url).value;
              PrefixedAt(url, j, "instagram.com/", UserChar) &&
              (forall j' :: 0 <= j' < j ==> !PrefixedAt(url, j', "instagram.com/", UserChar)) &&
              u == Run(url[j + 14..], UserChar) && u != []
  {
    var pats := ["instagram.com/"];
    FirstCaptureNone(url, pats, UserChar);
    if ExtractUsername(url).Some? {
      FirstCaptureSome(url, pats, UserChar);
    } else {
      forall j ensures !PrefixedAt(url, j, "instagram.com/", UserChar) {
        assert pats[0] == "instagram.com/";
      }
    }
  }

  /** A scraped post; each property may be missing. */
  datatype Post = Post(
    id: Option<string>, shortCode: Option<string>, postType: Option<string>, url: Option<string>,
    caption: Option<string>, text: Option<string>,
    displayUrl: Option<string>, thumbnailUrl: Option<string>, thumbnail: Option<string>,
    likesCount: Option<nat>, likes: Option<nat>,
    videoViewCount: Option<nat>, playsCount: Option<nat>, viewCount: Option<nat>,
    commentsCount: Option<nat>, comments: Option<nat>,
    timestamp: Option<string>, takenAt: Option<string>, created: Option<string>,
    videoUrl: Option<string>, video: Option<string>,
    musicInfoName: Option<string>, audioName: Option<string>, musicName: Option<string>,
    originalAudioTitle: Option<string>)

  /** A dataset item; only its `latestPosts` array is read. */
  datatype Item = Item(latestPosts: Option<seq<Post>>)

  /** The `InstagramReel` record built from a post. */
  datatype ScrapedReel = ScrapedReel(
    id: Option<string>, url: string, caption: Option<string>, thumbnail: Option<string>,
    likesCount: Option<nat>, viewsCount: Option<nat>, commentsCount: Option<nat>,
    timestamp: Option<string>, postedTime: Option<string>, videoUrl: Option<string>,
    hashtags: seq<string>, musicTitle: Option<string>)

  /** `a || b` on optional strings: `a` unless it is missing or empty. */
  function OrText(a: Option<string>, b: Option<string>): Option<string> {
    if a.Some? && a.value != "" then a else b
  }

  /** `a || b` on optional numbers: `a` unless it is missing or zero. */
  function OrCount(a: Option<nat>, b: Option<nat>): Option<nat> {
    if a.Some? && a.value != 0 then a else b
  }

  /** `${x}` of an optional string. */
  function Interpolate(x: Option<string>): string {
    if x.Some? then x.value else "undefined"
  }

  /** Only video posts become reels. */
  predicate IsReelPost(p: Post) {
    p.postType == Some("Video") || p.postType == Some("Reel") ||
    (p.displayUrl.Some? && Includes(p.displayUrl.value, "video"))
  }

  /** The record pushed for a post. */
  function ToReel(p: Post): (r: ScrapedReel)
    ensures r.postedTime == r.timestamp
    ensures r.caption == OrText(p.caption, p.text)
    ensures r.hashtags == ExtractHashtags(r.caption)
  {
    var caption := OrText(p.caption, p.text);
    var postedTime := OrText(OrText(p.timestamp, p.takenAt), p.created);
    ScrapedReel(
      OrText(p.id, p.shortCode),
      if p.url.Some? && p.url.value != "" then p.url.value else "https://instagram.com/reel/" + Interpolate(p.shortCode),
      caption,
      OrText(OrText(p.displayUrl, p.thumbnailUrl), p.thumbnail),
      OrCount(p.likesCount, p.likes),
      OrCount(OrCount(p.videoViewCount, p.playsCount), p.viewCount),
      OrCount(p.commentsCount, p.comments),
      postedTime, postedTime,
      OrText(p.videoUrl, p.video),
      ExtractHashtags(caption),
      OrText(OrText(OrText(p.musicInfoName, p.audioName), p.musicName), p.originalAudioTitle))
  }

  /** `likes + views + comments * 2`, missing counts taken as 0. */
  function Weighted(r: ScrapedReel): int {
    r.likesCount.GetOr(0) + r.viewsCount.GetOr(0) + 2 * r.commentsCount.GetOr(0)
  }

  /** The reels pushed for one item's posts, in order. */
  function PostReels(posts: seq<Post>): seq<ScrapedReel> {
    if posts == [] then []
    else
      var last := posts[|posts| - 1];
      PostReels(posts[..|posts| - 1]) + (if IsReelPost(last) then [ToReel(last)] else [])
  }

  function ItemPosts(item: Item): seq<Post> {
    if item.latestPosts.Some? then item.latestPosts.value else []
  }

  /** The reels pushed for all items, in order. */
  function Collected(items: seq<Item>): seq<ScrapedReel> {
    if items == [] then [] else Collected(items[..|items| - 1]) + PostReels(ItemPosts(items[|items| - 1]))
  }

  /** The reels returned for the scraped items. */
  function ProfileReels(items: seq<Item>): seq<ScrapedReel> {
    SortDesc(Collected(items), Weighted)
  }

  /** The pure part of `fetchProfileReels`: walk the items' posts, push a
      reel for each video post, then sort by weighted engagement. */
  method ProfileReelsOf(items: seq<Item>) returns (reels: seq<ScrapedReel>)
    ensures reels == ProfileReels(items)
  {
    var built: seq<ScrapedReel> := [];
    for i := 0 to |items|
      invariant built == Collected(items[..i])
    {
      var posts := ItemPosts(items[i]);
      ghost var before := built;
      for j := 0 to |posts|
        invariant built == before + PostReels(posts[..j])
      {
        var post := posts[j];
        assert posts[..j + 1][..j] == posts[..j];
        if IsReelPost(post) {
          built := built + [ToReel(post)];
        }
      }
      assert posts[..|posts|] == posts;
      assert items[..i + 1][..i] == items[..i];
    }
    assert items[..|items|] == items;
    var a := new ScrapedReel[|built|](k requires 0 <= k < |built| => built[k]);
    assert a[..] == built;
    SortInPlace(a, Weighted);
    reels := a[..];
  }

  /** Exactly the video posts become reels, each once per occurrence. */
  lemma {:induction false} PostReelsSpec(posts: seq<Post>)
    ensures forall r :: r in PostReels(posts) ==> exists j :: 0 <= j < |posts| && IsReelPost(posts[j]) && r == ToReel(posts[j])
    ensures forall j :: 0 <= j < |posts| && IsReelPost(posts[j]) ==> ToReel(posts[j]) in PostReels(posts)
  {
    if posts != [] {
      var init := posts[..|posts| - 1];
      PostReelsSpec(init);
      assert forall j :: 0 <= j < |init| ==> init[j] == posts[j];
    }
  }

  /** Every returned reel comes from a video post of some item, has
      `posted_time == timestamp` and the hashtags of its caption. */
  lemma {:induction false} CollectedSpec(items: seq<Item>)
    ensures forall r :: r in Collected(items) ==>
              r.postedTime == r.timestamp && r.hashtags == ExtractHashtags(r.caption) &&
              exists i, j :: 0 <= i < |items| && 0 <= j < |ItemPosts(items[i])| &&
                             IsReelPost(ItemPosts(items[i])[j]) && r == ToReel(ItemPosts(items[i])[j])
  {
    if items != [] {
      var init := items[..|items| - 1];
      CollectedSpec(init);
      PostReelsSpec(ItemPosts(items[|items| - 1]));
      assert forall i :: 0 <= i < |init| ==> init[i] == items[i];
    }
  }

  /** The result is ordered by non-increasing weighted engagement, it is a
      permutation of the reels collected, and equal scores keep the order in
      which the posts were met. */
  lemma ProfileReelsRanked(items: seq<Item>)
    ensures SortedDesc(ProfileReels(items), Weighted)
    ensures multiset(ProfileReels(items)) == multiset(Collected(items))
    ensures forall k :: KeyFilter(ProfileReels(items), Weighted, k) == KeyFilter(Collected(items), Weighted, k)
  {
    SortDescSorted(Collected(items), Weighted);
    forall k {
      SortDescFilter(Collected(items), Weighted, k);
    }
  }
}
