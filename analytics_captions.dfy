/** `analyzeCaptions`: length and word-count averages over the non-empty
    captions, the most frequent keywords, emoji, question and call-to-action
    rates, and the caption style. */
module AnalyticsCaptions {
  import opened Wrappers
  import opened JsText
  import opened JsMath
  import opened OrderedMap
  import opened StableSort
  import opened ReelTypes
  import WordCount
  import Seqs

  datatype CaptionStyle = Short | Medium | Long

  datatype CaptionAnalysis = CaptionAnalysis(
    avgLength: nat, avgWordCount: nat, topKeywords: seq<string>, captionStyle: CaptionStyle,
    emojiUsage: nat, questionUsage: nat, callToActionUsage: nat)

  const NoCaptions := CaptionAnalysis(0, 0, [], Short, 0, 0, 0)

  /** `reels.map(r => r.caption || '').filter(c => c.length > 0)`. */
  function Captions(reels: seq<Reel>): (cs: seq<string>)
    ensures |cs| <= |reels|
    ensures forall i :: 0 <= i < |cs| ==> cs[i] != []
  {
    if reels == [] then []
    else
      var c := OrEmpty(reels[0].caption);
      (if |c| > 0 then [c] else []) + Captions(reels[1..])
  }

  /** There is no caption to analyse exactly when every caption is missing or empty. */
  lemma {:induction false} CaptionsEmpty(reels: seq<Reel>)
    ensures Captions(reels) == [] <==> forall i :: 0 <= i < |reels| ==> OrEmpty(reels[i].caption) == ""
  {
    if reels != [] {
      CaptionsEmpty(reels[1..]);
      assert forall i :: 1 <= i < |reels| ==> reels[i] == reels[1..][i - 1];
    }
  }

  const CommonWords: set<string> := {
    "the", "a", "an", "and", "or", "but", "in", "on", "at", "to", "for", "of", "with", "by", "from",
    "is", "are", "was", "were", "be", "been", "being", "have", "has", "had", "do", "does", "did",
    "will", "would", "could", "should", "may", "might", "can", "this", "that", "these", "those",
    "i", "you", "he", "she", "it", "we", "they", "my", "your", "his", "her", "its", "our", "their"}

  const CtaWords: seq<string> := ["link", "bio", "comment", "follow", "subscribe", "click", "check", "visit", "shop", "buy"]

  /** `s` without its leading run of `\w` characters. */
  function SkipWordChars(s: string): (r: string)
    ensures |r| <= |s| && r == s[|s| - |r|..]
  {
    if s != [] && IsWordChar(s[0]) then SkipWordChars(s[1..]) else s
  }

  /** `s.replace(/#\w+/g, '')`: each `#` followed by a maximal run of `\w` is
      removed together with the run. */
  function StripHashtags(s: string): string
    decreases |s|
  {
    if s == [] then []
    else if s[0] == '#' && |s| > 1 && IsWordChar(s[1]) then StripHashtags(SkipWordChars(s[1..]))
    else [s[0]] + StripHashtags(s[1..])
  }

  /** `s.replace(/[^\w\s]/g, '')`. */
  function StripPunct(s: string): (r: string)
    ensures forall i :: 0 <= i < |r| ==> (IsWordChar(r[i]) || IsSpace(r[i])) && r[i] in s
  {
    if s == [] then []
    else (if IsWordChar(s[0]) || IsSpace(s[0]) then [s[0]] else []) + StripPunct(s[1..])
  }

  predicate IsKeyword(w: string) {
    Utf16Len(w) > 3 && w !in CommonWords
  }

  function FilterKeywords(ws: seq<string>): (r: seq<string>)
    ensures forall i :: 0 <= i < |r| ==> IsKeyword(r[i]) && r[i] in ws
  {
    if ws == [] then []
    else (if IsKeyword(ws[0]) then [ws[0]] else []) + FilterKeywords(ws[1..])
  }

  /** The keyword candidates of one caption, in order. */
  function Keywords(c: string): seq<string> {
    FilterKeywords(SplitWs(StripPunct(StripHashtags(Lower(c)))))
  }

  /** The keyword candidates of all captions, caption by caption. */
  function AllKeywords(cs: seq<string>): seq<string> {
    if cs == [] then [] else AllKeywords(cs[..|cs| - 1]) + Keywords(cs[|cs| - 1])
  }

  function TotalLength(cs: seq<string>): nat {
    if cs == [] then 0 else Utf16Len(cs[0]) + TotalLength(cs[1..])
  }

  /** `sum + c.split(/\s+/).length`, empty leading and trailing pieces included. */
  function TotalWords(cs: seq<string>): nat {
    if cs == [] then 0 else |SplitWs(cs[0])| + TotalWords(cs[1..])
  }

  /** A code point of the emoji class of `analyzeCaptions`'s emoji pattern. */
  predicate IsEmoji(c: char) {
    ('\U{1F600}' <= c <= '\U{1F64F}') || ('\U{1F300}' <= c <= '\U{1F5FF}') ||
    ('\U{1F680}' <= c <= '\U{1F6FF}') || ('\U{1F700}' <= c <= '\U{1F77F}') ||
    ('\U{1F780}' <= c <= '\U{1F7FF}') || ('\U{1F800}' <= c <= '\U{1F8FF}') ||
    ('\U{1F900}' <= c <= '\U{1F9FF}') || ('\U{1FA00}' <= c <= '\U{1FA6F}') ||
    ('\U{1FA70}' <= c <= '\U{1FAFF}') || ('☀' <= c <= '⛿') ||
    ('✀' <= c <= '➿')
  }

  /** `c.match(emojiRegex)?.length || 0`: one match per emoji code point. */
  function EmojiCount(c: string): (n: nat)
    ensures n <= |c|
  {
    if c == [] then 0 else (if IsEmoji(c[0]) then 1 else 0) + EmojiCount(c[1..])
  }

  function TotalEmoji(cs: seq<string>): nat {
    if cs == [] then 0 else EmojiCount(cs[0]) + TotalEmoji(cs[1..])
  }

  function QuestionCount(cs: seq<string>): (n: nat)
    ensures n <= |cs|
  {
    if cs == [] then 0 else (if Includes(cs[0], "?") then 1 else 0) + QuestionCount(cs[1..])
  }

  /** `words.some(word => c.includes(word))`. */
  predicate IncludesAny(c: string, words: seq<string>) {
    exists i :: 0 <= i < |words| && Includes(c, words[i])
  }

  function CtaCount(cs: seq<string>): (n: nat)
    ensures n <= |cs|
  {
    if cs == [] then 0 else (if IncludesAny(Lower(cs[0]), CtaWords) then 1 else 0) + CtaCount(cs[1..])
  }

  function StyleOf(avgLength: nat): CaptionStyle {
    if avgLength > 500 then Long else if avgLength > 150 then Medium else Short
  }

  /** The result of `analyzeCaptions`. */
  function CaptionReport(reels: seq<Reel>): CaptionAnalysis {
    var cs := Captions(reels);
    if |cs| == 0 then NoCaptions
    else
      var n := |cs|;
      var avgLength := RoundDiv(TotalLength(cs), n);
      CaptionAnalysis(avgLength, RoundDiv(TotalWords(cs), n), WordCount.Top(AllKeywords(cs), 10),
                      StyleOf(avgLength), RoundDiv(100 * TotalEmoji(cs), n),
                      RoundDiv(100 * QuestionCount(cs), n), RoundDiv(100 * CtaCount(cs), n))
  }

  /** The loop that counts keywords into `wordFreq`, caption by caption. */
  method KeywordFrequencies(cs: seq<string>) returns (m: seq<Entry<string, nat>>)
    ensures m == WordCount.Tally(AllKeywords(cs))
  {
    m := [];
    var i := 0;
    while i < |cs|
      invariant 0 <= i <= |cs|
      invariant m == WordCount.Tally(AllKeywords(cs[..i]))
    {
      m := CountWords(m, AllKeywords(cs[..i]), Keywords(cs[i]));
      Seqs.TakeSnoc(cs, i);
      i := i + 1;
    }
    Seqs.TakeAll(cs);
  }

  /** `words.forEach(word => wordFreq.set(word, (wordFreq.get(word) || 0) + 1))`. */
  method CountWords(m0: seq<Entry<string, nat>>, ghost done: seq<string>, words: seq<string>)
    returns (m: seq<Entry<string, nat>>)
    requires m0 == WordCount.Tally(done)
    ensures m == WordCount.Tally(done + words)
  {
    m := m0;
    var j := 0;
    Seqs.AppendTakeNone(done, words);
    while j < |words|
      invariant 0 <= j <= |words|
      invariant m == WordCount.Tally(done + words[..j])
    {
      var word := words[j];
      WordCount.TallyExtend(done, words, j);
      m := WordCount.Bump(m, word);
      j := j + 1;
    }
    Seqs.TakeAll(words);
  }

  method AnalyzeCaptions(reels: seq<Reel>) returns (r: CaptionAnalysis)
    ensures r == CaptionReport(reels)
  {
    var cs := Captions(reels);
    if |cs| == 0 {
      return NoCaptions;
    }
    var n := |cs|;
    var avgLength := RoundDiv(TotalLength(cs), n);
    var m := KeywordFrequencies(cs);
    var sorted := SortSeq(m, WordCount.Count);
    var topKeywords := Keys(Take(sorted, 10));
    var style := Short;
    if avgLength > 500 {
      style := Long;
    } else if avgLength > 150 {
      style := Medium;
    }
    r := CaptionAnalysis(avgLength, RoundDiv(TotalWords(cs), n), topKeywords, style,
                         RoundDiv(100 * TotalEmoji(cs), n), RoundDiv(100 * QuestionCount(cs), n),
                         RoundDiv(100 * CtaCount(cs), n));
  }

  /** With no non-empty caption the result is the neutral default. */
  lemma CaptionReportDefault(reels: seq<Reel>)
    requires forall i :: 0 <= i < |reels| ==> OrEmpty(reels[i].caption) == ""
    ensures CaptionReport(reels) == CaptionAnalysis(0, 0, [], Short, 0, 0, 0)
  {
    CaptionsEmpty(reels);
  }

  /** Otherwise the style is long above 500 characters on average, medium
      above 150, and short up to 150. */
  lemma CaptionReportStyle(reels: seq<Reel>)
    requires Captions(reels) != []
    ensures var r := CaptionReport(reels);
            (r.captionStyle == Long <==> r.avgLength > 500) &&
            (r.captionStyle == Medium <==> 150 < r.avgLength <= 500) &&
            (r.captionStyle == Short <==> r.avgLength <= 150)
  {
  }

  /** The question and call-to-action rates are percentages of the captions;
      the emoji rate averages matches per caption and is not bounded by 100. */
  lemma CaptionReportRates(reels: seq<Reel>)
    requires Captions(reels) != []
    ensures var r := CaptionReport(reels);
            var cs := Captions(reels);
            r.questionUsage <= 100 && r.callToActionUsage <= 100 &&
            r.emojiUsage == RoundDiv(100 * TotalEmoji(cs), |cs|)
  {
    var cs := Captions(reels);
    RoundDivAtMost(100 * QuestionCount(cs), |cs|, 100);
    RoundDivAtMost(100 * CtaCount(cs), |cs|, 100);
  }

  /** Two emoji in a single caption give an emoji rate of 200. */
  lemma EmojiRateAbove100()
    ensures var reel := Reel(None, "", Some("\U{1F600}\U{1F600}"), None, None, None, None, None, None, None, None, None, None);
            CaptionReport([reel]).emojiUsage == 200
  {
    var reel := Reel(None, "", Some("\U{1F600}\U{1F600}"), None, None, None, None, None, None, None, None, None, None);
    assert Captions([reel]) == ["\U{1F600}\U{1F600}"];
    assert EmojiCount("\U{1F600}\U{1F600}") == 2;
  }

  predicate NoUpper(s: string) {
    forall k :: 0 <= k < |s| ==> !('A' <= s[k] <= 'Z')
  }

  /** Every keyword is a lower-case run of `[a-z0-9_]` longer than three
      characters that is not a common word. */
  lemma KeywordShape(c: string, i: int)
    requires 0 <= i < |Keywords(c)|
    ensures var w := Keywords(c)[i];
            IsKeyword(w) && NoUpper(w) && forall k :: 0 <= k < |w| ==> IsWordChar(w[k])
  {
    StrippedShape(c);
    FilteredShape(StripPunct(StripHashtags(Lower(c))), i);
  }

  /** After lower-casing and both strips only lower-case word characters and
      whitespace are left. */
  lemma StrippedShape(c: string)
    ensures var t := StripPunct(StripHashtags(Lower(c)));
            NoUpper(t) && forall k :: 0 <= k < |t| ==> IsWordChar(t[k]) || IsSpace(t[k])
  {
    StripHashtagsNoUpper(Lower(c));
  }

  lemma FilteredShape(t: string, i: int)
    requires NoUpper(t) && forall k :: 0 <= k < |t| ==> IsWordChar(t[k]) || IsSpace(t[k])
    requires 0 <= i < |FilterKeywords(SplitWs(t))|
    ensures var w := FilterKeywords(SplitWs(t))[i];
            IsKeyword(w) && NoUpper(w) && forall k :: 0 <= k < |w| ==> IsWordChar(w[k])
  {
    var pieces := SplitWs(t);
    var w := FilterKeywords(pieces)[i];
    var j :| 0 <= j < |pieces| && pieces[j] == w;
    PieceShape(t, j);
  }

  predicate KeywordLike(w: string) {
    IsKeyword(w) && NoUpper(w) && forall k :: 0 <= k < |w| ==> IsWordChar(w[k])
  }

  lemma {:induction false} AllKeywordsShape(cs: seq<string>)
    ensures forall i :: 0 <= i < |AllKeywords(cs)| ==> KeywordLike(AllKeywords(cs)[i])
  {
    if cs != [] {
      var n := |cs| - 1;
      AllKeywordsShape(cs[..n]);
      var a, b := AllKeywords(cs[..n]), Keywords(cs[n]);
      forall i | 0 <= i < |a + b| ensures KeywordLike((a + b)[i]) {
        if i >= |a| {
          KeywordShape(cs[n], i - |a|);
        }
      }
    }
  }

  /** The top keywords: at most ten keyword-shaped words of the captions, by
      non-increasing number of occurrences, and a keyword left out occurs no
      more often than any listed one, which then number ten. */
  lemma CaptionReportKeywords(reels: seq<Reel>, w: string)
    requires Captions(reels) != []
    ensures var kws := CaptionReport(reels).topKeywords;
            var ws := AllKeywords(Captions(reels));
            |kws| <= 10 &&
            (forall i :: 0 <= i < |kws| ==> kws[i] in ws && KeywordLike(kws[i])) &&
            (forall i, j :: 0 <= i < j < |kws| ==> multiset(ws)[kws[i]] >= multiset(ws)[kws[j]]) &&
            (w in ws && w !in kws ==> |kws| == 10 && forall i :: 0 <= i < 10 ==> multiset(ws)[kws[i]] >= multiset(ws)[w])
  {
    var ws := AllKeywords(Captions(reels));
    var kws := WordCount.Top(ws, 10);
    assert CaptionReport(reels).topKeywords == kws;
    WordCount.TopRanked(ws, 10);
    AllKeywordsShape(Captions(reels));
    forall i | 0 <= i < |kws| ensures KeywordLike(kws[i]) {
      var j :| 0 <= j < |ws| && ws[j] == kws[i];
    }
    if w in ws && w !in kws {
      WordCount.TopDominates(ws, 10, w);
    }
  }

  lemma StripHashtagsNoUpper(s: string)
    requires NoUpper(s)
    ensures NoUpper(StripPunct(StripHashtags(s)))
  {
    StripHashtagsChars(s);
  }

  lemma PieceShape(t: string, j: int)
    requires NoUpper(t) && forall k :: 0 <= k < |t| ==> IsWordChar(t[k]) || IsSpace(t[k])
    requires 0 <= j < |SplitWs(t)|
    ensures NoUpper(SplitWs(t)[j]) && forall k :: 0 <= k < |SplitWs(t)[j]| ==> IsWordChar(SplitWs(t)[j][k])
  {
    SplitWsNoSpace(t);
    SplitWsChars(t);
  }

  /** What is left after removing hashtags is drawn from the input. */
  lemma {:induction false} StripHashtagsChars(s: string)
    ensures forall c :: c in StripHashtags(s) ==> c in s
    decreases |s|
  {
    if s == [] {
    } else if s[0] == '#' && |s| > 1 && IsWordChar(s[1]) {
      var rest := SkipWordChars(s[1..]);
      StripHashtagsChars(rest);
      assert rest == s[|s| - |rest|..];
      Seqs.SuffixIn(s, rest);
      assert StripHashtags(s) == StripHashtags(rest);
    } else {
      StripHashtagsChars(s[1..]);
      Seqs.SuffixIn(s, s[1..]);
      assert StripHashtags(s) == [s[0]] + StripHashtags(s[1..]);
    }
  }


  /** The pieces of a split are drawn from the input. */
  lemma {:induction false} SplitWsChars(s: string)
    ensures forall j, k :: 0 <= j < |SplitWs(s)| && 0 <= k < |SplitWs(s)[j]| ==> SplitWs(s)[j][k] in s
    decreases |s|
  {
    var w := Word(s);
    var r := SplitWs(s);
    if |w| < |s| {
      var t := SkipSpaces(s[|w|..]);
      SplitWsChars(t);
      assert t == s[|s| - |t|..];
      Seqs.SuffixIn(s, t);
      assert r == [w] + SplitWs(t);
      forall j, k | 0 <= j < |r| && 0 <= k < |r[j]| ensures r[j][k] in s {
        if j == 0 {
          assert r[j][k] == s[k];
        } else {
          Seqs.ConsIndex(w, SplitWs(t), j);
        }
      }
    } else {
      assert r == [w];
      forall j, k | 0 <= j < 1 && 0 <= k < |w| ensures r[j][k] in s {
        assert w[k] == s[k];
      }
    }
  }
}
