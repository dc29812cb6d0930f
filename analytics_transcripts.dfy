/** `analyzeTranscripts`: average length, the most frequent word pairs,
    a word-list sentiment score and the speaking pace. */
module AnalyticsTranscripts {
  import opened Wrappers
  import opened JsText
  import opened JsMath
  import opened OrderedMap
  import opened StableSort
  import opened ReelTypes
  import WordCount
  import Seqs

  datatype Pace = Fast | MediumPace | Slow

  /** `sentimentScore` is kept as a whole number of hundredths. */
  datatype TranscriptAnalysis = TranscriptAnalysis(
    avgLength: nat, topTopics: seq<string>, sentimentScore: int, paceStyle: Pace, keyPhrases: seq<string>)

  const NoTranscripts := TranscriptAnalysis(0, [], 0, MediumPace, [])

  const PositiveWords: seq<string> := ["good", "great", "awesome", "amazing", "love", "best", "happy", "excellent", "perfect", "wonderful"]
  const NegativeWords: seq<string> := ["bad", "worst", "hate", "terrible", "awful", "poor", "sad", "angry", "frustrated", "disappointed"]

  function ChunkTexts(chunks: seq<TranscriptChunk>): (ts: seq<string>)
    ensures |ts| == |chunks| && forall i :: 0 <= i < |chunks| ==> ts[i] == chunks[i].text
  {
    seq(|chunks|, i requires 0 <= i < |chunks| => chunks[i].text)
  }

  /** The text of a reel's transcript: the string content, or the chunk texts
      joined by single spaces, or `''`. */
  function TranscriptText(r: Reel): string {
    match r.transcript
    case None => ""
    case Some(NoContent) => ""
    case Some(Plain(s)) => s
    case Some(Chunks(chunks)) => Join(ChunkTexts(chunks), " ")
  }

  function Texts(reels: seq<Reel>): (ts: seq<string>)
    ensures |ts| == |reels| && forall i :: 0 <= i < |reels| ==> ts[i] == TranscriptText(reels[i])
  {
    seq(|reels|, i requires 0 <= i < |reels| => TranscriptText(reels[i]))
  }

  /** `.filter(t => t.length > 0)`. */
  function NonEmpty(ts: seq<string>): (r: seq<string>)
    ensures forall i :: 0 <= i < |r| ==> r[i] != []
  {
    if ts == [] then []
    else (if |ts[0]| > 0 then [ts[0]] else []) + NonEmpty(ts[1..])
  }

  /** The non-empty transcript texts, in reel order. */
  function Transcripts(reels: seq<Reel>): seq<string> {
    NonEmpty(Texts(reels))
  }

  lemma {:induction false} NonEmptyNone(ts: seq<string>)
    ensures NonEmpty(ts) == [] <==> forall i :: 0 <= i < |ts| ==> ts[i] == []
  {
    if ts != [] {
      NonEmptyNone(ts[1..]);
      assert forall i :: 1 <= i < |ts| ==> ts[i] == ts[1..][i - 1];
    }
  }

  lemma TranscriptsEmpty(reels: seq<Reel>)
    ensures Transcripts(reels) == [] <==> forall i :: 0 <= i < |reels| ==> TranscriptText(reels[i]) == ""
  {
    NonEmptyNone(Texts(reels));
  }

  function TotalLength(ts: seq<string>): nat {
    if ts == [] then 0 else Utf16Len(ts[0]) + TotalLength(ts[1..])
  }

  function TotalWords(ts: seq<string>): nat {
    if ts == [] then 0 else |SplitWs(ts[0])| + TotalWords(ts[1..])
  }

  /** The pair of words at positions `i` and `i + 1`, separated by a space. */
  function Bigram(ws: seq<string>, i: int): string
    requires 0 <= i < |ws| - 1
  {
    ws[i] + " " + ws[i + 1]
  }

  /** The pairs starting before position `i` that are longer than five characters. */
  function BigramsBefore(ws: seq<string>, i: int): seq<string>
    requires 0 <= i < |ws|
  {
    if i == 0 then []
    else BigramsBefore(ws, i - 1) + (if Utf16Len(Bigram(ws, i - 1)) > 5 then [Bigram(ws, i - 1)] else [])
  }

  /** The counted pairs of one transcript. */
  function Bigrams(t: string): seq<string> {
    var ws := SplitWs(Lower(t));
    BigramsBefore(ws, |ws| - 1)
  }

  function AllBigrams(ts: seq<string>): seq<string> {
    if ts == [] then [] else AllBigrams(ts[..|ts| - 1]) + Bigrams(ts[|ts| - 1])
  }

  /** The matches of every word of `words` in the lower-cased `t`. */
  function Hits(t: string, words: seq<string>): nat {
    if words == [] then 0 else Hits(t, words[..|words| - 1]) + CountMatches(Lower(t), words[|words| - 1])
  }

  function AllHits(ts: seq<string>, words: seq<string>): nat {
    if ts == [] then 0 else AllHits(ts[..|ts| - 1], words) + Hits(ts[|ts| - 1], words)
  }

  /** `parseFloat(((p - n) / (p + n)).toFixed(2))` in hundredths, or 0 when no
      word of either list occurs. */
  function SentimentCents(p: nat, n: nat): int {
    if p + n > 0 then Cents(p - n, p + n) else 0
  }

  /** Words per transcript over a 45-second reel: above three words a second
      is fast, below two is slow. */
  function PaceOf(totalWords: nat, count: nat): Pace {
    if totalWords > 135 * count then Fast else if totalWords < 90 * count then Slow else MediumPace
  }

  /** The result of `analyzeTranscripts`. */
  function TranscriptReport(reels: seq<Reel>): TranscriptAnalysis {
    var ts := Transcripts(reels);
    if |ts| == 0 then NoTranscripts
    else
      var keyPhrases := WordCount.Top(AllBigrams(ts), 10);
      TranscriptAnalysis(
        RoundDiv(TotalLength(ts), |ts|), Take(keyPhrases, 5),
        SentimentCents(AllHits(ts, PositiveWords), AllHits(ts, NegativeWords)),
        PaceOf(TotalWords(ts), |ts|), Take(keyPhrases, 8))
  }

  /** The `for` loop over the words of one transcript that counts its pairs
      into `phraseFreq`. */
  method CountBigrams(m0: seq<Entry<string, nat>>, ghost done: seq<string>, transcript: string)
    returns (m: seq<Entry<string, nat>>)
    requires m0 == WordCount.Tally(done)
    ensures m == WordCount.Tally(done + Bigrams(transcript))
  {
    m := m0;
    var words := SplitWs(Lower(transcript));
    var i := 0;
    assert done + BigramsBefore(words, 0) == done;
    while i < |words| - 1
      invariant 0 <= i <= |words| - 1
      invariant m == WordCount.Tally(done + BigramsBefore(words, i))
    {
      var bigram := words[i] + " " + words[i + 1];
      assert bigram == Bigram(words, i);
      BigramStep(done, words, i);
      if Utf16Len(bigram) > 5 {
        m := WordCount.Bump(m, bigram);
      }
      i := i + 1;
    }
  }

  /** One more position of the pair loop: the pair is counted when it is longer
      than five characters, and skipped otherwise. */
  lemma BigramStep(done: seq<string>, ws: seq<string>, i: int)
    requires 0 <= i < |ws| - 1
    ensures WordCount.Tally(done + BigramsBefore(ws, i + 1)) ==
            if Utf16Len(Bigram(ws, i)) > 5 then WordCount.Bump(WordCount.Tally(done + BigramsBefore(ws, i)), Bigram(ws, i))
            else WordCount.Tally(done + BigramsBefore(ws, i))
  {
    var a, b := BigramsBefore(ws, i), Bigram(ws, i);
    if Utf16Len(b) > 5 {
      assert BigramsBefore(ws, i + 1) == a + [b];
      Seqs.AppendSnoc(done, a, b);
      WordCount.TallySnoc(done + a, b);
    } else {
      assert BigramsBefore(ws, i + 1) == a;
    }
  }

  /** `transcripts.forEach` over the pair counting. */
  method PhraseFrequencies(ts: seq<string>) returns (m: seq<Entry<string, nat>>)
    ensures m == WordCount.Tally(AllBigrams(ts))
  {
    m := [];
    var i := 0;
    while i < |ts|
      invariant 0 <= i <= |ts|
      invariant m == WordCount.Tally(AllBigrams(ts[..i]))
    {
      m := CountBigrams(m, AllBigrams(ts[..i]), ts[i]);
      Seqs.TakeSnoc(ts, i);
      i := i + 1;
    }
    Seqs.TakeAll(ts);
  }

  /** `words.forEach(w => count += (lower.match(new RegExp(w, 'g')) || []).length)`. */
  method CountHits(t: string, words: seq<string>) returns (count: nat)
    ensures count == Hits(t, words)
  {
    var lower := Lower(t);
    count := 0;
    var j := 0;
    while j < |words|
      invariant 0 <= j <= |words|
      invariant count == Hits(t, words[..j])
    {
      assert words[..j + 1][..j] == words[..j];
      count := count + CountMatches(lower, words[j]);
      j := j + 1;
    }
    assert words[..|words|] == words;
  }

  /** The sentiment loop: positive and negative matches over all transcripts. */
  method CountSentiment(ts: seq<string>) returns (positiveCount: nat, negativeCount: nat)
    ensures positiveCount == AllHits(ts, PositiveWords)
    ensures negativeCount == AllHits(ts, NegativeWords)
  {
    positiveCount, negativeCount := 0, 0;
    var i := 0;
    while i < |ts|
      invariant 0 <= i <= |ts|
      invariant positiveCount == AllHits(ts[..i], PositiveWords)
      invariant negativeCount == AllHits(ts[..i], NegativeWords)
    {
      var p := CountHits(ts[i], PositiveWords);
      var n := CountHits(ts[i], NegativeWords);
      Seqs.TakeSnoc(ts, i);
      positiveCount := positiveCount + p;
      negativeCount := negativeCount + n;
      i := i + 1;
    }
    Seqs.TakeAll(ts);
  }

  /** The key phrases: the ten most frequent pairs over all transcripts. */
  method KeyPhrases(ts: seq<string>) returns (kp: seq<string>)
    ensures kp == WordCount.Top(AllBigrams(ts), 10)
  {
    var m := PhraseFrequencies(ts);
    var sorted := SortSeq(m, WordCount.Count);
    kp := Keys(Take(sorted, 10));
  }

  method AnalyzeTranscripts(reels: seq<Reel>) returns (r: TranscriptAnalysis)
    ensures r == TranscriptReport(reels)
  {
    var ts := Transcripts(reels);
    if |ts| == 0 {
      return NoTranscripts;
    }
    var keyPhrases := KeyPhrases(ts);
    var positiveCount, negativeCount := CountSentiment(ts);
    var score := SentimentCents(positiveCount, negativeCount);
    var pace := PaceOf(TotalWords(ts), |ts|);
    r := TranscriptAnalysis(RoundDiv(TotalLength(ts), |ts|), Take(keyPhrases, 5), score, pace, Take(keyPhrases, 8));
  }

  /** With no non-empty transcript the result is the default. */
  lemma TranscriptReportDefault(reels: seq<Reel>)
    requires forall i :: 0 <= i < |reels| ==> TranscriptText(reels[i]) == ""
    ensures TranscriptReport(reels) == TranscriptAnalysis(0, [], 0, MediumPace, [])
  {
    TranscriptsEmpty(reels);
  }

  /** The topics are a prefix of the key phrases, at most five of them, and
      there are at most eight key phrases. */
  lemma TranscriptReportPhrases(reels: seq<Reel>)
    ensures var r := TranscriptReport(reels);
            r.topTopics <= r.keyPhrases && |r.topTopics| <= 5 && |r.keyPhrases| <= 8
  {
    var ts := Transcripts(reels);
    if |ts| > 0 {
      var kp := WordCount.Top(AllBigrams(ts), 10);
      assert Take(kp, 5) <= Take(kp, 8);
    }
  }

  /** `p` is a pair of neighbouring words of `ws`, longer than five characters. */
  ghost predicate IsPairOf(p: string, ws: seq<string>) {
    exists i :: 0 <= i < |ws| - 1 && p == Bigram(ws, i) && Utf16Len(p) > 5
  }

  /** `p` is a pair of neighbouring words of the lower-cased `t`, longer than
      five characters. */
  ghost predicate IsBigramOf(p: string, t: string) {
    IsPairOf(p, SplitWs(Lower(t)))
  }

  lemma {:induction false} BigramsBeforeShape(ws: seq<string>, i: int)
    requires 0 <= i < |ws|
    ensures forall k :: 0 <= k < |BigramsBefore(ws, i)| ==> IsPairOf(BigramsBefore(ws, i)[k], ws)
  {
    if i > 0 {
      BigramsBeforeShape(ws, i - 1);
      var a := BigramsBefore(ws, i - 1);
      if Utf16Len(Bigram(ws, i - 1)) > 5 {
        BigramIsPair(ws, i - 1);
        SnocAll(a, Bigram(ws, i - 1), ws);
      }
    }
  }

  lemma BigramIsPair(ws: seq<string>, i: int)
    requires 0 <= i < |ws| - 1 && Utf16Len(Bigram(ws, i)) > 5
    ensures IsPairOf(Bigram(ws, i), ws)
  {
  }

  lemma SnocAll(a: seq<string>, b: string, ws: seq<string>)
    requires forall k :: 0 <= k < |a| ==> IsPairOf(a[k], ws)
    requires IsPairOf(b, ws)
    ensures forall k :: 0 <= k < |a + [b]| ==> IsPairOf((a + [b])[k], ws)
  {
  }

  lemma {:induction false} AllBigramsShape(ts: seq<string>, k: int)
    requires 0 <= k < |AllBigrams(ts)|
    ensures exists j :: 0 <= j < |ts| && IsBigramOf(AllBigrams(ts)[k], ts[j])
  {
    var n := |ts| - 1;
    var a, b := AllBigrams(ts[..n]), Bigrams(ts[n]);
    assert AllBigrams(ts) == a + b;
    Seqs.AppendIndex(a, b, k);
    if k < |a| {
      AllBigramsShape(ts[..n], k);
      var j :| 0 <= j < n && IsBigramOf(a[k], ts[..n][j]);
      assert ts[..n][j] == ts[j];
    } else {
      BigramsShape(ts[n], k - |a|);
      assert IsBigramOf(AllBigrams(ts)[k], ts[n]);
    }
  }

  lemma BigramsShape(t: string, k: int)
    requires 0 <= k < |Bigrams(t)|
    ensures IsBigramOf(Bigrams(t)[k], t)
  {
    var ws := SplitWs(Lower(t));
    BigramsBeforeShape(ws, |ws| - 1);
  }

  /** Every key phrase is a pair of neighbouring words of some transcript,
      longer than five characters. */
  lemma TranscriptReportPhraseShape(reels: seq<Reel>, k: int)
    requires 0 <= k < |TranscriptReport(reels).keyPhrases|
    ensures exists j :: 0 <= j < |Transcripts(reels)| &&
              IsBigramOf(TranscriptReport(reels).keyPhrases[k], Transcripts(reels)[j])
  {
    var ts := Transcripts(reels);
    var all := AllBigrams(ts);
    WordCount.TopRanked(all, 10);
    var p := TranscriptReport(reels).keyPhrases[k];
    assert p == WordCount.Top(all, 10)[k];
    var q :| 0 <= q < |all| && all[q] == p;
    AllBigramsShape(ts, q);
  }

  /** The sentiment score lies in [-1, 1] (in hundredths), is zero when no
      word of either list occurs, is positive only with more positive than
      negative matches, and never negative then. After rounding to hundredths
      it is positive exactly when `199 p >= 201 n`. */
  lemma SentimentBounds(p: nat, n: nat)
    ensures -100 <= SentimentCents(p, n) <= 100
    ensures p + n == 0 ==> SentimentCents(p, n) == 0
    ensures SentimentCents(p, n) > 0 ==> p > n
    ensures p > n ==> SentimentCents(p, n) >= 0
    ensures SentimentCents(p, n) < 0 ==> p < n
    ensures SentimentCents(p, n) > 0 <==> p + n > 0 && 199 * p >= 201 * n
    ensures SentimentCents(p, n) < 0 <==> p + n > 0 && 199 * n >= 201 * p
  {
    if p + n > 0 {
      if p >= n {
        SentimentSide(p, n);
      } else {
        SentimentSide(n, p);
      }
    }
  }

  /** The rounded magnitude of `(a - b) / (a + b)` in hundredths, for `a >= b`. */
  lemma SentimentSide(a: nat, b: nat)
    requires a >= b && a + b > 0
    ensures RoundDiv(100 * (a - b), a + b) <= 100
    ensures RoundDiv(100 * (a - b), a + b) > 0 <==> 199 * a >= 201 * b
    ensures Cents(a - b, a + b) == RoundDiv(100 * (a - b), a + b)
    ensures Cents(b - a, a + b) == 0 - RoundDiv(100 * (a - b), a + b)
  {
    RoundDivAtMost(100 * (a - b), a + b, 100);
    RoundDivPositive(100 * (a - b), a + b);
    if a == b {
      assert RoundDiv(0, a + b) == 0;
    }
  }

  /** No match of one word list in any transcript exactly when the list's
      words occur in none of the lower-cased transcripts. */
  lemma {:induction false} HitsZero(t: string, words: seq<string>)
    ensures Hits(t, words) == 0 <==> forall j :: 0 <= j < |words| ==> !Includes(Lower(t), words[j])
  {
    if words != [] {
      var n := |words| - 1;
      HitsZero(t, words[..n]);
      CountMatchesPositive(Lower(t), words[n]);
      assert forall j :: 0 <= j < n ==> words[..n][j] == words[j];
    }
  }

  lemma {:induction false} AllHitsZero(ts: seq<string>, words: seq<string>)
    ensures AllHits(ts, words) == 0 <==>
            forall i, j :: 0 <= i < |ts| && 0 <= j < |words| ==> !Includes(Lower(ts[i]), words[j])
  {
    if ts != [] {
      var n := |ts| - 1;
      AllHitsZero(ts[..n], words);
      HitsZero(ts[n], words);
      assert forall i :: 0 <= i < n ==> ts[..n][i] == ts[i];
    }
  }

  /** The score is 0 when no word of either list occurs in any transcript. */
  lemma TranscriptReportNeutral(reels: seq<Reel>)
    requires forall i, j :: 0 <= i < |Transcripts(reels)| && 0 <= j < |PositiveWords| ==>
               !Includes(Lower(Transcripts(reels)[i]), PositiveWords[j])
    requires forall i, j :: 0 <= i < |Transcripts(reels)| && 0 <= j < |NegativeWords| ==>
               !Includes(Lower(Transcripts(reels)[i]), NegativeWords[j])
    ensures TranscriptReport(reels).sentimentScore == 0
  {
    var ts := Transcripts(reels);
    AllHitsZero(ts, PositiveWords);
    AllHitsZero(ts, NegativeWords);
  }

  /** The pace is fast above 135 words per transcript, slow below 90, and
      medium in between. */
  lemma TranscriptReportPace(reels: seq<Reel>)
    requires Transcripts(reels) != []
    ensures var ts := Transcripts(reels);
            var r := TranscriptReport(reels);
            (r.paceStyle == Fast <==> TotalWords(ts) > 135 * |ts|) &&
            (r.paceStyle == Slow <==> TotalWords(ts) < 90 * |ts|) &&
            (r.paceStyle == MediumPace <==> 90 * |ts| <= TotalWords(ts) <= 135 * |ts|)
  {
  }
}
