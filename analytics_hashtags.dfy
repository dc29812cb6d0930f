/** `analyzeHashtags`: per-hashtag totals gathered into an insertion-ordered
    map, turned into rounded averages, ranked by average engagement with a
    stable sort and cut to the first twenty. */
module AnalyticsHashtags {
  import opened Wrappers
  import opened ReelTypes
  import opened OrderedMap
  import opened StableSort
  import opened JsMath
  import Seqs

  /** The value the map holds for one hashtag. */
  datatype Totals = Totals(count: nat, likes: nat, views: nat, comments: nat, engagement: nat)

  datatype HashtagAnalysis = HashtagAnalysis(
    hashtag: string, frequency: nat, avgLikes: nat, avgViews: nat, avgComments: nat, engagementRate: nat)

  /** One occurrence of a hashtag on a reel, with that reel's counts. */
  datatype TagUse = TagUse(tag: string, likes: nat, views: nat, comments: nat)

  /** The occurrences on one reel (`reel.hashtags || []`), in list order. */
  function Uses(r: Reel): seq<TagUse> {
    var tags := r.hashtags.GetOr([]);
    seq(|tags|, i requires 0 <= i < |tags| => TagUse(tags[i], Likes(r), Views(r), Comments(r)))
  }

  /** Every occurrence across `reels`, reel by reel. */
  function AllUses(reels: seq<Reel>): seq<TagUse> {
    if reels == [] then [] else AllUses(reels[..|reels| - 1]) + Uses(reels[|reels| - 1])
  }

  function Tags(us: seq<TagUse>): (ts: seq<string>)
    ensures |ts| == |us| && forall i :: 0 <= i < |us| ==> ts[i] == us[i].tag
  {
    seq(|us|, i requires 0 <= i < |us| => us[i].tag)
  }

  const NoTotals := Totals(0, 0, 0, 0, 0)

  function Add(t: Totals, u: TagUse): Totals {
    Totals(t.count + 1, t.likes + u.likes, t.views + u.views, t.comments + u.comments,
           t.engagement + (u.likes + u.views + u.comments))
  }

  /** The map after the occurrences `us` have been folded in, in order. */
  function Tally(us: seq<TagUse>): seq<Entry<string, Totals>> {
    if us == [] then [] else Fold(Tally(us[..|us| - 1]), us[|us| - 1])
  }

  /** One occurrence folded into the map. */
  function Fold(m: seq<Entry<string, Totals>>, u: TagUse): seq<Entry<string, Totals>> {
    Set(m, u.tag, Add(Get(m, u.tag).GetOr(NoTotals), u))
  }

  lemma TallySnoc(us: seq<TagUse>, u: TagUse)
    ensures Tally(us + [u]) == Fold(Tally(us), u)
  {
    assert (us + [u])[..|us|] == us;
  }

  /** The totals over the occurrences of `t` alone. */
  function TotalsOf(us: seq<TagUse>, t: string): Totals {
    if us == [] then NoTotals
    else
      var p := TotalsOf(us[..|us| - 1], t);
      if us[|us| - 1].tag == t then Add(p, us[|us| - 1]) else p
  }

  /** The map lists each hashtag once, in order of first occurrence. */
  lemma {:induction false} TallyKeys(us: seq<TagUse>)
    ensures Keys(Tally(us)) == Distinct(Tags(us))
  {
    if us != [] {
      var n := |us| - 1;
      TallyKeys(us[..n]);
      assert Tags(us)[..n] == Tags(us[..n]);
    }
  }

  /** The map holds, for each hashtag, exactly the totals over its occurrences,
      and nothing for a hashtag that never occurs. */
  lemma {:induction false} TallyGet(us: seq<TagUse>, t: string)
    ensures Get(Tally(us), t) == if TotalsOf(us, t).count == 0 then None else Some(TotalsOf(us, t))
  {
    if us != [] {
      var n := |us| - 1;
      TallyGet(us[..n], t);
      TotalsOfNone(us[..n], t);
      var m := Tally(us[..n]);
      var u := us[n];
      var v := Add(Get(m, u.tag).GetOr(NoTotals), u);
      assert Tally(us) == Fold(m, u) == Set(m, u.tag, v);
      GetSet(m, u.tag, v, t);
      if u.tag == t {
        assert TotalsOf(us, t) == Add(TotalsOf(us[..n], t), u);
      } else {
        assert TotalsOf(us, t) == TotalsOf(us[..n], t);
      }
    }
  }

  lemma {:induction false} TotalsOfNone(us: seq<TagUse>, t: string)
    ensures TotalsOf(us, t).count == 0 ==> TotalsOf(us, t) == NoTotals
  {
    if us != [] {
      TotalsOfNone(us[..|us| - 1], t);
    }
  }

  /** `frequency` counts the occurrences of the exact tag, and the engagement
      total is the sum of the three others. */
  lemma {:induction false} TotalsOfCount(us: seq<TagUse>, t: string)
    ensures TotalsOf(us, t).count == multiset(Tags(us))[t]
    ensures TotalsOf(us, t).engagement == TotalsOf(us, t).likes + TotalsOf(us, t).views + TotalsOf(us, t).comments
  {
    if us != [] {
      var n := |us| - 1;
      TotalsOfCount(us[..n], t);
      assert Tags(us) == Tags(us[..n]) + [us[n].tag];
    }
  }

  lemma TallyPositive(us: seq<TagUse>)
    ensures Positive(Tally(us))
  {
    forall i | 0 <= i < |Tally(us)| ensures Tally(us)[i].value.count > 0 {
      var e := Tally(us)[i];
      assert e.key in Keys(Tally(us));
      TallyGet(us, e.key);
      UniqueGet(Tally(us), i, us);
    }
  }

  lemma UniqueGet(m: seq<Entry<string, Totals>>, i: int, us: seq<TagUse>)
    requires m == Tally(us) && 0 <= i < |m|
    ensures Get(m, m[i].key) == Some(m[i].value)
  {
    TallyKeys(us);
    GetIndex(m, i);
  }

  lemma {:induction false} GetIndex<K, V>(m: seq<Entry<K, V>>, i: int)
    requires Unique(Keys(m)) && 0 <= i < |m|
    ensures Get(m, m[i].key) == Some(m[i].value)
  {
    if i > 0 {
      assert Keys(m[1..]) == Keys(m)[1..];
      GetIndex(m[1..], i - 1);
    }
  }

  predicate Positive(m: seq<Entry<string, Totals>>) {
    forall i :: 0 <= i < |m| ==> m[i].value.count > 0
  }

  /** The analysis pushed for one map entry. */
  function Summary(e: Entry<string, Totals>): HashtagAnalysis
    requires e.value.count > 0
  {
    var t := e.value;
    HashtagAnalysis(e.key, t.count, RoundDiv(t.likes, t.count), RoundDiv(t.views, t.count),
                    RoundDiv(t.comments, t.count), RoundDiv(t.engagement, t.count))
  }

  function Summaries(m: seq<Entry<string, Totals>>): (r: seq<HashtagAnalysis>)
    requires Positive(m)
    ensures |r| == |m| && forall i :: 0 <= i < |m| ==> r[i] == Summary(m[i])
  {
    seq(|m|, i requires 0 <= i < |m| => Summary(m[i]))
  }

  function Rate(h: HashtagAnalysis): int { h.engagementRate }

  /** The result of `analyzeHashtags`. */
  function HashtagReport(reels: seq<Reel>): seq<HashtagAnalysis> {
    var m := Tally(AllUses(reels));
    TallyPositive(AllUses(reels));
    Take(SortDesc(Summaries(m), Rate), 20)
  }

  /** The nested `forEach` that fills the map. */
  method FillTotals(reels: seq<Reel>) returns (m: seq<Entry<string, Totals>>)
    ensures m == Tally(AllUses(reels))
  {
    m := [];
    var i := 0;
    while i < |reels|
      invariant 0 <= i <= |reels|
      invariant m == Tally(AllUses(reels[..i]))
    {
      AllUsesExtend(reels, i);
      m := FillReel(m, AllUses(reels[..i]), reels[i]);
      i := i + 1;
    }
    assert reels[..|reels|] == reels;
  }

  lemma AllUsesExtend(reels: seq<Reel>, i: int)
    requires 0 <= i < |reels|
    ensures AllUses(reels[..i + 1]) == AllUses(reels[..i]) + Uses(reels[i])
  {
    assert reels[..i + 1][..i] == reels[..i];
  }

  /** The inner `(reel.hashtags || []).forEach` over one reel. */
  method FillReel(m0: seq<Entry<string, Totals>>, ghost done: seq<TagUse>, reel: Reel)
    returns (m: seq<Entry<string, Totals>>)
    requires m0 == Tally(done)
    ensures m == Tally(done + Uses(reel))
  {
    m := m0;
    var tags := reel.hashtags.GetOr([]);
    var likes, views, comments := Likes(reel), Views(reel), Comments(reel);
    var engagement := likes + views + comments;
    var j := 0;
    assert done + Uses(reel)[..0] == done;
    while j < |tags|
      invariant 0 <= j <= |tags|
      invariant m == Tally(done + Uses(reel)[..j])
    {
      var existing := Get(m, tags[j]).GetOr(NoTotals);
      var next := Totals(existing.count + 1, existing.likes + likes, existing.views + views,
                         existing.comments + comments, existing.engagement + engagement);
      ghost var u := Uses(reel)[j];
      assert u == TagUse(tags[j], likes, views, comments);
      Seqs.AppendTakeSnoc(done, Uses(reel), j);
      FoldStep(done + Uses(reel)[..j], u, m, next);
      m := Set(m, tags[j], next);
      j := j + 1;
    }
    assert Uses(reel)[..|tags|] == Uses(reel);
  }

  /** One occurrence folded into the map, with the new totals computed apart. */
  lemma FoldStep(p: seq<TagUse>, u: TagUse, m: seq<Entry<string, Totals>>, next: Totals)
    requires m == Tally(p) && next == Add(Get(m, u.tag).GetOr(NoTotals), u)
    ensures Tally(p + [u]) == Set(m, u.tag, next)
  {
    TallySnoc(p, u);
  }

  /** The `hashtagMap.forEach` that pushes one analysis per entry. */
  method Summarize(m: seq<Entry<string, Totals>>) returns (analysis: seq<HashtagAnalysis>)
    requires Positive(m)
    ensures analysis == Summaries(m)
  {
    analysis := [];
    var i := 0;
    while i < |m|
      invariant 0 <= i <= |m|
      invariant analysis == Summaries(m)[..i]
    {
      var t := m[i].value;
      analysis := analysis + [HashtagAnalysis(m[i].key, t.count, RoundDiv(t.likes, t.count), RoundDiv(t.views, t.count),
                                              RoundDiv(t.comments, t.count), RoundDiv(t.engagement, t.count))];
      i := i + 1;
    }
  }

  method AnalyzeHashtags(reels: seq<Reel>) returns (r: seq<HashtagAnalysis>)
    ensures r == HashtagReport(reels)
  {
    var m := FillTotals(reels);
    TallyPositive(AllUses(reels));
    var analysis := Summarize(m);
    var sorted := SortSeq(analysis, Rate);
    r := Take(sorted, 20);
  }

  /** At most twenty entries, ranked by non-increasing engagement rate. */
  lemma HashtagReportRanked(reels: seq<Reel>)
    ensures |HashtagReport(reels)| <= 20
    ensures SortedDesc(HashtagReport(reels), Rate)
  {
    TallyPositive(AllUses(reels));
    var s := Summaries(Tally(AllUses(reels)));
    SortDescSorted(s, Rate);
  }

  /** Each entry's frequency is the number of occurrences of its exact tag
      across all reels, and each average divides the totals of those
      occurrences only. */
  lemma HashtagReportEntries(reels: seq<Reel>, i: int)
    requires 0 <= i < |HashtagReport(reels)|
    ensures var h := HashtagReport(reels)[i];
            var us := AllUses(reels);
            var t := TotalsOf(us, h.hashtag);
            t.count > 0 && h.frequency == t.count && t.count == multiset(Tags(us))[h.hashtag] &&
            h.avgLikes == RoundDiv(t.likes, t.count) && h.avgViews == RoundDiv(t.views, t.count) &&
            h.avgComments == RoundDiv(t.comments, t.count) &&
            t.engagement == t.likes + t.views + t.comments &&
            h.engagementRate == RoundDiv(t.engagement, t.count)
  {
    var us := AllUses(reels);
    var m := Tally(us);
    TallyPositive(us);
    var s := Summaries(m);
    TakeSortMember(s, 20, Rate, i);
    var h := HashtagReport(reels)[i];
    var p :| 0 <= p < |s| && s[p] == h;
    SummaryOfTally(us, p);
    var e := m[p];
    assert h == Summary(e);
    assert e.key == h.hashtag && e.value == TotalsOf(us, h.hashtag);
  }

  /** The summary of the map entry at `p` is built from the totals over the
      occurrences of its tag. */
  lemma SummaryOfTally(us: seq<TagUse>, p: int)
    requires Positive(Tally(us)) && 0 <= p < |Tally(us)|
    ensures var e := Tally(us)[p];
            e.value == TotalsOf(us, e.key) && e.key in Tags(us) &&
            Summary(e).hashtag == e.key &&
            e.value.count == multiset(Tags(us))[e.key] &&
            e.value.engagement == e.value.likes + e.value.views + e.value.comments
  {
    var m := Tally(us);
    UniqueGet(m, p, us);
    TallyGet(us, m[p].key);
    TotalsOfCount(us, m[p].key);
    TallyKeys(us);
    assert m[p].key in Keys(m);
  }

  /** A hashtag that occurs but is not reported was crowded out: the report
      is full and every reported rate is at least its rate. */
  lemma HashtagReportDominates(reels: seq<Reel>, t: string)
    requires t in Tags(AllUses(reels))
    requires forall i :: 0 <= i < |HashtagReport(reels)| ==> HashtagReport(reels)[i].hashtag != t
    ensures |HashtagReport(reels)| == 20
    ensures var tot := TotalsOf(AllUses(reels), t);
            tot.count > 0 &&
            forall i :: 0 <= i < 20 ==> HashtagReport(reels)[i].engagementRate >= RoundDiv(tot.engagement, tot.count)
  {
    var us := AllUses(reels);
    var m := Tally(us);
    TallyPositive(us);
    TallyKeys(us);
    var s := Summaries(m);
    assert t in Keys(m);
    var p :| 0 <= p < |m| && Keys(m)[p] == t;
    SummaryOfTally(us, p);
    assert s[p] in s;
    var r := Take(SortDesc(s, Rate), 20);
    assert r == HashtagReport(reels);
    assert s[p].hashtag == t;
    forall i | 0 <= i < |r| ensures r[i] != s[p] {
      assert r[i].hashtag != t;
    }
    TakeSortDominates(s, 20, Rate, s[p]);
  }

  /** Ties keep first-encounter order: the summaries follow the order in which
      the hashtags first occur, and for every rate the report keeps a prefix
      of the summaries with that rate, in their order. */
  lemma HashtagReportTies(reels: seq<Reel>, k: int)
    ensures Positive(Tally(AllUses(reels)))
    ensures Keys(Tally(AllUses(reels))) == Distinct(Tags(AllUses(reels)))
    ensures KeyFilter(HashtagReport(reels), Rate, k) <= KeyFilter(Summaries(Tally(AllUses(reels))), Rate, k)
  {
    var us := AllUses(reels);
    TallyPositive(us);
    TallyKeys(us);
    var s := Summaries(Tally(us));
    FilterTake(SortDesc(s, Rate), 20, Rate, k);
    SortDescFilter(s, Rate, k);
  }
}
