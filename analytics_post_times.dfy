/** `analyzePostTimes`: engagement bucketed by hour of the day and by day of
    the week, the rounded average of each bucket, and the bucket with the
    highest average. */
module AnalyticsPostTimes {
  import opened JsMath
  import opened OrderedMap
  import opened StableSort
  import opened ReelTypes
  import Seqs

  /** `{ total, count }` of one bucket. */
  datatype Bucket = Bucket(total: nat, count: nat)

  datatype PostTimeAnalysis = PostTimeAnalysis(
    bestHour: int, bestDayOfWeek: int, avgEngagementByHour: map<int, nat>, avgEngagementByDay: map<int, nat>)

  const NoPostTimes := PostTimeAnalysis(12, 3, map[], map[])

  /** A reel that has a posting time: the decoded hour and day, and its
      likes + views + comments. */
  datatype Sample = Sample(hour: Hour, day: Day, engagement: nat)

  function HourOf(s: Sample): int { s.hour }
  function DayOf(s: Sample): int { s.day }

  /** `reels.filter(r => r.posted_time || r.timestamp)`, each reduced to what
      the buckets need. */
  function Samples(reels: seq<Reel>): seq<Sample> {
    if reels == [] then []
    else
      var r := reels[|reels| - 1];
      Samples(reels[..|reels| - 1]) +
        match PostTime(r) {
          case None => []
          case Some(t) => [Sample(t.hour, t.day, Engagement(r))]
        }
  }

  /** The buckets after the samples `ss` have been added, in order: a missing
      bucket is first created empty, then the engagement is added and the
      count bumped. */
  function Fill(ss: seq<Sample>, key: Sample -> int): map<int, Bucket> {
    if ss == [] then map[]
    else
      var m := Fill(ss[..|ss| - 1], key);
      var s := ss[|ss| - 1];
      var b := if key(s) in m then m[key(s)] else Bucket(0, 0);
      m[key(s) := Bucket(b.total + s.engagement, b.count + 1)]
  }

  /** The number of samples that fall into bucket `k`. */
  function CountAt(ss: seq<Sample>, key: Sample -> int, k: int): nat {
    if ss == [] then 0
    else CountAt(ss[..|ss| - 1], key, k) + if key(ss[|ss| - 1]) == k then 1 else 0
  }

  /** The engagement of the samples that fall into bucket `k`. */
  function SumAt(ss: seq<Sample>, key: Sample -> int, k: int): nat {
    if ss == [] then 0
    else SumAt(ss[..|ss| - 1], key, k) + if key(ss[|ss| - 1]) == k then ss[|ss| - 1].engagement else 0
  }

  /** `Math.round(data.total / data.count)` for every bucket. */
  function Averages(m: map<int, Bucket>): map<int, nat>
    requires forall k :: k in m ==> m[k].count > 0
  {
    map k | k in m :: RoundDiv(m[k].total, m[k].count)
  }

  /** `Object.entries(avg)` for integer keys below `n`: ascending by key. */
  function AscEntries(avg: map<int, nat>, n: nat): seq<Entry<int, nat>> {
    if n == 0 then []
    else AscEntries(avg, n - 1) + if n - 1 in avg then [Entry(n - 1, avg[n - 1])] else []
  }

  function Value(e: Entry<int, nat>): int { e.value }

  /** `parseInt(Object.entries(avg).sort((a, b) => b[1] - a[1])[0]?.[0] || d)`. */
  function BestKey(avg: map<int, nat>, n: nat, d: int): int {
    FirstKey(AscEntries(avg, n), d)
  }

  /** The key of the first entry after a stable sort by descending value, or `d`. */
  function FirstKey(es: seq<Entry<int, nat>>, d: int): int {
    if es == [] then d else SortDesc(es, Value)[0].key
  }

  /** The first key after the sort belongs to the first entry with the highest value. */
  lemma FirstKeyMax(es: seq<Entry<int, nat>>, d: int)
    requires es != []
    ensures exists j :: 0 <= j < |es| && FirstKey(es, d) == es[j].key &&
                        (forall i :: 0 <= i < |es| ==> Value(es[i]) <= Value(es[j])) &&
                        (forall i :: 0 <= i < j ==> Value(es[i]) < Value(es[j]))
  {
    SortDescFirst(es, Value);
    var j :| FirstMax(es, Value, j) && SortDesc(es, Value)[0] == es[j];
  }

  /** The result of `analyzePostTimes`. */
  function PostTimeReport(reels: seq<Reel>): PostTimeAnalysis {
    var ss := Samples(reels);
    if ss == [] then NoPostTimes
    else
      FillRange(ss, HourOf, 24);
      FillRange(ss, DayOf, 7);
      var byHour := Averages(Fill(ss, HourOf));
      var byDay := Averages(Fill(ss, DayOf));
      PostTimeAnalysis(BestKey(byHour, 24, 12), BestKey(byDay, 7, 3), byHour, byDay)
  }

  /** Every bucket key is one of the samples' keys, and every bucket holds at
      least one sample. */
  lemma {:induction false} FillRange(ss: seq<Sample>, key: Sample -> int, n: nat)
    requires forall i :: 0 <= i < |ss| ==> 0 <= key(ss[i]) < n
    ensures forall k :: k in Fill(ss, key) ==> 0 <= k < n && Fill(ss, key)[k].count > 0
  {
    if ss != [] {
      var p, x := ss[..|ss| - 1], ss[|ss| - 1];
      assert forall i :: 0 <= i < |p| ==> p[i] == ss[i];
      FillRange(p, key, n);
      var m := Fill(p, key);
      var b := if key(x) in m then m[key(x)] else Bucket(0, 0);
      assert Fill(ss, key) == m[key(x) := Bucket(b.total + x.engagement, b.count + 1)];
      assert 0 <= key(x) < n;
    }
  }

  /** A bucket exists exactly for the keys that some sample has, and it holds
      the number of those samples and the sum of their engagement. */
  lemma {:induction false} FillAt(ss: seq<Sample>, key: Sample -> int, k: int)
    ensures k in Fill(ss, key) <==> CountAt(ss, key, k) > 0
    ensures k in Fill(ss, key) ==> Fill(ss, key)[k] == Bucket(SumAt(ss, key, k), CountAt(ss, key, k))
    ensures CountAt(ss, key, k) == 0 ==> SumAt(ss, key, k) == 0
  {
    if ss != [] {
      var p, x := ss[..|ss| - 1], ss[|ss| - 1];
      FillAt(p, key, k);
      var m := Fill(p, key);
      var b := if key(x) in m then m[key(x)] else Bucket(0, 0);
      assert Fill(ss, key) == m[key(x) := Bucket(b.total + x.engagement, b.count + 1)];
      assert CountAt(ss, key, k) == CountAt(p, key, k) + if key(x) == k then 1 else 0;
      assert SumAt(ss, key, k) == SumAt(p, key, k) + if key(x) == k then x.engagement else 0;
    }
  }

  /** Every entry is a bucket key below `n` with its value. */
  predicate EntriesOf(es: seq<Entry<int, nat>>, avg: map<int, nat>, n: nat) {
    forall i :: 0 <= i < |es| ==> 0 <= es[i].key < n && es[i].key in avg && es[i].value == avg[es[i].key]
  }

  predicate KeysAscending(es: seq<Entry<int, nat>>) {
    forall i, j :: 0 <= i < j < |es| ==> es[i].key < es[j].key
  }

  /** The buckets' keys are read off in ascending order, each with its value. */
  lemma {:induction false} AscEntriesSpec(avg: map<int, nat>, n: nat)
    ensures EntriesOf(AscEntries(avg, n), avg, n)
    ensures KeysAscending(AscEntries(avg, n))
  {
    if n > 0 {
      AscEntriesSpec(avg, n - 1);
      var a := AscEntries(avg, n - 1);
      var e := if n - 1 in avg then [Entry(n - 1, avg[n - 1])] else [];
      var es := AscEntries(avg, n);
      assert es == a + e;
      forall i | 0 <= i < |es|
        ensures es[i] == if i < |a| then a[i] else e[0]
      {
        Seqs.AppendIndex(a, e, i);
      }
    }
  }

  lemma {:induction false} AscEntriesComplete(avg: map<int, nat>, n: nat, k: int)
    requires k in avg && 0 <= k < n
    ensures exists i :: 0 <= i < |AscEntries(avg, n)| && AscEntries(avg, n)[i].key == k
  {
    var a := AscEntries(avg, n - 1);
    if k == n - 1 {
      assert AscEntries(avg, n)[|a|].key == k;
    } else {
      AscEntriesComplete(avg, n - 1, k);
      var i :| 0 <= i < |a| && a[i].key == k;
      assert AscEntries(avg, n)[i] == a[i];
    }
  }

  /** With at least one bucket, the chosen key is a bucket with the highest
      average, and every smaller key has a strictly lower average: ties go to
      the numerically smallest key. */
  lemma BestKeyIsBest(avg: map<int, nat>, n: nat, d: int, k0: int)
    requires forall k :: k in avg ==> 0 <= k < n
    requires k0 in avg
    ensures var b := BestKey(avg, n, d);
            b in avg && (forall k :: k in avg ==> avg[k] <= avg[b]) &&
            (forall k :: k in avg && k < b ==> avg[k] < avg[b])
  {
    var es := AscEntries(avg, n);
    AscEntriesSpec(avg, n);
    AscEntriesComplete(avg, n, k0);
    FirstKeyMax(es, d);
    var j :| 0 <= j < |es| && FirstKey(es, d) == es[j].key &&
             (forall i :: 0 <= i < |es| ==> Value(es[i]) <= Value(es[j])) &&
             (forall i :: 0 <= i < j ==> Value(es[i]) < Value(es[j]));
    BestFromIndex(es, avg, n, j);
  }

  lemma BestFromIndex(es: seq<Entry<int, nat>>, avg: map<int, nat>, n: nat, j: int)
    requires es == AscEntries(avg, n) && EntriesOf(es, avg, n) && KeysAscending(es)
    requires forall k :: k in avg ==> 0 <= k < n
    requires 0 <= j < |es|
    requires forall i :: 0 <= i < |es| ==> Value(es[i]) <= Value(es[j])
    requires forall i :: 0 <= i < j ==> Value(es[i]) < Value(es[j])
    ensures es[j].key in avg
    ensures forall k :: k in avg ==> avg[k] <= avg[es[j].key]
    ensures forall k :: k in avg && k < es[j].key ==> avg[k] < avg[es[j].key]
  {
    forall k | k in avg
      ensures avg[k] <= avg[es[j].key]
      ensures k < es[j].key ==> avg[k] < avg[es[j].key]
    {
      BestAt(es, avg, n, j, k);
    }
  }

  lemma BestAt(es: seq<Entry<int, nat>>, avg: map<int, nat>, n: nat, j: int, k: int)
    requires es == AscEntries(avg, n) && EntriesOf(es, avg, n) && KeysAscending(es)
    requires 0 <= j < |es| && k in avg && 0 <= k < n
    requires forall i :: 0 <= i < |es| ==> Value(es[i]) <= Value(es[j])
    requires forall i :: 0 <= i < j ==> Value(es[i]) < Value(es[j])
    ensures avg[k] <= avg[es[j].key]
    ensures k < es[j].key ==> avg[k] < avg[es[j].key]
  {
    AscEntriesComplete(avg, n, k);
    var i :| 0 <= i < |es| && es[i].key == k;
    assert Value(es[i]) <= Value(es[j]);
    if k < es[j].key {
      assert i < j;
    }
  }

  /** The bucket loop over the reels that have a posting time. */
  method FillBuckets(ss: seq<Sample>) returns (byHour: map<int, Bucket>, byDay: map<int, Bucket>)
    ensures byHour == Fill(ss, HourOf) && byDay == Fill(ss, DayOf)
  {
    byHour, byDay := map[], map[];
    var i := 0;
    while i < |ss|
      invariant 0 <= i <= |ss|
      invariant byHour == Fill(ss[..i], HourOf) && byDay == Fill(ss[..i], DayOf)
    {
      var s := ss[i];
      assert ss[..i + 1][..i] == ss[..i];
      if s.hour !in byHour {
        byHour := byHour[s.hour := Bucket(0, 0)];
      }
      byHour := byHour[s.hour := Bucket(byHour[s.hour].total + s.engagement, byHour[s.hour].count + 1)];
      if s.day !in byDay {
        byDay := byDay[s.day := Bucket(0, 0)];
      }
      byDay := byDay[s.day := Bucket(byDay[s.day].total + s.engagement, byDay[s.day].count + 1)];
      i := i + 1;
    }
    assert ss[..|ss|] == ss;
  }

  /** The `Object.entries(...).forEach` that stores each bucket's rounded
      average, visiting the keys in ascending order. */
  method AverageBuckets(m: map<int, Bucket>, n: nat) returns (avg: map<int, nat>)
    requires forall k :: k in m ==> 0 <= k < n && m[k].count > 0
    ensures avg == Averages(m)
  {
    avg := map[];
    var k := 0;
    while k < n
      invariant 0 <= k <= n
      invariant forall j :: j in avg <==> j in m && j < k
      invariant forall j :: j in avg ==> avg[j] == RoundDiv(m[j].total, m[j].count)
    {
      if k in m {
        avg := avg[k := RoundDiv(m[k].total, m[k].count)];
      }
      k := k + 1;
    }
    ghost var want := Averages(m);
    assert forall j :: j in want <==> j in m;
    assert forall j :: j in avg <==> j in m;
    assert forall j :: j in avg ==> avg[j] == want[j];
  }

  method AnalyzePostTimes(reels: seq<Reel>) returns (r: PostTimeAnalysis)
    ensures r == PostTimeReport(reels)
  {
    var ss := Samples(reels);
    if |ss| == 0 {
      return NoPostTimes;
    }
    var byHour, byDay := FillBuckets(ss);
    FillRange(ss, HourOf, 24);
    FillRange(ss, DayOf, 7);
    var avgHour := AverageBuckets(byHour, 24);
    var avgDay := AverageBuckets(byDay, 7);
    var hours := SortSeq(AscEntries(avgHour, 24), Value);
    var days := SortSeq(AscEntries(avgDay, 7), Value);
    var bestHour := if |hours| > 0 then hours[0].key else 12;
    var bestDay := if |days| > 0 then days[0].key else 3;
    r := PostTimeAnalysis(bestHour, bestDay, avgHour, avgDay);
  }

  /** No reel has a truthy `posted_time` or `timestamp` exactly when no sample
      is taken. */
  lemma {:induction false} SamplesEmpty(reels: seq<Reel>)
    ensures Samples(reels) == [] <==> forall i :: 0 <= i < |reels| ==> PostTime(reels[i]).None?
  {
    if reels != [] {
      var p := reels[..|reels| - 1];
      SamplesEmpty(p);
      assert forall i :: 0 <= i < |p| ==> p[i] == reels[i];
    }
  }

  /** With no posting time the result is hour 12 of Wednesday and no buckets. */
  lemma PostTimeReportDefault(reels: seq<Reel>)
    requires forall i :: 0 <= i < |reels| ==> PostTime(reels[i]).None?
    ensures PostTimeReport(reels) == PostTimeAnalysis(12, 3, map[], map[])
  {
    SamplesEmpty(reels);
  }

  /** Each hour bucket holds the rounded average engagement of exactly the
      reels posted at that hour; likewise for the days. */
  lemma PostTimeReportBuckets(reels: seq<Reel>, k: int)
    requires Samples(reels) != []
    ensures var r := PostTimeReport(reels);
            var ss := Samples(reels);
            (k in r.avgEngagementByHour <==> CountAt(ss, HourOf, k) > 0) &&
            (k in r.avgEngagementByHour ==>
               r.avgEngagementByHour[k] == RoundDiv(SumAt(ss, HourOf, k), CountAt(ss, HourOf, k))) &&
            (k in r.avgEngagementByDay <==> CountAt(ss, DayOf, k) > 0) &&
            (k in r.avgEngagementByDay ==>
               r.avgEngagementByDay[k] == RoundDiv(SumAt(ss, DayOf, k), CountAt(ss, DayOf, k)))
  {
    var ss := Samples(reels);
    FillAt(ss, HourOf, k);
    FillAt(ss, DayOf, k);
  }

  /** With some posting time, the best hour and day are buckets with the
      highest average, ties going to the smallest key. */
  lemma PostTimeReportBest(reels: seq<Reel>)
    requires Samples(reels) != []
    ensures var r := PostTimeReport(reels);
            var h, byHour := r.bestHour, r.avgEngagementByHour;
            h in byHour && (forall k :: k in byHour ==> byHour[k] <= byHour[h]) &&
            (forall k :: k in byHour && k < h ==> byHour[k] < byHour[h])
    ensures var r := PostTimeReport(reels);
            var d, byDay := r.bestDayOfWeek, r.avgEngagementByDay;
            d in byDay && (forall k :: k in byDay ==> byDay[k] <= byDay[d]) &&
            (forall k :: k in byDay && k < d ==> byDay[k] < byDay[d])
  {
    var ss := Samples(reels);
    FillRange(ss, HourOf, 24);
    FillRange(ss, DayOf, 7);
    BestOfFill(ss, HourOf, 24, 12);
    BestOfFill(ss, DayOf, 7, 3);
  }

  lemma BestOfFill(ss: seq<Sample>, key: Sample -> int, n: nat, d: int)
    requires ss != [] && forall i :: 0 <= i < |ss| ==> 0 <= key(ss[i]) < n
    ensures forall k :: k in Fill(ss, key) ==> 0 <= k < n && Fill(ss, key)[k].count > 0
    ensures var avg := Averages(Fill(ss, key));
            var b := BestKey(avg, n, d);
            b in avg && (forall k :: k in avg ==> avg[k] <= avg[b]) &&
            (forall k :: k in avg && k < b ==> avg[k] < avg[b])
  {
    FillRange(ss, key, n);
    var m := Fill(ss, key);
    var avg := Averages(m);
    var x := ss[|ss| - 1];
    assert key(x) in m;
    assert key(x) in avg;
    assert forall k :: k in avg ==> k in m;
    BestKeyIsBest(avg, n, d, key(x));
  }
}
