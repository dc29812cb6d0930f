/** The word-frequency maps of the caption and transcript analyses: a
    `Map<string, number>` bumped once per word (`map.set(w, (map.get(w) || 0) + 1)`),
    and the most frequent words read off it with a stable sort by count. */
module WordCount {
  import opened Wrappers
  import opened OrderedMap
  import opened StableSort

  /** `map.set(w, (map.get(w) || 0) + 1)`. */
  function Bump(m: seq<Entry<string, nat>>, w: string): seq<Entry<string, nat>> {
    var c: nat := Get(m, w).GetOr(0) + 1;
    Set(m, w, c)
  }

  /** The map after the words `ws` have been counted, in order. */
  function Tally(ws: seq<string>): seq<Entry<string, nat>> {
    if ws == [] then [] else Bump(Tally(ws[..|ws| - 1]), ws[|ws| - 1])
  }

  lemma TallySnoc(ws: seq<string>, w: string)
    ensures Tally(ws + [w]) == Bump(Tally(ws), w)
  {
    var xs := ws + [w];
    assert xs[..|xs| - 1] == ws;
    assert xs[|xs| - 1] == w;
  }

  /** Counting one more word of `words` bumps that word. */
  lemma TallyExtend(done: seq<string>, words: seq<string>, j: int)
    requires 0 <= j < |words|
    ensures Tally(done + words[..j + 1]) == Bump(Tally(done + words[..j]), words[j])
  {
    assert done + words[..j + 1] == (done + words[..j]) + [words[j]];
    TallySnoc(done + words[..j], words[j]);
  }

  /** Each word is listed once, in order of first occurrence. */
  lemma {:induction false} TallyKeys(ws: seq<string>)
    ensures Keys(Tally(ws)) == Distinct(ws)
  {
    if ws != [] {
      TallyKeys(ws[..|ws| - 1]);
    }
  }

  /** The count of a word is its number of occurrences. */
  lemma {:induction false} TallyGet(ws: seq<string>, w: string)
    ensures Get(Tally(ws), w) == if multiset(ws)[w] == 0 then None else Some(multiset(ws)[w])
  {
    if ws == [] {
      assert multiset(ws) == multiset{};
    } else {
      var n := |ws| - 1;
      var p, x := ws[..n], ws[n];
      TallyGet(p, w);
      TallyGet(p, x);
      CountSnoc(ws, w);
      var m := Tally(p);
      assert Tally(ws) == Bump(m, x);
      BumpGet(m, x, w);
      CountStep(Get(m, x), Get(m, w), Get(Bump(m, x), w), w == x, multiset(p)[x], multiset(p)[w]);
    }
  }

  /** `g` is what `get` returns for a word counted `c` times. */
  predicate CountIs(g: Option<nat>, c: nat) {
    g == if c == 0 then None else Some(c)
  }

  lemma CountStep(gx: Option<nat>, gw: Option<nat>, g: Option<nat>, same: bool, cx: nat, cw: nat)
    requires CountIs(gx, cx) && CountIs(gw, cw) && (same ==> gx == gw)
    requires g == if same then Some(gx.GetOr(0) + 1) else gw
    ensures CountIs(g, if same then cw + 1 else cw)
  {
  }

  lemma CountSnoc(ws: seq<string>, w: string)
    requires ws != []
    ensures multiset(ws)[w] == multiset(ws[..|ws| - 1])[w] + if w == ws[|ws| - 1] then 1 else 0
  {
    var n := |ws| - 1;
    assert ws == ws[..n] + [ws[n]];
    assert multiset(ws) == multiset(ws[..n]) + multiset{ws[n]};
  }

  lemma BumpGet(m: seq<Entry<string, nat>>, x: string, w: string)
    ensures Get(Bump(m, x), w) == if w == x then Some(Get(m, x).GetOr(0) + 1) else Get(m, w)
  {
    var c: nat := Get(m, x).GetOr(0) + 1;
    GetSet(m, x, c, w);
  }

  lemma {:induction false} GetAt<K, V>(m: seq<Entry<K, V>>, i: int)
    requires Unique(Keys(m)) && 0 <= i < |m|
    ensures Get(m, m[i].key) == Some(m[i].value)
  {
    if i > 0 {
      assert Keys(m[1..]) == Keys(m)[1..];
      GetAt(m[1..], i - 1);
    }
  }

  /** Every entry holds a word of `ws` with its number of occurrences. */
  lemma TallyEntry(ws: seq<string>, i: int)
    requires 0 <= i < |Tally(ws)|
    ensures Tally(ws)[i].key in ws
    ensures Tally(ws)[i].value == multiset(ws)[Tally(ws)[i].key] > 0
  {
    var m := Tally(ws);
    TallyKeys(ws);
    assert m[i].key == Keys(m)[i];
    GetAt(m, i);
    TallyGet(ws, m[i].key);
  }

  function Count(e: Entry<string, nat>): int { e.value }

  /** `Array.from(map.entries()).sort((a, b) => b[1] - a[1]).slice(0, n).map(([w]) => w)`. */
  function Top(ws: seq<string>, n: nat): seq<string> {
    Keys(Take(SortDesc(Tally(ws), Count), n))
  }

  /** A listed word comes with its number of occurrences. */
  lemma TopEntry(ws: seq<string>, n: nat, i: int)
    requires 0 <= i < |Take(SortDesc(Tally(ws), Count), n)|
    ensures var e := Take(SortDesc(Tally(ws), Count), n)[i];
            e.key in ws && e.value == multiset(ws)[e.key] && Top(ws, n)[i] == e.key
  {
    var m := Tally(ws);
    TakeSortMember(m, n, Count, i);
    var p :| 0 <= p < |m| && m[p] == Take(SortDesc(m, Count), n)[i];
    TallyEntry(ws, p);
  }

  /** At most `n` words, each of them from `ws`, by non-increasing number of
      occurrences. */
  lemma TopRanked(ws: seq<string>, n: nat)
    ensures |Top(ws, n)| <= n
    ensures forall i :: 0 <= i < |Top(ws, n)| ==> Top(ws, n)[i] in ws
    ensures forall i, j :: 0 <= i < j < |Top(ws, n)| ==> multiset(ws)[Top(ws, n)[i]] >= multiset(ws)[Top(ws, n)[j]]
  {
    var t := Take(SortDesc(Tally(ws), Count), n);
    SortDescSorted(Tally(ws), Count);
    forall i | 0 <= i < |t| ensures t[i].key in ws && t[i].value == multiset(ws)[t[i].key] {
      TopEntry(ws, n, i);
    }
  }

  /** A word of `ws` missing from the top list was crowded out: the list is
      full and every listed word occurs at least as often. */
  lemma TopDominates(ws: seq<string>, n: nat, w: string)
    requires w in ws && w !in Top(ws, n)
    ensures |Top(ws, n)| == n
    ensures forall i :: 0 <= i < n ==> multiset(ws)[Top(ws, n)[i]] >= multiset(ws)[w]
  {
    var m := Tally(ws);
    var t := Take(SortDesc(m, Count), n);
    TallyKeys(ws);
    assert w in Keys(m);
    var p :| 0 <= p < |m| && Keys(m)[p] == w;
    TallyEntry(ws, p);
    NotInKeys(t, m[p]);
    TakeSortDominates(m, n, Count, m[p]);
    forall i | 0 <= i < n ensures multiset(ws)[Top(ws, n)[i]] >= multiset(ws)[w] {
      TopEntry(ws, n, i);
    }
  }

  lemma NotInKeys<K, V>(t: seq<Entry<K, V>>, e: Entry<K, V>)
    requires e.key !in Keys(t)
    ensures forall i :: 0 <= i < |t| ==> t[i] != e
  {
    forall i | 0 <= i < |t| ensures t[i] != e {
      assert Keys(t)[i] == t[i].key;
    }
  }

  /** Ties keep first-encounter order: the map lists words in order of first
      occurrence, and for every count the top list keeps a prefix of the
      entries with that count, in map order. */
  lemma TopTies(ws: seq<string>, n: nat, k: int)
    ensures Keys(Tally(ws)) == Distinct(ws)
    ensures KeyFilter(Take(SortDesc(Tally(ws), Count), n), Count, k) <= KeyFilter(Tally(ws), Count, k)
  {
    TallyKeys(ws);
    FilterTake(SortDesc(Tally(ws), Count), n, Count, k);
    SortDescFilter(Tally(ws), Count, k);
  }
}
