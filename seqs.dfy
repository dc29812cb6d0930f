/** Small facts about sequences, stated once for any element type. */
module Seqs {

  lemma AppendTakeSnoc<T>(a: seq<T>, b: seq<T>, j: int)
    requires 0 <= j < |b|
    ensures a + b[..j + 1] == (a + b[..j]) + [b[j]]
  {
    assert b[..j + 1] == b[..j] + [b[j]];
  }

  lemma AppendSnoc<T>(a: seq<T>, b: seq<T>, x: T)
    ensures a + (b + [x]) == (a + b) + [x]
  {
  }

  lemma TakeSnoc<T>(s: seq<T>, i: int)
    requires 0 <= i < |s|
    ensures s[..i + 1][..i] == s[..i] && s[..i + 1][i] == s[i]
  {
  }

  lemma TakeAll<T>(s: seq<T>)
    ensures s[..|s|] == s
  {
  }

  lemma AppendTakeNone<T>(a: seq<T>, b: seq<T>)
    ensures a + b[..0] == a
  {
  }

  lemma ConsIndex<T>(x: T, s: seq<T>, j: int)
    requires 0 < j <= |s|
    ensures ([x] + s)[j] == s[j - 1]
  {
  }

  lemma AppendIndex<T>(a: seq<T>, b: seq<T>, k: int)
    requires 0 <= k < |a| + |b|
    ensures (a + b)[k] == if k < |a| then a[k] else b[k - |a|]
  {
  }

  /** What a suffix holds, the whole sequence holds. */
  lemma SuffixIn<T>(s: seq<T>, t: seq<T>)
    requires |t| <= |s| && t == s[|s| - |t|..]
    ensures forall x :: x in t ==> x in s
  {
    forall x | x in t ensures x in s {
      var a :| 0 <= a < |t| && t[a] == x;
      assert s[|s| - |t| + a] == x;
    }
  }
}
