/** The JavaScript string primitives the analytics and ingestion code
    relies on: the `\s` and `\w` character classes, `toLowerCase`, `.length` in UTF-16 code units,
    `split(/\s+/)`, `includes`, global matching of a literal pattern,
    `join` and the decimal rendering of non-negative integers. */
module JsText {

  /** JavaScript's `\s`: the WhiteSpace and LineTerminator code points. */
  predicate IsSpace(c: char) {
    c == '\t' || c == '\n' || c == '\U{B}' || c == '\U{C}' || c == '\r' || c == ' ' ||
    c == '\U{A0}' || c == '\U{1680}' || ('\U{2000}' <= c <= '\U{200A}') ||
    c == '\U{2028}' || c == '\U{2029}' || c == '\U{202F}' || c == '\U{205F}' ||
    c == '\U{3000}' || c == '\U{FEFF}'
  }

  /** JavaScript's `\w` (without the `u` flag): `[A-Za-z0-9_]`. */
  predicate IsWordChar(c: char) {
    ('a' <= c <= 'z') || ('A' <= c <= 'Z') || ('0' <= c <= '9') || c == '_'
  }

  predicate NoSpace(s: string) {
    forall i :: 0 <= i < |s| ==> !IsSpace(s[i])
  }

  function LowerChar(c: char): char {
    if 'A' <= c <= 'Z' then (c as int + 32) as char else c
  }

  /** `toLowerCase()`, restricted to the ASCII letters. */
  function Lower(s: string): string {
    seq(|s|, i requires 0 <= i < |s| => LowerChar(s[i]))
  }

  /** The number of UTF-16 code units that encode `c`. */
  function CodeUnits(c: char): nat {
    if c as int > 0xFFFF then 2 else 1
  }

  /** JavaScript's `s.length`: the length of `s` in UTF-16 code units. */
  function Utf16Len(s: string): (n: nat)
    ensures |s| <= n <= 2 * |s|
  {
    if s == [] then 0 else CodeUnits(s[0]) + Utf16Len(s[1..])
  }

  lemma {:induction false} Utf16LenAppend(a: string, b: string)
    ensures Utf16Len(a + b) == Utf16Len(a) + Utf16Len(b)
  {
    if a != [] {
      assert (a + b)[0] == a[0] && (a + b)[1..] == a[1..] + b;
      Utf16LenAppend(a[1..], b);
    } else {
      assert a + b == b;
    }
  }

  /** The longest prefix of `s` that holds no whitespace. */
  function Word(s: string): (w: string)
    ensures w <= s && NoSpace(w)
    ensures |w| < |s| ==> IsSpace(s[|w|])
  {
    if s == [] || IsSpace(s[0]) then [] else [s[0]] + Word(s[1..])
  }

  /** `s` without its leading whitespace. */
  function SkipSpaces(s: string): (r: string)
    ensures |r| <= |s| && r == s[|s| - |r|..]
    ensures r != [] ==> !IsSpace(r[0])
    ensures forall i :: 0 <= i < |s| - |r| ==> IsSpace(s[i])
  {
    if s != [] && IsSpace(s[0]) then SkipSpaces(s[1..]) else s
  }

  /** `s.split(/\s+/)`: the pieces between maximal runs of whitespace.
      Leading or trailing whitespace produces an empty first or last piece,
      and the empty string splits into one empty piece. */
  function SplitWs(s: string): (r: seq<string>)
    ensures |r| >= 1
    decreases |s|
  {
    var w := Word(s);
    if |w| == |s| then [w] else [w] + SplitWs(SkipSpaces(s[|w|..]))
  }

  function Flatten(parts: seq<string>): string {
    if parts == [] then [] else parts[0] + Flatten(parts[1..])
  }

  /** The characters of `s` that are not whitespace, in order. */
  function NonSpace(s: string): string {
    if s == [] then [] else (if IsSpace(s[0]) then [] else [s[0]]) + NonSpace(s[1..])
  }

  lemma {:induction false} NonSpaceAppend(a: string, b: string)
    ensures NonSpace(a + b) == NonSpace(a) + NonSpace(b)
  {
    if a != [] {
      assert (a + b)[0] == a[0] && (a + b)[1..] == a[1..] + b;
      NonSpaceAppend(a[1..], b);
    } else {
      assert a + b == b;
    }
  }

  lemma {:induction false} NonSpaceOfWord(w: string)
    requires NoSpace(w)
    ensures NonSpace(w) == w
  {
    if w != [] {
      NonSpaceOfWord(w[1..]);
    }
  }

  lemma FlattenCons(w: string, tail: seq<string>)
    ensures Flatten([w] + tail) == w + Flatten(tail)
  {
    assert ([w] + tail)[1..] == tail;
  }

  /** No piece of a split holds whitespace. */
  lemma {:induction false} SplitWsNoSpace(s: string)
    ensures forall k :: 0 <= k < |SplitWs(s)| ==> NoSpace(SplitWs(s)[k])
    decreases |s|
  {
    var w := Word(s);
    if |w| < |s| {
      var tail := SplitWs(SkipSpaces(s[|w|..]));
      SplitWsNoSpace(SkipSpaces(s[|w|..]));
      var r := [w] + tail;
      assert SplitWs(s) == r;
      forall k | 0 <= k < |r| ensures NoSpace(r[k]) {
        if k > 0 {
          assert r[k] == tail[k - 1];
        }
      }
    }
  }

  /** The pieces of a split put together are exactly the non-whitespace
      characters of the input, in order. */
  lemma {:induction false} SplitWsFlatten(s: string)
    ensures Flatten(SplitWs(s)) == NonSpace(s)
    decreases |s|
  {
    var w := Word(s);
    NonSpaceOfWord(w);
    if |w| == |s| {
      assert SplitWs(s) == [w];
      assert w == s[..|w|] == s;
      assert Flatten([w]) == w + Flatten([]);
    } else {
      var t := SkipSpaces(s[|w|..]);
      SplitWsFlatten(t);
      NonSpaceAfterWord(s);
      FlattenCons(w, SplitWs(t));
    }
  }

  lemma NonSpaceAfterWord(s: string)
    requires |Word(s)| < |s|
    ensures NonSpace(s) == Word(s) + NonSpace(SkipSpaces(s[|Word(s)|..]))
  {
    var w := Word(s);
    var rest := s[|w|..];
    assert s == w + rest;
    NonSpaceOfWord(w);
    NonSpaceAppend(w, rest);
    NonSpaceSkip(rest);
  }

  /** Skipping leading whitespace drops no non-whitespace character. */
  lemma {:induction false} NonSpaceSkip(s: string)
    ensures NonSpace(SkipSpaces(s)) == NonSpace(s)
  {
    if s != [] && IsSpace(s[0]) {
      NonSpaceSkip(s[1..]);
    }
  }

  /** The first piece is empty exactly when the input is empty or starts with
      whitespace. */
  lemma SplitWsFirst(s: string)
    ensures SplitWs(s)[0] == [] <==> (s == [] || IsSpace(s[0]))
  {
    assert SplitWs(s)[0] == Word(s);
  }

  /** Every piece strictly between the first and the last is non-empty. */
  lemma {:induction false} SplitWsMiddle(s: string)
    ensures forall k :: 0 < k < |SplitWs(s)| - 1 ==> SplitWs(s)[k] != []
    decreases |s|
  {
    var w := Word(s);
    if |w| < |s| {
      var t := SkipSpaces(s[|w|..]);
      SplitWsMiddle(t);
      var tail := SplitWs(t);
      assert SplitWs(s) == [w] + tail;
      if t != [] {
        SplitWsFirst(t);
      }
    }
  }

  /** `s.includes(w)`. */
  predicate Includes(s: string, w: string) {
    w <= s || (s != [] && Includes(s[1..], w))
  }

  /** `w` occurs in `s` starting at index `i`. */
  predicate OccursAt(s: string, w: string, i: int) {
    0 <= i && i + |w| <= |s| && s[i..i + |w|] == w
  }

  lemma {:induction false} IncludesAt(s: string, w: string)
    ensures Includes(s, w) <==> exists i :: OccursAt(s, w, i)
  {
    if w <= s {
      assert OccursAt(s, w, 0);
    } else if s != [] {
      IncludesAt(s[1..], w);
      if Includes(s[1..], w) {
        var i :| OccursAt(s[1..], w, i);
        assert s[i + 1..i + 1 + |w|] == s[1..][i..i + |w|];
        assert OccursAt(s, w, i + 1);
      }
      if exists i :: OccursAt(s, w, i) {
        var i :| OccursAt(s, w, i);
        assert i != 0;
        assert s[1..][i - 1..i - 1 + |w|] == s[i..i + |w|];
        assert OccursAt(s[1..], w, i - 1);
      }
    } else {
      assert |w| > 0;
      assert forall i :: !OccursAt(s, w, i);
    }
  }

  /** The number of matches of the global regular expression `new RegExp(w, 'g')`
      for a literal `w`: leftmost matches that do not overlap; the empty
      pattern matches before every code unit and at the end. */
  function CountMatches(s: string, w: string): (n: nat)
    ensures n * |w| <= |s|
    decreases |s|
  {
    if |w| == 0 then Utf16Len(s) + 1
    else if |s| < |w| then 0
    else if w <= s then 1 + CountMatches(s[|w|..], w)
    else CountMatches(s[1..], w)
  }

  /** A pattern matches at least once exactly when the text includes it. */
  lemma {:induction false} CountMatchesPositive(s: string, w: string)
    ensures CountMatches(s, w) > 0 <==> Includes(s, w)
    decreases |s|
  {
    if |w| == 0 {
      assert w <= s;
    } else if |s| < |w| {
      NotIncludesShort(s, w);
    } else if !(w <= s) {
      CountMatchesPositive(s[1..], w);
    }
  }

  lemma {:induction false} NotIncludesShort(s: string, w: string)
    requires |s| < |w|
    ensures !Includes(s, w)
  {
    if s != [] {
      NotIncludesShort(s[1..], w);
    }
  }

  /** `parts.join(sep)`. */
  function Join(parts: seq<string>, sep: string): string {
    if parts == [] then []
    else if |parts| == 1 then parts[0]
    else parts[0] + sep + Join(parts[1..], sep)
  }

  /** Every part occurs in the joined text, at the offset returned. */
  lemma {:induction false} JoinHasPart(parts: seq<string>, sep: string, k: int) returns (i: nat)
    requires 0 <= k < |parts|
    ensures OccursAt(Join(parts, sep), parts[k], i)
  {
    if k == 0 {
      i := 0;
      if |parts| > 1 {
        assert Join(parts, sep) == parts[0] + (sep + Join(parts[1..], sep));
      }
    } else {
      var j := JoinHasPart(parts[1..], sep, k - 1);
      var rest := Join(parts[1..], sep);
      var prefix := parts[0] + sep;
      assert Join(parts, sep) == prefix + rest;
      i := |prefix| + j;
      assert (prefix + rest)[i..i + |parts[k]|] == rest[j..j + |parts[k]|];
    }
  }

  function DigitChar(d: nat): char
    requires d < 10
  {
    ('0' as int + d) as char
  }

  predicate AllDigits(s: string) {
    forall i :: 0 <= i < |s| ==> '0' <= s[i] <= '9'
  }

  /** The decimal rendering of `n` in a template literal (`${n}`). */
  function NatToString(n: nat): (s: string)
    ensures |s| >= 1 && AllDigits(s)
    ensures (s[0] == '0') <==> n == 0
  {
    if n < 10 then [DigitChar(n)] else NatToString(n / 10) + [DigitChar(n % 10)]
  }

  /** `parseInt` on a string of decimal digits. */
  function ParseNat(s: string): nat
    requires AllDigits(s)
  {
    if s == [] then 0 else 10 * ParseNat(s[..|s| - 1]) + (s[|s| - 1] as int - '0' as int)
  }

  /** Rendering a number and reading it back gives the number again. */
  lemma {:induction false} ParseNatToString(n: nat)
    ensures ParseNat(NatToString(n)) == n
  {
    if n >= 10 {
      ParseNatToString(n / 10);
      var s := NatToString(n);
      assert s[..|s| - 1] == NatToString(n / 10);
    }
  }

  /** Different numbers render differently. */
  lemma NatToStringInjective(m: nat, n: nat)
    requires NatToString(m) == NatToString(n)
    ensures m == n
  {
    ParseNatToString(m);
    ParseNatToString(n);
  }
}
