/** Regular expressions of the shape `prefix(class+)` searched left to right:
    the first position where one of the literal prefixes is followed by at
    least one character of the class, and the longest run of the class there. */
module UrlPatterns {
  import opened Wrappers
  import opened JsText

  /** The longest prefix of `s` made of characters of the class. */
  function Run(s: string, cls: char -> bool): (r: string)
    ensures r <= s
    ensures forall k :: 0 <= k < |r| ==> cls(r[k])
    ensures |r| == |s| || !cls(s[|r|])
  {
    if s != [] && cls(s[0]) then [s[0]] + Run(s[1..], cls) else []
  }

  /** `pat` occurs at `i` and a character of the class follows it. */
  predicate PrefixedAt(s: string, i: int, pat: string, cls: char -> bool) {
    OccursAt(s, pat, i) && i + |pat| < |s| && cls(s[i + |pat|])
  }

  /** The first alternative from the `k`-th on that matches at `i`, or
      `|pats|` when none does. */
  function Alt(s: string, i: int, pats: seq<string>, cls: char -> bool, k: nat): nat
    decreases |pats| - k
  {
    if k >= |pats| then |pats|
    else if PrefixedAt(s, i, pats[k], cls) then k
    else Alt(s, i, pats, cls, k + 1)
  }

  /** The first position at or after `i` where some alternative matches, or
      `|s|` when there is none. */
  function Pos(s: string, pats: seq<string>, cls: char -> bool, i: nat): nat
    decreases |s| - i
  {
    if i >= |s| then |s|
    else if Alt(s, i, pats, cls, 0) < |pats| then i
    else Pos(s, pats, cls, i + 1)
  }

  /** The capture group of the leftmost match, if any. */
  function FirstCapture(s: string, pats: seq<string>, cls: char -> bool): Option<string> {
    var j := Pos(s, pats, cls, 0);
    if j < |s| then
      var k := Alt(s, j, pats, cls, 0);
      AltSpec(s, j, pats, cls, 0);
      if k < |pats| then Some(Run(s[j + |pats[k]|..], cls)) else None
    else None
  }

  /** `Alt` is the first alternative that matches. */
  lemma {:induction false} AltSpec(s: string, i: int, pats: seq<string>, cls: char -> bool, k: nat)
    requires k <= |pats|
    ensures k <= Alt(s, i, pats, cls, k) <= |pats|
    ensures Alt(s, i, pats, cls, k) < |pats| ==> PrefixedAt(s, i, pats[Alt(s, i, pats, cls, k)], cls)
    ensures forall k' :: k <= k' < Alt(s, i, pats, cls, k) ==> !PrefixedAt(s, i, pats[k'], cls)
    decreases |pats| - k
  {
    if k < |pats| && !PrefixedAt(s, i, pats[k], cls) {
      AltSpec(s, i, pats, cls, k + 1);
    }
  }

  /** `Pos` is the first position where an alternative matches. */
  lemma {:induction false} PosSpec(s: string, pats: seq<string>, cls: char -> bool, i: nat)
    requires i <= |s|
    ensures i <= Pos(s, pats, cls, i) <= |s|
    ensures Pos(s, pats, cls, i) < |s| ==> Alt(s, Pos(s, pats, cls, i), pats, cls, 0) < |pats|
    ensures forall j :: i <= j < Pos(s, pats, cls, i) ==> Alt(s, j, pats, cls, 0) == |pats|
    decreases |s| - i
  {
    if i < |s| && Alt(s, i, pats, cls, 0) >= |pats| {
      AltSpec(s, i, pats, cls, 0);
      PosSpec(s, pats, cls, i + 1);
    }
  }

  /** No alternative is followed by a character of the class at position `j`. */
  lemma NoMatchAt(s: string, j: int, pats: seq<string>, cls: char -> bool)
    requires j < 0 || j >= |s| || Alt(s, j, pats, cls, 0) == |pats|
    ensures forall k :: 0 <= k < |pats| ==> !PrefixedAt(s, j, pats[k], cls)
  {
    if 0 <= j < |s| {
      AltSpec(s, j, pats, cls, 0);
    }
  }

  /** The search finds nothing exactly when no alternative is followed by a
      character of the class anywhere in the text. */
  lemma FirstCaptureNone(s: string, pats: seq<string>, cls: char -> bool)
    ensures FirstCapture(s, pats, cls) == None <==>
            forall j, k :: 0 <= k < |pats| ==> !PrefixedAt(s, j, pats[k], cls)
  {
    PosSpec(s, pats, cls, 0);
    var j := Pos(s, pats, cls, 0);
    if j < |s| {
      AltSpec(s, j, pats, cls, 0);
    } else {
      forall j', k | 0 <= k < |pats| ensures !PrefixedAt(s, j', pats[k], cls) {
        NoMatchAt(s, j', pats, cls);
      }
    }
  }

  /** A capture is the longest run of the class right after the first
      alternative that matches at the leftmost position where any does. */
  lemma FirstCaptureSome(s: string, pats: seq<string>, cls: char -> bool)
    requires FirstCapture(s, pats, cls).Some?
    ensures var j, k, r := Pos(s, pats, cls, 0), Alt(s, Pos(s, pats, cls, 0), pats, cls, 0), FirstCapture(s, pats, cls).value;
            j < |s| && k < |pats| && PrefixedAt(s, j, pats[k], cls) &&
            (forall j', k' :: 0 <= j' < j && 0 <= k' < |pats| ==> !PrefixedAt(s, j', pats[k'], cls)) &&
            (forall k' :: 0 <= k' < k ==> !PrefixedAt(s, j, pats[k'], cls)) &&
            r == Run(s[j + |pats[k]|..], cls) && r != [] &&
            (forall c :: 0 <= c < |r| ==> cls(r[c])) &&
            (j + |pats[k]| + |r| == |s| || !cls(s[j + |pats[k]| + |r|]))
  {
    PosSpec(s, pats, cls, 0);
    var j := Pos(s, pats, cls, 0);
    AltSpec(s, j, pats, cls, 0);
    forall j', k' | 0 <= j' < j && 0 <= k' < |pats| ensures !PrefixedAt(s, j', pats[k'], cls) {
      NoMatchAt(s, j', pats, cls);
    }
  }
}
