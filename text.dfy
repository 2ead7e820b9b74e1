/** String helpers shared by every part of the model: decimal rendering and
    parsing, the JavaScript whitespace class used by `trim()` and regular
    expressions, ASCII lower-casing, substring search and splitting. */
module Text {

  predicate IsDigit(c: char) {
    '0' <= c <= '9'
  }

  predicate AllDigits(s: string) {
    forall i :: 0 <= i < |s| ==> IsDigit(s[i])
  }

  function DigitValue(c: char): nat
    requires IsDigit(c)
  {
    (c as int) - ('0' as int)
  }

  function DigitChar(d: nat): (c: char)
    requires d < 10
    ensures IsDigit(c) && DigitValue(c) == d
  {
    (('0' as int) + d) as char
  }

  /** Decimal rendering of a natural number, most significant digit first,
      without leading zeros. */
  function NatToString(n: nat): (s: string)
    ensures |s| > 0 && AllDigits(s)
    ensures |s| > 1 ==> s[0] != '0'
    decreases n
  {
    if n < 10 then [DigitChar(n)] else NatToString(n / 10) + [DigitChar(n % 10)]
  }

  /** The number a non-empty string of decimal digits denotes. */
  function DigitsValue(s: string): nat
    requires AllDigits(s)
    decreases |s|
  {
    if s == [] then 0 else DigitsValue(s[..|s| - 1]) * 10 + DigitValue(s[|s| - 1])
  }

  lemma {:induction false} DigitsValueOfNatToString(n: nat)
    ensures DigitsValue(NatToString(n)) == n
    decreases n
  {
    var s := NatToString(n);
    if n >= 10 {
      DigitsValueOfNatToString(n / 10);
      assert s[..|s| - 1] == NatToString(n / 10);
    }
  }

  /** Characters matched by `\s` in a JavaScript regular expression and
      removed by `String.prototype.trim`: WhiteSpace and LineTerminator. */
  predicate IsWhitespace(c: char) {
    || c == '\t' || c == '\n' || c == '\U{000B}' || c == '\U{000C}' || c == '\r' || c == ' '
    || c == '\U{00A0}' || c == '\U{1680}' || ('\U{2000}' <= c <= '\U{200A}')
    || c == '\U{2028}' || c == '\U{2029}' || c == '\U{202F}' || c == '\U{205F}'
    || c == '\U{3000}' || c == '\U{FEFF}'
  }

  function TrimStart(s: string): (r: string)
    ensures r == [] || !IsWhitespace(r[0])
    ensures exists k :: 0 <= k <= |s| && r == s[k..] && forall i :: 0 <= i < k ==> IsWhitespace(s[i])
    decreases |s|
  {
    if s != [] && IsWhitespace(s[0]) then
      var r := TrimStart(s[1..]);
      ghost var k :| 0 <= k <= |s[1..]| && r == s[1..][k..] && forall i :: 0 <= i < k ==> IsWhitespace(s[1..][i]);
      assert r == s[k + 1..];
      r
    else
      assert s == s[0..];
      s
  }

  function TrimEnd(s: string): (r: string)
    ensures r == [] || !IsWhitespace(r[|r| - 1])
    ensures exists k :: 0 <= k <= |s| && r == s[..k] && forall i :: k <= i < |s| ==> IsWhitespace(s[i])
    decreases |s|
  {
    if s != [] && IsWhitespace(s[|s| - 1]) then
      var r := TrimEnd(s[..|s| - 1]);
      ghost var k :| 0 <= k <= |s| - 1 && r == s[..|s| - 1][..k] && forall i :: k <= i < |s| - 1 ==> IsWhitespace(s[i]);
      assert r == s[..k];
      r
    else
      assert s == s[..|s|];
      s
  }

  /** `String.prototype.trim`. */
  function Trim(s: string): string {
    TrimEnd(TrimStart(s))
  }

  lemma TrimNoWhitespace(s: string)
    requires forall i :: 0 <= i < |s| ==> !IsWhitespace(s[i])
    ensures Trim(s) == s
  {
  }

  /** ASCII lower-casing; `String.prototype.toLowerCase` also folds
      non-ASCII letters, which this model does not. */
  function LowerChar(c: char): char {
    if 'A' <= c <= 'Z' then ((c as int) + 32) as char else c
  }

  function Lower(s: string): (r: string)
    ensures |r| == |s|
    ensures forall i :: 0 <= i < |s| ==> r[i] == LowerChar(s[i])
  {
    seq(|s|, i requires 0 <= i < |s| => LowerChar(s[i]))
  }

  lemma LowerIdempotent(s: string)
    ensures Lower(Lower(s)) == Lower(s)
  {
    assert forall i :: 0 <= i < |s| ==> LowerChar(LowerChar(s[i])) == LowerChar(s[i]);
  }

  lemma LowerAppend(s: string, t: string)
    ensures Lower(s + t) == Lower(s) + Lower(t)
  {
  }

  predicate StartsWith(s: string, prefix: string) {
    prefix <= s
  }

  predicate EndsWith(s: string, suffix: string) {
    |suffix| <= |s| && s[|s| - |suffix|..] == suffix
  }

  /** A concatenation starts with its first part, and dropping that part
      leaves the second. */
  lemma PrefixOfConcat(a: string, b: string)
    ensures StartsWith(a + b, a) && (a + b)[|a|..] == b
  {
    assert (a + b)[..|a|] == a;
  }

  /** Text put in front keeps a suffix. */
  lemma EndsWithExtend(a: string, s: string, suffix: string)
    requires EndsWith(s, suffix)
    ensures EndsWith(a + s, suffix)
  {
    var t := a + s;
    assert t[|t| - |suffix|..] == s[|s| - |suffix|..];
  }

  /** `String.prototype.includes`, searching from the left. */
  function Contains(s: string, sub: string): bool
    decreases |s|
  {
    sub <= s || (s != [] && Contains(s[1..], sub))
  }

  /** `sub` occurs in `s` at position `i`. */
  predicate OccursAt(s: string, sub: string, i: int) {
    0 <= i && i + |sub| <= |s| && s[i..i + |sub|] == sub
  }

  lemma {:induction false} ContainsIffOccurs(s: string, sub: string)
    ensures Contains(s, sub) <==> exists i :: OccursAt(s, sub, i)
    decreases |s|
  {
    if sub <= s {
      assert OccursAt(s, sub, 0);
    } else if s == [] {
      assert forall i :: !OccursAt(s, sub, i);
    } else {
      ContainsIffOccurs(s[1..], sub);
      if Contains(s[1..], sub) {
        var i :| OccursAt(s[1..], sub, i);
        assert s[1..][i..i + |sub|] == s[i + 1..i + 1 + |sub|];
        assert OccursAt(s, sub, i + 1);
      } else {
        forall i | OccursAt(s, sub, i) && i >= 1 ensures OccursAt(s[1..], sub, i - 1) {
          OccursShift(s, sub, i);
        }
      }
    }
  }

  /** An occurrence past the first position is one in the tail. */
  lemma OccursShift(s: string, sub: string, i: int)
    requires s != [] && i >= 1 && OccursAt(s, sub, i)
    ensures OccursAt(s[1..], sub, i - 1)
  {
    assert s[1..][i - 1..i - 1 + |sub|] == s[i..i + |sub|];
  }

  /** Appending or prepending text never removes an occurrence. */
  lemma ContainsExtend(s: string, sub: string, before: string, after: string)
    requires Contains(s, sub)
    ensures Contains(before + s + after, sub)
  {
    ContainsIffOccurs(s, sub);
    var i :| OccursAt(s, sub, i);
    var t := before + s + after;
    assert t[|before| + i..|before| + i + |sub|] == s[i..i + |sub|];
    assert OccursAt(t, sub, |before| + i);
    ContainsIffOccurs(t, sub);
  }

  /** `s.split(sep)` for a one-character separator: always at least one part. */
  function Split(s: string, sep: char): (parts: seq<string>)
    ensures |parts| >= 1
    decreases |s|
  {
    if s == [] then [""]
    else
      var rest := Split(s[1..], sep);
      if s[0] == sep then [""] + rest else [[s[0]] + rest[0]] + rest[1..]
  }

  lemma {:induction false} SplitWithoutSeparator(s: string, sep: char)
    requires sep !in s
    ensures Split(s, sep) == [s]
    decreases |s|
  {
    if s != [] {
      SplitWithoutSeparator(s[1..], sep);
      assert [s[0]] + s[1..] == s;
    }
  }

  lemma {:induction false} SplitAppend(a: string, sep: char, b: string)
    ensures Split(a + [sep] + b, sep) == Split(a, sep) + Split(b, sep)
    decreases |a|
  {
    var s := a + [sep] + b;
    if a == [] {
      assert s[1..] == b;
    } else {
      assert s[1..] == a[1..] + [sep] + b;
      SplitAppend(a[1..], sep, b);
    }
  }

  /** Three separator-free parts joined by the separator split back into them. */
  lemma SplitThree(a: string, b: string, c: string, sep: char)
    requires sep !in a && sep !in b && sep !in c
    ensures Split(a + [sep] + b + [sep] + c, sep) == [a, b, c]
  {
    SplitAppend(a + [sep] + b, sep, c);
    SplitAppend(a, sep, b);
    SplitWithoutSeparator(a, sep);
    SplitWithoutSeparator(b, sep);
    SplitWithoutSeparator(c, sep);
  }

  /** Slash-separated path `/s0/s1/...`, as the controllers' template strings build it. */
  function PathOf(segments: seq<string>): string
    decreases |segments|
  {
    if segments == [] then "" else "/" + segments[0] + PathOf(segments[1..])
  }

  /** Unfolding `PathOf` one segment at a time. */
  lemma PathOfCons(s: string, rest: seq<string>)
    ensures PathOf([s] + rest) == "/" + s + PathOf(rest)
  {
    assert ([s] + rest)[1..] == rest;
  }

  /** Appending a segment appends `/` and the segment to the path. */
  lemma {:induction false} PathOfSnoc(segments: seq<string>, s: string)
    ensures PathOf(segments + [s]) == PathOf(segments) + "/" + s
    decreases |segments|
  {
    if segments == [] {
      assert [] + [s] == [s];
      PathOfCons(s, []);
    } else {
      assert (segments + [s])[1..] == segments[1..] + [s];
      PathOfSnoc(segments[1..], s);
    }
  }

  predicate NoSlash(segments: seq<string>) {
    forall i :: 0 <= i < |segments| ==> '/' !in segments[i]
  }

  lemma {:induction false} SplitSegmentThenPath(x: string, segments: seq<string>)
    requires '/' !in x && NoSlash(segments)
    ensures Split(x + PathOf(segments), '/') == [x] + segments
    decreases |segments|
  {
    if segments == [] {
      assert x + PathOf(segments) == x;
      SplitWithoutSeparator(x, '/');
    } else {
      var tail := segments[0] + PathOf(segments[1..]);
      assert x + PathOf(segments) == x + ['/'] + tail;
      SplitAppend(x, '/', tail);
      SplitWithoutSeparator(x, '/');
      SplitSegmentThenPath(segments[0], segments[1..]);
      assert [segments[0]] + segments[1..] == segments;
    }
  }

  /** A path built from slash-free segments splits back into exactly those
      segments, after the empty text before the leading slash. */
  lemma SplitPath(segments: seq<string>)
    requires NoSlash(segments)
    ensures Split(PathOf(segments), '/') == [""] + segments
  {
    if segments != [] {
      var tail := segments[0] + PathOf(segments[1..]);
      assert PathOf(segments) == "" + ['/'] + tail;
      SplitAppend("", '/', tail);
      SplitSegmentThenPath(segments[0], segments[1..]);
      assert [segments[0]] + segments[1..] == segments;
    }
  }
}
