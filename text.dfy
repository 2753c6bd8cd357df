/**
 * The string functions of Go's standard library that the package relies on:
 * `strings.TrimSpace`, `strings.ReplaceAll` with an empty replacement, and the
 * decimal digits that `strconv` reads and writes.
 */
module Text {

  /** Go's `unicode.IsSpace`: the characters with the Unicode White_Space property. */
  predicate IsSpace(c: char) {
    c == '\t' || c == '\n' || c == '\U{0B}' || c == '\U{0C}' || c == '\r' || c == ' '
    || c == '\U{85}' || c == '\U{A0}' || c == '\U{1680}'
    || ('\U{2000}' <= c <= '\U{200A}')
    || c == '\U{2028}' || c == '\U{2029}' || c == '\U{202F}' || c == '\U{205F}' || c == '\U{3000}'
  }

  predicate AllSpace(s: string) {
    forall i :: 0 <= i < |s| ==> IsSpace(s[i])
  }

  /** Neither the first nor the last character is white space. */
  predicate Unpadded(s: string) {
    s == [] || (!IsSpace(s[0]) && !IsSpace(s[|s| - 1]))
  }

  /** The number of white-space characters `s` starts with. */
  function LeadingSpace(s: string): (k: nat)
    ensures k <= |s| && AllSpace(s[..k])
    ensures k < |s| ==> !IsSpace(s[k])
  {
    if |s| > 0 && IsSpace(s[0]) then
      var k := 1 + LeadingSpace(s[1..]);
      assert s[..k] == [s[0]] + s[1..][..k - 1];
      k
    else 0
  }

  /** The number of white-space characters `s` ends with. */
  function TrailingSpace(s: string): (k: nat)
    ensures k <= |s| && AllSpace(s[|s| - k..])
    ensures k < |s| ==> !IsSpace(s[|s| - k - 1])
  {
    if |s| > 0 && IsSpace(s[|s| - 1]) then
      var t := s[..|s| - 1];
      var k := 1 + TrailingSpace(t);
      assert s[|s| - k..] == t[|t| - (k - 1)..] + [s[|s| - 1]];
      k
    else 0
  }

  /**
   * Go's `strings.TrimSpace`: the result is the stretch of `s` left once the
   * white space at both ends is removed, and it is unpadded itself.
   */
  function TrimSpace(s: string): (r: string)
    ensures Unpadded(r)
    ensures var i := LeadingSpace(s);
      i + |r| <= |s| && r == s[i..i + |r|] && AllSpace(s[..i]) && AllSpace(s[i + |r|..])
  {
    var i := LeadingSpace(s);
    var t := s[i..];
    var j := TrailingSpace(t);
    assert s[|s| - j..] == t[|t| - j..];
    var r := s[i..|s| - j];
    assert r != [] ==> r[0] == s[i] && r[|r| - 1] == t[|t| - j - 1];
    r
  }

  lemma {:induction false} LeadingSpaceOf(a: string, m: string)
    requires AllSpace(a)
    requires m == [] || !IsSpace(m[0])
    ensures LeadingSpace(a + m) == |a|
    decreases |a|
  {
    if a == [] {
      assert a + m == m;
    } else {
      assert (a + m)[0] == a[0];
      assert (a + m)[1..] == a[1..] + m;
      LeadingSpaceOf(a[1..], m);
    }
  }

  lemma {:induction false} TrailingSpaceOf(m: string, b: string)
    requires AllSpace(b)
    requires m == [] || !IsSpace(m[|m| - 1])
    ensures TrailingSpace(m + b) == |b|
    decreases |b|
  {
    if b == [] {
      assert m + b == m;
    } else {
      assert (m + b)[|m + b| - 1] == b[|b| - 1];
      assert (m + b)[..|m + b| - 1] == m + b[..|b| - 1];
      TrailingSpaceOf(m, b[..|b| - 1]);
    }
  }

  /**
   * TrimSpace is determined by its meaning: whatever white space surrounds an
   * unpadded text, trimming gives that text back.
   */
  lemma TrimSpaceOfPadded(a: string, m: string, b: string)
    requires AllSpace(a) && AllSpace(b) && Unpadded(m)
    ensures TrimSpace(a + m + b) == m
  {
    var s := a + m + b;
    if m == [] {
      assert s == (a + b) + m;
      LeadingSpaceOf(a + b, m);
      assert s[|s|..] == [];
    } else {
      assert s == a + (m + b);
      LeadingSpaceOf(a, m + b);
      assert s[|a|..] == m + b;
      TrailingSpaceOf(m, b);
      assert s[|a|..|s| - |b|] == m;
    }
  }

  /** Trimming twice is trimming once. */
  lemma TrimSpaceIdempotent(s: string)
    ensures TrimSpace(TrimSpace(s)) == TrimSpace(s)
  {
    var t := TrimSpace(s);
    assert [] + t + [] == t;
    TrimSpaceOfPadded([], t, []);
  }

  /** Go's `strings.ReplaceAll(s, [c], "")`: every `c` removed, everything else kept in order. */
  function StripAll(s: string, c: char): (r: string)
    ensures c !in r
    ensures |r| <= |s|
  {
    if s == [] then [] else (if s[0] == c then [] else [s[0]]) + StripAll(s[1..], c)
  }

  lemma {:induction false} StripAllAppend(a: string, b: string, c: char)
    ensures StripAll(a + b, c) == StripAll(a, c) + StripAll(b, c)
    decreases |a|
  {
    if a == [] {
      assert a + b == b;
    } else {
      var head := if a[0] == c then [] else [a[0]];
      assert (a + b)[0] == a[0];
      assert (a + b)[1..] == a[1..] + b;
      assert StripAll(a + b, c) == head + StripAll(a[1..] + b, c);
      StripAllAppend(a[1..], b, c);
      assert StripAll(a, c) == head + StripAll(a[1..], c);
    }
  }

  /** A text without `c` is left as it is. */
  lemma {:induction false} StripAllAbsent(s: string, c: char)
    requires c !in s
    ensures StripAll(s, c) == s
    decreases |s|
  {
    if s != [] {
      StripAllAbsent(s[1..], c);
    }
  }

  /** Inserting one more `c` anywhere does not change the stripped text. */
  lemma StripAllInsert(a: string, b: string, c: char)
    ensures StripAll(a + [c] + b, c) == StripAll(a + b, c)
  {
    StripAllAppend(a + [c], b, c);
    StripAllAppend(a, [c], c);
    StripAllAppend(a, b, c);
  }

  predicate IsDigit(c: char) {
    '0' <= c <= '9'
  }

  predicate IsLetter(c: char) {
    ('A' <= c <= 'Z') || ('a' <= c <= 'z')
  }

  predicate AllDigits(s: string) {
    forall i :: 0 <= i < |s| ==> IsDigit(s[i])
  }

  predicate AllLetters(s: string) {
    forall i :: 0 <= i < |s| ==> IsLetter(s[i])
  }

  predicate NoDigits(s: string) {
    forall i :: 0 <= i < |s| ==> !IsDigit(s[i])
  }

  /** The position of the first digit of `s`, or `|s|` when it has none. */
  function FirstDigit(s: string): (k: nat)
    ensures k <= |s|
    ensures k < |s| ==> IsDigit(s[k])
    ensures NoDigits(s[..k])
  {
    if s == [] then 0
    else if IsDigit(s[0]) then 0
    else 1 + FirstDigit(s[1..])
  }

  /** The number a string of decimal digits denotes. */
  function DigitsValue(s: string): nat
    requires AllDigits(s)
  {
    if s == [] then 0 else 10 * DigitsValue(s[..|s| - 1]) + (s[|s| - 1] as int - '0' as int)
  }
}
