/** The parts of Go's `strings` package and of `fmt`'s `%d` verb that the core relies on. */
module Strings {

  /** Go's `unicode.IsSpace`: the white-space characters `strings.TrimSpace` removes. */
  predicate IsSpace(c: char) {
    c == ' ' || c == '\t' || c == '\n' || c == '\r' || c == '\U{B}' || c == '\U{C}'
    || c == '\U{85}' || c == '\U{A0}' || c == '\U{1680}' || ('\U{2000}' <= c <= '\U{200A}')
    || c == '\U{2028}' || c == '\U{2029}' || c == '\U{202F}' || c == '\U{205F}' || c == '\U{3000}'
  }

  /** Neither the first nor the last character is white space. */
  predicate Trimmed(s: string) {
    |s| == 0 || (!IsSpace(s[0]) && !IsSpace(s[|s| - 1]))
  }

  /** The number of white-space characters at the start of `s`. */
  function LeadingSpace(s: string): (k: nat)
    ensures k <= |s|
    ensures k < |s| ==> !IsSpace(s[k])
  {
    if |s| > 0 && IsSpace(s[0]) then 1 + LeadingSpace(s[1..]) else 0
  }

  /** Everything `LeadingSpace` counts is white space. */
  lemma {:induction false} LeadingSpaceAll(s: string)
    ensures forall j :: 0 <= j < LeadingSpace(s) ==> IsSpace(s[j])
  {
    if |s| > 0 && IsSpace(s[0]) {
      LeadingSpaceAll(s[1..]);
      assert forall j :: 1 <= j < LeadingSpace(s) ==> s[j] == s[1..][j - 1];
    }
  }

  /** The number of white-space characters at the end of `s`. */
  function TrailingSpace(s: string): (k: nat)
    ensures k <= |s|
    ensures k < |s| ==> !IsSpace(s[|s| - 1 - k])
  {
    if |s| > 0 && IsSpace(s[|s| - 1]) then 1 + TrailingSpace(s[..|s| - 1]) else 0
  }

  /** Everything `TrailingSpace` counts is white space. */
  lemma {:induction false} TrailingSpaceAll(s: string)
    ensures forall j :: |s| - TrailingSpace(s) <= j < |s| ==> IsSpace(s[j])
  {
    if |s| > 0 && IsSpace(s[|s| - 1]) {
      var init := s[..|s| - 1];
      TrailingSpaceAll(init);
      assert forall j :: |s| - TrailingSpace(s) <= j < |s| - 1 ==> s[j] == init[j];
    }
  }

  /** Go's `strings.TrimSpace`: `s` without its leading and trailing white space. */
  function TrimSpace(s: string): (r: string)
    ensures Trimmed(r)
    ensures Trimmed(s) ==> r == s
  {
    var i := LeadingSpace(s);
    var t := s[i..];
    var j := |s| - TrailingSpace(t);
    assert i < j ==> s[j - 1] == t[|t| - 1 - TrailingSpace(t)];
    TrimWindowTrimmed(s, i, j);
    TrimWindowWhole(s, i, j);
    s[i..j]
  }

  /** `TrimSpace` removes white space only: what it drops from either end is all white space. */
  lemma TrimSpaceRemovesOnlySpace(s: string)
    ensures exists i, j ::
              && 0 <= i <= j <= |s| && TrimSpace(s) == s[i..j]
              && (forall k :: 0 <= k < i ==> IsSpace(s[k]))
              && (forall k :: j <= k < |s| ==> IsSpace(s[k]))
  {
    var i := LeadingSpace(s);
    var t := s[i..];
    var j := |s| - TrailingSpace(t);
    LeadingSpaceAll(s);
    TrailingWindow(s, i, t);
    assert TrimSpace(s) == s[i..j];
  }

  /** A window whose end characters are not white space is trimmed. */
  lemma TrimWindowTrimmed(s: string, i: int, j: int)
    requires 0 <= i <= j <= |s|
    requires i < j ==> !IsSpace(s[i]) && !IsSpace(s[j - 1])
    ensures Trimmed(s[i..j])
  {
    if i < j {
      var w := s[i..j];
      assert w[0] == s[i] && w[|w| - 1] == s[j - 1];
    }
  }

  /** Everything after the window is white space. */
  lemma TrailingWindow(s: string, i: nat, t: string)
    requires i <= |s| && t == s[i..]
    ensures forall k :: |s| - TrailingSpace(t) <= k < |s| ==> IsSpace(s[k])
  {
    TrailingSpaceAll(t);
    var n := TrailingSpace(t);
    assert forall k :: |s| - n <= k < |s| ==> s[k] == t[k - i];
  }

  /** A trimmed string is its own window. */
  lemma TrimWindowWhole(s: string, i: nat, j: int)
    requires i == LeadingSpace(s) && j == |s| - TrailingSpace(s[i..])
    ensures Trimmed(s) ==> i == 0 && j == |s|
  {
    if Trimmed(s) && |s| > 0 {
      assert LeadingSpace(s) == 0;
      assert s[i..] == s;
    }
  }

  predicate HasPrefix(s: string, prefix: string) {
    |prefix| <= |s| && s[..|prefix|] == prefix
  }

  predicate HasSuffix(s: string, suffix: string) {
    |suffix| <= |s| && s[|s| - |suffix|..] == suffix
  }

  /** Go's `strings.TrimPrefix`: removes `prefix` once if `s` starts with it. */
  function TrimPrefix(s: string, prefix: string): (r: string)
    ensures HasPrefix(s, prefix) ==> prefix + r == s
    ensures !HasPrefix(s, prefix) ==> r == s
  {
    if HasPrefix(s, prefix) then s[|prefix|..] else s
  }

  /** Go's `strings.TrimSuffix`: removes `suffix` once if `s` ends with it. */
  function TrimSuffix(s: string, suffix: string): (r: string)
    ensures HasSuffix(s, suffix) ==> r + suffix == s
    ensures !HasSuffix(s, suffix) ==> r == s
  {
    if HasSuffix(s, suffix) then s[..|s| - |suffix|] else s
  }

  /** Go's `strings.Contains`: `sub` occurs in `s` (the empty string occurs in every string). */
  predicate Contains(s: string, sub: string) {
    exists i :: 0 <= i <= |s| - |sub| && OccursAt(s, sub, i)
  }

  /** `sub` occurs in `s` starting at index `i`. */
  predicate OccursAt(s: string, sub: string, i: int)
    requires 0 <= i <= |s| - |sub|
  {
    s[i..i + |sub|] == sub
  }

  /** Go's `strings.Join`. */
  function Join(parts: seq<string>, sep: string): string
    decreases |parts|
  {
    if |parts| == 0 then ""
    else if |parts| == 1 then parts[0]
    else parts[0] + sep + Join(parts[1..], sep)
  }

  /**
   * Go's `strings.Split` with a one-character separator: the maximal separator-free pieces
   * of `s`, which joined back with the separator give `s` again.
   */
  function Split(s: string, sep: char): (parts: seq<string>)
    ensures |parts| >= 1
    ensures forall k :: 0 <= k < |parts| ==> sep !in parts[k]
    ensures Join(parts, [sep]) == s
    decreases |s|
  {
    if |s| == 0 then [""]
    else
      var rest := Split(s[1..], sep);
      if s[0] == sep then
        assert ([""] + rest)[1..] == rest;
        [""] + rest
      else
        var parts := [[s[0]] + rest[0]] + rest[1..];
        assert parts[1..] == rest[1..];
        assert |rest| > 1 ==> Join(rest, [sep]) == rest[0] + [sep] + Join(rest[1..], [sep]);
        parts
  }

  /** The first piece of a split is the text before the first separator (all of `s` if there is none). */
  lemma SplitFirst(s: string, sep: char)
    ensures HasPrefix(s, Split(s, sep)[0])
    ensures |Split(s, sep)[0]| == |s| <==> sep !in s
    ensures |Split(s, sep)[0]| < |s| ==> s[|Split(s, sep)[0]|] == sep
  {
    var parts := Split(s, sep);
    if |parts| > 1 {
      assert s == parts[0] + [sep] + Join(parts[1..], [sep]);
      assert s[|parts[0]|] == sep;
    } else {
      assert s == parts[0];
    }
  }

  function DigitChar(d: nat): (c: char)
    requires d < 10
    ensures '0' <= c <= '9'
  {
    ('0' as int + d) as char
  }

  /** `fmt`'s `%d` for a non-negative integer: its decimal digits, most significant first. */
  function NatToString(n: nat): (r: string)
    ensures |r| >= 1
    ensures forall k :: 0 <= k < |r| ==> '0' <= r[k] <= '9'
  {
    if n < 10 then [DigitChar(n)] else NatToString(n / 10) + [DigitChar(n % 10)]
  }

  /** `fmt`'s `%d`: a minus sign before the digits of a negative number. */
  function IntToString(i: int): (r: string)
    ensures |r| >= 1
    ensures i < 0 <==> r[0] == '-'
  {
    if i < 0 then "-" + NatToString(-i) else NatToString(i)
  }

  /** The number a string of decimal digits denotes. */
  function DigitsValue(s: string): nat
    requires forall k :: 0 <= k < |s| ==> '0' <= s[k] <= '9'
  {
    if |s| == 0 then 0 else 10 * DigitsValue(s[..|s| - 1]) + (s[|s| - 1] as int - '0' as int)
  }

  /** Printing a number in decimal and reading the digits back gives the number. */
  lemma {:induction false} NatToStringRoundTrip(n: nat)
    ensures DigitsValue(NatToString(n)) == n
  {
    if n >= 10 {
      NatToStringRoundTrip(n / 10);
      var s := NatToString(n);
      assert s[..|s| - 1] == NatToString(n / 10);
    }
  }
}
