/** A value that may be absent: JavaScript's `undefined` or `null`. */
module Wrappers {

  datatype Option<+T> = None | Some(value: T) {

    /** The value, or `default` when absent. */
    function GetOr(default: T): T {
      if Some? then value else default
    }
  }
}

/**
  The parts of JavaScript's String API that the components use, over
  ASCII: `trim`, `toLowerCase`, `includes`, `endsWith`.
 */
module Text {
  import opened Wrappers

  /** The characters `String.prototype.trim` strips, restricted to ASCII. */
  predicate IsSpace(c: char) {
    c == ' ' || c == '\t' || c == '\n' || c == '\r' || c == '\U{B}' || c == '\U{C}'
  }

  /** Every character of `s` is white space (the empty string included). */
  predicate IsBlank(s: string) {
    forall i :: 0 <= i < |s| ==> IsSpace(s[i])
  }

  /** `s` without its leading white space: a suffix of `s`. */
  function TrimStart(s: string): (r: string)
    ensures |r| <= |s| && r == s[|s| - |r|..]
    ensures forall i :: 0 <= i < |s| - |r| ==> IsSpace(s[i])
    ensures r != [] ==> !IsSpace(r[0])
  {
    if s != [] && IsSpace(s[0]) then TrimStart(s[1..]) else s
  }

  /** `s` without its trailing white space: a prefix of `s`. */
  function TrimEnd(s: string): (r: string)
    ensures |r| <= |s| && r == s[..|r|]
    ensures forall i :: |r| <= i < |s| ==> IsSpace(s[i])
    ensures r != [] ==> !IsSpace(r[|r| - 1])
  {
    if s != [] && IsSpace(s[|s| - 1]) then TrimEnd(s[..|s| - 1]) else s
  }

  /**
    `s.trim()`: the part of `s` between a blank prefix of length `k` and a
    blank suffix, and it neither starts nor ends with white space, so
    nothing but the white space at the two ends is removed.
   */
  function Trim(s: string): (r: string)
    ensures |r| <= |s|
    ensures r != [] ==> !IsSpace(r[0]) && !IsSpace(r[|r| - 1])
    ensures var k := |s| - |TrimStart(s)|;
            && k + |r| <= |s| && r == s[k..k + |r|]
            && IsBlank(s[..k]) && IsBlank(s[k + |r|..])
  {
    TrimIsSlice(s);
    TrimDropsBlankPrefix(s);
    TrimDropsBlankSuffix(s);
    TrimEnd(TrimStart(s))
  }

  /** The trimmed string is a slice of `s`. */
  lemma TrimIsSlice(s: string)
    ensures var t := TrimStart(s);
            var r := TrimEnd(t);
            var k := |s| - |t|;
            k + |r| <= |s| && r == s[k..k + |r|]
  {
  }

  /** What `trim` drops in front is white space. */
  lemma TrimDropsBlankPrefix(s: string)
    ensures var k := |s| - |TrimStart(s)|;
            IsBlank(s[..k])
  {
  }

  /** What `trim` drops at the end is white space. */
  lemma TrimDropsBlankSuffix(s: string)
    ensures var t := TrimStart(s);
            var r := TrimEnd(t);
            var k := |s| - |t|;
            k + |r| <= |s| && IsBlank(s[k + |r|..])
  {
    var t := TrimStart(s);
    var r := TrimEnd(t);
    var u := s[|s| - |t| + |r|..];
    forall i | 0 <= i < |u|
      ensures IsSpace(u[i])
    {
      assert u[i] == t[|r| + i];
    }
  }

  /** `!s.trim()` holds exactly of the strings made of white space only. */
  lemma {:induction false} TrimEmptyIffBlank(s: string)
    ensures Trim(s) == [] <==> IsBlank(s)
  {
  }

  /** ASCII `toLowerCase` of one character. */
  function LowerChar(c: char): char {
    if 'A' <= c <= 'Z' then (c as int + 32) as char else c
  }

  /** `s.toLowerCase()` over ASCII. */
  function Lower(s: string): (r: string)
    ensures |r| == |s|
    ensures forall i :: 0 <= i < |s| ==> r[i] == LowerChar(s[i])
  {
    if s == [] then [] else [LowerChar(s[0])] + Lower(s[1..])
  }

  /** `sub` occurs in `s` starting at position `i`. */
  predicate OccursAt(s: string, sub: string, i: int) {
    0 <= i && i + |sub| <= |s| && s[i..i + |sub|] == sub
  }

  /** `s.includes(sub)`: true exactly when `sub` occurs somewhere in `s`. */
  predicate Contains(s: string, sub: string)
    ensures Contains(s, sub) <==> exists i :: OccursAt(s, sub, i)
  {
    if sub <= s then
      assert OccursAt(s, sub, 0);
      true
    else if s == [] then
      assert forall i :: !OccursAt(s, sub, i);
      false
    else
      assert forall i :: OccursAt(s[1..], sub, i) <==> OccursAt(s, sub, i + 1);
      assert forall i :: OccursAt(s, sub, i) ==> i > 0 && OccursAt(s[1..], sub, i - 1);
      Contains(s[1..], sub)
  }

  /** `x || fallback` for a possibly missing string: the empty string is falsy. */
  function Or(x: Option<string>, fallback: string): (r: string)
    ensures r == fallback || (x.Some? && r == x.value && r != "")
    ensures x.Some? && x.value != "" ==> r == x.value
  {
    if x.Some? && x.value != "" then x.value else fallback
  }

  /** `s.endsWith(suffix)`. */
  predicate EndsWith(s: string, suffix: string) {
    |suffix| <= |s| && s[|s| - |suffix|..] == suffix
  }
}

/** Integer arithmetic that the components do in floating point. */
module Numbers {

  /**
    `Math.round(n / d)` for a positive divisor, in exact integers: the
    nearest integer to n/d, a half rounded up.
   */
  function RoundHalfUp(n: int, d: int): (r: int)
    requires d > 0
    ensures d * (2 * r - 1) <= 2 * n < d * (2 * r + 1)
  {
    var q := (2 * n + d) / (2 * d);
    DivisionBounds(2 * n + d, 2 * d);
    q
  }

  lemma DivisionBounds(m: int, d: int)
    requires d > 0
    ensures d * (m / d) <= m < d * (m / d) + d
  {
  }

  predicate IsDigit(c: char) {
    '0' <= c <= '9'
  }

  function DigitChar(d: int): (c: char)
    requires 0 <= d < 10
    ensures IsDigit(c) && c as int - '0' as int == d
  {
    ('0' as int + d) as char
  }

  /** The number a string of decimal digits denotes. */
  function DigitsValue(s: string): int
    requires forall i :: 0 <= i < |s| ==> IsDigit(s[i])
  {
    if s == [] then 0
    else 10 * DigitsValue(s[..|s| - 1]) + (s[|s| - 1] as int - '0' as int)
  }

  /** `String(n)` for a natural number: its shortest decimal digits. */
  function NatToString(n: nat): (s: string)
    ensures s != [] && forall i :: 0 <= i < |s| ==> IsDigit(s[i])
    ensures DigitsValue(s) == n
    ensures s[0] == '0' ==> s == "0"
  {
    if n < 10 then [DigitChar(n)]
    else
      var s := NatToString(n / 10) + [DigitChar(n % 10)];
      assert s[..|s| - 1] == NatToString(n / 10);
      s
  }

  /** `String(i)` for an integer, with a leading '-' when negative. */
  function IntToString(i: int): (s: string)
    ensures s != [] && (s[0] == '-' <==> i < 0)
    ensures i >= 0 ==> s == NatToString(i)
    ensures i < 0 ==> s[1..] == NatToString(-i)
  {
    if i < 0 then "-" + NatToString(-i) else NatToString(i)
  }
}
