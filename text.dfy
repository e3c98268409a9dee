/**
 * Character and string rules that mqtt_demo.js gets from JavaScript built-ins:
 * decimal digits, `String.prototype.startsWith`, `slice(0, n)` and
 * `replace(c, d)` with a one-character pattern.
 */
module Text {

  import opened Options

  predicate IsDigit(c: char) { '0' <= c <= '9' }

  predicate AllDigits(s: string) { forall i :: 0 <= i < |s| ==> IsDigit(s[i]) }

  function DigitValue(c: char): nat
    requires IsDigit(c)
  {
    c as int - '0' as int
  }

  function DigitChar(d: nat): (c: char)
    requires d < 10
    ensures IsDigit(c) && DigitValue(c) == d
  {
    ('0' as int + d) as char
  }

  /** The number a string of decimal digits denotes, most significant digit first. */
  function DigitsValue(s: string): nat
    requires AllDigits(s)
  {
    if s == [] then 0 else DigitsValue(s[..|s| - 1]) * 10 + DigitValue(s[|s| - 1])
  }

  function Pow10(k: nat): (p: nat)
    ensures p > 0
  {
    if k == 0 then 1 else 10 * Pow10(k - 1)
  }

  /** Appending one digit multiplies the value by ten and adds the digit. */
  lemma DigitsValueSnoc(s: string, c: char)
    requires AllDigits(s) && IsDigit(c)
    ensures AllDigits(s + [c]) && DigitsValue(s + [c]) == DigitsValue(s) * 10 + DigitValue(c)
  {
    assert (s + [c])[..|s|] == s;
  }

  /**
   * `n` written with exactly `width` decimal digits, zero-padded on the left
   * (the fixed-width fields of an ISO 8601 time string).
   */
  function PadDigits(n: nat, width: nat): (r: string)
    requires n < Pow10(width)
    ensures |r| == width && AllDigits(r) && DigitsValue(r) == n
  {
    if width == 0 then ""
    else
      var high := PadDigits(n / 10, width - 1);
      DigitsValueSnoc(high, DigitChar(n % 10));
      high + [DigitChar(n % 10)]
  }

  /**
   * The decimal text of a non-negative integer, as `Number.prototype.toString`
   * writes integers below 10^21 (above that it switches to exponent form).
   * The payload uses it only for the readings 22 and 50.
   */
  function NatText(n: nat): (r: string)
    ensures |r| >= 1 && AllDigits(r) && DigitsValue(r) == n
    ensures r[0] == '0' ==> n == 0
  {
    if n < 10 then [DigitChar(n)]
    else
      var high := NatText(n / 10);
      DigitsValueSnoc(high, DigitChar(n % 10));
      high + [DigitChar(n % 10)]
  }

  /** The decimal text of an integer: a minus sign before the magnitude when negative. */
  function IntText(i: int): string
  {
    if i < 0 then "-" + NatText(-i) else NatText(i)
  }

  /** The length of the longest run of digits that `s` starts with. */
  function DigitRun(s: string): (n: nat)
    ensures n <= |s| && AllDigits(s[..n])
    ensures n < |s| ==> !IsDigit(s[n])
  {
    if s == [] || !IsDigit(s[0]) then 0
    else
      var n := 1 + DigitRun(s[1..]);
      assert s[..n] == [s[0]] + s[1..][..n - 1];
      n
  }

  lemma {:induction false} DigitRunOfAppend(digits: string, rest: string)
    requires AllDigits(digits)
    requires rest == [] || !IsDigit(rest[0])
    ensures DigitRun(digits + rest) == |digits|
  {
    if digits != [] {
      assert (digits + rest)[1..] == digits[1..] + rest;
      DigitRunOfAppend(digits[1..], rest);
    }
  }

  /** Reads an optionally negative decimal integer off the front of `s`; gives it and the rest. */
  function ParseInt(s: string): (r: Option<(int, string)>)
  {
    var negative := |s| > 0 && s[0] == '-';
    var body := if negative then s[1..] else s;
    var n := DigitRun(body);
    if n == 0 then None
    else
      var magnitude: int := DigitsValue(body[..n]);
      Some((if negative then -magnitude else magnitude, body[n..]))
  }

  /** Reading back the text of an integer gives the integer and leaves what followed it. */
  lemma ParseIntText(i: int, rest: string)
    requires rest == [] || !IsDigit(rest[0])
    ensures ParseInt(IntText(i) + rest) == Some((i, rest))
  {
    var digits := NatText(if i < 0 then -i else i);
    var s := IntText(i) + rest;
    if i < 0 {
      assert s == "-" + (digits + rest);
      assert s[1..] == digits + rest;
    } else {
      assert s == digits + rest;
      assert IsDigit(s[0]);
    }
    DigitRunOfAppend(digits, rest);
    assert (digits + rest)[..|digits|] == digits;
    assert (digits + rest)[|digits|..] == rest;
  }

  /** JavaScript's `s.startsWith(prefix)`. */
  predicate StartsWith(s: string, prefix: string)
  {
    |prefix| <= |s| && s[..|prefix|] == prefix
  }

  /** JavaScript's `s.slice(0, n)` for `n >= 0`: the first `n` characters, or all of a shorter `s`. */
  function Take(s: string, n: nat): (r: string)
    ensures |r| == if |s| < n then |s| else n
    ensures forall i :: 0 <= i < |r| ==> r[i] == s[i]
  {
    if |s| <= n then s else s[..n]
  }

  /** JavaScript's `s.replace(a, b)` with one-character string arguments: only the first `a` changes. */
  function ReplaceFirst(s: string, a: char, b: char): (r: string)
    ensures |r| == |s|
    ensures forall i :: 0 <= i < |s| ==> r[i] == if s[i] == a && a !in s[..i] then b else s[i]
  {
    if s == [] then []
    else if s[0] == a then [b] + s[1..]
    else
      var tail := ReplaceFirst(s[1..], a, b);
      ReplaceFirstStep(s, a, b, tail);
      [s[0]] + tail
  }

  /** Past a first character other than `a`, the replacement is the one in the rest. */
  lemma ReplaceFirstStep(s: string, a: char, b: char, tail: string)
    requires s != [] && s[0] != a && |tail| == |s| - 1
    requires forall j :: 0 <= j < |tail| ==> tail[j] == if s[1..][j] == a && a !in s[1..][..j] then b else s[1..][j]
    ensures forall i :: 0 <= i < |s| ==> ([s[0]] + tail)[i] == if s[i] == a && a !in s[..i] then b else s[i]
  {
    forall i | 0 <= i < |s|
      ensures ([s[0]] + tail)[i] == if s[i] == a && a !in s[..i] then b else s[i]
    {
      if i > 0 {
        assert s[..i] == [s[0]] + s[1..][..i - 1];
        assert ([s[0]] + tail)[i] == tail[i - 1];
      }
    }
  }

  /** When the first `a` stands right after `before`, that one character is replaced. */
  lemma {:induction false} ReplaceFirstAt(before: string, a: char, b: char, after: string)
    requires a !in before
    ensures ReplaceFirst(before + [a] + after, a, b) == before + [b] + after
  {
    if before != [] {
      assert (before + [a] + after)[1..] == before[1..] + [a] + after;
      ReplaceFirstAt(before[1..], a, b, after);
    }
  }
}
