/** String and number helpers that stand for the Python built-ins the bot relies on:
    `str.startswith`, `str.replace(p, "")`, slicing `s[:n]`, `str.strip`, `str.split`,
    `str.lower`, `in` on strings, `int(...)` on strings and on floats, and `str(int)`. */
module Common {

  datatype Option<T> = None | Some(value: T)

  /** A Python argument that the source checks with `isinstance(x, (int, float))`. */
  datatype Numeric = Num(value: real) | NonNumeric

  // ---------------------------------------------------------------- prefixes

  predicate StartsWith(s: string, prefix: string)
  {
    |prefix| <= |s| && s[..|prefix|] == prefix
  }

  /** `pattern in s` for strings. */
  predicate Contains(s: string, pattern: string)
    decreases |s|
  {
    StartsWith(s, pattern) || (|s| > 0 && Contains(s[1..], pattern))
  }

  /** Python `s.replace(pattern, "")`: removes every non-overlapping occurrence,
      scanning from the left. */
  function ReplaceAll(s: string, pattern: string): (r: string)
    requires |pattern| > 0
    ensures |r| <= |s|
    decreases |s|
  {
    if |s| == 0 then ""
    else if StartsWith(s, pattern) then ReplaceAll(s[|pattern|..], pattern)
    else [s[0]] + ReplaceAll(s[1..], pattern)
  }

  /** A string that lacks one of the pattern's characters is left as it is by
      `replace`: no occurrence can start anywhere in it. */
  lemma {:induction false} ReplaceAllUntouched(s: string, pattern: string, k: nat)
    requires k < |pattern|
    requires forall i :: 0 <= i < |s| ==> s[i] != pattern[k]
    ensures ReplaceAll(s, pattern) == s
    decreases |s|
  {
    if |s| > 0 {
      assert !StartsWith(s, pattern) by {
        if |pattern| <= |s| { assert s[k] != pattern[k]; assert s[..|pattern|][k] == s[k]; }
      }
      ReplaceAllUntouched(s[1..], pattern, k);
      assert s == [s[0]] + s[1..];
    }
  }

  /** `replace` removes a leading occurrence and then carries on over the rest. */
  lemma ReplaceAllPrefix(pattern: string, rest: string)
    requires |pattern| > 0
    ensures ReplaceAll(pattern + rest, pattern) == ReplaceAll(rest, pattern)
  {
    var s := pattern + rest;
    assert s[..|pattern|] == pattern;
    assert s[|pattern|..] == rest;
  }

  /** A character that cannot start the pattern is kept, and `replace` carries on
      after it. */
  lemma ReplaceAllKeepsFirst(c: char, rest: string, pattern: string)
    requires |pattern| > 0 && c != pattern[0]
    ensures ReplaceAll([c] + rest, pattern) == [c] + ReplaceAll(rest, pattern)
  {
    var s := [c] + rest;
    assert !StartsWith(s, pattern) by { if |pattern| <= |s| { assert s[..|pattern|][0] == c; } }
    assert s[1..] == rest;
  }

  /** Python `s[:n]` for `n >= 0` (also SQL `LIMIT n` over a result list). */
  function Take<T>(s: seq<T>, n: nat): (r: seq<T>)
    ensures |r| == if |s| <= n then |s| else n
    ensures r == s[..|r|]
  {
    if |s| <= n then s else s[..n]
  }

  /** The elements of `s` in the opposite order. */
  function Reverse<T>(s: seq<T>): (r: seq<T>)
    ensures |r| == |s|
    ensures forall i :: 0 <= i < |s| ==> r[i] == s[|s| - 1 - i]
    decreases |s|
  {
    if |s| == 0 then [] else [s[|s| - 1]] + Reverse(s[..|s| - 1])
  }

  // ---------------------------------------------------------------- characters

  /** The characters for which Python's `str.isspace()` is true, restricted to Latin-1. */
  predicate IsSpace(c: char)
  {
    c == ' ' || c == '\t' || c == '\n' || c == '\r' || c == '\U{000B}' || c == '\U{000C}'
    || ('\U{001C}' <= c <= '\U{001F}') || c == '\U{0085}' || c == '\U{00A0}'
  }

  predicate IsAsciiDigit(c: char) { '0' <= c <= '9' }

  predicate IsAsciiLetter(c: char) { ('a' <= c <= 'z') || ('A' <= c <= 'Z') }

  /** Python `str.lower()` on ASCII letters; every other character is kept. */
  function LowerChar(c: char): (r: char)
    ensures 'A' <= c <= 'Z' ==> 'a' <= r <= 'z'
    ensures !('A' <= c <= 'Z') ==> r == c
  {
    if 'A' <= c <= 'Z' then (c as int - 'A' as int + 'a' as int) as char else c
  }

  function Lower(s: string): (r: string)
    ensures |r| == |s|
    ensures forall i :: 0 <= i < |s| ==> r[i] == LowerChar(s[i])
  {
    seq(|s|, i requires 0 <= i < |s| => LowerChar(s[i]))
  }

  lemma LowerIdempotent(s: string)
    ensures Lower(Lower(s)) == Lower(s)
  {
    assert forall i :: 0 <= i < |s| ==> LowerChar(LowerChar(s[i])) == LowerChar(s[i]);
  }

  // ---------------------------------------------------------------- strip and split

  /** Python `s.strip()`. */
  function Strip(s: string): (r: string)
    ensures |r| <= |s|
    ensures r == [] || (!IsSpace(r[0]) && !IsSpace(r[|r| - 1]))
    decreases |s|
  {
    if |s| == 0 then s
    else if IsSpace(s[0]) then Strip(s[1..])
    else if IsSpace(s[|s| - 1]) then Strip(s[..|s| - 1])
    else s
  }

  lemma StripNoSpace(s: string)
    requires forall i :: 0 <= i < |s| ==> !IsSpace(s[i])
    ensures Strip(s) == s
  {
  }

  /** `len(s.split())`: the number of maximal runs of non-space characters. */
  function WordCount(s: string): (n: nat)
    ensures n <= |s|
    decreases |s|
  {
    if |s| == 0 then 0
    else if IsSpace(s[0]) then WordCount(s[1..])
    else if |s| == 1 || IsSpace(s[1]) then 1 + WordCount(s[1..])
    else WordCount(s[1..])
  }

  /** A string has no words exactly when every character is a space. */
  lemma {:induction false} WordCountZero(s: string)
    ensures WordCount(s) == 0 <==> forall i :: 0 <= i < |s| ==> IsSpace(s[i])
    decreases |s|
  {
    if |s| > 0 {
      WordCountZero(s[1..]);
      assert forall i :: 1 <= i < |s| ==> s[1..][i - 1] == s[i];
      if !IsSpace(s[0]) {
        WordStartCounts(s);
      }
    }
  }

  /** A string that starts with a non-space character has a word. */
  lemma {:induction false} WordStartCounts(s: string)
    requires |s| > 0 && !IsSpace(s[0])
    ensures WordCount(s) > 0
    decreases |s|
  {
    if |s| > 1 && !IsSpace(s[1]) {
      WordStartCounts(s[1..]);
    }
  }

  // ---------------------------------------------------------------- integers

  function DigitChar(d: nat): (c: char)
    requires d < 10
    ensures IsAsciiDigit(c)
  {
    ('0' as int + d) as char
  }

  function DigitValue(c: char): (d: nat)
    requires IsAsciiDigit(c)
    ensures d < 10
  {
    c as int - '0' as int
  }

  /** Decimal digits of a natural number, most significant first, no leading zeros. */
  function NatToDigits(n: nat): (r: string)
    ensures |r| > 0
    ensures forall i :: 0 <= i < |r| ==> IsAsciiDigit(r[i])
    decreases n
  {
    if n < 10 then [DigitChar(n)] else NatToDigits(n / 10) + [DigitChar(n % 10)]
  }

  /** The value of a string of decimal digits. */
  function DigitsValue(s: string): (n: nat)
    requires forall i :: 0 <= i < |s| ==> IsAsciiDigit(s[i])
    decreases |s|
  {
    if |s| == 0 then 0 else DigitsValue(s[..|s| - 1]) * 10 + DigitValue(s[|s| - 1])
  }

  lemma {:induction false} DigitsRoundTrip(n: nat)
    ensures DigitsValue(NatToDigits(n)) == n
    decreases n
  {
    if n >= 10 {
      DigitsRoundTrip(n / 10);
      var r := NatToDigits(n);
      assert r[..|r| - 1] == NatToDigits(n / 10);
    }
  }

  /** Python `str(n)` for an `int`. */
  function IntToString(n: int): (r: string)
    ensures |r| > 0
    ensures forall i :: 0 <= i < |r| ==> IsAsciiDigit(r[i]) || r[i] == '-'
  {
    if n < 0 then "-" + NatToDigits(-n) else NatToDigits(n)
  }

  predicate AllDigits(s: string) { forall i :: 0 <= i < |s| ==> IsAsciiDigit(s[i]) }

  /** Python `int(s)` on a string, restricted to ASCII: surrounding spaces, an optional
      sign and at least one ASCII digit give a value, and every other string gives
      `None`. Python also accepts other Unicode decimal digits and `_` separators, which
      this function reads as `None`. */
  function ParseInt(s: string): (r: Option<int>)
    ensures r.Some? ==> |Strip(s)| > 0
  {
    var t := Strip(s);
    if |t| > 0 && (t[0] == '-' || t[0] == '+') then
      var body := t[1..];
      if |body| > 0 && AllDigits(body) then
        var v: int := DigitsValue(body);
        Some(if t[0] == '-' then -v else v)
      else None
    else if |t| > 0 && AllDigits(t) then Some(DigitsValue(t))
    else None
  }

  /** `int(str(n)) == n`. */
  lemma IntRoundTrip(n: int)
    ensures ParseInt(IntToString(n)) == Some(n)
  {
    var r := IntToString(n);
    IntStringStripped(n);
    if n < 0 {
      assert r[1..] == NatToDigits(-n);
      DigitsRoundTrip(-n);
    } else {
      DigitsRoundTrip(n);
    }
  }

  /** `str(n)` has no surrounding spaces. */
  lemma IntStringStripped(n: int)
    ensures Strip(IntToString(n)) == IntToString(n)
  {
    var r := IntToString(n);
    forall i | 0 <= i < |r| ensures !IsSpace(r[i]) { }
    StripNoSpace(r);
  }

  /** The position of the first `c` in `s`, or `|s|` when there is none. */
  function FindChar(s: string, c: char): (i: nat)
    ensures i <= |s|
    ensures i < |s| ==> s[i] == c
    ensures forall j :: 0 <= j < i ==> s[j] != c
    decreases |s|
  {
    if |s| == 0 then 0 else if s[0] == c then 0 else 1 + FindChar(s[1..], c)
  }

  function Pow10(n: nat): (p: nat)
    ensures p >= 1
  {
    if n == 0 then 1 else 10 * Pow10(n - 1)
  }

  /** Python `float(s)` on a plain decimal literal: surrounding spaces, an optional sign,
      ASCII digits with at most one `.` and at least one digit. Exponents, `inf`, `nan`,
      `_` separators and non-ASCII decimal digits are not accepted here. */
  function ParseDecimal(s: string): (r: Option<real>)
    ensures r.Some? ==> |Strip(s)| > 0
  {
    var t := Strip(s);
    if |t| > 0 && (t[0] == '-' || t[0] == '+') then
      match UnsignedDecimal(t[1..])
      case None => None
      case Some(v) => Some(if t[0] == '-' then -v else v)
    else UnsignedDecimal(t)
  }

  /** Digits with at most one `.`, and at least one digit. */
  function UnsignedDecimal(body: string): (r: Option<real>)
    ensures r.Some? ==> |body| > 0 && r.value >= 0.0
  {
    var dot := FindChar(body, '.');
    var intPart := body[..dot];
    var fracPart := if dot < |body| then body[dot + 1..] else "";
    if AllDigits(intPart) && AllDigits(fracPart) && |intPart| + |fracPart| > 0 then
      Some(DigitsValue(intPart) as real + FractionValue(fracPart))
    else None
  }

  /** The value of the digits after a decimal point. */
  function FractionValue(frac: string): (v: real)
    requires AllDigits(frac)
  {
    if |frac| == 0 then 0.0 else DigitsValue(frac) as real / Pow10(|frac|) as real
  }

  /** A run of digits reads as its value. */
  lemma UnsignedDecimalOfDigits(d: string)
    requires |d| > 0 && AllDigits(d)
    ensures UnsignedDecimal(d) == Some(DigitsValue(d) as real)
  {
    assert FindChar(d, '.') == |d| by {
      forall j | 0 <= j < |d| ensures d[j] != '.' { assert IsAsciiDigit(d[j]); }
    }
    assert d[..|d|] == d;
  }

  /** `float(str(n)) == n` for an integer `n`. */
  lemma DecimalOfInt(n: int)
    ensures ParseDecimal(IntToString(n)) == Some(n as real)
  {
    var r := IntToString(n);
    IntStringStripped(n);
    var m: nat := if n < 0 then -n else n;
    var d := NatToDigits(m);
    UnsignedDecimalOfDigits(d);
    DigitsRoundTrip(m);
    assert UnsignedDecimal(d) == Some(m as real);
    if n < 0 {
      assert r[1..] == d;
    }
  }

  /** Python `int(x)` on a float: truncation toward zero. */
  function Trunc(x: real): (r: int)
    ensures x >= 0.0 ==> r as real <= x < r as real + 1.0
    ensures x < 0.0 ==> r as real - 1.0 < x <= r as real
  {
    if x >= 0.0 then x.Floor else -((-x).Floor)
  }

  function Abs(x: real): (r: real)
    ensures r >= 0.0 && (r == x || r == -x)
  {
    if x < 0.0 then -x else x
  }
}
