/**
 * The JavaScript built-ins the components rely on, modelled on exact values:
 * `String(n)` for integers, `Number.prototype.toFixed` (ECMAScript, section 21.1.3.3),
 * `String.prototype.toLowerCase` / `toUpperCase` (ASCII letters only), `trim` and `includes`.
 */
module JsBuiltins {

  // ---------------------------------------------------------------------------
  // Decimal digits
  // ---------------------------------------------------------------------------

  predicate IsDigit(c: char) { '0' <= c <= '9' }

  predicate AllDigits(s: string) { forall i :: 0 <= i < |s| ==> IsDigit(s[i]) }

  function DigitValue(c: char): (d: nat)
    requires IsDigit(c)
    ensures d < 10
  {
    c as int - '0' as int
  }

  function DigitChar(d: nat): (c: char)
    requires d < 10
    ensures IsDigit(c) && DigitValue(c) == d
  {
    ('0' as int + d) as char
  }

  function Pow10(k: nat): (p: nat)
    ensures p >= 1
  {
    if k == 0 then 1 else 10 * Pow10(k - 1)
  }

  /** `String(n)` for a non-negative integer: its decimal digits, without leading zeros. */
  function NatToString(n: nat): (s: string)
    ensures |s| >= 1 && AllDigits(s)
  {
    if n < 10 then [DigitChar(n)] else NatToString(n / 10) + [DigitChar(n % 10)]
  }

  /** Only zero itself is written with a leading zero. */
  lemma {:induction false} NatToStringNoLeadingZero(n: nat)
    ensures NatToString(n)[0] == '0' <==> n == 0
  {
    if n >= 10 {
      NatToStringNoLeadingZero(n / 10);
    }
  }

  /** `String(i)` for any integer: a minus sign before the digits of a negative value. */
  function IntToString(i: int): (s: string)
    ensures |s| >= 1
    ensures s[0] == '-' <==> i < 0
    ensures |Unsigned(s)| >= 1 && AllDigits(Unsigned(s))
    ensures ParseNat(Unsigned(s)) == if i < 0 then -i else i
    ensures Unsigned(s)[0] == '0' ==> i == 0 && Unsigned(s) == "0"
  {
    var digits := NatToString(if i < 0 then -i else i);
    NatToStringRoundTrip(if i < 0 then -i else i);
    NatToStringNoLeadingZero(if i < 0 then -i else i);
    if i < 0 then
      assert ("-" + digits)[1..] == digits;
      "-" + digits
    else digits
  }

  /** The value of a string of decimal digits; leading zeros are allowed and read as zero. */
  function ParseNat(s: string): nat
    requires AllDigits(s)
  {
    if s == [] then 0 else 10 * ParseNat(s[..|s| - 1]) + DigitValue(s[|s| - 1])
  }

  /** Reading back what `NatToString` writes gives the number again. */
  lemma {:induction false} NatToStringRoundTrip(n: nat)
    ensures ParseNat(NatToString(n)) == n
  {
    if n >= 10 {
      var s := NatToString(n);
      assert s[..|s| - 1] == NatToString(n / 10);
      NatToStringRoundTrip(n / 10);
    }
  }

  /** Distinct numbers are rendered as distinct strings. */
  lemma NatToStringInjective(a: nat, b: nat)
    requires NatToString(a) == NatToString(b)
    ensures a == b
  {
    NatToStringRoundTrip(a);
    NatToStringRoundTrip(b);
  }

  /** `k` zero digits. */
  function Zeros(k: nat): (s: string)
    ensures |s| == k && AllDigits(s)
  {
    if k == 0 then [] else "0" + Zeros(k - 1)
  }

  /** A leading zero does not change the value read. */
  lemma {:induction false} ParseLeadingZero(s: string)
    requires AllDigits(s)
    ensures AllDigits("0" + s) && ParseNat("0" + s) == ParseNat(s)
  {
    assert AllDigits("0" + s);
    if s != [] {
      var s' := s[..|s| - 1];
      assert ("0" + s)[..|"0" + s| - 1] == "0" + s';
      ParseLeadingZero(s');
    }
  }

  lemma {:induction false} ParseZerosPrefix(k: nat, s: string)
    requires AllDigits(s)
    ensures AllDigits(Zeros(k) + s) && ParseNat(Zeros(k) + s) == ParseNat(s)
  {
    if k > 0 {
      assert Zeros(k) + s == "0" + (Zeros(k - 1) + s);
      ParseZerosPrefix(k - 1, s);
      ParseLeadingZero(Zeros(k - 1) + s);
    } else {
      assert Zeros(k) + s == s;
    }
  }

  /** Left-pads `s` with zeros to width `w`; the value read is unchanged. */
  function PadZeros(s: string, w: nat): (r: string)
    requires AllDigits(s)
    ensures AllDigits(r) && ParseNat(r) == ParseNat(s)
    ensures |r| >= w && (|s| >= w ==> r == s) && (|s| < w ==> |r| == w)
  {
    if |s| >= w then s
    else
      ParseZerosPrefix(w - |s|, s);
      Zeros(w - |s|) + s
  }

  // ---------------------------------------------------------------------------
  // Number.prototype.toFixed
  // ---------------------------------------------------------------------------

  function Abs(x: real): real { if x < 0.0 then -x else x }

  /** The integer nearest to `r`, the larger one on a tie. */
  function RoundHalfUp(r: real): (n: nat)
    requires r >= 0.0
    ensures n as real - 0.5 <= r < n as real + 0.5
  {
    (r + 0.5).Floor
  }

  /**
   * The digit layout of `toFixed`: the digits of `n`, zero-padded to at least `d + 1` digits,
   * with a point before the last `d` of them (no point when `d == 0`).
   */
  function FixedDigits(n: nat, d: nat): string
  {
    Pointed(PadZeros(NatToString(n), d + 1), d)
  }

  /** The digits `m` with a point before the last `d` of them (no point when `d == 0`). */
  function Pointed(m: string, d: nat): string
    requires |m| >= d
  {
    if d == 0 then m else m[..|m| - d] + "." + m[|m| - d..]
  }

  /**
   * The integer part of a fixed-point body has no leading zero: a body that starts with "0"
   * is "0" alone, or has its point right after that zero.
   */
  predicate NoLeadingZero(body: string)
  {
    |body| >= 1 && body[0] == '0' ==> |body| == 1 || body[1] == '.'
  }

  /** The layout of `toFixed` writes the integer part without leading zeros. */
  lemma FixedDigitsNoLeadingZero(n: nat, d: nat)
    ensures NoLeadingZero(FixedDigits(n, d))
  {
    var t := NatToString(n);
    var m := PadZeros(t, d + 1);
    NatToStringNoLeadingZero(n);
    if n == 0 {
      assert t == "0";
    }
    if m[0] == '0' {
      assert |m| == d + 1;
    }
  }

  /** `s` without a leading minus sign. */
  function Unsigned(s: string): string
  {
    if |s| > 0 && s[0] == '-' then s[1..] else s
  }

  /** The digits of `body` with the point before its last `d` characters taken out. */
  function WithoutPoint(body: string, d: nat): string
    requires |body| >= d + 1
  {
    body[..|body| - d - 1] + body[|body| - d..]
  }

  /** `s` is `[-]digits` when `d == 0`, and `[-]digits.digits` with exactly `d` fraction digits otherwise. */
  predicate FixedForm(s: string, d: nat)
  {
    var body := Unsigned(s);
    if d == 0 then |body| >= 1 && AllDigits(body)
    else |body| >= d + 2 && body[|body| - d - 1] == '.' && AllDigits(WithoutPoint(body, d))
  }

  /** The unsigned value, in units of 10^-d, of a string in `FixedForm`: its digits read without the point. */
  function FixedUnits(s: string, d: nat): nat
    requires FixedForm(s, d)
  {
    if d == 0 then ParseNat(Unsigned(s)) else ParseNat(WithoutPoint(Unsigned(s), d))
  }

  lemma FixedDigitsReadsBack(n: nat, d: nat)
    ensures var s := FixedDigits(n, d);
      && |s| >= 1 && IsDigit(s[0]) && Unsigned(s) == s
      && FixedForm(s, d) && FixedUnits(s, d) == n
  {
    NatToStringRoundTrip(n);
    PointedReadsBack(PadZeros(NatToString(n), d + 1), d);
  }

  /** Digits with a point put in read back as the digits' value. */
  lemma PointedReadsBack(m: string, d: nat)
    requires AllDigits(m) && |m| >= d + 1
    ensures var s := Pointed(m, d);
      && |s| >= 1 && IsDigit(s[0]) && Unsigned(s) == s
      && FixedForm(s, d) && FixedUnits(s, d) == ParseNat(m)
  {
    if d == 0 {
      WholeDigits(m);
    } else {
      PointSplit(m, d);
    }
  }

  /** A non-empty digit string is in `FixedForm` with no decimals and reads back as its value. */
  lemma WholeDigits(m: string)
    requires AllDigits(m) && |m| >= 1
    ensures IsDigit(m[0]) && Unsigned(m) == m && FixedForm(m, 0) && FixedUnits(m, 0) == ParseNat(m)
  {
  }

  /** The three parts of `a + b + c` are found again at their offsets. */
  lemma ConcatParts(a: string, b: string, c: string)
    ensures var s := a + b + c;
      && s[..|a|] == a && s[|a|..|a| + |b|] == b && s[|a| + |b|..] == c
  {
  }

  /** A string is the concatenation of its two halves at any cut. */
  lemma CutJoin(m: string, k: nat)
    requires k <= |m|
    ensures m[..k] + m[k..] == m
  {
  }

  /** Splitting a digit string `d` places from its end with a point keeps its value. */
  lemma PointSplit(m: string, d: nat)
    requires AllDigits(m) && |m| >= d + 1 && d > 0
    ensures var s := m[..|m| - d] + "." + m[|m| - d..];
      && IsDigit(s[0]) && Unsigned(s) == s && FixedForm(s, d) && FixedUnits(s, d) == ParseNat(m)
  {
    var k := |m| - d;
    var s := m[..k] + "." + m[k..];
    ConcatParts(m[..k], ".", m[k..]);
    CutJoin(m, k);
    assert WithoutPoint(s, d) == m;
  }

  /** A minus sign in front of an unsigned `FixedForm` string keeps the form and the units. */
  lemma Negated(digits: string, d: nat)
    requires FixedForm(digits, d) && |digits| >= 1 && IsDigit(digits[0])
    ensures Unsigned("-" + digits) == digits && Unsigned(digits) == digits
    ensures FixedForm("-" + digits, d) && FixedUnits("-" + digits, d) == FixedUnits(digits, d)
  {
    assert ("-" + digits)[1..] == digits;
  }

  /** `x` with the point moved `d` places to the right, one place at a time. */
  function Shift(x: real, d: nat): real
  {
    if d == 0 then x else 10.0 * Shift(x, d - 1)
  }

  /** Moving the point `d` places multiplies by 10^d. */
  lemma {:induction false} ShiftIsPow10(x: real, d: nat)
    ensures Shift(x, d) == x * Pow10(d) as real
  {
    if d > 0 {
      ShiftIsPow10(x, d - 1);
      assert Pow10(d) as real == 10.0 * Pow10(d - 1) as real;
    }
  }

  /** A non-negative value stays non-negative when the point moves. */
  lemma {:induction false} ShiftNonNegative(x: real, d: nat)
    requires x >= 0.0
    ensures Shift(x, d) >= 0.0
  {
    if d > 0 {
      ShiftNonNegative(x, d - 1);
    }
  }

  /** The integer nearest to |x|·10^d, the larger on a tie: the digits `toFixed` writes. */
  function ScaledUnits(x: real, d: nat): (n: nat)
    ensures n as real - 0.5 <= Shift(Abs(x), d) < n as real + 0.5
  {
    ShiftNonNegative(Abs(x), d);
    RoundHalfUp(Shift(Abs(x), d))
  }

  /**
   * `x.toFixed(d)` for |x| < 1e21: a minus sign exactly when `x` is negative, then the integer
   * nearest to |x|·10^d (the larger on a tie) laid out by `FixedDigits`.
   */
  function ToFixed(x: real, d: nat): (s: string)
    ensures |s| >= 1 && FixedForm(s, d)
    ensures s[0] == '-' <==> x < 0.0
    ensures s[0] == '-' || IsDigit(s[0])
    ensures FixedUnits(s, d) == ScaledUnits(x, d)
    ensures NoLeadingZero(Unsigned(s))
  {
    var digits := FixedDigits(ScaledUnits(x, d), d);
    FixedDigitsReadsBack(ScaledUnits(x, d), d);
    FixedDigitsNoLeadingZero(ScaledUnits(x, d), d);
    if x < 0.0 then
      Negated(digits, d);
      "-" + digits
    else digits
  }

  // ---------------------------------------------------------------------------
  // Case mapping (ASCII letters)
  // ---------------------------------------------------------------------------

  function LowerChar(c: char): char
  {
    if 'A' <= c <= 'Z' then (c as int + 32) as char else c
  }

  function UpperChar(c: char): char
  {
    if 'a' <= c <= 'z' then (c as int - 32) as char else c
  }

  /** `s.toLowerCase()`: every letter mapped to lower case, nothing else changed. */
  function ToLower(s: string): (r: string)
    ensures |r| == |s|
    ensures forall i :: 0 <= i < |s| ==> r[i] == LowerChar(s[i])
  {
    if s == [] then [] else [LowerChar(s[0])] + ToLower(s[1..])
  }

  /** `s.toUpperCase()`: every letter mapped to upper case, nothing else changed. */
  function ToUpper(s: string): (r: string)
    ensures |r| == |s|
    ensures forall i :: 0 <= i < |s| ==> r[i] == UpperChar(s[i])
  {
    if s == [] then [] else [UpperChar(s[0])] + ToUpper(s[1..])
  }

  // ---------------------------------------------------------------------------
  // trim
  // ---------------------------------------------------------------------------

  /** The WhiteSpace and LineTerminator code points of ECMAScript, which `trim` removes. */
  const TrimmableCodes: set<int> := {
    0x09, 0x0A, 0x0B, 0x0C, 0x0D, 0x20, 0xA0, 0x1680,
    0x2000, 0x2001, 0x2002, 0x2003, 0x2004, 0x2005, 0x2006, 0x2007, 0x2008, 0x2009, 0x200A,
    0x2028, 0x2029, 0x202F, 0x205F, 0x3000, 0xFEFF}

  predicate IsTrimmable(c: char)
  {
    c as int in TrimmableCodes
  }

  predicate AllTrimmable(s: string) { forall i :: 0 <= i < |s| ==> IsTrimmable(s[i]) }

  /** Every character of `s` at an index in `[lo, hi)` is white space. */
  predicate TrimmableBetween(s: string, lo: int, hi: int)
  {
    forall i :: lo <= i < hi && 0 <= i < |s| ==> IsTrimmable(s[i])
  }

  /** Slicing the suffix `s[k..]` is slicing `s` at offsets shifted by `k`. */
  lemma SliceOfSuffix(s: string, k: nat, j: nat)
    requires k + j <= |s|
    ensures s[k..][..j] == s[k..k + j] && s[k..][j..] == s[k + j..]
  {
  }

  /** `s` without its leading white space. */
  function TrimStart(s: string): (r: string)
    ensures |r| <= |s| && r == s[|s| - |r|..]
    ensures TrimmableBetween(s, 0, |s| - |r|)
    ensures r == [] || !IsTrimmable(r[0])
  {
    if s != [] && IsTrimmable(s[0]) then
      var r := TrimStart(s[1..]);
      SliceOfSuffix(s, 1, |s| - 1 - |r|);
      TrimmableShift(s, 1, 0, |s| - 1 - |r|);
      r
    else s
  }

  /** `s` without its trailing white space. */
  function TrimEnd(s: string): (r: string)
    ensures |r| <= |s| && r == s[..|r|]
    ensures TrimmableBetween(s, |r|, |s|)
    ensures r == [] || !IsTrimmable(r[|r| - 1])
  {
    if s != [] && IsTrimmable(s[|s| - 1]) then
      var r := TrimEnd(s[..|s| - 1]);
      assert s[..|s| - 1][..|r|] == s[..|r|];
      r
    else s
  }

  /** `s.trim()`: the longest slice of `s` that neither starts nor ends with white space. */
  function Trim(s: string): (r: string)
    ensures r == [] || (!IsTrimmable(r[0]) && !IsTrimmable(r[|r| - 1]))
    ensures |s| - |TrimStart(s)| + |r| <= |s|
    ensures TrimmableBetween(s, 0, |s| - |TrimStart(s)|)
    ensures TrimmableBetween(s, |s| - |TrimStart(s)| + |r|, |s|)
  {
    TrimEndOfSuffix(s, |s| - |TrimStart(s)|, TrimEnd(TrimStart(s)));
    TrimEnd(TrimStart(s))
  }

  /** What `trim` keeps is the slice of `s` that starts after the leading white space. */
  lemma TrimIsSlice(s: string)
    ensures var k := |s| - |TrimStart(s)|;
      k + |Trim(s)| <= |s| && Trim(s) == s[k..k + |Trim(s)|]
  {
    TrimEndOfSuffix(s, |s| - |TrimStart(s)|, TrimEnd(TrimStart(s)));
  }

  /** A prefix `r` of the suffix `s[k..]`, with white space after it there, sits in `s` at `k`. */
  lemma TrimEndOfSuffix(s: string, k: nat, r: string)
    requires k <= |s| && |r| <= |s| - k && r == s[k..][..|r|]
    requires TrimmableBetween(s[k..], |r|, |s| - k)
    ensures r == s[k..k + |r|] && TrimmableBetween(s, k + |r|, |s|)
  {
    SliceOfSuffix(s, k, |r|);
    TrimmableShift(s, k, |r|, |s| - k);
  }

  /** White space found in the suffix `s[k..]` is found in `s`, `k` places further on. */
  lemma TrimmableShift(s: string, k: nat, lo: int, hi: int)
    requires k <= |s| && 0 <= lo && TrimmableBetween(s[k..], lo, hi)
    ensures TrimmableBetween(s, k + lo, k + hi)
  {
    forall i | k + lo <= i < k + hi && 0 <= i < |s|
      ensures IsTrimmable(s[i])
    {
      assert s[k..][i - k] == s[i];
    }
  }

  /** A string trims to nothing exactly when it is all white space. */
  lemma TrimEmpty(s: string)
    ensures Trim(s) == [] <==> AllTrimmable(s)
  {
    var k := |s| - |TrimStart(s)|;
    if Trim(s) != [] {
      TrimIsSlice(s);
      assert s[k] == Trim(s)[0];
    }
  }

  // ---------------------------------------------------------------------------
  // includes
  // ---------------------------------------------------------------------------

  predicate OccursAt(hay: string, needle: string, i: int)
  {
    0 <= i && i + |needle| <= |hay| && hay[i..i + |needle|] == needle
  }

  lemma OccursShift(hay: string, needle: string)
    requires |hay| > 0
    ensures forall i :: OccursAt(hay, needle, i) && i >= 1 ==> OccursAt(hay[1..], needle, i - 1)
    ensures forall j :: OccursAt(hay[1..], needle, j) ==> OccursAt(hay, needle, j + 1)
  {
    forall i | OccursAt(hay, needle, i) && i >= 1
      ensures OccursAt(hay[1..], needle, i - 1)
    {
      assert hay[1..][i - 1..i - 1 + |needle|] == hay[i..i + |needle|];
    }
    forall j | OccursAt(hay[1..], needle, j)
      ensures OccursAt(hay, needle, j + 1)
    {
      assert hay[1..][j..j + |needle|] == hay[j + 1..j + 1 + |needle|];
    }
  }

  /** `hay.includes(needle)`: `needle` occurs somewhere in `hay` as a contiguous slice. */
  function Includes(hay: string, needle: string): (r: bool)
    ensures r <==> exists i :: OccursAt(hay, needle, i)
    decreases |hay|
  {
    if |needle| > |hay| then false
    else if hay[..|needle|] == needle then
      assert OccursAt(hay, needle, 0);
      true
    else
      assert !OccursAt(hay, needle, 0);
      OccursShift(hay, needle);
      Includes(hay[1..], needle)
  }
}
