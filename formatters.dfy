/**
 * The display formatters the pages and the market panel share: `formatNumber`,
 * `formatLargeNumber`, `formatBillion`, `formatPercent` / `formatPercentage`, the change chip
 * with its sign rule, and `getIndexName`. Each file of the front end carries its own copy of
 * the helpers it uses; the copies are identical, so each is defined here once.
 * A missing value (`null` or `undefined`) is `None`; a present one is an exact `real`.
 */
module Formatters {
  import opened Wrappers
  import opened JsBuiltins

  /** What every formatter shows for a missing value. */
  const NotAvailable := "N/A"

  /** A fixed-point rendering, followed by anything, is never the text "N/A": it starts with a minus sign or a digit. */
  lemma FixedIsNotNotAvailable(x: real, d: nat, rest: string)
    ensures ToFixed(x, d) + rest != NotAvailable
  {
    var t := ToFixed(x, d);
    assert (t + rest)[0] == t[0];
    assert NotAvailable[0] == 'N';
  }

  // ---------------------------------------------------------------------------
  // formatNumber
  // ---------------------------------------------------------------------------

  /**
   * `formatNumber(num, decimals)`: "N/A" exactly for a missing value; otherwise the value
   * rounded to `decimals` fraction digits, signed like the value.
   */
  function FormatNumber(num: Option<real>, decimals: nat): (s: string)
    ensures s == NotAvailable <==> num.None?
    ensures num.Some? ==> FixedForm(s, decimals) && (s[0] == '-' <==> num.value < 0.0)
    ensures num.Some? ==> FixedUnits(s, decimals) == ScaledUnits(num.value, decimals)
    ensures num.Some? ==> NoLeadingZero(Unsigned(s))
  {
    match num
    case None => NotAvailable
    case Some(x) =>
      FixedIsNotNotAvailable(x, decimals, "");
      assert ToFixed(x, decimals) + "" == ToFixed(x, decimals);
      ToFixed(x, decimals)
  }

  // ---------------------------------------------------------------------------
  // formatLargeNumber
  // ---------------------------------------------------------------------------

  /** The scales `formatLargeNumber` can pick, smallest first. */
  datatype Magnitude = Units | Thousands | Millions | Billions | Trillions
  {
    function Rank(): nat
    {
      match this
      case Units => 0
      case Thousands => 1
      case Millions => 2
      case Billions => 3
      case Trillions => 4
    }

    /** The power of ten the value is divided by, which is also the least value shown at this scale. */
    function Divisor(): (d: real)
      ensures d >= 1.0
    {
      match this
      case Units => 1.0
      case Thousands => 1000.0
      case Millions => 1000000.0
      case Billions => 1000000000.0
      case Trillions => 1000000000000.0
    }

    function Suffix(): string
    {
      match this
      case Units => ""
      case Thousands => "K"
      case Millions => "M"
      case Billions => "B"
      case Trillions => "T"
    }
  }

  /**
   * `m` is the scale for `n`: the largest of K, M, B, T whose threshold `n` reaches,
   * or no scale at all when `n` reaches none of them (which includes every negative value).
   */
  predicate IsMagnitudeOf(m: Magnitude, n: real)
  {
    && (m == Units || m.Divisor() <= n)
    && forall k: Magnitude :: k.Rank() > m.Rank() ==> n < k.Divisor()
  }

  /** `n` expressed in units of the scale `m`. */
  function InScale(n: real, m: Magnitude): real
  {
    n / m.Divisor()
  }

  /** Every value has exactly one scale. */
  lemma MagnitudeUnique(m1: Magnitude, m2: Magnitude, n: real)
    requires IsMagnitudeOf(m1, n) && IsMagnitudeOf(m2, n)
    ensures m1 == m2
  {
    assert m1.Rank() < m2.Rank() ==> n < m2.Divisor();
    assert m2.Rank() < m1.Rank() ==> n < m1.Divisor();
  }

  /**
   * The scale `formatLargeNumber` picks: the thresholds 1e12, 1e9, 1e6 and 1e3 are tested in
   * that order and the first one the value reaches wins. That is the largest scale it reaches.
   */
  function ScaleOf(n: real): (m: Magnitude)
    ensures IsMagnitudeOf(m, n)
  {
    if n >= 1000000000000.0 then Trillions
    else if n >= 1000000000.0 then Billions
    else if n >= 1000000.0 then Millions
    else if n >= 1000.0 then Thousands
    else Units
  }

  /**
   * `formatLargeNumber(num)`: "N/A" for a missing value; otherwise "$", the value divided by
   * its scale's divisor and rounded to two places, then the scale's letter.
   */
  function FormatLargeNumber(num: Option<real>): (s: string)
    ensures s == NotAvailable <==> num.None?
    ensures num.Some? ==> |s| >= 2 && s[0] == '$'
  {
    match num
    case None => NotAvailable
    case Some(n) =>
      var m := ScaleOf(n);
      "$" + ToFixed(InScale(n, m), 2) + m.Suffix()
  }

  /** Whichever way the scale of a value is characterised, the rendering divides by it and appends its letter. */
  lemma FormatLargeNumberScale(n: real, m: Magnitude)
    requires IsMagnitudeOf(m, n)
    ensures FormatLargeNumber(Some(n)) == "$" + ToFixed(InScale(n, m), 2) + m.Suffix()
    ensures m == Units ==> FormatLargeNumber(Some(n)) == "$" + ToFixed(n, 2)
  {
    MagnitudeUnique(m, ScaleOf(n), n);
    if m == Units {
      assert InScale(n, m) == n;
      assert "$" + ToFixed(n, 2) + "" == "$" + ToFixed(n, 2);
    }
  }

  /**
   * The exact quotient n / divisor, before rounding, lies in [1, 1000) at the K, M and B
   * scales and is at least 1 at the T scale; without a letter the value itself is below 1000.
   * What is shown is that quotient rounded to two places, so at K, M and B the figure runs
   * from 1.00 up to and including 1000.00: the units `toFixed` writes lie in [100, 100000].
   */
  lemma ScaledValueRange(n: real, m: Magnitude)
    requires IsMagnitudeOf(m, n)
    ensures m == Units ==> n < 1000.0
    ensures m != Units ==> 1.0 <= InScale(n, m)
    ensures m != Units && m != Trillions ==> InScale(n, m) < 1000.0
    ensures m != Units && m != Trillions ==> 100 <= ScaledUnits(InScale(n, m), 2) <= 100000
  {
    if m != Units {
      var q := InScale(n, m);
      assert Shift(Abs(q), 1) == 10.0 * Abs(q);
      assert Shift(Abs(q), 2) == 100.0 * Abs(q);
    }
    match m
    case Units =>
      assert Thousands.Rank() > m.Rank();
    case Thousands =>
      assert Millions.Rank() > m.Rank();
    case Millions =>
      assert Billions.Rank() > m.Rank();
    case Billions =>
      assert Trillions.Rank() > m.Rank();
    case Trillions =>
  }

  /**
   * Just below a threshold the rounded figure reaches the next scale's 1000: 999999 is in the
   * thousands band, and 999.999 rounded to two places is 1000.00.
   */
  lemma ThousandBelowNextScale()
    ensures FormatLargeNumber(Some(999999.0)) == "$" + ToFixed(999.999, 2) + "K"
    ensures ScaledUnits(999.999, 2) == 100000 && ToFixed(999.999, 2) == "1000.00"
  {
    assert IsMagnitudeOf(Thousands, 999999.0);
    FormatLargeNumberScale(999999.0, Thousands);
    assert InScale(999999.0, Thousands) == 999.999;
    assert Shift(999.999, 1) == 9999.99;
    assert Shift(999.999, 2) == 99999.9;
    ThousandLayout();
  }

  /** 100000 hundredths are laid out as "1000.00". */
  lemma ThousandLayout()
    ensures FixedDigits(100000, 2) == "1000.00"
  {
    assert NatToString(10) == "10";
    assert NatToString(1000) == "1000";
    assert NatToString(100000) == "100000";
    assert "100000"[..4] == "1000" && "100000"[4..] == "00";
  }

  // ---------------------------------------------------------------------------
  // formatBillion
  // ---------------------------------------------------------------------------

  /** `formatBillion(num)`: "N/A" for a missing value; otherwise "$", the value in billions to two places, "B" — at any magnitude. */
  function FormatBillion(num: Option<real>): (s: string)
    ensures s == NotAvailable <==> num.None?
    ensures num.Some? ==> |s| >= 3 && s[0] == '$' && s[|s| - 1] == 'B'
    ensures num.Some? ==> var amount := s[1..|s| - 1];
      && FixedForm(amount, 2) && NoLeadingZero(Unsigned(amount))
      && (amount[0] == '-' <==> num.value < 0.0)
      && FixedUnits(amount, 2) == ScaledUnits(InScale(num.value, Billions), 2)
  {
    match num
    case None => NotAvailable
    case Some(n) =>
      var amount := ToFixed(InScale(n, Billions), 2);
      assert ("$" + amount + "B")[1..|amount| + 1] == amount;
      "$" + amount + "B"
  }

  /** Between a billion and a trillion the two large-number formatters agree. */
  lemma FormatBillionAgreesWithLarge(n: real)
    requires 1000000000.0 <= n < 1000000000000.0
    ensures FormatBillion(Some(n)) == FormatLargeNumber(Some(n))
  {
    assert IsMagnitudeOf(Billions, n);
    FormatLargeNumberScale(n, Billions);
  }

  // ---------------------------------------------------------------------------
  // Percentages
  // ---------------------------------------------------------------------------

  /** `formatPercent(num)` / `formatPercentage(num)`: a fraction shown as a percentage with two places. */
  function FormatPercent(num: Option<real>): (s: string)
    ensures s == NotAvailable <==> num.None?
    ensures num.Some? ==> s == FormatNumber(Some(num.value * 100.0), 2) + "%"
  {
    match num
    case None => NotAvailable
    case Some(f) =>
      FixedIsNotNotAvailable(f * 100.0, 2, "%");
      ToFixed(f * 100.0, 2) + "%"
  }

  /** The change chip's percentage: `formatNumber(changePercent)` followed by "%", with no scaling. */
  function PercentLabel(pct: Option<real>): (s: string)
    ensures |s| >= 2 && s[|s| - 1] == '%'
    ensures pct.None? ==> s == NotAvailable + "%"
    ensures pct.Some? ==> FixedForm(s[..|s| - 1], 2) && FixedUnits(s[..|s| - 1], 2) == ScaledUnits(pct.value, 2)
    ensures pct.Some? ==> (s[0] == '-' <==> pct.value < 0.0) && NoLeadingZero(Unsigned(s[..|s| - 1]))
  {
    var t := FormatNumber(pct, 2);
    assert (t + "%")[..|t|] == t;
    t + "%"
  }

  /** A fraction shown by `formatPercent` reads the same as its hundredfold shown on the chip. */
  lemma PercentOfFraction(f: real)
    ensures FormatPercent(Some(f)) == PercentLabel(Some(f * 100.0))
  {
    assert FormatPercent(Some(f)) == FormatNumber(Some(f * 100.0), 2) + "%";
  }

  // ---------------------------------------------------------------------------
  // The change chip
  // ---------------------------------------------------------------------------

  /**
   * `(change || 0) >= 0`: a missing change counts as zero, which counts as a gain. A present
   * zero is falsy and `|| 0` turns it into zero again, so the value or 0 is the same reading.
   */
  predicate IsGain(change: Option<real>)
  {
    change.GetOr(0.0) >= 0.0
  }

  function SignPrefix(change: Option<real>): (s: string)
    ensures s == "+" <==> IsGain(change)
    ensures s == "" <==> !IsGain(change)
  {
    if IsGain(change) then "+" else ""
  }

  /**
   * The chip label "<sign><change> (<changePercent>%)". It starts with "+" exactly for a
   * gain and with "-" exactly for a loss, so it never shows both signs or neither.
   */
  function ChangeLabel(change: Option<real>, pct: Option<real>): (chip: string)
    ensures |chip| >= 2
    ensures chip[0] == '+' <==> IsGain(change)
    ensures chip[0] == '-' <==> (change.Some? && change.value < 0.0)
    ensures chip[0] == '+' ==> chip[1] != '-'
    ensures LabelOf(chip, SignPrefix(change), FormatNumber(change, 2), PercentLabel(pct))
  {
    var number := FormatNumber(change, 2);
    var chip := SignPrefix(change) + number + " (" + PercentLabel(pct) + ")";
    LabelParts(SignPrefix(change), number, PercentLabel(pct));
    if IsGain(change) then
      assert chip[1] == number[0];
      chip
    else
      assert chip[0] == number[0];
      chip
  }

  /** `l` reads `a`, then `b`, then " (", then `p`, then ")". */
  predicate LabelOf(l: string, a: string, b: string, p: string)
  {
    && |l| == |a| + |b| + 2 + |p| + 1
    && l[..|a|] == a && l[|a|..|a| + |b|] == b
    && l[|a| + |b|..|a| + |b| + 2] == " (" && l[|a| + |b| + 2..|l| - 1] == p && l[|l| - 1] == ')'
  }

  /** The label "<a><b> (<p>)" reads back its pieces by position. */
  lemma LabelParts(a: string, b: string, p: string)
    ensures LabelOf(a + b + " (" + p + ")", a, b, p)
  {
    var l := a + b + " (" + p + ")";
    assert l[..|a|] == a;
    assert l[|a|..|a| + |b|] == b;
    assert l[|a| + |b|..|a| + |b| + 2] == " (";
    assert l[|a| + |b| + 2..|l| - 1] == p;
  }

  // ---------------------------------------------------------------------------
  // getIndexName
  // ---------------------------------------------------------------------------

  /** The index symbols the market panel knows a display name for. */
  const KnownIndices: set<string> := {"^GSPC", "^IXIC", "^DJI"}

  /** `getIndexName(symbol)`: the display name of a known index, any other symbol unchanged. */
  function GetIndexName(symbol: string): (name: string)
    ensures symbol in KnownIndices ==> name != symbol && |name| > 0 && name[0] != '^'
    ensures symbol !in KnownIndices ==> name == symbol
  {
    match symbol
    case "^GSPC" => "S&P 500"
    case "^IXIC" => "NASDAQ"
    case "^DJI" => "DOW"
    case _ => symbol
  }

  /** Two known indices never share a display name. */
  lemma IndexNamesDistinct(a: string, b: string)
    requires a in KnownIndices && b in KnownIndices && a != b
    ensures GetIndexName(a) != GetIndexName(b)
  {
  }

  // ---------------------------------------------------------------------------
  // Text fields
  // ---------------------------------------------------------------------------

  /** `text || fallback`: the text when it is present and non-empty, otherwise the fallback. */
  function TextOr(text: Option<string>, fallback: string): (s: string)
    ensures text.Some? && text.value != "" ==> s == text.value
    ensures text.None? || text.value == "" ==> s == fallback
  {
    if text.Some? && text.value != "" then text.value else fallback
  }
}
