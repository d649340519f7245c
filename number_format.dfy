/**
 * The score text of the score board: a 64-bit integer rendered with the
 * custom numeric format "#,##0", that is, decimal digits with ',' between
 * groups of three, a single "0" for zero and a leading '-' for negative
 * values. The group separator is taken to be ','.
 */
module NumberFormat {

  newtype int64 = x: int | -0x8000_0000_0000_0000 <= x < 0x8000_0000_0000_0000

  predicate IsDigit(c: char) {
    '0' <= c <= '9'
  }

  function DigitChar(d: nat): (c: char)
    requires d < 10
    ensures IsDigit(c) && DigitValue(c) == d
  {
    ('0' as int + d) as char
  }

  function DigitValue(c: char): (d: nat)
    requires IsDigit(c)
    ensures d < 10
  {
    c as int - '0' as int
  }

  /** Plain decimal rendering, the reference for what the grouped text spells. */
  function Digits(n: nat): (s: string)
    ensures |s| >= 1
    ensures forall i :: 0 <= i < |s| ==> IsDigit(s[i])
    ensures (s[0] == '0') == (n == 0)
    ensures n == 0 ==> s == "0"
    ensures n < 10 ==> |s| == 1
    ensures n < 100 ==> |s| <= 2
    ensures n < 1000 ==> |s| <= 3
  {
    if n < 10 then [DigitChar(n)] else Digits(n / 10) + [DigitChar(n % 10)]
  }

  /** The value a string of digits spells. */
  function DecimalValue(s: string): (n: nat)
    requires forall i :: 0 <= i < |s| ==> IsDigit(s[i])
  {
    if s == [] then 0 else DecimalValue(s[..|s| - 1]) * 10 + DigitValue(s[|s| - 1])
  }

  /** The three digits of a group after the first, zero-padded. */
  function Pad3(r: nat): (s: string)
    requires r < 1000
    ensures |s| == 3 && forall i :: 0 <= i < 3 ==> IsDigit(s[i])
  {
    [DigitChar(r / 100), DigitChar(r / 10 % 10), DigitChar(r % 10)]
  }

  /**
   * The shape of a "#,##0" rendering of a natural number: counted from the
   * right, every fourth character is ',' and all others are digits; the text
   * does not start with a separator, and with a '0' only when it is "0".
   */
  ghost predicate WellGrouped(s: string) {
    && |s| >= 1
    && |s| % 4 != 0
    && (forall i :: 0 <= i < |s| ==> (s[i] == ',' <==> (|s| - i) % 4 == 0))
    && (forall i :: 0 <= i < |s| && (|s| - i) % 4 != 0 ==> IsDigit(s[i]))
    && (s[0] == '0' ==> s == "0")
  }

  /** The grouped rendering of a natural number. */
  function Grouped(n: nat): (s: string)
    ensures WellGrouped(s)
    ensures (s == "0") == (n == 0)
  {
    if n < 1000 then
      Digits(n)
    else
      GroupedStep(Grouped(n / 1000), Pad3(n % 1000));
      Grouped(n / 1000) + "," + Pad3(n % 1000)
  }

  /** Appending one full group to a well-grouped text keeps it well grouped. */
  lemma GroupedStep(g: string, p: string)
    requires WellGrouped(g) && g != "0"
    requires |p| == 3 && forall i :: 0 <= i < 3 ==> IsDigit(p[i])
    ensures WellGrouped(g + "," + p) && g + "," + p != "0"
  {
    var s := g + "," + p;
    forall i | 0 <= i < |s|
      ensures (s[i] == ',' <==> (|s| - i) % 4 == 0)
      ensures (|s| - i) % 4 != 0 ==> IsDigit(s[i])
    {
      if i < |g| {
        assert s[i] == g[i];
        assert (|s| - i) % 4 == (|g| - i) % 4;
      } else if i > |g| {
        assert s[i] == p[i - |g| - 1];
      }
    }
  }

  /** The text with its group separators removed. */
  function StripCommas(s: string): (t: string)
    ensures |t| <= |s|
  {
    if s == [] then []
    else if s[|s| - 1] == ',' then StripCommas(s[..|s| - 1])
    else StripCommas(s[..|s| - 1]) + [s[|s| - 1]]
  }

  /** "#,##0" applied to a 64-bit value. */
  function FormatScore(v: int64): (s: string)
    ensures v < 0 ==> |s| >= 2 && s[0] == '-' && WellGrouped(s[1..])
    ensures v >= 0 ==> WellGrouped(s)
    ensures v == 0 ==> s == "0"
    ensures ScoreChars(s)
  {
    if v < 0 then "-" + Grouped(-(v as int)) else Grouped(v as nat)
  }

  /** Digits and separators, after an optional leading '-'. */
  ghost predicate ScoreChars(s: string) {
    forall i :: 0 <= i < |s| ==> IsDigit(s[i]) || s[i] == ',' || (i == 0 && s[i] == '-')
  }

  /** Reads a "#,##0" rendering back: an optional '-' then digits and separators. */
  function ParseScore(s: string): (v: int)
    requires ScoreChars(s)
  {
    if |s| > 0 && s[0] == '-' then
      StripCommasDigits(s[1..]);
      -(DecimalValue(StripCommas(s[1..])) as int)
    else
      StripCommasDigits(s);
      DecimalValue(StripCommas(s))
  }

  lemma {:induction false} StripCommasDigits(s: string)
    requires forall i :: 0 <= i < |s| ==> IsDigit(s[i]) || s[i] == ','
    ensures forall i :: 0 <= i < |StripCommas(s)| ==> IsDigit(StripCommas(s)[i])
  {
    if s != [] {
      StripCommasDigits(s[..|s| - 1]);
    }
  }

  lemma {:induction false} StripCommasAppend(a: string, b: string)
    ensures StripCommas(a + b) == StripCommas(a) + StripCommas(b)
    decreases |b|
  {
    if b == [] {
      assert a + b == a;
    } else {
      assert (a + b)[..|a + b| - 1] == a + b[..|b| - 1];
      StripCommasAppend(a, b[..|b| - 1]);
    }
  }

  lemma {:induction false} StripDigits(s: string)
    requires forall i :: 0 <= i < |s| ==> IsDigit(s[i])
    ensures StripCommas(s) == s
  {
    if s != [] {
      StripDigits(s[..|s| - 1]);
    }
  }

  /** Above 999, the plain decimal text is that of the thousands followed by the padded last group. */
  lemma DigitsSplit(n: nat)
    requires n >= 1000
    ensures Digits(n) == Digits(n / 1000) + Pad3(n % 1000)
  {
    var q, r := n / 1000, n % 1000;
    assert n / 10 == 100 * q + r / 10 && n / 10 / 10 == 10 * q + r / 100 && n / 10 / 10 / 10 == q;
    assert (n / 10) % 10 == r / 10 % 10 && (n / 10 / 10) % 10 == r / 100;
    assert Digits(n) == Digits(n / 10) + [DigitChar(n % 10)];
    assert Digits(n / 10) == Digits(n / 10 / 10) + [DigitChar(n / 10 % 10)];
    assert Digits(n / 10 / 10) == Digits(q) + [DigitChar(n / 10 / 10 % 10)];
  }

  /** The grouped text spells exactly the plain decimal digits between its separators. */
  lemma {:induction false} StripGrouped(n: nat)
    ensures StripCommas(Grouped(n)) == Digits(n)
  {
    if n < 1000 {
      StripDigits(Digits(n));
    } else {
      var g, p := Grouped(n / 1000), Pad3(n % 1000);
      StripGrouped(n / 1000);
      StripCommasAppend(g + ",", p);
      StripCommasAppend(g, ",");
      StripDigits(p);
      DigitsSplit(n);
    }
  }

  lemma {:induction false} DecimalValueDigits(n: nat)
    ensures DecimalValue(Digits(n)) == n
  {
    if n >= 10 {
      var s := Digits(n);
      assert s == Digits(n / 10) + [DigitChar(n % 10)];
      assert s[..|s| - 1] == Digits(n / 10);
      DecimalValueDigits(n / 10);
    }
  }

  /** Reading a rendered score back yields the score: the rendering loses nothing. */
  lemma ParseFormatted(v: int64)
    ensures ParseScore(FormatScore(v)) == v as int
  {
    var n: nat := if v < 0 then -(v as int) else v as int;
    StripGrouped(n);
    DecimalValueDigits(n);
    if v < 0 {
      assert FormatScore(v)[1..] == Grouped(n);
    }
  }

  /** Two scores share a text only when they are equal. */
  lemma FormatInjective(v: int64, w: int64)
    requires FormatScore(v) == FormatScore(w)
    ensures v == w
  {
    ParseFormatted(v);
    ParseFormatted(w);
  }
}
