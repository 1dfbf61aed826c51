/** Integer text as the dashboards print it: Python's `str` of an integer,
    the thousands-separated `f"{x:,}"`, and the French display that turns
    the commas into spaces and a decimal point into a comma. */
module Decimal {
  import opened Seqs

  predicate IsDigit(c: char) {
    '0' <= c <= '9'
  }

  predicate AllDigits(s: string) {
    forall i :: 0 <= i < |s| ==> IsDigit(s[i])
  }

  function DigitChar(n: int): (c: char)
    requires 0 <= n <= 9
    ensures IsDigit(c)
  {
    ('0' as int + n) as char
  }

  function DigitValue(c: char): (n: int)
    requires IsDigit(c)
    ensures 0 <= n <= 9
    ensures DigitChar(n) == c
  {
    c as int - '0' as int
  }

  /** Python `str(n)` for a non-negative integer: decimal digits with no
      leading zero (except for zero itself). */
  function Digits(n: nat): (s: string)
    ensures |s| >= 1 && AllDigits(s)
    ensures s[0] == '0' ==> n == 0
  {
    if n < 10 then [DigitChar(n)] else Digits(n / 10) + [DigitChar(n % 10)]
  }

  /** The number a string of decimal digits denotes. */
  function DigitsValue(s: string): nat
    requires AllDigits(s)
  {
    if s == [] then 0 else DigitsValue(s[..|s| - 1]) * 10 + DigitValue(s[|s| - 1])
  }

  /** Reading back the digits of `n` gives `n`. */
  lemma {:induction false} DigitsRoundTrip(n: nat)
    ensures DigitsValue(Digits(n)) == n
  {
    if n >= 10 {
      DigitsRoundTrip(n / 10);
      var s := Digits(n);
      assert s[..|s| - 1] == Digits(n / 10);
    }
  }

  lemma DigitsInjective(a: nat, b: nat)
    ensures Digits(a) == Digits(b) ==> a == b
  {
    DigitsRoundTrip(a);
    DigitsRoundTrip(b);
  }

  /** Python `str(x)` for any integer. */
  function IntToString(x: int): (s: string)
    ensures |s| >= 1
  {
    if x < 0 then "-" + Digits(-x) else Digits(x)
  }

  /** Distinct integers print differently. */
  lemma IntToStringInjective(a: int, b: int)
    ensures IntToString(a) == IntToString(b) ==> a == b
  {
    if IntToString(a) == IntToString(b) {
      assert (a < 0) == (IntToString(a)[0] == '-');
      assert (b < 0) == (IntToString(b)[0] == '-');
      if a < 0 {
        assert Digits(-a) == IntToString(a)[1..];
        DigitsInjective(-a, -b);
      } else {
        DigitsInjective(a, b);
      }
    }
  }

  // ---------------------------------------------------------------------
  // Thousands separators
  // ---------------------------------------------------------------------

  /** The digits `ds` with a comma before every group of three counted from
      the right, as Python's `,` format option writes an integer. */
  function CommaGrouped(ds: string): (r: string)
    decreases |ds|
  {
    if |ds| <= 3 then ds else CommaGrouped(ds[..|ds| - 3]) + "," + ds[|ds| - 3..]
  }

  /** Python `f"{x:,}"` for an integer. */
  function ThousandsFormat(x: int): string {
    if x < 0 then "-" + CommaGrouped(Digits(-x)) else CommaGrouped(Digits(x))
  }

  /** Python `s.replace(a, b)` for single characters. */
  function Replace(s: string, a: char, b: char): (r: string)
    ensures |r| == |s|
    ensures forall i :: 0 <= i < |s| ==> r[i] == (if s[i] == a then b else s[i])
  {
    if s == [] then [] else [if s[0] == a then b else s[0]] + Replace(s[1..], a, b)
  }

  /** The dashboard's `format_entier`: `f"{x:,}"` with commas turned into
      spaces and points into commas. */
  function FormatInteger(x: int): string {
    Replace(Replace(ThousandsFormat(x), ',', ' '), '.', ',')
  }

  /** The digits `ds` with a space before every group of three counted from the right. */
  function SpaceGrouped(ds: string): (r: string)
    decreases |ds|
  {
    if |ds| <= 3 then ds else SpaceGrouped(ds[..|ds| - 3]) + " " + ds[|ds| - 3..]
  }

  predicate NotSpace(c: char) {
    c != ' '
  }

  /** The text with its spaces removed. */
  function WithoutSpaces(s: string): (r: string)
    ensures forall c | c in r :: c in s && c != ' '
  {
    Filter(s, NotSpace)
  }

  /** The spaces of `s` sit exactly every fourth character counted from the
      right, and never at its start: a first group of one to three
      characters, then groups of exactly three, each after one space. */
  ghost predicate ThousandsGrouped(s: string) {
    && |s| % 4 != 0
    && forall i :: 0 <= i < |s| ==> (s[i] == ' ' <==> (|s| - i) % 4 == 0)
  }

  lemma ReplaceConcat(a: string, b: string, x: char, y: char)
    ensures Replace(a + b, x, y) == Replace(a, x, y) + Replace(b, x, y)
  {
  }

  lemma ReplaceAbsent(s: string, a: char, b: char)
    requires a !in s
    ensures Replace(s, a, b) == s
  {
  }

  /** Turning the commas of a grouped number into spaces and its (absent)
      points into commas gives the space-grouped digits. */
  lemma {:induction false} CommaToSpace(ds: string)
    requires AllDigits(ds)
    ensures Replace(Replace(CommaGrouped(ds), ',', ' '), '.', ',') == SpaceGrouped(ds)
    decreases |ds|
  {
    if |ds| <= 3 {
      ReplaceAbsent(ds, ',', ' ');
      ReplaceAbsent(ds, '.', ',');
    } else {
      var h, t := ds[..|ds| - 3], ds[|ds| - 3..];
      var ch := CommaGrouped(h);
      assert ',' !in t && '.' !in t;
      calc {
        Replace(Replace(CommaGrouped(ds), ',', ' '), '.', ',');
        Replace(Replace(ch + "," + t, ',', ' '), '.', ',');
        { ReplaceConcat(ch + ",", t, ',', ' ');
          ReplaceConcat(ch, ",", ',', ' ');
          ReplaceAbsent(t, ',', ' '); }
        Replace(Replace(ch, ',', ' ') + " " + t, '.', ',');
        { ReplaceConcat(Replace(ch, ',', ' ') + " ", t, '.', ',');
          ReplaceConcat(Replace(ch, ',', ' '), " ", '.', ',');
          ReplaceAbsent(t, '.', ','); }
        Replace(Replace(ch, ',', ' '), '.', ',') + " " + t;
        { CommaToSpace(h); }
        SpaceGrouped(h) + " " + t;
      }
    }
  }

  /** Space-grouped digits are grouped by threes. */
  lemma {:induction false} SpaceGroupedPositions(ds: string)
    requires |ds| >= 1 && AllDigits(ds)
    ensures ThousandsGrouped(SpaceGrouped(ds))
    decreases |ds|
  {
    var g := SpaceGrouped(ds);
    if |ds| > 3 {
      var h, t := ds[..|ds| - 3], ds[|ds| - 3..];
      SpaceGroupedPositions(h);
      var gh := SpaceGrouped(h);
      assert g == gh + " " + t;
      forall i | 0 <= i < |g|
        ensures g[i] == ' ' <==> (|g| - i) % 4 == 0
      {
        SpacePosition(gh, t, i);
      }
    }
  }

  /** One position of `gh + " " + t` for a three-character `t` without spaces. */
  lemma SpacePosition(gh: string, t: string, i: int)
    requires ThousandsGrouped(gh)
    requires |t| == 3 && ' ' !in t
    requires 0 <= i < |gh| + 4
    ensures var g := gh + " " + t;
            g[i] == ' ' <==> (|g| - i) % 4 == 0
  {
    var g := gh + " " + t;
    if i < |gh| {
      assert g[i] == gh[i];
      assert (|g| - i) % 4 == (|gh| - i) % 4;
    } else if i > |gh| {
      assert g[i] == t[i - |gh| - 1];
    }
  }

  /** Space-grouped digits hold exactly the digits, in order. */
  lemma {:induction false} SpaceGroupedDigits(ds: string)
    requires AllDigits(ds)
    ensures WithoutSpaces(SpaceGrouped(ds)) == ds
    decreases |ds|
  {
    if |ds| <= 3 {
      FilterKeepsAll(ds, NotSpace);
    } else {
      var h, t := ds[..|ds| - 3], ds[|ds| - 3..];
      SpaceGroupedDigits(h);
      assert forall i | 0 <= i < |t| :: IsDigit(t[i]) by {
        forall i | 0 <= i < |t| ensures IsDigit(t[i]) { assert t[i] == ds[|ds| - 3 + i]; }
      }
      DropSeparator(SpaceGrouped(h), t);
      assert h + t == ds;
    }
  }

  /** Removing the spaces of a group, a space and digits removes that space. */
  lemma DropSeparator(g: string, t: string)
    requires AllDigits(t)
    ensures WithoutSpaces(g + " " + t) == WithoutSpaces(g) + t
  {
    assert forall c | c in t :: NotSpace(c);
    calc {
      WithoutSpaces(g + " " + t);
      Filter(g + " " + t, NotSpace);
      { FilterConcat(g + " ", t, NotSpace); }
      Filter(g + " ", NotSpace) + Filter(t, NotSpace);
      { FilterConcat(g, " ", NotSpace); FilterKeepsAll(t, NotSpace); }
      Filter(g, NotSpace) + Filter(" ", NotSpace) + t;
      { assert Filter(" ", NotSpace) == []; }
      WithoutSpaces(g) + t;
    }
  }

  /** `format_entier(x)` with its spaces removed is `str(x)`, and the digits
      after the sign are grouped by threes from the right. */
  lemma FormatIntegerSpec(x: int)
    ensures WithoutSpaces(FormatInteger(x)) == IntToString(x)
    ensures x >= 0 ==> ThousandsGrouped(FormatInteger(x))
    ensures x < 0 ==> FormatInteger(x)[0] == '-' && ThousandsGrouped(FormatInteger(x)[1..])
  {
    var ds := if x < 0 then Digits(-x) else Digits(x);
    CommaToSpace(ds);
    SpaceGroupedPositions(ds);
    SpaceGroupedDigits(ds);
    if x < 0 {
      ReplaceConcat("-", CommaGrouped(ds), ',', ' ');
      ReplaceConcat("-", Replace(CommaGrouped(ds), ',', ' '), '.', ',');
      assert FormatInteger(x) == "-" + SpaceGrouped(ds);
      FilterConcat("-", SpaceGrouped(ds), NotSpace);
      assert FormatInteger(x)[1..] == SpaceGrouped(ds);
    }
  }

  /** A worked value: one thousand two hundred and thirty-four. */
  lemma FormatIntegerExample()
    ensures FormatInteger(1234) == "1 234"
  {
    DigitsExample();
    CommaToSpace("1234");
    SpaceGroupedExample();
  }

  lemma DigitsExample()
    ensures Digits(1234) == "1234"
  {
    assert Digits(1) == "1";
    assert Digits(12) == "12";
    assert Digits(123) == "123";
  }

  lemma SpaceGroupedExample()
    ensures SpaceGrouped("1234") == "1 234"
  {
    assert "1234"[..1] == "1";
    assert "1234"[1..] == "234";
  }
}
