/** ETH amounts: the parser of entered prices and the printer of wei. */
module EthAmount {
  import opened Wrappers
  import opened Decimal

  const WEI_PER_ETH: nat := 1_000_000_000_000_000_000

  datatype AmountError = NotAnAmount | NotPositive | Negative

  /** text.indexOf('.'), or the length. */
  function PointIn(s: string): (i: nat)
    ensures i <= |s| && (i < |s| ==> s[i] == '.') && forall k :: 0 <= k < i ==> s[k] != '.'
  {
    if s == "" || s[0] == '.' then 0 else PointIn(s[1..]) + 1
  }

  function Whole(s: string): string {
    s[..PointIn(s)]
  }

  function Fraction(s: string): string {
    if PointIn(s) == |s| then "" else s[PointIn(s) + 1..]
  }

  /** ^(0|[1-9]\d*)(\.\d{1,18})?$ */
  predicate IsAmount(s: string) {
    && Canonical(Whole(s))
    && (PointIn(s) < |s| ==> 1 <= |Fraction(s)| <= 18 && AllDigits(Fraction(s)))
  }

  function Zeros(n: nat): (z: string)
    ensures |z| == n && forall c <- z :: c == '0'
  {
    seq(n, _ => '0')
  }

  function PadEnd(s: string, n: nat): string {
    if |s| >= n then s else s + Zeros(n - |s|)
  }

  function PadStart(s: string, n: nat): string {
    if |s| >= n then s else Zeros(n - |s|) + s
  }

  /** replace(/0+$/, '') */
  function TrimZeros(s: string): (t: string)
    ensures t <= s
  {
    if s != "" && s[|s| - 1] == '0' then TrimZeros(s[..|s| - 1]) else s
  }

  function ParseEth(s: string): Result<nat, AmountError> {
    if !IsAmount(s) then Failure(NotAnAmount)
    else
      var wei := Value(Whole(s)) * WEI_PER_ETH + Value(PadEnd(Fraction(s), 18));
      if wei == 0 then Failure(NotPositive) else Success(wei)
  }

  /** The printed number, without its unit. */
  function Printed(wei: nat): string {
    var whole, remainder := wei / WEI_PER_ETH, wei % WEI_PER_ETH;
    if remainder == 0 then Text(whole)
    else Text(whole) + "." + TrimZeros(PadStart(Text(remainder), 18))
  }

  function FormatWeiAsEth(wei: int): Result<string, AmountError> {
    if wei < 0 then Failure(Negative) else Success(Printed(wei) + " ETH")
  }

  /** An amount without the trailing zeros of its fraction, and without a point left bare. */
  function Normalized(s: string): string {
    var fraction := TrimZeros(Fraction(s));
    if fraction == "" then Whole(s) else Whole(s) + "." + fraction
  }

  // ---- padding and trimming ----

  lemma {:induction false} TrimLeavesZeros(s: string)
    ensures s == TrimZeros(s) + Zeros(|s| - |TrimZeros(s)|)
    ensures TrimZeros(s) == "" || TrimZeros(s)[|TrimZeros(s)| - 1] != '0'
  {
    if s != "" && s[|s| - 1] == '0' {
      var init := s[..|s| - 1];
      TrimLeavesZeros(init);
      assert s == init + "0";
      assert s == TrimZeros(s) + (Zeros(|init| - |TrimZeros(s)|) + "0");
    }
  }

  lemma {:induction false} TrimIgnoresZeros(s: string, n: nat)
    ensures TrimZeros(s + Zeros(n)) == TrimZeros(s)
  {
    if n == 0 {
      assert s + Zeros(0) == s;
    } else {
      assert (s + Zeros(n))[..|s| + n - 1] == s + Zeros(n - 1);
      TrimIgnoresZeros(s, n - 1);
    }
  }

  /** Padding a trimmed fraction restores it. */
  lemma PadUndoesTrim(f: string)
    requires |f| == 18
    ensures PadEnd(TrimZeros(f), 18) == f
  {
    TrimLeavesZeros(f);
  }

  lemma TrimUndoesPad(f: string, n: nat)
    ensures TrimZeros(PadEnd(f, n)) == TrimZeros(f)
  {
    if |f| < n {
      TrimIgnoresZeros(f, n - |f|);
    }
  }

  lemma {:induction false} ZerosAreZero(n: nat)
    ensures AllDigits(Zeros(n)) && Value(Zeros(n)) == 0
  {
    if n > 0 {
      ZerosAreZero(n - 1);
      assert Zeros(n)[..n - 1] == Zeros(n - 1);
    }
  }

  lemma PadStartKeepsValue(s: string, n: nat)
    requires AllDigits(s)
    ensures AllDigits(PadStart(s, n)) && Value(PadStart(s, n)) == Value(s)
  {
    if |s| < n {
      ZerosAreZero(n - |s|);
      ValueOfConcat(Zeros(n - |s|), s);
    }
  }

  lemma SameTens(x: nat, d: nat, y: nat, e: nat)
    requires d < 10 && e < 10 && 10 * x + d == 10 * y + e
    ensures x == y && d == e
  {
  }

  /** Digits of one length are determined by their value. */
  lemma {:induction false} FixedWidthIsUnique(a: string, b: string)
    requires AllDigits(a) && AllDigits(b) && |a| == |b| && Value(a) == Value(b)
    ensures a == b
  {
    if a != "" {
      var n := |a| - 1;
      SameTens(Value(a[..n]), DigitValue(a[n]), Value(b[..n]), DigitValue(b[n]));
      FixedWidthIsUnique(a[..n], b[..n]);
      hide Value, AllDigits;
      assert a == a[..n] + [a[n]] && b == b[..n] + [b[n]];
    }
  }

  lemma EighteenDigits()
    ensures Pow10(18) == WEI_PER_ETH
  {
    assert Pow10(3) == 1_000;
    assert Pow10(6) == 1_000_000;
    assert Pow10(9) == 1_000_000_000;
    assert Pow10(12) == 1_000_000_000_000;
    assert Pow10(15) == 1_000_000_000_000_000;
  }

  /** A remainder prints as at most 18 digits. */
  lemma RemainderFits(r: nat)
    requires r < WEI_PER_ETH
    ensures |Text(r)| <= 18 && |PadStart(Text(r), 18)| == 18
  {
    EighteenDigits();
    TextReadsBack(r);
    if Text(r) != "0" {
      CanonicalAtLeast(Text(r));
      PowerReflects(|Text(r)| - 1, 18);
    }
  }

  /** The 18 digits behind the point, and back. */
  lemma FractionOfRemainder(f: string)
    requires AllDigits(f) && |f| == 18
    ensures Value(f) < WEI_PER_ETH && PadStart(Text(Value(f)), 18) == f
  {
    EighteenDigits();
    ValueBelowPower(f);
    TextReadsBack(Value(f));
    RemainderFits(Value(f));
    PadStartKeepsValue(Text(Value(f)), 18);
    FixedWidthIsUnique(PadStart(Text(Value(f)), 18), f);
  }

  lemma {:induction false} PointOf(whole: string, rest: string)
    requires AllDigits(whole) && (rest == "" || rest[0] == '.')
    ensures PointIn(whole + rest) == |whole|
  {
    if whole == "" {
      assert whole + rest == rest;
    } else {
      assert (whole + rest)[1..] == whole[1..] + rest;
      assert (whole + rest)[0] == whole[0] && IsDigit(whole[0]);
      PointOf(whole[1..], rest);
    }
  }

  lemma PartsWithoutPoint(whole: string)
    requires AllDigits(whole)
    ensures PointIn(whole) == |whole| && Whole(whole) == whole && Fraction(whole) == ""
  {
    PointOf(whole, "");
    assert whole + "" == whole;
  }

  lemma PartsAroundPoint(whole: string, fraction: string)
    requires AllDigits(whole)
    ensures var s := whole + "." + fraction;
            PointIn(s) == |whole| < |s| && Whole(s) == whole && Fraction(s) == fraction
  {
    PointOf(whole, "." + fraction);
    assert whole + "." + fraction == whole + ("." + fraction);
  }

  lemma PadEndDigits(f: string)
    requires AllDigits(f) && |f| <= 18
    ensures AllDigits(PadEnd(f, 18)) && |PadEnd(f, 18)| == 18
  {
  }

  // ---- the round trips ----

  /** Parsing a printed amount gives the same wei, for every wei above zero. */
  lemma PrintThenParse(wei: nat)
    requires wei > 0
    ensures ParseEth(Printed(wei)) == Success(wei)
  {
    hide PointIn, Text, TrimZeros, Value, PadStart, Whole, Fraction, Canonical;
    var whole, remainder := wei / WEI_PER_ETH, wei % WEI_PER_ETH;
    TextReadsBack(whole);
    if remainder == 0 {
      PartsWithoutPoint(Text(whole));
      ZerosAreZero(18);
      assert PadEnd("", 18) == Zeros(18);
    } else {
      PrintedFraction(remainder);
      PartsAroundPoint(Text(whole), TrimZeros(PadStart(Text(remainder), 18)));
    }
  }

  /** What is shown for an amount above zero parses to it again once its unit is dropped; only negative amounts
      have nothing to show. */
  lemma FormatThenParse(wei: int)
    ensures FormatWeiAsEth(wei).Success? <==> wei >= 0
    ensures wei > 0 ==>
              var text := FormatWeiAsEth(wei).value;
              |text| > 4 && text[|text| - 4..] == " ETH" && ParseEth(text[..|text| - 4]) == Success(wei)
  {
    if wei > 0 {
      PrintThenParse(wei);
      var text := FormatWeiAsEth(wei).value;
      assert text[..|text| - 4] == Printed(wei) && Printed(wei) != "";
    }
  }

  lemma PrintedFraction(remainder: nat)
    requires 0 < remainder < WEI_PER_ETH
    ensures var fraction := TrimZeros(PadStart(Text(remainder), 18));
            && 1 <= |fraction| <= 18 && AllDigits(fraction)
            && AllDigits(PadEnd(fraction, 18)) && Value(PadEnd(fraction, 18)) == remainder
  {
    var padded := PadStart(Text(remainder), 18);
    RemainderFits(remainder);
    TextReadsBack(remainder);
    PadStartKeepsValue(Text(remainder), 18);
    PadUndoesTrim(padded);
    ZeroFraction(padded);
  }

  /** Zero prints as an amount the parser refuses. */
  lemma ZeroIsRefused()
    ensures Printed(0) == "0" && ParseEth(Printed(0)) == Failure(NotPositive)
  {
    ZerosAreZero(18);
    assert PadEnd("", 18) == Zeros(18);
    PartsWithoutPoint("0");
    assert Value("0") == 0 by { assert "0"[..0] == ""; }
  }

  /** Printing a parsed amount gives it back without its trailing fraction zeros. */
  lemma ParseThenPrint(s: string)
    requires ParseEth(s).Success?
    ensures Printed(ParseEth(s).value) == Normalized(s)
  {
    var whole, padded := Value(Whole(s)), PadEnd(Fraction(s), 18);
    PadEndDigits(Fraction(s));
    FractionOfRemainder(padded);
    CanonicalIsText(Whole(s));
    TrimUndoesPad(Fraction(s), 18);
    var wei := ParseEth(s).value;
    assert wei / WEI_PER_ETH == whole && wei % WEI_PER_ETH == Value(padded);
    ZeroFraction(padded);
  }

  /** Only all-zero digits have value zero. */
  lemma ZeroFraction(f: string)
    requires AllDigits(f)
    ensures Value(f) == 0 <==> TrimZeros(f) == ""
  {
    ZerosAreZero(|f|);
    TrimLeavesZeros(f);
    if Value(f) == 0 {
      FixedWidthIsUnique(f, Zeros(|f|));
      TrimIgnoresZeros("", |f|);
      assert "" + Zeros(|f|) == f;
    }
  }

  /** Two entered prices are the same amount exactly when they differ in trailing fraction zeros only. */
  lemma SameAmountSameText(a: string, b: string)
    requires ParseEth(a).Success? && ParseEth(b).Success?
    ensures ParseEth(a) == ParseEth(b) <==> Normalized(a) == Normalized(b)
  {
    ParseThenPrint(a);
    ParseThenPrint(b);
    PrintThenParse(ParseEth(a).value);
    PrintThenParse(ParseEth(b).value);
  }
}
