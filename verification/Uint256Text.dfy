/** Three checks of uint256 text: the SQL constraint, the database codec and the API schema. They agree. */
module Uint256Text {
  import opened Wrappers
  import opened Decimal

  const UINT256_MAX: nat := 0x1_0000_0000_0000_0000_0000_0000_0000_0000_0000_0000_0000_0000_0000_0000_0000_0000 - 1

  /** The bound as the SQL constraint spells it, six digits at a time. */
  const MAX_TEXT :=
    "115792" + "089237" + "316195" + "423570" + "985008"
    + "687907" + "853269" + "984665" + "640564" + "039457"
    + "584007" + "913129" + "639935"

  /** canonicalUint256 of the schema, on NUL-free text. */
  predicate SqlAccepts(s: string, positive: bool) {
    && (positive ==> s != "0")
    && 1 <= |s| <= 78
    && (s == "0" || '1' <= s[0] <= '9')
    && AllDigits(s)
    && (|s| < 78 || TextAtMost(s, MAX_TEXT))
  }

  datatype Uint256Error = InvalidUint256 | Uint256Overflow | MustBePositive

  /** parseUint256 of the codec: at most 78 digits, then the bound. */
  function ParseUint256(s: string): (r: Result<nat, Uint256Error>)
    ensures r.Success? ==> r.value <= UINT256_MAX
  {
    if !Canonical(s) || |s| > 78 then Failure(InvalidUint256)
    else if Value(s) > UINT256_MAX then Failure(Uint256Overflow)
    else Success(Value(s))
  }

  /** canonicalUint256 of the codec, on a number. */
  function CanonicalText(n: int): Result<string, Uint256Error> {
    if n < 0 || n > UINT256_MAX then Failure(InvalidUint256) else Success(Text(n))
  }

  /** positiveUint256 of the codec, on text. */
  function PositiveText(s: string): Result<string, Uint256Error> {
    var n :- ParseUint256(s);
    var text :- CanonicalText(n);
    if text == "0" then Failure(MustBePositive) else Success(text)
  }

  /** uint256DecimalString of the API: no length limit before the bound. */
  predicate ApiAccepts(s: string) {
    Canonical(s) && Value(s) <= UINT256_MAX
  }

  function SixDigits(g: string): nat
    requires |g| == 6 && forall i :: 0 <= i < 6 ==> IsDigit(g[i])
  {
    DigitValue(g[0]) * 100000 + DigitValue(g[1]) * 10000 + DigitValue(g[2]) * 1000 + DigitValue(g[3]) * 100
    + DigitValue(g[4]) * 10 + DigitValue(g[5])
  }

  /** Six more digits. */
  lemma SixMore(s: string, v: nat, group: string, n: nat) returns (t: string, w: nat)
    requires AllDigits(s) && Value(s) == v && |group| == 6
    requires (forall i :: 0 <= i < 6 ==> IsDigit(group[i])) && SixDigits(group) == n
    ensures t == s + group && AllDigits(t) && w == v * 1000000 + n && Value(t) == w
  {
    ThreeMore(s, group, 0);
    ThreeMore(s, group, 3);
    hide Value, AllDigits;
    assert s + group[..0] == s && s + group[..6] == s + group;
    return s + group, v * 1000000 + n;
  }

  lemma ThreeMore(s: string, group: string, k: nat)
    requires AllDigits(s) && k + 3 <= |group| && forall i :: 0 <= i < |group| ==> IsDigit(group[i])
    ensures AllDigits(s + group[..k]) && AllDigits(s + group[..k + 3])
    ensures Value(s + group[..k + 3])
            == 1000 * Value(s + group[..k])
               + 100 * DigitValue(group[k]) + 10 * DigitValue(group[k + 1]) + DigitValue(group[k + 2])
  {
    hide Value, AllDigits;
    OneMore(s, group, k);
    OneMore(s, group, k + 1);
    OneMore(s, group, k + 2);
  }

  lemma OneMore(s: string, group: string, k: nat)
    requires AllDigits(s) && k < |group| && forall i :: 0 <= i < |group| ==> IsDigit(group[i])
    ensures AllDigits(s + group[..k]) && AllDigits(s + group[..k + 1])
    ensures Value(s + group[..k + 1]) == 10 * Value(s + group[..k]) + DigitValue(group[k])
  {
    assert (s + group[..k + 1])[..|s| + k] == s + group[..k];
  }

  lemma MaxPart1(s: string, v: nat)
    requires AllDigits(s) && Value(s) == v
    ensures var t := s + "115792" + "089237" + "316195" + "423570";
            AllDigits(t) && Value(t) == v * 1000000000000000000000000 + 115792089237316195423570
  {
    hide Value, AllDigits;
    var s0, v0 := s, v;
    var s1, v1 := SixMore(s0, v0, "115792", 115792);
    var s2, v2 := SixMore(s1, v1, "089237", 89237);
    var s3, v3 := SixMore(s2, v2, "316195", 316195);
    var s4, v4 := SixMore(s3, v3, "423570", 423570);
  }

  lemma MaxPart2(s: string, v: nat)
    requires AllDigits(s) && Value(s) == v
    ensures var t := s + "985008" + "687907" + "853269" + "984665";
            AllDigits(t) && Value(t) == v * 1000000000000000000000000 + 985008687907853269984665
  {
    hide Value, AllDigits;
    var s0, v0 := s, v;
    var s1, v1 := SixMore(s0, v0, "985008", 985008);
    var s2, v2 := SixMore(s1, v1, "687907", 687907);
    var s3, v3 := SixMore(s2, v2, "853269", 853269);
    var s4, v4 := SixMore(s3, v3, "984665", 984665);
  }

  lemma MaxPart3(s: string, v: nat)
    requires AllDigits(s) && Value(s) == v
    ensures var t := s + "640564" + "039457" + "584007" + "913129" + "639935";
            AllDigits(t) && Value(t) == v * 1000000000000000000000000000000 + 640564039457584007913129639935
  {
    hide Value, AllDigits;
    var s0, v0 := s, v;
    var s1, v1 := SixMore(s0, v0, "640564", 640564);
    var s2, v2 := SixMore(s1, v1, "039457", 39457);
    var s3, v3 := SixMore(s2, v2, "584007", 584007);
    var s4, v4 := SixMore(s3, v3, "913129", 913129);
    var s5, v5 := SixMore(s4, v4, "639935", 639935);
  }

  /** The bound the SQL constraint spells is 2^256 - 1. */
  lemma MaxTextIsMax()
    ensures AllDigits(MAX_TEXT) && |MAX_TEXT| == 78 && MAX_TEXT[0] == '1' && Value(MAX_TEXT) == UINT256_MAX
  {
    assert "" + "115792" == "115792" && Value("") == 0 && AllDigits("");
    hide Value, AllDigits;
    MaxPart1("", 0);
    MaxPart2("115792" + "089237" + "316195" + "423570", 115792089237316195423570);
    MaxPart3("115792" + "089237" + "316195" + "423570" + "985008" + "687907" + "853269" + "984665", 115792089237316195423570985008687907853269984665);
  }

  /** The codec accepts exactly what the API accepts: its length limit excludes nothing within the bound. */
  lemma CodecAgreesWithApi(s: string)
    ensures ParseUint256(s).Success? <==> ApiAccepts(s)
    ensures ParseUint256(s).Success? ==> ParseUint256(s).value == Value(s)
  {
    if Canonical(s) && |s| > 78 {
      CanonicalAtLeast(s);
      PowerGrows(78, |s| - 1);
      MaxBelowPower();
    }
  }

  /** The SQL check, with its lexicographic bound, accepts exactly what the API accepts. */
  lemma SqlAgreesWithApi(s: string)
    ensures SqlAccepts(s, false) <==> ApiAccepts(s)
    ensures SqlAccepts(s, true) <==> PositiveText(s).Success?
  {
    CodecAgreesWithApi(s);
    MaxTextIsMax();
    if Canonical(s) && |s| == 78 {
      TextOrderIsNumeric(s, MAX_TEXT);
    } else if Canonical(s) && |s| < 78 {
      ShorterIsSmaller(s, MAX_TEXT);
    }
    if Canonical(s) {
      CanonicalIsText(s);
    }
  }

  lemma MaxBelowPower()
    ensures UINT256_MAX < Pow10(78)
  {
    MaxTextIsMax();
    ValueBelowPower(MAX_TEXT);
  }

  /** What the codec writes, every check accepts, and it reads back as the same number. */
  lemma WrittenTextIsAccepted(n: nat)
    requires n <= UINT256_MAX
    ensures CanonicalText(n).Success? && ParseUint256(CanonicalText(n).value) == Success(n)
    ensures SqlAccepts(CanonicalText(n).value, false) && ApiAccepts(CanonicalText(n).value)
  {
    TextReadsBack(n);
    SqlAgreesWithApi(Text(n));
    CodecAgreesWithApi(Text(n));
  }

  /** An accepted text is the one the codec writes for its number. */
  lemma AcceptedTextIsWritten(s: string)
    requires SqlAccepts(s, false)
    ensures ParseUint256(s).Success? && CanonicalText(ParseUint256(s).value) == Success(s)
  {
    SqlAgreesWithApi(s);
    CodecAgreesWithApi(s);
    CanonicalIsText(s);
  }

  /** listSales orders by length, then text: numerically, on every pair of stored ids. */
  lemma ListingOrderIsNumeric(a: string, b: string)
    requires SqlAccepts(a, false) && SqlAccepts(b, false)
    ensures ParseUint256(a).Success? && ParseUint256(b).Success?
    ensures LengthThenText(a, b) <==> ParseUint256(a).value <= ParseUint256(b).value
  {
    AcceptedTextIsWritten(a);
    AcceptedTextIsWritten(b);
    LengthOrderIsNumeric(a, b);
  }
}
