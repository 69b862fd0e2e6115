/** Decimal text and the numbers it stands for. */
module Decimal {
  predicate IsDigit(c: char) {
    '0' <= c <= '9'
  }

  predicate AllDigits(s: string) {
    forall c <- s :: IsDigit(c)
  }

  function DigitValue(c: char): (d: nat)
    requires IsDigit(c)
    ensures d < 10
  {
    (c - '0') as nat
  }

  function DigitOf(d: nat): (c: char)
    requires d < 10
    ensures IsDigit(c) && DigitValue(c) == d
  {
    '0' + d as char
  }

  function Pow10(n: nat): (p: nat)
    ensures p > 0
  {
    if n == 0 then 1 else 10 * Pow10(n - 1)
  }

  /** BigInt(text) on digits; the empty text is zero. */
  function Value(s: string): nat
    requires AllDigits(s)
  {
    if s == "" then 0 else 10 * Value(s[..|s| - 1]) + DigitValue(s[|s| - 1])
  }

  /** toString(10). */
  function Text(n: nat): (s: string)
    ensures AllDigits(s) && |s| >= 1
  {
    if n < 10 then [DigitOf(n)] else Text(n / 10) + [DigitOf(n % 10)]
  }

  /** ^(0|[1-9][0-9]*)$ */
  predicate Canonical(s: string) {
    s == "0" || (|s| >= 1 && '1' <= s[0] <= '9' && AllDigits(s))
  }

  /** SQL's text order (and JavaScript's). */
  predicate TextAtMost(a: string, b: string) {
    a == "" || (b != "" && (a[0] < b[0] || (a[0] == b[0] && TextAtMost(a[1..], b[1..]))))
  }

  lemma {:induction false} ValueBelowPower(s: string)
    requires AllDigits(s)
    ensures Value(s) < Pow10(|s|)
  {
    if s != "" {
      var init := s[..|s| - 1];
      ValueBelowPower(init);
      assert Pow10(|s|) == 10 * Pow10(|init|);
    }
  }

  lemma TenTimes(d: nat, p: nat)
    ensures 10 * (d * p) == d * (10 * p)
  {
  }

  lemma {:induction false} ValueOfConcat(a: string, b: string)
    requires AllDigits(a) && AllDigits(b)
    ensures AllDigits(a + b) && Value(a + b) == Value(a) * Pow10(|b|) + Value(b)
  {
    if b == "" {
      assert a + b == a;
    } else {
      var init := b[..|b| - 1];
      ValueOfConcat(a, init);
      assert (a + b)[..|a + b| - 1] == a + init;
      assert Pow10(|b|) == 10 * Pow10(|init|);
      TenTimes(Value(a), Pow10(|init|));
    }
  }

  /** The first digit counts the most. */
  lemma ValueByHead(s: string)
    requires AllDigits(s) && s != ""
    ensures Value(s) == DigitValue(s[0]) * Pow10(|s| - 1) + Value(s[1..])
  {
    var head, tail := [s[0]], s[1..];
    assert Value(head) == DigitValue(s[0]) by {
      assert head[..0] == "";
    }
    ValueOfConcat(head, tail);
    assert s == head + tail;
    hide Value, AllDigits, Pow10;
  }

  /** Text of a number reads back as the number, and is canonical. */
  lemma {:induction false} TextReadsBack(n: nat)
    ensures Value(Text(n)) == n && Canonical(Text(n))
  {
    if n < 10 {
      assert Text(n)[..0] == "";
    } else {
      TextReadsBack(n / 10);
      assert Text(n)[..|Text(n)| - 1] == Text(n / 10);
    }
  }

  /** A canonical text is the text of its value: one spelling per number. */
  lemma {:induction false} CanonicalIsText(s: string)
    requires Canonical(s)
    ensures Text(Value(s)) == s
  {
    var init := s[..|s| - 1];
    if |s| == 1 {
      assert init == "" && s == [s[0]];
    } else {
      CanonicalIsText(init);
      CanonicalAtLeast(init);
      assert Value(s) / 10 == Value(init) && Value(s) % 10 == DigitValue(s[|s| - 1]);
      assert s == init + [s[|s| - 1]];
    }
  }

  lemma CanonicalAtLeast(s: string)
    requires Canonical(s) && s != "0"
    ensures Value(s) >= Pow10(|s| - 1) >= 1
  {
    ValueByHead(s);
    HeadPower(DigitValue(s[0]), Pow10(|s| - 1));
  }

  lemma HeadPower(d: nat, p: nat)
    requires d >= 1
    ensures d * p >= p
  {
  }

  lemma {:induction false} PowerGrows(a: nat, b: nat)
    requires a <= b
    ensures Pow10(a) <= Pow10(b)
  {
    if a < b {
      PowerGrows(a, b - 1);
    }
  }

  lemma PowerReflects(a: nat, b: nat)
    requires Pow10(a) < Pow10(b)
    ensures a < b
  {
    if b <= a {
      PowerGrows(b, a);
    }
  }

  /** Of two texts of one length, the lexicographically smaller is the smaller number. */
  lemma {:induction false} TextOrderIsNumeric(a: string, b: string)
    requires AllDigits(a) && AllDigits(b) && |a| == |b|
    ensures TextAtMost(a, b) <==> Value(a) <= Value(b)
  {
    if a != "" {
      ValueByHead(a);
      ValueByHead(b);
      ValueBelowPower(a[1..]);
      ValueBelowPower(b[1..]);
      TextOrderIsNumeric(a[1..], b[1..]);
      HeadDecides(DigitValue(a[0]), Value(a[1..]), DigitValue(b[0]), Value(b[1..]), Pow10(|a| - 1));
    }
  }

  lemma HeadDecides(x: nat, u: nat, y: nat, v: nat, p: nat)
    requires u < p && v < p
    ensures x < y ==> x * p + u < y * p + v
    ensures y < x ==> y * p + v < x * p + u
  {
    if x < y {
      Multiples(x, y, p);
    } else if y < x {
      Multiples(y, x, p);
    }
  }

  lemma Multiples(x: nat, y: nat, p: nat)
    requires x < y
    ensures x * p + p <= y * p
  {
    HeadPower(y - x, p);
    assert y * p == x * p + (y - x) * p;
  }

  /** ORDER BY length(text), text puts canonical texts in numeric order. */
  predicate LengthThenText(a: string, b: string) {
    |a| < |b| || (|a| == |b| && TextAtMost(a, b))
  }

  lemma LengthOrderIsNumeric(a: string, b: string)
    requires Canonical(a) && Canonical(b)
    ensures LengthThenText(a, b) <==> Value(a) <= Value(b)
  {
    if |a| == |b| {
      TextOrderIsNumeric(a, b);
    } else if |a| < |b| {
      ShorterIsSmaller(a, b);
    } else {
      ShorterIsSmaller(b, a);
    }
  }

  lemma ShorterIsSmaller(a: string, b: string)
    requires Canonical(a) && Canonical(b) && |a| < |b|
    ensures Value(a) < Value(b)
  {
    ValueBelowPower(a);
    CanonicalAtLeast(b);
    PowerGrows(|a|, |b| - 1);
  }
}
