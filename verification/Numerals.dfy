/** Positional numerals: strconv's FormatInt and FormatUint, and the parsing that undoes them. */
module Numerals {

  import opened Wrappers

  type byte = x: int | 0 <= x < 0x100

  function Digit(d: nat): (c: char)
    requires d < 36
    ensures '0' <= c <= '9' || 'a' <= c <= 'z'
  {
    if d < 10 then '0' + d as char else 'a' + (d - 10) as char
  }

  function DigitValue(c: char): (d: Option<nat>)
    ensures d.Some? ==> d.value < 36
  {
    if '0' <= c <= '9' then Some((c - '0') as nat)
    else if 'a' <= c <= 'z' then Some((c - 'a') as nat + 10)
    else if 'A' <= c <= 'Z' then Some((c - 'A') as nat + 10)
    else None
  }

  predicate IsDigitOf(c: char, base: nat) {
    DigitValue(c).Some? && DigitValue(c).value < base
  }

  function Format(n: nat, base: nat): (s: string)
    requires 2 <= base <= 36
    ensures |s| > 0
  {
    if n < base then [Digit(n)] else Format(n / base, base) + [Digit(n % base)]
  }

  /** The value of a string of digits, read from the left. */
  function Value(s: string, base: nat): Option<nat> {
    if s == "" then Some(0)
    else
      var last := s[|s| - 1];
      var front := Value(s[..|s| - 1], base);
      if front.Some? && IsDigitOf(last, base) then Some(front.value * base + DigitValue(last).value) else None
  }

  lemma DigitRoundTrip(d: nat)
    requires d < 36
    ensures DigitValue(Digit(d)) == Some(d)
  {
  }

  lemma ValueSnoc(s: string, d: nat, base: nat)
    requires d < base <= 36
    requires Value(s, base).Some?
    ensures Value(s + [Digit(d)], base) == Some(Value(s, base).value * base + d)
  {
    var t := s + [Digit(d)];
    DigitRoundTrip(d);
    assert t[..|t| - 1] == s;
  }

  lemma QuotientRemainder(n: nat, base: nat)
    requires 2 <= base <= n
    ensures 0 <= n / base < n && 0 <= n % base < base
    ensures (n / base) * base + n % base == n
  {
  }

  lemma {:induction false} FormatRoundTrip(n: nat, base: nat)
    requires 2 <= base <= 36
    ensures Value(Format(n, base), base) == Some(n)
    decreases n
  {
    if n < base {
      ValueSnoc("", n, base);
      assert "" + [Digit(n)] == [Digit(n)];
    } else {
      var q, r := n / base, n % base;
      QuotientRemainder(n, base);
      FormatRoundTrip(q, base);
      ValueSnoc(Format(q, base), r, base);
    }
  }

  lemma FormatInjective(m: nat, n: nat, base: nat)
    requires 2 <= base <= 36
    requires Format(m, base) == Format(n, base)
    ensures m == n
  {
    FormatRoundTrip(m, base);
    FormatRoundTrip(n, base);
  }

  lemma {:induction false} FormatDigits(n: nat, base: nat)
    requires 2 <= base <= 36
    ensures forall i :: 0 <= i < |Format(n, base)| ==> IsDigitOf(Format(n, base)[i], base)
    ensures n > 0 ==> Format(n, base)[0] != '0'
    decreases n
  {
    if n < base {
      DigitRoundTrip(n);
    } else {
      hide Digit;
      hide DigitValue;
      QuotientRemainder(n, base);
      var q, r := n / base, n % base;
      FormatDigits(q, base);
      DigitRoundTrip(r);
      assert Format(n, base) == Format(q, base) + [Digit(r)];
    }
  }

  /** Signed decimal, as fmt.Sprint and %d print an integer. */
  function Decimal(n: int): (s: string)
    ensures |s| > 0
  {
    if n < 0 then "-" + Format(-n, 10) else Format(n, 10)
  }

  lemma DecimalInjective(m: int, n: int)
    requires Decimal(m) == Decimal(n)
    ensures m == n
  {
    DecimalSign(m);
    DecimalSign(n);
    if m < 0 {
      assert Format(-m, 10) == Decimal(m)[1..];
      FormatInjective(-m, -n, 10);
    } else {
      FormatInjective(m, n, 10);
    }
  }

  lemma DecimalSign(n: int)
    ensures Decimal(n)[0] == '-' <==> n < 0
    ensures Decimal(n)[0] != '-' ==> IsDigitOf(Decimal(n)[0], 10)
  {
    if n >= 0 {
      FormatDigits(n, 10);
    }
  }

  function Power(base: nat, n: nat): nat {
    if n == 0 then 1 else base * Power(base, n - 1)
  }

  /** Exactly `width` digits. */
  function Padded(n: nat, base: nat, width: nat): (s: string)
    requires 2 <= base <= 36
    ensures |s| == width
    decreases width
  {
    if width == 0 then "" else Padded(n / base, base, width - 1) + [Digit(n % base)]
  }

  lemma QuotientBound(n: nat, base: nat, p: nat)
    requires 2 <= base
    requires n < base * p
    ensures n / base < p
    ensures (n / base) * base + n % base == n
    ensures n % base < base
  {
  }

  lemma {:induction false} PaddedRoundTrip(n: nat, base: nat, width: nat)
    requires 2 <= base <= 36
    requires n < Power(base, width)
    ensures Value(Padded(n, base, width), base) == Some(n)
    decreases width
  {
    hide Digit;
    hide Value;
    PowerStep(base, width);
    hide Power;
    if width == 0 {
      EmptyValue(base);
    } else {
      var q, r := n / base, n % base;
      QuotientBound(n, base, Power(base, width - 1));
      PaddedRoundTrip(q, base, width - 1);
      ValueSnoc(Padded(q, base, width - 1), r, base);
    }
  }

  lemma PowerStep(base: nat, n: nat)
    ensures Power(base, n) == if n == 0 then 1 else base * Power(base, n - 1)
  {
  }

  lemma EmptyValue(base: nat)
    ensures Value("", base) == Some(0)
  {
  }

}
