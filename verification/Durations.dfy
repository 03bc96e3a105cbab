/** Go's text form of a duration ("1h0m2.5s", "1.2ms", "0s"), and a reader that undoes it. */
module Durations {

  import opened FlowCollectorTypes
  import opened Json
  import opened Numerals
  import opened Wrappers

  datatype Unit = Nanoseconds | Microseconds | Milliseconds | Seconds | Minutes | Hours

  function Symbol(u: Unit): string {
    match u
    case Nanoseconds => "ns"
    case Microseconds => "µs"
    case Milliseconds => "ms"
    case Seconds => "s"
    case Minutes => "m"
    case Hours => "h"
  }

  function Nanos(u: Unit): nat {
    match u
    case Nanoseconds => 1
    case Microseconds => 1_000
    case Milliseconds => 1_000_000
    case Seconds => 1_000_000_000
    case Minutes => 60_000_000_000
    case Hours => 3_600_000_000_000
  }

  /** How many digits a fraction of the unit may have. */
  function Precision(u: Unit): nat {
    match u
    case Microseconds => 3
    case Milliseconds => 6
    case Seconds => 9
    case _ => 0
  }

  datatype Part = Part(whole: nat, fraction: string, unit: Unit)

  /** The last `width` digits of n, from the first one on if `all`, without trailing zeros otherwise. */
  function Fraction(n: nat, width: nat, all: bool): (s: string)
    ensures |s| <= width
    ensures all ==> |s| == width
    decreases width
  {
    if width == 0 then ""
    else
      var keep := all || n % 10 != 0;
      Fraction(n / 10, width - 1, keep) + (if keep then [Digit(n % 10)] else "")
  }

  /** Below a second, the largest unit that leaves a whole part. */
  function SmallPart(u: nat): Part {
    if u == 0 then Part(u, "", Seconds)
    else if u < 1_000 then Part(u, "", Nanoseconds)
    else if u < 1_000_000 then Part(u / 1_000, Fraction(u, 3, false), Microseconds)
    else Part(u / 1_000_000, Fraction(u, 6, false), Milliseconds)
  }

  function PartsOf(u: nat): (parts: seq<Part>)
    ensures |parts| > 0
  {
    if u < 1_000_000_000 then [SmallPart(u)]
    else
      var seconds := u / 1_000_000_000;
      Before(seconds) + [Part(seconds % 60, Fraction(u, 9, false), Seconds)]
  }

  /** The minutes, and the hours, that stand before the seconds. */
  function Before(seconds: nat): seq<Part> {
    if seconds < 60 then []
    else if seconds < 3600 then [Part(seconds / 60, "", Minutes)]
    else [Part(seconds / 3600, "", Hours), Part(seconds / 60 % 60, "", Minutes)]
  }

  function RenderPart(p: Part): string {
    Format(p.whole, 10) + ((if p.fraction == "" then "" else "." + p.fraction) + Symbol(p.unit))
  }

  function RenderParts(parts: seq<Part>): string {
    if parts == [] then "" else RenderPart(parts[0]) + RenderParts(parts[1..])
  }

  function FormatDuration(d: int64): string {
    var n: int := d;
    if n < 0 then "-" + RenderParts(PartsOf(-n)) else RenderParts(PartsOf(n))
  }

  // ---- Reading ----

  function ReadUnit(s: string): (r: Option<Read<Unit>>)
    ensures r.Some? ==> |r.value.rest| <= |s|
  {
    if |s| >= 2 && s[..2] == "ns" then Some(Read(Nanoseconds, s[2..]))
    else if |s| >= 2 && s[..2] == "µs" then Some(Read(Microseconds, s[2..]))
    else if |s| >= 2 && s[..2] == "ms" then Some(Read(Milliseconds, s[2..]))
    else if s != "" && s[0] == 's' then Some(Read(Seconds, s[1..]))
    else if s != "" && s[0] == 'm' then Some(Read(Minutes, s[1..]))
    else if s != "" && s[0] == 'h' then Some(Read(Hours, s[1..]))
    else None
  }

  function ReadFraction(s: string): (r: Read<string>)
    ensures |r.rest| <= |s|
  {
    if s != "" && s[0] == '.' then
      var n := DigitRun(s[1..]);
      Read(s[1..][..n], s[1..][n..])
    else Read("", s)
  }

  function ReadPart(s: string): (r: Option<Read<Part>>)
    ensures r.Some? ==> |r.value.rest| < |s|
  {
    var whole := ReadNatural(s);
    if whole.None? then None
    else
      var fraction := ReadFraction(whole.value.rest);
      var unit := ReadUnit(fraction.rest);
      if unit.None? then None
      else Some(Read(Part(whole.value.value, fraction.value, unit.value.value), unit.value.rest))
  }

  function ReadParts(s: string): Option<seq<Part>>
    decreases |s|
  {
    if s == "" then Some([])
    else
      var p := ReadPart(s);
      if p.None? then None
      else
        var tail := ReadParts(p.value.rest);
        if tail.None? then None else Some([p.value.value] + tail.value)
  }

  function Zeros(n: nat): (s: string)
    ensures |s| == n
  {
    if n == 0 then "" else "0" + Zeros(n - 1)
  }

  /** The nanoseconds of a part: its whole units, and its fraction read to the precision of the unit. */
  function PartNanos(p: Part): Option<nat> {
    if |p.fraction| > Precision(p.unit) then None
    else
      var f := Numerals.Value(p.fraction + Zeros(Precision(p.unit) - |p.fraction|), 10);
      if f.None? then None else Some(p.whole * Nanos(p.unit) + f.value)
  }

  function PartsNanos(parts: seq<Part>): Option<nat> {
    if parts == [] then Some(0)
    else
      var head := PartNanos(parts[0]);
      var tail := PartsNanos(parts[1..]);
      if head.Some? && tail.Some? then Some(head.value + tail.value) else None
  }

  function ParseDuration(s: string): Option<int> {
    var negative := s != "" && s[0] == '-';
    var u := Unsigned(if negative then s[1..] else s);
    if u.None? then None
    else
      var n: int := u.value;
      Some(if negative then -n else n)
  }

  function Unsigned(s: string): Option<nat> {
    var parts := ReadParts(s);
    if parts.None? then None else PartsNanos(parts.value)
  }

  // ---- Reading undoes formatting ----

  predicate Digits(s: string) {
    forall i :: 0 <= i < |s| ==> IsDigitOf(s[i], 10)
  }

  lemma {:induction false} FractionPads(n: nat, width: nat)
    ensures Fraction(n, width, true) == Padded(n, 10, width)
    ensures var f := Fraction(n, width, false); f + Zeros(width - |f|) == Padded(n, 10, width)
    ensures Digits(Fraction(n, width, true)) && Digits(Fraction(n, width, false))
    decreases width
  {
    if width == 0 {
    } else {
      FractionPads(n / 10, width - 1);
      DigitRoundTrip(n % 10);
      if n % 10 == 0 {
        var f := Fraction(n, width, false);
        ZerosSnoc(width - 1 - |f|);
        assert f + Zeros(width - |f|) == (f + Zeros(width - 1 - |f|)) + "0";
      } else {
        var f := Fraction(n, width, false);
        assert f + Zeros(width - |f|) == f;
      }
    }
  }

  lemma {:induction false} ZerosSnoc(n: nat)
    ensures Zeros(n + 1) == Zeros(n) + "0"
  {
    if n == 0 {
    } else {
      ZerosSnoc(n - 1);
      assert Zeros(n + 1) == "0" + Zeros(n);
      assert "0" + (Zeros(n - 1) + "0") == ("0" + Zeros(n - 1)) + "0";
    }
  }

  /** The value of the last `width` digits of n, and what is left of n without them. */
  function Low(n: nat, width: nat): nat {
    if width == 0 then 0 else 10 * Low(n / 10, width - 1) + n % 10
  }

  function High(n: nat, width: nat): nat {
    if width == 0 then n else High(n / 10, width - 1)
  }

  /** The part h above a power p of ten and the part l below it, with one more digit d at the end. */
  lemma OneMoreDigit(m: nat, h: nat, p: nat, l: nat, d: nat)
    requires m == h * p + l
    ensures 10 * m + d == h * (10 * p) + (10 * l + d)
  {
    TenTimes(h, p);
  }

  lemma TenTimes(h: nat, p: nat)
    ensures 10 * (h * p) == h * (10 * p)
  {
  }

  lemma LastDigit(n: nat)
    ensures n == 10 * (n / 10) + n % 10 && n % 10 < 10
  {
  }

  lemma {:induction false} HighLow(n: nat, width: nat)
    ensures n == High(n, width) * Power(10, width) + Low(n, width)
    ensures Low(n, width) < Power(10, width)
    decreases width
  {
    if width == 0 {
      assert Power(10, 0) == 1;
    } else {
      var h, p, l := High(n / 10, width - 1), Power(10, width - 1), Low(n / 10, width - 1);
      HighLow(n / 10, width - 1);
      LastDigit(n);
      OneMoreDigit(n / 10, h, p, l, n % 10);
    }
  }

  lemma PaddedStep(n: nat, width: nat)
    requires width > 0
    ensures Padded(n, 10, width) == Padded(n / 10, 10, width - 1) + [Digit(n % 10)]
    ensures Low(n, width) == 10 * Low(n / 10, width - 1) + n % 10
    ensures Padded(n, 10, 0) == "" && Low(n, 0) == 0 && Numerals.Value("", 10) == Some(0)
  {
  }

  lemma {:induction false} PaddedLow(n: nat, width: nat)
    ensures Numerals.Value(Padded(n, 10, width), 10) == Some(Low(n, width))
    decreases width
  {
    hide Padded;
    hide Low;
    hide Numerals.Value;
    PaddedStep(n, if width == 0 then 1 else width);
    if width == 0 {
    } else {
      PaddedLow(n / 10, width - 1);
      ValueSnoc(Padded(n / 10, 10, width - 1), n % 10, 10);
    }
  }

  /** A trimmed fraction is worth the digits it was cut from. */
  lemma FractionValue(n: nat, width: nat)
    ensures var f := Fraction(n, width, false);
            Numerals.Value(f + Zeros(width - |f|), 10) == Some(Low(n, width))
  {
    FractionPads(n, width);
    PaddedLow(n, width);
  }

  lemma Powers()
    ensures Power(10, 0) == 1 && Power(10, 3) == 1_000
    ensures Power(10, 6) == 1_000_000 && Power(10, 9) == 1_000_000_000
  {
    assert Power(10, 5) == 10 * Power(10, 4);
    assert Power(10, 8) == 10 * Power(10, 7);
  }

  lemma PlainPart(n: nat, u: Unit)
    requires Precision(u) == 0
    ensures PartNanos(Part(n, "", u)) == Some(n * Nanos(u))
  {
    assert "" + Zeros(0) == "";
  }

  lemma LowIsRemainder(u: nat, width: nat, p: nat)
    requires p == Power(10, width)
    requires (width == 3 && p == 1_000) || (width == 6 && p == 1_000_000) || (width == 9 && p == 1_000_000_000)
    ensures Low(u, width) == u % p
  {
    HighLow(u, width);
    Remainder(u, High(u, width), Low(u, width), p);
  }

  lemma RemainderOfThousand(u: nat, h: nat, l: nat)
    requires u == h * 1_000 + l && l < 1_000
    ensures l == u % 1_000
  {
  }

  lemma RemainderOfMillion(u: nat, h: nat, l: nat)
    requires u == h * 1_000_000 + l && l < 1_000_000
    ensures l == u % 1_000_000
  {
  }

  lemma RemainderOfBillion(u: nat, h: nat, l: nat)
    requires u == h * 1_000_000_000 + l && l < 1_000_000_000
    ensures l == u % 1_000_000_000
  {
  }

  lemma Remainder(u: nat, h: nat, l: nat, p: nat)
    requires p == 1_000 || p == 1_000_000 || p == 1_000_000_000
    requires u == h * p + l && l < p
    ensures l == u % p
  {
    if p == 1_000 {
      RemainderOfThousand(u, h, l);
    } else if p == 1_000_000 {
      RemainderOfMillion(u, h, l);
    } else {
      RemainderOfBillion(u, h, l);
    }
  }

  /** A part made of n units and the fraction of u is worth n units and the remainder of u. */
  lemma SplitPart(n: nat, u: nat, unit: Unit)
    requires Precision(unit) > 0
    ensures PartNanos(Part(n, Fraction(u, Precision(unit), false), unit)) == Some(n * Nanos(unit) + u % Nanos(unit))
  {
    hide Fraction;
    hide Low;
    hide Power;
    hide Numerals.Value;
    Powers();
    FractionValue(u, Precision(unit));
    LowIsRemainder(u, Precision(unit), Nanos(unit));
  }

  lemma {:induction false} ZeroFraction(u: nat, width: nat)
    requires u == 0
    ensures Fraction(u, width, false) == ""
    decreases width
  {
    if width == 0 {
    } else {
      ZeroFraction(u / 10, width - 1);
    }
  }

  lemma ZeroNanos(u: nat, unit: Unit)
    requires u == 0 && Precision(unit) > 0
    ensures PartNanos(Part(u, "", unit)) == Some(u)
  {
    SplitPart(u, u, unit);
    ZeroFraction(u, Precision(unit));
    assert u * Nanos(unit) + u % Nanos(unit) == 0;
  }

  lemma SmallPartNanos(u: nat)
    requires u < 1_000_000_000
    ensures PartNanos(SmallPart(u)) == Some(u)
  {
    assert u == u / 1_000 * 1_000 + u % 1_000;
    assert u == u / 1_000_000 * 1_000_000 + u % 1_000_000;
    if u == 0 {
      ZeroNanos(u, Seconds);
    } else if u < 1_000 {
      PlainPart(u, Nanoseconds);
    } else if u < 1_000_000 {
      SplitPart(u / 1_000, u, Microseconds);
    } else {
      SplitPart(u / 1_000_000, u, Milliseconds);
    }
  }

  /** The parts of a duration are worth the duration. */
  lemma PartsNanosOf(u: nat)
    ensures PartsNanos(PartsOf(u)) == Some(u)
  {
    if u < 1_000_000_000 {
      SmallPartNanos(u);
      OnePart(SmallPart(u), u);
    } else {
      SecondsNanos(u, u / 1_000_000_000);
    }
  }

  lemma MinutesNanos(minutes: nat, rest: seq<Part>, n: nat)
    requires PartsNanos(rest) == Some(n)
    ensures PartsNanos([Part(minutes, "", Minutes)] + rest) == Some(minutes * 60_000_000_000 + n)
  {
    PlainPart(minutes, Minutes);
    MorePart(Part(minutes, "", Minutes), rest, minutes * 60_000_000_000, n);
  }

  lemma HoursNanos(hours: nat, rest: seq<Part>, n: nat)
    requires PartsNanos(rest) == Some(n)
    ensures PartsNanos([Part(hours, "", Hours)] + rest) == Some(hours * 3_600_000_000_000 + n)
  {
    PlainPart(hours, Hours);
    MorePart(Part(hours, "", Hours), rest, hours * 3_600_000_000_000, n);
  }

  lemma LastNanos(seconds: nat, u: nat)
    ensures PartsNanos([Part(seconds, Fraction(u, 9, false), Seconds)])
         == Some(seconds * 1_000_000_000 + u % 1_000_000_000)
  {
    SplitPart(seconds, u, Seconds);
    OnePart(Part(seconds, Fraction(u, 9, false), Seconds), seconds * 1_000_000_000 + u % 1_000_000_000);
  }

  lemma HoursAndMinutesNanos(hours: nat, minutes: nat, last: seq<Part>, n: nat)
    requires PartsNanos(last) == Some(n)
    ensures PartsNanos([Part(minutes, "", Minutes)] + last) == Some(minutes * 60_000_000_000 + n)
    ensures PartsNanos([Part(hours, "", Hours)] + ([Part(minutes, "", Minutes)] + last))
         == Some(hours * 3_600_000_000_000 + (minutes * 60_000_000_000 + n))
  {
    MinutesNanos(minutes, last, n);
    HoursNanos(hours, [Part(minutes, "", Minutes)] + last, minutes * 60_000_000_000 + n);
  }

  lemma BeforeNanos(seconds: nat, last: seq<Part>, n: nat)
    requires PartsNanos(last) == Some(n)
    ensures PartsNanos(Before(seconds) + last) == Some(seconds / 60 * 60_000_000_000 + n)
  {
    if seconds < 60 {
      assert [] + last == last;
    } else if seconds < 3600 {
      MinutesNanos(seconds / 60, last, n);
    } else {
      var h, m := Part(seconds / 3600, "", Hours), Part(seconds / 60 % 60, "", Minutes);
      HoursAndMinutesNanos(h.whole, m.whole, last, n);
      assert [h, m] + last == [h] + ([m] + last);
      assert seconds / 3600 == seconds / 60 / 60;
    }
  }

  lemma SecondsNanos(u: nat, seconds: nat)
    requires u >= 1_000_000_000 && seconds == u / 1_000_000_000
    ensures PartsNanos(PartsOf(u)) == Some(u)
  {
    var n := seconds % 60 * 1_000_000_000 + u % 1_000_000_000;
    LastNanos(seconds % 60, u);
    BeforeNanos(seconds, [Part(seconds % 60, Fraction(u, 9, false), Seconds)], n);
    assert seconds / 60 * 60_000_000_000 + n == u;
  }

  lemma OnePart(p: Part, n: nat)
    requires PartNanos(p) == Some(n)
    ensures PartsNanos([p]) == Some(n)
  {
    assert [p][1..] == [];
  }

  lemma MorePart(p: Part, rest: seq<Part>, n: nat, m: nat)
    requires PartNanos(p) == Some(n) && PartsNanos(rest) == Some(m)
    ensures PartsNanos([p] + rest) == Some(n + m)
  {
    assert ([p] + rest)[1..] == rest;
  }

  /** What may follow a part: nothing, or the digits of the next one. */
  predicate PartEnds(rest: string) {
    rest == "" || IsDigitOf(rest[0], 10)
  }

  lemma UnitRoundTrip(u: Unit, rest: string)
    requires PartEnds(rest)
    ensures ReadUnit(Symbol(u) + rest) == Some(Read(u, rest))
    ensures !IsDigitOf(Symbol(u)[0], 10) && Symbol(u)[0] != '.'
  {
    var s := Symbol(u) + rest;
    assert s[|Symbol(u)|..] == rest;
    if |Symbol(u)| == 2 {
      assert s[..2] == Symbol(u);
    } else if |s| >= 2 {
      assert s[1] == rest[0];
      assert s[..2][0] == s[0] && s[..2][1] == s[1];
    }
  }

  lemma FractionRoundTrip(fraction: string, after: string)
    requires Digits(fraction)
    requires after != "" && !IsDigitOf(after[0], 10) && after[0] != '.'
    ensures ReadFraction((if fraction == "" then "" else "." + fraction) + after) == Read(fraction, after)
  {
    if fraction == "" {
      assert "" + after == after;
    } else {
      var s := "." + fraction + after;
      assert s[1..] == fraction + after;
      DigitRunStops(fraction, after);
      assert (fraction + after)[..|fraction|] == fraction;
      assert (fraction + after)[|fraction|..] == after;
    }
  }

  lemma ReadPartAt(s: string, p: Part, afterWhole: string, afterFraction: string, rest: string)
    requires ReadNatural(s) == Some(Read(p.whole, afterWhole))
    requires ReadFraction(afterWhole) == Read(p.fraction, afterFraction)
    requires ReadUnit(afterFraction) == Some(Read(p.unit, rest))
    ensures ReadPart(s) == Some(Read(p, rest))
  {
  }

  lemma PartSplit(p: Part, rest: string)
    ensures RenderPart(p) + rest
         == Format(p.whole, 10) + ((if p.fraction == "" then "" else "." + p.fraction) + (Symbol(p.unit) + rest))
  {
  }

  lemma PartRoundTrip(p: Part, rest: string)
    requires Digits(p.fraction) && PartEnds(rest)
    ensures ReadPart(RenderPart(p) + rest) == Some(Read(p, rest))
  {
    var unit := Symbol(p.unit) + rest;
    var point := if p.fraction == "" then "" else "." + p.fraction;
    UnitRoundTrip(p.unit, rest);
    assert unit[0] == Symbol(p.unit)[0];
    FractionRoundTrip(p.fraction, unit);
    var fraction := point + unit;
    assert fraction[0] == if p.fraction == "" then unit[0] else '.';
    NaturalRoundTrip(p.whole, fraction);
    ReadPartAt(Format(p.whole, 10) + fraction, p, fraction, unit, rest);
    PartSplit(p, rest);
  }

  lemma PartStarts(p: Part, rest: string)
    ensures PartEnds(RenderPart(p) + rest) && RenderPart(p) + rest != ""
  {
    FormatDigits(p.whole, 10);
    assert (RenderPart(p) + rest)[0] == Format(p.whole, 10)[0];
  }

  lemma {:induction false} PartsRoundTrip(parts: seq<Part>)
    requires forall i :: 0 <= i < |parts| ==> Digits(parts[i].fraction)
    ensures ReadParts(RenderParts(parts)) == Some(parts)
    ensures PartEnds(RenderParts(parts))
    decreases |parts|
  {
    hide ReadPart;
    hide RenderPart;
    hide Digits;
    hide IsDigitOf;
    if parts == [] {
    } else {
      var rest := RenderParts(parts[1..]);
      PartsRoundTrip(parts[1..]);
      PartRoundTrip(parts[0], rest);
      PartStarts(parts[0], rest);
      assert [parts[0]] + parts[1..] == parts;
    }
  }

  lemma PartsWritten(u: nat)
    ensures forall i :: 0 <= i < |PartsOf(u)| ==> Digits(PartsOf(u)[i].fraction)
  {
    FractionPads(u, 3);
    FractionPads(u, 6);
    FractionPads(u, 9);
  }

  lemma StartsWithDigit(parts: seq<Part>)
    requires parts != []
    ensures RenderParts(parts) != "" && RenderParts(parts)[0] != '-'
  {
    FormatDigits(parts[0].whole, 10);
    assert RenderParts(parts)[0] == Format(parts[0].whole, 10)[0];
  }

  lemma ParseAt(s: string, negative: bool, body: string, u: nat)
    requires s == if negative then "-" + body else body
    requires body != "" && body[0] != '-'
    requires Unsigned(body) == Some(u)
    ensures ParseDuration(s) == Some(if negative then -(u as int) else u as int)
  {
    hide Unsigned;
    assert negative ==> s[1..] == body;
  }

  /** Every 64-bit duration is read back from its text. */
  lemma DurationRoundTrip(d: int64)
    ensures ParseDuration(FormatDuration(d)) == Some(d)
  {
    var n: int := d;
    var u := if n < 0 then -n else n;
    var parts := PartsOf(u);
    PartsWritten(u);
    PartsRoundTrip(parts);
    PartsNanosOf(u);
    StartsWithDigit(parts);
    ParseAt(FormatDuration(d), n < 0, RenderParts(parts), u);
  }

  // ---- The form of the text ----

  predicate Trimmed(fraction: string) {
    fraction == "" || fraction[|fraction| - 1] != '0'
  }

  lemma {:induction false} FractionTrimmed(n: nat, width: nat)
    ensures Trimmed(Fraction(n, width, false))
    decreases width
  {
    if width == 0 {
    } else if n % 10 == 0 {
      FractionTrimmed(n / 10, width - 1);
    }
  }

  function Units(parts: seq<Part>): seq<Unit> {
    seq(|parts|, i requires 0 <= i < |parts| => parts[i].unit)
  }

  predicate Canonical(parts: seq<Part>) {
    && (forall i :: 0 <= i < |parts| ==> Trimmed(parts[i].fraction))
    && (forall i :: 0 < i < |parts| ==> parts[i].whole < 60)
  }

  lemma SmallCanonical(u: nat)
    requires u < 1_000_000_000
    ensures Canonical([SmallPart(u)]) && (u > 0 ==> SmallPart(u).whole > 0)
    ensures SmallPart(u).unit
         == if u >= 1_000_000 then Milliseconds else if u >= 1_000 then Microseconds
            else if u > 0 then Nanoseconds else Seconds
  {
    FractionTrimmed(u, 6);
    FractionTrimmed(u, 3);
    hide Fraction;
  }

  lemma BeforeCanonical(seconds: nat)
    ensures var parts := Before(seconds);
            && Canonical(parts) && (parts != [] ==> parts[0].whole > 0)
            && Units(parts) == if seconds >= 3600 then [Hours, Minutes] else if seconds >= 60 then [Minutes] else []
  {
    assert seconds / 60 % 60 < 60;
  }

  lemma WholeSeconds(u: nat)
    requires u >= 1_000_000_000
    ensures var seconds := u / 1_000_000_000;
            && seconds >= 1
            && (seconds >= 60 <==> u >= 60_000_000_000) && (seconds >= 3600 <==> u >= 3600_000_000_000)
            && seconds % 60 < 60 && (seconds < 60 ==> seconds % 60 == seconds)
            && PartsOf(u) == Before(seconds) + [Part(seconds % 60, Fraction(u, 9, false), Seconds)]
  {
    hide Before;
    hide Fraction;
  }

  lemma LargeCanonical(u: nat)
    requires u >= 1_000_000_000
    ensures var parts := PartsOf(u);
            && Canonical(parts) && parts[0].whole > 0
            && Units(parts)
            == if u >= 3600_000_000_000 then [Hours, Minutes, Seconds]
               else if u >= 60_000_000_000 then [Minutes, Seconds]
               else [Seconds]
  {
    hide PartsOf;
    hide Before;
    hide Fraction;
    hide Canonical;
    hide Units;
    WholeSeconds(u);
    var seconds := u / 1_000_000_000;
    BeforeCanonical(seconds);
    FractionTrimmed(u, 9);
    Appended(Before(seconds), Part(seconds % 60, Fraction(u, 9, false), Seconds));
    NoUnits(Before(seconds));
  }

  lemma NoUnits(parts: seq<Part>)
    ensures parts == [] <==> Units(parts) == []
  {
  }

  lemma Appended(parts: seq<Part>, last: Part)
    requires Canonical(parts) && Trimmed(last.fraction) && last.whole < 60
    ensures Canonical(parts + [last]) && Units(parts + [last]) == Units(parts) + [last.unit]
  {
    hide Trimmed;
  }

  /** As the documentation of time.Duration has it: no leading zero units, "0s" for zero, below a second the unit that
      makes the leading digit non-zero, no trailing zeros; the units that follow another count up to their next one. */
  lemma PartsCanonical(u: nat)
    ensures var parts := PartsOf(u);
            && Canonical(parts) && (u > 0 ==> parts[0].whole > 0)
            && Units(parts)
            == if u >= 3600_000_000_000 then [Hours, Minutes, Seconds]
               else if u >= 60_000_000_000 then [Minutes, Seconds]
               else if u >= 1_000_000_000 || u == 0 then [Seconds]
               else if u >= 1_000_000 then [Milliseconds]
               else if u >= 1_000 then [Microseconds]
               else [Nanoseconds]
  {
    if u < 1_000_000_000 {
      SmallCanonical(u);
      hide SmallPart;
    } else {
      LargeCanonical(u);
    }
  }

}
