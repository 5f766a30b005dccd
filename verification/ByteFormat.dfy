/** Printing byte counts, and what reading a printed count gives back.

    Below 2^50, the range in which printing returns at all, dividing by a power of 1024 is exact in
    double precision, so exact decimals describe the printed digits exactly. */
module ByteFormat {
  import opened Wrappers
  import opened Strings
  import opened Units

  const NAMES: seq<string> := ["KiB", "MiB", "GiB", "TiB"]

  /** Outside its range printing indexes past its table of names; the smallest integer is its own
      negation, so there the recursion on the sign never ends. */
  datatype Printed = Text(text: string) | IndexOutOfRange | NeverReturns

  /** How often a number can be divided by 1024 before it is below 1024. */
  function Exponent(n: nat): nat {
    if n < 1024 then 0 else 1 + Exponent(n / 1024)
  }

  function Scale(bytes: nat): nat {
    Pow(1024, Exponent(bytes / 1024) + 1)
  }

  /** The nearest integer to `num / den`; ties go to the even one. */
  function RoundHalfEven(num: nat, den: nat): nat
    requires den > 0
  {
    var q, r := num / den, num % den;
    if 2 * r < den || (2 * r == den && q % 2 == 0) then q else q + 1
  }

  /** A count of hundredths with two digits after the point. */
  function Fixed2(c: nat): string {
    Digits(c / 100) + "." + TwoPlaces(c % 100)
  }

  function TwoPlaces(d: nat): string {
    Digits(d / 10) + Digits(d % 10)
  }

  function Magnitude(bytes: nat): Printed {
    if bytes < 1024 then Text(Digits(bytes) + " B")
    else
      var exp := Exponent(bytes / 1024);
      PowPositive(1024, exp + 1);
      if exp >= |NAMES| then IndexOutOfRange
      else Text(Fixed2(RoundHalfEven(100 * bytes, Scale(bytes))) + " " + NAMES[exp])
  }

  function Formatted(x: int): Printed
    requires IsInt64(x)
  {
    if x == MIN_INT64 then NeverReturns
    else if x >= 0 then Magnitude(x)
    else
      match Magnitude(-x)
      case Text(t) => Text("-" + t)
      case other => other
  }

  lemma {:induction false} ExponentBounds(n: nat)
    requires n > 0
    ensures Pow(1024, Exponent(n)) <= n < Pow(1024, Exponent(n) + 1)
  {
    if n >= 1024 {
      ExponentBounds(n / 1024);
      assert Pow(1024, Exponent(n)) == 1024 * Pow(1024, Exponent(n / 1024));
      assert Pow(1024, Exponent(n) + 1) == 1024 * Pow(1024, Exponent(n / 1024) + 1);
    } else {
      assert Pow(1024, 1) == 1024 * Pow(1024, 0);
    }
  }

  /** The scaled value lies between 1 and 1024. */
  lemma ScaleBounds(bytes: nat)
    requires bytes >= 1024
    ensures Scale(bytes) <= bytes < 1024 * Scale(bytes)
  {
    ExponentBounds(bytes / 1024);
    var e := Exponent(bytes / 1024);
    assert Pow(1024, e + 1) == 1024 * Pow(1024, e);
  }

  lemma {:induction false} PowGrows(base: nat, m: nat, n: nat)
    requires base > 0 && m <= n
    ensures 0 < Pow(base, m) <= Pow(base, n)
    decreases n
  {
    PowPositive(base, n);
    if m < n {
      PowGrows(base, m, n - 1);
      PowPositive(base, n - 1);
      assert Pow(base, n) == base * Pow(base, n - 1);
    }
  }

  lemma Powers()
    ensures Pow(1024, 1) == 0x400 && Pow(1024, 2) == 0x10_0000
    ensures Pow(1024, 3) == 0x4000_0000 && Pow(1024, 4) == 0x100_0000_0000 && Pow(1024, 5) == 0x4_0000_0000_0000
  {
    assert Pow(1024, 0) == 1;
    assert Pow(1024, 1) == 1024 * Pow(1024, 0);
    assert Pow(1024, 2) == 1024 * Pow(1024, 1);
    assert Pow(1024, 3) == 1024 * Pow(1024, 2);
    assert Pow(1024, 4) == 1024 * Pow(1024, 3);
    assert Pow(1024, 5) == 1024 * Pow(1024, 4);
  }

  /** Every divisor on the way to the unit printed, the last one included, is at most the count itself: none of
      them leaves the 64-bit range. The divisors are the powers of 1024 up to that of the unit. */
  lemma DivisorsInRange(bytes: nat, k: nat)
    requires 1024 <= bytes <= MAX_INT64 && k <= Exponent(bytes / 1024)
    ensures 1024 <= Pow(1024, k + 1) <= Scale(bytes) <= bytes
    ensures IsInt64(Pow(1024, k + 1))
    ensures k < |NAMES| ==> Pow(1024, k + 1) == [1024, 1024 * 1024, 1024 * 1024 * 1024, 1024 * 1024 * 1024 * 1024][k]
  {
    ScaleBounds(bytes);
    PowGrows(1024, k + 1, Exponent(bytes / 1024) + 1);
    PowGrows(1024, 1, k + 1);
    Powers();
  }

  /** The loop divides by 1024; its divisor never leaves the 64-bit range. */
  method FormatMagnitude(bytes: int) returns (p: Printed)
    requires 0 <= bytes <= MAX_INT64
    ensures p == Magnitude(bytes)
  {
    if bytes < 1024 {
      return Text(Digits(bytes) + " B");
    }
    var div, exp := 1024, 0;
    var n := bytes / 1024;
    while n >= 1024
      invariant n >= 1 && exp >= 0
      invariant div == Pow(1024, exp + 1) && 0 < div <= MAX_INT64
      invariant div * n <= bytes
      invariant Exponent(bytes / 1024) == exp + Exponent(n)
    {
      ScaleStep(div, n, bytes);
      div := div * 1024;
      exp := exp + 1;
      n := n / 1024;
    }
    if exp >= |NAMES| {
      return IndexOutOfRange;
    }
    p := Text(Fixed2(RoundHalfEven(100 * bytes, div)) + " " + NAMES[exp]);
  }

  lemma MulMonotone(a: nat, b: nat, c: nat)
    requires b <= c
    ensures a * b <= a * c
  {
  }

  lemma ScaleStep(div: nat, n: nat, bytes: nat)
    requires n >= 1024 && div * n <= bytes
    ensures div * 1024 <= bytes && div * 1024 * (n / 1024) <= bytes
  {
    MulMonotone(div, 1024, n);
    MulMonotone(div, 1024 * (n / 1024), n);
  }

  method FormatBytes(bytes: int) returns (p: Printed)
    requires IsInt64(bytes)
    ensures p == Formatted(bytes)
    decreases bytes < 0
  {
    if bytes < 0 {
      if bytes == MIN_INT64 {
        return NeverReturns;
      }
      p := FormatBytes(-bytes);
      match p
      case Text(t) => p := Text("-" + t);
      case other =>
    } else {
      p := FormatMagnitude(bytes);
    }
  }

  /** Which scale a count is printed in. */
  lemma ScaleOf(bytes: nat)
    requires bytes >= 1024
    ensures var e := Exponent(bytes / 1024);
            && (e == 0 <==> bytes < 0x10_0000)
            && (e <= 1 <==> bytes < 0x4000_0000)
            && (e <= 2 <==> bytes < 0x100_0000_0000)
            && (e <= 3 <==> bytes < 0x4_0000_0000_0000)
  {
    var e := Exponent(bytes / 1024);
    ScaleBounds(bytes);
    Powers();
    assert 1024 * Scale(bytes) == Pow(1024, e + 2);
    if e == 0 {
    } else if e == 1 {
    } else if e == 2 {
    } else if e == 3 {
    } else {
      PowGrows(1024, 5, e + 1);
    }
  }

  /** The whole number nearest to a fraction, an even one if two are. */
  predicate Nearest(c: nat, num: nat, den: nat) {
    && 2 * Abs(c * den - num) <= den
    && (2 * Abs(c * den - num) == den ==> c % 2 == 0)
  }

  lemma RoundsToNearest(num: nat, den: nat)
    requires den > 0
    ensures Nearest(RoundHalfEven(num, den), num, den)
  {
    var q, r := num / den, num % den;
    assert num == q * den + r;
    assert (q + 1) * den == q * den + den;
  }

  /** From 1024 on a count is printed in the unit that makes it at least 1 and below 1024, as hundredths rounded to
      the nearest, an even one if two are, with two digits after the point. */
  lemma PrintedIs(bytes: nat, k: nat)
    requires k < 4 && Pow(1024, k + 1) <= bytes < Pow(1024, k + 2)
    ensures Magnitude(bytes).Text?
    ensures var c := RoundHalfEven(100 * bytes, Pow(1024, k + 1));
            && Nearest(c, 100 * bytes, Pow(1024, k + 1))
            && Magnitude(bytes).text ==
               Digits(c / 100) + "." + (Digits(c % 100 / 10) + Digits(c % 10)) + " " + ["KiB", "MiB", "GiB", "TiB"][k]
  {
    MagnitudeAt(bytes, k);
    PowPositive(1024, k + 1);
    RoundsToNearest(100 * bytes, Pow(1024, k + 1));
    FixedShape(RoundHalfEven(100 * bytes, Pow(1024, k + 1)));
    hide RoundHalfEven, Digits, Pow, Magnitude, Fixed2, Nearest;
    assert NAMES[k] == ["KiB", "MiB", "GiB", "TiB"][k];
  }

  /** Below 1024 a count is printed as it is. */
  lemma SmallPrintedIs(bytes: int)
    requires 0 <= bytes < 1024
    ensures Formatted(bytes) == Text(Digits(bytes) + " B")
    ensures bytes > 0 ==> Formatted(-bytes) == Text("-" + Digits(bytes) + " B")
  {
    hide Digits;
    assert "-" + (Digits(bytes) + " B") == "-" + Digits(bytes) + " B";
  }

  /** A negative count is printed as the positive one with a minus sign before it. */
  lemma NegativePrintedIs(bytes: int)
    requires 0 < bytes <= MAX_INT64
    ensures Formatted(bytes).Text? <==> Formatted(-bytes).Text?
    ensures Formatted(bytes).Text? ==> Formatted(-bytes).text == "-" + Formatted(bytes).text
  {
    hide Magnitude;
  }

  lemma FixedShape(c: nat)
    ensures Fixed2(c) == Digits(c / 100) + "." + (Digits(c % 100 / 10) + Digits(c % 10))
  {
    LastDigit(c);
    hide Digits;
  }

  lemma LastDigit(c: nat)
    ensures c % 100 % 10 == c % 10
  {
    var q, r := c / 100, c % 100;
    assert c == 10 * (10 * q + r / 10) + r % 10;
  }

  lemma MagnitudeAt(bytes: nat, k: nat)
    requires k < 4 && Pow(1024, k + 1) <= bytes < Pow(1024, k + 2)
    ensures Pow(1024, k + 1) > 0
    ensures Magnitude(bytes) == Text(Fixed2(RoundHalfEven(100 * bytes, Pow(1024, k + 1))) + " " + NAMES[k])
  {
    PowPositive(1024, k + 1);
    ExponentIs(bytes, k + 1);
    hide RoundHalfEven, Fixed2, Pow;
  }

  lemma {:induction false} ExponentIs(n: nat, k: nat)
    requires k > 0 && Pow(1024, k) <= n < Pow(1024, k + 1)
    ensures n >= 1024 && Exponent(n / 1024) == k - 1
  {
    PowGrows(1024, 1, k);
    assert Pow(1024, k) == 1024 * Pow(1024, k - 1) && Pow(1024, k + 1) == 1024 * Pow(1024, k);
    assert Pow(1024, 1) == 1024 * Pow(1024, 0);
    if k > 1 {
      ExponentIs(n / 1024, k - 1);
    }
  }

  /** Printing returns a text exactly below 2^50 in absolute value. */
  lemma PrintableIff(x: int)
    requires IsInt64(x)
    ensures Formatted(x).Text? <==> -0x4_0000_0000_0000 < x < 0x4_0000_0000_0000
  {
    var m := if x < 0 then -x else x;
    if m >= 1024 {
      ScaleOf(m);
    }
  }

  // ----- reading a printed count

  predicate Printable(x: int) {
    -0x4_0000_0000_0000 < x < 0x4_0000_0000_0000
  }

  /** What reading a printed count gives. */
  function ReadBack(x: int): int
    requires IsInt64(x) && Formatted(x).Text?
  {
    ParseHumanBytes(Formatted(x).text)
  }

  function Sign(negative: bool): string {
    if negative then "-" else ""
  }

  function Signed(negative: bool, n: int): int {
    if negative then -n else n
  }

  lemma SignedNumeral(negative: bool, u: string)
    requires ParseUnsigned(u).Some? && u != "" && IsDigit(u[0])
    ensures ParseDecimal(Sign(negative) + u) ==
            Some(Decimal(Signed(negative, ParseUnsigned(u).value.mantissa), ParseUnsigned(u).value.scale))
  {
    hide ParseUnsigned, ParseDecimal;
    SignedValue(Sign(negative), u, ParseUnsigned(u).value);
  }

  lemma OneDigit(d: nat)
    requires d < 10
    ensures |Digits(d)| == 1 && DigitsValue(Digits(d)) == d
  {
    DigitsBack(d);
  }

  lemma TwoDigits(d: nat)
    requires d < 100
    ensures var t := TwoPlaces(d); |t| == 2 && AllDigits(t) && DigitsValue(t) == d
  {
    OneDigit(d / 10);
    OneDigit(d % 10);
    DigitsValueAppend(Digits(d / 10), Digits(d % 10));
    assert Pow(10, 1) == 10 * Pow(10, 0);
  }

  lemma Fixed2Value(negative: bool, c: nat)
    ensures ParseDecimal(Sign(negative) + Fixed2(c)) == Some(Decimal(Signed(negative, c), 2))
  {
    hide ParseUnsigned, ParseDecimal, Digits, DigitsValue, TwoPlaces;
    var whole, places := Digits(c / 100), TwoPlaces(c % 100);
    TwoDigits(c % 100);
    DigitsBack(c / 100);
    DigitsValueAppend(whole, places);
    assert Pow(10, 2) == 100 by {
      assert Pow(10, 0) == 1 && Pow(10, 1) == 10 * Pow(10, 0) && Pow(10, 2) == 10 * Pow(10, 1);
    }
    assert DigitsValue(whole + places) == c;
    UnsignedValue(whole, places);
    assert IsDigit(whole[0]);
    SignedNumeral(negative, Fixed2(c));
  }

  lemma Fixed2Starts(negative: bool, c: nat)
    ensures var t := Sign(negative) + Fixed2(c); t != "" && !IsSpace(t[0])
  {
    assert IsDigit(Digits(c / 100)[0]);
  }

  lemma TimesHundredths(c: int, factor: nat)
    ensures Times(Decimal(c, 2), factor) == TruncDiv(c * factor, 100)
    ensures Times(Decimal(c, 0), 1) == c
  {
    assert Pow(10, 0) == 1 && Pow(10, 1) == 10 * Pow(10, 0) && Pow(10, 2) == 10 * Pow(10, 1);
  }

  lemma Regrouped(sign: string, digits: string, unit: string)
    ensures "" + (sign + digits + " " + unit) + "" == sign + (digits + " " + unit)
    ensures sign + (digits + (" " + unit)) == sign + (digits + " " + unit)
  {
  }

  lemma ReadBackSmall(negative: bool, m: nat)
    requires m < 1024
    ensures ParseHumanBytes(Sign(negative) + (Digits(m) + " B")) == Signed(negative, m)
  {
    WholeValue(Digits(m));
    assert IsDigit(Digits(m)[0]);
    SignedNumeral(negative, Digits(m));
    DigitsBack(m);
    NumeralWithUnit("", Sign(negative) + Digits(m), " ", 7, "");
    TimesHundredths(Signed(negative, m), 1);
    Regrouped(Sign(negative), Digits(m), "B");
    assert " " + "B" == " B";
  }

  lemma ReadBackUnit(negative: bool, c: nat, k: nat)
    requires k < |UNITS|
    ensures ParseHumanBytes(Sign(negative) + (Fixed2(c) + " " + UNITS[k].suffix)) ==
            TruncDiv(Signed(negative, c) * UNITS[k].factor, 100)
  {
    Fixed2Value(negative, c);
    hide ParseHumanBytes, Fixed2, Sign, ParseDecimal, Times;
    NumeralWithUnit("", Sign(negative) + Fixed2(c), " ", k, "");
    TimesHundredths(Signed(negative, c), UNITS[k].factor);
    Regrouped(Sign(negative), Fixed2(c), UNITS[k].suffix);
  }

  /** The parser's table has no row for the largest unit the printer uses. */
  lemma ReadBackTiB(front: string)
    requires front != "" && !IsSpace(front[0])
    ensures ParseHumanBytes(front + " TiB") == 0
  {
    hide ParseDecimal, Times, TrimSpace, TrimSuffix;
    var s := front + " TiB";
    assert s[0] == front[0];
    TrimKeeps(s);
    assert s[|s| - 2] == 'i';
    assert s[|s| - 1..] == "B";
    LetterBlocks(s, UNITS[7], 'i');
    forall k | 0 <= k < 7
      ensures !HasSuffix(s, UNITS[k].suffix)
    {
      NoOtherSuffix(s, k);
    }
    NoRow(s, 0);
    assert s[|s| - 1] in s;
    if IsNumeral(s) {
      NumeralChars(s);
      assert false;
    }
  }

  lemma NoOtherSuffix(s: string, k: nat)
    requires |s| >= 4 && s[|s| - 4..] == " TiB" && k < 7
    ensures !HasSuffix(s, UNITS[k].suffix)
  {
    var u := UNITS[k].suffix;
    assert s[|s| - |u|..] == " TiB"[4 - |u|..];
    assert " TiB"[1..] == "TiB" && " TiB"[2..] == "iB";
  }

  lemma {:induction false} NoRow(s: string, i: nat)
    requires i <= |UNITS| && forall k :: 0 <= k < |UNITS| ==> ByRow(s, UNITS[k]).None?
    ensures FirstRow(s, i).None?
    decreases |UNITS| - i
  {
    if i < |UNITS| {
      NoRow(s, i + 1);
    }
  }

  // ----- the round trip

  /** The unit a count is printed in, in bytes. */
  function UnitOf(m: nat): nat {
    if m < 0x10_0000 then 0x400 else if m < 0x4000_0000 then 0x10_0000
    else if m < 0x100_0000_0000 then 0x4000_0000 else 0x100_0000_0000
  }

  lemma FormattedText(x: int)
    requires Printable(x) && Abs(x) >= 1024
    ensures var c := RoundHalfEven(100 * Abs(x), UnitOf(Abs(x)));
            var name := if Abs(x) < 0x10_0000 then "KiB" else if Abs(x) < 0x4000_0000 then "MiB"
                        else if Abs(x) < 0x100_0000_0000 then "GiB" else "TiB";
            Formatted(x) == Text(Sign(x < 0) + (Fixed2(c) + " " + name))
  {
    hide Fixed2, RoundHalfEven;
    ScaleOf(Abs(x));
    Powers();
    assert Scale(Abs(x)) == UnitOf(Abs(x));
    assert Magnitude(Abs(x)).Text?;
    assert Sign(false) + Magnitude(Abs(x)).text == Magnitude(Abs(x)).text;
  }

  lemma SignedText(negative: bool, text: string, unit: string)
    ensures Sign(negative) + (text + unit) == Sign(negative) + text + unit
  {
  }

  lemma ReadBackValue(x: int)
    requires Printable(x)
    ensures Formatted(x).Text?
    ensures var m := Abs(x);
            ReadBack(x) ==
            if m < 1024 then x
            else if m < 0x100_0000_0000 then TruncDiv(Signed(x < 0, RoundHalfEven(100 * m, UnitOf(m))) * UnitOf(m), 100)
            else 0
  {
    hide ParseHumanBytes, Fixed2, RoundHalfEven, TruncDiv, Digits;
    var m := Abs(x);
    if m < 1024 {
      ReadBackSmall(x < 0, m);
      assert Formatted(x).text == Sign(x < 0) + (Digits(m) + " B") by {
        assert Sign(false) + (Digits(m) + " B") == Digits(m) + " B";
      }
    } else {
      FormattedText(x);
      hide Formatted;
      var c := RoundHalfEven(100 * m, UnitOf(m));
      if m < 0x10_0000 {
        ReadBackUnit(x < 0, c, 4);
      } else if m < 0x4000_0000 {
        ReadBackUnit(x < 0, c, 2);
      } else if m < 0x100_0000_0000 {
        ReadBackUnit(x < 0, c, 0);
      } else {
        assert Fixed2(c) + " " + "TiB" == Fixed2(c) + " TiB";
        Fixed2Starts(x < 0, c);
        SignedText(x < 0, Fixed2(c), " TiB");
        ReadBackTiB(Sign(x < 0) + Fixed2(c));
      }
    }
  }

  /** The magnitude read back, for counts the parser has a unit for. */
  function Recovered(m: nat): nat
    requires m < 0x100_0000_0000
  {
    if m < 1024 then m else RoundHalfEven(100 * m, UnitOf(m)) * UnitOf(m) / 100
  }

  lemma ReadBackIsRecovered(x: int)
    requires -0x100_0000_0000 < x < 0x100_0000_0000
    ensures Formatted(x).Text?
    ensures var r: int := Recovered(Abs(x)); ReadBack(x) == if x < 0 then -r else r
  {
    ReadBackValue(x);
    hide ReadBack, Formatted;
    var m := Abs(x);
    var c: int, u := RoundHalfEven(100 * m, UnitOf(m)), UnitOf(m);
    assert (-c) * u == -(c * u);
    assert c * u >= 0;
  }

  lemma RecoveredClose(m: nat)
    requires 1024 <= m < 0x100_0000_0000
    ensures var u: int := UnitOf(m); -u - 200 < 200 * (Recovered(m) - m) <= u
  {
    RoundsToNearest(100 * m, UnitOf(m));
    var p := RoundHalfEven(100 * m, UnitOf(m)) * UnitOf(m);
    assert 100 * (p / 100) <= p < 100 * (p / 100) + 100;
  }

  /** `back` differs from `x` by less than half a hundredth of the unit `x` is printed in plus one byte, and
      not at all below 1024. */
  predicate Faithful(x: int, back: int) {
    var u: int := UnitOf(Abs(x));
    if Abs(x) < 1024 then back == x else -u - 200 < 200 * (back - x) < u + 200
  }

  /** Reading a printed count back is faithful exactly below 2^40: from there on the printer uses a unit the
      parser does not know, and the count reads back as nothing. */
  lemma FaithfulIff(x: int)
    requires Printable(x)
    ensures Formatted(x).Text?
    ensures Faithful(x, ReadBack(x)) <==> -0x100_0000_0000 < x < 0x100_0000_0000
    ensures !Faithful(x, ReadBack(x)) ==> ReadBack(x) == 0
  {
    if -0x100_0000_0000 < x < 0x100_0000_0000 {
      ReadBackIsRecovered(x);
      if Abs(x) >= 1024 {
        RecoveredClose(Abs(x));
      }
      hide ReadBack, Formatted;
    } else {
      ReadBackValue(x);
      hide ReadBack, Formatted;
    }
  }

  lemma DivMonotone(a: nat, b: nat, den: nat)
    requires a <= b && den > 0
    ensures a / den <= b / den
  {
    var q, p := a / den, b / den;
    assert den * q <= a && b < den * p + den;
    assert p + 1 <= q ==> den * (p + 1) <= den * q by {
      if p + 1 <= q {
        MulMonotone(den, p + 1, q);
      }
    }
    assert den * (p + 1) == den * p + den;
  }

  lemma HundredthsMonotone(m: nat, n: nat, den: nat)
    requires m <= n && den > 0
    ensures RoundHalfEven(100 * m, den) <= RoundHalfEven(100 * n, den)
  {
    var a, b := 100 * m, 100 * n;
    DivMonotone(a, b, den);
    assert a == den * (a / den) + a % den && b == den * (b / den) + b % den;
  }

  /** A count never reads back past the next power of 1024, and never below its own. */
  lemma RecoveredRange(m: nat)
    requires 1024 <= m < 0x100_0000_0000
    ensures UnitOf(m) <= Recovered(m) <= 1024 * UnitOf(m)
  {
    var u := UnitOf(m);
    HundredthsMonotone(u, m, u);
    HundredthsMonotone(m, 1024 * u, u);
    assert 100 * u / u == 100 && 100 * u % u == 0;
    assert 100 * (1024 * u) / u == 102400 && 100 * (1024 * u) % u == 0;
  }

  lemma RecoveredMonotone(m: nat, n: nat)
    requires m <= n < 0x100_0000_0000
    ensures Recovered(m) <= Recovered(n)
  {
    if n < 1024 {
    } else if m < 1024 {
      RecoveredRange(n);
    } else if UnitOf(m) == UnitOf(n) {
      HundredthsMonotone(m, n, UnitOf(m));
      MulMonotone(UnitOf(m), RoundHalfEven(100 * m, UnitOf(m)), RoundHalfEven(100 * n, UnitOf(m)));
      DivMonotone(RoundHalfEven(100 * m, UnitOf(m)) * UnitOf(m), RoundHalfEven(100 * n, UnitOf(m)) * UnitOf(m), 100);
    } else {
      RecoveredRange(m);
      RecoveredRange(n);
    }
  }

  /** Order survives the round trip, across unit boundaries too. */
  lemma ReadBackMonotone(x: int, y: int)
    requires -0x100_0000_0000 < x <= y < 0x100_0000_0000
    ensures Formatted(x).Text? && Formatted(y).Text? && ReadBack(x) <= ReadBack(y)
  {
    ReadBackIsRecovered(x);
    ReadBackIsRecovered(y);
    hide ReadBack, Formatted, Recovered;
    if x >= 0 {
      RecoveredMonotone(x, y);
    } else if y < 0 {
      RecoveredMonotone(-y, -x);
    }
  }
}
