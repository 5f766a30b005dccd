/** Byte counts as text: how they are printed and read back, over exact decimals. */
module Units {
  import opened Wrappers
  import opened Strings

  const MIN_INT64 := -0x8000_0000_0000_0000
  const MAX_INT64 := 0x7FFF_FFFF_FFFF_FFFF

  predicate IsInt64(x: int) {
    MIN_INT64 <= x <= MAX_INT64
  }

  // ----- decimal numerals

  predicate IsDigit(c: char) {
    '0' <= c <= '9'
  }

  predicate AllDigits(s: string) {
    forall c <- s :: IsDigit(c)
  }

  function Digits(n: nat): (s: string)
    ensures s != "" && AllDigits(s)
  {
    var last := [('0' as int + n % 10) as char];
    if n < 10 then last else Digits(n / 10) + last
  }

  function DigitsValue(s: string): nat
    requires AllDigits(s)
  {
    if s == "" then 0
    else
      assert IsDigit(s[|s| - 1]);
      DigitsValue(s[..|s| - 1]) * 10 + (s[|s| - 1] as int - '0' as int)
  }

  lemma {:induction false} DigitsBack(n: nat)
    ensures DigitsValue(Digits(n)) == n
  {
    var last := [('0' as int + n % 10) as char];
    if n < 10 {
      assert last[..0] == "";
    } else {
      DigitsBack(n / 10);
      assert (Digits(n / 10) + last)[..|Digits(n / 10)|] == Digits(n / 10);
    }
  }

  /** Numbers are printed without leading zeros. */
  lemma {:induction false} NoLeadingZero(n: nat)
    ensures n > 0 ==> Digits(n)[0] != '0'
    ensures n < 10 ==> Digits(n) == [('0' as int + n) as char]
  {
    if n >= 10 {
      NoLeadingZero(n / 10);
    }
  }

  lemma MulTen(x: nat, p: nat)
    ensures x * p * 10 == x * (10 * p)
  {
  }

  lemma {:induction false} DigitsValueAppend(a: string, b: string)
    requires AllDigits(a) && AllDigits(b)
    ensures AllDigits(a + b) && DigitsValue(a + b) == DigitsValue(a) * Pow(10, |b|) + DigitsValue(b)
  {
    if b == "" {
      assert a + b == a;
    } else {
      var front, last := b[..|b| - 1], b[|b| - 1];
      DigitsValueAppend(a, front);
      assert (a + b)[..|a + b| - 1] == a + front && (a + b)[|a + b| - 1] == last;
      var d := last as int - '0' as int;
      assert DigitsValue(a + b) == DigitsValue(a + front) * 10 + d;
      assert DigitsValue(b) == DigitsValue(front) * 10 + d;
      hide DigitsValue;
      assert Pow(10, |b|) == 10 * Pow(10, |front|);
      MulTen(DigitsValue(a), Pow(10, |front|));
    }
  }

  function Pow(base: nat, n: nat): nat {
    if n == 0 then 1 else base * Pow(base, n - 1)
  }

  lemma {:induction false} PowPositive(base: nat, n: nat)
    requires base > 0
    ensures Pow(base, n) > 0
  {
    if n > 0 {
      PowPositive(base, n - 1);
    }
  }

  /** The exact value `mantissa / 10^scale`. */
  datatype Decimal = Decimal(mantissa: int, scale: nat)

  function IndexOf(s: string, c: char): (i: nat)
    ensures i <= |s| && c !in s[..i] && (i < |s| ==> s[i] == c)
  {
    if s == "" || s[0] == c then 0 else 1 + IndexOf(s[1..], c)
  }

  /** Digits, optionally a point and more digits; at least one digit in all. */
  function ParseUnsigned(u: string): Option<Decimal> {
    var dot := IndexOf(u, '.');
    var whole := u[..dot];
    var fraction := if dot < |u| then u[dot + 1..] else "";
    if !AllDigits(whole) || !AllDigits(fraction) || whole + fraction == "" then None
    else Some(Decimal(DigitsValue(whole + fraction), |fraction|))
  }

  function Negated(d: Option<Decimal>): Option<Decimal> {
    if d.None? then None else Some(Decimal(-d.value.mantissa, d.value.scale))
  }

  /** The numerals of the number parser: an optional sign and an unsigned numeral. */
  function ParseDecimal(s: string): Option<Decimal> {
    if s == "" then None
    else if s[0] == '-' then Negated(ParseUnsigned(s[1..]))
    else if s[0] == '+' then ParseUnsigned(s[1..])
    else ParseUnsigned(s)
  }

  predicate IsNumeral(s: string) {
    ParseDecimal(s).Some?
  }

  /** Division of an integer by a positive one, truncated toward zero. */
  function TruncDiv(n: int, d: int): int
    requires d > 0
  {
    if n >= 0 then n / d else -(-n / d)
  }

  /** `d * factor`, truncated toward zero. */
  function Times(d: Decimal, factor: nat): int {
    PowPositive(10, d.scale);
    TruncDiv(d.mantissa * factor, Pow(10, d.scale))
  }

  lemma UnsignedChars(u: string)
    requires ParseUnsigned(u).Some?
    ensures u != "" && forall c <- u :: IsDigit(c) || c == '.'
  {
    var dot := IndexOf(u, '.');
    assert u == u[..dot] + (if dot < |u| then [u[dot]] + u[dot + 1..] else "");
  }

  lemma NumeralChars(s: string)
    requires IsNumeral(s)
    ensures s != ""
    ensures forall c <- s :: IsDigit(c) || c in "+-."
  {
    if s[0] in "+-" {
      UnsignedChars(s[1..]);
      assert s == [s[0]] + s[1..];
    } else {
      UnsignedChars(s);
    }
  }

  // ----- reading

  datatype Row = Row(suffix: string, factor: nat)

  const UNITS: seq<Row> := [
    Row("GiB", 1024 * 1024 * 1024), Row("GB", 1000 * 1000 * 1000),
    Row("MiB", 1024 * 1024), Row("MB", 1000 * 1000),
    Row("KiB", 1024), Row("kB", 1000), Row("KB", 1000),
    Row("B", 1)]

  function TrimSuffix(s: string, suffix: string): string {
    if HasSuffix(s, suffix) then s[..|s| - |suffix|] else s
  }

  /** What one row of the table makes of a trimmed text. */
  function ByRow(s: string, row: Row): Option<int> {
    if !HasSuffix(s, row.suffix) then None
    else
      match ParseDecimal(TrimSpace(TrimSuffix(s, row.suffix)))
      case Some(d) => Some(Times(d, row.factor))
      case None => None
  }

  /** The first row that succeeds, from row `i` on. */
  function FirstRow(s: string, i: nat): Option<int>
    requires i <= |UNITS|
    decreases |UNITS| - i
  {
    if i == |UNITS| then None
    else if ByRow(s, UNITS[i]).Some? then ByRow(s, UNITS[i])
    else FirstRow(s, i + 1)
  }

  function ParseHumanBytes(text: string): int {
    var s := TrimSpace(text);
    if s == "" || s == "--" then 0
    else if FirstRow(s, 0).Some? then FirstRow(s, 0).value
    else if IsNumeral(s) then Times(ParseDecimal(s).value, 1)
    else 0
  }

  // ----- at most one row can succeed

  /** A text whose last character before its unit is a letter is not read by that row. */
  lemma LetterBlocks(s: string, row: Row, c: char)
    requires HasSuffix(s, row.suffix) && |s| > |row.suffix| && s[|s| - |row.suffix| - 1] == c
    requires c in "GMKki"
    ensures ByRow(s, row).None?
  {
    var t := TrimSuffix(s, row.suffix);
    assert t[|t| - 1] == c && !IsSpace(c);
    TrimKeepsLast(t);
    assert c in TrimSpace(t);
    if IsNumeral(TrimSpace(t)) {
      NumeralChars(TrimSpace(t));
      assert false;
    }
  }

  lemma {:induction false} TrimKeepsLast(s: string)
    requires s != "" && !IsSpace(s[|s| - 1])
    ensures TrimSpace(s) != "" && TrimSpace(s)[|TrimSpace(s)| - 1] == s[|s| - 1]
  {
    TrimLeftKeepsLast(s);
  }

  lemma {:induction false} TrimLeftKeepsLast(s: string)
    requires s != "" && !IsSpace(s[|s| - 1])
    ensures TrimLeft(s) != "" && TrimLeft(s)[|TrimLeft(s)| - 1] == s[|s| - 1]
  {
    if IsSpace(s[0]) {
      TrimLeftKeepsLast(s[1..]);
    }
  }

  /** Units that share their last letters never compete: whatever the text, at most one row reads it. */
  lemma AtMostOneRow(s: string, i: nat, j: nat)
    requires i < |UNITS| && j < |UNITS|
    requires ByRow(s, UNITS[i]).Some? && ByRow(s, UNITS[j]).Some?
    ensures i == j
  {
    hide ParseDecimal, TrimSpace, TrimSuffix, Times;
    var u, v := UNITS[i].suffix, UNITS[j].suffix;
    if i != j {
      if |u| == |v| {
        assert false;
      } else if |u| < |v| {
        ShorterRowFails(s, UNITS[i], UNITS[j]);
        assert false;
      } else {
        ShorterRowFails(s, UNITS[j], UNITS[i]);
        assert false;
      }
    }
  }

  lemma ShorterRowFails(s: string, short: Row, long: Row)
    requires short in UNITS && long in UNITS && |short.suffix| < |long.suffix|
    requires HasSuffix(s, short.suffix) && HasSuffix(s, long.suffix)
    ensures ByRow(s, short).None?
  {
    var k := |long.suffix| - |short.suffix| - 1;
    assert s[|s| - |short.suffix| - 1] == s[|s| - |long.suffix|..][k] == long.suffix[k];
    assert s[|s| - |short.suffix|..] == s[|s| - |long.suffix|..][k + 1..];
    LetterBlocks(s, short, long.suffix[k]);
  }

  lemma {:induction false} FirstRowIs(s: string, i: nat, k: nat)
    requires i <= k < |UNITS| && ByRow(s, UNITS[k]).Some?
    ensures FirstRow(s, i) == ByRow(s, UNITS[k])
    decreases k - i
  {
    if ByRow(s, UNITS[i]).Some? {
      AtMostOneRow(s, i, k);
    } else {
      FirstRowIs(s, i + 1, k);
    }
  }

  lemma NumeralEnds(numeral: string)
    requires IsNumeral(numeral)
    ensures numeral != "" && !IsSpace(numeral[0]) && !IsSpace(numeral[|numeral| - 1])
  {
    NumeralChars(numeral);
    assert numeral[0] in numeral && numeral[|numeral| - 1] in numeral;
  }

  lemma SuffixOf(front: string, suffix: string)
    ensures HasSuffix(front + suffix, suffix) && TrimSuffix(front + suffix, suffix) == front
  {
  }

  /** The row of the unit reads a numeral, with or without white space before the unit. */
  lemma RowReads(numeral: string, between: string, row: Row)
    requires IsNumeral(numeral) && Blank(between)
    ensures ByRow(numeral + between + row.suffix, row) == Some(Times(ParseDecimal(numeral).value, row.factor))
  {
    hide ParseDecimal, Times, TrimSuffix, HasSuffix, TrimSpace, Blank;
    NumeralEnds(numeral);
    SuffixOf(numeral + between, row.suffix);
    TrimSurrounded("", numeral, between);
    assert "" + numeral + between == numeral + between;
  }

  /** A numeral followed by a unit, with or without white space between and around them, reads as the numeral
      times the unit's factor, truncated toward zero. */
  lemma NumeralWithUnit(before: string, numeral: string, between: string, k: nat, after: string)
    requires IsNumeral(numeral) && k < |UNITS|
    requires Blank(before) && Blank(between) && Blank(after)
    ensures ParseHumanBytes(before + (numeral + between + UNITS[k].suffix) + after) ==
            Times(ParseDecimal(numeral).value, UNITS[k].factor)
  {
    hide ParseDecimal, Times, TrimSpace, ByRow, Blank, FirstRow;
    var s := numeral + between + UNITS[k].suffix;
    NumeralEnds(numeral);
    assert s[0] == numeral[0] && s[|s| - 1] == 'B';
    TrimSurrounded(before, s, after);
    RowReads(numeral, between, UNITS[k]);
    FirstRowIs(s, 0, k);
  }

  /** What the units stand for: powers of 1024 with an "i", powers of 1000 without one. */
  lemma UnitsMean(before: string, numeral: string, between: string, after: string)
    requires IsNumeral(numeral) && Blank(before) && Blank(between) && Blank(after)
    ensures var d := ParseDecimal(numeral).value;
            && ParseHumanBytes(before + (numeral + between + "B") + after) == Times(d, 1)
            && ParseHumanBytes(before + (numeral + between + "kB") + after) == Times(d, 1000)
            && ParseHumanBytes(before + (numeral + between + "KB") + after) == Times(d, 1000)
            && ParseHumanBytes(before + (numeral + between + "MB") + after) == Times(d, 1000_000)
            && ParseHumanBytes(before + (numeral + between + "GB") + after) == Times(d, 1000_000_000)
            && ParseHumanBytes(before + (numeral + between + "KiB") + after) == Times(d, 0x400)
            && ParseHumanBytes(before + (numeral + between + "MiB") + after) == Times(d, 0x10_0000)
            && ParseHumanBytes(before + (numeral + between + "GiB") + after) == Times(d, 0x4000_0000)
  {
    hide ParseHumanBytes, ParseDecimal, Times, Blank;
    for k := 0 to |UNITS|
      invariant forall i :: 0 <= i < k ==>
          ParseHumanBytes(before + (numeral + between + UNITS[i].suffix) + after) ==
          Times(ParseDecimal(numeral).value, UNITS[i].factor)
    {
      NumeralWithUnit(before, numeral, between, k, after);
    }
    assert UNITS[7].suffix == "B" && UNITS[5].suffix == "kB" && UNITS[6].suffix == "KB" && UNITS[3].suffix == "MB";
    assert UNITS[1].suffix == "GB" && UNITS[4].suffix == "KiB" && UNITS[2].suffix == "MiB" && UNITS[0].suffix == "GiB";
  }

  // ----- texts without a unit

  /** A text that ends in no "B" is read by no row. */
  lemma {:induction false} NoRowWithoutB(s: string, i: nat)
    requires s != "" && s[|s| - 1] != 'B' && i <= |UNITS|
    ensures FirstRow(s, i).None?
    decreases |UNITS| - i
  {
    if i < |UNITS| {
      var suffix := UNITS[i].suffix;
      assert suffix[|suffix| - 1] == 'B';
      if |suffix| <= |s| {
        assert s[|s| - |suffix|..][|suffix| - 1] == s[|s| - 1];
      }
      hide ParseDecimal, Times, TrimSpace;
      NoRowWithoutB(s, i + 1);
    }
  }

  lemma NumeralLast(s: string)
    requires IsNumeral(s)
    ensures s != "" && (IsDigit(s[|s| - 1]) || s[|s| - 1] == '.')
  {
    if s[0] in "+-" {
      UnsignedChars(s[1..]);
      assert s[|s| - 1] in s[1..];
    } else {
      UnsignedChars(s);
      assert s[|s| - 1] in s;
    }
  }

  /** A numeral alone counts bytes. */
  lemma BareNumeral(before: string, numeral: string, after: string)
    requires IsNumeral(numeral) && Blank(before) && Blank(after)
    ensures ParseHumanBytes(before + numeral + after) == Times(ParseDecimal(numeral).value, 1)
  {
    NumeralEnds(numeral);
    NumeralLast(numeral);
    hide ParseDecimal, Times, TrimSpace, Blank;
    TrimSurrounded(before, numeral, after);
    NoRowWithoutB(numeral, 0);
  }

  /** A blank text and a pair of dashes count nothing, and so does any text that does not start like a numeral. */
  lemma NothingRead(before: string, text: string, after: string)
    requires Blank(before) && Blank(after)
    requires text == "" || (!IsSpace(text[0]) && !IsSpace(text[|text| - 1]))
    requires text == "" || text == "--" || !(IsDigit(text[0]) || text[0] in "+-.")
    ensures ParseHumanBytes(before + text + after) == 0
  {
    if text == "" {
      assert before + text + after == before + after;
      BlankTrimmed(before + after);
    } else {
      TrimSurrounded(before, text, after);
      if text != "--" {
        NoRowReads(text, 0);
        assert text[0] in text;
        if IsNumeral(text) {
          NumeralChars(text);
        }
        hide ParseDecimal, Times, TrimSpace, FirstRow;
      }
    }
  }

  lemma {:induction false} NoRowReads(s: string, i: nat)
    requires s != "" && !IsSpace(s[0]) && !(IsDigit(s[0]) || s[0] in "+-.") && i <= |UNITS|
    ensures FirstRow(s, i).None?
    decreases |UNITS| - i
  {
    if i < |UNITS| {
      RowReadsNothing(s, UNITS[i]);
      hide ByRow;
      NoRowReads(s, i + 1);
    }
  }

  lemma RowReadsNothing(s: string, row: Row)
    requires s != "" && !IsSpace(s[0]) && !(IsDigit(s[0]) || s[0] in "+-.") && row.suffix != ""
    ensures ByRow(s, row).None?
  {
    if HasSuffix(s, row.suffix) {
      var t := TrimSuffix(s, row.suffix);
      if t != "" {
        assert t[0] == s[0] && TrimLeft(t) == t;
        TrimRightKeepsFirst(t);
        assert TrimSpace(t)[0] in TrimSpace(t);
        if IsNumeral(TrimSpace(t)) {
          NumeralChars(TrimSpace(t));
        }
      }
    }
  }

  lemma {:induction false} TrimRightKeepsFirst(s: string)
    requires s != "" && !IsSpace(s[0])
    ensures TrimRight(s) != "" && TrimRight(s)[0] == s[0]
  {
    if IsSpace(s[|s| - 1]) {
      TrimRightKeepsFirst(s[..|s| - 1]);
    }
  }

  // ----- what numerals and products mean

  function SignOf(sign: string): int {
    if sign == "-" then -1 else 1
  }

  lemma NoPoint(s: string)
    requires AllDigits(s)
    ensures '.' !in s
  {
  }

  lemma {:induction false} IndexIs(s: string, c: char, i: nat)
    requires i <= |s| && c !in s[..i] && (i < |s| ==> s[i] == c)
    ensures IndexOf(s, c) == i
  {
    if i > 0 {
      assert s[0] in s[..i] && s[1..][..i - 1] == s[..i][1..];
      IndexIs(s[1..], c, i - 1);
    }
  }

  lemma PointAt(whole: string, fraction: string)
    requires AllDigits(whole)
    ensures var u := whole + "." + fraction;
            IndexOf(u, '.') == |whole| && u[..|whole|] == whole && u[|whole| + 1..] == fraction
    ensures IndexOf(whole, '.') == |whole|
  {
    var u := whole + "." + fraction;
    NoPoint(whole);
    assert u[..|whole|] == whole && u[|whole| + 1..] == fraction && whole[..|whole|] == whole;
    IndexIs(u, '.', |whole|);
    IndexIs(whole, '.', |whole|);
  }

  lemma UnsignedValue(whole: string, fraction: string)
    requires AllDigits(whole) && AllDigits(fraction) && whole + fraction != ""
    ensures ParseUnsigned(whole + "." + fraction) == Some(Decimal(DigitsValue(whole + fraction), |fraction|))
  {
    hide DigitsValue, IndexOf, AllDigits;
    PointAt(whole, fraction);
  }

  lemma WholeValue(whole: string)
    requires AllDigits(whole) && whole != ""
    ensures ParseUnsigned(whole) == Some(Decimal(DigitsValue(whole), 0))
  {
    hide DigitsValue, IndexOf;
    PointAt(whole, "");
    assert whole[..|whole|] == whole && whole + "" == whole;
  }

  lemma SignedValue(sign: string, u: string, d: Decimal)
    requires sign in ["", "+", "-"] && u != "" && (IsDigit(u[0]) || u[0] == '.') && ParseUnsigned(u) == Some(d)
    ensures ParseDecimal(sign + u) == Some(Decimal(SignOf(sign) * d.mantissa, d.scale))
  {
    hide ParseUnsigned;
    if sign == "" {
      assert sign + u == u;
    } else {
      assert (sign + u)[1..] == u && (sign + u)[0] == sign[0];
    }
  }

  /** A numeral is its digits, as a number, over a power of ten for every digit after the point. */
  lemma NumeralValue(sign: string, whole: string, fraction: string)
    requires sign in ["", "+", "-"] && AllDigits(whole) && AllDigits(fraction) && whole + fraction != ""
    ensures ParseDecimal(sign + (whole + "." + fraction)) ==
            Some(Decimal(SignOf(sign) * DigitsValue(whole + fraction), |fraction|))
  {
    var u := whole + "." + fraction;
    assert IsDigit(u[0]) || u[0] == '.' by {
      assert whole != "" ==> u[0] in whole;
    }
    UnsignedValue(whole, fraction);
    hide ParseUnsigned, ParseDecimal, DigitsValue, AllDigits, SignOf;
    SignedValue(sign, u, Decimal(DigitsValue(whole + fraction), |fraction|));
  }

  lemma WholeNumeralValue(sign: string, whole: string)
    requires sign in ["", "+", "-"] && AllDigits(whole) && whole != ""
    ensures ParseDecimal(sign + whole) == Some(Decimal(SignOf(sign) * DigitsValue(whole), 0))
  {
    assert whole[0] in whole;
    WholeValue(whole);
    hide ParseUnsigned, ParseDecimal, DigitsValue, SignOf;
    SignedValue(sign, whole, Decimal(DigitsValue(whole), 0));
  }

  function Abs(x: int): nat {
    if x < 0 then -x else x
  }

  /** A product is truncated toward zero: its size is the greatest whole number not above that of the exact one, and
      it has its sign. */
  lemma TimesTruncates(d: Decimal, factor: nat)
    ensures var p := Pow(10, d.scale);
            && Abs(Times(d, factor)) * p <= Abs(d.mantissa * factor) < (Abs(Times(d, factor)) + 1) * p
            && (d.mantissa * factor >= 0 ==> Times(d, factor) >= 0)
            && (d.mantissa * factor <= 0 ==> Times(d, factor) <= 0)
  {
    PowPositive(10, d.scale);
    var n, p := Abs(d.mantissa * factor), Pow(10, d.scale);
    DivBounds(n, p);
    assert Abs(Times(d, factor)) == n / p;
  }

  lemma DivBounds(n: nat, p: nat)
    requires p > 0
    ensures n / p * p <= n < (n / p + 1) * p
  {
    assert n == n / p * p + n % p;
  }
}
