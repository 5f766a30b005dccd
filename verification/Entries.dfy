/** What the parts of one line of container statistics mean: which text ends up in which quantity. */
module Entries {
  import opened Wrappers
  import opened Strings
  import opened Units
  import opened ImageNames
  import opened Metrics

  const SLASH := " / "

  // ----- parts around slashes

  /** No separator starts before the end of a text without a slash. */
  lemma NoSlashBefore(a: string, rest: string, i: nat)
    requires '/' !in a && i < |a|
    ensures (a + SLASH + rest)[i..i + 3] != SLASH
  {
    var s := a + SLASH + rest;
    assert s[i + 1] == if i + 1 < |a| then a[i + 1] else ' ';
    assert s[i..i + 3][1] == s[i + 1];
  }

  lemma {:induction false} SplitAtSlash(a: string, rest: string, i: nat)
    requires '/' !in a && i <= |a|
    ensures SplitFrom(a + SLASH + rest, SLASH, i) == [a] + SplitFrom(rest, SLASH, 0)
    decreases |a| - i
  {
    var s := a + SLASH + rest;
    if i == |a| {
      assert s[i..i + 3] == SLASH && s[..i] == a && s[i + 3..] == rest;
    } else {
      NoSlashBefore(a, rest, i);
      SplitAtSlash(a, rest, i + 1);
    }
  }

  lemma {:induction false} NothingToSplit(s: string, i: nat)
    requires '/' !in s && i <= |s|
    ensures SplitFrom(s, SLASH, i) == [s]
    decreases |s| - i
  {
    if i + 3 <= |s| {
      assert s[i..i + 3][1] == s[i + 1];
      NothingToSplit(s, i + 1);
    }
  }

  lemma SplitPair(a: string, b: string)
    requires '/' !in a && '/' !in b
    ensures Split(a + SLASH + b, SLASH) == [a, b]
  {
    SplitAtSlash(a, b, 0);
    NothingToSplit(b, 0);
  }

  // ----- memory

  /** Of "used / limit" the memory in use counts, whatever the limit looks like. */
  lemma MemoryIsUsage(e: Entry, used: string, limit: string)
    requires e.memUsage == used + " / " + limit && '/' !in used
    ensures Memory(e) == ParseHumanBytes(used)
  {
    hide ParseHumanBytes;
    SplitAtSlash(used, limit, 0);
  }

  lemma MemoryWithoutLimit(e: Entry)
    requires '/' !in e.memUsage
    ensures Memory(e) == ParseHumanBytes(e.memUsage)
  {
    hide ParseHumanBytes;
    NothingToSplit(e.memUsage, 0);
  }

  // ----- network and block traffic

  /** The first of two counts is received or read, the second one sent or written; anything but two counts is
      nothing. */
  lemma PairIs(a: string, b: string)
    requires '/' !in a && '/' !in b
    ensures Pair(a + " / " + b) == (ParseHumanBytes(a), ParseHumanBytes(b))
    ensures Pair(a) == (0, 0)
    ensures forall c: string :: '/' !in c ==> Pair(a + " / " + (b + " / " + c)) == (0, 0)
  {
    hide ParseHumanBytes;
    SplitPair(a, b);
    NothingToSplit(a, 0);
    forall c: string | '/' !in c
      ensures Pair(a + " / " + (b + " / " + c)) == (0, 0)
    {
      SplitAtSlash(a, b + " / " + c, 0);
      SplitPair(b, c);
    }
  }

  // ----- percentages and counts

  lemma NumeralNotSpace(numeral: string)
    requires IsNumeral(numeral)
    ensures numeral != "" && !IsSpace(numeral[0]) && !IsSpace(numeral[|numeral| - 1])
    ensures !HasSuffix(numeral, "%")
  {
    NumeralEnds(numeral);
    NumeralChars(numeral);
    assert numeral[|numeral| - 1] in numeral;
    assert numeral[|numeral| - 1..][0] == numeral[|numeral| - 1];
  }

  lemma TrimmedPercent(before: string, numeral: string, sign: string, after: string)
    requires IsNumeral(numeral) && Blank(before) && Blank(after) && sign in ["%", ""]
    ensures TrimSuffix(TrimSpace(before + (numeral + sign) + after), "%") == numeral
  {
    NumeralNotSpace(numeral);
    var s := numeral + sign;
    if sign == "%" {
      assert s[0] == numeral[0] && s[|s| - 1] == '%';
      TrimSurrounded(before, s, after);
      SuffixOf(numeral, "%");
    } else {
      assert s == numeral;
      TrimSurrounded(before, s, after);
    }
  }

  /** A percentage is the value of its numeral, with or without a percent sign and white space around it. */
  lemma CPUIsValue(e: Entry, before: string, numeral: string, sign: string, after: string)
    requires e.cpuPercent == before + (numeral + sign) + after
    requires IsNumeral(numeral) && Blank(before) && Blank(after) && sign in ["%", ""]
    ensures var d := ParseDecimal(numeral).value; CPU(e) * Pow(10, d.scale) as real == d.mantissa as real
  {
    hide TrimSpace, TrimSuffix, ParseDecimal;
    TrimmedPercent(before, numeral, sign, after);
    PowPositive(10, ParseDecimal(numeral).value.scale);
    Quotient(ParseDecimal(numeral).value.mantissa as real, Pow(10, ParseDecimal(numeral).value.scale) as real);
  }

  lemma Quotient(x: real, y: real)
    requires y != 0.0
    ensures x / y * y == x
  {
  }

  /** What is no number counts as nothing. */
  lemma UnreadableCounts(e: Entry)
    ensures !IsNumeral(TrimSuffix(TrimSpace(e.cpuPercent), "%")) ==> CPU(e) == 0.0
    ensures !IsNumeral(TrimSpace(e.pids)) ==> PIDs(e) == 0
    ensures '.' in TrimSpace(e.pids) ==> PIDs(e) == 0
  {
  }

  lemma WholeNumber(digits: string)
    requires digits != "" && AllDigits(digits)
    ensures ParseDecimal(digits) == Some(Decimal(DigitsValue(digits), 0)) && '.' !in digits
    ensures !IsSpace(digits[0]) && !IsSpace(digits[|digits| - 1])
  {
    assert IsDigit(digits[0]) && IsDigit(digits[|digits| - 1]);
    NoPoint(digits);
    WholeValue(digits);
    hide ParseUnsigned, DigitsValue, AllDigits;
  }

  /** A process count is its number, if that fits in 64 bits, and nothing otherwise. */
  lemma PIDsIsNumber(e: Entry, before: string, digits: string, after: string)
    requires e.pids == before + digits + after && Blank(before) && Blank(after)
    requires digits != "" && AllDigits(digits)
    ensures PIDs(e) == if DigitsValue(digits) <= MAX_INT64 then DigitsValue(digits) else 0
  {
    hide TrimSpace, ParseDecimal, DigitsValue;
    WholeNumber(digits);
    TrimSurrounded(before, digits, after);
  }

  // ----- identity

  /** An entry is that of the container it identifies; one without an identifier is known by its name. */
  lemma IdentifiedBy(e: Entry, before: string, id: string, after: string)
    requires e.id == before + id + after && Blank(before) && Blank(after)
    requires id != "" ==> !IsSpace(id[0]) && !IsSpace(id[|id| - 1])
    ensures ContainerID(e) == if id != "" then id else e.name
  {
    hide TrimSpace;
    if id != "" {
      TrimSurrounded(before, id, after);
    } else {
      assert e.id == before + after;
      BlankTrimmed(e.id);
    }
  }

  /** What is known of a container: its image and service as inspected, and a short name made from its image, or
      from the container's name if the image tells nothing. */
  lemma SightedIs(e: Entry, inspect: Inspect)
    ensures var info := Sighted(e, inspect);
            && info.id == ContainerID(e) && info.name == e.name
            && info.image == inspect(ContainerID(e)).0 && info.service == inspect(ContainerID(e)).1
            && (Blank(info.image) ==> info.shortName == ExtractImageShortName(e.name))
            && (ExtractImageShortName(info.image) !in ["container", ""] ==>
                  info.shortName == ExtractImageShortName(info.image))
  {
    hide ContainerID;
    var image := inspect(ContainerID(e)).0;
    if Blank(image) {
      BlankShortName(image);
    }
    hide ExtractImageShortName;
  }

  // ----- one update

  /** What a line of statistics says, in the form it has. */
  datatype Line = Line(
    used: string, limit: string, received: string, sent: string, blocksRead: string, blocksWritten: string,
    processes: string)

  predicate Reads(e: Entry, l: Line) {
    && e.memUsage == l.used + " / " + l.limit && '/' !in l.used
    && e.netIO == l.received + " / " + l.sent && '/' !in l.received && '/' !in l.sent
    && e.blockIO == l.blocksRead + " / " + l.blocksWritten && '/' !in l.blocksRead && '/' !in l.blocksWritten
    && e.pids == l.processes && l.processes != "" && AllDigits(l.processes)
  }

  predicate LineFits(l: Line) {
    && AllDigits(l.processes) && DigitsValue(l.processes) <= MAX_INT64
    && IsInt64(ParseHumanBytes(l.used))
    && IsInt64(ParseHumanBytes(l.received)) && IsInt64(ParseHumanBytes(l.sent))
    && IsInt64(ParseHumanBytes(l.blocksRead)) && IsInt64(ParseHumanBytes(l.blocksWritten))
  }

  lemma ReadingIs(e: Entry, l: Line)
    requires Reads(e, l) && DigitsValue(l.processes) <= MAX_INT64
    ensures Reading(e) ==
            Totals(ParseHumanBytes(l.used), CPU(e), DigitsValue(l.processes), ParseHumanBytes(l.received),
                   ParseHumanBytes(l.sent), ParseHumanBytes(l.blocksRead), ParseHumanBytes(l.blocksWritten))
  {
    MemoryIsUsage(e, l.used, l.limit);
    PairIs(l.received, l.sent);
    PairIs(l.blocksRead, l.blocksWritten);
    assert "" + l.processes + "" == l.processes;
    PIDsIsNumber(e, "", l.processes, "");
    hide Memory, CPU, PIDs, Pair, ParseHumanBytes, DigitsValue;
  }

  function AtLeastZero(x: int): int {
    if x > 0 then x else 0
  }

  lemma FirstTotals(e: Entry, l: Line, inspect: Inspect)
    requires Reads(e, l) && LineFits(l)
    ensures var t := Updated(NOTHING, [e], inspect).totals;
            && t.mem == AtLeastZero(ParseHumanBytes(l.used))
            && t.cpu == (if CPU(e) > 0.0 then CPU(e) else 0.0)
            && t.pids == DigitsValue(l.processes)
            && t.netRx == AtLeastZero(ParseHumanBytes(l.received))
            && t.netTx == AtLeastZero(ParseHumanBytes(l.sent))
            && t.blockRead == AtLeastZero(ParseHumanBytes(l.blocksRead))
            && t.blockWrite == AtLeastZero(ParseHumanBytes(l.blocksWritten))
  {
    ReadingIs(e, l);
    hide Reading, CPU, ParseHumanBytes, DigitsValue, Known, Raised;
    FirstSum(e);
    hide Sum;
  }

  lemma FirstPeak(e: Entry, inspect: Inspect)
    ensures var p := Updated(NOTHING, [e], inspect);
            && p.containers == map[ContainerID(e) := Sighted(e, inspect)]
            && PeakOf(p.peakMem, ContainerID(e)) == AtLeastZero(Memory(e))
  {
    hide Memory, ContainerID, Sighted, Higher, Sum;
    var one: Sample := [e];
    var none: Sample := one[..0];
    var nobody: map<string, Info> := map[];
    var nothing: map<string, int> := map[];
    assert Known(nobody, none, inspect) == nobody && Raised(nothing, none) == nothing;
    assert Known(nobody, one, inspect) == nobody[ContainerID(e) := Sighted(e, inspect)];
    assert Raised(nothing, one) == if Memory(e) > 0 then nothing[ContainerID(e) := Memory(e)] else nothing;
  }

  /** The first sample of a run, with one entry in the form the statistics have, makes the peaks what the entry
      says: the memory used, not the limit, what was received and what was sent, read and written. */
  lemma FirstUpdate(e: Entry, l: Line, inspect: Inspect)
    requires Reads(e, l) && LineFits(l)
    ensures var p := Updated(NOTHING, [e], inspect);
            && PeakOf(p.peakMem, ContainerID(e)) == p.totals.mem == AtLeastZero(ParseHumanBytes(l.used))
            && p.totals.pids == DigitsValue(l.processes)
            && p.totals.netRx == AtLeastZero(ParseHumanBytes(l.received))
            && p.totals.netTx == AtLeastZero(ParseHumanBytes(l.sent))
            && p.totals.blockRead == AtLeastZero(ParseHumanBytes(l.blocksRead))
            && p.totals.blockWrite == AtLeastZero(ParseHumanBytes(l.blocksWritten))
  {
    hide Updated, ParseHumanBytes, DigitsValue, Memory, ContainerID;
    MemoryIsUsage(e, l.used, l.limit);
    FirstTotals(e, l, inspect);
    FirstPeak(e, inspect);
  }

  lemma FirstSum(e: Entry)
    requires var r := Reading(e);
             && IsInt64(r.mem) && IsInt64(r.pids) && IsInt64(r.netRx) && IsInt64(r.netTx)
             && IsInt64(r.blockRead) && IsInt64(r.blockWrite)
    ensures Sum([e]) == Reading(e)
  {
    hide Reading, Wrap;
    var r := Reading(e);
    assert [e][..0] == [];
    WrapId(r.mem);
    WrapId(r.pids);
    WrapId(r.netRx);
    WrapId(r.netTx);
    WrapId(r.blockRead);
    WrapId(r.blockWrite);
  }
}
