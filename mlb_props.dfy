/** Properties of one MLB attempt: what it returns, how its year and week relate to the
    serial's decoded date, and the shape of the candidates. */
module MlbProps {
  import opened Tables
  import opened Codec
  import opened Search
  import opened ModelDb
  import opened Serials
  import opened SerialProps
  import opened Mlb

  // ---------------------------------------------------------------------------
  // What an attempt ends in

  /** A serial whose modern week symbols give no week returns FAIL-ZERO followed by the
      week byte; any other returned string is the candidate, and it passes the checksum. A
      retry is a candidate that fails the checksum, or a legacy seed below 1,000,000. */
  lemma AttemptResults(db: ModelDatabase, s: Serial, k: MlbPicks)
    requires db.Valid() && -1 <= s.index < db.ModelCount() && k.seed < 0x7FFE
    ensures var r := AttemptOf(db, s, k);
      && (FailsZero(s) ==> r == Returned(FAIL_ZERO + RuneBytes(s.week[0])))
      && (!FailsZero(s) && r.Returned? ==> r.mlb == Candidate(db, s, k) && ChecksumValid(r.mlb))
      && (r.ChecksumRetry? ==> !FailsZero(s) && r.candidate == Candidate(db, s, k) && !ChecksumValid(r.candidate))
      && (r.SeedRetry? <==> !FailsZero(s) && |s.country| == COUNTRY_OLD_LEN && Ascii7Seed(k.seed) < 1000000)
  {
  }

  /** A legacy attempt with the seed draw 0 always retries: 0 times the multiplier is below
      the getAscii7 minimum. */
  lemma ZeroSeedRetries(db: ModelDatabase, s: Serial, k: MlbPicks)
    requires db.Valid() && -1 <= s.index < db.ModelCount() && k.seed == 0
    requires |s.country| == COUNTRY_OLD_LEN
    ensures AttemptOf(db, s, k) == SeedRetry
  {
    assert Ascii7Seed(0) == 0;
  }

  // ---------------------------------------------------------------------------
  // The modern tables against the serial's tables

  /** The modern year scan agrees with the serial's year letters: a year letter gives its
      year in the decade, any other byte 0. */
  lemma MlbYearAgrees(y: Byte)
    ensures ModernMlbYear(y) == if YearLetterValue(y) >= 0 then YearLetterValue(y) else 0
  {
    assert MLB_YEAR_SRC == AppleYearReverse;
    assert forall i :: 0 <= i < 20 ==> ByteOffset(MLB_YEAR_DST[i]) == i / 2;
    YearLetterSpec(y);
    FirstIndexSpec(AppleYearReverse, y);
  }

  /** The overrides are the year letters at odd positions, the second half-years. */
  lemma OverridesShape()
    ensures |MLB_WEEK_OVERRIDES| == 10
    ensures forall j :: 0 <= j < 10 ==> MLB_WEEK_OVERRIDES[j] == AppleYearReverse[2 * j + 1]
  {
  }

  /** A letter with a nonzero week carry is a year letter. */
  lemma CarryLetterIsYearLetter(y: Byte)
    requires AlphaToValue(y, AppleTblWeekAdd, "") > 0
    ensures y in AppleYearReverse
  {
    WeekAddTable();
    assert Letter(y as int - 'A' as int) == y;
  }

  /** A year letter is an override exactly when the serial's week carry is 26 for it. */
  lemma OverridesAreCarryLetters(y: Byte)
    ensures y in MLB_WEEK_OVERRIDES <==> AlphaToValue(y, AppleTblWeekAdd, "") == 26
  {
    if y in MLB_WEEK_OVERRIDES {
      var j :| 0 <= j < |MLB_WEEK_OVERRIDES| && MLB_WEEK_OVERRIDES[j] == y;
      OverridesShape();
      WeekCarry(2 * j + 1);
    }
    if AlphaToValue(y, AppleTblWeekAdd, "") == 26 {
      CarryLetterIsYearLetter(y);
      FirstIndexSpec(AppleYearReverse, y);
      var i := FirstIndex(AppleYearReverse, y);
      WeekCarry(i);
      OddYearLetterIsOverride(i);
    }
  }

  /** The year letter at an odd position is an override. */
  lemma OddYearLetterIsOverride(i: int)
    requires 0 <= i < 20 && i % 2 == 1
    ensures AppleYearReverse[i] in MLB_WEEK_OVERRIDES
  {
    OverridesShape();
    var j := (i - 1) / 2;
    assert 0 <= j < 10 && 2 * j + 1 == i;
    assert MLB_WEEK_OVERRIDES[j] == AppleYearReverse[i];
  }

  /** The digits of the week source table. */
  lemma WeekSourceDigits()
    ensures |MLB_WEEK_SRC| == 29
    ensures forall p :: 0 <= p < 9 ==> MLB_WEEK_SRC[p] as int == '1' as int + p
  {
  }

  /** The letters of the week source table and their week values in the serial's table:
      they agree up to R; S is blacklisted in the serial; from T on the MLB position is
      one higher; Z is blacklisted. */
  lemma WeekSourceLetters()
    ensures |MLB_WEEK_SRC| == 29 && |AppleTblWeek| == 26
    ensures forall p :: 9 <= p < 29 ==> IsUpper(MLB_WEEK_SRC[p])
    ensures forall p :: 9 <= p < 29 ==>
      (MLB_WEEK_SRC[p] in AppleWeekBlacklist <==> p == 22 || p == 28)
    ensures forall p :: 9 <= p < 29 && p != 22 && p != 28 ==>
      AppleTblWeek[MLB_WEEK_SRC[p] as int - 'A' as int] == (if p < 22 then p + 1 else p)
  {
  }

  /** Every letter with a week value appears in the week source table. */
  lemma WeekLettersCovered()
    ensures forall j :: 0 <= j < 26 && Letter(j) !in AppleWeekBlacklist ==> Letter(j) in MLB_WEEK_SRC[9..]
  {
  }

  /** The letters from T on occupy the positions from 23 on. */
  lemma WeekSourceOrder()
    ensures |MLB_WEEK_SRC| == 29
    ensures forall p :: 9 <= p < 29 ==> (MLB_WEEK_SRC[p] >= 'T' <==> p >= 23)
  {
  }

  /** A week letter is found among the letters of the week source table. */
  lemma WeekLetterPosition(w: Byte)
    requires IsUpper(w) && w !in AppleWeekBlacklist
    ensures 9 <= FirstIndex(MLB_WEEK_SRC, w) < |MLB_WEEK_SRC|
    ensures MLB_WEEK_SRC[FirstIndex(MLB_WEEK_SRC, w)] == w
  {
    WeekLettersCovered();
    assert Letter(w as int - 'A' as int) == w;
    assert w in MLB_WEEK_SRC[9..];
    assert w in MLB_WEEK_SRC;
    FirstIndexSpec(MLB_WEEK_SRC, w);
    WeekSourceDigits();
  }

  /** A week symbol the serial decodes to a positive value sits in the MLB week table at
      that value minus one, or at the value itself for a letter from T on. */
  lemma MlbWeekSymbol(w: Byte)
    requires WeekSymbolValue(w) > 0
    ensures 0 <= FirstIndex(MLB_WEEK_SRC, w) < |MLB_WEEK_SRC|
    ensures FirstIndex(MLB_WEEK_SRC, w) + 1 == WeekSymbolValue(w) + (if w >= 'T' then 1 else 0)
  {
    WeekSourceDigits();
    if '0' < w <= '9' {
      var p := DigitValue(w) - 1;
      assert MLB_WEEK_SRC[p] == w;
      FirstIndexAt(MLB_WEEK_SRC, w, p);
    } else {
      WeekLetterPosition(w);
      var p := FirstIndex(MLB_WEEK_SRC, w);
      WeekSourceLetters();
      WeekSourceOrder();
      assert p != 22 && p != 28;
    }
  }

  /** The week of a modern attempt against the serial's decoded week: for a year letter and
      a week symbol with a value, the MLB counts one week more in a second half-year and one
      more for a week letter from T on, before the step back. */
  lemma MlbWeekVsSerialWeek(db: ModelDatabase, index: int, y: Byte, w: Byte, model: Bytes)
    requires db.Valid() && -1 <= index < db.ModelCount() && |model| >= 1
    requires YearLetterValue(y) >= 0 && WeekSymbolValue(w) > 0
    ensures ModernMlbYear(y) == YearLetterValue(y)
    ensures ModernDate(db, index, y, w, model).week == WeekSymbolValue(w) + AlphaToValue(y, AppleTblWeekAdd, "")
    ensures ModernMlbWeek(y, w) ==
      ModernDate(db, index, y, w, model).week
      + (if y in MLB_WEEK_OVERRIDES then 1 else 0) + (if w >= 'T' then 1 else 0)
  {
    MlbYearAgrees(y);
    MlbWeekSymbol(w);
    OverridesAreCarryLetters(y);
    YearLetterSpec(y);
    FirstIndexSpec(AppleYearReverse, y);
    WeekCarry(FirstIndex(AppleYearReverse, y));
    FirstIndexSpec(MLB_WEEK_OVERRIDES, y);
  }

  /** FAIL-ZERO happens exactly when the year letter is no override and the week byte is
      not in the week table; a week symbol with a value therefore never fails. */
  lemma FailZeroRule(y: Byte, w: Byte)
    ensures ModernMlbWeek(y, w) < SERIAL_WEEK_MIN <==> y !in MLB_WEEK_OVERRIDES && w !in MLB_WEEK_SRC
    ensures WeekSymbolValue(w) > 0 ==> ModernMlbWeek(y, w) >= SERIAL_WEEK_MIN
  {
    FirstIndexSpec(MLB_WEEK_OVERRIDES, y);
    FirstIndexSpec(MLB_WEEK_SRC, w);
    if WeekSymbolValue(w) > 0 {
      MlbWeekSymbol(w);
    }
  }

  // ---------------------------------------------------------------------------
  // The step back and the printed fields

  /** For the counters of a modern serial the step back stays within one year digit and
      weeks 1 to 55: week 1 becomes week 53 of the year before, any other week the week
      before it. */
  lemma StepBackRange(d: MlbDate)
    requires d.year <= 9 && 1 <= d.week <= MLB_WEEK_CARRY + |MLB_WEEK_SRC|
    ensures StepBack(d).year <= 9 && 1 <= StepBack(d).week <= 55
    ensures d.week > 1 ==> StepBack(d) == MlbDate(d.year, d.week - 1)
    ensures d.week == 1 ==> StepBack(d).week == 53 && (StepBack(d).year + 1) % 10 == d.year
  {
  }

  /** Legacy week "00" is not stepped back into the previous year: the uint32 counter wraps
      below zero and prints as 4294967295. */
  lemma LegacyWeekZeroWraps(s: Serial)
    requires |s.country| == COUNTRY_OLD_LEN && s.week == ['0', '0']
    ensures StepBack(RawMlbDate(s)).week == 0xFFFF_FFFF
    ensures Pad2(StepBack(RawMlbDate(s)).week) == Decimal(0xFFFF_FFFF)
    ensures |Decimal(0xFFFF_FFFF)| == 10 && DecimalValue(Decimal(0xFFFF_FFFF)) == 0xFFFF_FFFF
  {
    assert RawMlbDate(s) == MlbDate(ByteOffset(s.year), 0);
    DecimalRoundTrip(0xFFFF_FFFF);
    assert |Decimal(4)| == 1;
    assert |Decimal(42)| == 2;
    assert |Decimal(429)| == 3;
    assert |Decimal(4294)| == 4;
    assert |Decimal(42949)| == 5;
    assert |Decimal(429496)| == 6;
    assert |Decimal(4294967)| == 7;
    assert |Decimal(42949672)| == 8;
    assert |Decimal(429496729)| == 9;
  }

  /** %d read back: the numeral consists of digits and has the value printed. */
  lemma {:induction false} DecimalRoundTrip(n: nat)
    ensures DecimalValue(Decimal(n)) == n
    ensures forall i :: 0 <= i < |Decimal(n)| ==> IsDigit(Decimal(n)[i])
  {
    var s := Decimal(n);
    if n >= 10 {
      DecimalRoundTrip(n / 10);
      assert s[..|s| - 1] == Decimal(n / 10);
    } else {
      assert s[..0] == [];
    }
  }

  /** The numeral of a value below 10 has one digit, and of a value below 100 at most two. */
  lemma DecimalLength(n: nat)
    ensures n < 10 ==> |Decimal(n)| == 1
    ensures 10 <= n < 100 ==> |Decimal(n)| == 2
  {
  }

  /** %02d read back: two digits for a value below 100, holding that value. */
  lemma Pad2RoundTrip(n: nat)
    requires n < 100
    ensures |Pad2(n)| == 2 && IsDigit(Pad2(n)[0]) && IsDigit(Pad2(n)[1])
    ensures DecimalValue(Pad2(n)) == n
  {
    if n < 10 {
      assert Pad2(n)[..1] == ['0'];
      assert ['0'][..0] == [];
    } else {
      DecimalRoundTrip(n);
      DecimalLength(n);
    }
  }

  /** %c read back: one byte below 0x80, else a UTF-8 lead and continuation byte holding
      the code point's upper two and lower six bits. */
  lemma RuneBytesRoundTrip(b: Byte)
    ensures b as int < 0x80 ==> RuneBytes(b) == [b]
    ensures b as int >= 0x80 ==>
      |RuneBytes(b)| == 2 &&
      0xC2 <= RuneBytes(b)[0] as int <= 0xC3 && 0x80 <= RuneBytes(b)[1] as int < 0xC0 &&
      (RuneBytes(b)[0] as int - 0xC0) * 64 + (RuneBytes(b)[1] as int - 0x80) == b as int
  {
  }

  /** A modern candidate: the country, one year digit, two week digits, three and two block
      characters, the board code and two more block characters; 13 bytes plus the board
      code for a three-character country. */
  lemma ModernCandidateShape(db: ModelDatabase, s: Serial, k: MlbPicks)
    requires db.Valid() && -1 <= s.index < db.ModelCount() && k.seed < 0x7FFE
    requires |s.country| == COUNTRY_NEW_LEN && !FailsZero(s)
    ensures var c := Candidate(db, s, k); var d := StepBack(RawMlbDate(s));
      && |c| == 13 + |BoardOf(db, s)|
      && c[..3] == s.country
      && IsDigit(c[3]) && DigitValue(c[3]) == d.year
      && DecimalValue(c[4..6]) == d.week
  {
    var raw := RawMlbDate(s);
    MlbYearAgrees(s.year);
    StepBackRange(raw);
    ModernCandidateFields(s.country, StepBack(raw), BoardOf(db, s), k);
  }

  /** The fields of a modern candidate for a year digit and a week below 100. */
  lemma ModernCandidateFields(country: Bytes, d: MlbDate, board: Bytes, k: MlbPicks)
    requires |country| == COUNTRY_NEW_LEN && d.year <= 9 && d.week < 100
    ensures var c := ModernCandidate(country, d, board, k);
      && |c| == 13 + |board|
      && c[..3] == country
      && IsDigit(c[3]) && DigitValue(c[3]) == d.year
      && DecimalValue(c[4..6]) == d.week
  {
    var b1, b2, b3 := MLBBlock1[k.block1 % |MLBBlock1|], MLBBlock2[k.block2 % |MLBBlock2|], MLBBlock3[k.block3 % |MLBBlock3|];
    assert |b1| == 3 && |b2| == 2 && |b3| == 2 by {
      MLBBlocks();
    }
    DecimalLength(d.year);
    Pad2RoundTrip(d.week);
    var head := country + Decimal(d.year) + Pad2(d.week);
    var c := ModernCandidate(country, d, board, k);
    assert c == head + b1 + b2 + board + b3;
    assert c[..6] == head;
    assert head[3..4] == Decimal(d.year) && head[4..6] == Pad2(d.week);
  }

  /** The fields of a legacy candidate for a year digit, a week below 100 and a three-symbol
      code: the country, the year digit, two week digits, "0", the code, the board code
      and the suffix. */
  lemma LegacyCandidateFields(s: Serial, d: MlbDate, code: Bytes, board: Bytes, k: MlbPicks)
    requires |s.country| == COUNTRY_OLD_LEN && d.year <= 9 && d.week < 100 && |code| == 3
    ensures var c := LegacyCandidate(s.country, d, code, board, k);
      && |c| == 10 + |board|
      && c[..2] == s.country
      && IsDigit(c[2]) && DigitValue(c[2]) == d.year
      && DecimalValue(c[3..5]) == d.week
      && c[5] == '0' && c[6..9] == code && c[9..9 + |board|] == board
      && c[|c| - 1] in AppleBase34Reverse
  {
    DecimalLength(d.year);
    Pad2RoundTrip(d.week);
    var c := LegacyCandidate(s.country, d, code, board, k);
    assert c[2..3] == Decimal(d.year);
    assert c[3..5] == Pad2(d.week);
  }

  /** A legacy candidate from digit year and week, the week not "00", has 10 bytes besides
      the board code, and prints the stepped-back year and week. */
  lemma LegacyCandidateShape(db: ModelDatabase, s: Serial, k: MlbPicks)
    requires db.Valid() && -1 <= s.index < db.ModelCount() && k.seed < 0x7FFE
    requires |s.country| == COUNTRY_OLD_LEN && Ascii7Seed(k.seed) >= 1000000
    requires IsDigit(s.year) && IsDigit(s.week[0]) && IsDigit(s.week[1]) && s.week != ['0', '0']
    ensures var c := Candidate(db, s, k); var d := StepBack(RawMlbDate(s));
      && |c| == 10 + |BoardOf(db, s)|
      && c[..2] == s.country
      && IsDigit(c[2]) && DigitValue(c[2]) == d.year
      && DecimalValue(c[3..5]) == d.week
      && c[5] == '0'
  {
    var raw := RawMlbDate(s);
    assert raw == MlbDate(DigitValue(s.year), DigitValue(s.week[0]) * 10 + DigitValue(s.week[1]));
    assert 1 <= raw.week <= 99;
    var d := StepBack(raw);
    assert d.week <= 98 && d.year <= 9;
    var code := LegacyCode(Ascii7Seed(k.seed));
    var board := BoardOf(db, s);
    LegacyCandidateFields(s, d, code, board, k);
    assert Candidate(db, s, k) == LegacyCandidate(s.country, d, code, board, k);
  }

  // ---------------------------------------------------------------------------
  // A whole attempt from a decoded serial

  /** For a modern serial whose year letter and week symbol decode, the attempt never
      fails with FAIL-ZERO, and its candidate prints the decade year and the week counted
      as in MlbWeekVsSerialWeek, stepped back once. */
  lemma ModernAttemptDate(db: ModelDatabase, s: Serial, k: MlbPicks)
    requires db.Valid() && -1 <= s.index < db.ModelCount() && k.seed < 0x7FFE
    requires |s.country| == COUNTRY_NEW_LEN && |s.model| >= 1
    requires YearLetterValue(s.year) >= 0 && WeekSymbolValue(s.week[0]) > 0
    ensures !FailsZero(s)
    ensures var d := StepBack(RawMlbDate(s));
      var week := ModernDate(db, s.index, s.year, s.week[0], s.model).week
        + (if s.year in MLB_WEEK_OVERRIDES then 1 else 0) + (if s.week[0] >= 'T' then 1 else 0);
      && (week > 1 ==> d.year == YearLetterValue(s.year) && d.week == week - 1)
      && (week == 1 ==> d.week == 53 && (d.year + 1) % 10 == YearLetterValue(s.year))
  {
    FailZeroRule(s.year, s.week[0]);
    MlbWeekVsSerialWeek(db, s.index, s.year, s.week[0], s.model);
    StepBackRange(RawMlbDate(s));
  }
}
