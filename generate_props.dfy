/** What the generator promises: its error cases, where the code as written panics, that
    the corrected generator agrees with it everywhere else, and that a generated serial
    decodes back to the fields it was generated from. */
module EncoderProps {
  import opened Tables
  import opened Outcomes
  import opened Search
  import opened Codec
  import opened ModelDb
  import opened Serials
  import opened SerialProps
  import opened Encoder

  // ---------------------------------------------------------------------------
  // Rendering decodes back

  /** Base34Symbol is the reverse base-34 table. */
  lemma Base34SymbolIsTable(v: int)
    requires 0 <= v < 34
    ensures Base34Symbol(v) == AppleBase34Reverse[v]
  {
    var digits, low, mid, high := "0123456789", "ABCDEFGH", "JKLMN", "PQRSTUVWXYZ";
    assert AppleBase34Reverse == digits + low + mid + high;
    if v < 10 {
      assert AppleBase34Reverse[v] == digits[v];
    } else if v < 18 {
      assert AppleBase34Reverse[v] == low[v - 10];
    } else if v < 23 {
      assert AppleBase34Reverse[v] == mid[v - 18];
    } else {
      assert AppleBase34Reverse[v] == high[v - 23];
    }
  }

  /** Each line symbol is a serial symbol whose value is its position. */
  lemma Base34SymbolValue(v: int)
    requires 0 <= v < 34
    ensures IsSerialSymbol(Base34Symbol(v)) && SymbolValue(Base34Symbol(v)) == v
  {
    Base34SymbolIsTable(v);
    Base34RoundTrip(1);
    SerialSymbolIsBase34(Base34Symbol(v));
  }

  /** The three line symbols decode to the line, and the first of them to rmin. */
  lemma LineTextDecodes(rmin: int, line: int, s: Bytes, pos: nat)
    requires 0 <= rmin < 34 && 0 <= line - rmin * 68 && (line - rmin * 68) / 34 < 34
    requires pos + 3 <= |s| && s[pos..pos + 3] == LineText(rmin, line)
    ensures IsSerialSymbol(s[pos]) && IsSerialSymbol(s[pos + 1]) && IsSerialSymbol(s[pos + 2])
    ensures LineField(s, pos).ok && LineField(s, pos).value == line && SymbolValue(s[pos]) == rmin
  {
    var rem := line - rmin * 68;
    var hi, lo := rem / 34, rem % 34;
    assert s[pos] == Base34Symbol(rmin) && s[pos + 1] == Base34Symbol(hi) && s[pos + 2] == Base34Symbol(lo) by {
      var t := LineText(rmin, line);
      assert s[pos] == t[0] && s[pos + 1] == t[1] && s[pos + 2] == t[2];
    }
    Base34SymbolValue(rmin);
    Base34SymbolValue(hi);
    Base34SymbolValue(lo);
    LineFieldValid(s, pos);
    assert 68 * rmin + 34 * hi + lo == line;
  }

  /** A legacy date decodes to its year, and to its week for a week of two digits. */
  lemma LegacyDateDecodes(year: int, week: int)
    requires SERIAL_YEAR_OLD_MIN <= year <= SERIAL_YEAR_OLD_MAX && 0 <= week <= 99
    ensures var d := LegacyDateText(year, week);
      LegacyDate(d.year[0], d.week[0], d.week[1]) == DateFields(year, week, true)
  {
  }

  /** A modern date decodes to the year's offset within its decade, and its week symbol
      plus the half-year carry of the year letter gives the week back. */
  lemma ModernDateDecodes(year: int, week: int)
    requires SERIAL_YEAR_NEW_MIN <= year < SERIAL_YEAR_NEW_MAX && SERIAL_WEEK_MIN <= week <= SERIAL_WEEK_MAX
    ensures 0 <= YearLetterIndex(year, week) < |AppleYearReverse| && week < |AppleWeekReverse|
    ensures var d := ModernDateText(year, week);
      && YearLetterValue(d.year[0]) == year - ModernBase(year)
      && WeekSymbolValue(d.week[0]) > 0
      && WeekSymbolValue(d.week[0]) + AlphaToValue(d.year[0], AppleTblWeekAdd, "") == week
  {
    YearTables();
    var i := YearLetterIndex(year, week);
    assert 0 <= i < 20;
    var d := ModernDateText(year, week);
    assert d.year[0] == AppleYearReverse[i];
    assert YearLetterValue(d.year[0]) == year - ModernBase(year) by {
      YearLetterAt(i);
      assert i / 2 == year - ModernBase(year);
    }
    YearLetterSpec(AppleYearReverse[i]);
    WeekCarry(i);
    WeekReverseDecodes(week);
  }

  // ---------------------------------------------------------------------------
  // Error cases

  /** Without a model index and a model code the generator fails first, in both versions. */
  lemma NoModelError(db: ModelDatabase, p: Params, k: Picks)
    requires db.Valid() && PicksInRange(k)
    ensures GenerateAsWritten(db, p, k) == Failed(NoModel) <==> p.index < 0 && p.modelCode == []
    ensures Generate(db, p, k) == Err(NoModel) <==> p.index < 0 && p.modelCode == []
  {
    NoModelAsWritten(db, p, k);
    NoModelCorrected(db, p, k);
  }

  /** The "no model" error of the code as written comes only from the first check. */
  lemma NoModelAsWritten(db: ModelDatabase, p: Params, k: Picks)
    requires db.Valid() && PicksInRange(k)
    ensures GenerateAsWritten(db, p, k) == Failed(NoModel) <==> p.index < 0 && p.modelCode == []
  {
    var c := ChooseFieldsAsWritten(db, p, k);
    if c.Returned? {
      var f := c.value;
      var d := EncodeDateAsWritten(f.countryLen, f.year, f.week);
      assert d != Failed(NoModel);
      if d.Returned? {
        assert EncodeLineAsWritten(p.copy, f.line) != Failed(NoModel);
      }
    }
  }

  /** The "no model" error of the corrected generator comes only from the first check. */
  lemma NoModelCorrected(db: ModelDatabase, p: Params, k: Picks)
    requires db.Valid() && PicksInRange(k)
    ensures Generate(db, p, k) == Err(NoModel) <==> p.index < 0 && p.modelCode == []
  {
    var c := ChooseFields(db, p, k);
    if c.Ok? {
      var f := c.value;
      assert EncodeDate(f.countryLen, f.year, f.week) != Err(NoModel);
      if EncodeDate(f.countryLen, f.year, f.week).Ok? {
        assert EncodeLine(p.copy, f.line) != Err(NoModel);
      }
    }
  }

  /** The year range errors: a 2-character country needs a year in [2003, 2012], any other
      length a year in [2010, 2030]. */
  lemma YearRangeErrors(countryLen: nat, year: int, week: int)
    requires week >= 0
    ensures var o := EncodeDateAsWritten(countryLen, year, week);
      && (o == Failed(LegacyYearOutOfRange(year)) <==>
            countryLen == COUNTRY_OLD_LEN && (year < SERIAL_YEAR_OLD_MIN || year > SERIAL_YEAR_OLD_MAX))
      && (o == Failed(ModernYearOutOfRange(year)) <==>
            countryLen != COUNTRY_OLD_LEN && (year < SERIAL_YEAR_NEW_MIN || year > SERIAL_YEAR_NEW_MAX))
      && (o.Failed? ==> o == Failed(LegacyYearOutOfRange(year)) || o == Failed(ModernYearOutOfRange(year)))
  {
  }

  /** The modern date panics exactly for year 2030, whose letters lie past the table, and
      for a week past 53. */
  lemma DatePanics(countryLen: nat, year: int, week: int)
    requires week >= 0
    ensures var o := EncodeDateAsWritten(countryLen, year, week);
      o.Panicked? <==>
        countryLen != COUNTRY_OLD_LEN && SERIAL_YEAR_NEW_MIN <= year <= SERIAL_YEAR_NEW_MAX &&
        (year == SERIAL_YEAR_NEW_MAX || week > SERIAL_WEEK_MAX)
  {
  }

  /** The copy error: the copy asks for a first symbol worth more than the line. */
  lemma CopyError(copy: int, line: int)
    requires line >= 0
    ensures EncodeLineAsWritten(copy, line).Failed? <==> copy >= 0 && 68 * (LineToRmin(line) + copy - 1) > line
    ensures EncodeLineAsWritten(copy, line).Failed? ==>
      EncodeLineAsWritten(copy, line).error == CopyCannotRepresentLine(copy, line)
  {
  }

  /** Without a copy every line of [0, 3399] is rendered, with the least first symbol. */
  lemma LineWithoutCopy(line: int)
    requires 0 <= line <= SERIAL_LINE_MAX
    ensures EncodeLineAsWritten(-1, line) == Returned(LineText(LineToRmin(line), line))
  {
  }

  /** Copy 0 panics for every line of [0, 3399]: the first symbol drops to -1
      (main.go:655) or, for a line past 1155, the remainder exceeds the two other symbols
      (main.go:656). */
  lemma CopyZeroPanics(line: int)
    requires 0 <= line <= SERIAL_LINE_MAX
    ensures EncodeLineAsWritten(0, line) == Panicked(if line <= SERIAL_LINE_REPR_MAX then 655 else 656)
  {
    if line > SERIAL_LINE_REPR_MAX {
      var r := LineToRmin(line);
      assert 1 <= r <= 33;
      assert line - (r - 1) * 68 >= 34 * 34;
    }
  }

  /** A copy of 1 or more panics exactly when it pushes the first symbol past the table
      while the line still covers it. */
  lemma CopyPanics(copy: int, line: int)
    requires copy >= 1 && line >= 0
    ensures EncodeLineAsWritten(copy, line).Panicked? <==>
      CopyRmin(copy, line) >= 34 && 68 * CopyRmin(copy, line) <= line
    ensures EncodeLineAsWritten(copy, line).Panicked? ==> EncodeLineAsWritten(copy, line).line == 655
  {
  }

  // ---------------------------------------------------------------------------
  // The code as written against the corrected generator

  /** The field choices agree except where the code as written panics, and there the
      corrected choice reports the index. */
  lemma ChooseFieldsAgree(db: ModelDatabase, p: Params, k: Picks)
    requires db.Valid()
    ensures !ChooseFieldsAsWritten(db, p, k).Panicked? ==> ChooseFieldsAsWritten(db, p, k) == Lift(ChooseFields(db, p, k))
    ensures ChooseFieldsAsWritten(db, p, k).Panicked? ==> ChooseFields(db, p, k) == Err(IndexOutOfRange(p.index))
  {
  }

  lemma EncodeDateAgree(countryLen: nat, year: int, week: int)
    requires week >= 0
    ensures !EncodeDateAsWritten(countryLen, year, week).Panicked? ==>
      EncodeDateAsWritten(countryLen, year, week) == Lift(EncodeDate(countryLen, year, week))
    ensures EncodeDateAsWritten(countryLen, year, week).Panicked? ==>
      EncodeDate(countryLen, year, week).Err? && ReplacesPanic(EncodeDate(countryLen, year, week).error)
  {
  }

  lemma EncodeLineAgree(copy: int, line: int)
    requires line >= 0
    ensures !EncodeLineAsWritten(copy, line).Panicked? ==> EncodeLineAsWritten(copy, line) == Lift(EncodeLine(copy, line))
    ensures EncodeLineAsWritten(copy, line).Panicked? ==>
      EncodeLine(copy, line) == Err(LineNotRepresentable(line, CopyRmin(copy, line)))
  {
  }

  /** Where the code as written does not panic, the corrected generator returns the same
      serial or the same error. Where it panics, the corrected generator returns one of the
      errors that replace a panic, or, for the unknown model of main.go:543, the serial
      with no model index. */
  lemma GenerateAgrees(db: ModelDatabase, p: Params, k: Picks)
    requires db.Valid() && PicksInRange(k)
    ensures !GenerateAsWritten(db, p, k).Panicked? ==> GenerateAsWritten(db, p, k) == Lift(Generate(db, p, k))
    ensures GenerateAsWritten(db, p, k).Panicked? ==>
      (Generate(db, p, k).Err? && ReplacesPanic(Generate(db, p, k).error)) ||
      (GenerateAsWritten(db, p, k).line == 543 && Generate(db, p, k).Ok? && Generate(db, p, k).value.index == -1)
  {
    ChooseFieldsAgree(db, p, k);
    var fo := ChooseFieldsAsWritten(db, p, k);
    if fo.Returned? {
      var f := fo.value;
      EncodeDateAgree(f.countryLen, f.year, f.week);
      var d := EncodeDateAsWritten(f.countryLen, f.year, f.week);
      if d.Returned? {
        EncodeLineAgree(p.copy, f.line);
        var l := EncodeLineAsWritten(p.copy, f.line);
        if l.Returned? {
          ParseAsWrittenVsDecode(db, Printed(f, d.value, l.value));
        }
      }
    }
  }

  // ---------------------------------------------------------------------------
  // A generated serial decodes back

  /** The fields fit one serial format: a 2-character country with a 3-character model
      code, or a 3-character country with a 4-character one. */
  predicate FormatFits(f: Fields) {
    |f.country| == f.countryLen &&
    ((f.countryLen == COUNTRY_OLD_LEN && |f.model| == MODEL_CODE_OLD_LEN) ||
     (f.countryLen == COUNTRY_NEW_LEN && |f.model| == MODEL_CODE_NEW_LEN))
  }

  /** The serial the corrected generator prints from fields that fit a format: its
      length, and the line symbols at position 5. */
  lemma PrintedShape(f: Fields, d: DateText, l: Bytes)
    requires FormatFits(f) && |l| == 3
    requires f.countryLen == COUNTRY_OLD_LEN ==> |d.year| == 1 && |d.week| == 2
    requires f.countryLen == COUNTRY_NEW_LEN ==> |d.year| == 1 && |d.week| == 1
    ensures var s := Printed(f, d, l);
      && |s| == (if f.countryLen == COUNTRY_OLD_LEN then SERIAL_OLD_LEN else SERIAL_NEW_LEN)
      && s[..f.countryLen] == f.country && s[f.countryLen] == d.year[0]
      && (f.countryLen == COUNTRY_OLD_LEN ==> s[3] == d.week[0] && s[4] == d.week[1])
      && (f.countryLen == COUNTRY_NEW_LEN ==> s[4] == d.week[0])
      && s[5..8] == l && s[8..] == f.model
  {
    var s := Printed(f, d, l);
    assert s == f.country + d.year + d.week + l + f.model;
  }

  /** The fields of a successful corrected call, of its rendered date and of its line. */
  function GeneratedFields(db: ModelDatabase, p: Params, k: Picks): Fields
    requires db.Valid() && PicksInRange(k) && Generate(db, p, k).Ok?
  {
    ChooseFields(db, p, k).value
  }

  function GeneratedSerial(db: ModelDatabase, p: Params, k: Picks): Bytes
    requires db.Valid() && PicksInRange(k) && Generate(db, p, k).Ok?
  {
    var f := ChooseFields(db, p, k).value;
    Printed(f, EncodeDate(f.countryLen, f.year, f.week).value, EncodeLine(p.copy, f.line).value)
  }

  /** A generated serial is the decoding of the printed text, which Serial.String gives
      back; its line decodes to the chosen line and its copy to the requested copy minus
      one (0 without a copy). This needs only a country of 2 or 3 characters, whatever the
      model code: the line field starts at byte 5 either way. The country comes back, and
      the format is the country's, when the country and the model code fit one format. */
  lemma GeneratedLineRoundTrip(db: ModelDatabase, p: Params, k: Picks)
    requires db.Valid() && PicksInRange(k) && Generate(db, p, k).Ok?
    requires GeneratedFields(db, p, k).countryLen == COUNTRY_OLD_LEN ||
             GeneratedFields(db, p, k).countryLen == COUNTRY_NEW_LEN
    ensures var f := GeneratedFields(db, p, k);
      var r := Generate(db, p, k).value;
      && r == Decode(db, GeneratedSerial(db, p, k)).value
      && (r.legacy <==> |f.model| == MODEL_CODE_OLD_LEN)
      && r.model == f.model
      && r.decodedLine == f.line
      && r.decodedCopy == (if p.copy >= 0 then p.copy - 1 else 0)
      && SerialString(r) == GeneratedSerial(db, p, k)
      && (FormatFits(f) ==> (r.legacy <==> f.countryLen == COUNTRY_OLD_LEN) && r.country == f.country)
  {
    var f := GeneratedFields(db, p, k);
    var d := EncodeDate(f.countryLen, f.year, f.week).value;
    var rmin := CopyRmin(p.copy, f.line);
    var l := EncodeLine(p.copy, f.line).value;
    var s := Printed(f, d, l);
    assert |f.country| == f.countryLen;
    PrintedLineAt(f, d, l);
    assert Generate(db, p, k) == Ok(Decode(db, s).value);
    EncodedLineText(p.copy, f.line);
    LineTextDecodes(rmin, f.line, s, 5);
    DecodeShape(db, s);
    DecodedLineAndCopy(db, s);
    StringRoundTrip(db, s);
    if FormatFits(f) {
      PrintedShape(f, d, l);
    }
  }

  /** A printed serial whose country of 2 or 3 characters carries a date of its format has
      the line symbols at byte 5 and the model code from byte 8, whatever the model code. */
  lemma PrintedLineAt(f: Fields, d: DateText, l: Bytes)
    requires |f.country| == f.countryLen && (f.countryLen == COUNTRY_OLD_LEN || f.countryLen == COUNTRY_NEW_LEN)
    requires |l| == 3 && |d.year| == 1 && |d.week| == (if f.countryLen == COUNTRY_OLD_LEN then 2 else 1)
    ensures var s := Printed(f, d, l);
      |s| == 8 + |f.model| && s[5..8] == l && s[8..] == f.model
  {
    var s := Printed(f, d, l);
    assert s == (f.country + d.year + d.week) + l + f.model;
  }

  /** A 3-character country with a 3-character model code, which generateSerial does not
      reject: the printed serial has 11 bytes, so it decodes as a legacy serial whose country
      is the first two bytes, while the line still comes back. */
  lemma MismatchedFormatExample(db: ModelDatabase, p: Params, k: Picks)
    requires db.Valid() && PicksInRange(k)
    requires p == Params(-1, 2015, 10, "C02", "1AX", 100, -1)
    ensures Generate(db, p, k).Ok?
    ensures var r := Generate(db, p, k).value;
      r.legacy && r.country == "C0" && r.model == "1AX" && r.decodedLine == 100
  {
    var f := ChooseFields(db, p, k).value;
    assert f == Fields("1AX", COUNTRY_NEW_LEN, "C02", 2015, 10, 100);
    assert LineToRmin(100) == 0;
    var d := EncodeDate(f.countryLen, f.year, f.week).value;
    var l := EncodeLine(p.copy, f.line).value;
    var s := Printed(f, d, l);
    PrintedLineAt(f, d, l);
    assert s[..2] == "C0";
    assert Generate(db, p, k) == Ok(Decode(db, s).value);
    DecodeShape(db, s);
    GeneratedLineRoundTrip(db, p, k);
  }

  /** The date of a generated serial decodes back: the week when it lies in [1, 53], a
      legacy year exactly, and a modern year as its offset within its decade, counted from
      whichever decade the decoder's epoch rule selects. */
  lemma GeneratedDateRoundTrip(db: ModelDatabase, p: Params, k: Picks)
    requires db.Valid() && PicksInRange(k) && Generate(db, p, k).Ok?
    requires FormatFits(GeneratedFields(db, p, k))
    ensures var f := GeneratedFields(db, p, k);
      var r := Generate(db, p, k).value;
      && (SERIAL_WEEK_MIN <= f.week <= SERIAL_WEEK_MAX ==> r.decodedWeek == f.week)
      && (r.legacy ==> r.decodedYear == f.year)
      && (!r.legacy ==>
            var offset := f.year - ModernBase(f.year);
            r.decodedYear == (if Epoch2020(db, r.index, offset, f.model) then 2020 else 2010) + offset)
  {
    var f := GeneratedFields(db, p, k);
    var d := EncodeDate(f.countryLen, f.year, f.week).value;
    var l := EncodeLine(p.copy, f.line).value;
    var s := Printed(f, d, l);
    PrintedShape(f, d, l);
    DecodeShape(db, s);
    if f.countryLen == COUNTRY_OLD_LEN {
      LegacyDateBack(db, s, f.year, f.week);
    } else {
      ModernDateBack(db, s, f.year, f.week);
    }
  }

  /** When the requested year comes back. The encoder picks the decade by the year itself
      (2020 from 2020 on), the decoder by its epoch rule on the model. A modern year
      decodes back exactly when the two choices agree. */
  lemma GeneratedYearRoundTrip(db: ModelDatabase, p: Params, k: Picks)
    requires db.Valid() && PicksInRange(k) && Generate(db, p, k).Ok?
    requires FormatFits(GeneratedFields(db, p, k))
    ensures var f := GeneratedFields(db, p, k);
      var r := Generate(db, p, k).value;
      && (r.legacy ==> r.decodedYear == f.year)
      && (!r.legacy ==>
            (r.decodedYear == f.year <==>
               (Epoch2020(db, r.index, f.year - ModernBase(f.year), f.model) <==> f.year >= SERIAL_YEAR_NEW_MID)))
  {
    GeneratedDateRoundTrip(db, p, k);
  }

  /** When a generated serial is reported valid, for a week in [1, 53]: exactly when its
      country and model code are serial symbols and its decoded year is one of the
      production years of its model, or the model is unknown. The rendered date and line
      are always symbols and always decode. */
  lemma GeneratedValid(db: ModelDatabase, p: Params, k: Picks)
    requires db.Valid() && PicksInRange(k) && Generate(db, p, k).Ok?
    requires FormatFits(GeneratedFields(db, p, k))
    requires SERIAL_WEEK_MIN <= GeneratedFields(db, p, k).week <= SERIAL_WEEK_MAX
    ensures var f := GeneratedFields(db, p, k);
      var r := Generate(db, p, k).value;
      r.valid <==>
        && AllSymbols(f.country) && AllSymbols(f.model)
        && (r.index < 0 || YearListed(db.modelYear[r.index], r.decodedYear))
  {
    var f := GeneratedFields(db, p, k);
    var d := EncodeDate(f.countryLen, f.year, f.week).value;
    var l := EncodeLine(p.copy, f.line).value;
    GeneratedLineRoundTrip(db, p, k);
    GeneratedDateRoundTrip(db, p, k);
    DateTextDecodes(f.countryLen, f.year, f.week);
    EncodedLineText(p.copy, f.line);
    PrintedValid(db, f, d, CopyRmin(p.copy, f.line), f.line);
  }

  /** A successful line rendering is the line text of its first symbol. */
  lemma EncodedLineText(copy: int, line: int)
    requires line >= 0 && EncodeLine(copy, line).Ok?
    ensures var rmin := CopyRmin(copy, line);
      && 0 <= rmin < 34 && 0 <= line - rmin * 68 && (line - rmin * 68) / 34 < 34
      && EncodeLine(copy, line).value == LineText(rmin, line)
  {
  }

  /** The decoder's verdict on a printed serial whose date text decodes and whose line is
      a line text: valid exactly when the country and the model code are serial symbols
      and its year passes the production-year test. */
  lemma PrintedValid(db: ModelDatabase, f: Fields, d: DateText, rmin: int, line: int)
    requires db.Valid() && FormatFits(f)
    requires 0 <= rmin < 34 && 0 <= line - rmin * 68 && (line - rmin * 68) / 34 < 34
    requires AllSymbols(d.year) && AllSymbols(d.week) && |d.year| == 1
    requires f.countryLen == COUNTRY_OLD_LEN ==> |d.week| == 2 && LegacyDate(d.year[0], d.week[0], d.week[1]).ok
    requires f.countryLen == COUNTRY_NEW_LEN ==>
      |d.week| == 1 && YearLetterValue(d.year[0]) >= 0 && WeekSymbolValue(d.week[0]) > 0
    ensures var r := Decode(db, Printed(f, d, LineText(rmin, line))).value;
      r.valid <==>
        && AllSymbols(f.country) && AllSymbols(f.model)
        && (r.decodedYear <= 0 || r.index < 0 || YearListed(db.modelYear[r.index], r.decodedYear))
  {
    var l := LineText(rmin, line);
    var s := Printed(f, d, l);
    PrintedShape(f, d, l);
    LineTextDecodes(rmin, line, s, 5);
    PrintedSymbols(f, d, l);
    assert AllSymbols(l) by {
      assert l == s[5..8];
    }
    ValidRule(db, s);
  }

  /** The alphabet test of a printed serial is the test of its five parts. */
  lemma PrintedSymbols(f: Fields, d: DateText, l: Bytes)
    ensures AllSymbols(Printed(f, d, l)) <==>
      AllSymbols(f.country) && AllSymbols(d.year) && AllSymbols(d.week) && AllSymbols(l) && AllSymbols(f.model)
  {
    AllSymbolsConcat(f.country, d.year);
    AllSymbolsConcat(f.country + d.year, d.week);
    AllSymbolsConcat(f.country + d.year + d.week, l);
    AllSymbolsConcat(f.country + d.year + d.week + l, f.model);
  }

  /** The rendered date is made of serial symbols and always decodes: a legacy year digit
      with two week digits, or a modern year letter with a week symbol of positive value. */
  lemma DateTextDecodes(countryLen: nat, year: int, week: int)
    requires SERIAL_WEEK_MIN <= week <= SERIAL_WEEK_MAX && EncodeDate(countryLen, year, week).Ok?
    ensures var d := EncodeDate(countryLen, year, week).value;
      && AllSymbols(d.year) && AllSymbols(d.week) && |d.year| == 1
      && (countryLen == COUNTRY_OLD_LEN ==> |d.week| == 2 && LegacyDate(d.year[0], d.week[0], d.week[1]).ok)
      && (countryLen != COUNTRY_OLD_LEN ==>
            |d.week| == 1 && YearLetterValue(d.year[0]) >= 0 && WeekSymbolValue(d.week[0]) > 0)
  {
    if countryLen == COUNTRY_OLD_LEN {
      LegacyDateDecodes(year, week);
    } else {
      YearTables();
      WeekReverseShape();
      ModernDateDecodes(year, week);
    }
  }

  /** The two choices disagreeing: year 2012 for a model first produced in 2017 is printed
      with a 2010s letter, and the decoder reads it as 2022. */
  lemma DecadeMismatchExample(db: ModelDatabase, p: Params, k: Picks)
    requires db.Valid() && PicksInRange(k)
    requires p == Params(-1, 2012, 10, [], "F8J2", 100, -1)
    requires ModelIndex(db, "F8J2") >= 0 && db.modelYear[ModelIndex(db, "F8J2")][0] >= 2017
    ensures Generate(db, p, k).Ok? && Generate(db, p, k).value.decodedYear == 2022
  {
    LocationTables();
    var f := ChooseFields(db, p, k).value;
    assert f == Fields("F8J2", COUNTRY_NEW_LEN, AppleLocations[0], 2012, 10, 100);
    assert LineToRmin(100) == 0;
    var d := EncodeDate(f.countryLen, f.year, f.week).value;
    var l := EncodeLine(p.copy, f.line).value;
    PrintedShape(f, d, l);
    assert Generate(db, p, k) == Ok(Decode(db, Printed(f, d, l)).value);
    DecodeShape(db, Printed(f, d, l));
    GeneratedDateRoundTrip(db, p, k);
  }

  /** A legacy serial carrying the date text of a year and week decodes to them. */
  lemma LegacyDateBack(db: ModelDatabase, s: Bytes, year: int, week: int)
    requires db.Valid() && |s| == SERIAL_OLD_LEN
    requires SERIAL_YEAR_OLD_MIN <= year <= SERIAL_YEAR_OLD_MAX && week >= 0
    requires [s[2]] == LegacyDateText(year, week).year && [s[3], s[4]] == LegacyDateText(year, week).week
    ensures Decode(db, s).value.decodedYear == year
    ensures SERIAL_WEEK_MIN <= week <= SERIAL_WEEK_MAX ==> Decode(db, s).value.decodedWeek == week
  {
    LegacyDateRules(db, s);
    var d := LegacyDateText(year, week);
    assert s[2] == d.year[0] && s[3] == d.week[0] && s[4] == d.week[1];
    if week <= 99 {
      LegacyDateDecodes(year, week);
    }
  }

  /** A modern serial carrying the date text of a year and week decodes to the week and
      to the year's offset within the decade the epoch rule selects. */
  lemma ModernDateBack(db: ModelDatabase, s: Bytes, year: int, week: int)
    requires db.Valid() && |s| == SERIAL_NEW_LEN
    requires SERIAL_YEAR_NEW_MIN <= year < SERIAL_YEAR_NEW_MAX && 0 <= week <= SERIAL_WEEK_MAX
    requires [s[3]] == ModernDateText(year, week).year && [s[4]] == ModernDateText(year, week).week
    ensures var r := Decode(db, s).value;
      var offset := year - ModernBase(year);
      && r.decodedYear == (if Epoch2020(db, r.index, offset, r.model) then 2020 else 2010) + offset
      && (SERIAL_WEEK_MIN <= week ==> r.decodedWeek == week)
  {
    YearTables();
    var i := YearLetterIndex(year, week);
    assert s[3] == AppleYearReverse[i];
    var r := Decode(db, s).value;
    var offset := year - ModernBase(year);
    assert r.decodedYear == (if Epoch2020(db, r.index, offset, r.model) then 2020 else 2010) + offset by {
      assert YearLetterValue(s[3]) == i / 2 by {
        YearLetterAt(i);
      }
      assert i / 2 == offset;
      YearLetterSpec(s[3]);
      assert FirstIndex(AppleYearReverse, s[3]) / 2 == offset;
      ModernYearRules(db, s);
    }
    if SERIAL_WEEK_MIN <= week {
      assert r.decodedWeek == week by {
        ModernDateDecodes(year, week);
        WeekCarry(i);
        ModernWeekRule(db, s);
      }
    }
  }

  // ---------------------------------------------------------------------------
  // The panics, exhibited

  /** Year 2030 passes the range check of the modern branch, but its year letter lies
      past the 20 letters of the table (main.go:632 for a first-half week); the corrected
      generator rejects the year. */
  lemma Year2030Panics(db: ModelDatabase, p: Params, k: Picks)
    requires db.Valid() && PicksInRange(k)
    requires p == Params(-1, 2030, 10, [], "F8J2", 100, -1)
    ensures GenerateAsWritten(db, p, k) == Panicked(632)
    ensures Generate(db, p, k) == Err(ModernYearOutOfRange(2030))
  {
  }

  /** Copy 2 of line 3399 passes the copy check (34 * 68 <= 3399) but asks for first symbol
      34, one past the table (main.go:655); the corrected generator rejects it. */
  lemma CopyPastTablePanics(db: ModelDatabase, p: Params, k: Picks)
    requires db.Valid() && PicksInRange(k)
    requires p == Params(-1, 2012, 10, [], "1AX", 3399, 2)
    ensures GenerateAsWritten(db, p, k) == Panicked(655)
    ensures Generate(db, p, k) == Err(LineNotRepresentable(3399, 34))
  {
    LineToRminExamples();
  }

  /** A model index past the database, which main passes on from a numeric --model,
      panics in getModelCode (main.go:305); the corrected generator reports the index. */
  lemma IndexPastDatabasePanics(db: ModelDatabase, p: Params, k: Picks)
    requires db == OneModelDb() && PicksInRange(k)
    requires p == Params(1, -1, -1, [], [], -1, -1)
    ensures GenerateAsWritten(db, p, k) == Panicked(305)
    ensures Generate(db, p, k) == Err(IndexOutOfRange(1))
  {
  }
}
