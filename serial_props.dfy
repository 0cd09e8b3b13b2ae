/** What the decoder promises: its error cases, the shape of a decoded serial, the
    validity rules, the line/copy decoding, the year and week rules, and the round trip
    through Serial.String. */
module SerialProps {
  import opened Tables
  import opened Outcomes
  import opened Search
  import opened Codec
  import opened ModelDb
  import opened Serials

  // ---------------------------------------------------------------------------
  // Errors and the unknown-model panic

  /** parseSerial fails exactly on a length other than 11 and 12, and names the MLB
      mistake exactly for 17 characters. */
  lemma DecodeErrors(db: ModelDatabase, s: Bytes)
    requires db.Valid()
    ensures Decode(db, s).Err? <==> |s| != SERIAL_OLD_LEN && |s| != SERIAL_NEW_LEN
    ensures Decode(db, s).Err? ==> (Decode(db, s).error == MlbInserted <==> |s| == 17)
  {
  }

  /** The code as written panics exactly when the length is right and the model code is
      unknown; otherwise it returns what the corrected decoder returns. */
  lemma ParseAsWrittenVsDecode(db: ModelDatabase, s: Bytes)
    requires db.Valid()
    ensures ParseAsWritten(db, s).Panicked? <==> Decode(db, s).Ok? && Decode(db, s).value.index < 0
    ensures ParseAsWritten(db, s).Panicked? ==> ParseAsWritten(db, s).line == 543
    ensures !ParseAsWritten(db, s).Panicked? ==> ParseAsWritten(db, s) == Lift(Decode(db, s))
  {
  }

  /** A one-model database holding the model code "1AX" of the legacy test serial. */
  function OneModelDb(): (db: ModelDatabase)
    ensures db.Valid()
  {
    ModelDatabase([["1AX"]], [[2008]], [PlatformData("MacBook5,1", "W88401231AX")],
                  [["V3G"]], [], [0])
  }

  /** The serial "W8840123ZZZ", whose model code ZZZ the database does not list, makes the
      code as written panic; the corrected decoder returns it with an empty product name. */
  lemma UnknownModelPanics(db: ModelDatabase, s: Bytes)
    requires db == OneModelDb() && s == "W8840123ZZZ"
    ensures ParseAsWritten(db, s) == Panicked(543)
    ensures Decode(db, s).Ok? && Decode(db, s).value.index == -1 && Decode(db, s).value.productName == ""
  {
    assert SerialModel(s) == "ZZZ";
    assert !RowLists(db.modelCode[0], "ZZZ");
  }

  // ---------------------------------------------------------------------------
  // Shape of a decoded serial

  /** The fields cut out of the serial: legacy exactly for 11 characters, the country
      prefix, the year byte, the week bytes (NUL in the second slot for a modern serial),
      and the model suffix with the index of the last model that lists it. */
  lemma DecodeShape(db: ModelDatabase, s: Bytes)
    requires db.Valid() && (|s| == SERIAL_OLD_LEN || |s| == SERIAL_NEW_LEN)
    ensures Decode(db, s).Ok?
    ensures var r := Decode(db, s).value;
      && (r.legacy <==> |s| == SERIAL_OLD_LEN)
      && (r.legacy ==> r.country == s[..2] && r.year == s[2] && r.week == s[3..5] && r.model == s[8..])
      && (!r.legacy ==> r.country == s[..3] && r.year == s[3] && r.week == [s[4], NUL] && r.model == s[8..])
      && r.index == ModelIndex(db, r.model) && -1 <= r.index < db.ModelCount()
      && (r.index >= 0 ==> r.productName == db.platform[r.index].productName)
  {
    if |s| == SERIAL_OLD_LEN {
      LegacyShape(db, s);
    } else {
      ModernShape(db, s);
    }
  }

  lemma LegacyShape(db: ModelDatabase, s: Bytes)
    requires db.Valid() && |s| == SERIAL_OLD_LEN
    ensures Decode(db, s).Ok?
    ensures var r := Decode(db, s).value;
      && r.legacy && r.country == s[..2] && r.year == s[2] && r.week == s[3..5] && r.model == s[8..]
      && r.index == ModelIndex(db, r.model) && -1 <= r.index < db.ModelCount()
      && (r.index >= 0 ==> r.productName == db.platform[r.index].productName)
  {
    assert Decode(db, s).value.week == [s[3], s[4]];
  }

  lemma ModernShape(db: ModelDatabase, s: Bytes)
    requires db.Valid() && |s| == SERIAL_NEW_LEN
    ensures Decode(db, s).Ok?
    ensures var r := Decode(db, s).value;
      && !r.legacy && r.country == s[..3] && r.year == s[3] && r.week == [s[4], NUL] && r.model == s[8..]
      && r.index == ModelIndex(db, r.model) && -1 <= r.index < db.ModelCount()
      && (r.index >= 0 ==> r.productName == db.platform[r.index].productName)
  {
  }

  /** When a serial of valid length is reported valid: every byte is a symbol, its date
      decodes, its line symbols decode, and a positive year of a known model is one of the
      model's production years. */
  lemma ValidRule(db: ModelDatabase, s: Bytes)
    requires db.Valid() && (|s| == SERIAL_OLD_LEN || |s| == SERIAL_NEW_LEN)
    ensures var r := Decode(db, s).value;
      var date := if |s| == SERIAL_OLD_LEN then LegacyDate(s[2], s[3], s[4])
                  else ModernDate(db, r.index, s[3], s[4], s[8..]);
      && -1 <= r.index < db.ModelCount()
      && r.decodedYear == date.year
      && (r.valid <==>
            && AllSymbols(s) && date.ok && LineField(s, LINE_POS).ok
            && (r.decodedYear <= 0 || r.index < 0 || YearListed(db.modelYear[r.index], r.decodedYear)))
  {
    assert SerialModel(s) == s[8..];
  }

  /** The alphabet test of a concatenation is the test of both parts. */
  lemma AllSymbolsConcat(a: Bytes, b: Bytes)
    ensures AllSymbols(a + b) <==> AllSymbols(a) && AllSymbols(b)
  {
    if AllSymbols(a + b) {
      forall i | 0 <= i < |a|
        ensures IsSerialSymbol(a[i])
      {
        assert a[i] == (a + b)[i];
      }
      forall i | 0 <= i < |b|
        ensures IsSerialSymbol(b[i])
      {
        assert b[i] == (a + b)[|a| + i];
      }
    }
    if AllSymbols(a) && AllSymbols(b) {
      forall i | 0 <= i < |a + b|
        ensures IsSerialSymbol((a + b)[i])
      {
        if i >= |a| {
          assert (a + b)[i] == b[i - |a|];
        }
      }
    }
  }

  /** A serial with a symbol outside the alphabet (I, O, lower case, punctuation, ...)
      is never reported valid. */
  lemma BadSymbolInvalid(db: ModelDatabase, s: Bytes, i: nat)
    requires db.Valid() && (|s| == SERIAL_OLD_LEN || |s| == SERIAL_NEW_LEN)
    requires i < |s| && !IsSerialSymbol(s[i])
    ensures !Decode(db, s).value.valid
  {
  }

  /** The decoded week is either -1 or within [1, 53]. */
  lemma DecodedWeekRange(db: ModelDatabase, s: Bytes)
    requires db.Valid() && (|s| == SERIAL_OLD_LEN || |s| == SERIAL_NEW_LEN)
    ensures var w := Decode(db, s).value.decodedWeek;
      w == -1 || SERIAL_WEEK_MIN <= w <= SERIAL_WEEK_MAX
  {
  }

  // ---------------------------------------------------------------------------
  // Line and copy

  /** A serial symbol has a value in 0..33, and weighting it multiplies that value. */
  lemma SymbolWeighted(c: Byte, mul: int)
    requires IsSerialSymbol(c)
    ensures 0 <= SymbolValue(c) < 34 && Base34ToValue(c, mul) == SymbolValue(c) * mul
  {
    if !IsDigit(c) {
      assert 10 <= AppleTblBase34[c as int - 'A' as int] < 34;
    }
  }

  /** Three valid line symbols are kept and decode with weights 68, 34 and 1. */
  lemma LineFieldValid(serial: Bytes, pos: nat)
    requires pos + 3 <= |serial|
    requires IsSerialSymbol(serial[pos]) && IsSerialSymbol(serial[pos + 1]) && IsSerialSymbol(serial[pos + 2])
    ensures LineField(serial, pos).ok && LineField(serial, pos).line == serial[pos..pos + 3]
    ensures LineField(serial, pos).value ==
      68 * SymbolValue(serial[pos]) + 34 * SymbolValue(serial[pos + 1]) + SymbolValue(serial[pos + 2])
  {
    SymbolWeighted(serial[pos], 68);
    SymbolWeighted(serial[pos + 1], 34);
    SymbolWeighted(serial[pos + 2], 1);
    assert LineSymbol(serial, pos, 0) == 68 * SymbolValue(serial[pos]);
    assert LineSymbol(serial, pos, 1) == 34 * SymbolValue(serial[pos + 1]);
    assert LineSymbol(serial, pos, 2) == SymbolValue(serial[pos + 2]);
    assert FirstBadLineSymbol(serial, pos, 0) == 3;
    assert LineSum(serial, pos, 1) == LineSymbol(serial, pos, 0);
    assert LineSum(serial, pos, 2) == LineSum(serial, pos, 1) + LineSymbol(serial, pos, 1);
  }

  /** A bad line symbol anywhere in the field makes the line field invalid. */
  lemma LineFieldInvalid(serial: Bytes, pos: nat, k: nat)
    requires pos + 3 <= |serial| && k < 3 && !IsSerialSymbol(serial[pos + k])
    ensures !LineField(serial, pos).ok
  {
    SerialSymbolIsBase34(serial[pos + k]);
    SymbolValueSpec(serial[pos + k], LineWeight(k));
  }

  /** The line of a serial whose line symbols are valid is 68 a + 34 b + c, within
      [0, 3399], and its copy is the first line symbol minus the least possible first
      symbol, so it lies between 0 and the first symbol's value. A bad line symbol
      makes the serial invalid. */
  lemma DecodedLineAndCopy(db: ModelDatabase, s: Bytes)
    requires db.Valid() && (|s| == SERIAL_OLD_LEN || |s| == SERIAL_NEW_LEN)
    ensures var r := Decode(db, s).value;
      if IsSerialSymbol(s[5]) && IsSerialSymbol(s[6]) && IsSerialSymbol(s[7]) then
        && r.line == s[5..8]
        && r.decodedLine == 68 * SymbolValue(s[5]) + 34 * SymbolValue(s[6]) + SymbolValue(s[7])
        && 0 <= r.decodedLine <= SERIAL_LINE_MAX
        && r.decodedCopy == SymbolValue(s[5]) - LineToRmin(r.decodedLine)
        && 0 <= r.decodedCopy <= SymbolValue(s[5])
      else !r.valid
  {
    if IsSerialSymbol(s[5]) && IsSerialSymbol(s[6]) && IsSerialSymbol(s[7]) {
      LineFieldValid(s, 5);
      SerialSymbolIsBase34(s[5]);
      SerialSymbolIsBase34(s[6]);
      SerialSymbolIsBase34(s[7]);
      SymbolValueSpec(s[5], 1);
      SymbolValueSpec(s[6], 1);
      SymbolValueSpec(s[7], 1);
      var line := LineField(s, 5).value;
      var v0 := SymbolValue(s[5]);
      assert line - 68 * v0 <= SERIAL_LINE_REPR_MAX;
    } else if !IsSerialSymbol(s[5]) {
      LineFieldInvalid(s, 5, 0);
    } else if !IsSerialSymbol(s[6]) {
      LineFieldInvalid(s, 5, 1);
    } else {
      LineFieldInvalid(s, 5, 2);
    }
  }

  /** Serial.String gives back the decoded serial whenever its line symbols are valid. */
  lemma StringRoundTrip(db: ModelDatabase, s: Bytes)
    requires db.Valid() && (|s| == SERIAL_OLD_LEN || |s| == SERIAL_NEW_LEN)
    requires IsSerialSymbol(s[5]) && IsSerialSymbol(s[6]) && IsSerialSymbol(s[7])
    ensures SerialString(Decode(db, s).value) == s
  {
    DecodeShape(db, s);
    DecodedLineAndCopy(db, s);
    StringOfFields(Decode(db, s).value, s);
  }

  /** The text fields cut out of `s`, put back together, give `s`. */
  lemma StringOfFields(r: Serial, s: Bytes)
    requires |s| == SERIAL_OLD_LEN || |s| == SERIAL_NEW_LEN
    requires r.legacy <==> |s| == SERIAL_OLD_LEN
    requires r.legacy ==> r.country == s[..2] && r.year == s[2] && r.week == s[3..5] && r.model == s[8..]
    requires !r.legacy ==> r.country == s[..3] && r.year == s[3] && r.week == [s[4], NUL] && r.model == s[8..]
    requires r.line == s[5..8]
    ensures SerialString(r) == s
  {
    if r.legacy {
      assert s == s[..2] + [s[2]] + s[3..5] + s[5..8] + s[8..];
    } else {
      assert r.week[..1] == [s[4]];
      assert s == s[..3] + [s[3]] + [s[4]] + s[5..8] + s[8..];
    }
  }

  // ---------------------------------------------------------------------------
  // Year and week

  /** A legacy serial's year comes from its year digit and its week from its two week
      digits; a non-digit gives -1 and, for the year, also clears Valid. */
  lemma LegacyDateRules(db: ModelDatabase, s: Bytes)
    requires db.Valid() && |s| == SERIAL_OLD_LEN
    ensures var r := Decode(db, s).value;
      && r.decodedYear == LegacyYear(s[2])
      && (r.decodedYear == -1 ==> !r.valid)
      && (IsDigit(s[3]) && IsDigit(s[4]) ==> r.decodedWeek == ClampWeek(10 * DigitValue(s[3]) + DigitValue(s[4])))
      && (!IsDigit(s[3]) || !IsDigit(s[4]) ==> r.decodedWeek == -1 && !r.valid)
  {
  }

  /** The year letters: a byte has a year value exactly when it is one of the 20 letters
      of the year reverse table, and the letter at position i stands for year i / 2. */
  lemma YearLetterSpec(c: Byte)
    ensures YearLetterValue(c) >= 0 <==> c in AppleYearReverse
    ensures c in AppleYearReverse ==> YearLetterValue(c) == FirstIndex(AppleYearReverse, c) / 2
  {
    YearTables();
    FirstIndexSpec(AppleYearReverse, c);
    if c in AppleYearReverse {
      var i := FirstIndex(AppleYearReverse, c);
      assert AppleTblYear[AppleYearReverse[i] as int - 'A' as int] == i / 2;
    }
  }

  /** Year letter `i` of the reverse table stands for year i/2 of its decade. */
  lemma YearLetterAt(i: int)
    requires 0 <= i < 20
    ensures YearLetterValue(AppleYearReverse[i]) == i / 2
  {
    YearTables();
    var c := AppleYearReverse[i];
    assert 'A' <= c <= 'Z' && c !in AppleYearBlacklist;
    assert AppleTblYear[c as int - 'A' as int] == i / 2;
  }

  /** A modern serial's year: year letter i stands for year i/2 of the 2020s when the
      2020 rule applies and of the 2010s otherwise. A byte that is not a year letter is an
      invalid -1, except under the 2020 rule, where its -1 sentinel passes the "below 7"
      test and decodes as 2019. */
  lemma ModernYearRules(db: ModelDatabase, s: Bytes)
    requires db.Valid() && |s| == SERIAL_NEW_LEN
    ensures var r := Decode(db, s).value;
      && (s[3] in AppleYearReverse ==>
            var d := FirstIndex(AppleYearReverse, s[3]) / 2;
            r.decodedYear == (if Epoch2020(db, r.index, d, r.model) then 2020 else 2010) + d)
      && (s[3] !in AppleYearReverse ==>
            if Epoch2020(db, r.index, -1, r.model) then r.decodedYear == 2019
            else r.decodedYear == -1 && !r.valid)
  {
    YearLetterSpec(s[3]);
  }

  /** The sentinel case on its own: for a known model first produced in 2017 or later,
      any byte in the year position that is not a year letter yields 2019. */
  lemma SentinelYear2019(db: ModelDatabase, s: Bytes)
    requires db.Valid() && |s| == SERIAL_NEW_LEN
    requires ModelIndex(db, s[8..]) >= 0 && db.modelYear[ModelIndex(db, s[8..])][0] >= 2017
    requires s[3] !in AppleYearReverse
    ensures Decode(db, s).value.decodedYear == 2019
  {
    YearLetterSpec(s[3]);
    assert SerialModel(s) == s[8..];
  }

  /** The week reverse table read back: positions 1..26 decode to themselves and
      positions 27..53 to the week minus 26, the half-year carry the year letter adds. */
  lemma WeekReverseDecodes(w: int)
    requires 1 <= w <= 53
    ensures WeekSymbolValue(AppleWeekReverse[w]) == if w <= 26 then w else w - 26
  {
    if w < 4 { WeeksFrom1(w); }
    else if w < 7 { WeeksFrom4(w); }
    else if w < 10 { WeeksFrom7(w); }
    else if w < 13 { WeeksFrom10(w); }
    else if w < 16 { WeeksFrom13(w); }
    else if w < 19 { WeeksFrom16(w); }
    else if w < 22 { WeeksFrom19(w); }
    else if w < 25 { WeeksFrom22(w); }
    else if w < 28 { WeeksFrom25(w); }
    else if w < 31 { WeeksFrom28(w); }
    else if w < 34 { WeeksFrom31(w); }
    else if w < 37 { WeeksFrom34(w); }
    else if w < 40 { WeeksFrom37(w); }
    else if w < 43 { WeeksFrom40(w); }
    else if w < 46 { WeeksFrom43(w); }
    else if w < 49 { WeeksFrom46(w); }
    else if w < 52 { WeeksFrom49(w); }
    else { WeeksFrom52(w); }
  }

  // WeekDecodesBack and the eighteen WeeksFrom lemmas below state one property,
  // WeekReverseDecodes. They split its 53 cases into blocks of three only so that each
  // block is a small evaluation for the verifier; none of them is a property of its own.

  /** The reverse-table property for a week. */
  predicate WeekDecodesBack(w: nat)
    requires w < 54
  {
    WeekSymbolValue(AppleWeekReverse[w]) == if w <= 26 then w else w - 26
  }

  /** The reverse-table property, checked by evaluation for each week of a block of three. */
  lemma WeeksFrom1(w: nat)
    requires 1 <= w < 4
    ensures WeekDecodesBack(w)
  {
    if w == 1 {
      assert WeekDecodesBack(1);
    } else if w == 2 {
      assert WeekDecodesBack(2);
    } else {
      assert WeekDecodesBack(3);
    }
  }

  lemma WeeksFrom4(w: nat)
    requires 4 <= w < 7
    ensures WeekDecodesBack(w)
  {
    if w == 4 {
      assert WeekDecodesBack(4);
    } else if w == 5 {
      assert WeekDecodesBack(5);
    } else {
      assert WeekDecodesBack(6);
    }
  }

  lemma WeeksFrom7(w: nat)
    requires 7 <= w < 10
    ensures WeekDecodesBack(w)
  {
    if w == 7 {
      assert WeekDecodesBack(7);
    } else if w == 8 {
      assert WeekDecodesBack(8);
    } else {
      assert WeekDecodesBack(9);
    }
  }

  lemma WeeksFrom10(w: nat)
    requires 10 <= w < 13
    ensures WeekDecodesBack(w)
  {
    if w == 10 {
      assert WeekDecodesBack(10);
    } else if w == 11 {
      assert WeekDecodesBack(11);
    } else {
      assert WeekDecodesBack(12);
    }
  }

  lemma WeeksFrom13(w: nat)
    requires 13 <= w < 16
    ensures WeekDecodesBack(w)
  {
    if w == 13 {
      assert WeekDecodesBack(13);
    } else if w == 14 {
      assert WeekDecodesBack(14);
    } else {
      assert WeekDecodesBack(15);
    }
  }

  lemma WeeksFrom16(w: nat)
    requires 16 <= w < 19
    ensures WeekDecodesBack(w)
  {
    if w == 16 {
      assert WeekDecodesBack(16);
    } else if w == 17 {
      assert WeekDecodesBack(17);
    } else {
      assert WeekDecodesBack(18);
    }
  }

  lemma WeeksFrom19(w: nat)
    requires 19 <= w < 22
    ensures WeekDecodesBack(w)
  {
    if w == 19 {
      assert WeekDecodesBack(19);
    } else if w == 20 {
      assert WeekDecodesBack(20);
    } else {
      assert WeekDecodesBack(21);
    }
  }

  lemma WeeksFrom22(w: nat)
    requires 22 <= w < 25
    ensures WeekDecodesBack(w)
  {
    if w == 22 {
      assert WeekDecodesBack(22);
    } else if w == 23 {
      assert WeekDecodesBack(23);
    } else {
      assert WeekDecodesBack(24);
    }
  }

  lemma WeeksFrom25(w: nat)
    requires 25 <= w < 28
    ensures WeekDecodesBack(w)
  {
    if w == 25 {
      assert WeekDecodesBack(25);
    } else if w == 26 {
      assert WeekDecodesBack(26);
    } else {
      assert WeekDecodesBack(27);
    }
  }

  lemma WeeksFrom28(w: nat)
    requires 28 <= w < 31
    ensures WeekDecodesBack(w)
  {
    if w == 28 {
      assert WeekDecodesBack(28);
    } else if w == 29 {
      assert WeekDecodesBack(29);
    } else {
      assert WeekDecodesBack(30);
    }
  }

  lemma WeeksFrom31(w: nat)
    requires 31 <= w < 34
    ensures WeekDecodesBack(w)
  {
    if w == 31 {
      assert WeekDecodesBack(31);
    } else if w == 32 {
      assert WeekDecodesBack(32);
    } else {
      assert WeekDecodesBack(33);
    }
  }

  lemma WeeksFrom34(w: nat)
    requires 34 <= w < 37
    ensures WeekDecodesBack(w)
  {
    if w == 34 {
      assert WeekDecodesBack(34);
    } else if w == 35 {
      assert WeekDecodesBack(35);
    } else {
      assert WeekDecodesBack(36);
    }
  }

  lemma WeeksFrom37(w: nat)
    requires 37 <= w < 40
    ensures WeekDecodesBack(w)
  {
    if w == 37 {
      assert WeekDecodesBack(37);
    } else if w == 38 {
      assert WeekDecodesBack(38);
    } else {
      assert WeekDecodesBack(39);
    }
  }

  lemma WeeksFrom40(w: nat)
    requires 40 <= w < 43
    ensures WeekDecodesBack(w)
  {
    if w == 40 {
      assert WeekDecodesBack(40);
    } else if w == 41 {
      assert WeekDecodesBack(41);
    } else {
      assert WeekDecodesBack(42);
    }
  }

  lemma WeeksFrom43(w: nat)
    requires 43 <= w < 46
    ensures WeekDecodesBack(w)
  {
    if w == 43 {
      assert WeekDecodesBack(43);
    } else if w == 44 {
      assert WeekDecodesBack(44);
    } else {
      assert WeekDecodesBack(45);
    }
  }

  lemma WeeksFrom46(w: nat)
    requires 46 <= w < 49
    ensures WeekDecodesBack(w)
  {
    if w == 46 {
      assert WeekDecodesBack(46);
    } else if w == 47 {
      assert WeekDecodesBack(47);
    } else {
      assert WeekDecodesBack(48);
    }
  }

  lemma WeeksFrom49(w: nat)
    requires 49 <= w < 52
    ensures WeekDecodesBack(w)
  {
    if w == 49 {
      assert WeekDecodesBack(49);
    } else if w == 50 {
      assert WeekDecodesBack(50);
    } else {
      assert WeekDecodesBack(51);
    }
  }

  lemma WeeksFrom52(w: nat)
    requires 52 <= w < 54
    ensures WeekDecodesBack(w)
  {
    if w == 52 {
      assert WeekDecodesBack(52);
    } else {
      assert WeekDecodesBack(53);
    }
  }

  /** The half-year carry: letters at odd positions of the year reverse table add 26. */
  lemma WeekCarry(i: int)
    requires 0 <= i < 20
    ensures AlphaToValue(AppleYearReverse[i], AppleTblWeekAdd, "") == if i % 2 == 1 then 26 else 0
  {
    WeekAddTable();
    YearTables();
  }

  /** The carry of any byte in the year position: 26 or 0 for a year letter by the parity
      of its position, 0 for every other letter, and -1 for a byte that is not a letter. */
  lemma WeekCarryOf(c: Byte)
    ensures c in AppleYearReverse ==>
      AlphaToValue(c, AppleTblWeekAdd, "") == if FirstIndex(AppleYearReverse, c) % 2 == 1 then 26 else 0
    ensures IsUpper(c) && c !in AppleYearReverse ==> AlphaToValue(c, AppleTblWeekAdd, "") == 0
    ensures !IsUpper(c) ==> AlphaToValue(c, AppleTblWeekAdd, "") == -1
  {
    WeekAddTable();
    YearTables();
    FirstIndexSpec(AppleYearReverse, c);
    if c in AppleYearReverse {
      WeekCarry(FirstIndex(AppleYearReverse, c));
    } else if IsUpper(c) {
      assert Letter(c as int - 'A' as int) == c;
    }
  }

  /** A modern serial's week, for every byte in the year position: a positive week symbol
      value plus the carry of that byte, added only when the decoded year is positive,
      clamped to [1, 53]; a week symbol without a value gives -1 and clears Valid. */
  lemma ModernWeekRule(db: ModelDatabase, s: Bytes)
    requires db.Valid() && |s| == SERIAL_NEW_LEN
    ensures var r := Decode(db, s).value;
      if WeekSymbolValue(s[4]) > 0 then
        r.decodedWeek == ClampWeek(WeekSymbolValue(s[4]) +
                                   (if r.decodedYear > 0 then AlphaToValue(s[3], AppleTblWeekAdd, "") else 0))
      else r.decodedWeek == -1 && !r.valid
  {
  }

  /** Under the 2019 sentinel a digit in the year position carries -1, so the week comes
      out one less than its symbol (week symbol 1 becomes 0 and then -1). */
  lemma SentinelWeekShift(db: ModelDatabase, s: Bytes)
    requires db.Valid() && |s| == SERIAL_NEW_LEN && IsDigit(s[3]) && WeekSymbolValue(s[4]) > 0
    requires ModelIndex(db, s[8..]) >= 0 && db.modelYear[ModelIndex(db, s[8..])][0] >= 2017
    ensures Decode(db, s).value.decodedYear == 2019
    ensures Decode(db, s).value.decodedWeek == ClampWeek(WeekSymbolValue(s[4]) - 1)
  {
    assert s[3] !in AppleYearReverse by {
      YearTables();
    }
    SentinelYear2019(db, s);
    WeekCarryOf(s[3]);
    ModernWeekRule(db, s);
  }

  /** The shift for the serial symbols '5' and '3': year 2019, week 2. */
  lemma SentinelWeekExample(db: ModelDatabase, s: Bytes)
    requires db.Valid() && |s| == SERIAL_NEW_LEN && s[3] == '5' && s[4] == '3'
    requires ModelIndex(db, s[8..]) >= 0 && db.modelYear[ModelIndex(db, s[8..])][0] >= 2017
    ensures Decode(db, s).value.decodedYear == 2019 && Decode(db, s).value.decodedWeek == 2
  {
    SentinelWeekShift(db, s);
  }

  // ---------------------------------------------------------------------------
  // The test serials, under what they assume of the database

  /** W88401231AX: made in China (Shanghai), week 40 of 2008, line 139 (copy value 1). */
  lemma LegacyExample(db: ModelDatabase, s: Bytes)
    requires db.Valid() && s == "W88401231AX"
    requires ModelIndex(db, "1AX") >= 0 && YearListed(db.modelYear[ModelIndex(db, "1AX")], 2008)
    ensures var r := Decode(db, s).value;
      && r.valid && r.legacy && r.decodedYear == 2008 && r.decodedWeek == 40
      && r.decodedLine == 139 && r.decodedCopy == 1 && r.countryDesc == "China (Shanghai)"
      && r.productName == db.platform[ModelIndex(db, "1AX")].productName
  {
    assert SerialModel(s) == "1AX";
    assert AllSymbols(s);
    assert CountryDescOf(s) == "China (Shanghai)" by {
      assert CountryOf(s) == "W8";
      FirstIndexAt(AppleLegacyLocations, "W8", 13);
    }
    LineFieldValid(s, 5);
    LineToRminExamples();
  }

  /** C02L13ECF8J2: week 27 of 2013 ('L' is year 3 of a second half-year), line 692,
      for a model first produced before 2017. */
  lemma ModernExample(db: ModelDatabase, s: Bytes)
    requires db.Valid() && s == "C02L13ECF8J2"
    requires ModelIndex(db, "F8J2") >= 0 && db.modelYear[ModelIndex(db, "F8J2")][0] < 2017
    requires YearListed(db.modelYear[ModelIndex(db, "F8J2")], 2013)
    ensures var r := Decode(db, s).value;
      && r.valid && !r.legacy && r.decodedYear == 2013 && r.decodedWeek == 27 && r.decodedLine == 692
  {
    assert SerialModel(s) == "F8J2";
    var index := ModelIndex(db, "F8J2");
    assert AllSymbols(s);
    assert LineField(s, 5).value == 692 && LineField(s, 5).ok by {
      LineFieldValid(s, 5);
    }
    assert ModernDate(db, index, s[3], s[4], "F8J2") == DateFields(2013, 27, true) by {
      ModernLetters(s[3], s[4]);
    }
  }

  /** The year letter L (year 3, second half-year) and the week symbols 1, C, J and V of
      the 2013 test serials. */
  lemma ModernLetters(y: Byte, w: Byte)
    requires y == 'L' && (w == '1' || w == 'C' || w == 'J' || w == 'V')
    ensures YearLetterValue(y) == 3 && AlphaToValue(y, AppleTblWeekAdd, "") == 26
    ensures WeekSymbolValue(w) == if w == '1' then 1 else if w == 'C' then 10 else if w == 'J' then 15 else 24
  {
  }

  /** C02VCWY4HH27: 'V' is year 7, so the 2010s even for a model first made in 2017; week
      'C' is 10, plus 26 for 'V'; line WY4 is 2040 + 1088 + 4. */
  lemma ModernExample2017(db: ModelDatabase, s: Bytes)
    requires db.Valid() && s == "C02VCWY4HH27"
    requires ModelIndex(db, "HH27") >= 0 && YearListed(db.modelYear[ModelIndex(db, "HH27")], 2017)
    ensures var r := Decode(db, s).value;
      && r.valid && r.decodedYear == 2017 && r.decodedWeek == 36 && r.decodedLine == 3132
  {
    assert SerialModel(s) == "HH27";
    var index := ModelIndex(db, "HH27");
    assert AllSymbols(s);
    assert LineField(s, 5).value == 3132 && LineField(s, 5).ok by {
      LineFieldValid(s, 5);
    }
    assert ModernDate(db, index, s[3], s[4], "HH27") == DateFields(2017, 36, true) by {
      ModernLetters2017(s[3], s[4]);
    }
  }

  /** The year letter V (year 7, second half-year) and the week letter C (week 10). */
  lemma ModernLetters2017(y: Byte, w: Byte)
    requires y == 'V' && w == 'C'
    ensures YearLetterValue(y) == 7 && AlphaToValue(y, AppleTblWeekAdd, "") == 26 && WeekSymbolValue(w) == 10
  {
  }

  /** C02CG123DC79: 'C' is year 0 of the 2010s, since the model code starts below H; 'G'
      is week 13 with no carry; line 123 is 68 + 68 + 3; MacBookPro6,1 for a database that
      lists the model under that name, first produced before 2017. */
  lemma ModernExample2010(db: ModelDatabase, s: Bytes)
    requires db.Valid() && s == "C02CG123DC79"
    requires ModelIndex(db, "DC79") >= 0 && db.modelYear[ModelIndex(db, "DC79")][0] < 2017
    requires YearListed(db.modelYear[ModelIndex(db, "DC79")], 2010)
    requires db.platform[ModelIndex(db, "DC79")].productName == "MacBookPro6,1"
    ensures var r := Decode(db, s).value;
      && r.valid && !r.legacy && r.decodedYear == 2010 && r.decodedWeek == 13 && r.decodedLine == 139
      && r.productName == "MacBookPro6,1"
  {
    assert SerialModel(s) == "DC79";
    var index := ModelIndex(db, "DC79");
    assert AllSymbols(s);
    assert LineField(s, 5).value == 139 && LineField(s, 5).ok by {
      LineFieldValid(s, 5);
    }
    assert ModernDate(db, index, s[3], s[4], "DC79") == DateFields(2010, 13, true) by {
      ModernLetters2010(s[3], s[4]);
    }
  }

  /** The year letter C (year 0, first half-year) and the week letter G (week 13). */
  lemma ModernLetters2010(y: Byte, w: Byte)
    requires y == 'C' && w == 'G'
    ensures YearLetterValue(y) == 0 && AlphaToValue(y, AppleTblWeekAdd, "") == 0 && WeekSymbolValue(w) == 13
  {
  }

  /** C02LC1T5FLHH: week 36 of 2013: 'C' is week 10, plus 26 for 'L';
      line 1T5 is 68 + 918 + 5; iMac14,2 for a database that lists the model under that
      name, first produced before 2017. */
  lemma ModernExampleImac142(db: ModelDatabase, s: Bytes)
    requires db.Valid() && s == "C02LC1T5FLHH"
    requires ModelIndex(db, "FLHH") >= 0 && db.modelYear[ModelIndex(db, "FLHH")][0] < 2017
    requires YearListed(db.modelYear[ModelIndex(db, "FLHH")], 2013)
    requires db.platform[ModelIndex(db, "FLHH")].productName == "iMac14,2"
    ensures var r := Decode(db, s).value;
      && r.valid && !r.legacy && r.decodedYear == 2013 && r.decodedWeek == 36 && r.decodedLine == 991
      && r.productName == "iMac14,2"
  {
    assert SerialModel(s) == "FLHH";
    var index := ModelIndex(db, "FLHH");
    assert AllSymbols(s);
    assert LineField(s, 5).value == 991 && LineField(s, 5).ok by {
      LineFieldValid(s, 5);
    }
    assert ModernDate(db, index, s[3], s[4], "FLHH") == DateFields(2013, 36, true) by {
      ModernLetters(s[3], s[4]);
    }
  }

  /** C02LJ41LFH00: week 41 of 2013: 'J' is week 15, plus 26 for 'L';
      line 41L is 272 + 34 + 20; MacBookPro11,1 for a database that lists the model under
      that name, first produced before 2017. */
  lemma ModernExampleMbp111(db: ModelDatabase, s: Bytes)
    requires db.Valid() && s == "C02LJ41LFH00"
    requires ModelIndex(db, "FH00") >= 0 && db.modelYear[ModelIndex(db, "FH00")][0] < 2017
    requires YearListed(db.modelYear[ModelIndex(db, "FH00")], 2013)
    requires db.platform[ModelIndex(db, "FH00")].productName == "MacBookPro11,1"
    ensures var r := Decode(db, s).value;
      && r.valid && !r.legacy && r.decodedYear == 2013 && r.decodedWeek == 41 && r.decodedLine == 326
      && r.productName == "MacBookPro11,1"
  {
    assert SerialModel(s) == "FH00";
    var index := ModelIndex(db, "FH00");
    assert AllSymbols(s);
    assert LineField(s, 5).value == 326 && LineField(s, 5).ok by {
      LineFieldValid(s, 5);
    }
    assert ModernDate(db, index, s[3], s[4], "FH00") == DateFields(2013, 41, true) by {
      ModernLetters(s[3], s[4]);
    }
  }

  /** C02LJ6QSFD56: week 41 of 2013: 'J' is week 15, plus 26 for 'L';
      line 6QS is 408 + 816 + 26; MacBookPro11,2 for a database that lists the model under
      that name, first produced before 2017. */
  lemma ModernExampleMbp112(db: ModelDatabase, s: Bytes)
    requires db.Valid() && s == "C02LJ6QSFD56"
    requires ModelIndex(db, "FD56") >= 0 && db.modelYear[ModelIndex(db, "FD56")][0] < 2017
    requires YearListed(db.modelYear[ModelIndex(db, "FD56")], 2013)
    requires db.platform[ModelIndex(db, "FD56")].productName == "MacBookPro11,2"
    ensures var r := Decode(db, s).value;
      && r.valid && !r.legacy && r.decodedYear == 2013 && r.decodedWeek == 41 && r.decodedLine == 1250
      && r.productName == "MacBookPro11,2"
  {
    assert SerialModel(s) == "FD56";
    var index := ModelIndex(db, "FD56");
    assert AllSymbols(s);
    assert LineField(s, 5).value == 1250 && LineField(s, 5).ok by {
      LineFieldValid(s, 5);
    }
    assert ModernDate(db, index, s[3], s[4], "FD56") == DateFields(2013, 41, true) by {
      ModernLetters(s[3], s[4]);
    }
  }

  /** F5KLV0H8F693: week 50 of 2013: 'V' is week 24, plus 26 for 'L'; line 0H8 is 578 + 8;
      MacPro6,1 for a database that lists the model under that name, first produced before
      2017. */
  lemma ModernExampleMacPro61(db: ModelDatabase, s: Bytes)
    requires db.Valid() && s == "F5KLV0H8F693"
    requires ModelIndex(db, "F693") >= 0 && db.modelYear[ModelIndex(db, "F693")][0] < 2017
    requires YearListed(db.modelYear[ModelIndex(db, "F693")], 2013)
    requires db.platform[ModelIndex(db, "F693")].productName == "MacPro6,1"
    ensures var r := Decode(db, s).value;
      && r.valid && !r.legacy && r.decodedYear == 2013 && r.decodedWeek == 50 && r.decodedLine == 586
      && r.productName == "MacPro6,1"
  {
    assert SerialModel(s) == "F693";
    var index := ModelIndex(db, "F693");
    assert AllSymbols(s);
    assert LineField(s, 5).value == 586 && LineField(s, 5).ok by {
      LineFieldValid(s, 5);
    }
    assert ModernDate(db, index, s[3], s[4], "F693") == DateFields(2013, 50, true) by {
      ModernLetters(s[3], s[4]);
    }
  }
}
