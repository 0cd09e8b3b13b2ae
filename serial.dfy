/** The serial-number decoder (parseSerial) and the reassembly of a decoded serial
    (Serial.String). A legacy serial has 11 characters: a 2-character country, a year
    digit, two week digits, three line symbols and a 3-character model code. A modern
    serial has 12: a 3-character country, a year letter, a week symbol, three line
    symbols and a 4-character model code. */
module Serials {
  import opened Tables
  import opened Outcomes
  import opened Search
  import opened Codec
  import opened ModelDb

  const SERIAL_OLD_LEN := 11
  const SERIAL_NEW_LEN := 12
  const MODEL_CODE_OLD_LEN := 3
  const MODEL_CODE_NEW_LEN := 4
  const COUNTRY_OLD_LEN := 2
  const COUNTRY_NEW_LEN := 3
  /** In both formats the line field starts at position 5. */
  const LINE_POS := 5

  /** The zero byte that fills the unused array slots of a Go Serial. */
  const NUL: Byte := 0 as char

  type Week2 = w: Bytes | |w| == 2 witness [NUL, NUL]
  type Line3 = l: Bytes | |l| == 3 witness [NUL, NUL, NUL]

  /** The decoded serial. `year`, `week` and `line` are the Go byte arrays; the second
      week byte of a modern serial stays NUL. An `index` or `countryIndex` of -1 means
      unknown. */
  datatype Serial = Serial(
    country: Bytes, year: Byte, week: Week2, line: Line3, model: Bytes,
    countryDesc: string, productName: string, modelDesc: string,
    decodedYear: int, decodedWeek: int, decodedLine: int, decodedCopy: int,
    valid: bool, legacy: bool, index: int, countryIndex: int)

  /** The zero value of a Go Serial. */
  const ZeroSerial := Serial([], NUL, [NUL, NUL], [NUL, NUL, NUL], [], "", "", "",
                             0, 0, 0, 0, false, false, 0, 0)

  /** The two length errors: 17 characters is taken for an MLB pasted by mistake. */
  datatype ParseError = MlbInserted | BadLength

  // ---------------------------------------------------------------------------
  // Alphabet check (main.go:336-343)

  /** A symbol of the serial alphabet: a digit or an upper-case letter other than I and O. */
  predicate IsSerialSymbol(c: Byte) {
    ('A' <= c <= 'Z' && c != 'O' && c != 'I') || ('0' <= c <= '9')
  }

  predicate AllSymbols(serial: Bytes) {
    forall i :: 0 <= i < |serial| ==> IsSerialSymbol(serial[i])
  }

  /** The serial alphabet is the base-34 alphabet of the line field: a byte is a serial
      symbol exactly when it has a base-34 value. */
  lemma SerialSymbolIsBase34(c: Byte)
    ensures IsSerialSymbol(c) <==> c in AppleBase34Reverse
    ensures IsSerialSymbol(c) <==> SymbolValue(c) >= 0
  {
    Base34ReverseShape();
    SymbolValueSpec(c, 1);
    if IsSerialSymbol(c) && !IsDigit(c) {
      Base34TableInverse();
      var i := c as int - 'A' as int;
      assert Letter(i) == c && c !in AppleBase34Blacklist;
      assert AppleBase34Reverse[AppleTblBase34[i]] == c;
    } else if IsSerialSymbol(c) {
      assert AppleBase34Reverse[c as int - '0' as int] == c;
    }
  }

  /** The alphabet loop: every position is checked and any bad symbol clears the flag. */
  method CheckAlphabet(serial: Bytes) returns (ok: bool)
    ensures ok == AllSymbols(serial)
  {
    ok := true;
    var i := 0;
    while i < |serial|
      invariant 0 <= i <= |serial|
      invariant ok == forall k :: 0 <= k < i ==> IsSerialSymbol(serial[k])
    {
      if !IsSerialSymbol(serial[i]) {
        ok := false;
      }
      i := i + 1;
    }
  }

  // ---------------------------------------------------------------------------
  // Production year and week (main.go:425-484)

  /** The decoded year and week of a serial and whether they leave the serial valid. */
  datatype DateFields = DateFields(year: int, week: int, ok: bool)

  /** A legacy year digit: 0-2 stand for 2010-2012 and 3-9 for 2003-2009, anything else
      for -1. */
  function LegacyYear(y: Byte): (r: int)
    ensures r == -1 <==> !IsDigit(y)
    ensures IsDigit(y) ==> 2003 <= r <= 2012 && r % 10 == DigitValue(y)
  {
    if '0' <= y <= '2' then 2010 + DigitValue(y)
    else if '3' <= y <= '9' then 2000 + DigitValue(y)
    else -1
  }

  /** Two legacy week digits, or -1 when either is not a digit. */
  function LegacyWeek(w0: Byte, w1: Byte): (r: int)
    ensures r == -1 <==> !IsDigit(w0) || !IsDigit(w1)
    ensures IsDigit(w0) && IsDigit(w1) ==> 0 <= r <= 99 && r / 10 == DigitValue(w0) && r % 10 == DigitValue(w1)
  {
    if !IsDigit(w0) || !IsDigit(w1) then -1 else 10 * DigitValue(w0) + DigitValue(w1)
  }

  /** The two-step digit loop of the legacy week, stopping at the first non-digit. */
  method DecodeLegacyWeek(week: Week2) returns (decoded: int, ok: bool)
    ensures decoded == LegacyWeek(week[0], week[1])
    ensures ok == (decoded != -1)
  {
    decoded := 0;
    ok := true;
    var i := 0;
    while i < 2
      invariant 0 <= i <= 2 && ok
      invariant forall k :: 0 <= k < i ==> IsDigit(week[k])
      invariant decoded == (if i == 0 then 0 else if i == 1 then 10 * DigitValue(week[0])
                            else LegacyWeek(week[0], week[1]))
    {
      if '0' <= week[i] <= '9' {
        if i == 0 {
          decoded := decoded + 10 * DigitValue(week[i]);
        } else {
          decoded := decoded + 1 * DigitValue(week[i]);
        }
      } else {
        decoded := -1;
        ok := false;
        break;
      }
      i := i + 1;
    }
  }

  /** A legacy date: a year in 2003..2012 and a week in 0..99 from digits, or -1; it
      decodes exactly when neither is -1. */
  function LegacyDate(y: Byte, w0: Byte, w1: Byte): (d: DateFields)
    ensures d.year == -1 || 2003 <= d.year <= 2012
    ensures d.week == -1 || 0 <= d.week <= 99
    ensures d.ok <==> IsDigit(y) && IsDigit(w0) && IsDigit(w1)
  {
    var year := LegacyYear(y);
    var week := LegacyWeek(w0, w1);
    DateFields(year, week, year != -1 && week != -1)
  }

  /** The raw value of a modern week symbol: 1-9 as digits, letters through the week
      table, -1 for everything else. */
  function WeekSymbolValue(w: Byte): (r: int)
    ensures r == -1 || 1 <= r <= 27
  {
    if '0' < w <= '9' then DigitValue(w) else AlphaToValue(w, AppleTblWeek, AppleWeekBlacklist)
  }

  /** The year-digit value of a modern year letter, -1 for a blacklisted or non-letter byte. */
  function YearLetterValue(y: Byte): (r: int)
    ensures -1 <= r <= 9
  {
    AlphaToValue(y, AppleTblYear, AppleYearBlacklist)
  }

  /** The rule that selects the 2020s: the model is known and first produced in 2017 or
      later with a raw year below 7, or the raw year is 0 and the model code starts at H
      or later. */
  predicate Epoch2020(db: ModelDatabase, index: int, raw: int, model: Bytes)
    requires db.Valid() && -1 <= index < db.ModelCount() && |model| >= 1
    ensures Epoch2020(db, index, raw, model) ==> raw < 7
  {
    (index >= 0 && db.modelYear[index][0] >= 2017 && raw < 7) || (raw == 0 && model[0] >= 'H')
  }

  /** The modern year letter and week symbol. The week gets the half-year carry of the year
      letter only when both decoded to positive values. */
  function ModernDate(db: ModelDatabase, index: int, y: Byte, w: Byte, model: Bytes): (d: DateFields)
    requires db.Valid() && -1 <= index < db.ModelCount() && |model| >= 1
    ensures d.year == -1 || 2010 <= d.year <= 2026
    ensures d.ok ==> d.year != -1 && WeekSymbolValue(w) > 0
  {
    var raw := YearLetterValue(y);
    var e2020 := Epoch2020(db, index, raw, model);
    var year := if e2020 then raw + 2020 else if raw >= 0 then raw + 2010 else raw;
    var w0 := WeekSymbolValue(w);
    var week := if w0 > 0 && year > 0 then w0 + AlphaToValue(y, AppleTblWeekAdd, "") else w0;
    DateFields(year, week, (e2020 || raw >= 0) && w0 > 0)
  }

  /** A decoded week outside [1, 53] is replaced by -1 (without clearing Valid). */
  function ClampWeek(w: int): (r: int)
    ensures r == -1 || SERIAL_WEEK_MIN <= r <= SERIAL_WEEK_MAX
    ensures SERIAL_WEEK_MIN <= w <= SERIAL_WEEK_MAX ==> r == w
  {
    if w < SERIAL_WEEK_MIN || w > SERIAL_WEEK_MAX then -1 else w
  }

  // ---------------------------------------------------------------------------
  // Production line and copy (main.go:519-541)

  /** The line field: the Line bytes read so far, their weighted value and whether all
      three symbols were valid. */
  datatype LineDecode = LineDecode(line: Line3, value: int, ok: bool)

  function LineWeight(k: int): int
    requires 0 <= k < 3
  {
    if k == 0 then 68 else if k == 1 then 34 else 1
  }

  /** The weighted value of line symbol `k`, or -1. */
  function LineSymbol(serial: Bytes, pos: nat, k: nat): int
    requires pos + 3 <= |serial| && k < 3
  {
    Base34ToValue(serial[pos + k], LineWeight(k))
  }

  /** The sum of the first `n` weighted line symbols. */
  function LineSum(serial: Bytes, pos: nat, n: nat): int
    requires pos + 3 <= |serial| && n <= 3
  {
    if n == 0 then 0 else LineSum(serial, pos, n - 1) + LineSymbol(serial, pos, n - 1)
  }

  /** A sum of valid line symbols is not negative, and with all three it is at most 3399. */
  lemma {:induction false} LineSumBounds(serial: Bytes, pos: nat, n: nat)
    requires pos + 3 <= |serial| && n <= 3
    requires forall k :: 0 <= k < n ==> LineSymbol(serial, pos, k) >= 0
    ensures 0 <= LineSum(serial, pos, n) <= (if n == 0 then 0 else if n == 1 then 2244 else if n == 2 then 3366 else SERIAL_LINE_MAX)
  {
    if n > 0 {
      LineSumBounds(serial, pos, n - 1);
      var c := serial[pos + n - 1];
      SymbolValueSpec(c, LineWeight(n - 1));
    }
  }

  /** The first invalid line symbol at or after `i`, or 3. */
  function FirstBadLineSymbol(serial: Bytes, pos: nat, i: nat): (n: nat)
    requires pos + 3 <= |serial| && i <= 3
    decreases 3 - i
    ensures i <= n <= 3
    ensures n < 3 ==> LineSymbol(serial, pos, n) < 0
    ensures forall k :: i <= k < n ==> LineSymbol(serial, pos, k) >= 0
  {
    if i == 3 then 3 else if LineSymbol(serial, pos, i) < 0 then i else FirstBadLineSymbol(serial, pos, i + 1)
  }

  /** The line loop stops at the first bad symbol: that symbol is still stored, the later
      Line bytes stay NUL, and the value is the sum of the symbols before it. */
  function LineField(serial: Bytes, pos: nat): LineDecode
    requires pos + 3 <= |serial|
  {
    var n := FirstBadLineSymbol(serial, pos, 0);
    var kept := if n < 3 then n + 1 else 3;
    LineDecode(serial[pos..pos + kept] + seq(3 - kept, _ => NUL), LineSum(serial, pos, n), n == 3)
  }

  method DecodeLineField(serial: Bytes, pos: nat) returns (d: LineDecode)
    requires pos + 3 <= |serial|
    ensures d == LineField(serial, pos)
  {
    var mul := [68, 34, 1];
    var line: Line3 := [NUL, NUL, NUL];
    var value := 0;
    var ok := true;
    var i := 0;
    while i < |mul|
      invariant 0 <= i <= 3
      invariant i <= FirstBadLineSymbol(serial, pos, 0)
      invariant line == serial[pos..pos + i] + seq(3 - i, _ => NUL)
      invariant value == LineSum(serial, pos, i)
    {
      line := line[i := serial[pos + i]];
      assert line == serial[pos..pos + i + 1] + seq(3 - (i + 1), _ => NUL);
      var tmp := Base34ToValue(line[i], mul[i]);
      if tmp >= 0 {
        value := value + tmp;
      } else {
        ok := false;
        break;
      }
      i := i + 1;
    }
    d := LineDecode(line, value, ok);
  }

  // ---------------------------------------------------------------------------
  // The whole decoder (main.go:323-546)

  /** The model code at the end of a serial of valid length. */
  function SerialModel(serial: Bytes): Bytes
    requires |serial| == SERIAL_OLD_LEN || |serial| == SERIAL_NEW_LEN
  {
    serial[|serial| - (if |serial| == SERIAL_OLD_LEN then MODEL_CODE_OLD_LEN else MODEL_CODE_NEW_LEN)..]
  }

  /** The country prefix of a serial: 2 characters for legacy, 3 for modern. */
  function CountryOf(serial: Bytes): Bytes
    requires |serial| == SERIAL_OLD_LEN || |serial| == SERIAL_NEW_LEN
  {
    serial[..if |serial| == SERIAL_OLD_LEN then COUNTRY_OLD_LEN else COUNTRY_NEW_LEN]
  }

  /** The first position of the country in the location table of the format, or -1. */
  function CountryIndexOf(serial: Bytes): int
    requires |serial| == SERIAL_OLD_LEN || |serial| == SERIAL_NEW_LEN
  {
    if |serial| == SERIAL_OLD_LEN then FirstIndex(AppleLegacyLocations, CountryOf(serial))
    else FirstIndex(AppleLocations, CountryOf(serial))
  }

  /** The location name of the country, or the empty string when it is not listed. */
  function CountryDescOf(serial: Bytes): string
    requires |serial| == SERIAL_OLD_LEN || |serial| == SERIAL_NEW_LEN
  {
    var ci := CountryIndexOf(serial);
    if ci < 0 then ""
    else if |serial| == SERIAL_OLD_LEN then AppleLegacyLocationNames[ci]
    else AppleLocationNames[ci]
  }

  /** Every field parseSerial computes, from a serial of valid length; the product name is
      left empty here and filled in by ParseAsWritten and Decode. */
  function DecodeFields(db: ModelDatabase, serial: Bytes): Serial
    requires db.Valid() && (|serial| == SERIAL_OLD_LEN || |serial| == SERIAL_NEW_LEN)
  {
    var legacy := |serial| == SERIAL_OLD_LEN;
    var countryLen := if legacy then COUNTRY_OLD_LEN else COUNTRY_NEW_LEN;
    var model := SerialModel(serial);
    var index := ModelIndex(db, model);
    var week: Week2 := if legacy then [serial[3], serial[4]] else [serial[4], NUL];
    var date := if legacy then LegacyDate(serial[2], serial[3], serial[4])
                else ModernDate(db, index, serial[3], serial[4], model);
    var yearOk := !(date.year > 0 && index >= 0) || YearListed(db.modelYear[index], date.year);
    var ld := LineField(serial, LINE_POS);
    var copy := SymbolValue(ld.line[0]) - LineToRmin(ld.value);
    Serial(CountryOf(serial), serial[countryLen], week, ld.line, model, CountryDescOf(serial), "",
           ModelDescName(db, model), date.year, ClampWeek(date.week), ld.value, copy,
           AllSymbols(serial) && date.ok && yearOk && ld.ok, legacy, index, CountryIndexOf(serial))
  }

  /** parseSerial as written: the length errors, and a run-time panic at main.go:543 when
      the model code is unknown, because the product name is read at index -1. */
  function ParseAsWritten(db: ModelDatabase, serial: Bytes): (r: Outcome<Serial, ParseError>)
    requires db.Valid()
    ensures r.Failed? <==> |serial| != SERIAL_OLD_LEN && |serial| != SERIAL_NEW_LEN
    ensures r.Panicked? <==>
      (|serial| == SERIAL_OLD_LEN || |serial| == SERIAL_NEW_LEN) && ModelIndex(db, SerialModel(serial)) < 0
    ensures r.Panicked? ==> r.line == 543
  {
    if |serial| != SERIAL_OLD_LEN && |serial| != SERIAL_NEW_LEN then
      Failed(if |serial| == 17 then MlbInserted else BadLength)
    else
      var f := DecodeFields(db, serial);
      if f.index < 0 then Panicked(543)
      else Returned(f.(productName := db.platform[f.index].productName))
  }

  /** The decoder with the unknown-model panic removed: an unknown model has an empty
      product name. */
  function Decode(db: ModelDatabase, serial: Bytes): (r: Result<Serial, ParseError>)
    requires db.Valid()
    ensures r.Ok? <==> |serial| == SERIAL_OLD_LEN || |serial| == SERIAL_NEW_LEN
    ensures r.Err? ==> (r.error == MlbInserted <==> |serial| == 17)
  {
    if |serial| != SERIAL_OLD_LEN && |serial| != SERIAL_NEW_LEN then
      Err(if |serial| == 17 then MlbInserted else BadLength)
    else
      var f := DecodeFields(db, serial);
      Ok(f.(productName := if f.index >= 0 then db.platform[f.index].productName else ""))
  }

  // ---------------------------------------------------------------------------
  // The decoder as the sequence of updates the Go code makes to its Serial

  function ModelStep(db: ModelDatabase, serial: Bytes, info: Serial): Serial
    requires |serial| == SERIAL_OLD_LEN || |serial| == SERIAL_NEW_LEN
  {
    var model := SerialModel(serial);
    info.(model := model, index := ModelIndex(db, model), modelDesc := ModelDescName(db, model))
  }

  function CountryStep(serial: Bytes, info: Serial): Serial
    requires |serial| == SERIAL_OLD_LEN || |serial| == SERIAL_NEW_LEN
  {
    info.(country := CountryOf(serial), countryIndex := CountryIndexOf(serial),
          countryDesc := CountryDescOf(serial), legacy := info.legacy || |serial| == SERIAL_OLD_LEN)
  }

  function DateStep(db: ModelDatabase, serial: Bytes, info: Serial): Serial
    requires db.Valid() && (|serial| == SERIAL_OLD_LEN || |serial| == SERIAL_NEW_LEN)
    requires -1 <= info.index < db.ModelCount() && |info.model| >= 1
  {
    if |serial| == SERIAL_NEW_LEN then
      var d := ModernDate(db, info.index, serial[3], serial[4], info.model);
      info.(year := serial[3], week := info.week[0 := serial[4]], decodedYear := d.year,
            decodedWeek := d.week, valid := info.valid && d.ok)
    else
      var d := LegacyDate(serial[2], serial[3], serial[4]);
      info.(year := serial[2], week := [serial[3], serial[4]], decodedYear := d.year,
            decodedWeek := d.week, valid := info.valid && d.ok)
  }

  function YearListStep(db: ModelDatabase, info: Serial): Serial
    requires db.Valid() && info.index < db.ModelCount()
  {
    if info.decodedYear > 0 && info.index >= 0 && !YearListed(db.modelYear[info.index], info.decodedYear)
    then info.(valid := false) else info
  }

  function LineStep(serial: Bytes, info: Serial): Serial
    requires |serial| == SERIAL_OLD_LEN || |serial| == SERIAL_NEW_LEN
  {
    var ld := LineField(serial, LINE_POS);
    info.(line := ld.line, decodedLine := ld.value,
          decodedCopy := SymbolValue(ld.line[0]) - LineToRmin(ld.value), valid := info.valid && ld.ok)
  }

  /** The updates in the order parseSerial makes them. */
  function ParseSteps(db: ModelDatabase, serial: Bytes): Serial
    requires db.Valid() && (|serial| == SERIAL_OLD_LEN || |serial| == SERIAL_NEW_LEN)
  {
    var info := CountryStep(serial, ModelStep(db, serial, ZeroSerial.(valid := AllSymbols(serial))));
    var dated := DateStep(db, serial, info);
    LineStep(serial, YearListStep(db, dated.(decodedWeek := ClampWeek(dated.decodedWeek))))
  }

  /** The step-by-step updates compute the fields DecodeFields describes. */
  lemma ParseStepsMatch(db: ModelDatabase, serial: Bytes)
    requires db.Valid() && (|serial| == SERIAL_OLD_LEN || |serial| == SERIAL_NEW_LEN)
    ensures ParseSteps(db, serial) == DecodeFields(db, serial)
  {
    if |serial| == SERIAL_OLD_LEN {
      LegacyStepsMatch(db, serial);
    } else {
      ModernStepsMatch(db, serial);
    }
  }

  lemma LegacyStepsMatch(db: ModelDatabase, serial: Bytes)
    requires db.Valid() && |serial| == SERIAL_OLD_LEN
    ensures ParseSteps(db, serial) == DecodeFields(db, serial)
  {
  }

  lemma ModernStepsMatch(db: ModelDatabase, serial: Bytes)
    requires db.Valid() && |serial| == SERIAL_NEW_LEN
    ensures ParseSteps(db, serial) == DecodeFields(db, serial)
  {
  }

  /** The model lookup of parseSerial (main.go:346-389): the index of the last model listing
      the code, its description, and the code itself as Model in either case. */
  method ParseModel(db: ModelDatabase, serial: Bytes, info: Serial) returns (info': Serial)
    requires |serial| == SERIAL_OLD_LEN || |serial| == SERIAL_NEW_LEN
    ensures info' == ModelStep(db, serial, info)
  {
    var serialLen := |serial|;
    var modelLen := 0;
    var serialModel := if serialLen == SERIAL_NEW_LEN then serial[serialLen - MODEL_CODE_NEW_LEN..]
                       else serial[serialLen - MODEL_CODE_OLD_LEN..];
    assert serialModel == SerialModel(serial);
    info' := info.(index := -1);
    var index := LookupModel(db, serialModel);
    if index >= 0 {
      info' := info'.(model := serialModel, index := index);
    }
    var desc := LookupModelDesc(db, serialModel);
    info' := info'.(modelDesc := desc);
    if info'.index == -1 {
      modelLen := if serialLen == SERIAL_NEW_LEN then MODEL_CODE_NEW_LEN else MODEL_CODE_OLD_LEN;
      info' := info'.(model := serial[serialLen - modelLen..serialLen]);
      assert serial[serialLen - modelLen..serialLen] == serialModel;
    }
    assert info' == info.(model := serialModel, index := index, modelDesc := desc);
  }

  /** The location lookup of parseSerial (main.go:391-415): the country prefix, its first
      position in the location table of the format, and its description. */
  method ParseCountry(serial: Bytes, info: Serial) returns (info': Serial)
    requires |serial| == SERIAL_OLD_LEN || |serial| == SERIAL_NEW_LEN
    requires info.countryDesc == ""
    ensures info' == CountryStep(serial, info)
  {
    LocationTables();
    info' := info.(countryIndex := -1);
    if |serial| == SERIAL_NEW_LEN {
      info' := info'.(country := serial[..COUNTRY_NEW_LEN]);
      var ci := Find(AppleLocations, info'.country);
      if ci >= 0 {
        info' := info'.(countryIndex := ci, countryDesc := AppleLocationNames[ci]);
      }
    } else {
      info' := info'.(legacy := true, country := serial[..COUNTRY_OLD_LEN]);
      var ci := Find(AppleLegacyLocations, info'.country);
      if ci >= 0 {
        info' := info'.(countryIndex := ci, countryDesc := AppleLegacyLocationNames[ci]);
      }
    }
  }

  /** The date decoding of a modern serial (main.go:418-452). */
  method ParseModernDate(db: ModelDatabase, serial: Bytes, info: Serial) returns (info': Serial)
    requires db.Valid() && |serial| == SERIAL_NEW_LEN
    requires -1 <= info.index < db.ModelCount() && |info.model| >= 1
    ensures info' == DateStep(db, serial, info)
  {
    info' := info.(year := serial[COUNTRY_NEW_LEN], week := info.week[0 := serial[COUNTRY_NEW_LEN + 1]]);
    info' := info'.(decodedYear := AlphaToValue(info'.year, AppleTblYear, AppleYearBlacklist));
    if (info'.index >= 0 && db.modelYear[info'.index][0] >= 2017 && info'.decodedYear < 7) ||
       (info'.decodedYear == 0 && info'.model[0] >= 'H') {
      info' := info'.(decodedYear := info'.decodedYear + 2020);
    } else if info'.decodedYear >= 0 {
      info' := info'.(decodedYear := info'.decodedYear + 2010);
    } else {
      info' := info'.(valid := false);
    }
    assert info'.decodedYear == ModernDate(db, info.index, serial[3], serial[4], info.model).year;
    if info'.week[0] > '0' && info'.week[0] <= '9' {
      info' := info'.(decodedWeek := DigitValue(info'.week[0]));
    } else {
      info' := info'.(decodedWeek := AlphaToValue(info'.week[0], AppleTblWeek, AppleWeekBlacklist));
    }
    if info'.decodedWeek > 0 {
      if info'.decodedYear > 0 {
        info' := info'.(decodedWeek := info'.decodedWeek + AlphaToValue(info'.year, AppleTblWeekAdd, ""));
      }
    } else {
      info' := info'.(valid := false);
    }
  }

  /** The date decoding of a legacy serial (main.go:453-484). */
  method ParseLegacyDate(serial: Bytes, info: Serial) returns (info': Serial)
    requires |serial| == SERIAL_OLD_LEN
    ensures var d := LegacyDate(serial[2], serial[3], serial[4]);
      info' == info.(year := serial[2], week := [serial[3], serial[4]], decodedYear := d.year,
                     decodedWeek := d.week, valid := info.valid && d.ok)
  {
    info' := info.(year := serial[COUNTRY_OLD_LEN],
                   week := [serial[COUNTRY_OLD_LEN + 1], serial[COUNTRY_OLD_LEN + 2]]);
    if '0' <= info'.year <= '2' {
      info' := info'.(decodedYear := 2010 + DigitValue(info'.year));
    } else if '3' <= info'.year <= '9' {
      info' := info'.(decodedYear := 2000 + DigitValue(info'.year));
    } else {
      info' := info'.(decodedYear := -1, valid := false);
    }
    var week, weekOk := DecodeLegacyWeek(info'.week);
    info' := info'.(decodedWeek := week);
    if !weekOk {
      info' := info'.(valid := false);
    }
  }

  /** The line decoding of parseSerial (main.go:519-541), and the copy derived from it. */
  method ParseLine(serial: Bytes, info: Serial) returns (info': Serial)
    requires |serial| == SERIAL_OLD_LEN || |serial| == SERIAL_NEW_LEN
    ensures info' == LineStep(serial, info)
  {
    var ld := DecodeLineField(serial, LINE_POS);
    LineSumBounds(serial, LINE_POS, FirstBadLineSymbol(serial, LINE_POS, 0));
    info' := info.(line := ld.line, decodedLine := ld.value);
    if !ld.ok {
      info' := info'.(valid := false);
    }
    if info'.decodedLine >= 0 {
      info' := info'.(decodedCopy := Base34ToValue(info'.line[0], 1) - LineToRmin(info'.decodedLine));
    }
  }

  /** parseSerial, step by step as the Go code fills in its Serial. */
  method ParseSerial(db: ModelDatabase, serial: Bytes) returns (r: Outcome<Serial, ParseError>)
    requires db.Valid()
    ensures r == ParseAsWritten(db, serial)
  {
    var serialLen := |serial|;
    if serialLen != SERIAL_OLD_LEN && serialLen != SERIAL_NEW_LEN {
      if serialLen == 17 {
        return Failed(MlbInserted);
      }
      return Failed(BadLength);
    }
    var info := ZeroSerial.(valid := true);
    var symbolsOk := CheckAlphabet(serial);
    if !symbolsOk {
      info := info.(valid := false);
    }
    info := ParseModel(db, serial, info);
    info := ParseCountry(serial, info);
    if serialLen == SERIAL_NEW_LEN {
      info := ParseModernDate(db, serial, info);
    } else {
      info := ParseLegacyDate(serial, info);
    }
    if info.decodedWeek < SERIAL_WEEK_MIN || info.decodedWeek > SERIAL_WEEK_MAX {
      info := info.(decodedWeek := -1);
    }
    if info.decodedYear > 0 && info.index >= 0 {
      var found := CheckYearListed(db.modelYear[info.index], info.decodedYear);
      if !found {
        info := info.(valid := false);
      }
    }
    info := ParseLine(serial, info);
    assert info == ParseSteps(db, serial);
    ParseStepsMatch(db, serial);
    if info.index < 0 {
      return Panicked(543);
    }
    info := info.(productName := db.platform[info.index].productName);
    return Returned(info);
  }

  // ---------------------------------------------------------------------------
  // Reassembly (main.go:669-677)

  /** Serial.String: country, year, week (one byte of it for a modern serial), line and
      model, concatenated. */
  function SerialString(s: Serial): (t: Bytes)
    ensures |t| == |s.country| + |s.model| + (if s.legacy then 6 else 5)
    ensures t[..|s.country|] == s.country && t[|t| - |s.model|..] == s.model
  {
    if s.legacy then s.country + [s.year] + s.week + s.line + s.model
    else s.country + [s.year] + s.week[..1] + s.line + s.model
  }
}
