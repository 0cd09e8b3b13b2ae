/** generateSerial: choose the model, country, year, week and line, render them with the
    reverse tables, print the serial and parse it again. Two generators are modelled: the
    code as written, whose out-of-range table reads are run-time panics, and a corrected
    generator that reports those cases as errors and parses without the unknown-model
    panic. */
module Encoder {
  import opened Tables
  import opened Outcomes
  import opened Codec
  import opened ModelDb
  import opened Serials

  const SERIAL_YEAR_OLD_MIN := 2003
  const SERIAL_YEAR_OLD_MAX := 2012
  const SERIAL_YEAR_NEW_MIN := 2010
  const SERIAL_YEAR_NEW_MID := 2020
  const SERIAL_YEAR_NEW_MAX := 2030

  /** The generator's parameters. A negative number or an empty string leaves the field
      to the generator. */
  datatype Params = Params(index: int, year: int, week: int, country: Bytes, modelCode: Bytes,
                           line: int, copy: int)

  /** The random draws of one call: the draw of getProductionYear, a week and a line. */
  datatype Picks = Picks(year: nat, week: int, line: int)

  /** The ranges of the draws: a week in [1, 52) and a line in [0, 3399). */
  predicate PicksInRange(k: Picks) {
    SERIAL_WEEK_MIN <= k.week < SERIAL_WEEK_MAX - 1 && 0 <= k.line < SERIAL_LINE_MAX
  }

  datatype GenError =
    | NoModel
    | LegacyYearOutOfRange(year: int)
    | ModernYearOutOfRange(year: int)
    | CopyCannotRepresentLine(copy: int, line: int)
    | ParseFailed(error: ParseError)
      // Raised only by the corrected generator, where the code as written panics.
    | IndexOutOfRange(index: int)
    | WeekOutOfRange(week: int)
    | LineNotRepresentable(line: int, rmin: int)

  /** The errors that the corrected generator returns in place of a panic. */
  predicate ReplacesPanic(e: GenError) {
    e.IndexOutOfRange? || e.ModernYearOutOfRange? || e.WeekOutOfRange? || e.LineNotRepresentable?
  }

  // ---------------------------------------------------------------------------
  // Choosing the fields (main.go:551-603, main.go:640-643)

  /** The fields a call settles on before rendering them. */
  datatype Fields = Fields(model: Bytes, countryLen: nat, country: Bytes, year: int, week: int,
                           line: int)

  /** The length of the country field: the supplied country's, or 3 for a 4-character model
      code and 2 otherwise. */
  function CountryLen(p: Params, model: Bytes): (n: nat)
    ensures p.country == [] ==> (n == COUNTRY_NEW_LEN <==> |model| == MODEL_CODE_NEW_LEN)
    ensures p.country == [] ==> n == COUNTRY_OLD_LEN || n == COUNTRY_NEW_LEN
    ensures p.country != [] ==> n == |p.country|
  {
    if |p.country| != 0 then |p.country|
    else if |model| == MODEL_CODE_NEW_LEN then COUNTRY_NEW_LEN
    else COUNTRY_OLD_LEN
  }

  /** The supplied country, the first location of the format for no model index, or the
      prefix of the model's canonical serial. */
  function ChosenCountry(db: ModelDatabase, p: Params, countryLen: nat): (c: Bytes)
    requires db.Valid() && (p.country == [] ==> p.index < db.ModelCount())
    requires p.country == [] ==> countryLen == COUNTRY_OLD_LEN || countryLen == COUNTRY_NEW_LEN
    ensures |c| == countryLen || p.country != []
    ensures p.country != [] ==> c == p.country
  {
    if p.country != [] then p.country
    else if p.index < 0 then
      (if countryLen == COUNTRY_OLD_LEN then AppleLegacyLocations[0] else AppleLocations[0])
    else db.platform[p.index].serialNumber[..countryLen]
  }

  /** The supplied year, the last legacy or the middle modern year for no model index, or
      the model's production year. */
  function ChosenYear(db: ModelDatabase, p: Params, countryLen: nat, pick: nat): (y: int)
    requires db.Valid() && (p.year < 0 ==> p.index < db.ModelCount())
    ensures p.year >= 0 ==> y == p.year
    ensures p.year < 0 && p.index >= 0 ==> y == ProductionYear(db, p.index, pick)
  {
    if p.year >= 0 then p.year
    else if p.index < 0 then (if countryLen == COUNTRY_OLD_LEN then SERIAL_YEAR_OLD_MAX else SERIAL_YEAR_NEW_MID)
    else ProductionYear(db, p.index, pick)
  }

  function ChosenWeek(p: Params, k: Picks): int {
    if p.week < 0 then k.week else p.week
  }

  function ChosenLine(p: Params, k: Picks): int {
    if p.line < 0 then k.line else p.line
  }

  /** The choices as written: an index past the database is read by getModelCode
      (main.go:305), by the country prefix (main.go:582) or by getProductionYear
      (main.go:276), each a panic. */
  function ChooseFieldsAsWritten(db: ModelDatabase, p: Params, k: Picks): Outcome<Fields, GenError>
    requires db.Valid()
  {
    if p.index < 0 && p.modelCode == [] then Failed(NoModel)
    else if p.modelCode == [] && p.index >= db.ModelCount() then Panicked(305)
    else
      var model := if p.modelCode == [] then FirstModelCode(db, p.index) else p.modelCode;
      var countryLen := CountryLen(p, model);
      if p.country == [] && p.index >= db.ModelCount() then Panicked(582)
      else if p.year < 0 && p.index >= db.ModelCount() then Panicked(276)
      else Returned(Fields(model, countryLen, ChosenCountry(db, p, countryLen),
                           ChosenYear(db, p, countryLen, k.year), ChosenWeek(p, k), ChosenLine(p, k)))
  }

  /** The corrected choices: an index past the database is an error wherever it is read. */
  function ChooseFields(db: ModelDatabase, p: Params, k: Picks): Result<Fields, GenError>
    requires db.Valid()
  {
    if p.index < 0 && p.modelCode == [] then Err(NoModel)
    else if p.index >= db.ModelCount() && (p.modelCode == [] || p.country == [] || p.year < 0) then
      Err(IndexOutOfRange(p.index))
    else
      var model := if p.modelCode == [] then FirstModelCode(db, p.index) else p.modelCode;
      var countryLen := CountryLen(p, model);
      Ok(Fields(model, countryLen, ChosenCountry(db, p, countryLen),
                ChosenYear(db, p, countryLen, k.year), ChosenWeek(p, k), ChosenLine(p, k)))
  }

  // ---------------------------------------------------------------------------
  // Rendering the date (main.go:605-638)

  /** The printed year and week text. */
  datatype DateText = DateText(year: Bytes, week: Bytes)

  /** `'0' + byte(v)` in Go: the conversion keeps the low 8 bits and the byte sum wraps. */
  function ZeroPlusByte(v: int): (c: Byte)
    requires v >= 0
    ensures v <= 9 ==> c == DigitByte(v)
  {
    (('0' as int + v % 256) % 256) as char
  }

  /** A legacy date: the last digit of the year and the two week digits. */
  function LegacyDateText(year: int, week: int): (d: DateText)
    requires SERIAL_YEAR_OLD_MIN <= year <= SERIAL_YEAR_OLD_MAX && week >= 0
    ensures |d.year| == 1 && |d.week| == 2
  {
    DateText([DigitByte((year - 2000) % 10)], [ZeroPlusByte(week / 10), DigitByte(week % 10)])
  }

  /** The decade of a modern year: 2020 from 2020 on, otherwise 2010. */
  function ModernBase(year: int): int {
    if year >= SERIAL_YEAR_NEW_MID then 2020 else 2010
  }

  /** The position of the year letter: two letters per year, the second one for the second
      half-year (week 27 on). */
  function YearLetterIndex(year: int, week: int): int {
    (year - ModernBase(year)) * 2 + (if week >= 27 then 1 else 0)
  }

  /** A modern date: the year letter and the week symbol of the reverse tables. */
  function ModernDateText(year: int, week: int): (d: DateText)
    requires 0 <= YearLetterIndex(year, week) < |AppleYearReverse| && 0 <= week < |AppleWeekReverse|
    ensures |d.year| == 1 && |d.week| == 1
  {
    DateText([AppleYearReverse[YearLetterIndex(year, week)]], [AppleWeekReverse[week]])
  }

  /** The date as written: a year outside the format's range is an error; year 2030 reads
      past the 20 year letters (main.go:630, main.go:632) and a week past 53 past the week
      table (main.go:634). Any country length other than 2 takes the modern branch. */
  function EncodeDateAsWritten(countryLen: nat, year: int, week: int): (r: Outcome<DateText, GenError>)
    requires week >= 0
    ensures r.Returned? ==> |r.value.year| == 1 && |r.value.week| == (if countryLen == COUNTRY_OLD_LEN then 2 else 1)
  {
    if countryLen == COUNTRY_OLD_LEN then
      if year < SERIAL_YEAR_OLD_MIN || year > SERIAL_YEAR_OLD_MAX then Failed(LegacyYearOutOfRange(year))
      else Returned(LegacyDateText(year, week))
    else if year < SERIAL_YEAR_NEW_MIN || year > SERIAL_YEAR_NEW_MAX then Failed(ModernYearOutOfRange(year))
    else if YearLetterIndex(year, week) >= |AppleYearReverse| then Panicked(if week >= 27 then 630 else 632)
    else if week >= |AppleWeekReverse| then Panicked(634)
    else Returned(ModernDateText(year, week))
  }

  /** The corrected date: the modern range ends at 2029, the last year the letters can
      express, and a modern week past 53 is an error. */
  function EncodeDate(countryLen: nat, year: int, week: int): (r: Result<DateText, GenError>)
    requires week >= 0
    ensures r.Ok? ==> |r.value.year| == 1 && |r.value.week| == (if countryLen == COUNTRY_OLD_LEN then 2 else 1)
  {
    if countryLen == COUNTRY_OLD_LEN then
      if year < SERIAL_YEAR_OLD_MIN || year > SERIAL_YEAR_OLD_MAX then Err(LegacyYearOutOfRange(year))
      else Ok(LegacyDateText(year, week))
    else if year < SERIAL_YEAR_NEW_MIN || year >= SERIAL_YEAR_NEW_MAX then Err(ModernYearOutOfRange(year))
    else if week > SERIAL_WEEK_MAX then Err(WeekOutOfRange(week))
    else Ok(ModernDateText(year, week))
  }

  // ---------------------------------------------------------------------------
  // Rendering the line (main.go:640-657)

  /** The first line symbol: the least one that can express the line, moved up by the
      copy number minus one when a copy is supplied. */
  function CopyRmin(copy: int, line: int): int {
    LineToRmin(line) + (if copy >= 0 then copy - 1 else 0)
  }

  /** The three line symbols: rmin, then the rest of the line in base 34. */
  function LineText(rmin: int, line: int): (t: Bytes)
    requires 0 <= rmin < 34 && 0 <= line - rmin * 68 && (line - rmin * 68) / 34 < 34
    ensures |t| == 3
  {
    var rem := line - rmin * 68;
    [Base34Symbol(rmin), Base34Symbol(rem / 34), Base34Symbol(rem % 34)]
  }

  /** The reverse base-34 table read at `v`, written out as its four runs: the digits,
      A to H, J to N and P to Z (Base34SymbolIsTable). */
  function Base34Symbol(v: int): Byte
    requires 0 <= v < 34
  {
    if v < 10 then ('0' as int + v) as char
    else if v < 18 then ('A' as int + v - 10) as char
    else if v < 23 then ('J' as int + v - 18) as char
    else ('P' as int + v - 23) as char
  }

  /** The line as written: a copy that needs more than the line has is an error; a first
      symbol outside the 34-symbol table (copy 0, or a copy or line too large) panics at
      main.go:655, and a remainder of 34 * 34 or more at main.go:656. */
  function EncodeLineAsWritten(copy: int, line: int): (r: Outcome<Bytes, GenError>)
    requires line >= 0
    ensures r.Returned? ==> |r.value| == 3
  {
    var rmin := CopyRmin(copy, line);
    if copy >= 0 && rmin * 68 > line then Failed(CopyCannotRepresentLine(copy, line))
    else if rmin < 0 || rmin >= |AppleBase34Reverse| then Panicked(655)
    else if (line - rmin * 68) / 34 >= |AppleBase34Reverse| then Panicked(656)
    else Returned(LineText(rmin, line))
  }

  /** The corrected line: every line the three symbols cannot express is an error. */
  function EncodeLine(copy: int, line: int): (r: Result<Bytes, GenError>)
    requires line >= 0
    ensures r.Ok? ==> |r.value| == 3
  {
    var rmin := CopyRmin(copy, line);
    if copy >= 0 && rmin * 68 > line then Err(CopyCannotRepresentLine(copy, line))
    else if rmin < 0 || rmin >= 34 || (line - rmin * 68) / 34 >= 34 then Err(LineNotRepresentable(line, rmin))
    else Ok(LineText(rmin, line))
  }

  // ---------------------------------------------------------------------------
  // The whole generator (main.go:549-667)

  /** The printed serial: country, year, week, line and model. */
  function Printed(f: Fields, d: DateText, line: Bytes): Bytes {
    f.country + d.year + d.week + line + f.model
  }

  /** generateSerial as written. */
  function GenerateAsWritten(db: ModelDatabase, p: Params, k: Picks): Outcome<Serial, GenError>
    requires db.Valid() && PicksInRange(k)
  {
    match ChooseFieldsAsWritten(db, p, k)
    case Failed(e) => Failed(e)
    case Panicked(n) => Panicked(n)
    case Returned(f) =>
      match EncodeDateAsWritten(f.countryLen, f.year, f.week)
      case Failed(e) => Failed(e)
      case Panicked(n) => Panicked(n)
      case Returned(d) =>
        match EncodeLineAsWritten(p.copy, f.line)
        case Failed(e) => Failed(e)
        case Panicked(n) => Panicked(n)
        case Returned(l) =>
          match ParseAsWritten(db, Printed(f, d, l))
          case Failed(e) => Failed(ParseFailed(e))
          case Panicked(n) => Panicked(n)
          case Returned(s) => Returned(s)
  }

  /** The corrected generator: every panic of the code as written is an error, and the
      printed serial is parsed by the corrected decoder. */
  function Generate(db: ModelDatabase, p: Params, k: Picks): Result<Serial, GenError>
    requires db.Valid() && PicksInRange(k)
  {
    match ChooseFields(db, p, k)
    case Err(e) => Err(e)
    case Ok(f) =>
      match EncodeDate(f.countryLen, f.year, f.week)
      case Err(e) => Err(e)
      case Ok(d) =>
        match EncodeLine(p.copy, f.line)
        case Err(e) => Err(e)
        case Ok(l) =>
          match Decode(db, Printed(f, d, l))
          case Err(e) => Err(ParseFailed(e))
          case Ok(s) => Ok(s)
  }

  /** The generator as the Go code runs it: the fields are picked and rendered into local
      buffers step by step, then the printed serial is parsed. */
  method GenerateSerial(db: ModelDatabase, p: Params, k: Picks) returns (r: Outcome<Serial, GenError>)
    requires db.Valid() && PicksInRange(k)
    ensures r == GenerateAsWritten(db, p, k)
  {
    var fields := PickFields(db, p, k);
    if !fields.Returned? {
      return match fields case Failed(e) => Failed(e) case Panicked(n) => Panicked(n);
    }
    var f := fields.value;
    var date := RenderDate(f.countryLen, f.year, f.week);
    if !date.Returned? {
      return match date case Failed(e) => Failed(e) case Panicked(n) => Panicked(n);
    }
    var line := RenderLine(p.copy, f.line);
    if !line.Returned? {
      return match line case Failed(e) => Failed(e) case Panicked(n) => Panicked(n);
    }
    var serial := f.country + date.value.year + date.value.week + line.value + f.model;
    var s := ParseSerial(db, serial);
    match s
    case Failed(e) => r := Failed(ParseFailed(e));
    case Panicked(n) => r := Panicked(n);
    case Returned(v) => r := Returned(v);
  }

  /** The first part of generateSerial: the model, country, year, week and line. */
  method PickFields(db: ModelDatabase, p: Params, k: Picks) returns (r: Outcome<Fields, GenError>)
    requires db.Valid()
    ensures r == ChooseFieldsAsWritten(db, p, k)
  {
    if p.index < 0 && p.modelCode == [] {
      return Failed(NoModel);
    }
    var model: Bytes;
    if p.modelCode == [] {
      if p.index >= db.ModelCount() {
        return Panicked(305);
      }
      model := db.modelCode[p.index][0];
    } else {
      model := p.modelCode;
    }

    var country := p.country;
    var countryLen := |p.country|;
    if countryLen == 0 {
      countryLen := if |model| == MODEL_CODE_NEW_LEN then COUNTRY_NEW_LEN else COUNTRY_OLD_LEN;
      if p.index < 0 {
        country := if countryLen == COUNTRY_OLD_LEN then AppleLegacyLocations[0] else AppleLocations[0];
      } else {
        if p.index >= db.ModelCount() {
          return Panicked(582);
        }
        country := db.platform[p.index].serialNumber[..countryLen];
      }
    }

    var year := p.year;
    if p.year < 0 {
      if p.index < 0 {
        year := if countryLen == COUNTRY_OLD_LEN then SERIAL_YEAR_OLD_MAX else SERIAL_YEAR_NEW_MID;
      } else {
        if p.index >= db.ModelCount() {
          return Panicked(276);
        }
        year := GetProductionYear(db, p.index, k.year);
      }
    }
    var week := p.week;
    if p.week < 0 {
      week := k.week;
    }
    var line := p.line;
    if p.line < 0 {
      line := k.line;
    }
    r := Returned(Fields(model, countryLen, country, year, week, line));
  }

  /** The year and week buffers of generateSerial. */
  method RenderDate(countryLen: nat, year: int, week: int) returns (r: Outcome<DateText, GenError>)
    requires week >= 0
    ensures r == EncodeDateAsWritten(countryLen, year, week)
  {
    var yearText: Bytes;
    var weekText: Bytes;
    if countryLen == COUNTRY_OLD_LEN {
      if year < SERIAL_YEAR_OLD_MIN || year > SERIAL_YEAR_OLD_MAX {
        return Failed(LegacyYearOutOfRange(year));
      }
      yearText := [DigitByte((year - 2000) % 10)];
      weekText := [ZeroPlusByte(week / 10), DigitByte(week % 10)];
    } else {
      if year < SERIAL_YEAR_NEW_MIN || year > SERIAL_YEAR_NEW_MAX {
        return Failed(ModernYearOutOfRange(year));
      }
      var base := 2010;
      if year >= SERIAL_YEAR_NEW_MID {
        base := 2020;
      }
      if week >= 27 {
        if (year - base) * 2 + 1 >= |AppleYearReverse| {
          return Panicked(630);
        }
        yearText := [AppleYearReverse[(year - base) * 2 + 1]];
      } else {
        if (year - base) * 2 >= |AppleYearReverse| {
          return Panicked(632);
        }
        yearText := [AppleYearReverse[(year - base) * 2]];
      }
      if week >= |AppleWeekReverse| {
        return Panicked(634);
      }
      weekText := [AppleWeekReverse[week]];
    }
    r := Returned(DateText(yearText, weekText));
  }

  /** The line buffer of generateSerial: rmin is adjusted by the copy in place. */
  method RenderLine(copy: int, line: int) returns (r: Outcome<Bytes, GenError>)
    requires line >= 0
    ensures r == EncodeLineAsWritten(copy, line)
  {
    var rmin := LineToRmin(line);
    assert 0 <= line - rmin * 68;
    if copy >= 0 {
      rmin := rmin + copy - 1;
      if rmin * 68 > line {
        return Failed(CopyCannotRepresentLine(copy, line));
      }
    }
    if rmin < 0 || rmin >= |AppleBase34Reverse| {
      return Panicked(655);
    }
    var rem := line - rmin * 68;
    assert rem >= 0;
    if rem / 34 >= |AppleBase34Reverse| {
      return Panicked(656);
    }
    r := Returned(LineText(rmin, line));
  }
}
