/** One attempt of the MLB (main logic board serial) generator, Serial.MLB. The year and
    week are read back from the serial's characters, stepped back by one week, and printed
    with the model's board code and random building blocks; the candidate is returned
    only when its checksum holds, and otherwise the Go loop draws again. */
module Mlb {
  import opened Tables
  import opened Codec
  import opened Search
  import opened ModelDb
  import opened Serials

  // The tables of the modern branch (main.go:732-753).
  const MLB_YEAR_SRC: Bytes := "CDFGHJKLMNPQRSTVWXYZ"
  const MLB_YEAR_DST: Bytes := "00112233445566778899"
  const MLB_WEEK_OVERRIDES: Bytes := "DGJLNQSVXZ"
  const MLB_WEEK_SRC: Bytes := "123456789CDFGHJKLMNPQRSTVWXYZ"

  /** The carry a modern week gets from a second-half year letter. */
  const MLB_WEEK_CARRY := 27

  const FAIL_ZERO: Bytes := "FAIL-ZERO-"

  /** Go's `b - '0'` on a byte: the difference wraps modulo 256. */
  function ByteOffset(b: Byte): (v: nat)
    ensures v < 256
    ensures IsDigit(b) ==> v == DigitValue(b)
    ensures !IsDigit(b) ==> v >= 10
  {
    (b as int - '0' as int) % 256
  }

  // ---------------------------------------------------------------------------
  // Year and week of the MLB (main.go:714-769)

  /** The two uint32 counters of an attempt. */
  datatype MlbDate = MlbDate(year: Uint32, week: Uint32)

  /** Legacy serial: the year digit and the two week digits, each as a wrapped byte offset. */
  function LegacyMlbDate(y: Byte, w: Week2): MlbDate
  {
    MlbDate(ByteOffset(y), ByteOffset(w[0]) * 10 + ByteOffset(w[1]))
  }

  /** Modern serial: the year digit of the first matching year letter, 0 when none matches. */
  function ModernMlbYear(y: Byte): Uint32
  {
    var i := FirstIndexFrom(MLB_YEAR_SRC, y, 0);
    if i < 0 then 0 else ByteOffset(MLB_YEAR_DST[i])
  }

  /** Modern serial: 27 for an override year letter, plus the position (from 1) of the
      week symbol in the week source table. */
  function ModernMlbWeek(y: Byte, w: Byte): (v: Uint32)
    ensures v <= MLB_WEEK_CARRY + |MLB_WEEK_SRC|
  {
    var carry := if FirstIndex(MLB_WEEK_OVERRIDES, y) >= 0 then MLB_WEEK_CARRY else 0;
    var i := FirstIndexFrom(MLB_WEEK_SRC, w, 0);
    if i < 0 then carry else carry + i + 1
  }

  /** The counters before the step back: legacy exactly when the country has two characters. */
  function RawMlbDate(s: Serial): MlbDate
  {
    if |s.country| == COUNTRY_OLD_LEN then LegacyMlbDate(s.year, s.week)
    else MlbDate(ModernMlbYear(s.year), ModernMlbWeek(s.year, s.week[0]))
  }

  /** A modern serial whose symbols give no week: the attempt gives up with FAIL-ZERO. */
  predicate FailsZero(s: Serial) {
    |s.country| != COUNTRY_OLD_LEN && ModernMlbWeek(s.year, s.week[0]) < SERIAL_WEEK_MIN
  }

  /** `week--` on a uint32, then week 0 becomes week 53 of the previous year, the year
      digit wrapping from 0 to 9. */
  function StepBack(d: MlbDate): (r: MlbDate)
    ensures d.week == 1 ==> r == MlbDate(if d.year == 0 then 9 else d.year - 1, SERIAL_WEEK_MAX)
    ensures d.week != 1 ==> r == MlbDate(d.year, if d.week == 0 then 0xFFFF_FFFF else d.week - 1)
  {
    var week := (d.week - 1) % 0x1_0000_0000;
    if week <= 9 && week == 0 then
      MlbDate(if d.year == 0 then 9 else d.year - 1, SERIAL_WEEK_MAX)
    else
      MlbDate(d.year, week)
  }

  // ---------------------------------------------------------------------------
  // Formatting (fmt verbs %d, %02d and %c)

  /** %d: the decimal numeral without leading zeros. */
  function Decimal(n: nat): (s: Bytes)
    decreases n
    ensures 1 <= |s|
  {
    if n < 10 then [DigitByte(n)] else Decimal(n / 10) + [DigitByte(n % 10)]
  }

  /** %02d: at least two digits, padded with a leading zero. */
  function Pad2(n: nat): (s: Bytes)
    ensures |s| >= 2 && (n < 100 ==> |s| == 2)
  {
    if n < 10 then ['0', DigitByte(n)]
    else
      assert Decimal(n) == Decimal(n / 10) + [DigitByte(n % 10)];
      assert n < 100 ==> Decimal(n / 10) == [DigitByte(n / 10)];
      Decimal(n)
  }

  /** %c of a byte: its code point in UTF-8, two bytes from 0x80 on. */
  function RuneBytes(b: Byte): (s: Bytes)
    ensures 1 <= |s| <= 2
  {
    if b as int < 0x80 then [b]
    else [(0xC0 + b as int / 64) as char, (0x80 + b as int % 64) as char]
  }

  /** The value of a string of decimal digits. */
  function DecimalValue(s: Bytes): int
  {
    if |s| == 0 then 0
    else if IsDigit(s[|s| - 1]) then DecimalValue(s[..|s| - 1]) * 10 + DigitValue(s[|s| - 1])
    else -1
  }

  // ---------------------------------------------------------------------------
  // One attempt (main.go:770-803)

  /** The random draws of one attempt: the getAscii7 seed draw in [0, 0x7FFE) and the
      suffix of a legacy MLB, the three block indices of a modern one. */
  datatype MlbPicks = MlbPicks(seed: nat, suffix: nat, block1: nat, block2: nat, block3: nat)

  /** What an attempt ends in: a returned string, a candidate the checksum rejects, or a
      seed too small for getAscii7 (the inner loop of the legacy branch draws again). */
  datatype Attempt = Returned(mlb: Bytes) | ChecksumRetry(candidate: Bytes) | SeedRetry

  /** The model index the generator uses: an unknown model is taken to be the last one. */
  function DefaultIndex(db: ModelDatabase, s: Serial): (i: nat)
    requires db.Valid() && -1 <= s.index < db.ModelCount()
    ensures i < db.ModelCount()
  {
    if s.index < 0 then db.ModelCount() - 1 else s.index
  }

  /** The three symbols getAscii7 renders from a seed of at least 1,000,000. */
  function LegacyCode(v: Uint32): (code: Bytes)
    requires v >= 1000000
    ensures |code| == 3
  {
    Ascii7Length(Reduce(v));
    Base34Digits(Reduce(v))[..3]
  }

  /** A legacy candidate: country, year, week, "0", the rendered seed, board code, suffix. */
  function LegacyCandidate(country: Bytes, d: MlbDate, code: Bytes, board: Bytes, k: MlbPicks): Bytes
  {
    country + Decimal(d.year) + Pad2(d.week) + "0" + code + board +
      [AppleBase34Reverse[k.suffix % |AppleBase34Reverse|]]
  }

  /** A modern candidate: country, year, week, a block of each table around the board code. */
  function ModernCandidate(country: Bytes, d: MlbDate, board: Bytes, k: MlbPicks): Bytes
  {
    country + Decimal(d.year) + Pad2(d.week) +
      MLBBlock1[k.block1 % |MLBBlock1|] + MLBBlock2[k.block2 % |MLBBlock2|] + board +
      MLBBlock3[k.block3 % |MLBBlock3|]
  }

  /** The candidate printed for the stepped-back counters `d` and the model's board code,
      when the legacy seed passes. */
  function CandidateFor(country: Bytes, board: Bytes, d: MlbDate, k: MlbPicks): Bytes
    requires k.seed < 0x7FFE
    requires |country| == COUNTRY_OLD_LEN ==> Ascii7Seed(k.seed) >= 1000000
  {
    if |country| == COUNTRY_OLD_LEN then LegacyCandidate(country, d, LegacyCode(Ascii7Seed(k.seed)), board, k)
    else ModernCandidate(country, d, board, k)
  }

  /** The board code of the serial's model, an unknown model taken to be the last one. */
  function BoardOf(db: ModelDatabase, s: Serial): Bytes
    requires db.Valid() && -1 <= s.index < db.ModelCount()
  {
    FirstBoardCode(db, DefaultIndex(db, s))
  }

  /** The candidate of an attempt that gets past FAIL-ZERO and, for a legacy serial, past
      the seed check. */
  function Candidate(db: ModelDatabase, s: Serial, k: MlbPicks): Bytes
    requires db.Valid() && -1 <= s.index < db.ModelCount() && k.seed < 0x7FFE
    requires !FailsZero(s)
    requires |s.country| == COUNTRY_OLD_LEN ==> Ascii7Seed(k.seed) >= 1000000
  {
    CandidateFor(s.country, BoardOf(db, s), StepBack(RawMlbDate(s)), k)
  }

  /** Printing and checking the stepped-back counters `d`. */
  function AttemptFrom(country: Bytes, board: Bytes, d: MlbDate, k: MlbPicks): Attempt
    requires k.seed < 0x7FFE
  {
    if |country| == COUNTRY_OLD_LEN && Ascii7Seed(k.seed) < 1000000 then SeedRetry
    else
      var c := CandidateFor(country, board, d, k);
      if ChecksumValid(c) then Returned(c) else ChecksumRetry(c)
  }

  /** The outcome of one attempt. */
  function AttemptOf(db: ModelDatabase, s: Serial, k: MlbPicks): Attempt
    requires db.Valid() && -1 <= s.index < db.ModelCount() && k.seed < 0x7FFE
  {
    if FailsZero(s) then Returned(FAIL_ZERO + RuneBytes(s.week[0]))
    else AttemptFrom(s.country, BoardOf(db, s), StepBack(RawMlbDate(s)), k)
  }

  /** The three table scans of the modern branch, each stopping at its first match. */
  method ReadModernDate(syear: Byte, sweek: Byte) returns (d: MlbDate)
    ensures d == MlbDate(ModernMlbYear(syear), ModernMlbWeek(syear, sweek))
  {
    var year: Uint32 := 0;
    var week: Uint32 := 0;
    var i := 0;
    while i < |MLB_YEAR_SRC|
      invariant 0 <= i <= |MLB_YEAR_SRC|
      invariant FirstIndexFrom(MLB_YEAR_SRC, syear, i) == FirstIndexFrom(MLB_YEAR_SRC, syear, 0)
      invariant year == 0
    {
      if syear == MLB_YEAR_SRC[i] {
        year := ByteOffset(MLB_YEAR_DST[i]);
        break;
      }
      i := i + 1;
    }
    i := 0;
    while i < |MLB_WEEK_OVERRIDES|
      invariant 0 <= i <= |MLB_WEEK_OVERRIDES|
      invariant FirstIndexFrom(MLB_WEEK_OVERRIDES, syear, i) == FirstIndex(MLB_WEEK_OVERRIDES, syear)
      invariant week == 0
    {
      if syear == MLB_WEEK_OVERRIDES[i] {
        week := MLB_WEEK_CARRY;
        break;
      }
      i := i + 1;
    }
    ghost var carry := week;
    assert carry == if FirstIndex(MLB_WEEK_OVERRIDES, syear) >= 0 then MLB_WEEK_CARRY else 0;
    i := 0;
    while i < |MLB_WEEK_SRC|
      invariant 0 <= i <= |MLB_WEEK_SRC|
      invariant FirstIndexFrom(MLB_WEEK_SRC, sweek, i) == FirstIndexFrom(MLB_WEEK_SRC, sweek, 0)
      invariant week == carry
    {
      if sweek == MLB_WEEK_SRC[i] {
        week := week + i + 1;
        break;
      }
      i := i + 1;
    }
    d := MlbDate(year, week);
  }

  /** The step back of the week counter, as the Go code writes it. */
  method StepBackCounters(year: Uint32, week: Uint32) returns (year': Uint32, week': Uint32)
    ensures MlbDate(year', week') == StepBack(MlbDate(year, week))
  {
    year', week' := year, (week - 1) % 0x1_0000_0000;
    if week' <= 9 {
      if week' == 0 {
        week' := SERIAL_WEEK_MAX;
        if year' == 0 {
          year' := 9;
        } else {
          year' := year' - 1;
        }
      }
    }
  }

  /** The second half of a pass: print the candidate for the counters and check it. */
  method PrintAndCheck(country: Bytes, board: Bytes, year: Uint32, week: Uint32, k: MlbPicks)
    returns (r: Attempt)
    requires k.seed < 0x7FFE
    ensures r == AttemptFrom(country, board, MlbDate(year, week), k)
  {
    var serial: Bytes;
    if |country| == COUNTRY_OLD_LEN {
      var seed := Ascii7Seed(k.seed);
      if seed >= 1000000 {
        Ascii7Length(Reduce(seed));
      }
      var code := GetAscii7(seed, 3);
      if code.Err? {
        r := SeedRetry;
        return;
      }
      var suffix := AppleBase34Reverse[k.suffix % 34];
      serial := country + Decimal(year) + Pad2(week) + "0" + code.value + board + [suffix];
    } else {
      var part1 := MLBBlock1[k.block1 % |MLBBlock1|];
      var part2 := MLBBlock2[k.block2 % |MLBBlock2|];
      var part3 := MLBBlock3[k.block3 % |MLBBlock3|];
      serial := country + Decimal(year) + Pad2(week) + part1 + part2 + board + part3;
    }
    var ok := VerifyMLBChecksum(serial);
    if ok {
      r := Returned(serial);
    } else {
      r := ChecksumRetry(serial);
    }
  }

  /** One pass of the MLB loop. The serial's unknown model index is replaced by the last
      model's, as the Go method does, since it updates its receiver. */
  method MlbAttempt(db: ModelDatabase, s: Serial, k: MlbPicks) returns (r: Attempt, s': Serial)
    requires db.Valid() && -1 <= s.index < db.ModelCount() && k.seed < 0x7FFE
    ensures s' == s.(index := DefaultIndex(db, s))
    ensures r == AttemptOf(db, s, k)
  {
    s' := s;
    if s'.index < 0 {
      s' := s'.(index := db.ModelCount() - 1);
    }
    var zero, year, week := ReadCounters(s');
    if zero {
      r := Returned(FAIL_ZERO + RuneBytes(s'.week[0]));
      return;
    }
    var board := FirstBoardCode(db, s'.index);
    r := PrintAndCheck(s'.country, board, year, week, k);
  }

  /** The first half of a pass: read the counters from the serial, give up on a modern
      week below 1, and step the week back. */
  method ReadCounters(s: Serial) returns (zero: bool, year: Uint32, week: Uint32)
    ensures zero == FailsZero(s)
    ensures !zero ==> MlbDate(year, week) == StepBack(RawMlbDate(s))
  {
    zero := false;
    year, week := 0, 0;
    var legacy := false;
    if |s.country| == COUNTRY_OLD_LEN {
      legacy := true;
    }
    if legacy {
      year := ByteOffset(s.year);
      week := ByteOffset(s.week[0]) * 10 + ByteOffset(s.week[1]);
    } else {
      var d := ReadModernDate(s.year, s.week[0]);
      year, week := d.year, d.week;
      if week < SERIAL_WEEK_MIN {
        zero := true;
        return;
      }
    }
    year, week := StepBackCounters(year, week);
  }
}
