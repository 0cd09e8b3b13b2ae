# SMBIOS serial and MLB codec in Dafny

This project models the core of SMBIOSKeygen's serial-number codec: the decoder and encoder of
Apple serial numbers, the MLB (main logic board) generator and its checksum, and the listing of
"derivative" serials that share a production line. It also proves properties of that model. The
program works on byte strings. A Go `string` is modelled as `Bytes`, a sequence of characters
below 256, and `uint32` arithmetic is written out explicitly.

A serial has 11 characters (legacy) or 12 (modern). Its fields are:

- a country code of 2 or 3 characters;
- a year symbol;
- one or two week symbols;
- three line symbols, in Apple's base 34 (digits, then the letters without I and O);
- a model code of 3 or 4 characters.

The files follow the program's structure:

- `tables.dfy` (`Tables`): the constant tables of `modelinfo.go`, with lemmas about their shape
  and how they relate.
- `outcomes.dfy` (`Outcomes`): `Result` (returned value or Go error). Also `Outcome`, which adds
  the run-time panic the Go source would raise, tagged with the panicking source line.
- `codec.dfy` (`Codec`): `alphaToValue`, `base34ToValue`, `lineToRmin`, `getAscii7` and
  `VerifyMLBChecksum`.
- `search.dfy` (`Search`): first-match search over a sequence, used by the table scans.
- `database.dfy` (`ModelDb`): the model database as a read-only record of sequences, and the
  lookups of model codes, model descriptions and production years.
- `serial.dfy` (`Serials`): `parseSerial` and `Serial.String`. It has step methods for each
  stage of the parse, and a specification function `Decode` (the corrected parse) beside
  `ParseAsWritten` (the parse as written, panic included).
- `serial_props.dfy` (`SerialProps`): what the decoder promises, including the round trip
  through `Serial.String` and the test serials.
- `generate.dfy` (`Encoder`): `generateSerial` as written (`GenerateAsWritten`, with its panics)
  and corrected (`Generate`). Random draws are an explicit `Picks` parameter. The line symbols
  read the reverse base-34 table through `Base34Symbol`, which spells the table out as its
  four runs of consecutive characters; `EncoderProps.Base34SymbolIsTable` proves it is the table.
- `generate_props.dfy` (`EncoderProps`): the error cases, and agreement of the two versions off
  the panics. Also proves that what the generator prints decodes back to the requested line,
  copy and model code for any country of 2 or 3 characters. These are the only lengths the
  command line accepts (main.go:976-983), and the line field starts at byte 5 for both. The
  country, the week and the year come back only when the country and the model code fit one
  format: 2 and 3 characters, or 3 and 4. The command line checks the two lengths separately
  (main.go:976-995), so a mismatched pair reaches the generator
  (`MismatchedFormatExample`). For fitting formats, the week comes back, and so does a legacy
  year. A modern year comes back only as its offset
  within a decade. The encoder picks the decade by the year itself: the 2020s letters from
  2020 on (main.go:624-627). The decoder picks it by its epoch rule on the model: the model's
  first production year, or the first letter of its code (main.go:429-433). The requested
  year comes back exactly when the two choices agree (`GeneratedYearRoundTrip`). Year 2012
  for a model first made in 2017 decodes as 2022 (`DecadeMismatchExample`). `GeneratedValid`
  states when a generated serial is reported valid.
- `mlb.dfy` (`Mlb`): one attempt of `Serial.MLB`. Random draws are an explicit `MlbPicks`
  parameter.
- `mlb_props.dfy` (`MlbProps`): the date rules of the MLB, the FAIL-ZERO rule, and the shape of
  the candidates. Also proves that every returned MLB passes the checksum.
- `derivatives.dfy` (`Derivatives`): the derivative loop of `main`, as written and corrected.

Some code paths mutate state step by step: `getAscii7`, `VerifyMLBChecksum`, the steps of
`parseSerial`, `generateSerial`, one MLB attempt, and the derivative loop. Each is a `method`
with loops and invariants. Each method is proved equal to a specification function, and the
lemmas are proved about that function.

Where the description of the program and its code differ, the model follows the code:

- The MLB checksum alphabet has 34 symbols, so the modulus is 34.
- `generateSerial` does not reject a model index given together with a model code; only the
  command-line front end keeps them apart.

## Model

| member | source | states |
|---|---|---|
| Tables.Base34ReverseShape | modelinfo.go:137 | the base-34 reverse alphabet has 34 symbols: the digits at their own values, then strictly ascending letters, with no I and no O |
| Tables.Base34TableInverse | modelinfo.go:135-137 | every letter outside "IO" maps through AppleTblBase34 to a value in 10..33 whose reverse symbol is that letter, and every value 10..33 maps back to itself |
| Tables.YearTables | modelinfo.go:140-142 | AppleYearReverse has 20 letters, none blacklisted, and AppleTblYear maps its i-th letter to i/2 |
| Tables.WeekAddTable | modelinfo.go:142-145 | the week carry is 26 exactly at the odd positions of AppleYearReverse and 0 at its even positions and at every other letter |
| Tables.WeekReverseShape | modelinfo.go:148-150 | AppleWeekReverse has 54 symbols, each a digit or a letter outside the week blacklist |
| Tables.LocationTables | modelinfo.go:5-117 | 34 legacy locations of 2 characters and 15 modern locations of 3 characters, each with a name table of the same length |
| Tables.MLBBlocks | modelinfo.go:119-132 | the MLB block tables have 28, 7 and 11 entries of 3, 2 and 2 characters, and block 2 holds "OP" |
| Codec.AlphaToValue | main.go:186-198 | -1 for a byte outside A-Z or in the blacklist, otherwise the table entry of the letter |
| Codec.Base34ToValue | main.go:200-212 | base34ToValue: a digit's value or the letter-table value, times the weight, and -1 for every other byte; SymbolValueSpec and Base34RoundTrip state it against the reverse alphabet |
| Codec.SymbolValue | main.go:200-212 | base34ToValue with weight 1, the value of one symbol; SymbolValueSpec states it |
| Codec.DigitByte | main.go:614-616 | `'0' + d` for a digit d: a digit byte whose value is d |
| Codec.Base34RoundTrip | main.go:200-212 | the symbol at position d of the reverse alphabet is worth d times the weight |
| Codec.Base34Rejects | main.go:200-212 | every byte outside the reverse alphabet, I and O included, is worth -1 |
| Codec.SymbolValueSpec | main.go:200-212 | the value of a symbol is -1 exactly outside the reverse alphabet, otherwise its position there, and a weighted value is that position times the weight |
| Codec.Base34Examples | main_test.go:103-120 | W, Y and 4 with weights 68, 34 and 1 are worth 2040, 1088 and 4; I, O and a lower-case letter are rejected |
| Codec.AlphaToValueExample | main_test.go:95-101 | the year letter V is worth 7 |
| Codec.LineToRmin | main.go:214-223 | the least first symbol that leaves a remainder of at most 1155, so that the other two symbols can carry it |
| Codec.LineToRminExamples | main.go:214-223 | the boundary values 0, 1155, 1156, 1223, 1224 and 3399 give 0, 0, 1, 1, 2 and 33 |
| Codec.Reduce | main.go:234-236 | dividing by 10 while above 10,000,000 keeps a value of at least 1,000,000 in [1,000,000, 10,000,000] and leaves smaller values untouched |
| Codec.Base34DigitsRoundTrip | main.go:238-248 | the base-34 digits getAscii7 renders read back as the value |
| Codec.Base34DigitsAlphabet | main.go:242 | every rendered digit is a symbol of the reverse alphabet |
| Codec.Ascii7Length | main.go:228-251 | a reduced value has 4 or 5 base-34 digits, so any size up to 4 can be cut from it |
| Codec.GetAscii7 | main.go:228-251 | errors exactly when the value is below 1,000,000; otherwise returns the leading `size` base-34 digits of the reduced value |
| Codec.GetAscii7Example | main_test.go:122-130 | 0x73BA1C times 10 reduces to 7584284 and renders as "5NY" |
| Codec.AlphabetPosition | main.go:253-259 | the checksum alphabet is the base-34 reverse alphabet, so a symbol's position there is its base-34 value |
| Codec.VerifyMLBChecksum | main.go:253-271 | true exactly when the parity-weighted sum of alphabet positions is a multiple of 34 |
| Codec.ChecksumSum | main.go:257-269 | the parity-weighted sum over the first n positions, never negative |
| Codec.ChecksumValid | main.go:253-271 | the verdict of VerifyMLBChecksum: the sum over all positions is a multiple of 34; ChecksumExamples and SubstitutionDetected are about it |
| Codec.ChecksumExamples | main_test.go:136-145 | C02443500KZG2QDA7 passes (sum 306); C02443500KZG2QDA8 differs only in its last symbol and fails |
| Codec.SubstitutionDetected | main.go:253-271 | replacing one alphabet symbol of a valid MLB by another makes the checksum fail |
| Codec.SkippedSymbolCountsAsZero | main.go:257-269 | a byte outside the alphabet adds nothing, exactly as a '0' would |
| Codec.BlockLetterOSkipped | modelinfo.go:126-128 | the 'O' of block "OP" lies outside the checksum alphabet |
| ModelDb.ModelIndexSpec | main.go:356-370 | the model index is the last model whose code row, up to its first empty code, lists the serial's model, and -1 exactly when none does |
| ModelDb.ScanRow | main.go:359-368 | the inner scan finds the code exactly when the row lists it before its first empty entry |
| ModelDb.LookupModel | main.go:356-370 | the nested scan returns the model index of the specification |
| ModelDb.ModelDescName | main.go:372-379 | the name of the first description with the model code, or "" when there is none |
| ModelDb.LookupModelDesc | main.go:372-379 | the description scan returns that name |
| ModelDb.CheckYearListed | main.go:490-500 | the year scan finds the year exactly when it is among the leading positive years of the model |
| ModelDb.ProductionYear | main.go:273-292 | the preferred year when one is set, otherwise one of the model's listed years, always positive |
| ModelDb.GetProductionYear | main.go:273-292 | the counting loop and the draw return that year |
| ModelDb.FirstModelCode | main.go:294-306 | getModelCode returns the first code of the model's row; a non-empty one looks up that model or a later one that also lists it |
| ModelDb.FirstBoardCode | main.go:308-320 | getBoardCode returns the first board code of the model's row |
| Serials.SerialSymbolIsBase34 | main.go:339-345 | the alphabet check accepts exactly the base-34 symbols, those of non-negative value |
| Serials.CheckAlphabet | main.go:336-345 | the loop keeps the serial valid exactly when every byte is a base-34 symbol |
| Serials.LegacyYear | main.go:459-467 | -1 exactly for a non-digit; otherwise a year in 2003..2012 whose last digit is the digit |
| Serials.LegacyWeek | main.go:469-482 | -1 exactly when a week byte is not a digit; otherwise the two-digit number |
| Serials.DecodeLegacyWeek | main.go:469-482 | the loop over the week bytes returns that number and fails exactly on -1 |
| Serials.WeekSymbolValue | main.go:439-443 | a modern week symbol decodes to -1 or to a week in 1..27 |
| Serials.YearLetterValue | main.go:425 | a modern year letter decodes to -1 or to a year digit in 0..9 |
| Serials.ClampWeek | main.go:485-488 | a decoded week outside 1..53 becomes -1; one inside is kept |
| Serials.LineSumBounds | main.go:526-537 | the weighted sum of valid line symbols stays within 0..3399 |
| Serials.DecodeLineField | main.go:519-541 | the line loop returns the line field of the specification |
| Serials.ParseStepsMatch | main.go:323-546 | performing the parse steps in order gives the field-wise decoding |
| Serials.ParseModel | main.go:347-391 | the model step sets the model code and index as specified |
| Serials.ParseCountry | main.go:393-417 | the location step sets the country, its first table index and its name as specified |
| Serials.ParseModernDate | main.go:420-452 | the modern date step sets year, week and validity as specified |
| Serials.ParseLegacyDate | main.go:453-484 | the legacy date step records the year and week bytes and their decoded values, and clears validity on a bad symbol |
| Serials.ParseLine | main.go:519-541 | the line step sets the line bytes, the decoded line and copy, and validity as specified |
| Serials.ParseSerial | main.go:323-546 | the whole parse equals the parse as written: the length errors, the decoded fields, or the panic of an unknown model |
| Serials.LegacyDate | main.go:453-484 | a legacy date has the year -1 or in 2003..2012 and the week -1 or in 0..99, and decodes exactly when all three bytes are digits |
| Serials.Epoch2020 | main.go:429-433 | the rule that selects the 2020s, which holds only for a raw year below 7 |
| Serials.ModernDate | main.go:420-452 | a modern date has the year -1 or in 2010..2026, and decodes only with a year and a week symbol of positive value; ModernYearRules and ModernWeekRule state it in full |
| Serials.LineField | main.go:519-541 | the line loop's bytes, value and verdict, stopping at the first bad symbol; LineFieldValid, LineFieldInvalid and DecodeLineField state it |
| Serials.DecodeFields | main.go:347-541 | every field parseSerial computes from a serial of valid length; DecodeShape and ValidRule state what they are |
| Serials.ParseAsWritten | main.go:323-546 | the parse as written fails exactly off lengths 11 and 12, and panics at 543 exactly when a well-sized serial's model code is unknown |
| Serials.Decode | main.go:323-546 | the corrected parse returns a serial exactly for lengths 11 and 12, and the MLB error exactly for length 17 |
| Serials.SerialString | main.go:669-677 | Serial.String starts with the country and ends with the model, with 6 bytes between them for a legacy serial and 5 for a modern one; StringRoundTrip gives the round trip |
| SerialProps.DecodeErrors | main.go:326-333 | an error exactly when the length is neither 11 nor 12, and the MLB message exactly for length 17 |
| SerialProps.ParseAsWrittenVsDecode | main.go:543 | the parse as written panics at line 543 exactly when the model is unknown, and otherwise agrees with the corrected decoder |
| SerialProps.UnknownModelPanics | main.go:543 | W8840123ZZZ, whose model code is in no row, panics as written; corrected, it decodes with index -1 and an empty product name |
| SerialProps.DecodeShape | main.go:347-417 | a well-sized serial decodes; it is legacy exactly at length 11; and country, year, week and model are the expected slices of the input |
| SerialProps.BadSymbolInvalid | main.go:339-345 | one byte outside the alphabet makes the serial invalid |
| SerialProps.ValidRule | main.go:336-541 | a serial of valid length is reported valid exactly when every byte is a symbol, its date and line decode, and a positive year of a known model is one of the model's production years |
| SerialProps.DecodedWeekRange | main.go:485-488 | the decoded week is -1 or in 1..53 |
| SerialProps.LineFieldValid | main.go:526-537 | three valid line symbols decode to 68a + 34b + c |
| SerialProps.LineFieldInvalid | main.go:526-537 | one invalid line symbol makes the line field fail |
| SerialProps.DecodedLineAndCopy | main.go:519-541 | with valid line symbols, the line is 68a + 34b + c in 0..3399 and the copy is a minus lineToRmin of the line, in 0..a; otherwise the serial is invalid |
| SerialProps.StringRoundTrip | main.go:669-677 | when the line symbols are valid, Serial.String of the decoded serial gives back the input |
| SerialProps.LegacyDateRules | main.go:453-488 | the legacy year and week follow the digit rules; a bad year or week symbol clears validity |
| SerialProps.YearLetterSpec | main.go:425 | a year letter decodes exactly when it is in AppleYearReverse, to half its position |
| SerialProps.ModernYearRules | main.go:425-437 | the modern year is the 2020 or 2010 epoch plus the letter's digit, the epoch chosen by the model's first year or its first letter; an unknown letter clears validity |
| SerialProps.SentinelYear2019 | main.go:429-431 | for a model first made in 2017 or later, an unknown year letter (raw -1) still satisfies "raw < 7" and decodes to 2019 |
| SerialProps.WeekReverseDecodes | modelinfo.go:148-150 | the week symbol at position w decodes to w for w up to 26 and to w - 26 for 27..53 |
| SerialProps.WeekCarry | modelinfo.go:142-145 | the week carry of the i-th year letter is 26 for odd i and 0 for even i |
| SerialProps.WeekCarryOf | main.go:445-448 | the carry of any byte in the year position: 26 or 0 by the parity of a year letter's position, 0 for any other letter, -1 for a byte that is not a letter |
| SerialProps.ModernWeekRule | main.go:439-452 | for every byte in the year position, a positive week symbol value plus that byte's carry, added only when the decoded year is positive, clamped to 1..53, is the week; a week symbol without a value gives -1 and clears validity |
| SerialProps.SentinelWeekShift | main.go:429-448 | under the 2019 sentinel, a digit in the year position carries -1, so the week decodes one less than its symbol's value |
| SerialProps.SentinelWeekExample | main.go:429-448 | year byte 5 and week byte 3 for a model first made in 2017 decode to year 2019 and week 2 |
| SerialProps.LegacyExample | main_test.go:86 | W88401231AX decodes valid as legacy, year 2008, week 40, line 139 |
| SerialProps.ModernExample | main_test.go:88 | C02L13ECF8J2 decodes valid as modern, year 2013, week 27, line 692 |
| SerialProps.ModernExample2017 | main_test.go:96-104 | C02VCWY4HH27 decodes valid, year 2017, week 36, line 3132 |
| SerialProps.ModernExample2010 | main_test.go:87 | C02CG123DC79 decodes valid as modern, year 2010 from the letter C, since its model code starts below H, week 13, line 139, MacBookPro6,1 |
| SerialProps.ModernExampleImac142 | main_test.go:89 | C02LC1T5FLHH decodes valid as modern, year 2013, week 36, line 991, iMac14,2 |
| SerialProps.ModernExampleMbp111 | main_test.go:90 | C02LJ41LFH00 decodes valid as modern, year 2013, week 41, line 326, MacBookPro11,1 |
| SerialProps.ModernExampleMbp112 | main_test.go:91 | C02LJ6QSFD56 decodes valid as modern, year 2013, week 41, line 1250, MacBookPro11,2 |
| SerialProps.ModernExampleMacPro61 | main_test.go:92 | F5KLV0H8F693 decodes valid as modern, year 2013, week 50, line 586, MacPro6,1 |
| Encoder.CountryLen | main.go:565-573 | the supplied country's length, or, without one, 3 exactly for a 4-character model code and 2 otherwise |
| Encoder.ChosenCountry | main.go:565-584 | the supplied country, or a country of the chosen length |
| Encoder.ChosenYear | main.go:586-598 | the supplied year, or the model's production year when an index is given |
| Encoder.ZeroPlusByte | main.go:614-616 | `'0' + byte(v)` with the byte wrap-around: the digit of v for v up to 9 |
| Encoder.EncodeDateAsWritten | main.go:605-638 | the date text as written has one year byte, and two week bytes for legacy or one for modern; DatePanics and YearRangeErrors give its errors and panics |
| Encoder.EncodeDate | main.go:605-638 | the corrected date text has the same shape; EncodeDateAgree relates it to the code |
| Encoder.EncodeLineAsWritten | main.go:640-657 | the line text as written has three bytes; CopyError, CopyZeroPanics and CopyPanics give its errors and panics |
| Encoder.EncodeLine | main.go:640-657 | the corrected line text has three bytes; EncodeLineAgree relates it to the code |
| Encoder.GenerateAsWritten | main.go:549-667 | generateSerial as written, which GenerateSerial computes; GenerateAgrees and the panic lemmas are about it |
| Encoder.Generate | main.go:549-667 | the corrected generator; GeneratedLineRoundTrip, GeneratedDateRoundTrip, GeneratedYearRoundTrip and GeneratedValid are about it |
| Encoder.PickFields | main.go:551-603 | the choice of model, country, year and week equals its specification, panic at main.go:305 included |
| Encoder.RenderDate | main.go:606-638 | the year and week rendering equals its specification, range errors and panics included |
| Encoder.RenderLine | main.go:640-657 | the line rendering equals its specification, copy error and panics included |
| Encoder.GenerateSerial | main.go:549-667 | the whole generator equals the generator as written, with its errors and panics |
| EncoderProps.Base34SymbolIsTable | main.go:654-656 | the line symbol written out as its four runs (digits, A-H, J-N, P-Z) is the reverse base-34 table read at the same position, for every position 0..33 |
| EncoderProps.LineTextDecodes | main.go:654-657 | the three rendered line symbols are valid and decode back to the line |
| EncoderProps.LegacyDateDecodes | main.go:614-618 | the legacy year digit and the two week digits decode back to the year and week |
| EncoderProps.ModernDateDecodes | main.go:624-637 | the modern year letter decodes to the year's offset within its decade, and the week symbol plus the letter's carry gives the week back |
| EncoderProps.NoModelError | main.go:551-553 | the generator fails with "no model" exactly when neither an index nor a model code is given |
| EncoderProps.YearRangeErrors | main.go:610-622 | the legacy range error exactly for a 2-character country and a year outside 2003..2012; the modern one exactly for a year outside 2010..2030 |
| EncoderProps.DatePanics | main.go:629-634 | as written, rendering panics exactly for the modern year 2030 or a week past 53 |
| EncoderProps.CopyError | main.go:647-653 | the copy error exactly when a copy is given and 68 times the shifted first symbol exceeds the line |
| EncoderProps.LineWithoutCopy | main.go:640-657 | without a copy the line renders from lineToRmin |
| EncoderProps.CopyZeroPanics | main.go:648-657 | as written, a copy of 0 makes the first symbol -1 and panics at 655, or at 656 for a line past 1155 |
| EncoderProps.CopyPanics | main.go:648-657 | as written, a copy of 1 or more panics at 655 exactly when the first symbol reaches 34 without failing the copy check |
| EncoderProps.ChooseFieldsAgree | main.go:551-603 | the corrected choice agrees with the code off its panics, and reports an index past the database where the code panics |
| EncoderProps.EncodeDateAgree | main.go:606-638 | the corrected date rendering agrees with the code off its panics, and reports an error where the code panics |
| EncoderProps.EncodeLineAgree | main.go:640-657 | the corrected line rendering agrees with the code off its panics, and reports the unrepresentable line where the code panics |
| EncoderProps.GenerateAgrees | main.go:549-667 | the corrected generator agrees with the code off its panics, and returns an error that replaces each panic |
| EncoderProps.PrintedShape | main.go:660 | the printed serial has 11 or 12 bytes with each field at its offset |
| EncoderProps.GeneratedLineRoundTrip | main.go:640-666 | for any country of 2 or 3 characters, the generated serial is the decoding of its own text, Serial.String gives that text back, its model code, line and copy are the requested ones (the copy minus 1, or 0 without one), and it is legacy exactly for a 3-character model code; when the country and model code fit one format, the country comes back too and the format is the country's |
| EncoderProps.PrintedLineAt | main.go:660 | a printed serial with a 2- or 3-character country and a date of its format has the line at byte 5 and the model code from byte 8, whatever the model code |
| EncoderProps.MismatchedFormatExample | main.go:565-584 | country C02 with model code 1AX generates an 11-byte serial that decodes as legacy with country C0, model 1AX and its line 100 |
| EncoderProps.GeneratedDateRoundTrip | main.go:606-666 | the generated serial decodes to the requested week when it is in 1..53, to the requested legacy year, and to a modern year's offset within its decade added to the decade the decoder's epoch rule selects |
| EncoderProps.GeneratedYearRoundTrip | main.go:624-627 | a legacy year always comes back; a modern year comes back exactly when the decoder's epoch rule selects the 2020s exactly for a requested year from 2020 on |
| EncoderProps.DecadeMismatchExample | main.go:624-627 | year 2012, week 10, line 100 for F8J2, a model first made in 2017, generates a serial that decodes to 2022 |
| EncoderProps.GeneratedValid | main.go:660-666 | for a week in 1..53, a generated serial is reported valid exactly when its country and model code are serial symbols and its decoded year is a production year of its model, or the model is unknown |
| EncoderProps.DateTextDecodes | main.go:606-638 | the rendered date is made of serial symbols and always decodes: a legacy digit year with two week digits, or a modern year letter with a week symbol of positive value |
| EncoderProps.EncodedLineText | main.go:640-657 | a successful line rendering is the line text of its first symbol, with the first symbol in 0..33 and the others in range |
| EncoderProps.PrintedValid | main.go:336-541 | a printed serial whose date decodes and whose line is a line text is valid exactly when its country and model code are symbols and its year passes the production-year test |
| EncoderProps.PrintedSymbols | main.go:336-345 | the alphabet test of a printed serial holds exactly when it holds for each of its five parts |
| EncoderProps.LegacyDateBack | main.go:614-618 | a serial carrying the rendered legacy date decodes back to its year and week |
| EncoderProps.ModernDateBack | main.go:624-637 | a serial carrying the rendered modern date decodes to the year's offset within its decade, added to the decade the epoch rule selects, and to its week when it is in 1..53 |
| EncoderProps.Year2030Panics | main.go:629-632 | as written, year 2030 with a 4-character model panics at 632; corrected, it is a range error |
| EncoderProps.CopyPastTablePanics | main.go:647-657 | as written, line 3399 with copy 2 panics at 655; corrected, the line is reported unrepresentable |
| EncoderProps.IndexPastDatabasePanics | main.go:294-305 | as written, an index past a one-model database panics at 305; corrected, it is reported |
| Mlb.ByteOffset | main.go:724-725 | the uint8 difference from '0': the digit's value for a digit, 10 or more for any other byte |
| Mlb.RawMlbDate | main.go:715-753 | the year and week counters before the step back, read legacy exactly for a 2-character country; MlbWeekVsSerialWeek relates them to the decoded serial |
| Mlb.AttemptOf | main.go:714-803 | the outcome of one attempt, which MlbAttempt computes; AttemptResults states it |
| Mlb.Decimal | main.go:790 | %d prints at least one digit; DecimalRoundTrip gives the round trip |
| Mlb.Pad2 | main.go:790 | %02d prints at least two digits, exactly two below 100; Pad2RoundTrip gives the round trip |
| Mlb.RuneBytes | main.go:757 | %c of a byte prints one or two bytes; RuneBytesRoundTrip states which |
| Mlb.ModernMlbWeek | main.go:739-753 | the raw week of the MLB is at most 27 + 29 |
| Mlb.StepBack | main.go:761-772 | week 1 steps back to week 53 of the previous year digit (9 before 0); any other week decreases by one, 0 wrapping to 0xFFFFFFFF |
| Mlb.DefaultIndex | main.go:710-713 | an unknown model is taken to be the last model of the database |
| Mlb.LegacyCode | main.go:779-786 | a seed of at least 1,000,000 renders three symbols |
| Mlb.ReadModernDate | main.go:727-753 | the three table scans return the year digit and raw week of the specification |
| Mlb.StepBackCounters | main.go:761-772 | the counter update is StepBack |
| Mlb.ReadCounters | main.go:715-772 | the counters of an attempt give up exactly when a modern serial's raw week is below 1 (FAIL-ZERO), and otherwise are the raw year digit and week stepped back once |
| Mlb.PrintAndCheck | main.go:774-802 | printing the candidate and checking it gives the specified outcome of the attempt |
| Mlb.MlbAttempt | main.go:708-803 | one attempt defaults an unknown model to the last one and ends as specified: FAIL-ZERO, a checked MLB, a checksum retry, or a seed retry |
| MlbProps.AttemptResults | main.go:754-802 | FAIL-ZERO followed by the week byte when the modern week is below 1; any other returned string is the candidate and passes the checksum; a retry is a rejected candidate, or for a legacy serial a seed below 1,000,000 |
| MlbProps.ZeroSeedRetries | main.go:781-786 | for a legacy serial, a seed draw of 0 never satisfies getAscii7, so the inner loop draws again |
| MlbProps.MlbYearAgrees | main.go:730-737 | the MLB year digit is the year digit the serial decoder reads, 0 for an unknown letter |
| MlbProps.OverridesShape | main.go:739 | the override letters are exactly the odd-position letters of AppleYearReverse |
| MlbProps.OverridesAreCarryLetters | main.go:739-745 | a letter is an override exactly when its week carry in AppleTblWeekAdd is 26 |
| MlbProps.WeekSourceLetters | main.go:747 | the letters of the MLB week table hold S and Z, which the serial week table blacklists, and map as AppleTblWeek does otherwise |
| MlbProps.WeekLettersCovered | main.go:747 | every letter the serial week table accepts is in the MLB week table |
| MlbProps.MlbWeekSymbol | main.go:747-753 | a valid week symbol's MLB position plus 1 is its serial week value, plus 1 for the letters from T on because S sits before them |
| MlbProps.MlbWeekVsSerialWeek | main.go:739-753 | the MLB year digit is the serial's, and the MLB raw week is the serial's unclamped decoded week plus 1 for a second-half year letter (27 against a carry of 26) and plus 1 for a week letter from T on |
| MlbProps.FailZeroRule | main.go:754-758 | FAIL-ZERO exactly when the year letter is no override and the week byte is not in the MLB week table; never for a valid week symbol |
| MlbProps.StepBackRange | main.go:761-772 | from a raw date in range the step back stays in year 0..9, week 1..55 |
| MlbProps.LegacyWeekZeroWraps | main.go:725-790 | a legacy week "00" steps back to 0xFFFFFFFF, which prints as the 10 digits of 4294967295 |
| MlbProps.DecimalRoundTrip | main.go:790 | %d prints digits that read back as the number |
| MlbProps.Pad2RoundTrip | main.go:790 | %02d of a number below 100 prints two digits that read back as the number |
| MlbProps.RuneBytesRoundTrip | main.go:757 | %c of a byte is the byte below 0x80 and its 2-byte UTF-8 encoding otherwise |
| MlbProps.ModernCandidateShape | main.go:792-796 | a modern candidate has 13 bytes plus the board code: country, the year digit, two week digits, then the blocks |
| MlbProps.LegacyCandidateFields | main.go:787-790 | a legacy candidate has 10 bytes plus the board code: country, year digit, two week digits, "0", the code |
| MlbProps.LegacyCandidateShape | main.go:779-790 | for digit year and week bytes other than "00", the candidate carries the decoded year and the week stepped back |
| MlbProps.ModernAttemptDate | main.go:727-772 | a modern serial with a valid year letter and week symbol never fails with FAIL-ZERO; its MLB week is that raw week less one in the same year digit, or week 53 of the year digit before when the raw week is 1 |
| Derivatives.EmittedKeys | main.go:1135-1137 | the keys the loop emits are first symbols below 34 that carry the line |
| Derivatives.ListingAsWritten | main.go:1135-1143 | the derivative listing as written, which ListDerivatives computes; ModernDerivativeHasNul is about it |
| Derivatives.Listing | main.go:1135-1143 | the corrected listing, printed as Serial.String prints; ListingShape and ListingRoundTrip are about it |
| Derivatives.ListDerivatives | main.go:1134-1142 | the loop over the 34 first symbols produces the listing of the specification |
| Derivatives.EmitsRange | main.go:1135-1137 | a first symbol carries the line exactly when it lies in lineToRmin(line) up to the ceiling of line / 68 |
| Derivatives.KeysConsecutive | main.go:1134-1137 | the emitted keys are consecutive from lineToRmin(line) |
| Derivatives.ListingShape | main.go:1134-1142 | one derivative per emitted key, with copies 1, 2, 3, …; at least one for a line of 1..3399 and none for a line of 0 or less |
| Derivatives.ModernDerivativeHasNul | main.go:1139-1140 | as written, every derivative of a modern serial has 13 bytes with a NUL at position 5, so the parser rejects it for its length |
| Derivatives.NulDerivativeExample | main.go:1139-1141 | C02L13ECF8J2 lists 11 derivatives; as written the first is C02L1, NUL, 0LCF8J2; corrected it is C02L10LCF8J2 |
| Derivatives.DerivativeText | main.go:669-677 | for any serial that parses, a corrected derivative is the serial's text with only its line symbols replaced |
| Derivatives.DerivativeRoundTrip | main.go:1129-1140 | for any serial that parses, even with bad line symbols (its line is then the partial sum), a corrected derivative decodes to the same country, year, week, model and line, with its copy one less than the printed copy |
| Derivatives.ListingRoundTrip | main.go:1129-1142 | for any serial that parses, every corrected derivative parses, decodes to the serial's line, and has copy i for the i-th entry |

## Left out

- Random draws (main.go:145-176): the OS random generator is replaced by explicit parameters. These are the production-year draw, a week in 1..51 (the draw is half-open), a line in 0..3398, the MLB seed draw in [0, 0x7FFE) (with the uint32 wrap of `* 0x73BA1C` written out), the legacy suffix and the three block indices.
- The retry loops of `Serial.MLB` (main.go:714, main.go:781): the model covers one attempt. A checksum failure ends in `ChecksumRetry`, and a failing seed in `SeedRetry`. Whether sampling ever ends is a property of the random generator.
- `WeekStart` and `WeekEnd` (main.go:503-516): date normalisation and formatting belong to Go's time library.
- Output: the warnings, `Print`, `usage`, `main`'s flags, and the " - copy %d" text of the derivative listing. The printed copy number is kept as a field.
- The printing branches of `getProductionYear`, `getModelCode` and `getBoardCode`.
- The model database: its file is not part of this model. It is a `ModelDatabase` parameter whose `Valid` predicate states the shape the code relies on.
- `generateROM`, `AppleRomPrefix` and the UUID: a random MAC address pick and a library call.
- iokit.go and iokit_nonmac.go: they read the platform's registry.
- Go `int` arithmetic is taken as unbounded. The values involved stay far below 2^63.
- Encoder.Generate: rejects the modern year 2030 and modern weeks past 53, which the code turns into panics. It does not range-check a legacy week, just as the code does not. So a legacy week past 99 prints non-digit bytes, as written.
- EncoderProps.GeneratedLineRoundTrip: the country, and with it the date, comes back only when the country and the model code fit one format. generateSerial accepts a 3-character country with a 3-character model code, or a 2-character country with a 4-character one, and prints a serial whose length follows the model code. The decoder then cuts the country and date where that length puts them (EncoderProps.MismatchedFormatExample). The model keeps this as the code has it, and EncoderProps.GeneratedDateRoundTrip, EncoderProps.GeneratedYearRoundTrip and EncoderProps.GeneratedValid state the date and validity only for fitting formats.
- EncoderProps.GeneratedDateRoundTrip: a modern year comes back only as its offset within a decade. The encoder and the decoder choose the decade by different rules, so the requested year comes back exactly when they agree (EncoderProps.GeneratedYearRoundTrip, EncoderProps.DecadeMismatchExample). The model keeps both rules as the code has them. A corrected encoder would need the decoder's epoch rule, and the code gives no sign of which rule is intended.
- SerialProps.SentinelWeekShift: under the 2019 sentinel the week carry of a digit is -1, so the week decodes one less. The model keeps this as the code has it. It follows from the sentinel year, whose intended meaning the code does not state.
- Mlb.MlbAttempt: the MLB does not re-encode the serial's decoded week. Its week table holds S and Z, which the serial week table lacks, so letters from T on count one week more. Second-half year letters add 27 where the decoder adds 26. The model keeps both as the code has them (MlbProps.MlbWeekVsSerialWeek) rather than treating them as findings, because the code is documented as a copy of another tool's algorithm.

## Findings

| source | as written | input that shows it | evidently intended | confidence | as-written member | corrected member |
|---|---|---|---|---|---|---|
| main.go:543 | reads the platform table at index -1 when the model is unknown | W8840123ZZZ with a database that does not list ZZZ | an unknown model leaves the product name empty | not executed | SerialProps.UnknownModelPanics | SerialProps.ParseAsWrittenVsDecode |
| main.go:629-632 | indexes the 20-letter year table at 20 or 21 for year 2030 | year 2030, week 10, model F8J2 | 2030 rejected like any other out-of-range year | not executed | EncoderProps.Year2030Panics | EncoderProps.GenerateAgrees |
| main.go:647-657 | a supplied copy can push the first line symbol to 34 or more | line 3399, copy 2 | the line reported as not representable | not executed | EncoderProps.CopyPastTablePanics | EncoderProps.EncodeLineAgree |
| main.go:294-305 | a model index past the database panics in getModelCode | index 1 with a one-model database | the index reported as out of range | not executed | EncoderProps.IndexPastDatabasePanics | EncoderProps.ChooseFieldsAgree |
| main.go:1139-1140 | prints both week bytes, so a modern derivative carries a NUL and has 13 bytes | C02L13ECF8J2 | derivatives printed as Serial.String prints them, so they parse back | not executed | Derivatives.ModernDerivativeHasNul | Derivatives.ListingRoundTrip |
