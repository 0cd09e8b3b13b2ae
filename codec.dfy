/** Symbol codecs of the serial number: letter tables with blacklists, the modified
    base 34 of the line field, the copy offset of a line value, the base-34 rendering
    used for legacy MLBs, and the MLB checksum. */
module Codec {
  import opened Tables
  import opened Outcomes

  type Uint32 = x: int | 0 <= x < 0x1_0000_0000

  const SERIAL_WEEK_MIN := 1
  const SERIAL_WEEK_MAX := 53
  const SERIAL_LINE_REPR_MAX := 1155
  const SERIAL_LINE_MAX := 3399

  predicate IsDigit(c: Byte) { '0' <= c <= '9' }
  predicate IsUpper(c: Byte) { 'A' <= c <= 'Z' }

  /** Value of a decimal digit. */
  function DigitValue(c: Byte): (d: int)
    requires IsDigit(c)
    ensures 0 <= d <= 9
  {
    c as int - '0' as int
  }

  /** The digit character of 0..9, the inverse of DigitValue. */
  function DigitByte(d: int): (c: Byte)
    requires 0 <= d <= 9
    ensures IsDigit(c) && DigitValue(c) == d
  {
    ('0' as int + d) as char
  }

  // ---------------------------------------------------------------------------
  // Letter tables (main.go:186-198)

  /** The value of letter `c` in the 26-entry table `conv`; -1 for anything that is not
      an upper-case letter and for the letters listed in `blacklist`. */
  function AlphaToValue(c: Byte, conv: seq<int>, blacklist: Bytes): (v: int)
    requires |conv| == 26
    ensures IsUpper(c) && c !in blacklist ==> v == conv[c as int - 'A' as int]
    ensures !IsUpper(c) || c in blacklist ==> v == -1
  {
    if !IsUpper(c) then -1
    else if c in blacklist then -1
    else conv[c as int - 'A' as int]
  }

  // ---------------------------------------------------------------------------
  // Modified base 34 (main.go:200-212)

  /** The value of a base-34 symbol times `mul`, or -1; see SymbolValueSpec. */
  function Base34ToValue(c: Byte, mul: int): int
  {
    if IsDigit(c) then
      DigitValue(c) * mul
    else if IsUpper(c) then
      var tmp := AlphaToValue(c, AppleTblBase34, AppleBase34Blacklist);
      if tmp >= 0 then tmp * mul else -1
    else -1
  }

  /** Base34ToValue and the reverse alphabet are inverse: the symbol at position `d` is
      worth `d * mul`. */
  lemma Base34RoundTrip(mul: int)
    ensures forall d :: 0 <= d < |AppleBase34Reverse| ==> Base34ToValue(AppleBase34Reverse[d], mul) == d * mul
  {
  }

  /** Every byte outside the reverse alphabet, I and O included, is rejected with -1. */
  lemma Base34Rejects(c: Byte, mul: int)
    requires c !in AppleBase34Reverse
    ensures Base34ToValue(c, mul) == -1
  {
    Base34ReverseShape();
    Base34TableInverse();
  }

  /** The value of a base-34 symbol, or -1. */
  function SymbolValue(c: Byte): int
  {
    Base34ToValue(c, 1)
  }

  /** SymbolValue is the position in the reverse alphabet, and -1 exactly outside it;
      Base34ToValue is that position times the weight. */
  lemma SymbolValueSpec(c: Byte, mul: int)
    ensures SymbolValue(c) == -1 <==> c !in AppleBase34Reverse
    ensures SymbolValue(c) >= 0 ==> SymbolValue(c) < 34 && AppleBase34Reverse[SymbolValue(c)] == c
    ensures Base34ToValue(c, mul) == if c in AppleBase34Reverse then SymbolValue(c) * mul else -1
  {
    if c in AppleBase34Reverse {
      var d :| 0 <= d < |AppleBase34Reverse| && AppleBase34Reverse[d] == c;
      Base34RoundTrip(1);
      Base34RoundTrip(mul);
    } else {
      Base34Rejects(c, 1);
      Base34Rejects(c, mul);
    }
  }

  /** The test vector of the line field "WY4" with weights 68, 34 and 1. */
  lemma Base34Examples()
    ensures Base34ToValue('W', 68) == 2040
    ensures Base34ToValue('Y', 34) == 1088
    ensures Base34ToValue('4', 1) == 4
    ensures Base34ToValue('I', 1) == -1 && Base34ToValue('O', 1) == -1 && Base34ToValue('a', 1) == -1
  {
  }

  /** The test vector of the year table: 'V' is year 7 of its decade. */
  lemma AlphaToValueExample()
    ensures AlphaToValue('V', AppleTblYear, AppleYearBlacklist) == 7
  {
  }

  // ---------------------------------------------------------------------------
  // Copy offset of a line value (main.go:214-223)

  /** The smallest first line symbol that can still represent `line`: 0 up to 1155,
      and ceil((line - 1155) / 68) above, so `line - 68 * r` never exceeds 1155 and
      `r` is the least such value. */
  function LineToRmin(line: int): (r: int)
    ensures r >= 0
    ensures line - 68 * r <= SERIAL_LINE_REPR_MAX
    ensures r > 0 ==> line - 68 * (r - 1) > SERIAL_LINE_REPR_MAX
  {
    if line > SERIAL_LINE_REPR_MAX then (line - SERIAL_LINE_REPR_MAX + 67) / 68 else 0
  }

  lemma LineToRminExamples()
    ensures LineToRmin(0) == 0 && LineToRmin(1155) == 0 && LineToRmin(1156) == 1
    ensures LineToRmin(1223) == 1 && LineToRmin(1224) == 2 && LineToRmin(SERIAL_LINE_MAX) == 33
  {
  }

  // ---------------------------------------------------------------------------
  // Base-34 rendering for legacy MLBs (main.go:225-251)

  /** `value` divided by 10 until it no longer exceeds 10,000,000. */
  function Reduce(value: nat): (r: nat)
    decreases value
    ensures r <= value && r <= 10000000
    ensures value <= 10000000 ==> r == value
    ensures value >= 1000000 ==> r >= 1000000
  {
    if value > 10000000 then Reduce(value / 10) else value
  }

  /** The base-34 numeral of `v`, most significant symbol first, without leading zeros. */
  function Base34Digits(v: nat): (r: Bytes)
    decreases v
    ensures 1 <= |r|
  {
    if v < 34 then [AppleBase34Reverse[v]] else Base34Digits(v / 34) + [AppleBase34Reverse[v % 34]]
  }

  /** The value of a base-34 numeral, most significant symbol first. */
  function Base34Value(s: Bytes): int
  {
    if |s| == 0 then 0 else Base34Value(s[..|s| - 1]) * 34 + SymbolValue(s[|s| - 1])
  }

  /** Rendering a value in base 34 and reading it back gives the value. */
  lemma {:induction false} Base34DigitsRoundTrip(v: nat)
    ensures Base34Value(Base34Digits(v)) == v
  {
    var r := Base34Digits(v);
    Base34RoundTrip(1);
    if v < 34 {
      assert r[..0] == [];
    } else {
      Base34DigitsRoundTrip(v / 34);
      assert r[..|r| - 1] == Base34Digits(v / 34);
    }
  }

  /** Every symbol of a rendering is drawn from the reverse alphabet. */
  lemma {:induction false} Base34DigitsAlphabet(v: nat)
    ensures forall i :: 0 <= i < |Base34Digits(v)| ==> Base34Digits(v)[i] in AppleBase34Reverse
  {
    if v >= 34 { Base34DigitsAlphabet(v / 34); }
  }

  /** The number of base-34 symbols of `v`: one more for every factor 34. */
  function Base34Length(v: nat): nat
    decreases v
  {
    if v < 34 then 1 else 1 + Base34Length(v / 34)
  }

  lemma {:induction false} Base34DigitsLength(v: nat)
    ensures |Base34Digits(v)| == Base34Length(v)
  {
    if v >= 34 { Base34DigitsLength(v / 34); }
  }

  /** A reduced value has 4 or 5 base-34 symbols; 4 exactly below 34^4 = 1336336. */
  lemma Ascii7Length(v: nat)
    requires 1000000 <= v <= 10000000
    ensures |Base34Digits(v)| == (if v < 1336336 then 4 else 5)
  {
    Base34DigitsLength(v);
    Base34DigitsLength(v / 34);
    Base34DigitsLength(v / 34 / 34);
    Base34DigitsLength(v / 34 / 34 / 34);
    Base34DigitsLength(v / 34 / 34 / 34 / 34);
  }

  datatype Ascii7Error = InvalidValueArgument

  /** getAscii7: fails exactly when `value` is below 1,000,000; otherwise the first `size`
      base-34 symbols of the value reduced into [1e6, 1e7]. Go slices a 14-byte buffer, so
      `size` may not exceed the number of symbols. */
  method GetAscii7(value: Uint32, size: nat) returns (r: Result<Bytes, Ascii7Error>)
    requires value < 1000000 || size <= |Base34Digits(Reduce(value))|
    ensures r.Err? <==> value < 1000000
    ensures r.Ok? ==> r.value == Base34Digits(Reduce(value))[..size]
  {
    if value < 1000000 {
      return Err(InvalidValueArgument);
    }
    var v: nat := value;
    while v > 10000000
      invariant Reduce(v) == Reduce(value)
      decreases v
    {
      v := v / 10;
    }
    ghost var digits := Base34Digits(v);
    Ascii7Length(v);
    var ret := new Byte[14](_ => 0 as char);
    var offset := 13;
    while true
      invariant 0 <= offset <= 13 && v >= 1
      invariant Base34Digits(v) + ret[offset + 1..] == digits
      decreases v
    {
      ret[offset] := AppleBase34Reverse[v % 34];
      assert ret[offset..] == [ret[offset]] + ret[offset + 1..];
      if v < 34 {
        v := v / 34;
        break;
      }
      ghost var w := v;
      v := v / 34;
      assert Base34Digits(w) == Base34Digits(v) + [ret[offset]];
      assert |Base34Digits(v)| >= 1;
      offset := offset - 1;
    }
    assert ret[offset..] == digits;
    return Ok(ret[offset..offset + size]);
  }

  /** The test vector: 0x73BA1C * 10 renders as "5NY". */
  lemma GetAscii7Example()
    ensures Reduce(0x73BA1C * 10) == 7584284
    ensures Base34Digits(Reduce(0x73BA1C * 10))[..3] == "5NY"
  {
    assert Reduce(0x73BA1C * 10) == 7584284;
    assert Base34Digits(5) == "5";
    assert Base34Digits(192) == Base34Digits(5) + "N";
    assert Base34Digits(6560) == Base34Digits(192) + "Y";
    assert Base34Digits(223067) == Base34Digits(6560) + "T";
    assert Base34Digits(7584284) == Base34Digits(223067) + "6";
  }

  /** The seed of a legacy MLB: a random value in [0, 0x7FFE) times 0x73BA1C, with the
      uint32 wrap-around of Go's multiplication. */
  function Ascii7Seed(pick: int): (v: Uint32)
    requires 0 <= pick < 0x7FFE
  {
    (pick * 0x73BA1C) % 0x1_0000_0000
  }

  // ---------------------------------------------------------------------------
  // MLB checksum (main.go:253-271)

  const MlbAlphabet: Bytes := "0123456789ABCDEFGHJKLMNPQRSTUVWXYZ"

  /** The position of a symbol in the checksum alphabet is its base-34 value, and the
      symbols outside the alphabet are exactly those whose value is -1. */
  lemma AlphabetPosition(c: Byte, j: int)
    ensures MlbAlphabet == AppleBase34Reverse
    ensures 0 <= j < |MlbAlphabet| && MlbAlphabet[j] == c ==> SymbolValue(c) == j
    ensures c !in MlbAlphabet <==> SymbolValue(c) == -1
  {
    assert MlbAlphabet == AppleBase34Reverse;
    SymbolValueSpec(c, 1);
    Base34RoundTrip(1);
  }

  /** Weight of position `i` in a string of length `n`: 3 where the parities agree, else 1. */
  function Weight(i: int, n: int): int
    requires 0 <= i && 0 <= n
  {
    if i % 2 == n % 2 then 3 else 1
  }

  /** What position `i` adds to the checksum; symbols outside the alphabet add nothing. */
  function Contribution(mlb: Bytes, i: int): int
    requires 0 <= i < |mlb|
  {
    var j := SymbolValue(mlb[i]);
    if j < 0 then 0 else Weight(i, |mlb|) * j
  }

  /** The checksum accumulated over the first `n` positions. */
  function ChecksumSum(mlb: Bytes, n: nat): (sum: int)
    requires n <= |mlb|
    ensures sum >= 0
  {
    if n == 0 then 0 else ChecksumSum(mlb, n - 1) + Contribution(mlb, n - 1)
  }

  predicate ChecksumValid(mlb: Bytes) {
    ChecksumSum(mlb, |mlb|) % |MlbAlphabet| == 0
  }

  /** VerifyMLBChecksum: the parity-weighted sum of alphabet positions is a multiple of 34. */
  method VerifyMLBChecksum(mlb: Bytes) returns (ok: bool)
    ensures ok == ChecksumValid(mlb)
  {
    var alphabet := MlbAlphabet;
    var checksum := 0;
    var mlbLen := |mlb|;
    var i := 0;
    while i < mlbLen
      invariant 0 <= i <= mlbLen
      invariant checksum == ChecksumSum(mlb, i)
    {
      var j := 0;
      while j < |alphabet|
        invariant 0 <= j <= |alphabet|
        invariant forall k :: 0 <= k < j ==> alphabet[k] != mlb[i]
      {
        if mlb[i] == alphabet[j] {
          if i % 2 == mlbLen % 2 {
            checksum := checksum + 3 * j;
          } else {
            checksum := checksum + 1 * j;
          }
          break;
        }
        j := j + 1;
      }
      AlphabetPosition(mlb[i], j);
      i := i + 1;
    }
    ok := checksum % |alphabet| == 0;
  }

  // The checksum of the first 16 positions of the test vectors, where they agree,
  // accumulated a few positions at a time.
  lemma ChecksumPrefix6(mlb: Bytes)
    requires mlb == "C02443500KZG2QDA7" || mlb == "C02443500KZG2QDA8"
    ensures ChecksumSum(mlb, 6) == 39
  {
    assert ChecksumSum(mlb, 1) == 12;
    assert ChecksumSum(mlb, 2) == 12;
    assert ChecksumSum(mlb, 3) == 14;
    assert ChecksumSum(mlb, 4) == 26;
    assert ChecksumSum(mlb, 5) == 30;
  }

  lemma ChecksumPrefix11(mlb: Bytes)
    requires mlb == "C02443500KZG2QDA7" || mlb == "C02443500KZG2QDA8"
    ensures ChecksumSum(mlb, 11) == 134
  {
    ChecksumPrefix6(mlb);
    assert ChecksumSum(mlb, 7) == 44;
    assert ChecksumSum(mlb, 8) == 44;
    assert ChecksumSum(mlb, 9) == 44;
    assert ChecksumSum(mlb, 10) == 101;
  }

  lemma ChecksumPrefix16(mlb: Bytes)
    requires mlb == "C02443500KZG2QDA7" || mlb == "C02443500KZG2QDA8"
    ensures ChecksumSum(mlb, 16) == 299
  {
    ChecksumPrefix11(mlb);
    assert ChecksumSum(mlb, 12) == 182;
    assert ChecksumSum(mlb, 13) == 184;
    assert ChecksumSum(mlb, 14) == 256;
    assert ChecksumSum(mlb, 15) == 269;
  }

  /** The test vectors: "C02443500KZG2QDA7" passes and the same string ending in 8 fails. */
  lemma ChecksumExamples(mlb: Bytes)
    requires mlb == "C02443500KZG2QDA7" || mlb == "C02443500KZG2QDA8"
    ensures ChecksumValid(mlb) <==> mlb[16] == '7'
  {
    ChecksumPrefix16(mlb);
    assert ChecksumSum(mlb, 17) == if mlb[16] == '7' then 306 else 307;
  }

  /** Changing the symbol at position `i` changes the sum by the difference of the two
      contributions at `i`, and leaves every other position's contribution alone. */
  lemma {:induction false} ChecksumSumUpdate(mlb: Bytes, i: nat, c: Byte, n: nat)
    requires i < |mlb| && n <= |mlb|
    ensures ChecksumSum(mlb[i := c], n) ==
      ChecksumSum(mlb, n) + (if i < n then Contribution(mlb[i := c], i) - Contribution(mlb, i) else 0)
  {
    if n > 0 {
      ChecksumSumUpdate(mlb, i, c, n - 1);
    }
  }

  /** A weight 1 or 3 times a non-zero difference of two base-34 values is never a
      multiple of 34. */
  lemma WeightedDifferenceNotMultiple(w: int, a: int, b: int)
    requires w == 1 || w == 3
    requires 0 <= a < 34 && 0 <= b < 34 && a != b
    ensures (w * (a - b)) % 34 != 0
  {
  }

  /** Adding a multiple of 34 leaves the remainder modulo 34 unchanged. */
  lemma MultipleShift(s: int, x: int)
    requires s % 34 == 0
    ensures (s + x) % 34 == x % 34
  {
    var k := s / 34;
    assert s == 34 * k;
  }

  /** Two different symbols of the alphabet have two different values in 0..33. */
  lemma DistinctSymbols(c: Byte, d: Byte)
    requires c in MlbAlphabet && d in MlbAlphabet && c != d
    ensures 0 <= SymbolValue(c) < 34 && 0 <= SymbolValue(d) < 34
    ensures SymbolValue(c) != SymbolValue(d)
  {
    AlphabetPosition(c, 0);
    AlphabetPosition(d, 0);
    SymbolValueSpec(c, 1);
    SymbolValueSpec(d, 1);
  }

  /** Every single substitution of one alphabet symbol by another in a string that passes
      the checksum makes it fail: both weights 1 and 3 are prime to 34. */
  lemma SubstitutionDetected(mlb: Bytes, i: nat, c: Byte)
    requires ChecksumValid(mlb) && i < |mlb|
    requires mlb[i] in MlbAlphabet && c in MlbAlphabet && c != mlb[i]
    ensures !ChecksumValid(mlb[i := c])
  {
    var a, b := SymbolValue(c), SymbolValue(mlb[i]);
    var w := Weight(i, |mlb|);
    var s := ChecksumSum(mlb, |mlb|);
    assert 0 <= a < 34 && 0 <= b < 34 && a != b by {
      DistinctSymbols(c, mlb[i]);
    }
    var x := w * (a - b);
    var s' := ChecksumSum(mlb[i := c], |mlb|);
    assert s' == s + x by {
      ChecksumSumUpdate(mlb, i, c, |mlb|);
    }
    assert (s + x) % 34 != 0 by {
      assert s % 34 == 0;
      WeightedDifferenceNotMultiple(w, a, b);
      MultipleShift(s, x);
    }
    assert |MlbAlphabet| == 34 && |mlb[i := c]| == |mlb|;
  }

  /** A byte outside the alphabet is skipped: the sum is as if it were the symbol '0'. */
  lemma SkippedSymbolCountsAsZero(mlb: Bytes, i: nat)
    requires i < |mlb| && mlb[i] !in MlbAlphabet
    ensures ChecksumSum(mlb[i := '0'], |mlb|) == ChecksumSum(mlb, |mlb|)
    ensures ChecksumValid(mlb[i := '0']) == ChecksumValid(mlb)
  {
    AlphabetPosition(mlb[i], 0);
    Base34RoundTrip(1);
    ChecksumSumUpdate(mlb, i, '0', |mlb|);
  }

  /** The 'O' of the MLB block "OP" is such a skipped byte. */
  lemma BlockLetterOSkipped()
    ensures MLBBlock2[4][0] == 'O' && 'O' !in MlbAlphabet
  {
  }
}
