/** The derivative listing of the -d option: for a parsed serial, every serial that
    differs from it only in the line field and decodes to the same production line, one
    for each first line symbol k that can still carry the line, with its copy number.
    The listing as written prints the two week bytes of a modern serial, the second of
    which is NUL; the corrected listing prints the serial as Serial.String does. */
module Derivatives {
  import opened Tables
  import opened Outcomes
  import opened Codec
  import opened ModelDb
  import opened Serials
  import opened SerialProps
  import opened Encoder
  import opened EncoderProps

  /** The number of first line symbols tried: the size of the base-34 alphabet. */
  const DERIV_SYMBOLS := 34

  /** One printed derivative: the serial and its copy number. */
  datatype Derivative = Derivative(serial: Bytes, copy: int)

  /** First symbol `k` carries `line` when the rest of the line is positive and fits two
      base-34 symbols. */
  predicate Emits(line: int, k: int) {
    line > k * 68 && line - k * 68 <= SERIAL_LINE_REPR_MAX
  }

  /** The line symbols for first symbol `k`. */
  function DerivLine(line: int, k: int): (t: Bytes)
    requires 0 <= k < DERIV_SYMBOLS && Emits(line, k)
    ensures |t| == 3
  {
    LineText(k, line)
  }

  /** The copy number printed for first symbol `k`. */
  function DerivCopy(line: int, k: int): int {
    k - LineToRmin(line) + 1
  }

  /** As written: country, the year byte, both week bytes, the line symbols, the model. */
  function DerivativeAsWritten(s: Serial, k: int): Derivative
    requires 0 <= k < DERIV_SYMBOLS && Emits(s.decodedLine, k)
  {
    Derivative(s.country + [s.year] + s.week + DerivLine(s.decodedLine, k) + s.model,
               DerivCopy(s.decodedLine, k))
  }

  /** Corrected: the serial with its line field replaced, printed as Serial.String does. */
  function DerivativeOf(s: Serial, k: int): Derivative
    requires 0 <= k < DERIV_SYMBOLS && Emits(s.decodedLine, k)
  {
    Derivative(SerialString(s.(line := DerivLine(s.decodedLine, k))), DerivCopy(s.decodedLine, k))
  }

  /** The first symbols below `n` that carry `line`, ascending. */
  function EmittedKeys(line: int, n: nat): (ks: seq<int>)
    requires n <= DERIV_SYMBOLS
    ensures forall i :: 0 <= i < |ks| ==> 0 <= ks[i] < n && Emits(line, ks[i])
  {
    if n == 0 then [] else EmittedKeys(line, n - 1) + (if Emits(line, n - 1) then [n - 1] else [])
  }

  /** The as-written listing of the loop over the first `n` symbols. */
  function ListingAsWritten(s: Serial, n: nat): seq<Derivative>
    requires n <= DERIV_SYMBOLS
  {
    if n == 0 then [] else ListingAsWritten(s, n - 1) + EntryAsWritten(s, n - 1)
  }

  /** What pass `k` of the loop adds, as written: one derivative or nothing. */
  function EntryAsWritten(s: Serial, k: nat): seq<Derivative>
    requires k < DERIV_SYMBOLS
  {
    if Emits(s.decodedLine, k) then [DerivativeAsWritten(s, k)] else []
  }

  /** The corrected listing of the loop over the first `n` symbols. */
  function Listing(s: Serial, n: nat): seq<Derivative>
    requires n <= DERIV_SYMBOLS
  {
    if n == 0 then [] else Listing(s, n - 1) + Entry(s, n - 1)
  }

  /** What pass `k` of the corrected loop adds: one derivative or nothing. */
  function Entry(s: Serial, k: nat): seq<Derivative>
    requires k < DERIV_SYMBOLS
  {
    if Emits(s.decodedLine, k) then [DerivativeOf(s, k)] else []
  }

  /** The loop of the -d option, as written. */
  method ListDerivatives(s: Serial) returns (out: seq<Derivative>)
    ensures out == ListingAsWritten(s, DERIV_SYMBOLS)
  {
    out := [];
    var rmin := LineToRmin(s.decodedLine);
    for k := 0 to DERIV_SYMBOLS
      invariant out == ListingAsWritten(s, k)
    {
      var start := k * 68;
      if s.decodedLine > start && s.decodedLine - start <= SERIAL_LINE_REPR_MAX {
        var line := DerivLine(s.decodedLine, k);
        var d := Derivative(s.country + [s.year] + s.week + line + s.model, k - rmin + 1);
        assert d == DerivativeAsWritten(s, k);
        out := out + [d];
      } else {
        assert ListingAsWritten(s, k + 1) == ListingAsWritten(s, k) + [];
      }
    }
  }

  // ---------------------------------------------------------------------------
  // Which first symbols are listed

  /** One more than the largest first symbol with a positive rest: ceil(line / 68). */
  function KeyBound(line: int): int {
    if line <= 0 then 0 else (line + 67) / 68
  }

  /** A first symbol carries the line exactly when it lies between the least first symbol
      of the line and ceil(line / 68). */
  lemma EmitsRange(line: int, k: int)
    requires k >= 0
    ensures Emits(line, k) <==> LineToRmin(line) <= k < KeyBound(line)
  {
    var r := LineToRmin(line);
    if k < r {
      assert line - 68 * (r - 1) > SERIAL_LINE_REPR_MAX;
      assert line - 68 * k >= line - 68 * (r - 1);
    } else {
      assert line - 68 * k <= line - 68 * r;
    }
  }

  /** The number of first symbols below `n` that are listed. */
  function KeyCount(line: int, n: nat): nat {
    var hi := if n < KeyBound(line) then n else KeyBound(line);
    if hi <= LineToRmin(line) then 0 else hi - LineToRmin(line)
  }

  /** The listed first symbols are consecutive, starting at the least first symbol. */
  lemma {:induction false} KeysConsecutive(line: int, n: nat)
    requires n <= DERIV_SYMBOLS
    ensures |EmittedKeys(line, n)| == KeyCount(line, n)
    ensures forall i :: 0 <= i < |EmittedKeys(line, n)| ==> EmittedKeys(line, n)[i] == LineToRmin(line) + i
  {
    if n > 0 {
      KeysConsecutive(line, n - 1);
      EmitsRange(line, n - 1);
    }
  }

  /** `out` holds the as-written derivative of each first symbol in `ks`, in order. */
  predicate FollowsAsWritten(s: Serial, out: seq<Derivative>, ks: seq<int>) {
    |out| == |ks| &&
    forall i :: 0 <= i < |ks| ==>
      0 <= ks[i] < DERIV_SYMBOLS && Emits(s.decodedLine, ks[i]) && out[i] == DerivativeAsWritten(s, ks[i])
  }

  /** `out` holds the corrected derivative of each first symbol in `ks`, in order. */
  predicate Follows(s: Serial, out: seq<Derivative>, ks: seq<int>) {
    |out| == |ks| &&
    forall i :: 0 <= i < |ks| ==>
      0 <= ks[i] < DERIV_SYMBOLS && Emits(s.decodedLine, ks[i]) && out[i] == DerivativeOf(s, ks[i])
  }

  lemma FollowsAsWrittenAppend(s: Serial, out: seq<Derivative>, ks: seq<int>, k: int)
    requires FollowsAsWritten(s, out, ks) && 0 <= k < DERIV_SYMBOLS && Emits(s.decodedLine, k)
    ensures FollowsAsWritten(s, out + [DerivativeAsWritten(s, k)], ks + [k])
  {
    var out' := out + [DerivativeAsWritten(s, k)];
    forall i | 0 <= i < |ks| + 1
      ensures 0 <= (ks + [k])[i] < DERIV_SYMBOLS && Emits(s.decodedLine, (ks + [k])[i])
      ensures out'[i] == DerivativeAsWritten(s, (ks + [k])[i])
    {
      if i < |ks| {
        assert out'[i] == out[i] && (ks + [k])[i] == ks[i];
      }
    }
  }

  lemma FollowsAppend(s: Serial, out: seq<Derivative>, ks: seq<int>, k: int)
    requires Follows(s, out, ks) && 0 <= k < DERIV_SYMBOLS && Emits(s.decodedLine, k)
    ensures Follows(s, out + [DerivativeOf(s, k)], ks + [k])
  {
    var out' := out + [DerivativeOf(s, k)];
    forall i | 0 <= i < |ks| + 1
      ensures 0 <= (ks + [k])[i] < DERIV_SYMBOLS && Emits(s.decodedLine, (ks + [k])[i])
      ensures out'[i] == DerivativeOf(s, (ks + [k])[i])
    {
      if i < |ks| {
        assert out'[i] == out[i] && (ks + [k])[i] == ks[i];
      }
    }
  }

  /** One pass of the as-written loop keeps the listing in step with the first symbols. */
  lemma FollowsAsWrittenEntry(s: Serial, out: seq<Derivative>, ks: seq<int>, k: nat)
    requires FollowsAsWritten(s, out, ks) && k < DERIV_SYMBOLS
    ensures FollowsAsWritten(s, out + EntryAsWritten(s, k), ks + (if Emits(s.decodedLine, k) then [k] else []))
  {
    if Emits(s.decodedLine, k) {
      FollowsAsWrittenAppend(s, out, ks, k);
    } else {
      assert out + EntryAsWritten(s, k) == out;
      assert ks + [] == ks;
    }
  }

  /** One pass of the corrected loop keeps the listing in step with the first symbols. */
  lemma FollowsEntry(s: Serial, out: seq<Derivative>, ks: seq<int>, k: nat)
    requires Follows(s, out, ks) && k < DERIV_SYMBOLS
    ensures Follows(s, out + Entry(s, k), ks + (if Emits(s.decodedLine, k) then [k] else []))
  {
    if Emits(s.decodedLine, k) {
      FollowsAppend(s, out, ks, k);
    } else {
      assert out + Entry(s, k) == out;
      assert ks + [] == ks;
    }
  }

  /** The as-written listing follows the listed first symbols. */
  lemma {:induction false} ListingAsWrittenKeys(s: Serial, n: nat)
    requires n <= DERIV_SYMBOLS
    ensures FollowsAsWritten(s, ListingAsWritten(s, n), EmittedKeys(s.decodedLine, n))
  {
    if n > 0 {
      ListingAsWrittenKeys(s, n - 1);
      FollowsAsWrittenEntry(s, ListingAsWritten(s, n - 1), EmittedKeys(s.decodedLine, n - 1), n - 1);
    }
  }

  /** The corrected listing follows the listed first symbols. */
  lemma {:induction false} ListingKeys(s: Serial, n: nat)
    requires n <= DERIV_SYMBOLS
    ensures Follows(s, Listing(s, n), EmittedKeys(s.decodedLine, n))
  {
    if n > 0 {
      ListingKeys(s, n - 1);
      FollowsEntry(s, Listing(s, n - 1), EmittedKeys(s.decodedLine, n - 1), n - 1);
    }
  }

  /** The listing holds one derivative for each first symbol from the least one on that
      leaves a positive rest, and the copies run 1, 2, 3, ... A line of at least 1 and at
      most 3399 has at least one derivative; a line of 0 or less has none. */
  lemma ListingShape(s: Serial)
    ensures var out := ListingAsWritten(s, DERIV_SYMBOLS); var lo := LineToRmin(s.decodedLine);
      && |out| == KeyCount(s.decodedLine, DERIV_SYMBOLS)
      && (forall i :: 0 <= i < |out| ==> out[i] == DerivativeAsWritten(s, lo + i) && out[i].copy == i + 1)
      && (0 < s.decodedLine <= SERIAL_LINE_MAX ==> |out| >= 1)
      && (s.decodedLine <= 0 ==> out == [])
  {
    KeysConsecutive(s.decodedLine, DERIV_SYMBOLS);
    ListingAsWrittenKeys(s, DERIV_SYMBOLS);
  }

  // ---------------------------------------------------------------------------
  // The NUL byte of a modern derivative, and the corrected round trip

  /** As written, every derivative of a parsed modern serial has 13 bytes with a NUL at
      position 5, so the parser rejects it for its length. */
  lemma ModernDerivativeHasNul(db: ModelDatabase, t: Bytes)
    requires db.Valid() && |t| == SERIAL_NEW_LEN
    ensures var out := ListingAsWritten(Decode(db, t).value, DERIV_SYMBOLS);
      forall i :: 0 <= i < |out| ==>
        |out[i].serial| == 13 && out[i].serial[5] == NUL && Decode(db, out[i].serial) == Err(BadLength)
  {
    var r := Decode(db, t).value;
    DecodeShape(db, t);
    ListingShape(r);
    var out := ListingAsWritten(r, DERIV_SYMBOLS);
    forall i | 0 <= i < |out|
      ensures |out[i].serial| == 13 && out[i].serial[5] == NUL && Decode(db, out[i].serial) == Err(BadLength)
    {
      var k := LineToRmin(r.decodedLine) + i;
      var line := DerivLine(r.decodedLine, k);
      assert out[i].serial == t[..3] + [t[3]] + [t[4], NUL] + line + t[8..];
    }
  }

  /** A corrected derivative is the serial with only its line field replaced. */
  lemma DerivativeText(db: ModelDatabase, t: Bytes, k: int)
    requires db.Valid() && (|t| == SERIAL_OLD_LEN || |t| == SERIAL_NEW_LEN)
    requires 0 <= k < DERIV_SYMBOLS && Emits(Decode(db, t).value.decodedLine, k)
    ensures var r := Decode(db, t).value;
      DerivativeOf(r, k).serial == t[..5] + DerivLine(r.decodedLine, k) + t[8..]
  {
    var r := Decode(db, t).value;
    DecodeShape(db, t);
    var line := DerivLine(r.decodedLine, k);
    if r.legacy {
      assert r.week == t[3..5];
      assert t[..5] == t[..2] + [t[2]] + t[3..5];
    } else {
      assert r.(line := line).week[..1] == [t[4]];
      assert t[..5] == t[..3] + [t[3]] + [t[4]];
    }
  }

  /** Every corrected derivative of a serial that parses, whatever its own line symbols,
      parses to the same country, year, week, model and line, with the copy one below the
      number listed. */
  lemma DerivativeRoundTrip(db: ModelDatabase, t: Bytes, k: int)
    requires db.Valid() && (|t| == SERIAL_OLD_LEN || |t| == SERIAL_NEW_LEN)
    requires 0 <= k < DERIV_SYMBOLS && Emits(Decode(db, t).value.decodedLine, k)
    ensures var r := Decode(db, t).value; var d := DerivativeOf(r, k);
      && Decode(db, d.serial).Ok?
      && var r' := Decode(db, d.serial).value;
      && r'.country == r.country && r'.year == r.year && r'.week == r.week
      && r'.model == r.model && r'.index == r.index
      && r'.decodedLine == r.decodedLine
      && r'.decodedCopy == d.copy - 1
  {
    var r := Decode(db, t).value;
    var line := DerivLine(r.decodedLine, k);
    var t' := t[..5] + line + t[8..];
    SpliceLine(t, line);
    DerivativeText(db, t, k);
    DecodeShape(db, t);
    DecodeShape(db, t');
    LineTextDecodes(k, r.decodedLine, t', 5);
    DecodedLineAndCopy(db, t');
  }

  /** Replacing the three line symbols keeps the length and every other byte. */
  lemma SpliceLine(t: Bytes, line: Bytes)
    requires |t| == SERIAL_OLD_LEN || |t| == SERIAL_NEW_LEN
    requires |line| == 3
    ensures var t' := t[..5] + line + t[8..];
      && |t'| == |t| && t'[5..8] == line && t'[8..] == t[8..] && t'[..5] == t[..5]
      && t'[..2] == t[..2] && t'[..3] == t[..3] && t'[3..5] == t[3..5]
      && t'[2] == t[2] && t'[3] == t[3] && t'[4] == t[4]
  {
  }

  /** The corrected listing of any serial that parses, even one whose line symbols are not
      valid (its line is then the partial sum): every entry parses back to that line, and the
      copies run 1, 2, 3, ... */
  lemma ListingRoundTrip(db: ModelDatabase, t: Bytes)
    requires db.Valid() && (|t| == SERIAL_OLD_LEN || |t| == SERIAL_NEW_LEN)
    ensures var r := Decode(db, t).value; var out := Listing(r, DERIV_SYMBOLS);
      forall i :: 0 <= i < |out| ==>
        && out[i].copy == i + 1
        && Decode(db, out[i].serial).Ok?
        && Decode(db, out[i].serial).value.decodedLine == r.decodedLine
        && Decode(db, out[i].serial).value.decodedCopy == i
  {
    var r := Decode(db, t).value;
    KeysConsecutive(r.decodedLine, DERIV_SYMBOLS);
    ListingKeys(r, DERIV_SYMBOLS);
    var out := Listing(r, DERIV_SYMBOLS);
    forall i | 0 <= i < |out|
      ensures out[i].copy == i + 1 && Decode(db, out[i].serial).Ok?
      ensures Decode(db, out[i].serial).value.decodedLine == r.decodedLine
      ensures Decode(db, out[i].serial).value.decodedCopy == i
    {
      var k := LineToRmin(r.decodedLine) + i;
      assert EmittedKeys(r.decodedLine, DERIV_SYMBOLS)[i] == k;
      assert out[i] == DerivativeOf(r, k);
      assert out[i].copy == i + 1;
      DerivativeRoundTrip(db, t, k);
    }
  }

  /** C02L13ECF8J2 (line 692, modern) parses with these fields. */
  lemma NulExampleFields(db: ModelDatabase, t: Bytes)
    requires db.Valid() && t == "C02L13ECF8J2"
    ensures Decode(db, t).Ok?
    ensures var r := Decode(db, t).value;
      && !r.legacy && r.country == "C02" && r.year == 'L' && r.week == ['1', NUL]
      && r.model == "F8J2" && r.decodedLine == 692
  {
    NulExampleBytes(t);
    DecodeShape(db, t);
    DecodedLineAndCopy(db, t);
  }

  /** The bytes of C02L13ECF8J2 and the values of its line symbols. */
  lemma NulExampleBytes(t: Bytes)
    requires t == "C02L13ECF8J2"
    ensures |t| == SERIAL_NEW_LEN && t[..3] == "C02" && t[3] == 'L' && t[4] == '1' && t[8..] == "F8J2"
    ensures IsSerialSymbol(t[5]) && IsSerialSymbol(t[6]) && IsSerialSymbol(t[7])
    ensures SymbolValue(t[5]) == 3 && SymbolValue(t[6]) == 14 && SymbolValue(t[7]) == 12
  {
    assert SymbolValue(t[6]) == 14 && SymbolValue(t[7]) == 12 by {
      Base34RoundTrip(1);
      assert AppleBase34Reverse[14] == 'E' && AppleBase34Reverse[12] == 'C';
    }
  }

  /** The listing for the serial above holds eleven derivatives, copies 1 to 11. As written
      the first is C02L1, NUL, 0LCF8J2, which has 13 bytes and so fails to parse; corrected
      it is C02L10LCF8J2. */
  lemma NulDerivativeExample(s: Serial)
    requires !s.legacy && s.country == "C02" && s.year == 'L' && s.week == ['1', NUL]
    requires s.model == "F8J2" && s.decodedLine == 692
    ensures |ListingAsWritten(s, DERIV_SYMBOLS)| == 11
    ensures ListingAsWritten(s, DERIV_SYMBOLS)[0] == Derivative("C02L1" + [NUL] + "0LCF8J2", 1)
    ensures |Listing(s, DERIV_SYMBOLS)| == 11
    ensures Listing(s, DERIV_SYMBOLS)[0] == Derivative("C02L10LCF8J2", 1)
  {
    assert KeyCount(692, DERIV_SYMBOLS) == 11;
    ListingShape(s);
    KeysConsecutive(s.decodedLine, DERIV_SYMBOLS);
    ListingKeys(s, DERIV_SYMBOLS);
    assert LineToRmin(692) == 0;
    LineZeroSymbols();
    assert ListingAsWritten(s, DERIV_SYMBOLS)[0] == DerivativeAsWritten(s, 0);
    assert ("C02" + ['L'] + ['1', NUL]) + "0LC" + "F8J2" == "C02L1" + [NUL] + "0LCF8J2";
    assert ("C02" + ['L'] + ['1']) + "0LC" + "F8J2" == "C02L10LCF8J2";
  }

  /** The line symbols of line 692 under first symbol 0. */
  lemma LineZeroSymbols()
    ensures DerivLine(692, 0) == "0LC"
  {
  }
}
