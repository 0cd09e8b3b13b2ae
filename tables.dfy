/** The constant lookup tables of the serial-number codec: production locations,
    the MLB block tables and the character tables used for the line/copy field,
    the production year and the production week. */
module Tables {

  /** A Go `byte`. Serial numbers and MLBs are Go strings, that is byte strings. */
  type Byte = c: char | c as int < 256 witness '0'
  type Bytes = seq<Byte>

  // ---------------------------------------------------------------------------
  // Production locations

  const AppleLegacyLocations: seq<Bytes> := [
    "CK", "CY", "FC", "G8", "QP", "XA", "XB", "PT", "QT", "UV", "RN", "RM", "SG", "W8", "YM",
    "H0", "C0", "C3", "C7", "MB", "EE", "VM", "1C", "4H", "MQ", "WQ", "7J", "FK", "F1", "F2",
    "F7", "DL", "DM", "73"]

  const AppleLegacyLocationNames: seq<string> := [
    "Ireland (Cork)", "Korea", "USA (Fountain, Colorado)", "USA", "USA",
    "USA (ElkGrove/Sacramento, California)", "USA (ElkGrove/Sacramento, California)", "Korea",
    "Taiwan (Quanta Computer)", "Taiwan", "Mexico", "Refurbished Model", "Singapore",
    "China (Shanghai)", "China",
    "Unknown", "China (Quanta Computer, Tech-Com)", "China (Shenzhen, Foxconn)",
    "China (Shanghai, Pegatron)", "Malaysia", "Taiwan", "Czech Republic (Pardubice, Foxconn)",
    "China", "China", "China", "China", "China (Hon Hai/Foxconn)", "China (Zhengzhou, Foxconn)",
    "China (Zhengzhou, Foxconn)", "China (Zhengzhou, Foxconn)", "China", "China (Foxconn)",
    "China (Foxconn)", "Unknown"]

  const AppleLocations: seq<Bytes> := [
    "C02", "C07", "C17", "C1M", "C2V", "CK2", "D25", "F5K", "W80", "W88", "W89", "CMV", "YM0",
    "DGK", "FVF"]

  const AppleLocationNames: seq<string> := [
    "China (Quanta Computer)", "China (Quanta Computer)", "China", "China", "China",
    "Ireland (Cork)", "Unknown", "USA (Flextronics)", "Unknown", "Unknown", "Unknown", "Unknown",
    "China (Hon Hai/Foxconn)", "Unknown", "Unknown"]

  // ---------------------------------------------------------------------------
  // Building blocks of a modern MLB

  const MLBBlock1: seq<Bytes> := [
    "200", "600", "403", "404", "405", "303", "108",
    "207", "609", "501", "306", "102", "701", "301",
    "501", "101", "300", "130", "100", "270", "310",
    "902", "104", "401", "902", "500", "700", "802"]

  const MLBBlock2: seq<Bytes> := ["GU", "4N", "J9", "QX", "OP", "CD", "GU"]

  const MLBBlock3: seq<Bytes> := ["1H", "1M", "AD", "1F", "A8", "UE", "JA", "JC", "8C", "CB", "FB"]

  // ---------------------------------------------------------------------------
  // Character tables; the integer tables are indexed by `letter - 'A'`.

  /** Line/copy values of the letters (base 34 without I and O). */
  const AppleTblBase34: seq<int> :=
    [10, 11, 12, 13, 14, 15, 16, 17, 0, 18, 19, 20, 21, 22, 0, 23, 24, 25, 26, 27, 28, 29, 30, 31, 32, 33]
  const AppleBase34Blacklist: Bytes := "IO"
  const AppleBase34Reverse: Bytes := "0123456789ABCDEFGHJKLMNPQRSTUVWXYZ"

  /** Year-in-decade values of the modern year letters. */
  const AppleTblYear: seq<int> :=
    [0, 0, 0, 0, 0, 1, 1, 2, 0, 2, 3, 3, 4, 4, 0, 5, 5, 6, 6, 7, 0, 7, 8, 8, 9, 9]
  const AppleYearBlacklist: Bytes := "ABEIOU"
  const AppleYearReverse: Bytes := "CDFGHJKLMNPQRSTVWXYZ"

  /** Week carry of the modern year letters: 26 for a letter of the second half-year. */
  const AppleTblWeekAdd: seq<int> :=
    [0, 0, 0, 26, 0, 0, 26, 0, 0, 26, 0, 26, 0, 26, 0, 0, 26, 0, 26, 0, 0, 26, 0, 26, 0, 26]

  /** Week values of the modern week letters. */
  const AppleTblWeek: seq<int> :=
    [0, 0, 10, 11, 0, 12, 13, 14, 0, 15, 16, 17, 18, 19, 0, 20, 21, 22, 0, 23, 0, 24, 25, 26, 27, 0]
  const AppleWeekBlacklist: Bytes := "ABEIOSUZ"
  const AppleWeekReverse: Bytes := "0123456789CDFGHJKLMNPQRTVWX" + "123456789CDFGHJKLMNPQRTVWXY"

  /** The letter at position `i` of the alphabet, `'A' + i`. */
  function Letter(i: int): (c: Byte)
    requires 0 <= i < 26
    ensures 'A' <= c <= 'Z' && c as int - 'A' as int == i
  {
    (i + 'A' as int) as char
  }

  // ---------------------------------------------------------------------------
  // Facts about the tables

  /** The base-34 alphabet: the ten digits, then the 24 letters other than I and O, ascending. */
  lemma Base34ReverseShape()
    ensures |AppleBase34Reverse| == 34
    ensures forall v :: 0 <= v < 10 ==> AppleBase34Reverse[v] as int == '0' as int + v
    ensures forall v :: 10 <= v < 34 ==> 'A' <= AppleBase34Reverse[v] <= 'Z'
    ensures 'I' !in AppleBase34Reverse && 'O' !in AppleBase34Reverse
    ensures forall i, j :: 0 <= i < j < 34 ==> AppleBase34Reverse[i] < AppleBase34Reverse[j]
  {
  }

  /** The letter table and the reverse alphabet are inverse: every letter other than I and O
      has a value in 10..33 that the reverse alphabet maps back to that letter. */
  lemma Base34TableInverse()
    ensures |AppleTblBase34| == 26
    ensures forall i :: 0 <= i < 26 && Letter(i) !in AppleBase34Blacklist ==>
      10 <= AppleTblBase34[i] < 34 && AppleBase34Reverse[AppleTblBase34[i]] == Letter(i)
    ensures forall v :: 10 <= v < 34 ==>
      AppleTblBase34[AppleBase34Reverse[v] as int - 'A' as int] == v
  {
  }

  /** The 20 modern year letters avoid the year blacklist, and the letters at positions
      2d and 2d+1 both stand for year d of the decade. */
  lemma YearTables()
    ensures |AppleYearReverse| == 20 && |AppleTblYear| == 26
    ensures forall i :: 0 <= i < 20 ==>
      'A' <= AppleYearReverse[i] <= 'Z' && AppleYearReverse[i] !in AppleYearBlacklist
    ensures forall i :: 0 <= i < 20 ==>
      AppleTblYear[AppleYearReverse[i] as int - 'A' as int] == i / 2
  {
  }

  /** The week carry is 26 exactly at the year letters of odd position (D G J L N Q S V X Z). */
  lemma WeekAddTable()
    ensures |AppleTblWeekAdd| == 26
    ensures forall i :: 0 <= i < 20 ==>
      AppleTblWeekAdd[AppleYearReverse[i] as int - 'A' as int] == (if i % 2 == 1 then 26 else 0)
    ensures forall i :: 0 <= i < 26 && Letter(i) !in AppleYearReverse ==> AppleTblWeekAdd[i] == 0
  {
  }

  /** The 54-symbol week reverse table: digits and letters outside the week blacklist. */
  lemma WeekReverseShape()
    ensures |AppleWeekReverse| == 54 && |AppleTblWeek| == 26
    ensures forall w :: 0 <= w < 54 ==>
      ('0' <= AppleWeekReverse[w] <= '9') ||
      ('A' <= AppleWeekReverse[w] <= 'Z' && AppleWeekReverse[w] !in AppleWeekBlacklist)
  {
  }

  /** Each location table has a name table of the same length; legacy codes have 2
      characters and modern codes 3. */
  lemma LocationTables()
    ensures |AppleLegacyLocations| == |AppleLegacyLocationNames| == 34
    ensures |AppleLocations| == |AppleLocationNames| == 15
    ensures forall i :: 0 <= i < 34 ==> |AppleLegacyLocations[i]| == 2
    ensures forall i :: 0 <= i < 15 ==> |AppleLocations[i]| == 3
  {
  }

  /** Sizes of the MLB block tables: 28 three-digit strings, 7 and 11 two-character strings. */
  lemma MLBBlocks()
    ensures |MLBBlock1| == 28 && |MLBBlock2| == 7 && |MLBBlock3| == 11
    ensures forall i :: 0 <= i < 28 ==> |MLBBlock1[i]| == 3
    ensures forall i :: 0 <= i < 7 ==> |MLBBlock2[i]| == 2
    ensures forall i :: 0 <= i < 11 ==> |MLBBlock3[i]| == 2
    ensures MLBBlock2[4] == "OP"
  {
  }
}
