/** The model database the codec reads: per model its model codes, production years,
    platform data and board codes, plus the model descriptions and preferred years.
    Its contents are not part of this model; it is a read-only parameter. */
module ModelDb {
  import opened Tables

  datatype PlatformData = PlatformData(productName: string, serialNumber: Bytes)

  datatype ModelDescription = ModelDescription(code: Bytes, name: string)

  /** The parallel per-model tables, one row per model. The fixed-size rows of the Go
      arrays are sequences; an empty code or a zero year ends the meaningful part. */
  datatype ModelDatabase = ModelDatabase(
    modelCode: seq<seq<Bytes>>,
    modelYear: seq<seq<nat>>,
    platform: seq<PlatformData>,
    boardCode: seq<seq<Bytes>>,
    modelDesc: seq<ModelDescription>,
    preferredYear: seq<nat>)
  {
    /** The number of models. */
    function ModelCount(): nat { |modelCode| }

    /** The shape the codec relies on: one entry per model in every per-model table, at
        least one model, a first model code, board code and production year in every row,
        and a canonical serial long enough to hold a modern country code. */
    predicate Valid() {
      && |modelCode| >= 1
      && |modelYear| == |modelCode| && |platform| == |modelCode|
      && |boardCode| == |modelCode| && |preferredYear| == |modelCode|
      && (forall m :: 0 <= m < |modelCode| ==> |modelCode[m]| >= 1)
      && (forall m :: 0 <= m < |boardCode| ==> |boardCode[m]| >= 1)
      && (forall m :: 0 <= m < |modelYear| ==> |modelYear[m]| >= 1 && modelYear[m][0] > 0)
      && (forall m :: 0 <= m < |platform| ==> |platform[m].serialNumber| >= 3)
    }
  }

  // ---------------------------------------------------------------------------
  // Model code lookup (main.go:356-368)

  /** `row` lists `code` before its first empty entry, where the Go scan of that row stops. */
  predicate RowLists(row: seq<Bytes>, code: Bytes) {
    exists j :: 0 <= j < |row| && row[j] == code && code != [] &&
      forall k :: 0 <= k < j ==> row[k] != []
  }

  /** Among the first `n` models, the last one whose row lists `code`, or -1. */
  function LastModelIndex(db: ModelDatabase, code: Bytes, n: nat): (r: int)
    requires n <= |db.modelCode|
    ensures -1 <= r < n
    ensures r >= 0 ==> RowLists(db.modelCode[r], code)
    ensures forall k :: r < k < n ==> !RowLists(db.modelCode[k], code)
  {
    if n == 0 then -1
    else if RowLists(db.modelCode[n - 1], code) then n - 1
    else LastModelIndex(db, code, n - 1)
  }

  /** The model index the parser settles on: the scan over all models does not stop at a
      match, so a code listed by several models selects the last of them. */
  function ModelIndex(db: ModelDatabase, code: Bytes): int
  {
    LastModelIndex(db, code, |db.modelCode|)
  }

  /** ModelIndex is -1 exactly when no model lists the code, and otherwise names the last
      model that does. */
  lemma ModelIndexSpec(db: ModelDatabase, code: Bytes)
    ensures ModelIndex(db, code) == -1 <==> forall m :: 0 <= m < |db.modelCode| ==> !RowLists(db.modelCode[m], code)
    ensures ModelIndex(db, code) >= 0 ==>
      ModelIndex(db, code) < |db.modelCode| && RowLists(db.modelCode[ModelIndex(db, code)], code)
    ensures forall m :: ModelIndex(db, code) < m < |db.modelCode| ==> !RowLists(db.modelCode[m], code)
  {
  }

  /** The scan of one row: stop at the first empty entry or at the code. */
  method ScanRow(row: seq<Bytes>, code: Bytes) returns (found: bool)
    ensures found == RowLists(row, code)
  {
    found := false;
    var j := 0;
    while j < |row|
      invariant 0 <= j <= |row|
      invariant forall k :: 0 <= k < j ==> row[k] != [] && row[k] != code
    {
      if row[j] == [] {
        break;
      }
      if row[j] == code {
        found := true;
        break;
      }
      j := j + 1;
    }
  }

  /** The nested loop of the model lookup: every row is scanned, and a later match
      overrides an earlier one. */
  method LookupModel(db: ModelDatabase, code: Bytes) returns (index: int)
    ensures index == ModelIndex(db, code)
  {
    index := -1;
    var i := 0;
    while i < |db.modelCode|
      invariant 0 <= i <= |db.modelCode|
      invariant index == LastModelIndex(db, code, i)
    {
      var found := ScanRow(db.modelCode[i], code);
      if found {
        index := i;
      }
      i := i + 1;
    }
  }

  // ---------------------------------------------------------------------------
  // Model description lookup (main.go:370-377)

  /** The first description at or after `i` whose code is `code`, or -1. */
  function DescIndexFrom(descs: seq<ModelDescription>, code: Bytes, i: nat): (r: int)
    decreases |descs| - i
    ensures r == -1 || (i <= r < |descs| && descs[r].code == code)
    ensures r == -1 ==> forall k :: i <= k < |descs| ==> descs[k].code != code
    ensures r >= 0 ==> forall k :: i <= k < r ==> descs[k].code != code
  {
    if i >= |descs| then -1 else if descs[i].code == code then i else DescIndexFrom(descs, code, i + 1)
  }

  /** The name of the first description of `code`, or the empty string. */
  function ModelDescName(db: ModelDatabase, code: Bytes): (name: string)
    ensures (forall k :: 0 <= k < |db.modelDesc| ==> db.modelDesc[k].code != code) ==> name == ""
    ensures forall k ::
      (0 <= k < |db.modelDesc| && db.modelDesc[k].code == code &&
       forall k' :: 0 <= k' < k ==> db.modelDesc[k'].code != code) ==> name == db.modelDesc[k].name
  {
    var r := DescIndexFrom(db.modelDesc, code, 0);
    if r < 0 then "" else db.modelDesc[r].name
  }

  method LookupModelDesc(db: ModelDatabase, code: Bytes) returns (name: string)
    ensures name == ModelDescName(db, code)
  {
    name := "";
    var i := 0;
    while i < |db.modelDesc|
      invariant 0 <= i <= |db.modelDesc|
      invariant DescIndexFrom(db.modelDesc, code, i) == DescIndexFrom(db.modelDesc, code, 0)
    {
      if db.modelDesc[i].code == code {
        name := db.modelDesc[i].name;
        break;
      }
      i := i + 1;
    }
  }

  // ---------------------------------------------------------------------------
  // Production years (main.go:273-292, main.go:491-500)

  /** The number of leading positive years of a row: the years the model is listed for. */
  function LeadingYears(years: seq<nat>): (n: nat)
    ensures n <= |years|
    ensures forall k :: 0 <= k < n ==> years[k] > 0
    ensures n < |years| ==> years[n] == 0
  {
    if |years| == 0 || years[0] == 0 then 0 else 1 + LeadingYears(years[1..])
  }

  /** `y` is one of the listed years of the row. */
  predicate YearListed(years: seq<nat>, y: int) {
    exists k :: 0 <= k < LeadingYears(years) && years[k] == y
  }

  /** The parser's year check: scan the listed years until `y` is found. */
  method CheckYearListed(years: seq<nat>, y: int) returns (found: bool)
    ensures found == YearListed(years, y)
  {
    found := false;
    var i := 0;
    var n := LeadingYears(years);
    while !found && i < |years| && years[i] > 0
      invariant 0 <= i <= n
      invariant found ==> YearListed(years, y)
      invariant !found ==> forall k :: 0 <= k < i ==> years[k] != y
    {
      if years[i] == y {
        found := true;
      }
      i := i + 1;
    }
  }

  /** getProductionYear: the preferred year when there is one, otherwise the listed year at
      position `pick` modulo the number of listed years (`pick` stands for the random draw). */
  function ProductionYear(db: ModelDatabase, model: nat, pick: nat): (y: nat)
    requires db.Valid() && model < db.ModelCount()
    ensures y > 0
    ensures db.preferredYear[model] > 0 ==> y == db.preferredYear[model]
    ensures db.preferredYear[model] == 0 ==> YearListed(db.modelYear[model], y)
  {
    var years := db.modelYear[model];
    var num := LeadingYears(years);
    if db.preferredYear[model] > 0 then db.preferredYear[model] else years[pick % num]
  }

  /** The counting loop of getProductionYear, then the choice. */
  method GetProductionYear(db: ModelDatabase, model: nat, pick: nat) returns (y: nat)
    requires db.Valid() && model < db.ModelCount()
    ensures y == ProductionYear(db, model, pick)
  {
    var years := db.modelYear[model];
    var num := 0;
    while num < |years| && years[num] > 0
      invariant 0 <= num <= LeadingYears(years)
      invariant forall k :: 0 <= k < num ==> years[k] > 0
    {
      num := num + 1;
    }
    if db.preferredYear[model] > 0 {
      return db.preferredYear[model];
    }
    y := years[pick % num];
  }

  /** getModelCode and getBoardCode: always the first entry of the model's row. */
  function FirstModelCode(db: ModelDatabase, model: nat): (c: Bytes)
    requires db.Valid() && model < db.ModelCount()
    ensures c != [] ==> model <= ModelIndex(db, c)
  {
    db.modelCode[model][0]
  }

  function FirstBoardCode(db: ModelDatabase, model: nat): Bytes
    requires db.Valid() && model < db.ModelCount()
  {
    db.boardCode[model][0]
  }
}
