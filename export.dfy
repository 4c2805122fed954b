/** `src/utils/export.ts`: the backup file. `validateExportData` checks a
    parsed document step by step and throws on the first problem;
    `importFromJson` validates, migrates the cost sets and only then writes
    the stores; `exportToJson` builds the document from the stores and
    validates it before saving. `Date.parse` is the parameter `parsesAsDate`
    (true when it does not give `NaN`); `migrateInvoiceSettings` is the
    parameter `migrateSettings`. */
module Export {
  import opened Wrappers
  import opened JsonValue
  import opened Text
  import opened Types
  import opened Migrate
  import RoomsStore
  import UtilityCostsStore
  import InvoiceSettingsStore

  const Version: string := "1.0.0"

  // ---------------------------------------------------------------------
  // The field checks

  /** The `typeof` a truthy field must have. */
  datatype Kind = StringKind | NumberKind | ArrayKind

  /** A JSON number is never `NaN`, so `typeof v !== "number" || isNaN(v)`
      reduces to the type test. */
  predicate HasKind(v: Json, kind: Kind) {
    match kind
    case StringKind => v.JStr?
    case NumberKind => v.JNum?
    case ArrayKind => v.JArr?
  }

  /** A checked property and the words its message uses for it. */
  datatype Field = Field(key: string, kind: Kind, words: string)

  const RoomFields: seq<Field> := [
    Field("roomName", StringKind, "room name"),
    Field("blockNumber", StringKind, "block number"),
    Field("roomNumber", NumberKind, "room number"),
    Field("roomPrice", NumberKind, "room price"),
    Field("currentElectric", NumberKind, "current electric reading"),
    Field("currentWater", NumberKind, "current water reading"),
    Field("previousElectric", NumberKind, "previous electric reading"),
    Field("previousWater", NumberKind, "previous water reading")]

  const CostFields: seq<Field> := [
    Field("name", StringKind, "name"),
    Field("id", NumberKind, "id"),
    Field("electricityCost", NumberKind, "electricity cost"),
    Field("waterCost", NumberKind, "water cost"),
    Field("serviceCosts", ArrayKind, "service costs")]

  /** `item.key && typeof item.key !== kind`: only a truthy value of the
      wrong type is rejected. */
  predicate BadField(item: Json, f: Field) {
    TruthyOpt(Get(item, f.key)) && !HasKind(Get(item, f.key).value, f.kind)
  }

  /** `item && typeof item === "object"`: an object or an array. */
  predicate IsItemObject(item: Json) {
    Truthy(item) && IsObjectType(item)
  }

  /** The position of the first rejected field, checked in order. */
  function FirstBadField(item: Json, fields: seq<Field>): (k: Option<nat>)
    ensures k.None? <==> forall m :: 0 <= m < |fields| ==> !BadField(item, fields[m])
    ensures k.Some? ==> k.value < |fields| && BadField(item, fields[k.value])
                        && forall m :: 0 <= m < k.value ==> !BadField(item, fields[m])
  {
    if fields == [] then None
    else if BadField(item, fields[0]) then Some(0)
    else
      match FirstBadField(item, fields[1..])
      case None => None
      case Some(k) => Some(k + 1)
  }

  datatype Problem = NotAnObject | BadValue(words: string)

  /** What one round of the `forEach` throws for, if anything. */
  function ItemProblem(item: Json, fields: seq<Field>): Option<Problem> {
    if !IsItemObject(item) then Some(NotAnObject)
    else
      match FirstBadField(item, fields)
      case None => None
      case Some(k) => Some(BadValue(fields[k].words))
  }

  /** The 0-based position of the first item the `forEach` throws for. */
  function FirstProblem(items: seq<Json>, fields: seq<Field>): (r: Option<(nat, Problem)>)
    ensures r.None? <==> forall i :: 0 <= i < |items| ==> ItemProblem(items[i], fields).None?
    ensures r.Some? ==> && r.value.0 < |items|
                        && ItemProblem(items[r.value.0], fields) == Some(r.value.1)
                        && forall j :: 0 <= j < r.value.0 ==> ItemProblem(items[j], fields).None?
  {
    if items == [] then None
    else if ItemProblem(items[0], fields).Some? then Some((0, ItemProblem(items[0], fields).value))
    else
      match FirstProblem(items[1..], fields)
      case None => None
      case Some((i, p)) => Some((i + 1, p))
  }

  // ---------------------------------------------------------------------
  // Validation

  /** The errors `validateExportData` throws; indices are 1-based, as
      printed. */
  datatype ValidationError =
    | InvalidDataFormat
    | UnsupportedVersion
    | InvalidExportDate
    | RoomsNotArray
    | RoomProblem(index: nat, problem: Problem)
    | CostsNotArray
    | CostProblem(index: nat, problem: Problem)

  function Message(e: ValidationError): string {
    match e
    case InvalidDataFormat => "Invalid data format"
    case UnsupportedVersion => "Unsupported file version"
    case InvalidExportDate => "Invalid export date"
    case RoomsNotArray => "Rooms must be an array"
    case RoomProblem(n, NotAnObject) => "Invalid room object at index " + Digits(n)
    case RoomProblem(n, BadValue(words)) => "Invalid " + words + " in room " + Digits(n)
    case CostsNotArray => "Utility costs must be an array"
    case CostProblem(n, NotAnObject) => "Invalid utility cost object at index " + Digits(n)
    case CostProblem(n, BadValue(words)) => "Invalid " + words + " in utility cost set " + Digits(n)
  }

  /** `data.rooms = data.rooms || []; data.utilityCosts = data.utilityCosts || []`. */
  function WithArrayDefaults(data: Json): (d: Json)
    requires data.JObj?
    ensures d.JObj? && "rooms" in d.fields && "utilityCosts" in d.fields
    ensures d.fields["rooms"] == OrElse(Get(data, "rooms"), JArr([]))
    ensures d.fields["utilityCosts"] == OrElse(Get(data, "utilityCosts"), JArr([]))
    ensures forall k :: k != "rooms" && k != "utilityCosts" ==> Get(d, k) == Get(data, k)
  {
    JObj(data.fields["rooms" := OrElse(Get(data, "rooms"), JArr([]))]
                    ["utilityCosts" := OrElse(Get(data, "utilityCosts"), JArr([]))])
  }

  /** The date test: `exportedAt` present, truthy, and parseable. */
  predicate DateOk(data: Json, parsesAsDate: Json -> bool) {
    TruthyOpt(Get(data, "exportedAt")) && parsesAsDate(Get(data, "exportedAt").value)
  }

  /** What `validateExportData(data)` does: the first error it throws, or
      the document with the array defaults it assigns. */
  function Validate(data: Json, parsesAsDate: Json -> bool): (r: Result<Json, ValidationError>)
    ensures r.Ok? ==> && r.value.JObj?
                      && "rooms" in r.value.fields && "utilityCosts" in r.value.fields
                      && r.value.fields["rooms"].JArr?
                      && r.value.fields["utilityCosts"].JArr?
                      && (forall i :: 0 <= i < |r.value.fields["rooms"].items| ==>
                            IsItemObject(r.value.fields["rooms"].items[i]))
                      && (forall i :: 0 <= i < |r.value.fields["utilityCosts"].items| ==>
                            IsItemObject(r.value.fields["utilityCosts"].items[i]))
  {
    if !Truthy(data) || !IsObjectType(data) then Err(InvalidDataFormat)
    else if Get(data, "version") != Some(JStr(Version)) then Err(UnsupportedVersion)
    else if !DateOk(data, parsesAsDate) then Err(InvalidExportDate)
    else
      var d := WithArrayDefaults(data);
      var rooms := d.fields["rooms"];
      if !rooms.JArr? then Err(RoomsNotArray)
      else if FirstProblem(rooms.items, RoomFields).Some? then
        var p := FirstProblem(rooms.items, RoomFields).value;
        Err(RoomProblem(p.0 + 1, p.1))
      else
        var costs := d.fields["utilityCosts"];
        if !costs.JArr? then Err(CostsNotArray)
        else if FirstProblem(costs.items, CostFields).Some? then
          var p := FirstProblem(costs.items, CostFields).value;
          Err(CostProblem(p.0 + 1, p.1))
        else Ok(d)
  }

  /** An item every check lets through: an object whose truthy fields all
      have their types. */
  predicate ItemOk(item: Json, fields: seq<Field>) {
    IsItemObject(item) && forall m :: 0 <= m < |fields| ==> !BadField(item, fields[m])
  }

  predicate ItemsOk(v: Json, fields: seq<Field>) {
    v.JArr? && forall i :: 0 <= i < |v.items| ==> ItemOk(v.items[i], fields)
  }

  /** The documents the validator accepts, stated without its order of
      checks. */
  predicate WellFormed(data: Json, parsesAsDate: Json -> bool) {
    && data.JObj?
    && Get(data, "version") == Some(JStr(Version))
    && DateOk(data, parsesAsDate)
    && ItemsOk(OrElse(Get(data, "rooms"), JArr([])), RoomFields)
    && ItemsOk(OrElse(Get(data, "utilityCosts"), JArr([])), CostFields)
  }

  lemma ItemProblemIsNotOk(item: Json, fields: seq<Field>)
    ensures ItemProblem(item, fields).None? <==> ItemOk(item, fields)
  {
  }

  /** The validator accepts exactly the well-formed documents, and then
      only fills in the missing arrays. */
  lemma ValidateAcceptsWellFormed(data: Json, parsesAsDate: Json -> bool)
    ensures Validate(data, parsesAsDate).Ok? <==> WellFormed(data, parsesAsDate)
    ensures Validate(data, parsesAsDate).Ok? ==> Validate(data, parsesAsDate).value == WithArrayDefaults(data)
  {
    if data.JObj? {
      var d := WithArrayDefaults(data);
      var rooms, costs := d.fields["rooms"], d.fields["utilityCosts"];
      if rooms.JArr? {
        forall i | 0 <= i < |rooms.items| {
          ItemProblemIsNotOk(rooms.items[i], RoomFields);
        }
      }
      if costs.JArr? {
        forall i | 0 <= i < |costs.items| {
          ItemProblemIsNotOk(costs.items[i], CostFields);
        }
      }
    }
  }

  /** A rejection names the first offending item and, in it, the first
      offending field. */
  lemma RoomRejectionIsFirst(data: Json, parsesAsDate: Json -> bool, n: nat, words: string)
    requires Validate(data, parsesAsDate) == Err(RoomProblem(n, BadValue(words)))
    ensures var items := WithArrayDefaults(data).fields["rooms"].items;
            && 1 <= n <= |items|
            && (forall j :: 0 <= j < n - 1 ==> ItemOk(items[j], RoomFields))
            && IsItemObject(items[n - 1])
            && exists k :: && 0 <= k < |RoomFields| && RoomFields[k].words == words
                           && BadField(items[n - 1], RoomFields[k])
                           && forall m :: 0 <= m < k ==> !BadField(items[n - 1], RoomFields[m])
  {
    var items := WithArrayDefaults(data).fields["rooms"].items;
    forall j | 0 <= j < n - 1 {
      ItemProblemIsNotOk(items[j], RoomFields);
    }
    var k := FirstBadField(items[n - 1], RoomFields).value;
    assert RoomFields[k].words == words;
  }

  /** Absent or falsy fields are never rejected. */
  lemma FalsyFieldsAccepted(item: Json, fields: seq<Field>)
    requires IsItemObject(item)
    requires forall m :: 0 <= m < |fields| ==> !TruthyOpt(Get(item, fields[m].key))
    ensures ItemProblem(item, fields) == None
  {
  }

  /** Absent `rooms` and `utilityCosts` are accepted as empty lists. */
  lemma AbsentArraysAccepted(data: Json, parsesAsDate: Json -> bool)
    requires data.JObj? && "rooms" !in data.fields && "utilityCosts" !in data.fields
    requires Get(data, "version") == Some(JStr(Version)) && DateOk(data, parsesAsDate)
    ensures Validate(data, parsesAsDate).Ok?
    ensures Validate(data, parsesAsDate).value.fields["rooms"] == JArr([])
    ensures Validate(data, parsesAsDate).value.fields["utilityCosts"] == JArr([])
  {
  }

  /** A truthy `serviceCosts` that is not an array is rejected, with its
      own message, when the earlier fields pass. */
  lemma ServiceCostsMustBeArray(cost: Json)
    requires IsItemObject(cost)
    requires forall m :: 0 <= m < 4 ==> !BadField(cost, CostFields[m])
    requires TruthyOpt(Get(cost, "serviceCosts")) && !Get(cost, "serviceCosts").value.JArr?
    ensures ItemProblem(cost, CostFields) == Some(BadValue("service costs"))
  {
    assert BadField(cost, CostFields[4]);
  }

  /** Migration keeps a cost set acceptable to the validator. */
  lemma MigrateKeepsValid(cost: Json)
    requires ItemOk(cost, CostFields)
    ensures ItemOk(MigrateUtilityCostSet(cost), CostFields)
  {
    var r := MigrateUtilityCostSet(cost);
    forall m | 0 <= m < |CostFields| ensures !BadField(r, CostFields[m]) {
      if m < 4 {
        assert Get(r, CostFields[m].key) == Get(cost, CostFields[m].key);
      }
    }
  }

  /** `validateExportData` as the source runs it. */
  method ValidateExportData(data: Json, parsesAsDate: Json -> bool) returns (r: Result<Json, ValidationError>)
    ensures r == Validate(data, parsesAsDate)
  {
    if !Truthy(data) || !IsObjectType(data) {
      return Err(InvalidDataFormat);
    }
    if Get(data, "version") != Some(JStr(Version)) {
      return Err(UnsupportedVersion);
    }
    var at := Get(data, "exportedAt");
    if !TruthyOpt(at) || !parsesAsDate(at.value) {
      return Err(InvalidExportDate);
    }
    var d := JObj(data.fields["rooms" := OrElse(Get(data, "rooms"), JArr([]))]);
    d := JObj(d.fields["utilityCosts" := OrElse(Get(data, "utilityCosts"), JArr([]))]);
    assert d == WithArrayDefaults(data);
    var rooms := d.fields["rooms"];
    if !rooms.JArr? {
      return Err(RoomsNotArray);
    }
    var p := CheckEach(rooms.items, RoomFields);
    if p.Some? {
      return Err(RoomProblem(p.value.0 + 1, p.value.1));
    }
    var costs := d.fields["utilityCosts"];
    if !costs.JArr? {
      return Err(CostsNotArray);
    }
    p := CheckEach(costs.items, CostFields);
    if p.Some? {
      return Err(CostProblem(p.value.0 + 1, p.value.1));
    }
    return Ok(d);
  }

  /** The `forEach` that throws at the first offending item. */
  method CheckEach(items: seq<Json>, fields: seq<Field>) returns (p: Option<(nat, Problem)>)
    ensures p == FirstProblem(items, fields)
  {
    for i := 0 to |items|
      invariant forall j :: 0 <= j < i ==> ItemProblem(items[j], fields).None?
    {
      var problem := ItemProblem(items[i], fields);
      if problem.Some? {
        var f := FirstProblem(items, fields);
        assert f.Some? && f.value.0 == i;
        return Some((i, problem.value));
      }
    }
    return None;
  }

  // ---------------------------------------------------------------------
  // The document and the stores

  function RoomJson(r: Room): Json {
    JObj(map[
      "roomName" := JStr(r.roomName),
      "blockNumber" := JStr(r.blockNumber),
      "roomNumber" := JNum(r.roomNumber as real),
      "roomPrice" := JNum(r.roomPrice),
      "currentElectric" := JNum(r.currentElectric as real),
      "currentWater" := JNum(r.currentWater as real),
      "previousElectric" := JNum(r.previousElectric as real),
      "previousWater" := JNum(r.previousWater as real),
      "updatedAt" := JStr(r.updatedAt)])
  }

  function StrAt(j: Json, key: string): string {
    if Get(j, key).Some? && Get(j, key).value.JStr? then Get(j, key).value.s else ""
  }

  function RealAt(j: Json, key: string): real {
    if Get(j, key).Some? && Get(j, key).value.JNum? then Get(j, key).value.n else 0.0
  }

  /** The `as Room` cast of an imported record, read field by field; a
      field the record lacks reads as the empty string or 0. */
  function AsRoom(j: Json): Room {
    Room(StrAt(j, "roomName"), StrAt(j, "blockNumber"), RealAt(j, "roomNumber").Floor,
         RealAt(j, "roomPrice"), RealAt(j, "currentElectric").Floor, RealAt(j, "currentWater").Floor,
         RealAt(j, "previousElectric").Floor, RealAt(j, "previousWater").Floor, StrAt(j, "updatedAt"))
  }

  function RoomsJson(rooms: seq<Room>): (j: seq<Json>)
    ensures |j| == |rooms| && forall i :: 0 <= i < |rooms| ==> j[i] == RoomJson(rooms[i])
  {
    seq(|rooms|, i requires 0 <= i < |rooms| => RoomJson(rooms[i]))
  }

  function AsRooms(items: seq<Json>): (r: seq<Room>)
    ensures |r| == |items| && forall i :: 0 <= i < |items| ==> r[i] == AsRoom(items[i])
  {
    seq(|items|, i requires 0 <= i < |items| => AsRoom(items[i]))
  }

  function MigrateAll(items: seq<Json>): (r: seq<Json>)
    requires forall i :: 0 <= i < |items| ==> !items[i].JNull?
    ensures |r| == |items| && forall i :: 0 <= i < |items| ==> r[i] == MigrateUtilityCostSet(items[i])
  {
    seq(|items|, i requires 0 <= i < |items| => MigrateUtilityCostSet(items[i]))
  }

  /** A stored room is written so that reading it back gives the same room,
      and the validator accepts it. */
  lemma RoomJsonRoundTrip(r: Room)
    ensures AsRoom(RoomJson(r)) == r
    ensures ItemOk(RoomJson(r), RoomFields)
  {
    var j := RoomJson(r);
    assert (r.roomNumber as real).Floor == r.roomNumber;
    assert (r.currentElectric as real).Floor == r.currentElectric;
    assert (r.currentWater as real).Floor == r.currentWater;
    assert (r.previousElectric as real).Floor == r.previousElectric;
    assert (r.previousWater as real).Floor == r.previousWater;
  }

  /** The document `exportToJson` builds. */
  function ExportRecord(rooms: seq<Room>, costSets: seq<Json>, settings: Json, now: string): Json {
    JObj(map[
      "rooms" := JArr(RoomsJson(rooms)),
      "utilityCosts" := JArr(costSets),
      "invoiceSettings" := settings,
      "exportedAt" := JStr(now),
      "version" := JStr(Version)])
  }

  const ExportFailure: string := "Failed to export data. Please try again."
  const ImportFailure: string := "Failed to import data. Please ensure the file is valid JSON."

  /** An exported document passes its own validation, unchanged, whenever
      the clock's timestamp parses and every cost set is acceptable; and
      importing it gives the same rooms back. */
  lemma ExportValidates(rooms: seq<Room>, costSets: seq<Json>, settings: Json, now: string, parsesAsDate: Json -> bool)
    requires parsesAsDate(JStr(now)) && now != ""
    requires forall i :: 0 <= i < |costSets| ==> ItemOk(costSets[i], CostFields)
    ensures Validate(ExportRecord(rooms, costSets, settings, now), parsesAsDate)
         == Ok(ExportRecord(rooms, costSets, settings, now))
    ensures AsRooms(RoomsJson(rooms)) == rooms
  {
    var data := ExportRecord(rooms, costSets, settings, now);
    forall i | 0 <= i < |rooms| {
      RoomJsonRoundTrip(rooms[i]);
    }
    assert WithArrayDefaults(data) == data;
    ValidateAcceptsWellFormed(data, parsesAsDate);
    assert WellFormed(data, parsesAsDate);
  }

  /** `exportToJson`: the document to be saved, or the error it throws. */
  method ExportToJson(rooms: RoomsStore.Store, costs: UtilityCostsStore.CostSetsStore,
                      settings: InvoiceSettingsStore.Store, now: string, parsesAsDate: Json -> bool)
    returns (r: Result<Json, string>)
    ensures var data := ExportRecord(rooms.rooms, costs.costSets, settings.settings, now);
            r == if Validate(data, parsesAsDate).Ok? then Ok(data) else Err(ExportFailure)
  {
    var data := ExportRecord(rooms.rooms, costs.costSets, settings.settings, now);
    var v := ValidateExportData(data, parsesAsDate);
    if v.Err? {
      return Err(ExportFailure);
    }
    return Ok(data);
  }

  /** `importFromJson`: `parsed` is `JSON.parse` of the file, `None` when it
      throws. Nothing is written unless the document validates; then the
      rooms, the migrated cost sets and the settings are written. */
  method ImportFromJson(parsed: Option<Json>, parsesAsDate: Json -> bool,
                        migrateSettings: Option<Json> -> Option<Json>,
                        rooms: RoomsStore.Store, costs: UtilityCostsStore.CostSetsStore,
                        settings: InvoiceSettingsStore.Store)
    returns (r: Result<(), string>)
    modifies rooms, costs, settings
    ensures r.Err? <==> parsed.None? || Validate(parsed.value, parsesAsDate).Err?
    ensures r.Err? ==> r.error == ImportFailure && unchanged(rooms, costs, settings)
    ensures r.Ok? ==>
              var d := Validate(parsed.value, parsesAsDate).value;
              && rooms.rooms == AsRooms(d.fields["rooms"].items)
              && costs.costSets == MigrateAll(d.fields["utilityCosts"].items)
              && settings.settings == InvoiceSettingsStore.Imported(migrateSettings(Get(d, "invoiceSettings")))
  {
    if parsed.None? {
      return Err(ImportFailure);
    }
    var v := ValidateExportData(parsed.value, parsesAsDate);
    if v.Err? {
      return Err(ImportFailure);
    }
    var d := v.value;
    var migrated := MigrateAll(d.fields["utilityCosts"].items);
    var invoiceSettings := migrateSettings(Get(d, "invoiceSettings"));
    rooms.SetRooms(AsRooms(d.fields["rooms"].items));
    costs.ImportCostSets(migrated);
    settings.ImportSettings(invoiceSettings);
    return Ok(());
  }

  /** Exporting and importing back restores the rooms and, migrated, the
      cost sets. */
  lemma ImportOfExport(rooms: seq<Room>, costSets: seq<Json>, settings: Json, now: string, parsesAsDate: Json -> bool)
    requires parsesAsDate(JStr(now)) && now != ""
    requires forall i :: 0 <= i < |costSets| ==> ItemOk(costSets[i], CostFields)
    ensures var d := Validate(ExportRecord(rooms, costSets, settings, now), parsesAsDate);
            && d.Ok?
            && AsRooms(d.value.fields["rooms"].items) == rooms
            && MigrateAll(d.value.fields["utilityCosts"].items) == MigrateAll(costSets)
            && Get(d.value, "invoiceSettings") == Some(settings)
  {
    ExportValidates(rooms, costSets, settings, now, parsesAsDate);
  }
}
