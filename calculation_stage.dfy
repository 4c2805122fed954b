/** `src/components/calculation-stage.tsx`: the table where the new meter
    readings are typed in. Each edit is clamped at 0, checked against the
    other reading of its pair (a new reading below the current one is
    flagged), and written to the calculation-rooms store; saving shifts the
    readings (the current become the previous, the new become the current). */
module CalculationStage {
  import opened Wrappers
  import opened Types
  import opened Seqs
  import opened Grouping
  import opened CalculationRoomsStore

  /** The inputs of a row: the price, the two current and the two new readings. */
  datatype Field = RoomPrice | CurrentElectric | CurrentWater | NewElectric | NewWater

  /** `validationErrors`: for a room name, the fields flagged as wrong. */
  type Errors = map<string, set<Field>>

  /** `validationErrors[room.roomName] || []`. */
  function ErrorsOf(errors: Errors, name: string): set<Field> {
    if name in errors then errors[name] else {}
  }

  /** The value a row shows for a field. */
  function Reading(c: CalculationRoom, f: Field): real {
    match f
    case RoomPrice => c.room.roomPrice
    case CurrentElectric => c.room.currentElectric as real
    case CurrentWater => c.room.currentWater as real
    case NewElectric => c.newElectric as real
    case NewWater => c.newWater as real
  }

  /** A number without a fractional part: the readings of this model. */
  predicate Whole(v: real) {
    v.Floor as real == v
  }

  /** `Math.max(0, inputValue)`. */
  function Clamp(inputValue: real): (v: real)
    ensures v >= 0.0 && v >= inputValue && (v == inputValue || v == 0.0)
    ensures Whole(inputValue) ==> Whole(v)
  {
    if inputValue < 0.0 then 0.0 else inputValue
  }

  /** The `updates` of `handleInputChange`: the edited field and nothing
      else. The price is kept as typed; a reading is a whole number here,
      so a typed fraction is cut to its floor. */
  function UpdateFor(field: Field, value: real): CalculationPatch {
    match field
    case RoomPrice => CalculationPatch(NoChange.(roomPrice := Some(value)), None, None, None)
    case CurrentElectric => CalculationPatch(NoChange.(currentElectric := Some(value.Floor)), None, None, None)
    case CurrentWater => CalculationPatch(NoChange.(currentWater := Some(value.Floor)), None, None, None)
    case NewElectric => CalculationPatch(NoChange, None, Some(value.Floor), None)
    case NewWater => CalculationPatch(NoChange, None, None, Some(value.Floor))
  }

  /** An edit sets the edited field to the value (a reading to a whole
      value) and leaves every other field of the row as it was. */
  lemma EditChangesOneField(c: CalculationRoom, field: Field, value: real)
    requires field != RoomPrice ==> Whole(value)
    ensures var d := ApplyCalculationPatch(c, UpdateFor(field, value));
            && Reading(d, field) == value
            && (forall f :: f != field ==> Reading(d, f) == Reading(c, f))
            && d.room.roomName == c.room.roomName && d.room.blockNumber == c.room.blockNumber
            && d.room.roomNumber == c.room.roomNumber && d.room.updatedAt == c.room.updatedAt
            && d.room.previousElectric == c.room.previousElectric && d.room.previousWater == c.room.previousWater
            && d.isSelected == c.isSelected
  {
  }

  /** The errors the edit itself raises: a new reading below the current
      one, whichever of the two was typed. */
  function Flagged(c: CalculationRoom, field: Field, value: real): set<Field> {
    (if field == NewElectric && value < c.room.currentElectric as real then {NewElectric} else {})
    + (if field == CurrentElectric && (c.newElectric as real) < value then {NewElectric} else {})
    + (if field == NewWater && value < c.room.currentWater as real then {NewWater} else {})
    + (if field == CurrentWater && (c.newWater as real) < value then {NewWater} else {})
  }

  /** `setValidationErrors`: the room's set, or no entry once it is empty. */
  function Stored(errors: Errors, name: string, roomErrors: set<Field>): (r: Errors)
    ensures ErrorsOf(r, name) == roomErrors
    ensures name in r <==> roomErrors != {}
    ensures forall n :: n != name ==> (n in r <==> n in errors) && ErrorsOf(r, n) == ErrorsOf(errors, n)
  {
    if roomErrors != {} then errors[name := roomErrors] else errors - {name}
  }

  /** `validateInput` as written: it deletes the error named after the
      edited field, which for an edit of a current reading is not the error
      that edit can raise. */
  function ValidatedAsWritten(errors: Errors, c: CalculationRoom, field: Field, value: real): Errors {
    if value < 0.0 then errors
    else Stored(errors, Name(c), ErrorsOf(errors, Name(c)) - {field} + Flagged(c, field, value))
  }

  /** The error an edit of a field can raise or clear. */
  function PairError(field: Field): set<Field> {
    match field
    case RoomPrice => {}
    case CurrentElectric => {NewElectric}
    case NewElectric => {NewElectric}
    case CurrentWater => {NewWater}
    case NewWater => {NewWater}
  }

  /** `validateInput` with the pair's error recomputed on either reading's edit. */
  function Validated(errors: Errors, c: CalculationRoom, field: Field, value: real): Errors {
    if value < 0.0 then errors
    else Stored(errors, Name(c), ErrorsOf(errors, Name(c)) - PairError(field) + Flagged(c, field, value))
  }

  /** After an edit of either electricity reading the room is flagged
      exactly when its new reading is below its current one, the water
      flag stays as it was, and other rooms are untouched; the same for
      water. */
  lemma ValidatedFlagsIff(errors: Errors, c: CalculationRoom, field: Field, value: real)
    requires value >= 0.0
    requires field != RoomPrice ==> Whole(value)
    ensures var d := ApplyCalculationPatch(c, UpdateFor(field, value));
            var r := Validated(errors, c, field, value);
            && (field in {CurrentElectric, NewElectric} ==>
                  (NewElectric in ErrorsOf(r, Name(c)) <==> d.newElectric < d.room.currentElectric))
            && (field in {CurrentWater, NewWater} ==>
                  (NewWater in ErrorsOf(r, Name(c)) <==> d.newWater < d.room.currentWater))
            && (field !in {CurrentElectric, NewElectric} ==>
                  (NewElectric in ErrorsOf(r, Name(c)) <==> NewElectric in ErrorsOf(errors, Name(c))))
            && (field !in {CurrentWater, NewWater} ==>
                  (NewWater in ErrorsOf(r, Name(c)) <==> NewWater in ErrorsOf(errors, Name(c))))
            && (forall n :: n != Name(c) ==> (n in r <==> n in errors) && ErrorsOf(r, n) == ErrorsOf(errors, n))
  {
  }

  /** Only the two new-reading errors are ever stored, and never an empty set. */
  ghost predicate ErrorsWellFormed(errors: Errors) {
    forall n :: n in errors ==> errors[n] != {} && errors[n] <= {NewElectric, NewWater}
  }

  lemma ValidatedKeepsWellFormed(errors: Errors, c: CalculationRoom, field: Field, value: real)
    requires ErrorsWellFormed(errors)
    ensures ErrorsWellFormed(Validated(errors, c, field, value))
    ensures ErrorsWellFormed(ValidatedAsWritten(errors, c, field, value))
  {
    var r := Validated(errors, c, field, value);
    var w := ValidatedAsWritten(errors, c, field, value);
    forall n | n in r ensures r[n] != {} && r[n] <= {NewElectric, NewWater} {
      assert r[n] == ErrorsOf(r, n);
    }
    forall n | n in w ensures w[n] != {} && w[n] <= {NewElectric, NewWater} {
      assert w[n] == ErrorsOf(w, n);
    }
  }

  /** The two validators differ only on edits of a current reading. */
  lemma ValidatedAgreesOnOtherEdits(errors: Errors, c: CalculationRoom, field: Field, value: real)
    requires field != CurrentElectric && field != CurrentWater
    requires ErrorsWellFormed(errors)
    ensures ValidatedAsWritten(errors, c, field, value) == Validated(errors, c, field, value)
  {
    if field == RoomPrice && Name(c) in errors {
      assert errors[Name(c)] <= {NewElectric, NewWater};
      assert ErrorsOf(errors, Name(c)) - {field} == ErrorsOf(errors, Name(c)) - PairError(field);
    }
  }

  /** As written, fixing a flagged reading by lowering the current reading
      leaves the flag: the new reading 90 is below the current 100 and is
      flagged; once the current reading is lowered to 80 the pair is
      consistent, yet the error stays. */
  lemma StaleElectricError()
    ensures var c := CalculationRoom(Room("A1", "A", 1, 0.0, 100, 0, 0, 0, ""), true, 90, 0);
            var errors := map["A1" := {NewElectric}];
            var d := ApplyCalculationPatch(c, UpdateFor(CurrentElectric, 80.0));
            && d.newElectric >= d.room.currentElectric
            && NewElectric in ErrorsOf(ValidatedAsWritten(errors, c, CurrentElectric, 80.0), "A1")
            && NewElectric !in ErrorsOf(Validated(errors, c, CurrentElectric, 80.0), "A1")
  {
    var c := CalculationRoom(Room("A1", "A", 1, 0.0, 100, 0, 0, 0, ""), true, 90, 0);
    var errors := map["A1" := {NewElectric}];
    assert Name(c) == "A1";
    assert Flagged(c, CurrentElectric, 80.0) == {};
  }

  /** `calculationRooms.find(r => r.roomName === roomName)`. */
  function FindRoom(entries: seq<CalculationRoom>, name: string): (r: Option<CalculationRoom>)
    ensures r.None? <==> forall i :: 0 <= i < |entries| ==> Name(entries[i]) != name
    ensures r.Some? ==> exists i :: 0 <= i < |entries| && entries[i] == r.value && Name(r.value) == name
                                     && forall j :: 0 <= j < i ==> Name(entries[j]) != name
  {
    if exists i :: 0 <= i < |entries| && Name(entries[i]) == name
    then Some(entries[FirstIndex(entries, Name, name)])
    else None
  }

  // ---------------------------------------------------------------------
  // Saving

  /** The room `handleSave` hands back for an entry, stamped `now`. */
  function SavedRoom(c: CalculationRoom, now: string): Room {
    Room(c.room.roomName, c.room.blockNumber, c.room.roomNumber, c.room.roomPrice,
         c.newElectric, c.newWater, c.room.currentElectric, c.room.currentWater, now)
  }

  /** Saving shifts the readings: the entered readings become current, the
      old current ones previous, so the consumption billed next is what was
      entered; the next calculation of that room then starts from them. */
  lemma SavedRoomShifts(c: CalculationRoom, now: string)
    ensures var r := SavedRoom(c, now);
            && r.roomName == c.room.roomName && r.blockNumber == c.room.blockNumber
            && r.roomNumber == c.room.roomNumber && r.roomPrice == c.room.roomPrice
            && r.currentElectric - r.previousElectric == c.newElectric - c.room.currentElectric
            && r.currentWater - r.previousWater == c.newWater - c.room.currentWater
            && Convert(r).room.previousElectric == c.room.currentElectric
            && Convert(r).newElectric == c.newElectric && Convert(r).newWater == c.newWater
  {
  }

  /** `calculationRooms.map(...)` in `handleSave`. */
  function SavedRooms(entries: seq<CalculationRoom>, now: string): (r: seq<Room>)
    ensures |r| == |entries| && forall i :: 0 <= i < |r| ==> r[i] == SavedRoom(entries[i], now)
  {
    seq(|entries|, i requires 0 <= i < |entries| => SavedRoom(entries[i], now))
  }

  /** `toggleEdit`: flip one name in or out of the set. */
  function Toggle(s: set<string>, name: string): (r: set<string>)
    ensures name in r <==> name !in s
    ensures forall n :: n != name ==> (n in r <==> n in s)
  {
    if name in s then s - {name} else s + {name}
  }

  lemma ToggleInvolution(s: set<string>, name: string)
    ensures Toggle(Toggle(s, name), name) == s
  {
  }

  function BlockOfEntry(c: CalculationRoom): string { c.room.blockNumber }

  function NumberOfEntry(c: CalculationRoom): int { c.room.roomNumber }

  class Stage {
    const store: CalculationRoomsStore.Store
    var activeBlock: string
    var editingRooms: set<string>
    var validationErrors: Errors

    /** The first room's block is the active tab; nothing is being edited
        or flagged. */
    constructor(store: CalculationRoomsStore.Store)
      ensures this.store == store
      ensures activeBlock == (if store.calculationRooms != [] then store.calculationRooms[0].room.blockNumber else "")
      ensures editingRooms == {} && validationErrors == map[]
    {
      this.store := store;
      activeBlock := if store.calculationRooms != [] then store.calculationRooms[0].room.blockNumber else "";
      editingRooms := {};
      validationErrors := map[];
    }

    /** `blockGroups`. */
    method BlockGroups() returns (groups: seq<BlockGroup<CalculationRoom>>)
      ensures groups == BlockGroupsOf(store.calculationRooms, BlockOfEntry, NumberOfEntry)
    {
      groups := Grouping.BlockGroups(store.calculationRooms, BlockOfEntry, NumberOfEntry);
    }

    /** `validateInput`, on a copy of the room's set; it returns the value. */
    method ValidateInput(room: CalculationRoom, field: Field, value: real) returns (v: real)
      modifies this
      ensures v == value
      ensures validationErrors == Validated(old(validationErrors), room, field, value)
      ensures editingRooms == old(editingRooms) && activeBlock == old(activeBlock)
    {
      v := value;
      var roomErrors := ErrorsOf(validationErrors, Name(room));
      roomErrors := roomErrors - PairError(field);
      ghost var kept := roomErrors;
      if value < 0.0 {
        return;
      }
      if field == NewElectric && value < room.room.currentElectric as real {
        roomErrors := roomErrors + {NewElectric};
      }
      if field == CurrentElectric && (room.newElectric as real) < value {
        roomErrors := roomErrors + {NewElectric};
      }
      assert roomErrors == kept + (if field in {CurrentElectric, NewElectric} then Flagged(room, field, value) else {});
      if field == NewWater && value < room.room.currentWater as real {
        roomErrors := roomErrors + {NewWater};
      }
      if field == CurrentWater && (room.newWater as real) < value {
        roomErrors := roomErrors + {NewWater};
      }
      assert roomErrors == kept + Flagged(room, field, value);
      if roomErrors != {} {
        validationErrors := validationErrors[Name(room) := roomErrors];
      } else {
        validationErrors := validationErrors - {Name(room)};
      }
    }

    /** `handleInputChange`: nothing for an unknown room; otherwise the
        clamped value is validated and written as the only field of the update. */
    method HandleInputChange(roomName: string, field: Field, inputValue: real)
      modifies this, store
      ensures editingRooms == old(editingRooms) && activeBlock == old(activeBlock)
      ensures var found := FindRoom(old(store.calculationRooms), roomName);
              if found.None? then
                store.calculationRooms == old(store.calculationRooms) && validationErrors == old(validationErrors)
              else
                && store.calculationRooms == Updated(old(store.calculationRooms), roomName, UpdateFor(field, Clamp(inputValue)))
                && validationErrors == Validated(old(validationErrors), found.value, field, Clamp(inputValue))
    {
      var found := FindRoom(store.calculationRooms, roomName);
      if found.None? {
        return;
      }
      var room := found.value;
      var value := Clamp(inputValue);
      var updates;
      if field == RoomPrice {
        updates := UpdateFor(field, value);
        var _ := ValidateInput(room, field, value);
      } else {
        var v := ValidateInput(room, field, value);
        updates := UpdateFor(field, v);
      }
      store.UpdateCalculationRoom(roomName, updates);
    }

    /** `handleAddRooms`: every selected room is added in turn. */
    method HandleAddRooms(selected: seq<Room>)
      modifies store
      ensures store.calculationRooms == old(store.calculationRooms) + ConvertAll(selected)
    {
      for i := 0 to |selected|
        invariant store.calculationRooms == old(store.calculationRooms) + ConvertAll(selected[..i])
      {
        ConvertAllAppend(selected[..i], selected[i]);
        assert selected[..i + 1] == selected[..i] + [selected[i]];
        store.AddCalculationRoom(selected[i]);
      }
      assert selected[..|selected|] == selected;
    }

    /** `handleSave`: the rooms handed to `onSave`. */
    method HandleSave(now: string) returns (updatedRooms: seq<Room>)
      ensures updatedRooms == SavedRooms(store.calculationRooms, now)
    {
      updatedRooms := SavedRooms(store.calculationRooms, now);
    }

    method ToggleEdit(roomName: string)
      modifies this
      ensures editingRooms == Toggle(old(editingRooms), roomName)
      ensures validationErrors == old(validationErrors) && activeBlock == old(activeBlock)
    {
      editingRooms := Toggle(editingRooms, roomName);
    }
  }
}
