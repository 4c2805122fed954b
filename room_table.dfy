/** `src/components/room-table.tsx`: the list of rooms with its text
    filter, its block-then-number sort, and the add, edit and delete actions
    on the rooms store. */
module RoomTable {
  import opened Wrappers
  import opened Types
  import opened Seqs
  import opened Text
  import opened JsonValue
  import opened Grouping
  import RoomsStore
  import RoomDialog

  /** `fuzzyFilter`: a string cell matches a string filter when it contains
      it, ignoring case; anything else never matches. */
  function FuzzyFilter(cellValue: Json, value: Json): bool {
    if cellValue.JStr? && value.JStr? then Contains(Lower(cellValue.s), Lower(value.s)) else false
  }

  /** The filter keeps a row exactly when the lower-cased filter text
      occurs somewhere in the lower-cased cell; the empty text keeps every
      string cell. */
  lemma FuzzyFilterMatches(cellValue: Json, value: Json)
    ensures FuzzyFilter(cellValue, value) <==>
              cellValue.JStr? && value.JStr? && exists i :: OccursAt(Lower(cellValue.s), Lower(value.s), i)
    ensures cellValue.JStr? && value == JStr("") ==> FuzzyFilter(cellValue, value)
  {
    if cellValue.JStr? && value.JStr? {
      ContainsIsSubstring(Lower(cellValue.s), Lower(value.s));
    }
    if cellValue.JStr? && value == JStr("") {
      assert OccursAt(Lower(cellValue.s), Lower(value.s), 0);
    }
  }

  /** `getRoomSortingFn`: the block comparison when it is not 0, else the
      difference of the room numbers. */
  function RoomCompare(a: Room, b: Room): int {
    var c := Compare(a.blockNumber, b.blockNumber);
    if c != 0 then c else a.roomNumber - b.roomNumber
  }

  /** The table sorts by the same order as the selection lists: block,
      then number; it is antisymmetric, and 0 only for rooms of the same
      block and number. */
  lemma RoomCompareProperties(a: Room, b: Room)
    ensures RoomCompare(a, b) <= 0 <==> BlockThenNumber(BlockOfRoom, NumberOfRoom)(a, b)
    ensures RoomCompare(a, b) == -RoomCompare(b, a)
    ensures RoomCompare(a, b) == 0 <==> a.blockNumber == b.blockNumber && a.roomNumber == b.roomNumber
  {
    CompareZero(a.blockNumber, b.blockNumber);
    CompareAntisymmetric(a.blockNumber, b.blockNumber);
    var c := Compare(a.blockNumber, b.blockNumber);
    assert BlockThenNumber(BlockOfRoom, NumberOfRoom)(a, b) == (c < 0 || (c == 0 && a.roomNumber <= b.roomNumber));
  }

  /** `[...new Set(rooms.map(room => room.blockNumber))]`. */
  function BlockNumbers(rooms: seq<Room>): seq<string> {
    KeysInOrder(rooms, BlockOfRoom)
  }

  /** The filter choices: every block once, each in the order of its first room. */
  lemma BlockNumbersProperties(rooms: seq<Room>, i: nat, j: nat)
    ensures Distinct(BlockNumbers(rooms))
    ensures forall b :: b in BlockNumbers(rooms) <==> exists k :: 0 <= k < |rooms| && rooms[k].blockNumber == b
    ensures i < j < |BlockNumbers(rooms)| ==>
              FirstIndex(rooms, BlockOfRoom, BlockNumbers(rooms)[i]) < FirstIndex(rooms, BlockOfRoom, BlockNumbers(rooms)[j])
  {
    if i < j < |BlockNumbers(rooms)| {
      KeysInFirstOccurrenceOrder(rooms, BlockOfRoom, i, j);
    }
  }

  /** `updatedRoom as Room`: the record, when the patch carries every field. */
  function AsRoom(p: RoomPatch): Option<Room> {
    if p.roomName.Some? && p.blockNumber.Some? && p.roomNumber.Some? && p.roomPrice.Some?
       && p.currentElectric.Some? && p.currentWater.Some? && p.previousElectric.Some?
       && p.previousWater.Some? && p.updatedAt.Some?
    then Some(Room(p.roomName.value, p.blockNumber.value, p.roomNumber.value, p.roomPrice.value,
                   p.currentElectric.value, p.currentWater.value, p.previousElectric.value,
                   p.previousWater.value, p.updatedAt.value))
    else None
  }

  /** The cast is exact on complete patches, in both directions. */
  lemma AsRoomRoundTrip(r: Room, p: RoomPatch)
    ensures AsRoom(FullPatch(r)) == Some(r)
    ensures AsRoom(p) == Some(r) ==> FullPatch(r) == p
  {
  }

  /** Every field but the date is filled in, as in the blank form. */
  predicate FilledButDate(f: RoomPatch) {
    f.roomName.Some? && f.blockNumber.Some? && f.roomNumber.Some? && f.roomPrice.Some?
    && f.currentElectric.Some? && f.currentWater.Some? && f.previousElectric.Some? && f.previousWater.Some?
  }

  /** A new room's form starts filled and typing a name keeps it filled; a
      save from such a form is a complete room, so adding it never adds a
      record with missing fields. */
  lemma NewRoomSavesComplete(form: RoomPatch, value: string, rooms: seq<Room>, now: string)
    ensures FilledButDate(RoomDialog.DefaultNewRoom)
    ensures FilledButDate(form) ==> FilledButDate(RoomDialog.TypedName(form, value))
    ensures FilledButDate(form) && RoomDialog.Submit(form, rooms, None, now).Save? ==>
              AsRoom(RoomDialog.Submit(form, rooms, None, now).room).Some?
  {
  }

  class Table {
    const store: RoomsStore.Store
    var selectedRoom: Option<Room>
    var isEditDialogOpen: bool
    var isDeleteDialogOpen: bool

    constructor(store: RoomsStore.Store)
      ensures this.store == store && selectedRoom == None
      ensures !isEditDialogOpen && !isDeleteDialogOpen
    {
      this.store := store;
      selectedRoom := None;
      isEditDialogOpen := false;
      isDeleteDialogOpen := false;
    }

    method HandleEdit(room: Room)
      modifies this
      ensures selectedRoom == Some(room) && isEditDialogOpen && isDeleteDialogOpen == old(isDeleteDialogOpen)
    {
      selectedRoom := Some(room);
      isEditDialogOpen := true;
    }

    method HandleDelete(room: Room)
      modifies this
      ensures selectedRoom == Some(room) && isDeleteDialogOpen && isEditDialogOpen == old(isEditDialogOpen)
    {
      selectedRoom := Some(room);
      isDeleteDialogOpen := true;
    }

    method HandleAddNew()
      modifies this
      ensures selectedRoom == None && isEditDialogOpen && isDeleteDialogOpen == old(isDeleteDialogOpen)
    {
      selectedRoom := None;
      isEditDialogOpen := true;
    }

    /** `handleSave`: an edit of the selected room, or else an added room. */
    method HandleSave(updatedRoom: RoomPatch)
      modifies this, store
      ensures selectedRoom == old(selectedRoom) && !isEditDialogOpen && isDeleteDialogOpen == old(isDeleteDialogOpen)
      ensures old(selectedRoom).Some? ==>
                store.rooms == RoomsStore.EditedRooms(old(store.rooms), old(selectedRoom).value.roomName, updatedRoom)
      ensures old(selectedRoom).None? && AsRoom(updatedRoom).Some? ==>
                store.rooms == old(store.rooms) + [AsRoom(updatedRoom).value]
      ensures old(selectedRoom).None? && AsRoom(updatedRoom).None? ==> store.rooms == old(store.rooms)
    {
      if selectedRoom.Some? {
        store.EditRoom(selectedRoom.value.roomName, updatedRoom);
      } else {
        var room := AsRoom(updatedRoom);
        if room.Some? {
          store.AddRoom(room.value);
        }
      }
      isEditDialogOpen := false;
    }

    /** `handleConfirmDelete`: nothing without a selected room. */
    method HandleConfirmDelete()
      modifies this, store
      ensures selectedRoom == old(selectedRoom) && isEditDialogOpen == old(isEditDialogOpen)
      ensures old(selectedRoom).None? ==> store.rooms == old(store.rooms) && isDeleteDialogOpen == old(isDeleteDialogOpen)
      ensures old(selectedRoom).Some? ==>
                store.rooms == RoomsStore.DeletedRooms(old(store.rooms), old(selectedRoom).value.roomName)
                && !isDeleteDialogOpen
    {
      if selectedRoom.None? {
        return;
      }
      store.DeleteRoom(selectedRoom.value.roomName);
      isDeleteDialogOpen := false;
    }
  }
}
