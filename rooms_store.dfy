/** `src/store/rooms.ts`: the persistent list of rooms and its actions. */
module RoomsStore {
  import opened Wrappers
  import opened Types
  import opened Seqs

  /** `updatedRooms.find(r => r.roomName === name)`. */
  function FindByName(rooms: seq<Room>, name: string): (r: Option<Room>)
    ensures r.Some? <==> exists i :: 0 <= i < |rooms| && rooms[i].roomName == name
    ensures r.Some? ==> exists i :: 0 <= i < |rooms| && rooms[i] == r.value
                           && r.value.roomName == name
                           && forall j :: 0 <= j < i ==> rooms[j].roomName != name
  {
    if rooms == [] then None
    else if rooms[0].roomName == name then Some(rooms[0])
    else
      var r := FindByName(rooms[1..], name);
      assert r.Some? ==> exists i :: 0 <= i < |rooms[1..]| && rooms[1..][i] == r.value
                           && forall j :: 0 <= j < i ==> rooms[1..][j].roomName != name;
      assert forall i :: 1 <= i < |rooms| ==> rooms[i] == rooms[1..][i - 1];
      r
  }

  /** `updateRooms`: each room is replaced by the first updated room with
      its name, if there is one. */
  function UpdatedRooms(rooms: seq<Room>, updated: seq<Room>): (r: seq<Room>)
    ensures |r| == |rooms|
    ensures forall i :: 0 <= i < |r| ==> r[i].roomName == rooms[i].roomName
    ensures forall i :: 0 <= i < |r| ==>
              (r[i] == rooms[i] && forall j :: 0 <= j < |updated| ==> updated[j].roomName != rooms[i].roomName)
              || (exists j :: 0 <= j < |updated| && r[i] == updated[j]
                     && forall k :: 0 <= k < j ==> updated[k].roomName != rooms[i].roomName)
  {
    seq(|rooms|, i requires 0 <= i < |rooms| =>
      var u := FindByName(updated, rooms[i].roomName);
      if u.Some? then u.value else rooms[i])
  }

  /** An update mentioning no stored room changes nothing, and updated rooms
      with new names are never added. */
  lemma UpdateWithUnknownNames(rooms: seq<Room>, updated: seq<Room>)
    requires forall i, j :: 0 <= i < |rooms| && 0 <= j < |updated| ==> rooms[i].roomName != updated[j].roomName
    ensures UpdatedRooms(rooms, updated) == rooms
  {
  }

  /** `getRemainingRooms`. */
  function Remaining(rooms: seq<Room>, exclude: seq<string>): (r: seq<Room>)
    ensures forall x :: x in r <==> x in rooms && x.roomName !in exclude
  {
    Filter(rooms, (room: Room) => room.roomName !in exclude)
  }

  /** The remaining rooms keep their order and multiplicity: the result on
      a concatenation is the results on the parts concatenated, and a
      single room is kept exactly when its name is not excluded. */
  lemma RemainingInOrder(a: seq<Room>, b: seq<Room>, exclude: seq<string>, x: Room)
    ensures Remaining(a + b, exclude) == Remaining(a, exclude) + Remaining(b, exclude)
    ensures Remaining([x], exclude) == if x.roomName !in exclude then [x] else []
  {
    FilterAppend(a, b, (room: Room) => room.roomName !in exclude);
  }

  /** `editRoom`: every room with that name gets the updates merged in. */
  function EditedRooms(rooms: seq<Room>, name: string, updates: RoomPatch): (r: seq<Room>)
    ensures |r| == |rooms|
    ensures forall i :: 0 <= i < |r| && rooms[i].roomName != name ==> r[i] == rooms[i]
    ensures forall i :: 0 <= i < |r| && rooms[i].roomName == name ==> r[i] == ApplyPatch(rooms[i], updates)
  {
    seq(|rooms|, i requires 0 <= i < |rooms| =>
      if rooms[i].roomName == name then ApplyPatch(rooms[i], updates) else rooms[i])
  }

  /** Editing twice with the same updates is editing once, provided the
      updates do not rename the rooms to another name that is in use. */
  lemma EditIdempotent(rooms: seq<Room>, name: string, updates: RoomPatch)
    requires updates.roomName.None? || updates.roomName == Some(name)
    ensures EditedRooms(EditedRooms(rooms, name, updates), name, updates) == EditedRooms(rooms, name, updates)
  {
  }

  /** `deleteRoom`. */
  function DeletedRooms(rooms: seq<Room>, name: string): (r: seq<Room>)
    ensures forall x :: x in r <==> x in rooms && x.roomName != name
  {
    Filter(rooms, (room: Room) => room.roomName != name)
  }

  /** Deleting keeps the other rooms in order, each as often as before. */
  lemma DeletedInOrder(a: seq<Room>, b: seq<Room>, name: string, x: Room)
    ensures DeletedRooms(a + b, name) == DeletedRooms(a, name) + DeletedRooms(b, name)
    ensures DeletedRooms([x], name) == if x.roomName != name then [x] else []
  {
    FilterAppend(a, b, (room: Room) => room.roomName != name);
  }

  /** Deleting a room that was just added undoes the addition of it (and
      also removes the earlier rooms of that name). */
  lemma DeleteAfterAdd(rooms: seq<Room>, room: Room)
    ensures DeletedRooms(rooms + [room], room.roomName) == DeletedRooms(rooms, room.roomName)
  {
    FilterAppend(rooms, [room], (x: Room) => x.roomName != room.roomName);
  }

  /** Deleting a name is excluding it from the remaining rooms. */
  lemma DeleteIsRemainingWithout(rooms: seq<Room>, name: string)
    ensures DeletedRooms(rooms, name) == Remaining(rooms, [name])
  {
    FilterSame(rooms, (room: Room) => room.roomName != name, (room: Room) => room.roomName !in [name]);
  }

  class Store {
    var rooms: seq<Room>

    constructor()
      ensures rooms == []
    {
      rooms := [];
    }

    /** `setRooms`: the list becomes exactly the given one. */
    method SetRooms(newRooms: seq<Room>)
      modifies this
      ensures rooms == newRooms
    {
      rooms := newRooms;
    }

    method UpdateRooms(updated: seq<Room>)
      modifies this
      ensures rooms == UpdatedRooms(old(rooms), updated)
    {
      rooms := UpdatedRooms(rooms, updated);
    }

    /** `getRemainingRooms`: reads the store, changes nothing. */
    method GetRemainingRooms(exclude: seq<string>) returns (r: seq<Room>)
      ensures r == Remaining(rooms, exclude)
    {
      r := Remaining(rooms, exclude);
    }

    /** `addRoom`: appended at the end, with no duplicate check. */
    method AddRoom(room: Room)
      modifies this
      ensures rooms == old(rooms) + [room]
    {
      rooms := rooms + [room];
    }

    method EditRoom(name: string, updates: RoomPatch)
      modifies this
      ensures rooms == EditedRooms(old(rooms), name, updates)
    {
      rooms := EditedRooms(rooms, name, updates);
    }

    method DeleteRoom(name: string)
      modifies this
      ensures rooms == DeletedRooms(old(rooms), name)
    {
      rooms := DeletedRooms(rooms, name);
    }
  }
}
