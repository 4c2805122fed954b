/** `src/store/calculation-rooms.ts`: the rooms of the calculation in
    progress, each with the readings being entered. */
module CalculationRoomsStore {
  import opened Wrappers
  import opened Types
  import opened Seqs

  /** `convertToCalculationRoom`: selected, with the new readings starting
      at the current ones. */
  function Convert(room: Room): (c: CalculationRoom)
    ensures c.room == room && c.isSelected
    ensures c.newElectric == room.currentElectric && c.newWater == room.currentWater
  {
    CalculationRoom(room, true, room.currentElectric, room.currentWater)
  }

  /** `Partial<CalculationFields> & Partial<Room>`. */
  datatype CalculationPatch = CalculationPatch(
    room: RoomPatch,
    isSelected: Option<bool>,
    newElectric: Option<int>,
    newWater: Option<int>)

  function ApplyCalculationPatch(c: CalculationRoom, p: CalculationPatch): (d: CalculationRoom)
    ensures d.room == ApplyPatch(c.room, p.room)
    ensures d.isSelected == Pick(p.isSelected, c.isSelected)
    ensures d.newElectric == Pick(p.newElectric, c.newElectric) && d.newWater == Pick(p.newWater, c.newWater)
  {
    CalculationRoom(ApplyPatch(c.room, p.room), Pick(p.isSelected, c.isSelected),
                    Pick(p.newElectric, c.newElectric), Pick(p.newWater, c.newWater))
  }

  function Name(c: CalculationRoom): string { c.room.roomName }

  function ConvertAll(rooms: seq<Room>): (r: seq<CalculationRoom>)
    ensures |r| == |rooms| && forall i :: 0 <= i < |r| ==> r[i] == Convert(rooms[i])
  {
    seq(|rooms|, i requires 0 <= i < |rooms| => Convert(rooms[i]))
  }

  /** Setting a list and then adding a room is setting the longer list. */
  lemma ConvertAllAppend(rooms: seq<Room>, room: Room)
    ensures ConvertAll(rooms + [room]) == ConvertAll(rooms) + [Convert(room)]
  {
  }

  function Removed(entries: seq<CalculationRoom>, name: string): (r: seq<CalculationRoom>)
    ensures forall x :: x in r <==> x in entries && Name(x) != name
  {
    Filter(entries, (c: CalculationRoom) => Name(c) != name)
  }

  /** Removing keeps the other entries in order, each as often as before. */
  lemma RemovedInOrder(a: seq<CalculationRoom>, b: seq<CalculationRoom>, name: string, x: CalculationRoom)
    ensures Removed(a + b, name) == Removed(a, name) + Removed(b, name)
    ensures Removed([x], name) == if Name(x) != name then [x] else []
  {
    FilterAppend(a, b, (c: CalculationRoom) => Name(c) != name);
  }

  function Updated(entries: seq<CalculationRoom>, name: string, updates: CalculationPatch): (r: seq<CalculationRoom>)
    ensures |r| == |entries|
    ensures forall i :: 0 <= i < |r| && Name(entries[i]) != name ==> r[i] == entries[i]
    ensures forall i :: 0 <= i < |r| && Name(entries[i]) == name ==> r[i] == ApplyCalculationPatch(entries[i], updates)
  {
    seq(|entries|, i requires 0 <= i < |entries| =>
      if Name(entries[i]) == name then ApplyCalculationPatch(entries[i], updates) else entries[i])
  }

  /** Adding a room and removing its name again leaves the other entries. */
  lemma RemoveAfterAdd(entries: seq<CalculationRoom>, room: Room)
    ensures Removed(entries + [Convert(room)], room.roomName) == Removed(entries, room.roomName)
  {
    FilterAppend(entries, [Convert(room)], (c: CalculationRoom) => Name(c) != room.roomName);
  }

  class Store {
    var calculationRooms: seq<CalculationRoom>

    constructor()
      ensures calculationRooms == []
    {
      calculationRooms := [];
    }

    method SetCalculationRooms(rooms: seq<Room>)
      modifies this
      ensures calculationRooms == ConvertAll(rooms)
    {
      calculationRooms := ConvertAll(rooms);
    }

    method AddCalculationRoom(room: Room)
      modifies this
      ensures calculationRooms == old(calculationRooms) + [Convert(room)]
    {
      calculationRooms := calculationRooms + [Convert(room)];
    }

    method RemoveCalculationRoom(name: string)
      modifies this
      ensures calculationRooms == Removed(old(calculationRooms), name)
    {
      calculationRooms := Removed(calculationRooms, name);
    }

    method UpdateCalculationRoom(name: string, updates: CalculationPatch)
      modifies this
      ensures calculationRooms == Updated(old(calculationRooms), name, updates)
    {
      calculationRooms := Updated(calculationRooms, name, updates);
    }

    method ClearCalculation()
      modifies this
      ensures calculationRooms == []
    {
      calculationRooms := [];
    }
  }
}
