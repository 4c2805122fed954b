/** The records the application passes around. `Room`, `UtilCost` and the
    calculation fields follow `src/types/index.ts`; `UtilityCostSet`,
    `PrintRoomData` and `Utility` follow the shapes the components and the
    PDF generator read and build. Meter readings are whole numbers, prices
    and amounts exact reals in thousands of VND. */
module Types {
  import opened Wrappers

  datatype Room = Room(
    roomName: string,
    blockNumber: string,
    roomNumber: int,
    roomPrice: real,
    currentElectric: int,
    currentWater: int,
    previousElectric: int,
    previousWater: int,
    updatedAt: string)

  /** `Partial<Room>`: the fields an update carries. */
  datatype RoomPatch = RoomPatch(
    roomName: Option<string>,
    blockNumber: Option<string>,
    roomNumber: Option<int>,
    roomPrice: Option<real>,
    currentElectric: Option<int>,
    currentWater: Option<int>,
    previousElectric: Option<int>,
    previousWater: Option<int>,
    updatedAt: Option<string>)

  function Pick<T>(o: Option<T>, otherwise: T): T {
    if o.Some? then o.value else otherwise
  }

  /** A field after a spread: the patch's value when it carries one, the
      old value when it does not. */
  predicate Overrides<T(==)>(o: Option<T>, before: T, after: T) {
    (o.Some? ==> after == o.value) && (o.None? ==> after == before)
  }

  /** `{ ...room, ...updates }`: every field the patch carries overrides the room's. */
  function ApplyPatch(r: Room, p: RoomPatch): (q: Room)
    ensures Overrides(p.roomName, r.roomName, q.roomName)
    ensures Overrides(p.blockNumber, r.blockNumber, q.blockNumber)
    ensures Overrides(p.roomNumber, r.roomNumber, q.roomNumber)
    ensures Overrides(p.roomPrice, r.roomPrice, q.roomPrice)
    ensures Overrides(p.currentElectric, r.currentElectric, q.currentElectric)
    ensures Overrides(p.currentWater, r.currentWater, q.currentWater)
    ensures Overrides(p.previousElectric, r.previousElectric, q.previousElectric)
    ensures Overrides(p.previousWater, r.previousWater, q.previousWater)
    ensures Overrides(p.updatedAt, r.updatedAt, q.updatedAt)
  {
    Room(Pick(p.roomName, r.roomName), Pick(p.blockNumber, r.blockNumber),
         Pick(p.roomNumber, r.roomNumber), Pick(p.roomPrice, r.roomPrice),
         Pick(p.currentElectric, r.currentElectric), Pick(p.currentWater, r.currentWater),
         Pick(p.previousElectric, r.previousElectric), Pick(p.previousWater, r.previousWater),
         Pick(p.updatedAt, r.updatedAt))
  }

  const NoChange := RoomPatch(None, None, None, None, None, None, None, None, None)

  /** The patch that carries every field of `r`. */
  function FullPatch(r: Room): RoomPatch {
    RoomPatch(Some(r.roomName), Some(r.blockNumber), Some(r.roomNumber), Some(r.roomPrice),
              Some(r.currentElectric), Some(r.currentWater), Some(r.previousElectric),
              Some(r.previousWater), Some(r.updatedAt))
  }

  lemma ApplyPatchIdentities(r: Room, s: Room)
    ensures ApplyPatch(r, NoChange) == r
    ensures ApplyPatch(r, FullPatch(s)) == s
  {
  }

  /** The three room keys the components group, select and sort by. */
  function NameOf(r: Room): string { r.roomName }

  function BlockOfRoom(r: Room): string { r.blockNumber }

  function NumberOfRoom(r: Room): int { r.roomNumber }

  /** `CalculationRoom = Room & CalculationFields`. */
  datatype CalculationRoom = CalculationRoom(
    room: Room,
    isSelected: bool,
    newElectric: int,
    newWater: int)

  datatype UtilType = Electric | Water | Garbage

  datatype UtilCost = UtilCost(utilType: UtilType, price: real)

  datatype ServiceCost = ServiceCost(name: string, fee: real)

  /** A priced cost set; `garbageCost` is only present on records written
      before service costs existed. */
  datatype UtilityCostSet = UtilityCostSet(
    id: int,
    name: string,
    electricityCost: real,
    waterCost: real,
    serviceCosts: seq<ServiceCost>,
    garbageCost: Option<real>)

  /** The per-room record the PDF generator reads. */
  datatype PrintRoomData = PrintRoomData(
    roomName: string,
    blockNumber: string,
    roomNumber: int,
    roomPrice: real,
    currentElectric: int,
    currentWater: int,
    previousElectric: int,
    previousWater: int)

  function ToPrintRoom(r: Room): PrintRoomData {
    PrintRoomData(r.roomName, r.blockNumber, r.roomNumber, r.roomPrice,
                  r.currentElectric, r.currentWater, r.previousElectric, r.previousWater)
  }

  /** The print date as the three locale renderings the generator uses
      (`toLocaleDateString('vi-VN', …)` with its full, month/year and
      day/month options). */
  datatype DateTexts = DateTexts(full: string, monthYear: string, dayMonth: string)

  /** `data.utility`: one price per unit and a single garbage fee. */
  datatype Utility = Utility(
    electricityCost: real,
    waterCost: real,
    garbageCost: real,
    printDate: DateTexts,
    invoice: bool,
    total: bool,
    bottomUp: bool,
    includeDate: bool)
}
