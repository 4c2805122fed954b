/** `src/components/printing-stage.tsx`: choosing the rooms, the cost set
    and the print options, and assembling what the PDF generator is given. */
module PrintingStage {
  import opened Wrappers
  import opened Types
  import opened Seqs
  import opened Text
  import opened Grouping
  import Migrate

  /** A calendar day. */
  datatype Date = Date(year: int, month: int, day: int)

  datatype PrintTypes = PrintTypes(invoice: bool, total: bool)

  datatype PrintingOptions = PrintingOptions(
    types: PrintTypes,
    bottomUp: bool,
    includeDate: bool,
    selectedDate: Option<Date>)

  /** The initial options: invoices only, top-down, with the date, and the
      10th of the current month as the print date. */
  function DefaultOptions(today: Date): (o: PrintingOptions)
    ensures o.types.invoice && !o.types.total && !o.bottomUp && o.includeDate
    ensures o.selectedDate == Some(Date(today.year, today.month, 10))
  {
    PrintingOptions(PrintTypes(true, false), false, true, Some(Date(today.year, today.month, 10)))
  }

  /** The `useEffect`: with none chosen yet, the first set is chosen. */
  function EffectiveCostSet(current: Option<UtilityCostSet>, costSets: seq<UtilityCostSet>): (r: Option<UtilityCostSet>)
    ensures current.Some? ==> r == current
    ensures current.None? ==> (r.Some? <==> costSets != [])
    ensures current.None? && costSets != [] ==> r == Some(costSets[0])
  {
    if |costSets| > 0 && current.None? then Some(costSets[0]) else current
  }

  /** The effect re-runs after its own update and then changes nothing. */
  lemma EffectiveCostSetStable(current: Option<UtilityCostSet>, costSets: seq<UtilityCostSet>)
    ensures EffectiveCostSet(EffectiveCostSet(current, costSets), costSets) == EffectiveCostSet(current, costSets)
  {
  }

  // ---------------------------------------------------------------------
  // The garbage fee

  /** The fees of a list of service costs, added up. */
  function SumFees(costs: seq<ServiceCost>): real {
    if costs == [] then 0.0 else SumFees(costs[..|costs| - 1]) + costs[|costs| - 1].fee
  }

  lemma {:induction false} SumFeesAppend(a: seq<ServiceCost>, b: seq<ServiceCost>)
    ensures SumFees(a + b) == SumFees(a) + SumFees(b)
    decreases |b|
  {
    if b == [] {
      assert a + b == a;
    } else {
      var c := b[..|b| - 1];
      assert (a + b)[..|a + b| - 1] == a + c;
      SumFeesAppend(a, c);
    }
  }

  /** `garbageCost: selectedCostSet.garbageCost` as written: the legacy
      field, undefined (`None`) on every set that does not carry it. */
  function GarbageFeeAsWritten(s: UtilityCostSet): Option<real> {
    s.garbageCost
  }

  /** The fee the invoices print: the set's service costs added up, or the
      legacy field on a set without service costs (0 when that is absent too). */
  function GarbageFee(s: UtilityCostSet): real {
    if s.serviceCosts != [] then SumFees(s.serviceCosts) else Pick(s.garbageCost, 0.0)
  }

  /** On a record written before service costs existed the two agree. */
  lemma GarbageFeeOfLegacySet(s: UtilityCostSet)
    requires s.serviceCosts == [] && s.garbageCost.Some?
    ensures GarbageFeeAsWritten(s) == Some(GarbageFee(s))
  {
  }

  /** A migrated legacy set holds its fee only as the one service cost, so
      as written its fee is undefined; the corrected fee is the old one. */
  lemma GarbageFeeOfMigratedSet(s: UtilityCostSet, g: real)
    requires s.serviceCosts == [ServiceCost(Migrate.LegacyServiceName, g)] && s.garbageCost.None?
    ensures GarbageFeeAsWritten(s).None?
    ensures GarbageFee(s) == g
  {
    assert s.serviceCosts[..0] == [];
    assert SumFees(s.serviceCosts) == SumFees([]) + g;
  }

  /** Every set without the legacy field, as the add dialog creates them,
      has no fee as written; the corrected fee adds its service costs. */
  lemma GarbageFeeOfNewSet(s: UtilityCostSet)
    requires s.garbageCost.None?
    ensures GarbageFeeAsWritten(s).None?
    ensures GarbageFee(s) == SumFees(s.serviceCosts)
  {
  }

  /** `printData.utility`, with the corrected garbage fee and the print
      date as rendered by `texts`. */
  function UtilityOf(s: UtilityCostSet, o: PrintingOptions, texts: DateTexts): (u: Utility)
    ensures u.electricityCost == s.electricityCost && u.waterCost == s.waterCost
    ensures u.garbageCost == GarbageFee(s) && u.printDate == texts
    ensures u.invoice == o.types.invoice && u.total == o.types.total
    ensures u.bottomUp == o.bottomUp && u.includeDate == o.includeDate
  {
    Utility(s.electricityCost, s.waterCost, GarbageFee(s), texts,
            o.types.invoice, o.types.total, o.bottomUp, o.includeDate)
  }

  /** `selectedRoomsList`: the selected rooms in block-then-number order. */
  function SelectedRoomsList(rooms: seq<Room>, selected: set<string>): seq<Room> {
    SelectedSorted(rooms, NameOf, selected, BlockOfRoom, NumberOfRoom)
  }

  function PrintRooms(rooms: seq<Room>): (r: seq<PrintRoomData>)
    ensures |r| == |rooms| && forall i :: 0 <= i < |rooms| ==> r[i] == ToPrintRoom(rooms[i])
  {
    seq(|rooms|, i requires 0 <= i < |rooms| => ToPrintRoom(rooms[i]))
  }

  /** What `handlePrint` hands on: the generator's input and the `onPrint`
      arguments. */
  datatype PrintRequest = PrintRequest(
    printRooms: seq<PrintRoomData>,
    utility: Utility,
    selectedRooms: seq<Room>,
    costSet: UtilityCostSet,
    options: PrintingOptions)

  /** `handlePrint`: nothing without a cost set, a selected room and a date. */
  function Print(rooms: seq<Room>, selected: set<string>, costSet: Option<UtilityCostSet>,
                 o: PrintingOptions, render: Date -> DateTexts): Option<PrintRequest> {
    if costSet.None? || |selected| == 0 || o.selectedDate.None? then None
    else
      var list := SelectedRoomsList(rooms, selected);
      Some(PrintRequest(PrintRooms(list), UtilityOf(costSet.value, o, render(o.selectedDate.value)),
                        list, costSet.value, o))
  }

  /** A print happens exactly when a cost set, a room and a date are chosen. */
  lemma PrintGuard(rooms: seq<Room>, selected: set<string>, costSet: Option<UtilityCostSet>,
                   o: PrintingOptions, render: Date -> DateTexts)
    ensures Print(rooms, selected, costSet, o, render).Some?
            <==> costSet.Some? && selected != {} && o.selectedDate.Some?
  {
  }

  /** A print sends the selected rooms list to `onPrint` and the same rooms,
      one record each, to the generator, priced by the chosen set. */
  lemma PrintContents(rooms: seq<Room>, selected: set<string>, costSet: Option<UtilityCostSet>,
                      o: PrintingOptions, render: Date -> DateTexts)
    requires Print(rooms, selected, costSet, o, render).Some?
    ensures var r := Print(rooms, selected, costSet, o, render).value;
            && r.costSet == costSet.value && r.options == o
            && r.utility == UtilityOf(costSet.value, o, render(o.selectedDate.value))
            && r.selectedRooms == SelectedRoomsList(rooms, selected)
            && |r.printRooms| == |r.selectedRooms|
            && (forall i :: 0 <= i < |r.printRooms| ==> r.printRooms[i] == ToPrintRoom(r.selectedRooms[i]))
  {
  }

  /** The list holds every selected room once per occurrence, and nothing
      else, in block-then-number order. */
  lemma SelectedRoomsListProperties(rooms: seq<Room>, selected: set<string>)
    ensures var list := SelectedRoomsList(rooms, selected);
            && multiset(list) == multiset(Filter(rooms, IsSelected(NameOf, selected)))
            && (forall x :: x in list <==> x in rooms && x.roomName in selected)
            && SortedBy(list, BlockThenNumber(BlockOfRoom, NumberOfRoom))
  {
    SelectedSortedProperties(rooms, NameOf, selected, BlockOfRoom, NumberOfRoom);
  }

  class Stage {
    const rooms: seq<Room>
    var selectedRooms: set<string>
    var selectedCostSet: Option<UtilityCostSet>
    var printingOptions: PrintingOptions

    constructor(rooms: seq<Room>, today: Date)
      ensures this.rooms == rooms && selectedRooms == {} && selectedCostSet == None
      ensures printingOptions == DefaultOptions(today)
    {
      this.rooms := rooms;
      selectedRooms := {};
      selectedCostSet := None;
      printingOptions := DefaultOptions(today);
    }

    /** The effect choosing the first cost set. */
    method SelectFirstCostSet(costSets: seq<UtilityCostSet>)
      modifies this
      ensures selectedCostSet == EffectiveCostSet(old(selectedCostSet), costSets)
      ensures selectedRooms == old(selectedRooms) && printingOptions == old(printingOptions)
    {
      if |costSets| > 0 && selectedCostSet.None? {
        selectedCostSet := Some(costSets[0]);
      }
    }

    /** `blockGroups` with each block's `isAllSelected`. */
    method BlockGroups() returns (groups: seq<BlockGroup<Room>>, allSelected: seq<bool>)
      ensures groups == BlockGroupsOf(rooms, BlockOfRoom, NumberOfRoom)
      ensures |allSelected| == |groups|
      ensures forall i :: 0 <= i < |groups| ==>
                (allSelected[i] <==> forall k :: 0 <= k < |rooms| && rooms[k].blockNumber == groups[i].blockNumber
                                                 ==> rooms[k].roomName in selectedRooms)
    {
      groups := Grouping.BlockGroups(rooms, BlockOfRoom, NumberOfRoom);
      allSelected := SelectionOf(groups, NameOf, selectedRooms);
      GroupsSelectedIff(rooms, BlockOfRoom, NumberOfRoom, NameOf, selectedRooms);
    }

    method HandleRoomSelect(roomName: string, checked: bool)
      modifies this
      ensures selectedRooms == Toggled(old(selectedRooms), roomName, checked)
      ensures selectedCostSet == old(selectedCostSet) && printingOptions == old(printingOptions)
    {
      var newSelected := selectedRooms;
      if checked {
        newSelected := newSelected + {roomName};
      } else {
        newSelected := newSelected - {roomName};
      }
      selectedRooms := newSelected;
    }

    /** `handleBlockSelect`: every room of the block is ticked or cleared. */
    method HandleBlockSelect(blockNumber: string, checked: bool)
      modifies this
      ensures forall n :: n in selectedRooms <==>
                (if InBlock(rooms, BlockOfRoom, NameOf, blockNumber, n) then checked else n in old(selectedRooms))
      ensures selectedCostSet == old(selectedCostSet) && printingOptions == old(printingOptions)
    {
      selectedRooms := BlockSelect(rooms, BlockOfRoom, NameOf, selectedRooms, blockNumber, checked);
    }

    /** `handlePrint`; the PDF downloads and `onPrint` are the caller's. */
    method HandlePrint(render: Date -> DateTexts) returns (request: Option<PrintRequest>)
      ensures request == Print(rooms, selectedRooms, selectedCostSet, printingOptions, render)
    {
      if selectedCostSet.None? || |selectedRooms| == 0 || printingOptions.selectedDate.None? {
        return None;
      }
      var list := SelectedRoomsList(rooms, selectedRooms);
      var costSet := selectedCostSet.value;
      var utility := Utility(costSet.electricityCost, costSet.waterCost, GarbageFee(costSet),
                             render(printingOptions.selectedDate.value),
                             printingOptions.types.invoice, printingOptions.types.total,
                             printingOptions.bottomUp, printingOptions.includeDate);
      request := Some(PrintRequest(PrintRooms(list), utility, list, costSet, printingOptions));
    }
  }
}
