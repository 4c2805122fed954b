/** `src/components/room-selection-dialog.tsx`: adding rooms to a running
    calculation, one tab per block. */
module RoomSelectionDialog {
  import opened Types
  import opened Seqs
  import opened Text
  import opened Grouping

  /** The tab opened first: the first block in sorted order, or none. */
  function InitialBlock(rooms: seq<Room>): string {
    var g := BlockGroupsOf(rooms, BlockOfRoom, NumberOfRoom);
    if |g| > 0 then g[0].blockNumber else ""
  }

  /** The first tab is the first block in sorted order. */
  lemma InitialBlockOfBlocks(rooms: seq<Room>)
    ensures rooms == [] <==> InitialBlock(rooms) == "" && Blocks(rooms, BlockOfRoom) == []
    ensures rooms != [] ==> InitialBlock(rooms) == Blocks(rooms, BlockOfRoom)[0]
  {
    BlocksCover(rooms, BlockOfRoom);
    if rooms != [] {
      assert BlockOfRoom(rooms[0]) in Blocks(rooms, BlockOfRoom);
    }
  }

  /** The first tab is the block of some room, and it sorts before every
      other room's block. */
  lemma InitialBlockIsFirst(rooms: seq<Room>)
    requires rooms != []
    ensures exists k :: 0 <= k < |rooms| && rooms[k].blockNumber == InitialBlock(rooms)
    ensures forall k :: 0 <= k < |rooms| && rooms[k].blockNumber != InitialBlock(rooms) ==>
              Compare(InitialBlock(rooms), rooms[k].blockNumber) < 0
  {
    InitialBlockOfBlocks(rooms);
    var g := BlockGroupsOf(rooms, BlockOfRoom, NumberOfRoom);
    var blocks := Blocks(rooms, BlockOfRoom);
    BlocksCover(rooms, BlockOfRoom);
    BlockGroupsAscend(rooms, BlockOfRoom, NumberOfRoom);
    assert blocks[0] in blocks;
    forall k | 0 <= k < |rooms| && rooms[k].blockNumber != blocks[0]
      ensures Compare(blocks[0], rooms[k].blockNumber) < 0
    {
      assert BlockOfRoom(rooms[k]) in blocks;
      var j :| 0 <= j < |blocks| && blocks[j] == rooms[k].blockNumber;
      assert g[0].blockNumber == blocks[0] && g[j].blockNumber == blocks[j];
    }
  }

  /** `handleConfirm` hands on the selected rooms in their original order;
      the list shown beside it holds the same rooms, sorted. */
  lemma ConfirmedMatchesShown(rooms: seq<Room>, selected: set<string>)
    ensures multiset(Filter(rooms, IsSelected(NameOf, selected)))
         == multiset(SelectedSorted(rooms, NameOf, selected, BlockOfRoom, NumberOfRoom))
    ensures forall x :: x in Filter(rooms, IsSelected(NameOf, selected)) <==> x in rooms && x.roomName in selected
  {
    SelectedSortedProperties(rooms, NameOf, selected, BlockOfRoom, NumberOfRoom);
  }

  class Dialog {
    const availableRooms: seq<Room>
    var selectedRooms: set<string>
    var activeBlock: string

    /** Nothing selected; the first block's tab open. */
    constructor(availableRooms: seq<Room>)
      ensures this.availableRooms == availableRooms
      ensures selectedRooms == {} && activeBlock == InitialBlock(availableRooms)
    {
      this.availableRooms := availableRooms;
      selectedRooms := {};
      var groups := Grouping.BlockGroups(availableRooms, BlockOfRoom, NumberOfRoom);
      var block := "";
      if |groups| > 0 && block == "" {
        block := groups[0].blockNumber;
      }
      activeBlock := block;
    }

    /** `blockGroups` with each block's `isAllSelected`. */
    method BlockGroups() returns (groups: seq<BlockGroup<Room>>, allSelected: seq<bool>)
      ensures groups == BlockGroupsOf(availableRooms, BlockOfRoom, NumberOfRoom)
      ensures |allSelected| == |groups|
      ensures forall i :: 0 <= i < |groups| ==>
                (allSelected[i] <==> forall k :: 0 <= k < |availableRooms| && availableRooms[k].blockNumber == groups[i].blockNumber
                                                 ==> availableRooms[k].roomName in selectedRooms)
    {
      groups := Grouping.BlockGroups(availableRooms, BlockOfRoom, NumberOfRoom);
      allSelected := SelectionOf(groups, NameOf, selectedRooms);
      GroupsSelectedIff(availableRooms, BlockOfRoom, NumberOfRoom, NameOf, selectedRooms);
    }

    method HandleRoomSelect(roomName: string, checked: bool)
      modifies this
      ensures selectedRooms == Toggled(old(selectedRooms), roomName, checked)
      ensures activeBlock == old(activeBlock)
    {
      var newSelected := selectedRooms;
      if checked {
        newSelected := newSelected + {roomName};
      } else {
        newSelected := newSelected - {roomName};
      }
      selectedRooms := newSelected;
    }

    method HandleBlockSelect(blockNumber: string, checked: bool)
      modifies this
      ensures forall n :: n in selectedRooms <==>
                (if InBlock(availableRooms, BlockOfRoom, NameOf, blockNumber, n) then checked else n in old(selectedRooms))
      ensures activeBlock == old(activeBlock)
    {
      selectedRooms := BlockSelect(availableRooms, BlockOfRoom, NameOf, selectedRooms, blockNumber, checked);
    }

    /** `handleConfirm`: the rooms handed to `onConfirm`. */
    method HandleConfirm() returns (selectedRoomsList: seq<Room>)
      ensures selectedRoomsList == Filter(availableRooms, IsSelected(NameOf, selectedRooms))
    {
      selectedRoomsList := Filter(availableRooms, IsSelected(NameOf, selectedRooms));
    }

    /** `selectedRoomsList`, the sorted list shown. */
    method SelectedRoomsList() returns (list: seq<Room>)
      ensures list == SelectedSorted(availableRooms, NameOf, selectedRooms, BlockOfRoom, NumberOfRoom)
    {
      list := SortBy(Filter(availableRooms, IsSelected(NameOf, selectedRooms)), BlockThenNumber(BlockOfRoom, NumberOfRoom));
    }
  }
}
