/** `src/components/preparation-stage.tsx`: picking the rooms to calculate,
    listed by block or by the day they were last updated. */
module PreparationStage {
  import opened Wrappers
  import opened Types
  import opened Seqs
  import opened Text
  import opened Grouping

  datatype GroupByOption = ByBlock | ByDate

  /** `RoomGroup`: a check-box group of the list. */
  datatype RoomGroup = RoomGroup(key: string, title: string, rooms: seq<Room>, isAllSelected: bool)

  const BlockKeyPrefix: string := "block-"
  const DateKeyPrefix: string := "date-"

  // ---------------------------------------------------------------------
  // The day keys

  /** A room's day key: `format(new Date(room.updatedAt), "dd/MM/yyyy")`,
      with the formatter a parameter. */
  function DateKeyOf(format: string -> string): Room -> string {
    (r: Room) => format(r.updatedAt)
  }

  /** `Number` of one piece of a split key; a piece that is absent or not
      all digits reads 0. */
  function Part(pieces: seq<string>, i: nat): int {
    if i < |pieces| && AllDigits(pieces[i]) then Value(pieces[i]) else 0
  }

  datatype DayMonthYear = DayMonthYear(day: int, month: int, year: int)

  /** `const [day, month, year] = key.split("/").map(Number)`. */
  function ParseDateKey(key: string): DayMonthYear {
    var pieces := Split(key, '/');
    DayMonthYear(Part(pieces, 0), Part(pieces, 1), Part(pieces, 2))
  }

  /** A key of the form the formatter writes reads back as its three numbers. */
  lemma ParseDateKeyOfParts(d: string, m: string, y: string)
    requires AllDigits(d) && AllDigits(m) && AllDigits(y)
    ensures ParseDateKey(d + "/" + m + "/" + y) == DayMonthYear(Value(d), Value(m), Value(y))
  {
    SplitWithout(d, '/');
    SplitWithout(m, '/');
    SplitWithout(y, '/');
    SplitAround(d, m, '/');
    SplitAround(d + "/" + m, y, '/');
    assert d + "/" + m == d + ['/'] + m;
    assert d + "/" + m + "/" + y == (d + ['/'] + m) + ['/'] + y;
  }

  /** The comparator of the day groups: years, then months, then days. */
  function DateCompare(a: string, b: string): int {
    var x := ParseDateKey(a);
    var y := ParseDateKey(b);
    if x.year != y.year then x.year - y.year
    else if x.month != y.month then x.month - y.month
    else x.day - y.day
  }

  /** The order the comparator sorts by. */
  predicate DateLe(a: string, b: string) {
    DateCompare(a, b) <= 0
  }

  /** The comparator is antisymmetric, and it orders by the calendar: an
      earlier year first, then an earlier month, then an earlier day. */
  lemma DateCompareProperties(a: string, b: string)
    ensures DateCompare(a, b) == -DateCompare(b, a)
    ensures var x := ParseDateKey(a); var y := ParseDateKey(b);
            DateCompare(a, b) < 0 <==>
              x.year < y.year || (x.year == y.year && (x.month < y.month || (x.month == y.month && x.day < y.day)))
  {
  }

  lemma DateLeTotalPreorder()
    ensures TotalPreorder(DateLe)
  {
    forall a, b, c | DateLe(a, b) && DateLe(b, c) ensures DateLe(a, c) {
      DateCompareProperties(a, b);
      DateCompareProperties(b, c);
      DateCompareProperties(a, c);
    }
  }

  // ---------------------------------------------------------------------
  // The groups

  /** The group of one block: `block-<b>`, `Dãy <b>`, its rooms by number. */
  function BlockRoomGroup(g: BlockGroup<Room>, selected: set<string>): RoomGroup {
    RoomGroup(BlockKeyPrefix + g.blockNumber, "Dãy " + g.blockNumber, g.rooms,
              AllSelected(g.rooms, NameOf, selected))
  }

  /** The block groups, in block order. */
  function BlockRoomGroups(rooms: seq<Room>, selected: set<string>): (r: seq<RoomGroup>)
    ensures |r| == |BlockGroupsOf(rooms, BlockOfRoom, NumberOfRoom)|
    ensures forall i :: 0 <= i < |r| ==> r[i] == BlockRoomGroup(BlockGroupsOf(rooms, BlockOfRoom, NumberOfRoom)[i], selected)
  {
    var g := BlockGroupsOf(rooms, BlockOfRoom, NumberOfRoom);
    seq(|g|, i requires 0 <= i < |g| => BlockRoomGroup(g[i], selected))
  }

  /** The day keys, oldest first. */
  function DateKeys(rooms: seq<Room>, format: string -> string): seq<string> {
    SortBy(KeysInOrder(rooms, DateKeyOf(format)), DateLe)
  }

  /** The rooms of one day, by block then number. */
  function DateGroupRooms(rooms: seq<Room>, format: string -> string, k: string): seq<Room> {
    SortBy(WithKey(rooms, DateKeyOf(format), k), BlockThenNumber(BlockOfRoom, NumberOfRoom))
  }

  function DateGroup(rooms: seq<Room>, format: string -> string, selected: set<string>, k: string): RoomGroup {
    var rs := DateGroupRooms(rooms, format, k);
    RoomGroup(DateKeyPrefix + k, "Ngày " + k, rs, AllSelected(rs, NameOf, selected))
  }

  /** The day groups: `date-<key>`, `Ngày <key>`, oldest day first. */
  function DateRoomGroups(rooms: seq<Room>, format: string -> string, selected: set<string>): (r: seq<RoomGroup>)
    ensures |r| == |DateKeys(rooms, format)|
    ensures forall i :: 0 <= i < |r| ==> r[i] == DateGroup(rooms, format, selected, DateKeys(rooms, format)[i])
  {
    var keys := DateKeys(rooms, format);
    seq(|keys|, i requires 0 <= i < |keys| => DateGroup(rooms, format, selected, keys[i]))
  }

  /** `roomGroups`. */
  function RoomGroupsOf(rooms: seq<Room>, selected: set<string>, groupBy: GroupByOption,
                        format: string -> string): seq<RoomGroup> {
    match groupBy
    case ByBlock => BlockRoomGroups(rooms, selected)
    case ByDate => DateRoomGroups(rooms, format, selected)
  }

  /** A group's box is ticked exactly when all its rooms are selected. */
  lemma GroupTicks(rooms: seq<Room>, selected: set<string>, groupBy: GroupByOption,
                   format: string -> string)
    ensures var gs := RoomGroupsOf(rooms, selected, groupBy, format);
            forall i :: 0 <= i < |gs| ==>
              (gs[i].isAllSelected <==> forall j :: 0 <= j < |gs[i].rooms| ==> gs[i].rooms[j].roomName in selected)
  {
  }

  /** The day groups come oldest first. */
  lemma DateGroupsAscend(rooms: seq<Room>, format: string -> string, selected: set<string>)
    ensures var g := DateRoomGroups(rooms, format, selected);
            forall i, j :: 0 <= i < j < |g| ==>
              DateLe(g[i].key[|DateKeyPrefix|..], g[j].key[|DateKeyPrefix|..])
  {
    var keys := DateKeys(rooms, format);
    var g := DateRoomGroups(rooms, format, selected);
    DateLeTotalPreorder();
    SortBySorted(KeysInOrder(rooms, DateKeyOf(format)), DateLe);
    forall i | 0 <= i < |g| ensures g[i].key[|DateKeyPrefix|..] == keys[i] {
      assert g[i].key == DateKeyPrefix + keys[i];
    }
  }

  /** Every room is in the group of its day, and a day's group holds
      exactly the rooms of that day, by block then number. */
  lemma DateGroupMembers(rooms: seq<Room>, format: string -> string, k: string, x: Room)
    ensures x in DateGroupRooms(rooms, format, k) <==> x in rooms && format(x.updatedAt) == k
    ensures SortedBy(DateGroupRooms(rooms, format, k), BlockThenNumber(BlockOfRoom, NumberOfRoom))
    ensures x in rooms ==> format(x.updatedAt) in DateKeys(rooms, format)
  {
    var key := DateKeyOf(format);
    var w := WithKey(rooms, key, k);
    assert x in DateGroupRooms(rooms, format, k) <==> x in multiset(w);
    InWithKey(rooms, key, k, x);
    BlockThenNumberTotalPreorder(BlockOfRoom, NumberOfRoom);
    SortBySorted(w, BlockThenNumber(BlockOfRoom, NumberOfRoom));
    SortedKeysCover(rooms, key, DateLe);
    if x in rooms {
      var i :| 0 <= i < |rooms| && rooms[i] == x;
      assert key(rooms[i]) == format(x.updatedAt);
    }
  }

  /** Removing a known prefix. */
  lemma PrefixCancel(p: string, a: string, b: string)
    requires p + a == p + b
    ensures a == b
  {
    assert a == (p + a)[|p|..];
    assert b == (p + b)[|p|..];
  }

  /** No two groups share a key, so `find` by key picks the one group. */
  lemma GroupKeysDistinct(rooms: seq<Room>, selected: set<string>, groupBy: GroupByOption, format: string -> string)
    ensures var g := RoomGroupsOf(rooms, selected, groupBy, format);
            forall i, j :: 0 <= i < j < |g| ==> g[i].key != g[j].key
  {
    var g := RoomGroupsOf(rooms, selected, groupBy, format);
    var keys := if groupBy.ByBlock? then Blocks(rooms, BlockOfRoom) else DateKeys(rooms, format);
    var prefix := if groupBy.ByBlock? then BlockKeyPrefix else DateKeyPrefix;
    if groupBy.ByBlock? {
      SortedKeysCover(rooms, BlockOfRoom, StrLe);
    } else {
      SortedKeysCover(rooms, DateKeyOf(format), DateLe);
    }
    assert Distinct(keys);
    assert |g| == |keys|;
    forall i | 0 <= i < |g| ensures g[i].key == prefix + keys[i] {
      if groupBy.ByBlock? {
        assert g[i] == BlockRoomGroup(BlockGroupsOf(rooms, BlockOfRoom, NumberOfRoom)[i], selected);
      }
    }
    forall i, j | 0 <= i < j < |g| ensures g[i].key != g[j].key {
      if g[i].key == g[j].key {
        PrefixCancel(prefix, keys[i], keys[j]);
      }
    }
  }

  /** `roomGroups.find(g => g.key === groupKey)`. */
  function FindGroup(groups: seq<RoomGroup>, key: string): (r: Option<RoomGroup>)
    ensures r.None? <==> forall i :: 0 <= i < |groups| ==> groups[i].key != key
    ensures r.Some? ==> exists i :: 0 <= i < |groups| && groups[i] == r.value && r.value.key == key
  {
    if groups == [] then None
    else if groups[0].key == key then Some(groups[0])
    else FindGroup(groups[1..], key)
  }

  /** With distinct keys the group found is the one with that key. */
  lemma FindGroupAt(groups: seq<RoomGroup>, i: nat)
    requires i < |groups|
    requires forall a, b :: 0 <= a < b < |groups| ==> groups[a].key != groups[b].key
    ensures FindGroup(groups, groups[i].key) == Some(groups[i])
  {
    var r := FindGroup(groups, groups[i].key);
    var j :| 0 <= j < |groups| && groups[j] == r.value && r.value.key == groups[i].key;
  }

  /** Ticking the box of block `b` reaches exactly the rooms of that block. */
  lemma BlockGroupReaches(rooms: seq<Room>, selected: set<string>, format: string -> string, b: string, n: string)
    requires b in Blocks(rooms, BlockOfRoom)
    ensures var g := FindGroup(RoomGroupsOf(rooms, selected, ByBlock, format), BlockKeyPrefix + b);
            && g.Some?
            && (n in NamesOf(g.value.rooms, NameOf) <==> InBlock(rooms, BlockOfRoom, NameOf, b, n))
  {
    var groups := RoomGroupsOf(rooms, selected, ByBlock, format);
    var i := BlockIndex(rooms, b);
    GroupKeysDistinct(rooms, selected, ByBlock, format);
    assert groups[i] == BlockRoomGroup(GroupOf(rooms, BlockOfRoom, NumberOfRoom, b), selected);
    FindGroupAt(groups, i);
    NamesOfKeyed(rooms, BlockOfRoom, NameOf, b, ByNumber(NumberOfRoom), n);
  }

  ghost function BlockIndex(rooms: seq<Room>, b: string): (i: nat)
    requires b in Blocks(rooms, BlockOfRoom)
    ensures i < |Blocks(rooms, BlockOfRoom)| && Blocks(rooms, BlockOfRoom)[i] == b
  {
    var blocks := Blocks(rooms, BlockOfRoom);
    var i :| 0 <= i < |blocks| && blocks[i] == b; i
  }

  ghost function DateIndex(rooms: seq<Room>, format: string -> string, k: string): (i: nat)
    requires k in DateKeys(rooms, format)
    ensures i < |DateKeys(rooms, format)| && DateKeys(rooms, format)[i] == k
  {
    var keys := DateKeys(rooms, format);
    var i :| 0 <= i < |keys| && keys[i] == k; i
  }

  /** Ticking the box of day `k` reaches exactly the rooms updated that day. */
  lemma DateGroupReaches(rooms: seq<Room>, selected: set<string>, format: string -> string, k: string, n: string)
    requires k in DateKeys(rooms, format)
    ensures var g := FindGroup(RoomGroupsOf(rooms, selected, ByDate, format), DateKeyPrefix + k);
            && g.Some?
            && (n in NamesOf(g.value.rooms, NameOf) <==> InBlock(rooms, DateKeyOf(format), NameOf, k, n))
  {
    var groups := RoomGroupsOf(rooms, selected, ByDate, format);
    var i := DateIndex(rooms, format, k);
    GroupKeysDistinct(rooms, selected, ByDate, format);
    assert groups[i] == DateGroup(rooms, format, selected, k);
    FindGroupAt(groups, i);
    NamesOfKeyed(rooms, DateKeyOf(format), NameOf, k, BlockThenNumber(BlockOfRoom, NumberOfRoom), n);
  }

  /** A key no group has, such as one lacking both prefixes, finds nothing. */
  lemma UnknownGroupKey(rooms: seq<Room>, selected: set<string>, groupBy: GroupByOption,
                        format: string -> string, key: string)
    requires !(|BlockKeyPrefix| <= |key| && key[..|BlockKeyPrefix|] == BlockKeyPrefix)
    requires !(|DateKeyPrefix| <= |key| && key[..|DateKeyPrefix|] == DateKeyPrefix)
    ensures FindGroup(RoomGroupsOf(rooms, selected, groupBy, format), key).None?
  {
    var g := RoomGroupsOf(rooms, selected, groupBy, format);
    forall i | 0 <= i < |g| ensures g[i].key != key {
      if groupBy.ByBlock? {
        assert g[i].key[..|BlockKeyPrefix|] == BlockKeyPrefix;
      } else {
        assert g[i].key[..|DateKeyPrefix|] == DateKeyPrefix;
      }
    }
  }

  /** `handleConfirm`: the selected rooms in their original order. */
  function Confirmed(rooms: seq<Room>, selected: set<string>): seq<Room> {
    Filter(rooms, IsSelected(NameOf, selected))
  }

  /** The confirmed list keeps exactly the selected rooms, in order: with
      every room selected it is the whole list, and it splits as the list does. */
  lemma ConfirmedProperties(rooms: seq<Room>, more: seq<Room>, selected: set<string>)
    ensures forall x :: x in Confirmed(rooms, selected) <==> x in rooms && x.roomName in selected
    ensures Confirmed(rooms + more, selected) == Confirmed(rooms, selected) + Confirmed(more, selected)
    ensures (forall i :: 0 <= i < |rooms| ==> rooms[i].roomName in selected) ==> Confirmed(rooms, selected) == rooms
  {
    FilterAppend(rooms, more, IsSelected(NameOf, selected));
    if forall i :: 0 <= i < |rooms| ==> rooms[i].roomName in selected {
      FilterAll(rooms, IsSelected(NameOf, selected));
    }
  }

  class Stage {
    const rooms: seq<Room>
    const format: string -> string
    var selectedRooms: set<string>
    var groupBy: GroupByOption

    /** Nothing selected, grouped by day. */
    constructor(rooms: seq<Room>, format: string -> string)
      ensures this.rooms == rooms && this.format == format
      ensures selectedRooms == {} && groupBy == ByDate
    {
      this.rooms := rooms;
      this.format := format;
      selectedRooms := {};
      groupBy := ByDate;
    }

    method SetGroupBy(value: GroupByOption)
      modifies this
      ensures groupBy == value && selectedRooms == old(selectedRooms)
    {
      groupBy := value;
    }

    /** `roomGroups`. */
    method RoomGroups() returns (groups: seq<RoomGroup>)
      ensures groups == RoomGroupsOf(rooms, selectedRooms, groupBy, format)
    {
      if groupBy == ByBlock {
        groups := BlockGroupsList(rooms, selectedRooms);
      } else {
        groups := DateGroupsList(rooms, format, selectedRooms);
      }
    }

    method HandleRoomSelect(roomName: string, checked: bool)
      modifies this
      ensures selectedRooms == Toggled(old(selectedRooms), roomName, checked)
      ensures groupBy == old(groupBy)
    {
      var newSelected := selectedRooms;
      if checked {
        newSelected := newSelected + {roomName};
      } else {
        newSelected := newSelected - {roomName};
      }
      selectedRooms := newSelected;
    }

    /** `handleGroupSelect`: an unknown key changes nothing; otherwise every
        room of the group is ticked or cleared. */
    method HandleGroupSelect(groupKey: string, checked: bool)
      modifies this
      ensures groupBy == old(groupBy)
      ensures var g := FindGroup(RoomGroupsOf(rooms, old(selectedRooms), groupBy, format), groupKey);
              if g.None? then selectedRooms == old(selectedRooms)
              else forall n :: n in selectedRooms <==>
                     (if n in NamesOf(g.value.rooms, NameOf) then checked else n in old(selectedRooms))
    {
      var groups := RoomGroups();
      var group := FindGroup(groups, groupKey);
      if group.None? {
        return;
      }
      selectedRooms := SetAll(selectedRooms, NamesOf(group.value.rooms, NameOf), checked);
    }

    method HandleConfirm() returns (selectedRoomsList: seq<Room>)
      ensures selectedRoomsList == Confirmed(rooms, selectedRooms)
    {
      selectedRoomsList := Filter(rooms, IsSelected(NameOf, selectedRooms));
    }
  }

  /** The block branch of `roomGroups`. */
  method BlockGroupsList(rooms: seq<Room>, selected: set<string>) returns (groups: seq<RoomGroup>)
    ensures groups == BlockRoomGroups(rooms, selected)
  {
    var bg := Grouping.BlockGroups(rooms, BlockOfRoom, NumberOfRoom);
    groups := BlockEntries(bg, selected);
  }

  /** The block branch's `map` over the sorted groups. */
  method BlockEntries(bg: seq<BlockGroup<Room>>, selected: set<string>) returns (groups: seq<RoomGroup>)
    ensures |groups| == |bg|
    ensures forall j :: 0 <= j < |bg| ==> groups[j] == BlockRoomGroup(bg[j], selected)
  {
    groups := [];
    for i := 0 to |bg|
      invariant |groups| == i
      invariant forall j :: 0 <= j < i ==> groups[j] == BlockRoomGroup(bg[j], selected)
    {
      var g := BlockEntry(bg[i], selected);
      groups := groups + [g];
    }
  }

  /** One entry of the block branch's `map`. */
  method BlockEntry(bg: BlockGroup<Room>, selected: set<string>) returns (g: RoomGroup)
    ensures g == BlockRoomGroup(bg, selected)
  {
    var all := Every(bg.rooms, NameOf, selected);
    g := RoomGroup(BlockKeyPrefix + bg.blockNumber, "Dãy " + bg.blockNumber, bg.rooms, all);
  }

  /** The day branch of `roomGroups`: the map filled by the `forEach`, its
      entries sorted by the day comparator, each day's rooms sorted. */
  method DateGroupsList(rooms: seq<Room>, format: string -> string, selected: set<string>)
    returns (groups: seq<RoomGroup>)
    ensures groups == DateRoomGroups(rooms, format, selected)
  {
    var key := DateKeyOf(format);
    var keys, byDate := GroupBy(rooms, key);
    var sorted := SortBy(keys, DateLe);
    SortedKeysIn(rooms, key, DateLe);
    groups := DateEntries(rooms, format, selected, sorted, byDate);
  }

  /** The day branch's `map` over the sorted entries of the map. */
  method DateEntries(rooms: seq<Room>, format: string -> string, selected: set<string>,
                     sorted: seq<string>, byDate: map<string, seq<Room>>)
    returns (groups: seq<RoomGroup>)
    requires forall j :: 0 <= j < |sorted| ==>
               sorted[j] in byDate && byDate[sorted[j]] == WithKey(rooms, DateKeyOf(format), sorted[j])
    ensures |groups| == |sorted|
    ensures forall j :: 0 <= j < |sorted| ==> groups[j] == DateGroup(rooms, format, selected, sorted[j])
  {
    groups := [];
    for i := 0 to |sorted|
      invariant |groups| == i
      invariant forall j :: 0 <= j < i ==> groups[j] == DateGroup(rooms, format, selected, sorted[j])
    {
      var g := DateEntry(rooms, format, selected, sorted[i], byDate[sorted[i]]);
      groups := groups + [g];
    }
  }

  /** One entry of the day branch: the day's rooms from the map, sorted. */
  method DateEntry(rooms: seq<Room>, format: string -> string, selected: set<string>, k: string, byDate: seq<Room>)
    returns (g: RoomGroup)
    requires byDate == WithKey(rooms, DateKeyOf(format), k)
    ensures g == DateGroup(rooms, format, selected, k)
  {
    var rs := SortBy(byDate, BlockThenNumber(BlockOfRoom, NumberOfRoom));
    var all := Every(rs, NameOf, selected);
    g := RoomGroup(DateKeyPrefix + k, "Ngày " + k, rs, all);
  }
}
