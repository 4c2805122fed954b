/** What the stage components share: the `blockGroups` memo (rooms grouped
    by block in a `Map`, the blocks sorted with `localeCompare`, each
    block's rooms sorted by room number), the `every` test behind a block's
    check box, the room selection kept as a `Set` of names, and the
    block-then-number order of the selected-rooms list. The functions take
    the record's fields as parameters, so one definition serves `Room` and
    `CalculationRoom` alike. */
module Grouping {
  import opened Seqs
  import opened Text

  /** One entry of `blockGroups`: a block and its rooms. */
  datatype BlockGroup<T> = BlockGroup(blockNumber: string, rooms: seq<T>)

  /** `(a, b) => a.roomNumber - b.roomNumber`, as the order it sorts by. */
  function ByNumber<T>(number: T -> int): (T, T) -> bool {
    (a: T, b: T) => number(a) <= number(b)
  }

  lemma ByNumberTotalPreorder<T(!new)>(number: T -> int)
    ensures TotalPreorder(ByNumber(number))
  {
  }

  /** The block names, in the order `localeCompare` sorts them. */
  function Blocks<T(!new)>(xs: seq<T>, block: T -> string): (blocks: seq<string>)
    ensures |blocks| == |KeysInOrder(xs, block)|
  {
    SortBy(KeysInOrder(xs, block), StrLe)
  }

  /** The group of block `b`: its rooms sorted by number. */
  function GroupOf<T(!new)>(xs: seq<T>, block: T -> string, number: T -> int, b: string): BlockGroup<T> {
    BlockGroup(b, SortBy(WithKey(xs, block, b), ByNumber(number)))
  }

  /** The groups `blockGroups` computes: `Array.from(groups.entries())`
      sorted by block (the keys are distinct, so sorting the entries is
      sorting the keys), each block's rooms sorted by number. */
  function BlockGroupsOf<T(!new)>(xs: seq<T>, block: T -> string, number: T -> int): (g: seq<BlockGroup<T>>)
    ensures |g| == |Blocks(xs, block)|
    ensures forall i :: 0 <= i < |g| ==> g[i] == GroupOf(xs, block, number, Blocks(xs, block)[i])
  {
    var blocks := Blocks(xs, block);
    seq(|blocks|, i requires 0 <= i < |blocks| => GroupOf(xs, block, number, blocks[i]))
  }

  /** The `reduce` into a `Map`, the sort of its entries and the `map` to groups. */
  method BlockGroups<T(!new)>(xs: seq<T>, block: T -> string, number: T -> int) returns (groups: seq<BlockGroup<T>>)
    ensures groups == BlockGroupsOf(xs, block, number)
  {
    var keys, byBlock := GroupBy(xs, block);
    var blocks := SortBy(keys, StrLe);
    SortedKeysCover(xs, block, StrLe);
    groups := SortGroups(xs, block, number, blocks, byBlock);
  }

  /** The `map` over the sorted entries: each block's rooms sorted by number. */
  method SortGroups<T(!new)>(xs: seq<T>, block: T -> string, number: T -> int,
                             blocks: seq<string>, byBlock: map<string, seq<T>>)
    returns (groups: seq<BlockGroup<T>>)
    requires forall b :: b in blocks ==> b in byBlock && byBlock[b] == WithKey(xs, block, b)
    ensures |groups| == |blocks|
    ensures forall k :: 0 <= k < |blocks| ==> groups[k] == GroupOf(xs, block, number, blocks[k])
  {
    groups := [];
    for i := 0 to |blocks|
      invariant |groups| == i
      invariant forall k :: 0 <= k < i ==> groups[k] == GroupOf(xs, block, number, blocks[k])
    {
      var b := blocks[i];
      groups := groups + [BlockGroup(b, SortBy(byBlock[b], ByNumber(number)))];
    }
  }

  /** The rooms of all groups, group after group. */
  function AllRooms<T>(groups: seq<BlockGroup<T>>): seq<T> {
    if groups == [] then [] else AllRooms(groups[..|groups| - 1]) + groups[|groups| - 1].rooms
  }

  /** Laying out groups that hold, in order, each block's rooms sorted by
      number is laying out the sorted groups of those blocks. */
  lemma {:induction false} AllRoomsOfGroups<T(!new)>(xs: seq<T>, block: T -> string, number: T -> int,
                                                     g: seq<BlockGroup<T>>, blocks: seq<string>)
    requires |g| == |blocks|
    requires forall i :: 0 <= i < |g| ==> g[i].rooms == SortBy(WithKey(xs, block, blocks[i]), ByNumber(number))
    ensures AllRooms(g) == SortedGroups(xs, block, blocks, ByNumber(number))
  {
    if g != [] {
      var m := |g| - 1;
      AllRoomsOfGroups(xs, block, number, g[..m], blocks[..m]);
    }
  }

  /** Every room appears in exactly one group, once. */
  lemma BlockGroupsPermutation<T(!new)>(xs: seq<T>, block: T -> string, number: T -> int)
    ensures multiset(AllRooms(BlockGroupsOf(xs, block, number))) == multiset(xs)
  {
    var g := BlockGroupsOf(xs, block, number);
    var blocks := Blocks(xs, block);
    AllRoomsOfGroups(xs, block, number, g, blocks);
    SortedGroupsPermutation(xs, block, blocks, ByNumber(number));
    SortedKeysCover(xs, block, StrLe);
  }

  /** The sorted block names strictly ascend. */
  lemma BlocksAscend<T(!new)>(xs: seq<T>, block: T -> string)
    ensures var blocks := Blocks(xs, block);
            forall i, j :: 0 <= i < j < |blocks| ==> Compare(blocks[i], blocks[j]) < 0
  {
    var blocks := Blocks(xs, block);
    StrLeTotalPreorder();
    SortBySorted(KeysInOrder(xs, block), StrLe);
    SortedKeysCover(xs, block, StrLe);
    forall i, j | 0 <= i < j < |blocks| ensures Compare(blocks[i], blocks[j]) < 0 {
      assert StrLe(blocks[i], blocks[j]) && blocks[i] != blocks[j];
      CompareZero(blocks[i], blocks[j]);
    }
  }

  /** The blocks strictly ascend. */
  lemma BlockGroupsAscend<T(!new)>(xs: seq<T>, block: T -> string, number: T -> int)
    ensures var g := BlockGroupsOf(xs, block, number);
            forall i, j :: 0 <= i < j < |g| ==> Compare(g[i].blockNumber, g[j].blockNumber) < 0
  {
    BlocksAscend(xs, block);
  }

  /** Every room the sorted groups lay out has one of their blocks. */
  lemma {:induction false} SortedGroupsBlocks<T(!new)>(xs: seq<T>, block: T -> string, number: T -> int,
                                                       blocks: seq<string>, x: T)
    requires x in SortedGroups(xs, block, blocks, ByNumber(number))
    ensures block(x) in blocks
  {
    var m := |blocks| - 1;
    var w := WithKey(xs, block, blocks[m]);
    if x in SortBy(w, ByNumber(number)) {
      assert x in multiset(w);
    } else {
      SortedGroupsBlocks(xs, block, number, blocks[..m], x);
      var i :| 0 <= i < m && blocks[..m][i] == block(x);
      assert blocks[i] == block(x);
    }
  }

  /** Groups laid out in strictly ascending block order, each sorted by
      number, are in block-then-number order as a whole. */
  lemma {:induction false} SortedGroupsInOrder<T(!new)>(xs: seq<T>, block: T -> string, number: T -> int,
                                                        blocks: seq<string>)
    requires forall i, j :: 0 <= i < j < |blocks| ==> Compare(blocks[i], blocks[j]) < 0
    ensures SortedBy(SortedGroups(xs, block, blocks, ByNumber(number)), BlockThenNumber(block, number))
  {
    if blocks != [] {
      var m := |blocks| - 1;
      var le := BlockThenNumber(block, number);
      var init := SortedGroups(xs, block, blocks[..m], ByNumber(number));
      var w := WithKey(xs, block, blocks[m]);
      var last := SortBy(w, ByNumber(number));
      SortedGroupsInOrder(xs, block, number, blocks[..m]);
      ByNumberTotalPreorder(number);
      SortBySorted(w, ByNumber(number));
      CompareZero(blocks[m], blocks[m]);
      forall i | 0 <= i < |last| ensures block(last[i]) == blocks[m] {
        assert last[i] in multiset(w);
      }
      forall i, j | 0 <= i < j < |last| ensures le(last[i], last[j]) {
        assert ByNumber(number)(last[i], last[j]);
      }
      forall x, y | x in init && y in last ensures le(x, y) {
        SortedGroupsBlocks(xs, block, number, blocks[..m], x);
        var i :| 0 <= i < m && blocks[..m][i] == block(x);
        assert y in multiset(w);
      }
      SortedAppend(init, last, le);
    }
  }

  /** All rooms, block group after block group, are in block-then-number
      order and are the rooms of the input, each as often. */
  lemma LaidOutInOrder<T(!new)>(xs: seq<T>, block: T -> string, number: T -> int)
    ensures var r := SortedGroups(xs, block, Blocks(xs, block), ByNumber(number));
            && SortedBy(r, BlockThenNumber(block, number))
            && multiset(r) == multiset(xs)
  {
    BlocksAscend(xs, block);
    SortedGroupsInOrder(xs, block, number, Blocks(xs, block));
    SortedGroupsPermutation(xs, block, Blocks(xs, block), ByNumber(number));
    SortedKeysCover(xs, block, StrLe);
  }

  /** The groups' blocks (group i has block `Blocks(xs, block)[i]`) are
      exactly the blocks of the rooms. */
  lemma BlocksCover<T(!new)>(xs: seq<T>, block: T -> string)
    ensures forall k :: 0 <= k < |xs| ==> block(xs[k]) in Blocks(xs, block)
    ensures forall b :: b in Blocks(xs, block) ==> exists k :: 0 <= k < |xs| && block(xs[k]) == b
  {
    SortedKeysCover(xs, block, StrLe);
  }

  /** A block's group holds exactly the rooms of that block. */
  lemma InGroup<T(!new)>(xs: seq<T>, block: T -> string, number: T -> int, b: string, x: T)
    ensures x in GroupOf(xs, block, number, b).rooms <==> x in xs && block(x) == b
  {
    var w := WithKey(xs, block, b);
    assert x in GroupOf(xs, block, number, b).rooms <==> x in multiset(w);
    InWithKey(xs, block, b, x);
  }

  /** A group is sorted by number, holds its block's rooms as often as the
      input does, and is never empty. */
  lemma BlockGroupRooms<T(!new)>(xs: seq<T>, block: T -> string, number: T -> int, i: nat)
    requires i < |BlockGroupsOf(xs, block, number)|
    ensures var grp := BlockGroupsOf(xs, block, number)[i];
            && grp.rooms != []
            && SortedBy(grp.rooms, ByNumber(number))
            && multiset(grp.rooms) == multiset(WithKey(xs, block, grp.blockNumber))
  {
    var grp := BlockGroupsOf(xs, block, number)[i];
    SortedKeysCover(xs, block, StrLe);
    assert Blocks(xs, block)[i] in KeysInOrder(xs, block);
    var k :| 0 <= k < |xs| && block(xs[k]) == grp.blockNumber;
    InGroup(xs, block, number, grp.blockNumber, xs[k]);
    ByNumberTotalPreorder(number);
    SortBySorted(WithKey(xs, block, grp.blockNumber), ByNumber(number));
  }

  /** `rooms.every(room => selectedRooms.has(room.roomName))`. */
  predicate AllSelected<T>(rooms: seq<T>, name: T -> string, selected: set<string>) {
    forall i :: 0 <= i < |rooms| ==> name(rooms[i]) in selected
  }

  /** A block's check box is ticked exactly when every room of that block is selected. */
  lemma AllSelectedIff<T(!new)>(xs: seq<T>, block: T -> string, number: T -> int, name: T -> string,
                                selected: set<string>, b: string)
    ensures AllSelected(GroupOf(xs, block, number, b).rooms, name, selected)
            <==> forall k :: 0 <= k < |xs| && block(xs[k]) == b ==> name(xs[k]) in selected
  {
    var rooms := GroupOf(xs, block, number, b).rooms;
    if AllSelected(rooms, name, selected) {
      forall k | 0 <= k < |xs| && block(xs[k]) == b ensures name(xs[k]) in selected {
        InGroup(xs, block, number, b, xs[k]);
      }
    } else {
      var i :| 0 <= i < |rooms| && name(rooms[i]) !in selected;
      InGroup(xs, block, number, b, rooms[i]);
    }
  }

  /** `rooms.every(...)`, as a loop that stops at nothing. */
  method Every<T>(rooms: seq<T>, name: T -> string, selected: set<string>) returns (all: bool)
    ensures all <==> AllSelected(rooms, name, selected)
  {
    all := true;
    for k := 0 to |rooms|
      invariant all <==> AllSelected(rooms[..k], name, selected)
    {
      if name(rooms[k]) !in selected {
        all := false;
      }
    }
    assert rooms[..|rooms|] == rooms;
  }

  /** Every room of block `b` is selected. */
  predicate BlockSelected<T>(xs: seq<T>, block: T -> string, name: T -> string, selected: set<string>, b: string) {
    forall k :: 0 <= k < |xs| && block(xs[k]) == b ==> name(xs[k]) in selected
  }

  /** The `isAllSelected` of every block group. */
  method SelectionOf<T>(groups: seq<BlockGroup<T>>, name: T -> string, selected: set<string>)
    returns (allSelected: seq<bool>)
    ensures |allSelected| == |groups|
    ensures forall i :: 0 <= i < |groups| ==> allSelected[i] == AllSelected(groups[i].rooms, name, selected)
  {
    allSelected := [];
    for i := 0 to |groups|
      invariant |allSelected| == i
      invariant forall j :: 0 <= j < i ==> allSelected[j] == AllSelected(groups[j].rooms, name, selected)
    {
      var all := Every(groups[i].rooms, name, selected);
      allSelected := allSelected + [all];
    }
  }

  /** Each block group's check box is ticked exactly when every room of its
      block is selected. */
  lemma GroupsSelectedIff<T(!new)>(xs: seq<T>, block: T -> string, number: T -> int, name: T -> string,
                                   selected: set<string>)
    ensures var g := BlockGroupsOf(xs, block, number);
            forall i :: 0 <= i < |g| ==>
              (AllSelected(g[i].rooms, name, selected) <==> BlockSelected(xs, block, name, selected, g[i].blockNumber))
  {
    var g := BlockGroupsOf(xs, block, number);
    forall i | 0 <= i < |g|
      ensures AllSelected(g[i].rooms, name, selected) <==> BlockSelected(xs, block, name, selected, g[i].blockNumber)
    {
      AllSelectedIff(xs, block, number, name, selected, Blocks(xs, block)[i]);
    }
  }

  // ---------------------------------------------------------------------
  // The selection

  /** `checked ? newSelected.add(name) : newSelected.delete(name)` on a copy. */
  function Toggled(selected: set<string>, name: string, checked: bool): (r: set<string>)
    ensures name in r <==> checked
    ensures forall n :: n != name ==> (n in r <==> n in selected)
  {
    if checked then selected + {name} else selected - {name}
  }

  /** The `forEach` that adds or deletes the name of every room in `names`. */
  method SetAll(selected: set<string>, names: seq<string>, checked: bool) returns (r: set<string>)
    ensures forall n :: n in r <==> (if n in names then checked else n in selected)
  {
    r := selected;
    for i := 0 to |names|
      invariant forall n :: n in r <==> (if n in names[..i] then checked else n in selected)
    {
      assert names[..i + 1] == names[..i] + [names[i]];
      r := Toggled(r, names[i], checked);
    }
    assert names[..|names|] == names;
  }

  /** The names of `xs`, in order. */
  function NamesOf<T>(xs: seq<T>, name: T -> string): (r: seq<string>)
    ensures |r| == |xs| && forall i :: 0 <= i < |xs| ==> r[i] == name(xs[i])
  {
    seq(|xs|, i requires 0 <= i < |xs| => name(xs[i]))
  }

  /** Some room of block `b` has the name `n`. */
  predicate InBlock<T>(xs: seq<T>, block: T -> string, name: T -> string, b: string, n: string) {
    exists k :: 0 <= k < |xs| && block(xs[k]) == b && name(xs[k]) == n
  }

  /** The names of a group, however sorted, are the names of the rooms with its key. */
  lemma NamesOfKeyed<T(!new)>(xs: seq<T>, key: T -> string, name: T -> string, k: string,
                              le: (T, T) -> bool, n: string)
    ensures n in NamesOf(SortBy(WithKey(xs, key, k), le), name) <==> InBlock(xs, key, name, k, n)
  {
    var w := WithKey(xs, key, k);
    var rs := SortBy(w, le);
    var names := NamesOf(rs, name);
    forall x ensures x in rs <==> x in xs && key(x) == k {
      assert x in rs <==> x in multiset(w);
      InWithKey(xs, key, k, x);
    }
    if n in names {
      var j :| 0 <= j < |names| && names[j] == n;
      assert rs[j] in rs;
      var m :| 0 <= m < |xs| && xs[m] == rs[j];
    }
    if InBlock(xs, key, name, k, n) {
      var m :| 0 <= m < |xs| && key(xs[m]) == k && name(xs[m]) == n;
      assert xs[m] in rs;
      var j :| 0 <= j < |rs| && rs[j] == xs[m];
      assert names[j] == n;
    }
  }

  /** `handleBlockSelect`: the rooms of the block, by `filter`, then the `forEach`. */
  method BlockSelect<T(!new)>(xs: seq<T>, block: T -> string, name: T -> string, selected: set<string>,
                              b: string, checked: bool) returns (r: set<string>)
    ensures forall n :: n in r <==> (if InBlock(xs, block, name, b, n) then checked else n in selected)
  {
    var blockRooms := Filter(xs, (x: T) => block(x) == b);
    var names := NamesOf(blockRooms, name);
    r := SetAll(selected, names, checked);
    forall n ensures n in names <==> InBlock(xs, block, name, b, n) {
      if n in names {
        var i :| 0 <= i < |names| && names[i] == n;
        assert blockRooms[i] in blockRooms;
      }
      if InBlock(xs, block, name, b, n) {
        var k :| 0 <= k < |xs| && block(xs[k]) == b && name(xs[k]) == n;
        assert xs[k] in blockRooms;
        var i :| 0 <= i < |blockRooms| && blockRooms[i] == xs[k];
        assert names[i] == n;
      }
    }
  }

  // ---------------------------------------------------------------------
  // Block, then room number

  /** `a.blockNumber.localeCompare(b.blockNumber) || a.roomNumber - b.roomNumber`,
      as the order it sorts by: the comparison is at most 0. */
  function BlockThenNumber<T>(block: T -> string, number: T -> int): (T, T) -> bool {
    (a: T, b: T) => Compare(block(a), block(b)) < 0
                    || (Compare(block(a), block(b)) == 0 && number(a) <= number(b))
  }

  lemma BlockThenNumberTotalPreorder<T(!new)>(block: T -> string, number: T -> int)
    ensures TotalPreorder(BlockThenNumber(block, number))
  {
    var le := BlockThenNumber(block, number);
    forall a, b ensures le(a, b) || le(b, a) {
      CompareAntisymmetric(block(a), block(b));
    }
    forall a, b, c | le(a, b) && le(b, c) ensures le(a, c) {
      var x, y, z := block(a), block(b), block(c);
      CompareZero(x, y);
      CompareZero(y, z);
      CompareZero(x, z);
      if Compare(x, y) < 0 && Compare(y, z) < 0 {
        CompareTransitive(x, y, z);
        CompareAntisymmetric(x, y);
      }
    }
  }

  /** `room => selectedRooms.has(room.roomName)`. */
  function IsSelected<T(!new)>(name: T -> string, selected: set<string>): (p: T -> bool)
    ensures forall x :: p(x) == (name(x) in selected)
  {
    (x: T) => name(x) in selected
  }

  /** `rooms.filter(room => selectedRooms.has(room.roomName)).sort(...)`. */
  function SelectedSorted<T(!new)>(xs: seq<T>, name: T -> string, selected: set<string>,
                                   block: T -> string, number: T -> int): seq<T> {
    SortBy(Filter(xs, IsSelected(name, selected)), BlockThenNumber(block, number))
  }

  /** The list holds the selected rooms, each as often as in the input, in
      block-then-number order. */
  lemma SelectedSortedProperties<T(!new)>(xs: seq<T>, name: T -> string, selected: set<string>,
                                          block: T -> string, number: T -> int)
    ensures var r := SelectedSorted(xs, name, selected, block, number);
            && multiset(r) == multiset(Filter(xs, IsSelected(name, selected)))
            && (forall x :: x in r <==> x in xs && name(x) in selected)
            && SortedBy(r, BlockThenNumber(block, number))
  {
    var f := Filter(xs, IsSelected(name, selected));
    var r := SelectedSorted(xs, name, selected, block, number);
    forall x ensures x in r <==> x in f {
      assert x in r <==> x in multiset(r);
      assert x in f <==> x in multiset(f);
    }
    BlockThenNumberTotalPreorder(block, number);
    SortBySorted(f, BlockThenNumber(block, number));
  }
}
