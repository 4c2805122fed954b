/** `generateReceivingSheetPDF` and `receivingSheet` of `src/lib/pdf-generator.ts`:
    a landscape list of `room: total` lines, block after block in ascending
    block order and, inside a block, in ascending room number, flowing down
    30 mm wide columns and onto new pages. */
module PdfReceivingSheet {
  import opened Types
  import opened Seqs
  import opened Text
  import opened PdfBilling
  import opened Grouping

  const LineHeight: real := 8.0
  const ColumnWidth: real := 30.0
  const StartX: real := 5.0
  const StartY: real := 10.0
  const BottomMargin: real := 5.0
  const BlockGap: real := LineHeight * 1.5

  /** The landscape page: 297 mm wide, 210 mm high. */
  const PageWidth: real := A4Height
  const PageHeight: real := A4Width

  /** `Math.floor((pageWidth - startX) / columnWidth)`. */
  function MaxColumnsPerPage(): (m: int)
    ensures m == 9
  {
    ((PageWidth - StartX) / ColumnWidth).Floor
  }

  /** Where the next line goes: page, column, and the column's x and the y. */
  datatype Cursor = Cursor(page: nat, column: nat, x: real, y: real)

  /** One `doc.text(`${roomName}: ${total}`, x, y)`. */
  datatype Entry = Entry(at: Cursor, roomName: string, total: real)

  const Start: Cursor := Cursor(0, 0, StartX, StartY)

  /** The move to the top of the next column, or to the first column of a
      new page once every column of this one is used. */
  function NextColumn(c: Cursor): (d: Cursor)
    ensures d.y == StartY
    ensures c.column + 1 < 9 ==> d.page == c.page && d.column == c.column + 1 && d.x == c.x + ColumnWidth
    ensures c.column + 1 >= 9 ==> d.page == c.page + 1 && d.column == 0 && d.x == StartX
  {
    var c1 := Cursor(c.page, c.column + 1, c.x + ColumnWidth, StartY);
    if c1.column as int >= MaxColumnsPerPage() then Cursor(c.page + 1, 0, StartX, StartY) else c1
  }

  /** A cursor sits in one of the nine columns, at that column's x, not
      above the first line. */
  predicate Valid(c: Cursor) {
    c.column < 9 && c.x == StartX + ColumnWidth * c.column as real && StartY <= c.y
  }

  /** An entry lies inside its column and above the bottom margin. */
  predicate Placed(e: Entry) {
    Valid(e.at) && e.at.y + LineHeight <= PageHeight - BottomMargin
  }

  /** Reading order: an earlier page, an earlier column of the same page,
      or at least a line higher in the same column. */
  predicate Precedes(a: Cursor, b: Cursor) {
    a.page < b.page
    || (a.page == b.page && a.column < b.column)
    || (a.page == b.page && a.column == b.column && a.y + LineHeight <= b.y)
  }

  lemma NextColumnValid(c: Cursor)
    requires Valid(c)
    ensures Valid(NextColumn(c))
    ensures forall a :: Precedes(a, c) ==> Precedes(a, NextColumn(c))
  {
  }

  /** Before a line: the cursor stays while the line fits above the bottom
      margin, and moves to the next column (or page) when it does not. */
  function BeforeLine(c: Cursor): (d: Cursor)
    requires Valid(c)
    ensures c.y + LineHeight <= PageHeight - BottomMargin ==> d == c
    ensures c.y + LineHeight > PageHeight - BottomMargin ==> d == NextColumn(c)
    ensures Valid(d) && c.page <= d.page && d.y + LineHeight <= PageHeight - BottomMargin
    ensures forall a :: Precedes(a, c) ==> Precedes(a, d)
  {
    NextColumnValid(c);
    if c.y + LineHeight > PageHeight - BottomMargin then NextColumn(c) else c
  }

  lemma AppendEntry(entries: seq<Entry>, e: Entry)
    requires Chained(entries) && Past(entries, e.at)
    ensures Chained(entries + [e]) && Past(entries + [e], e.at.(y := e.at.y + LineHeight))
  {
  }

  /** After a block: down by the 12 mm gap when it fits above the bottom
      margin, otherwise to the next column (or page). */
  function AfterBlock(c: Cursor): (d: Cursor)
    requires Valid(c)
    ensures c.y + BlockGap <= PageHeight - BottomMargin ==> d == c.(y := c.y + BlockGap)
    ensures c.y + BlockGap > PageHeight - BottomMargin ==> d == NextColumn(c)
    ensures Valid(d) && c.page <= d.page
    ensures forall a :: Precedes(a, c) ==> Precedes(a, d)
  {
    NextColumnValid(c);
    if c.y + BlockGap > PageHeight - BottomMargin then NextColumn(c) else c.(y := c.y + BlockGap)
  }

  /** The line for a room: its name and the sum the invoice is based on. */
  predicate Shows(e: Entry, room: PrintRoomData, u: Utility) {
    e.roomName == room.roomName && e.total == Subtotal(room, u)
  }

  function BlockOf(r: PrintRoomData): string { r.blockNumber }

  function NumberOf(r: PrintRoomData): int { r.roomNumber }

  /** The rooms of block `b`, sorted by `(a, b) => a.roomNumber - b.roomNumber`. */
  function BlockRooms(rooms: seq<PrintRoomData>, b: string): seq<PrintRoomData> {
    SortBy(WithKey(rooms, BlockOf, b), ByNumber(NumberOf))
  }

  /** The order of the lines: the blocks as `localeCompare` sorts them,
      each block's rooms by number. */
  function ReceivingOrder(rooms: seq<PrintRoomData>): seq<PrintRoomData> {
    SortedGroups(rooms, BlockOf, Blocks(rooms, BlockOf), ByNumber(NumberOf))
  }

  /** Every room is listed exactly once, and the list is in block order
      and, inside a block, in ascending room number. */
  lemma ReceivingOrderProperties(rooms: seq<PrintRoomData>)
    ensures multiset(ReceivingOrder(rooms)) == multiset(rooms)
    ensures SortedBy(ReceivingOrder(rooms), BlockThenNumber(BlockOf, NumberOf))
  {
    LaidOutInOrder(rooms, BlockOf, NumberOf);
  }

  /** The lines written so far and the cursor after them. */
  datatype Sheet = Sheet(entries: seq<Entry>, cursor: Cursor)

  /** The lines of one block's rooms written from `c`: before each line the
      cursor moves as `BeforeLine` says, the line shows the room's total,
      and the cursor then moves one line down. */
  function BlockLines(blockRooms: seq<PrintRoomData>, u: Utility, c: Cursor): (s: Sheet)
    requires Valid(c)
    ensures Valid(s.cursor) && |s.entries| == |blockRooms|
  {
    if blockRooms == [] then Sheet([], c)
    else
      var prev := BlockLines(blockRooms[..|blockRooms| - 1], u, c);
      var room := blockRooms[|blockRooms| - 1];
      var at := BeforeLine(prev.cursor);
      Sheet(prev.entries + [Entry(at, room.roomName, Subtotal(room, u))], at.(y := at.y + LineHeight))
  }

  /** `BlockLines` of one more room: that room's line after the others. */
  lemma BlockLinesStep(blockRooms: seq<PrintRoomData>, u: Utility, c: Cursor, i: nat)
    requires Valid(c) && i < |blockRooms|
    ensures var prev := BlockLines(blockRooms[..i], u, c);
            var at := BeforeLine(prev.cursor);
            BlockLines(blockRooms[..i + 1], u, c)
              == Sheet(prev.entries + [Entry(at, blockRooms[i].roomName, Subtotal(blockRooms[i], u))], at.(y := at.y + LineHeight))
  {
    assert blockRooms[..i + 1][..i] == blockRooms[..i];
  }

  /** The lines of the blocks `blocks`, in that order, from the top of the
      first column of the first page, with `AfterBlock` after each block. */
  function Layout(rooms: seq<PrintRoomData>, u: Utility, blocks: seq<string>): (s: Sheet)
    ensures Valid(s.cursor)
  {
    if blocks == [] then Sheet([], Start)
    else
      var prev := Layout(rooms, u, blocks[..|blocks| - 1]);
      var last := BlockLines(BlockRooms(rooms, blocks[|blocks| - 1]), u, prev.cursor);
      Sheet(prev.entries + last.entries, AfterBlock(last.cursor))
  }

  /** The lines of `entries` follow each other in reading order. */
  predicate Chained(entries: seq<Entry>) {
    forall k :: 0 <= k < |entries| - 1 ==> Precedes(entries[k].at, entries[k + 1].at)
  }

  /** In a chained list every line precedes every later one; in particular
      no two lines of a column overlap. */
  lemma {:induction false} ChainedOrdered(entries: seq<Entry>, j: nat, k: nat)
    requires Chained(entries) && j < k < |entries|
    ensures Precedes(entries[j].at, entries[k].at)
    decreases k - j
  {
    if j + 1 < k {
      ChainedOrdered(entries, j + 1, k);
      assert Precedes(entries[j].at, entries[j + 1].at);
    }
  }

  /** The cursor is past the last line written. */
  predicate Past(entries: seq<Entry>, c: Cursor) {
    entries == [] || Precedes(entries[|entries| - 1].at, c)
  }

  /** The lines written so far show the rooms `shown`, one each, all inside
      the page and none on a page after `page`. */
  predicate Lines(entries: seq<Entry>, shown: seq<PrintRoomData>, u: Utility, page: nat) {
    |entries| == |shown|
    && forall k :: 0 <= k < |entries| ==>
         Shows(entries[k], shown[k], u) && Placed(entries[k]) && entries[k].at.page <= page
  }

  /** One more line keeps `Lines`. */
  lemma LinesSnoc(entries: seq<Entry>, shown: seq<PrintRoomData>, u: Utility, page: nat, e: Entry, room: PrintRoomData)
    requires Lines(entries, shown, u, page)
    requires Shows(e, room, u) && Placed(e) && e.at.page <= page
    ensures Lines(entries + [e], shown + [room], u, page)
  {
    assert forall k :: 0 <= k < |entries| ==> (entries + [e])[k] == entries[k] && (shown + [room])[k] == shown[k];
  }

  /** `Lines` up to a page holds up to any later page. */
  lemma LinesLater(entries: seq<Entry>, shown: seq<PrintRoomData>, u: Utility, page: nat, later: nat)
    requires Lines(entries, shown, u, page) && page <= later
    ensures Lines(entries, shown, u, later)
  {
  }

  /** `receivingSheet`: one line per room, in `ReceivingOrder`, each inside
      the page and each below or to the right of the one before, so no two
      lines overlap. */
  method ReceivingSheet(rooms: seq<PrintRoomData>, u: Utility) returns (entries: seq<Entry>, pageCount: nat)
    ensures var s := Layout(rooms, u, Blocks(rooms, BlockOf));
            entries == s.entries && pageCount == s.cursor.page + 1
    ensures |entries| == |ReceivingOrder(rooms)|
    ensures forall k :: 0 <= k < |entries| ==> Shows(entries[k], ReceivingOrder(rooms)[k], u)
    ensures forall k :: 0 <= k < |entries| ==> Placed(entries[k]) && entries[k].at.page < pageCount
    ensures Chained(entries)
  {
    var keys, groups := GroupBy(rooms, BlockOf);
    var blocks := SortBy(keys, StrLe);
    SortedKeysCover(rooms, BlockOf, StrLe);
    var cursor;
    cursor, entries := PrintBlocks(rooms, u, blocks, groups);
    pageCount := cursor.page + 1;
  }

  /** The blocks in the order `blocks`, each sorted by room number, from
      the top of the first column of the first page. */
  method PrintBlocks(rooms: seq<PrintRoomData>, u: Utility, blocks: seq<string>, groups: map<string, seq<PrintRoomData>>)
    returns (cursor: Cursor, entries: seq<Entry>)
    requires forall b :: b in blocks ==> b in groups && groups[b] == WithKey(rooms, BlockOf, b)
    ensures Sheet(entries, cursor) == Layout(rooms, u, blocks)
    ensures Valid(cursor) && Lines(entries, SortedGroups(rooms, BlockOf, blocks, ByNumber(NumberOf)), u, cursor.page)
    ensures Chained(entries)
  {
    cursor := Start;
    entries := [];
    ghost var printed: seq<PrintRoomData> := [];
    for b := 0 to |blocks|
      invariant Sheet(entries, cursor) == Layout(rooms, u, blocks[..b])
      invariant printed == SortedGroups(rooms, BlockOf, blocks[..b], ByNumber(NumberOf))
      invariant Valid(cursor) && Lines(entries, printed, u, cursor.page)
      invariant Chained(entries) && Past(entries, cursor)
    {
      cursor, entries := PrintNextBlock(rooms, u, blocks, groups, b, cursor, entries, printed);
      printed := printed + BlockRooms(rooms, blocks[b]);
      SortedGroupsSnoc(rooms, BlockOf, blocks, ByNumber(NumberOf), b);
    }
    assert blocks[..|blocks|] == blocks;
  }

  /** One iteration of the block loop: block b's rooms by number, then the
      gap after the block. */
  method PrintNextBlock(rooms: seq<PrintRoomData>, u: Utility, blocks: seq<string>, groups: map<string, seq<PrintRoomData>>,
                        b: nat, cursor1: Cursor, entries1: seq<Entry>, ghost printed: seq<PrintRoomData>)
    returns (cursor: Cursor, entries: seq<Entry>)
    requires b < |blocks| && blocks[b] in groups && groups[blocks[b]] == WithKey(rooms, BlockOf, blocks[b])
    requires Sheet(entries1, cursor1) == Layout(rooms, u, blocks[..b])
    requires Valid(cursor1) && Lines(entries1, printed, u, cursor1.page)
    requires Chained(entries1) && Past(entries1, cursor1)
    ensures Sheet(entries, cursor) == Layout(rooms, u, blocks[..b + 1])
    ensures Valid(cursor) && Lines(entries, printed + BlockRooms(rooms, blocks[b]), u, cursor.page)
    ensures Chained(entries) && Past(entries, cursor)
  {
    var blockRooms := SortBy(groups[blocks[b]], ByNumber(NumberOf));
    cursor, entries := PrintBlock(blockRooms, u, cursor1, entries1, printed);
    var next := AfterBlock(cursor);
    LinesLater(entries, printed + blockRooms, u, cursor.page, next.page);
    cursor := next;
    LayoutStep(rooms, u, blocks, b);
  }

  /** `Layout` of one more block: that block's lines after the others. */
  lemma LayoutStep(rooms: seq<PrintRoomData>, u: Utility, blocks: seq<string>, b: nat)
    requires b < |blocks|
    ensures var prev := Layout(rooms, u, blocks[..b]);
            var last := BlockLines(BlockRooms(rooms, blocks[b]), u, prev.cursor);
            Layout(rooms, u, blocks[..b + 1]) == Sheet(prev.entries + last.entries, AfterBlock(last.cursor))
  {
    assert blocks[..b + 1][..b] == blocks[..b];
  }

  /** The lines of one block, after `entries0`: before each line, a new
      column when the line would cross the bottom margin. */
  method PrintBlock(blockRooms: seq<PrintRoomData>, u: Utility, cursor0: Cursor, entries0: seq<Entry>, ghost printed: seq<PrintRoomData>)
    returns (cursor: Cursor, entries: seq<Entry>)
    requires Valid(cursor0) && Chained(entries0) && Past(entries0, cursor0)
    requires Lines(entries0, printed, u, cursor0.page)
    ensures entries == entries0 + BlockLines(blockRooms, u, cursor0).entries
    ensures cursor == BlockLines(blockRooms, u, cursor0).cursor
    ensures Valid(cursor) && Chained(entries) && Past(entries, cursor) && cursor0.page <= cursor.page
    ensures Lines(entries, printed + blockRooms, u, cursor.page)
  {
    cursor, entries := cursor0, entries0;
    var i := 0;
    while i < |blockRooms|
      invariant i <= |blockRooms|
      invariant Lines(entries, printed + blockRooms[..i], u, cursor.page)
      invariant Valid(cursor) && Chained(entries) && Past(entries, cursor) && cursor0.page <= cursor.page
      invariant entries == entries0 + BlockLines(blockRooms[..i], u, cursor0).entries
      invariant cursor == BlockLines(blockRooms[..i], u, cursor0).cursor
    {
      cursor, entries := PrintNext(blockRooms, u, cursor0, entries0, printed, i, cursor, entries);
      i := i + 1;
    }
    assert blockRooms[..i] == blockRooms;
  }

  /** One iteration of the line loop: the line of room i of the block. */
  method PrintNext(blockRooms: seq<PrintRoomData>, u: Utility, cursor0: Cursor, entries0: seq<Entry>, ghost printed: seq<PrintRoomData>,
                   i: nat, cursor1: Cursor, entries1: seq<Entry>)
    returns (cursor: Cursor, entries: seq<Entry>)
    requires Valid(cursor0) && i < |blockRooms|
    requires Lines(entries1, printed + blockRooms[..i], u, cursor1.page)
    requires Valid(cursor1) && Chained(entries1) && Past(entries1, cursor1) && cursor0.page <= cursor1.page
    requires entries1 == entries0 + BlockLines(blockRooms[..i], u, cursor0).entries
    requires cursor1 == BlockLines(blockRooms[..i], u, cursor0).cursor
    ensures Lines(entries, printed + blockRooms[..i + 1], u, cursor.page)
    ensures Valid(cursor) && Chained(entries) && Past(entries, cursor) && cursor0.page <= cursor.page
    ensures entries == entries0 + BlockLines(blockRooms[..i + 1], u, cursor0).entries
    ensures cursor == BlockLines(blockRooms[..i + 1], u, cursor0).cursor
  {
    ghost var shown := printed + blockRooms[..i];
    cursor, entries := PrintLine(blockRooms[i], u, cursor1, entries1, shown);
    assert printed + blockRooms[..i + 1] == shown + [blockRooms[i]];
    BlockLinesStep(blockRooms, u, cursor0, i);
  }

  /** One room's line: a new column when the line would not fit, then the
      line with the room's total, then one line down. */
  method PrintLine(room: PrintRoomData, u: Utility, cursor0: Cursor, entries0: seq<Entry>, ghost shown: seq<PrintRoomData>)
    returns (cursor: Cursor, entries: seq<Entry>)
    requires Valid(cursor0) && Chained(entries0) && Past(entries0, cursor0)
    requires Lines(entries0, shown, u, cursor0.page)
    ensures var at := BeforeLine(cursor0);
            entries == entries0 + [Entry(at, room.roomName, Subtotal(room, u))]
            && cursor == at.(y := at.y + LineHeight)
    ensures Valid(cursor) && Chained(entries) && Past(entries, cursor) && cursor0.page <= cursor.page
    ensures Lines(entries, shown + [room], u, cursor.page)
  {
    cursor := BeforeLine(cursor0);
    LinesLater(entries0, shown, u, cursor0.page, cursor.page);
    var roundedElectricityCost := ElectricCost(room, u);
    var total := roundedElectricityCost as real + WaterCostExact(room, u) + room.roomPrice + u.garbageCost;
    var entry := Entry(cursor, room.roomName, total);
    assert Shows(entry, room, u);
    LinesSnoc(entries0, shown, u, cursor.page, entry, room);
    AppendEntry(entries0, entry);
    entries := entries0 + [entry];
    cursor := cursor.(y := cursor.y + LineHeight);
  }
}
