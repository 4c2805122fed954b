/** `generateTotalSheetPDF` and `drawTotalSheet` of `src/lib/pdf-generator.ts`:
    one A4 page per block, holding a table with a header row, one row per
    room and a totals row. The table is recorded as the cell outlines
    (`doc.rect`) and the texts (`doc.text`) it draws. */
module PdfTotalSheet {
  import opened Types
  import opened Seqs
  import opened Text
  import opened PdfBilling

  const Margin: real := 5.0
  const CellPadding: real := 3.0
  const HeaderHeight: real := 12.0
  const RowHeight: real := 10.0
  const TitleSpacing: real := 1.0
  const TotalRowSpacing: real := 1.0
  const Columns: nat := 8

  /** Date, room, electricity, water, garbage, rent, total, note. */
  const ColWidths: seq<real> := [20.0, 20.0, 25.0, 25.0, 25.0, 25.0, 25.0, 40.0]
  const Headers: seq<string> := ["Ngày", "Phòng", "Điện", "Nước", "Rác", "Phòng", "Tổng", "Ghi chú"]

  /** One `doc.rect(x, y, w, h)` on page `page`. */
  datatype Box = Box(page: nat, x: real, y: real, w: real, h: real)

  function SumWidths(ws: seq<real>): real {
    if ws == [] then 0.0 else SumWidths(ws[..|ws| - 1]) + ws[|ws| - 1]
  }

  const TableWidth: real := SumWidths(ColWidths)
  const StartX: real := (A4Width - TableWidth) / 2.0

  /** The left edge of column i: `currentX` after i columns. */
  function ColX(i: nat): real
    requires i <= Columns
  {
    if i == 0 then StartX else ColX(i - 1) + ColWidths[i - 1]
  }

  lemma {:induction false} ColXIsPrefixSum(i: nat)
    requires i <= Columns
    ensures ColX(i) == StartX + SumWidths(ColWidths[..i])
  {
    if i > 0 {
      ColXIsPrefixSum(i - 1);
      assert ColWidths[..i][..i - 1] == ColWidths[..i - 1];
    }
  }

  /** The table is 205 mm wide and centred: 2.5 mm on either side. */
  lemma TableCentred()
    ensures TableWidth == 205.0 && StartX == 2.5
    ensures A4Width - ColX(Columns) == StartX
  {
    ColXIsPrefixSum(Columns);
    assert ColWidths[..Columns] == ColWidths;
    assert ColX(Columns) == StartX + 205.0;
  }

  // ---------------------------------------------------------------------
  // Figures

  /** The figures of one data row. Water is rounded up here, unlike on
      the invoices. */
  function RowTotal(room: PrintRoomData, u: Utility): real {
    ElectricCost(room, u) as real + WaterCostRounded(room, u) as real + u.garbageCost + room.roomPrice
  }

  function RowCells(room: PrintRoomData, u: Utility): (cells: seq<Content>)
    ensures |cells| == Columns
  {
    [ Str(u.printDate.dayMonth), Str(room.roomName),
      Num(ElectricCost(room, u) as real), Num(WaterCostRounded(room, u) as real),
      Num(u.garbageCost), Num(room.roomPrice), Num(RowTotal(room, u)), Str("") ]
  }

  datatype Totals = Totals(electric: int, water: int, garbage: real, rent: real, total: real)

  /** The `rooms.reduce` that sums the columns, room by room. */
  function TotalsOf(rooms: seq<PrintRoomData>, u: Utility): Totals {
    if rooms == [] then Totals(0, 0, 0.0, 0.0, 0.0)
    else
      var acc := TotalsOf(rooms[..|rooms| - 1], u);
      var room := rooms[|rooms| - 1];
      var e, w := ElectricCost(room, u), WaterCostRounded(room, u);
      Totals(acc.electric + e, acc.water + w, acc.garbage + u.garbageCost, acc.rent + room.roomPrice,
             acc.total + e as real + w as real + u.garbageCost + room.roomPrice)
  }

  /** The grand total is the sum of the four column totals, and the
      garbage column is one fee per room. */
  lemma {:induction false} TotalsConsistent(rooms: seq<PrintRoomData>, u: Utility)
    ensures var t := TotalsOf(rooms, u);
            t.total == t.electric as real + t.water as real + t.garbage + t.rent
    ensures TotalsOf(rooms, u).garbage == |rooms| as real * u.garbageCost
  {
    if rooms != [] {
      TotalsConsistent(rooms[..|rooms| - 1], u);
    }
  }

  function SumRowTotals(rooms: seq<PrintRoomData>, u: Utility): real {
    if rooms == [] then 0.0 else SumRowTotals(rooms[..|rooms| - 1], u) + RowTotal(rooms[|rooms| - 1], u)
  }

  /** The grand total is the sum of the rows' totals. */
  lemma {:induction false} GrandTotalIsSumOfRows(rooms: seq<PrintRoomData>, u: Utility)
    ensures TotalsOf(rooms, u).total == SumRowTotals(rooms, u)
  {
    if rooms != [] {
      GrandTotalIsSumOfRows(rooms[..|rooms| - 1], u);
    }
  }

  function TotalCells(t: Totals): (cells: seq<Content>)
    ensures |cells| == Columns
  {
    [ Str("Tổng cộng"), Str(""), Num(t.electric as real), Num(t.water as real),
      Num(t.garbage), Num(t.rent), Num(t.total), Str("") ]
  }

  /** `if (cell)`: a string is printed unless it is empty; a number is
      rendered by `toString`, which is never empty. */
  predicate Printed(c: Content) { c != Str("") }

  // ---------------------------------------------------------------------
  // Vertical layout

  function ContentHeight(n: nat): real {
    HeaderHeight + RowHeight * n as real + RowHeight + TotalRowSpacing
  }

  /** Where the title (or the header, without a title) starts. */
  function SheetTop(n: nat, u: Utility): real {
    if u.bottomUp then A4Height - Margin - ContentHeight(n) else Margin
  }

  function HeaderTop(n: nat, u: Utility): real {
    SheetTop(n, u) + (if u.includeDate then TitleSpacing else 0.0)
  }

  function RowTop(n: nat, u: Utility, r: nat): real {
    HeaderTop(n, u) + HeaderHeight + RowHeight * r as real
  }

  function TotalsTop(n: nat, u: Utility): real {
    if u.bottomUp then A4Height - Margin - RowHeight else RowTop(n, u, n) + TotalRowSpacing
  }

  /** Printed bottom-up, the totals row ends on the bottom margin; either
      way it starts below the last data row, one spacing lower except when
      a bottom-up sheet has a title (which the height budget leaves out). */
  lemma VerticalLayout(n: nat, u: Utility)
    ensures u.bottomUp ==> TotalsTop(n, u) + RowHeight == A4Height - Margin
    ensures TotalsTop(n, u) - RowTop(n, u, n)
         == (if u.bottomUp && u.includeDate then 0.0 else TotalRowSpacing)
  {
  }

  /** The table stays within the page margins exactly when the block has
      at most 26 rooms, in both directions of printing. */
  lemma SheetFits(n: nat, u: Utility)
    ensures Margin <= SheetTop(n, u) && TotalsTop(n, u) + RowHeight <= A4Height - Margin <==> n <= 26
  {
  }

  // ---------------------------------------------------------------------
  // Texts and outlines of the table

  function TitleMarks(page: nat, block: string, u: Utility, y: real): seq<Mark> {
    if u.includeDate then
      [ Mark(page, StartX, y, AlignLeft, Str("Dãy: " + block)),
        Mark(page, StartX + 60.0, y, AlignLeft, Str(u.printDate.monthYear)) ]
    else []
  }

  function HeaderMark(page: nat, i: nat, y: real): Mark
    requires i < Columns
  {
    Mark(page, ColX(i) + ColWidths[i] / 2.0, y + HeaderHeight / 2.0 + 1.0, AlignCenter, Str(Headers[i]))
  }

  /** Date and room are centred, the figures right-aligned. */
  function RowAlign(i: nat): Align {
    if i == 1 then AlignCenter else if i == 0 then AlignCenter else AlignRight
  }

  function RowMark(page: nat, i: nat, y: real, c: Content): Mark
    requires i < Columns
  {
    var align := RowAlign(i);
    var padding := if align == AlignRight then ColWidths[i] - CellPadding else ColWidths[i] / 2.0;
    Mark(page, ColX(i) + padding, y + RowHeight / 2.0 + 1.0, align, c)
  }

  function TotalMark(page: nat, i: nat, y: real, c: Content): Mark
    requires i < Columns
  {
    var align := if i == 0 then AlignLeft else AlignRight;
    var padding := if align == AlignRight then ColWidths[i] - CellPadding else CellPadding;
    Mark(page, ColX(i) + padding, y + RowHeight / 2.0 + 1.0, align, c)
  }

  /** The outlines of the first i cells of a row at height y. */
  function CellBoxes(page: nat, y: real, h: real, i: nat): (boxes: seq<Box>)
    requires i <= Columns
    ensures |boxes| == i
  {
    if i == 0 then [] else CellBoxes(page, y, h, i - 1) + [Box(page, ColX(i - 1), y, ColWidths[i - 1], h)]
  }

  function HeaderMarks(page: nat, y: real, i: nat): (marks: seq<Mark>)
    requires i <= Columns
    ensures |marks| == i
  {
    if i == 0 then [] else HeaderMarks(page, y, i - 1) + [HeaderMark(page, i - 1, y)]
  }

  function RowMarks(page: nat, y: real, cells: seq<Content>, i: nat): (marks: seq<Mark>)
    requires i <= Columns == |cells|
    ensures |marks| == i
  {
    if i == 0 then [] else RowMarks(page, y, cells, i - 1) + [RowMark(page, i - 1, y, cells[i - 1])]
  }

  function TotalMarks(page: nat, y: real, cells: seq<Content>, i: nat): seq<Mark>
    requires i <= Columns == |cells|
  {
    if i == 0 then []
    else TotalMarks(page, y, cells, i - 1)
         + (if Printed(cells[i - 1]) then [TotalMark(page, i - 1, y, cells[i - 1])] else [])
  }

  /** The data rows: room r's row starts r rows below `top`. */
  function RowsMarks(page: nat, top: real, rooms: seq<PrintRoomData>, u: Utility): (marks: seq<Mark>)
    ensures |marks| == Columns * |rooms|
  {
    if rooms == [] then []
    else
      var n := |rooms| - 1;
      RowsMarks(page, top, rooms[..n], u) + RowMarks(page, top + RowHeight * n as real, RowCells(rooms[n], u), Columns)
  }

  function RowsBoxes(page: nat, top: real, n: nat): (boxes: seq<Box>)
    ensures |boxes| == Columns * n
  {
    if n == 0 then [] else RowsBoxes(page, top, n - 1) + CellBoxes(page, top + RowHeight * (n - 1) as real, RowHeight, Columns)
  }

  /** Everything `drawTotalSheet` writes for one block. */
  function SheetMarks(page: nat, block: string, rooms: seq<PrintRoomData>, u: Utility): seq<Mark> {
    var n := |rooms|;
    TitleMarks(page, block, u, SheetTop(n, u))
    + HeaderMarks(page, HeaderTop(n, u), Columns)
    + RowsMarks(page, RowTop(n, u, 0), rooms, u)
    + TotalMarks(page, TotalsTop(n, u), TotalCells(TotalsOf(rooms, u)), Columns)
  }

  function SheetBoxes(page: nat, n: nat, u: Utility): seq<Box> {
    CellBoxes(page, HeaderTop(n, u), HeaderHeight, Columns) + RowsBoxes(page, RowTop(n, u, 0), n)
  }

  // ---------------------------------------------------------------------
  // Properties of the drawn table

  /** Cell i of room r's row holds that room's i-th figure, at the row's
      height and in column i. */
  lemma {:induction false} RowsMarksAt(page: nat, top: real, rooms: seq<PrintRoomData>, u: Utility, r: nat, i: nat)
    requires r < |rooms| && i < Columns
    ensures RowsMarks(page, top, rooms, u)[Columns * r + i]
         == RowMark(page, i, top + RowHeight * r as real, RowCells(rooms[r], u)[i])
  {
    var n := |rooms| - 1;
    if r < n {
      RowsMarksAt(page, top, rooms[..n], u, r, i);
      assert rooms[..n][r] == rooms[r];
    } else {
      RowMarksAt(page, top + RowHeight * n as real, RowCells(rooms[n], u), Columns, i);
    }
  }

  lemma {:induction false} RowMarksAt(page: nat, y: real, cells: seq<Content>, k: nat, i: nat)
    requires i < k <= Columns == |cells|
    ensures RowMarks(page, y, cells, k)[i] == RowMark(page, i, y, cells[i])
  {
    if i < k - 1 {
      RowMarksAt(page, y, cells, k - 1, i);
    }
  }

  /** The totals row prints its label and the five column totals, each
      right-aligned against its column's right edge less the padding. */
  lemma TotalRowContents(page: nat, y: real, t: Totals)
    ensures var m := TotalMarks(page, y, TotalCells(t), Columns);
            |m| == 6 && m[0].content == Str("Tổng cộng") && m[0].align == AlignLeft
            && m[1].content == Num(t.electric as real) && m[2].content == Num(t.water as real)
            && m[3].content == Num(t.garbage) && m[4].content == Num(t.rent) && m[5].content == Num(t.total)
            && forall k :: 1 <= k < 6 ==> m[k].align == AlignRight && m[k].x == ColX(k + 2) - CellPadding
  {
    var c := TotalCells(t);
    var m1 := [TotalMark(page, 0, y, c[0])];
    assert TotalMarks(page, y, c, 1) == m1;
    assert TotalMarks(page, y, c, 2) == m1;
    var m3 := m1 + [TotalMark(page, 2, y, c[2])];
    assert TotalMarks(page, y, c, 3) == m3;
    var m4 := m3 + [TotalMark(page, 3, y, c[3])];
    assert TotalMarks(page, y, c, 4) == m4;
    var m5 := m4 + [TotalMark(page, 4, y, c[4])];
    assert TotalMarks(page, y, c, 5) == m5;
    var m6 := m5 + [TotalMark(page, 5, y, c[5])];
    assert TotalMarks(page, y, c, 6) == m6;
    var m7 := m6 + [TotalMark(page, 6, y, c[6])];
    assert TotalMarks(page, y, c, 7) == m7;
    assert TotalMarks(page, y, c, 8) == m7;
    forall k | 1 <= k < 6 ensures m7[k].x == ColX(k + 2) - CellPadding {
      assert m7[k] == TotalMark(page, k + 1, y, c[k + 1]);
    }
  }

  // ---------------------------------------------------------------------
  // drawTotalSheet

  /** `drawTotalSheet`: the title (with a date), the header row, one row
      per room and the totals row, moving `currentY` down the page and
      `currentX` across each row. */
  method DrawTotalSheet(page: nat, block: string, rooms: seq<PrintRoomData>, u: Utility)
    returns (marks: seq<Mark>, boxes: seq<Box>)
    ensures marks == SheetMarks(page, block, rooms, u)
    ensures boxes == SheetBoxes(page, |rooms|, u)
  {
    var n := |rooms|;
    var totals := TotalsOf(rooms, u);
    var contentHeight := HeaderHeight + (RowHeight * n as real) + RowHeight + TotalRowSpacing;
    var currentY := if u.bottomUp then A4Height - Margin - contentHeight else Margin;
    marks, boxes := [], [];
    if u.includeDate {
      marks := [ Mark(page, StartX, currentY, AlignLeft, Str("Dãy: " + block)),
                 Mark(page, StartX + 60.0, currentY, AlignLeft, Str(u.printDate.monthYear)) ];
      currentY := currentY + TitleSpacing;
    }
    assert marks == TitleMarks(page, block, u, SheetTop(n, u));
    var titles := marks;

    var header, headerBoxes := DrawHeaderRow(page, currentY);
    marks, boxes := marks + header, headerBoxes;
    currentY := currentY + HeaderHeight;

    var rows, rowBoxes := DrawRows(page, currentY, rooms, u);
    marks, boxes := marks + rows, boxes + rowBoxes;
    currentY := currentY + RowHeight * n as real;

    // Totals row
    if u.bottomUp {
      currentY := A4Height - Margin - RowHeight;
    } else {
      currentY := currentY + TotalRowSpacing;
    }
    var totalRow := DrawTotalsRow(page, currentY, TotalCells(totals));
    marks := marks + totalRow;
  }

  method DrawHeaderRow(page: nat, y: real) returns (marks: seq<Mark>, boxes: seq<Box>)
    ensures marks == HeaderMarks(page, y, Columns)
    ensures boxes == CellBoxes(page, y, HeaderHeight, Columns)
  {
    marks, boxes := [], [];
    var currentX := StartX;
    var i := 0;
    while i < Columns
      invariant i <= Columns && currentX == ColX(i)
      invariant marks == HeaderMarks(page, y, i)
      invariant boxes == CellBoxes(page, y, HeaderHeight, i)
    {
      var width := ColWidths[i];
      boxes := boxes + [Box(page, currentX, y, width, HeaderHeight)];
      marks := marks + [Mark(page, currentX + width / 2.0, y + HeaderHeight / 2.0 + 1.0, AlignCenter, Str(Headers[i]))];
      currentX := currentX + width;
      i := i + 1;
    }
  }

  /** The totals row: no outlines, and only the cells that are not empty. */
  method DrawTotalsRow(page: nat, y: real, cells: seq<Content>) returns (marks: seq<Mark>)
    requires |cells| == Columns
    ensures marks == TotalMarks(page, y, cells, Columns)
  {
    marks := [];
    var currentX := StartX;
    var i := 0;
    while i < Columns
      invariant i <= Columns && currentX == ColX(i)
      invariant marks == TotalMarks(page, y, cells, i)
    {
      var width := ColWidths[i];
      if cells[i] != Str("") {
        var align := if i == 0 then AlignLeft else AlignRight;
        var padding := if align == AlignRight then width - CellPadding else CellPadding;
        marks := marks + [Mark(page, currentX + padding, y + RowHeight / 2.0 + 1.0, align, cells[i])];
      }
      currentX := currentX + width;
      i := i + 1;
    }
  }

  /** The data rows, one below the other from `top` down. */
  method DrawRows(page: nat, top: real, rooms: seq<PrintRoomData>, u: Utility) returns (marks: seq<Mark>, boxes: seq<Box>)
    ensures marks == RowsMarks(page, top, rooms, u)
    ensures boxes == RowsBoxes(page, top, |rooms|)
  {
    marks, boxes := [], [];
    var currentY := top;
    var r := 0;
    while r < |rooms|
      invariant r <= |rooms| && currentY == top + RowHeight * r as real
      invariant marks == RowsMarks(page, top, rooms[..r], u)
      invariant boxes == RowsBoxes(page, top, r)
    {
      var row, rowBoxes := DrawRow(page, currentY, RowCells(rooms[r], u));
      assert rooms[..r + 1][..r] == rooms[..r];
      marks := marks + row;
      boxes := boxes + rowBoxes;
      currentY := currentY + RowHeight;
      r := r + 1;
    }
    assert rooms[..r] == rooms;
  }

  /** One data row: a cell outline and a text per column. */
  method DrawRow(page: nat, y: real, cells: seq<Content>) returns (marks: seq<Mark>, boxes: seq<Box>)
    requires |cells| == Columns
    ensures marks == RowMarks(page, y, cells, Columns)
    ensures boxes == CellBoxes(page, y, RowHeight, Columns)
  {
    marks, boxes := [], [];
    var currentX := StartX;
    var i := 0;
    while i < Columns
      invariant i <= Columns && currentX == ColX(i)
      invariant marks == RowMarks(page, y, cells, i)
      invariant boxes == CellBoxes(page, y, RowHeight, i)
    {
      var width := ColWidths[i];
      boxes := boxes + [Box(page, currentX, y, width, RowHeight)];
      var align := if i == 1 then AlignCenter else if i == 0 then AlignCenter else AlignRight;
      var padding := if align == AlignRight then width - CellPadding else width / 2.0;
      marks := marks + [Mark(page, currentX + padding, y + RowHeight / 2.0 + 1.0, align, cells[i])];
      currentX := currentX + width;
      i := i + 1;
    }
  }

  // ---------------------------------------------------------------------
  // generateTotalSheetPDF

  function BlockOf(r: PrintRoomData): string { r.blockNumber }

  /** The pages of the first `n` sorted blocks, page i for block i. */
  function SheetsMarks(blocks: seq<string>, rooms: seq<PrintRoomData>, u: Utility, n: nat): seq<Mark>
    requires n <= |blocks|
  {
    if n == 0 then []
    else SheetsMarks(blocks, rooms, u, n - 1) + SheetMarks(n - 1, blocks[n - 1], WithKey(rooms, BlockOf, blocks[n - 1]), u)
  }

  /** The cell borders of the first `n` sorted blocks' pages. */
  function SheetsBoxes(blocks: seq<string>, rooms: seq<PrintRoomData>, u: Utility, n: nat): seq<Box>
    requires n <= |blocks|
  {
    if n == 0 then []
    else SheetsBoxes(blocks, rooms, u, n - 1) + SheetBoxes(n - 1, |WithKey(rooms, BlockOf, blocks[n - 1])|, u)
  }

  /** `generateTotalSheetPDF`: groups the rooms by block, sorts the block
      names as strings and draws block i's sheet on page i. */
  method GenerateTotalSheetPDF(rooms: seq<PrintRoomData>, u: Utility)
    returns (blocks: seq<string>, marks: seq<Mark>, boxes: seq<Box>)
    ensures blocks == SortBy(KeysInOrder(rooms, BlockOf), StrLe)
    ensures marks == SheetsMarks(blocks, rooms, u, |blocks|)
    ensures boxes == SheetsBoxes(blocks, rooms, u, |blocks|)
  {
    var keys, groups := GroupBy(rooms, BlockOf);
    blocks := SortBy(keys, StrLe);
    marks, boxes := [], [];
    for index := 0 to |blocks|
      invariant marks == SheetsMarks(blocks, rooms, u, index)
      invariant boxes == SheetsBoxes(blocks, rooms, u, index)
    {
      var block := blocks[index];
      assert block in multiset(keys);
      var sheet, sheetBoxes := DrawTotalSheet(index, block, groups[block], u);
      marks := marks + sheet;
      boxes := boxes + sheetBoxes;
    }
  }

  /** The pages are the distinct blocks in ascending order, and every room
      is printed on exactly one of them. */
  lemma BlocksArePages(rooms: seq<PrintRoomData>)
    ensures var blocks := SortBy(KeysInOrder(rooms, BlockOf), StrLe);
            SortedBy(blocks, StrLe) && Distinct(blocks)
            && (forall b :: b in blocks <==> exists i :: 0 <= i < |rooms| && rooms[i].blockNumber == b)
            && multiset(ConcatGroups(rooms, BlockOf, blocks)) == multiset(rooms)
  {
    var keys := KeysInOrder(rooms, BlockOf);
    var blocks := SortBy(keys, StrLe);
    StrLeTotalPreorder();
    SortBySorted(keys, StrLe);
    SortedKeysCover(rooms, BlockOf, StrLe);
  }
}
