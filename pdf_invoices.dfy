/** `generateInvoicePDF` and `drawInvoice` of `src/lib/pdf-generator.ts`:
    four 97×140 mm invoice cards per A4 portrait page on a 2×2 grid. */
module PdfInvoices {
  import opened Types
  import opened PdfBilling
  import InvoiceSettingsStore

  const InvoiceSpacing: real := 10.0
  const InvoiceWidth: real := 97.0
  const InvoiceHeight: real := 140.0
  const LeftMargin: real := (A4Width - (InvoiceWidth * 2.0 + InvoiceSpacing)) / 2.0
  const TopMargin: real := (A4Height - (InvoiceHeight * 2.0 + InvoiceSpacing)) / 2.0
  const InvoicesPerPage: nat := 4

  /** The origin of slot `slot` of a page: column `slot mod 2`, row `slot div 2`. */
  function SlotX(slot: nat): real {
    LeftMargin + (slot % 2) as real * (InvoiceWidth + InvoiceSpacing)
  }

  function SlotY(slot: nat): real {
    TopMargin + (slot / 2) as real * (InvoiceHeight + InvoiceSpacing)
  }

  /** The slot origins, and every card lies inside the page. */
  lemma SlotGeometry(slot: nat)
    requires slot < InvoicesPerPage
    ensures SlotX(slot) == 3.0 + (slot % 2) as real * 107.0
    ensures SlotY(slot) == 3.5 + (slot / 2) as real * 150.0
    ensures 0.0 <= SlotX(slot) && SlotX(slot) + InvoiceWidth <= A4Width
    ensures 0.0 <= SlotY(slot) && SlotY(slot) + InvoiceHeight <= A4Height
  {
  }

  /** Two different slots of a page never overlap. */
  lemma SlotsDisjoint(i: nat, j: nat)
    requires i < InvoicesPerPage && j < InvoicesPerPage && i != j
    ensures SlotX(i) + InvoiceWidth <= SlotX(j) || SlotX(j) + InvoiceWidth <= SlotX(i)
         || SlotY(i) + InvoiceHeight <= SlotY(j) || SlotY(j) + InvoiceHeight <= SlotY(i)
  {
  }

  function Left(page: nat, x: real, y: real, s: string): Mark { Mark(page, x, y, AlignLeft, Str(s)) }
  function Right(page: nat, x: real, y: real, s: string): Mark { Mark(page, x, y, AlignRight, Str(s)) }
  function Centered(page: nat, x: real, y: real, s: string): Mark { Mark(page, x, y, AlignCenter, Str(s)) }

  /** A card anchor lies inside the card whose top-left corner is (x, y). */
  predicate InCard(m: Mark, page: nat, x: real, y: real) {
    m.page == page && x <= m.x <= x + InvoiceWidth && y <= m.y <= y + InvoiceHeight
  }

  const LineHeight: real := 7.0
  const Indent: real := 5.0
  const ColWidth: real := 25.0

  /** The room name and the date on the first line. */
  function DrawHeader(page: nat, x: real, y: real, room: PrintRoomData, u: Utility): (marks: seq<Mark>)
    ensures forall m :: m in marks ==> InCard(m, page, x, y)
  {
    [ Left(page, x + Indent, y + LineHeight, "Phòng: " + room.roomName),
      Left(page, x + InvoiceWidth - 50.0, y + LineHeight, "Ngày: " + u.printDate.full) ]
  }

  /** One meter section starting at `y + top`: its title, the new and the
      old reading, then `usage x unit price =` with the charge at the
      right edge; the section is `lineHeight · 4.5` tall. */
  function DrawMeter(page: nat, x: real, y: real, top: real, title: string,
                     current: int, previous: int, unitPrice: real, charge: real): (marks: seq<Mark>)
    requires 0.0 <= top && top + LineHeight * 3.0 <= InvoiceHeight
    ensures forall m :: m in marks ==> InCard(m, page, x, y)
  {
    var valueX := x + Indent * 2.0 + ColWidth;
    var yTitle := y + top;
    var yNew := yTitle + LineHeight;
    var yOld := yNew + LineHeight;
    var yCalc := yOld + LineHeight;
    [ Left(page, x + Indent, yTitle, title),
      Left(page, x + Indent * 2.0, yNew, "Số mới:"),
      Left(page, valueX, yNew, IntString(current)),
      Left(page, x + Indent * 2.0, yOld, "Số cũ:"),
      Left(page, valueX, yOld, IntString(previous)),
      Left(page, valueX, yCalc, IntString(current - previous) + " x " + FormatVND(unitPrice) + " ="),
      Right(page, x + InvoiceWidth - 10.0, yCalc, FormatVND(charge)) ]
  }

  /** Rent, garbage fee, the rounded total and the two closing lines,
      starting at `y + top`. */
  function DrawCharges(page: nat, x: real, y: real, top: real, room: PrintRoomData, u: Utility): (marks: seq<Mark>)
    requires 0.0 <= top && top + LineHeight * 6.0 + 1.0 <= InvoiceHeight
    ensures forall m :: m in marks ==> InCard(m, page, x, y)
  {
    var figureX := x + InvoiceWidth - 10.0;
    var footerX := x + InvoiceWidth / 2.0;
    var yRent := y + top;
    var yGarbage := yRent + LineHeight;
    var yTotal := yGarbage + LineHeight * 2.0;
    var yFooter1 := yTotal + LineHeight * 2.0;
    var yFooter2 := yFooter1 + LineHeight + 1.0;
    [ Left(page, x + Indent, yRent, "PHÒNG:"),
      Right(page, figureX, yRent, FormatVND(room.roomPrice)),
      Left(page, x + Indent, yGarbage, "RÁC:"),
      Right(page, figureX, yGarbage, FormatVND(u.garbageCost)),
      Left(page, x + Indent, yTotal, "TỔNG CỘNG:"),
      Right(page, figureX, yTotal, Grouped(InvoiceTotal(room, u))),
      Centered(page, footerX, yFooter1, "Trả phòng vui lòng báo trước 1 tháng."),
      Centered(page, footerX, yFooter2, "Nếu không báo, nhà trọ không hoàn cọc.") ]
  }

  /** Where the electricity, water and charges sections start below the
      card's top edge: after the header, and 1.5 lines after each meter's
      last line. */
  const ElectricTop: real := LineHeight * 3.0
  const WaterTop: real := ElectricTop + LineHeight * 3.0 + LineHeight * 1.5
  const ChargesTop: real := WaterTop + LineHeight * 3.0 + LineHeight * 1.5

  /** The text `drawInvoice` places on a card whose top-left corner is
      (x, y): every anchor lies inside the card. */
  function DrawInvoice(page: nat, x: real, y: real, room: PrintRoomData, u: Utility): (marks: seq<Mark>)
    ensures forall m :: m in marks ==> InCard(m, page, x, y)
  {
    DrawHeader(page, x, y, room, u)
    + DrawMeter(page, x, y, ElectricTop, "ĐIỆN:", room.currentElectric, room.previousElectric,
                u.electricityCost, ElectricCost(room, u) as real)
    + DrawMeter(page, x, y, WaterTop, "NƯỚC:", room.currentWater, room.previousWater,
                u.waterCost, WaterCostExact(room, u))
    + DrawCharges(page, x, y, ChargesTop, room, u)
  }

  /** The right-aligned figures of a list of marks, in order. */
  function Figures(marks: seq<Mark>): seq<Content> {
    if marks == [] then []
    else (if marks[0].align == AlignRight then [marks[0].content] else []) + Figures(marks[1..])
  }

  lemma {:induction false} FiguresAppend(a: seq<Mark>, b: seq<Mark>)
    ensures Figures(a + b) == Figures(a) + Figures(b)
  {
    if a != [] {
      assert (a + b)[1..] == a[1..] + b;
      FiguresAppend(a[1..], b);
    } else {
      assert a + b == b;
    }
  }

  lemma FiguresStep(s: seq<Mark>, k: nat)
    requires k < |s|
    ensures Figures(s[k..]) == (if s[k].align == AlignRight then [s[k].content] else []) + Figures(s[k + 1..])
  {
    assert s[k..][1..] == s[k + 1..];
  }

  lemma FiguresOfMeter(page: nat, x: real, y: real, top: real, title: string,
                       current: int, previous: int, unitPrice: real, charge: real)
    requires 0.0 <= top && top + LineHeight * 3.0 <= InvoiceHeight
    ensures Figures(DrawMeter(page, x, y, top, title, current, previous, unitPrice, charge)) == [Str(FormatVND(charge))]
  {
    var m := DrawMeter(page, x, y, top, title, current, previous, unitPrice, charge);
    FiguresStep(m, 0); FiguresStep(m, 1); FiguresStep(m, 2); FiguresStep(m, 3);
    FiguresStep(m, 4); FiguresStep(m, 5); FiguresStep(m, 6);
    assert m[0..] == m && m[7..] == [];
  }

  lemma FiguresOfCharges(page: nat, x: real, y: real, top: real, room: PrintRoomData, u: Utility)
    requires 0.0 <= top && top + LineHeight * 6.0 + 1.0 <= InvoiceHeight
    ensures Figures(DrawCharges(page, x, y, top, room, u)) ==
            [Str(FormatVND(room.roomPrice)), Str(FormatVND(u.garbageCost)), Str(Grouped(InvoiceTotal(room, u)))]
  {
    var m := DrawCharges(page, x, y, top, room, u);
    FiguresStep(m, 0); FiguresStep(m, 1); FiguresStep(m, 2); FiguresStep(m, 3);
    FiguresStep(m, 4); FiguresStep(m, 5); FiguresStep(m, 6); FiguresStep(m, 7);
    assert m[0..] == m && m[8..] == [];
  }

  /** The figure column of an invoice reads, top to bottom: the rounded-up
      electricity charge, the unrounded water charge, the rent and the
      garbage fee, each through `formatVND`, then the total rounded up to
      whole thousands of VND and grouped the same way. */
  lemma InvoiceFigures(page: nat, x: real, y: real, room: PrintRoomData, u: Utility)
    ensures Figures(DrawInvoice(page, x, y, room, u)) ==
      [ Str(FormatVND(ElectricCost(room, u) as real)),
        Str(FormatVND(WaterCostExact(room, u))),
        Str(FormatVND(room.roomPrice)),
        Str(FormatVND(u.garbageCost)),
        Str(Grouped(InvoiceTotal(room, u))) ]
  {
    var h := DrawHeader(page, x, y, room, u);
    var e := DrawMeter(page, x, y, ElectricTop, "ĐIỆN:", room.currentElectric, room.previousElectric,
                       u.electricityCost, ElectricCost(room, u) as real);
    var w := DrawMeter(page, x, y, WaterTop, "NƯỚC:", room.currentWater, room.previousWater,
                       u.waterCost, WaterCostExact(room, u));
    var c := DrawCharges(page, x, y, ChargesTop, room, u);
    assert DrawInvoice(page, x, y, room, u) == h + e + w + c;
    FiguresStep(h, 0); FiguresStep(h, 1);
    assert h[0..] == h && h[2..] == [];
    FiguresOfMeter(page, x, y, ElectricTop, "ĐIỆN:", room.currentElectric, room.previousElectric,
                   u.electricityCost, ElectricCost(room, u) as real);
    FiguresOfMeter(page, x, y, WaterTop, "NƯỚC:", room.currentWater, room.previousWater,
                   u.waterCost, WaterCostExact(room, u));
    FiguresOfCharges(page, x, y, ChargesTop, room, u);
    calc {
      Figures(h + e + w + c);
    == { FiguresAppend(h + e + w, c); FiguresAppend(h + e, w); FiguresAppend(h, e); }
      Figures(h) + Figures(e) + Figures(w) + Figures(c);
    ==
      [] + [Str(FormatVND(ElectricCost(room, u) as real))] + [Str(FormatVND(WaterCostExact(room, u)))]
      + [Str(FormatVND(room.roomPrice)), Str(FormatVND(u.garbageCost)), Str(Grouped(InvoiceTotal(room, u)))];
    == { FiveInARow(Str(FormatVND(ElectricCost(room, u) as real)), Str(FormatVND(WaterCostExact(room, u))),
                    Str(FormatVND(room.roomPrice)), Str(FormatVND(u.garbageCost)), Str(Grouped(InvoiceTotal(room, u)))); }
      [ Str(FormatVND(ElectricCost(room, u) as real)), Str(FormatVND(WaterCostExact(room, u))),
        Str(FormatVND(room.roomPrice)), Str(FormatVND(u.garbageCost)), Str(Grouped(InvoiceTotal(room, u))) ];
    }
  }

  lemma FiveInARow<T>(a: T, b: T, c: T, d: T, e: T)
    ensures [] + [a] + [b] + [c, d, e] == [a, b, c, d, e]
  {
  }

  /** The two closing lines of every invoice are the store's default remarks. */
  lemma InvoiceFooter(page: nat, x: real, y: real, room: PrintRoomData, u: Utility)
    ensures var m := DrawCharges(page, x, y, ChargesTop, room, u);
            [m[6].content, m[7].content] ==
            [Str(InvoiceSettingsStore.DefaultInvoiceRemarks[0]), Str(InvoiceSettingsStore.DefaultInvoiceRemarks[1])]
  {
  }

  // ---------------------------------------------------------------------
  // generateInvoicePDF

  /** Where an invoice goes: a page, a slot of that page and the slot's origin. */
  datatype Card = Card(page: nat, slot: nat, x: real, y: real, room: PrintRoomData)

  /** The card of the k-th room: page k div 4, slot k mod 4. */
  function CardFor(rooms: seq<PrintRoomData>, k: nat): Card
    requires k < |rooms|
  {
    Card(k / InvoicesPerPage, k % InvoicesPerPage, SlotX(k % InvoicesPerPage), SlotY(k % InvoicesPerPage), rooms[k])
  }

  /** All text of a sequence of cards, card by card. */
  function MarksOf(cards: seq<Card>, u: Utility): seq<Mark> {
    if cards == [] then []
    else
      var c := cards[|cards| - 1];
      MarksOf(cards[..|cards| - 1], u) + DrawInvoice(c.page, c.x, c.y, c.room, u)
  }

  function Min(a: int, b: int): int { if a <= b then a else b }

  /** The cards drawn so far belong to the first rooms, in order, and the
      text drawn so far is theirs. */
  predicate Drawn(rooms: seq<PrintRoomData>, u: Utility, cards: seq<Card>, marks: seq<Mark>) {
    && |cards| <= |rooms|
    && (forall k :: 0 <= k < |cards| ==> cards[k] == CardFor(rooms, k))
    && marks == MarksOf(cards, u)
  }

  /** `Math.ceil(n / invoicesPerPage)`: exactly enough pages for n cards,
      and the last of them is not empty. */
  function PageCount(n: nat): (pages: nat)
    ensures pages == (n + 3) / 4
    ensures pages * 4 >= n
    ensures n > 0 ==> (pages - 1) * 4 < n
  {
    var q := (n + 3) / 4;
    assert n as real / 4.0 <= q as real < n as real / 4.0 + 1.0;
    Ceil(n as real / InvoicesPerPage as real)
  }

  /** A page before the last one starts inside the list of rooms. */
  lemma PageStart(n: nat, p: nat)
    requires p < PageCount(n)
    ensures p * 4 < n
  {
  }

  /** The card of room 4p + i is slot i of page p. */
  lemma CardAt(rooms: seq<PrintRoomData>, p: nat, i: nat)
    requires i < 4 && p * 4 + i < |rooms|
    ensures CardFor(rooms, p * 4 + i) == Card(p, i, SlotX(i), SlotY(i), rooms[p * 4 + i])
  {
    assert (p * 4 + i) / 4 == p && (p * 4 + i) % 4 == i;
  }

  /** `generateInvoicePDF`: a loop over `Math.ceil(n / 4)` pages, each
      drawing its slice of at most four rooms. Room k lands on page k div 4
      in slot k mod 4, so every room gets exactly one card, in input order. */
  method GenerateInvoicePDF(rooms: seq<PrintRoomData>, u: Utility)
    returns (totalPages: nat, cards: seq<Card>, marks: seq<Mark>)
    ensures totalPages == (|rooms| + 3) / 4
    ensures |cards| == |rooms|
    ensures forall k :: 0 <= k < |rooms| ==> cards[k] == CardFor(rooms, k)
    ensures marks == MarksOf(cards, u)
  {
    totalPages := PageCount(|rooms|);
    cards, marks := [], [];
    var pageIndex: nat := 0;
    while pageIndex < totalPages
      invariant pageIndex <= totalPages
      invariant |cards| == Min(pageIndex * 4, |rooms|)
      invariant Drawn(rooms, u, cards, marks)
    {
      PageStart(|rooms|, pageIndex);
      cards, marks := DrawPage(rooms, u, pageIndex, cards, marks);
      pageIndex := pageIndex + 1;
    }
  }

  /** One iteration of the page loop: the slice `rooms.slice(4p, 4p + 4)`
      drawn into slots 0, 1, 2, 3 of page p, after the cards of the
      earlier pages. */
  method DrawPage(rooms: seq<PrintRoomData>, u: Utility, pageIndex: nat, cards0: seq<Card>, marks0: seq<Mark>)
    returns (cards: seq<Card>, marks: seq<Mark>)
    requires pageIndex * 4 < |rooms| && |cards0| == pageIndex * 4
    requires Drawn(rooms, u, cards0, marks0)
    ensures |cards| == Min(pageIndex * 4 + 4, |rooms|)
    ensures Drawn(rooms, u, cards, marks)
  {
    cards, marks := cards0, marks0;
    var start := pageIndex * InvoicesPerPage;
    var stop := Min(start + InvoicesPerPage, |rooms|);
    var pageRooms := rooms[start .. stop];
    assert |pageRooms| == stop - start;
    var index: nat := 0;
    while index < |pageRooms|
      invariant index <= |pageRooms| <= 4
      invariant |cards| == start + index
      invariant Drawn(rooms, u, cards, marks)
    {
      SliceAt(rooms, start, stop, index);
      cards, marks := DrawSlot(rooms, u, pageIndex, index, pageRooms[index], cards, marks);
      index := index + 1;
    }
  }

  lemma SliceAt<T>(xs: seq<T>, start: nat, stop: nat, i: nat)
    requires start <= stop <= |xs| && i < stop - start
    ensures xs[start .. stop][i] == xs[start + i]
  {
  }

  /** One iteration of the slot loop: room 4p + i drawn at slot i of page p. */
  method DrawSlot(rooms: seq<PrintRoomData>, u: Utility, pageIndex: nat, index: nat, room: PrintRoomData,
                  cards0: seq<Card>, marks0: seq<Mark>)
    returns (cards: seq<Card>, marks: seq<Mark>)
    requires index < 4 && |cards0| == pageIndex * 4 + index < |rooms| && room == rooms[|cards0|]
    requires Drawn(rooms, u, cards0, marks0)
    ensures |cards| == |cards0| + 1
    ensures Drawn(rooms, u, cards, marks)
  {
    var x, y := SlotX(index), SlotY(index);
    var card := Card(pageIndex, index, x, y, room);
    CardAt(rooms, pageIndex, index);
    AppendCard(rooms, cards0, card, u);
    cards := cards0 + [card];
    marks := marks0 + DrawInvoice(pageIndex, x, y, room, u);
  }

  lemma AppendCard(rooms: seq<PrintRoomData>, cards: seq<Card>, card: Card, u: Utility)
    requires |cards| < |rooms| && card == CardFor(rooms, |cards|)
    requires forall k :: 0 <= k < |cards| ==> cards[k] == CardFor(rooms, k)
    ensures MarksOf(cards + [card], u) == MarksOf(cards, u) + DrawInvoice(card.page, card.x, card.y, card.room, u)
    ensures forall k :: 0 <= k < |cards| + 1 ==> (cards + [card])[k] == CardFor(rooms, k)
  {
    assert (cards + [card])[..|cards|] == cards;
  }

  /** Page p holds exactly rooms 4p .. 4p+3 (those that exist). */
  lemma PageContents(rooms: seq<PrintRoomData>, k: nat, p: nat)
    requires k < |rooms|
    ensures CardFor(rooms, k).page == p <==> p * 4 <= k < p * 4 + 4
  {
  }

  /** Each card lies inside its page, and two cards on the same page never overlap. */
  lemma CardsDoNotOverlap(rooms: seq<PrintRoomData>, j: nat, k: nat)
    requires j < |rooms| && k < |rooms|
    ensures var c := CardFor(rooms, k);
            0.0 <= c.x && c.x + InvoiceWidth <= A4Width && 0.0 <= c.y && c.y + InvoiceHeight <= A4Height
    ensures j != k && CardFor(rooms, j).page == CardFor(rooms, k).page ==>
            var a, b := CardFor(rooms, j), CardFor(rooms, k);
            a.x + InvoiceWidth <= b.x || b.x + InvoiceWidth <= a.x || a.y + InvoiceHeight <= b.y || b.y + InvoiceHeight <= a.y
  {
    SlotGeometry(k % 4);
    if j != k && j / 4 == k / 4 {
      assert j % 4 != k % 4;
      SlotsDisjoint(j % 4, k % 4);
    }
  }

  /** Every piece of text lies inside one of the cards. */
  lemma {:induction false} MarksInCards(cards: seq<Card>, u: Utility)
    ensures forall m :: m in MarksOf(cards, u) ==> exists c :: c in cards && InCard(m, c.page, c.x, c.y)
  {
    if cards != [] {
      var init := cards[..|cards| - 1];
      MarksInCards(init, u);
      forall m | m in MarksOf(cards, u)
        ensures exists c :: c in cards && InCard(m, c.page, c.x, c.y)
      {
        var c := cards[|cards| - 1];
        if m in MarksOf(init, u) {
          var d :| d in init && InCard(m, d.page, d.x, d.y);
          assert d in cards;
        } else {
          assert m in DrawInvoice(c.page, c.x, c.y, c.room, u);
          assert c in cards;
        }
      }
    }
  }
}
