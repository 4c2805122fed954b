/** The billing arithmetic and number formatting of `src/lib/pdf-generator.ts`,
    and the placement records the three layouts produce instead of drawing.
    Amounts are in thousands of VND, as the stored prices are. */
module PdfBilling {
  import opened Types
  import opened Text

  // ---------------------------------------------------------------------
  // Page geometry shared by the layouts (millimetres)

  const A4Width: real := 210.0
  const A4Height: real := 297.0

  datatype Align = AlignLeft | AlignCenter | AlignRight

  /** What a `doc.text` call prints: a literal string, or a JavaScript number
      printed with `toString` (whose digits are left abstract). */
  datatype Content = Str(s: string) | Num(v: real)

  /** One `doc.text(content, x, y, { align })` on page `page` (0-based). */
  datatype Mark = Mark(page: nat, x: real, y: real, align: Align, content: Content)

  // ---------------------------------------------------------------------
  // Rounding

  /** `Math.ceil`. */
  function Ceil(x: real): (c: int)
    ensures x <= c as real < x + 1.0
  {
    -((-x).Floor)
  }

  lemma CeilOfInt(n: int)
    ensures Ceil(n as real) == n
  {
  }

  /** `calculateTotalVND`: converts thousands to VND and rounds up to the
      next whole thousand. */
  function CalculateTotalVND(amount: real): (r: int)
    ensures r % 1000 == 0
    ensures amount * 1000.0 <= r as real < amount * 1000.0 + 1000.0
  {
    var inVND := amount * 1000.0;
    var c := Ceil(inVND / 1000.0);
    assert c * 1000 == 1000 * c;
    c * 1000
  }

  /** `calculateTotalVND` never lowers an amount that is already a whole
      number of thousands. */
  lemma CalculateTotalVNDOfWhole(n: int)
    ensures CalculateTotalVND(n as real) == n * 1000
  {
    CeilOfInt(n);
  }

  // ---------------------------------------------------------------------
  // Number formatting

  /** `Number.prototype.toString` of an integer (below 10^21 in magnitude):
      decimal digits whose value is the number, without a leading zero,
      after a minus sign when the number is negative. */
  function IntString(i: int): (s: string)
    ensures i >= 0 ==> 1 <= |s| && AllDigits(s) && Value(s) == i && (s[0] == '0' ==> i == 0)
    ensures i < 0 ==> 2 <= |s| && s[0] == '-' && AllDigits(s[1..]) && Value(s[1..]) == -i && s[1] != '0'
  {
    if i < 0 then
      ValueOfDigits(-i);
      assert ("-" + Digits(-i))[1..] == Digits(-i);
      "-" + Digits(-i)
    else
      ValueOfDigits(i);
      Digits(i)
  }

  /** A run of digits with a space inserted before every group of three
      counted from the right, which is what
      `.replace(/\B(?=(\d{3})+(?!\d))/g, ' ')` does to it. */
  function GroupDigits(d: string): string
    decreases |d|
  {
    if |d| <= 3 then d else GroupDigits(d[..|d| - 3]) + " " + d[|d| - 3..]
  }

  /** The thousands-separator replacement on a rendered integer: the sign
      is a non-word character, so no space follows it. */
  function Grouped(i: int): string {
    if i < 0 then "-" + GroupDigits(Digits(-i)) else GroupDigits(Digits(i))
  }

  /** `formatVND`: the amount in VND rounded down, grouped by thousands. */
  function FormatVND(amount: real): string {
    Grouped((amount * 1000.0).Floor)
  }

  /** Removing the separators from grouped digits gives the digits back. */
  lemma {:induction false} GroupDigitsStrip(d: string)
    requires AllDigits(d)
    ensures Strip(GroupDigits(d), ' ') == d
    decreases |d|
  {
    if |d| > 3 {
      var n := |d|;
      var front, last := d[..n - 3], d[n - 3..];
      assert AllDigits(front);
      assert ' ' !in last by { assert AllDigits(last); }
      GroupDigitsStrip(front);
      StripAround(GroupDigits(front), last, ' ');
      assert front + last == d;
    } else {
      assert ' ' !in d by { assert AllDigits(d); }
      StripWithout(d, ' ');
    }
  }

  /** The groups of grouped digits: the first has one to three digits,
      every later one exactly three. */
  lemma {:induction false} GroupDigitsShape(d: string)
    requires 1 <= |d| && AllDigits(d)
    ensures var g := Split(GroupDigits(d), ' ');
            1 <= |g[0]| <= 3 && forall k :: 1 <= k < |g| ==> |g[k]| == 3
    decreases |d|
  {
    if |d| <= 3 {
      SplitWithout(d, ' ');
    } else {
      var n := |d|;
      var front := GroupDigits(d[..n - 3]);
      GroupDigitsShape(d[..n - 3]);
      SplitAround(front, d[n - 3..], ' ');
      SplitWithout(d[n - 3..], ' ');
      assert GroupDigits(d) == front + [' '] + d[n - 3..];
    }
  }

  /** `formatVND(a)` without its spaces is the decimal of ⌊a·1000⌋. */
  lemma FormatVNDPlain(amount: real)
    ensures Strip(FormatVND(amount), ' ') == IntString((amount * 1000.0).Floor)
  {
    var i := (amount * 1000.0).Floor;
    if i < 0 {
      GroupDigitsStrip(Digits(-i));
      StripAppend("-", GroupDigits(Digits(-i)), ' ');
      StripWithout("-", ' ');
    } else {
      GroupDigitsStrip(Digits(i));
    }
  }

  /** The digits of `formatVND(a)` fall into a first group of one to three
      and later groups of exactly three. */
  lemma FormatVNDGroups(amount: real)
    requires amount >= 0.0
    ensures var g := Split(FormatVND(amount), ' ');
            1 <= |g[0]| <= 3 && forall k :: 1 <= k < |g| ==> |g[k]| == 3
  {
    GroupDigitsShape(Digits((amount * 1000.0).Floor));
  }

  // ---------------------------------------------------------------------
  // Amounts

  function ElectricUsage(r: PrintRoomData): int { r.currentElectric - r.previousElectric }

  function WaterUsage(r: PrintRoomData): int { r.currentWater - r.previousWater }

  /** The electricity charge, `Math.ceil(usage · price)`: never below the
      exact product and less than one unit above it. */
  function ElectricCost(r: PrintRoomData, u: Utility): (c: int)
    ensures ElectricUsage(r) as real * u.electricityCost <= c as real
    ensures c as real < ElectricUsage(r) as real * u.electricityCost + 1.0
  {
    Ceil(ElectricUsage(r) as real * u.electricityCost)
  }

  /** The water charge as invoices and the receiving sheet print it: the
      exact product, not rounded. */
  function WaterCostExact(r: PrintRoomData, u: Utility): real {
    WaterUsage(r) as real * u.waterCost
  }

  /** The water charge on the total sheet, rounded up like electricity. */
  function WaterCostRounded(r: PrintRoomData, u: Utility): (c: int)
    ensures WaterCostExact(r, u) <= c as real < WaterCostExact(r, u) + 1.0
  {
    Ceil(WaterUsage(r) as real * u.waterCost)
  }

  /** The sum an invoice and a receiving-sheet line are based on. */
  function Subtotal(r: PrintRoomData, u: Utility): real {
    ElectricCost(r, u) as real + WaterCostExact(r, u) + r.roomPrice + u.garbageCost
  }

  /** The invoice total in VND: the subtotal rounded up to whole thousands. */
  function InvoiceTotal(r: PrintRoomData, u: Utility): (t: int)
    ensures t % 1000 == 0
    ensures Subtotal(r, u) * 1000.0 <= t as real < Subtotal(r, u) * 1000.0 + 1000.0
  {
    CalculateTotalVND(Subtotal(r, u))
  }
}
