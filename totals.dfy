/** `_calc_totals` of bills and invoices: item amounts rounded to the cent,
    their subtotal, 5% GST when applied, and the total. */
module Totals {

  /** `round(x, 2)` expressed in cents, rounding half up. */
  function RoundCents(x: real): (r: int)
    ensures (r as real) - 0.5 <= x * 100.0 < (r as real) + 0.5
  {
    (x * 100.0 + 0.5).Floor
  }

  /** `round(quantity * unit_price, 2)` */
  function LineAmount(quantity: real, unitPrice: real): int {
    RoundCents(quantity * unitPrice)
  }

  function Sum(amounts: seq<int>): int {
    if amounts == [] then 0 else Sum(amounts[..|amounts| - 1]) + amounts[|amounts| - 1]
  }

  /** The GST rate, in percent, when GST applies. */
  const GstPercent := 5

  /** `round(subtotal * rate, 2)` in cents, rounding half up. */
  function GstOf(subtotal: int, ratePercent: nat): (g: int)
    ensures 100 * g - 50 <= subtotal * ratePercent < 100 * g + 50
  {
    (subtotal * ratePercent + 50) / 100
  }

  datatype Totals = Totals(subtotal: int, gstRate: nat, gstAmount: int, total: int)

  /** `_calc_totals(items, apply_gst)` given the items' rounded amounts. */
  function CalcTotals(amounts: seq<int>, applyGst: bool): Totals {
    var subtotal := Sum(amounts);
    var rate := if applyGst then GstPercent else 0;
    var gst := GstOf(subtotal, rate);
    Totals(subtotal, rate, gst, subtotal + gst)
  }

  lemma {:induction false} SumNonNegative(amounts: seq<int>)
    requires forall a :: a in amounts ==> a >= 0
    ensures Sum(amounts) >= 0
  {
    if amounts != [] {
      var prefix := amounts[..|amounts| - 1];
      assert forall a :: a in prefix ==> a in amounts;
      assert amounts[|amounts| - 1] in amounts;
      SumNonNegative(prefix);
    }
  }

  /** The subtotal is the sum of the item amounts, GST is charged at 5% only
      when applied (within half a cent) and never otherwise, and the total is
      subtotal plus GST; with non-negative amounts nothing is negative. */
  lemma CalcTotalsSpec(amounts: seq<int>, applyGst: bool)
    ensures var t := CalcTotals(amounts, applyGst);
      && t.subtotal == Sum(amounts)
      && t.gstRate == (if applyGst then GstPercent else 0)
      && t.total == t.subtotal + t.gstAmount
      && (!applyGst ==> t.gstAmount == 0)
      && (applyGst ==> 100 * t.gstAmount - 50 <= GstPercent * t.subtotal < 100 * t.gstAmount + 50)
    ensures (forall a :: a in amounts ==> a >= 0) ==>
      var t := CalcTotals(amounts, applyGst);
      0 <= t.subtotal && 0 <= t.gstAmount && t.subtotal <= t.total
  {
    if forall a :: a in amounts ==> a >= 0 {
      SumNonNegative(amounts);
    }
  }

  /** A line of positive quantity and price never rounds to a negative amount. */
  lemma LineAmountNonNegative(quantity: real, unitPrice: real)
    requires quantity > 0.0 && unitPrice > 0.0
    ensures LineAmount(quantity, unitPrice) >= 0
  {
    assert quantity * unitPrice > 0.0;
  }
}
