/**
 * The line items of a quote and the totals computed from them (comb.py):
 * each line's total is its quantity times its unit price, the subtotal is the
 * sum of the line totals, new customers get 10% off the subtotal, and the
 * grand total is the discounted subtotal plus shipping.
 */
module QuoteItems {

  /** The discount rate stored with every saved quote. */
  const SaveDiscount: real := 0.1

  /** The factor the subtotal is multiplied by ("10% off"). */
  const DiscountFactor: real := 0.9

  /** The fixed set of product categories the form offers. */
  datatype Category = Keychain | Pin | Sticker

  /** One row of the item form as entered: category, free text, quantity and unit price. */
  datatype ItemRow = ItemRow(item: Category, specifications: string, size: string,
                             qty: int, unitPrice: real)

  /** One line of a quote, carrying its derived total price. */
  datatype LineItem = LineItem(item: Category, specifications: string, size: string,
                               qty: int, unitPrice: real, totalPrice: real)

  /** A line item whose stored total agrees with its quantity and unit price. */
  predicate PricedCorrectly(line: LineItem)
  {
    line.totalPrice == line.qty as real * line.unitPrice
  }

  /** `line` is the line item built from the form row `row`. */
  predicate Built(line: LineItem, row: ItemRow)
  {
    && line.item == row.item && line.specifications == row.specifications
    && line.size == row.size && line.qty == row.qty && line.unitPrice == row.unitPrice
    && PricedCorrectly(line)
  }

  /** Every line of `items` is priced correctly. */
  predicate AllPricedCorrectly(items: seq<LineItem>)
  {
    forall i :: 0 <= i < |items| ==> PricedCorrectly(items[i])
  }

  /**
   * Builds the line items from the form rows, appending one line per row in
   * order. Every line is the row's data plus its total price.
   */
  method BuildItems(rows: seq<ItemRow>) returns (items: seq<LineItem>)
    ensures |items| == |rows|
    ensures forall i :: 0 <= i < |rows| ==> Built(items[i], rows[i])
    ensures AllPricedCorrectly(items)
  {
    items := [];
    for i := 0 to |rows|
      invariant |items| == i
      invariant forall k :: 0 <= k < i ==> Built(items[k], rows[k])
    {
      var row := rows[i];
      var totalPrice := row.qty as real * row.unitPrice;
      items := items + [LineItem(row.item, row.specifications, row.size,
                                 row.qty, row.unitPrice, totalPrice)];
    }
  }

  /** The sum of the stored line totals. */
  function Subtotal(items: seq<LineItem>): real
  {
    if items == [] then 0.0 else items[0].totalPrice + Subtotal(items[1..])
  }

  /** The reference sum of quantity times unit price, ignoring the stored totals. */
  function SumOfProducts(items: seq<LineItem>): real
  {
    if items == [] then 0.0 else items[0].qty as real * items[0].unitPrice + SumOfProducts(items[1..])
  }

  /** When every line is priced correctly, the subtotal is the sum of quantity times unit price. */
  lemma {:induction false} SubtotalIsSumOfProducts(items: seq<LineItem>)
    ensures AllPricedCorrectly(items) ==> Subtotal(items) == SumOfProducts(items)
  {
    if items != [] && AllPricedCorrectly(items) {
      assert PricedCorrectly(items[0]);
      assert AllPricedCorrectly(items[1..]) by {
        forall i | 0 <= i < |items[1..]| ensures PricedCorrectly(items[1..][i]) {
          assert items[1..][i] == items[i + 1];
        }
      }
      SubtotalIsSumOfProducts(items[1..]);
    }
  }

  /** The subtotal of two runs of lines is the sum of their subtotals. */
  lemma {:induction false} SubtotalAppend(a: seq<LineItem>, b: seq<LineItem>)
    ensures Subtotal(a + b) == Subtotal(a) + Subtotal(b)
  {
    if a != [] {
      assert (a + b)[1..] == a[1..] + b;
      SubtotalAppend(a[1..], b);
    } else {
      assert a + b == b;
    }
  }

  /**
   * Adds up the line totals from first to last, as the summation over the
   * items does; the result is the subtotal.
   */
  method SumLineTotals(items: seq<LineItem>) returns (sum: real)
    ensures sum == Subtotal(items)
  {
    sum := 0.0;
    for i := 0 to |items|
      invariant sum == Subtotal(items[..i])
    {
      assert items[..i + 1] == items[..i] + [items[i]];
      SubtotalAppend(items[..i], [items[i]]);
      sum := sum + items[i].totalPrice;
    }
    assert items[..|items|] == items;
  }

  /** Lines whose totals are all non-negative have a non-negative subtotal. */
  lemma {:induction false} SubtotalNonNegative(items: seq<LineItem>)
    requires forall i :: 0 <= i < |items| ==> items[i].totalPrice >= 0.0
    ensures Subtotal(items) >= 0.0
  {
    if items != [] {
      assert items[0].totalPrice >= 0.0;
      assert forall i :: 0 <= i < |items[1..]| ==> items[1..][i] == items[i + 1];
      SubtotalNonNegative(items[1..]);
    }
  }

  /** The three summary figures of a quote. */
  datatype QuoteTotals = QuoteTotals(subtotal: real, discountedSubtotal: real, totalCost: real)

  /**
   * The subtotal, the subtotal after the 10% discount, and the grand total
   * with shipping. The grand total agrees with the discount rate stored on
   * save and, for correctly priced lines, is 90% of the sum of quantity
   * times unit price plus shipping.
   */
  function ComputeTotals(items: seq<LineItem>, shippingCost: real): (t: QuoteTotals)
    ensures t.subtotal == Subtotal(items)
    ensures t.discountedSubtotal == t.subtotal * (1.0 - SaveDiscount)
    ensures t.totalCost == t.discountedSubtotal + shippingCost
    ensures t.totalCost == t.subtotal * (1.0 - SaveDiscount) + shippingCost
    ensures AllPricedCorrectly(items) ==> t.totalCost == 0.9 * SumOfProducts(items) + shippingCost
  {
    SubtotalIsSumOfProducts(items);
    var subtotal := Subtotal(items);
    var discountedSubtotal := subtotal * DiscountFactor;
    QuoteTotals(subtotal, discountedSubtotal, discountedSubtotal + shippingCost)
  }

  /** Non-negative quantities, unit prices and shipping give a non-negative grand total. */
  lemma TotalsNonNegative(items: seq<LineItem>, shippingCost: real)
    requires AllPricedCorrectly(items) && shippingCost >= 0.0
    requires forall i :: 0 <= i < |items| ==> items[i].qty >= 0 && items[i].unitPrice >= 0.0
    ensures ComputeTotals(items, shippingCost).discountedSubtotal >= 0.0
    ensures ComputeTotals(items, shippingCost).totalCost >= shippingCost
  {
    forall i | 0 <= i < |items| ensures items[i].totalPrice >= 0.0 {
      assert PricedCorrectly(items[i]);
      assert items[i].qty as real >= 0.0;
    }
    SubtotalNonNegative(items);
  }
}
