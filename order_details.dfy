/** The order details screen: the status badge and timeline, the item lines
    with their totals, and the price summary. */
module OrderDetails {
  import opened Common
  import opened Catalog
  import QuickReorder

  /** `(item.price || 0) * (item.quantity || 0)`. */
  function LineAmount(item: OrderItem): real {
    item.price.GetOr(0.0) * item.quantity.GetOr(0) as real
  }

  /** `items.reduce((sum, item) => sum + (item.price || 0) * (item.quantity || 0), 0)`. */
  function Subtotal(items: seq<OrderItem>): (r: real)
    ensures items == [] ==> r == 0.0
  {
    if items == [] then 0.0 else LineAmount(items[0]) + Subtotal(items[1..])
  }

  /** The subtotal of a concatenation is the sum of the subtotals. */
  lemma {:induction false} SubtotalAppend(a: seq<OrderItem>, b: seq<OrderItem>)
    ensures Subtotal(a + b) == Subtotal(a) + Subtotal(b)
  {
    if a == [] {
      assert a + b == b;
    } else {
      assert (a + b)[0] == a[0] && (a + b)[1..] == a[1..] + b;
      SubtotalAppend(a[1..], b);
    }
  }

  /** Lines with non-negative prices and quantities give a non-negative
      subtotal. */
  lemma {:induction false} SubtotalNonNegative(items: seq<OrderItem>)
    requires forall i :: 0 <= i < |items| ==> items[i].price.GetOr(0.0) >= 0.0 && items[i].quantity.GetOr(0) >= 0
    ensures Subtotal(items) >= 0.0
  {
    if items != [] {
      SubtotalNonNegative(items[1..]);
      var p, q := items[0].price.GetOr(0.0), items[0].quantity.GetOr(0) as real;
      assert p >= 0.0 && q >= 0.0;
      assert p * q >= 0.0;
    }
  }

  /** Where every line has a price and a quantity, this screen's subtotal
      equals the sum the quick reorder screen computes for the same items. */
  lemma {:induction false} SubtotalAgreesWithReorderSum(items: seq<OrderItem>)
    requires forall i :: 0 <= i < |items| ==> items[i].price.Some? && items[i].quantity.Some?
    ensures QuickReorder.ItemsSum(items) == Some(Subtotal(items))
  {
    if items != [] {
      assert forall i :: 0 <= i < |items[1..]| ==> items[1..][i] == items[i + 1];
      SubtotalAgreesWithReorderSum(items[1..]);
      var it := items[0];
      assert it.price.Some? && it.quantity.Some?;
      assert QuickReorder.LineAmount(it).value == it.price.value * it.quantity.value as real;
      assert LineAmount(it) == it.price.value * it.quantity.value as real;
      assert QuickReorder.LineAmount(it) == Some(LineAmount(it));
    }
  }

  /** For an order whose lines are all complete, the total the quick reorder
      screen shows is this screen's subtotal when that is non-zero, and the
      stored total (or 0) otherwise. */
  lemma ReorderTotalIsSubtotal(order: Order)
    requires order.items.Some?
    requires forall i :: 0 <= i < |order.items.value| ==>
               order.items.value[i].price.Some? && order.items.value[i].quantity.Some?
    ensures Subtotal(order.items.value) != 0.0 ==> QuickReorder.OrderTotal(order) == Subtotal(order.items.value)
    ensures Subtotal(order.items.value) == 0.0 ==> QuickReorder.OrderTotal(order) == order.total.GetOr(0.0)
  {
    SubtotalAgreesWithReorderSum(order.items.value);
  }

  /** A line's shown total: `(item.price || 0) * item.quantity`, NaN
      (written `None`) when the quantity is missing. */
  function LineTotal(item: OrderItem): (r: Option<real>)
    ensures r.None? <==> item.quantity.None?
    ensures r.Some? ==> r.value == LineAmount(item)
  {
    if item.quantity.Some? then Some(item.price.GetOr(0.0) * item.quantity.value as real) else None
  }

  /** `item.title || item.product?.title`. */
  function LineTitle(item: OrderItem): (r: Option<string>)
    ensures item.title.Some? && item.title.value != "" ==> r == item.title
    ensures (item.title.None? || item.title.value == "") ==>
              r == if item.product.Some? then Some(item.product.value.title) else None
  {
    if item.title.Some? && item.title.value != "" then item.title
    else if item.product.Some? then Some(item.product.value.title)
    else None
  }

  /** `order.statusHistory || [{ status: order.status }]`. */
  function Timeline(order: Order): (r: seq<StatusEntry>)
    ensures order.statusHistory.Some? ==> r == order.statusHistory.value
    ensures order.statusHistory.None? ==> |r| == 1 && r[0].status == order.status &&
                                           r[0].date.None? && r[0].note.None?
  {
    order.statusHistory.GetOr([StatusEntry(order.status, None, None)])
  }

  /** The theme colours a status can take. */
  datatype ThemeColor = Success | Primary | Error | TextSecondary

  /** `getStatusColor(status)`. */
  function StatusColor(status: string): (r: ThemeColor)
    ensures r == Success <==> status == "Delivered"
    ensures r == Primary <==> status == "Shipped" || status == "Processing"
    ensures r == Error <==> status == "Cancelled"
    ensures r == TextSecondary <==>
              status != "Delivered" && status != "Shipped" && status != "Processing" && status != "Cancelled"
  {
    match status
    case "Delivered" => Success
    case "Shipped" => Primary
    case "Processing" => Primary
    case "Cancelled" => Error
    case _ => TextSecondary
  }

  /** The shipping row shows when `order.shippingCharges || 0` is positive. */
  predicate ShowsShipping(order: Order) {
    order.shippingCharges.GetOr(0.0) > 0.0
  }

  /** The three rows of the order summary: the recomputed subtotal, the
      shipping row (absent when it does not show) and the total row (absent
      when the order has no stored total). */
  datatype PriceSummary = PriceSummary(subtotal: real, shipping: Option<real>, total: Option<real>)

  /** The order summary the screen draws for `order`, with `items` being
      `order.items || []`. */
  function Summary(order: Order): (r: PriceSummary)
    ensures r.subtotal == Subtotal(order.items.GetOr([]))
    ensures r.shipping.Some? <==> ShowsShipping(order)
    ensures r.shipping.Some? ==> r.shipping.value > 0.0 && Some(r.shipping.value) == order.shippingCharges
    ensures r.total == order.total
  {
    var shippingCharges := order.shippingCharges.GetOr(0.0);
    PriceSummary(
      Subtotal(order.items.GetOr([])),
      if shippingCharges > 0.0 then Some(shippingCharges) else None,
      order.total)
  }

  /** The rows add up (total = subtotal + shown shipping) exactly when the
      stored total happens to equal the recomputed subtotal plus the
      positive shipping charge: the total row is never recomputed. */
  lemma SummaryAddsUpIff(order: Order)
    ensures var r := Summary(order);
            r.total == Some(r.subtotal + r.shipping.GetOr(0.0)) <==>
            order.total == Some(Subtotal(order.items.GetOr([])) +
                                (if ShowsShipping(order) then order.shippingCharges.value else 0.0))
  {
  }

  /** An order whose rows do not add up: two items at 10 with no shipping
      show a subtotal of 20 above a stored total of 5. */
  lemma SummaryMayNotAddUp()
    ensures var item := OrderItem(None, None, Some(2), Some(10.0));
            var order := Order("o1", "Delivered", 0, None, Some([item]), Some(5.0), None, None, None);
            Summary(order).subtotal == 20.0 && Summary(order).shipping.None? &&
            Summary(order).total == Some(5.0)
  {
    var item := OrderItem(None, None, Some(2), Some(10.0));
    assert LineAmount(item) == 20.0;
    assert Subtotal([item]) == LineAmount(item) + Subtotal([]);
  }

  /** `order.paymentMethod || 'COD'`. */
  function PaymentLabel(order: Order): (r: string)
    ensures order.paymentMethod.None? || order.paymentMethod.value == "" ==> r == "COD"
    ensures order.paymentMethod.Some? && order.paymentMethod.value != "" ==> r == order.paymentMethod.value
  {
    MessageOr(order.paymentMethod, "COD")
  }
}
