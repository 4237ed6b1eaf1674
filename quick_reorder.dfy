/** The quick reorder screen: the ten newest delivered orders, each with a
    displayed total and a button that puts all its items back in the cart. */
module QuickReorder {
  import opened Common
  import opened Catalog
  import opened Sorting

  /** The most orders the screen lists. */
  const MaxPrevious: nat := 10

  /** `o.status === 'Delivered'`. */
  function Delivered(): Order -> bool {
    (o: Order) => o.status == "Delivered"
  }

  /** The comparator `new Date(b.createdAt) - new Date(a.createdAt)`, as
      "its value is at most 0": later orders first. */
  function NewerFirst(): (Order, Order) -> bool {
    (a: Order, b: Order) => b.createdAt <= a.createdAt
  }

  lemma NewerFirstIsOrdering()
    ensures Total(NewerFirst()) && Transitive(NewerFirst())
  {
  }

  /** The delivered orders, newest first, in full. */
  function DeliveredNewestFirst(orders: seq<Order>): (r: seq<Order>)
    ensures multiset(r) == multiset(Filter(orders, Delivered()))
    ensures forall i, j :: 0 <= i < j < |r| ==> r[i].createdAt >= r[j].createdAt
  {
    NewerFirstIsOrdering();
    SortBySorted(Filter(orders, Delivered()), NewerFirst());
    SortBy(Filter(orders, Delivered()), NewerFirst())
  }

  /** The orders created at one instant. */
  function PlacedAt(t: int): Order -> bool {
    (o: Order) => o.createdAt == t
  }

  /** Delivered orders created at the same instant keep the fetched order. */
  lemma EqualDatesKeepOrder(orders: seq<Order>, t: int)
    ensures Filter(DeliveredNewestFirst(orders), PlacedAt(t)) == Filter(Filter(orders, Delivered()), PlacedAt(t))
  {
    SortByStable(Filter(orders, Delivered()), NewerFirst(), PlacedAt(t));
  }

  /** The list `fetchPreviousOrders()` keeps: delivered orders, newest
      first, at most ten. */
  function PreviousOrders(orders: seq<Order>): (r: seq<Order>)
    ensures |r| <= MaxPrevious
    ensures forall i :: 0 <= i < |r| ==> r[i] in orders && r[i].status == "Delivered"
    ensures forall i, j :: 0 <= i < j < |r| ==> r[i].createdAt >= r[j].createdAt
    ensures |Filter(orders, Delivered())| <= MaxPrevious ==>
              multiset(r) == multiset(Filter(orders, Delivered()))
    ensures |r| == if |Filter(orders, Delivered())| <= MaxPrevious then |Filter(orders, Delivered())| else MaxPrevious
  {
    var sorted := DeliveredNewestFirst(orders);
    assert |sorted| == |multiset(Filter(orders, Delivered()))|;
    var r := Take(sorted, MaxPrevious);
    assert forall i :: 0 <= i < |r| ==> r[i] in multiset(Filter(orders, Delivered()));
    r
  }

  /** Among delivered orders created at the same instant, the ones kept are
      the first of them in fetched order: when the cut falls inside a group
      of equal dates, the later-fetched ones of that group are dropped. */
  lemma PreviousOrdersKeepFirstOfTies(orders: seq<Order>, t: int)
    ensures Filter(PreviousOrders(orders), PlacedAt(t)) <= Filter(Filter(orders, Delivered()), PlacedAt(t))
  {
    var sorted := DeliveredNewestFirst(orders);
    var r := PreviousOrders(orders);
    assert r == sorted[..|r|];
    FilterOfPrefix(sorted, PlacedAt(t), |r|);
    EqualDatesKeepOrder(orders, t);
  }

  /** The ten kept are the newest: every delivered order left out is no
      newer than any order shown. */
  lemma PreviousOrdersAreNewest(orders: seq<Order>)
    ensures var r := PreviousOrders(orders);
            var delivered := multiset(Filter(orders, Delivered()));
            multiset(r) <= delivered &&
            forall o :: o in delivered - multiset(r) ==>
              forall i :: 0 <= i < |r| ==> r[i].createdAt >= o.createdAt
    ensures var n := |Filter(orders, Delivered())|;
            |PreviousOrders(orders)| == if n <= MaxPrevious then n else MaxPrevious
  {
    var sorted := DeliveredNewestFirst(orders);
    var r := PreviousOrders(orders);
    var rest := sorted[|r|..];
    assert sorted == r + rest;
    assert multiset(sorted) == multiset(r) + multiset(rest);
    forall o | o in multiset(sorted) - multiset(r)
      ensures forall i :: 0 <= i < |r| ==> r[i].createdAt >= o.createdAt
    {
      assert o in multiset(rest);
      var k :| 0 <= k < |rest| && rest[k] == o;
      assert sorted[|r| + k] == o;
    }
  }

  /** The `addToCart(item.product, item.quantity)` call an order line
      makes: one when the line still has its product, none otherwise. */
  function CallFor(item: OrderItem): seq<CartAdd> {
    if item.product.Some? then [CartAdd(item.product.value, item.quantity)] else []
  }

  /** The cart calls of `order.items.forEach(...)`, in item order. */
  function ReorderCalls(items: seq<OrderItem>): (r: seq<CartAdd>)
    ensures |r| <= |items|
  {
    if items == [] then []
    else ReorderCalls(items[..|items| - 1]) + CallFor(items[|items| - 1])
  }

  /** `item.product` is present. */
  function HasProduct(): OrderItem -> bool {
    (item: OrderItem) => item.product.Some?
  }

  /** Exactly the lines that have a product are added, in their order, each
      with its own product and quantity. */
  lemma {:induction false} ReorderCallsMatchItems(items: seq<OrderItem>)
    ensures var lines := Filter(items, HasProduct());
            |ReorderCalls(items)| == |lines| &&
            forall k :: 0 <= k < |lines| ==>
              lines[k].product == Some(ReorderCalls(items)[k].product) &&
              lines[k].quantity == ReorderCalls(items)[k].quantity
  {
    if items != [] {
      var init := items[..|items| - 1];
      var last := items[|items| - 1];
      ReorderCallsMatchItems(init);
      assert items == init + [last];
      FilterAppend(init, [last], HasProduct());
    }
  }

  /** The outcome `handleReorder(order)` reports. */
  datatype ReorderOutcome = NoItems | ItemsAdded(shown: nat, added: nat)

  /** `handleReorder(order)`: refuses an order without items; otherwise
      adds every line that has a product, one call at a time. The outcome
      carries both the count the success toast shows as written and the
      number of lines actually added. */
  method HandleReorder(order: Order) returns (outcome: ReorderOutcome, calls: seq<CartAdd>)
    ensures order.items.None? || order.items.value == [] ==> outcome == NoItems && calls == []
    ensures order.items.Some? && order.items.value != [] ==>
              calls == ReorderCalls(order.items.value) &&
              outcome == ItemsAdded(ReorderToastCountAsWritten(order.items.value), |calls|)
  {
    if order.items.None? || |order.items.value| == 0 {
      return NoItems, [];
    }
    var items := order.items.value;
    calls := [];
    for i := 0 to |items|
      invariant calls == ReorderCalls(items[..i])
    {
      assert items[..i + 1][..i] == items[..i];
      if items[i].product.Some? {
        calls := calls + [CartAdd(items[i].product.value, items[i].quantity)];
      }
    }
    assert items[..|items|] == items;
    outcome := ItemsAdded(|items|, |calls|);
  }

  /** The count the success toast shows as written: `order.items.length`,
      which includes the lines skipped for having no product. */
  function ReorderToastCountAsWritten(items: seq<OrderItem>): nat {
    |items|
  }

  /** An order with one line whose product is gone: the toast says one item
      was added while no cart call was made. */
  lemma ToastCountsSkippedLines()
    ensures var items := [OrderItem(None, Some("Mug"), Some(2), Some(5.0))];
            ReorderToastCountAsWritten(items) == 1 && ReorderCalls(items) == []
  {
  }

  /** Every line is added exactly when every line has its product. */
  lemma {:induction false} AllAddedIff(items: seq<OrderItem>)
    ensures |ReorderCalls(items)| == |items| <==> forall i :: 0 <= i < |items| ==> items[i].product.Some?
  {
    if items != [] {
      var init, last := items[..|items| - 1], items[|items| - 1];
      AllAddedIff(init);
      assert |ReorderCalls(items)| == |ReorderCalls(init)| + |CallFor(last)|;
      if last.product.Some? {
        assert forall i :: 0 <= i < |init| ==> init[i] == items[i];
      }
    }
  }

  /** The reported count equals the lines actually added, and the two agree
      exactly when every line has its product. */
  lemma ReportedCountIsAddedLines(items: seq<OrderItem>)
    ensures |ReorderCalls(items)| == |Filter(items, HasProduct())|
    ensures |ReorderCalls(items)| == |items| <==> forall i :: 0 <= i < |items| ==> items[i].product.Some?
  {
    ReorderCallsMatchItems(items);
    AllAddedIff(items);
  }

  /** `item.price * item.quantity`; a missing price or quantity gives NaN,
      written `None`. */
  function LineAmount(item: OrderItem): Option<real> {
    if item.price.Some? && item.quantity.Some? then Some(item.price.value * item.quantity.value as real)
    else None
  }

  /** `items.reduce((sum, item) => sum + item.price * item.quantity, 0)`;
      one NaN line makes the whole sum NaN. */
  function ItemsSum(items: seq<OrderItem>): (r: Option<real>)
    ensures r.Some? <==> forall i :: 0 <= i < |items| ==> LineAmount(items[i]).Some?
  {
    if items == [] then Some(0.0)
    else
      var rest := ItemsSum(items[1..]);
      assert forall i :: 1 <= i < |items| ==> items[i] == items[1..][i - 1];
      if LineAmount(items[0]).Some? && rest.Some? then Some(LineAmount(items[0]).value + rest.value)
      else None
  }

  /** `getOrderTotal(order)`: the items' sum when it is a non-zero number,
      otherwise the stored total, otherwise 0. */
  function OrderTotal(order: Order): (r: real)
    ensures order.items.None? || order.items.value == [] ==> r == order.total.GetOr(0.0)
    ensures order.items.Some? &&
            (exists i :: 0 <= i < |order.items.value| && LineAmount(order.items.value[i]).None?) ==>
              r == order.total.GetOr(0.0)
  {
    match order.items
    case Some(items) =>
      var sum := ItemsSum(items);
      if sum.Some? && sum.value != 0.0 then sum.value else order.total.GetOr(0.0)
    case None => order.total.GetOr(0.0)
  }

  /** Non-negative prices and quantities give a non-negative sum. */
  lemma {:induction false} ItemsSumNonNegative(items: seq<OrderItem>)
    requires forall i :: 0 <= i < |items| ==>
               items[i].price.GetOr(0.0) >= 0.0 && items[i].quantity.GetOr(0) >= 0
    ensures ItemsSum(items).Some? ==> ItemsSum(items).value >= 0.0
  {
    if items != [] {
      ItemsSumNonNegative(items[1..]);
      var item := items[0];
      if item.price.Some? && item.quantity.Some? {
        assert item.price.value >= 0.0 && item.quantity.value as real >= 0.0;
        assert item.price.value * item.quantity.value as real >= 0.0;
      }
    }
  }

  /** With non-negative prices, quantities and stored total, the displayed
      total is never negative. */
  lemma OrderTotalNonNegative(order: Order)
    requires order.total.GetOr(0.0) >= 0.0
    requires order.items.Some? ==> forall i :: 0 <= i < |order.items.value| ==>
               order.items.value[i].price.GetOr(0.0) >= 0.0 && order.items.value[i].quantity.GetOr(0) >= 0
    ensures OrderTotal(order) >= 0.0
  {
    if order.items.Some? {
      ItemsSumNonNegative(order.items.value);
    }
  }

  /** The screen's state. A network request is replaced by its outcome,
      passed in as a parameter (`None` for a failed request). */
  class QuickReorderState {
    var previousOrders: seq<Order>

    constructor()
      ensures previousOrders == []
    {
      previousOrders := [];
    }

    /** `fetchPreviousOrders()`: a failed request shows an error and keeps
        the list. */
    method FetchPreviousOrders(response: Option<seq<Order>>)
      modifies this
      ensures previousOrders == if response.Some? then PreviousOrders(response.value)
                                else old(previousOrders)
    {
      if response.Some? {
        var deliveredOrders := PreviousOrders(response.value);
        previousOrders := deliveredOrders;
      }
    }
  }
}
