/** The notifications screen: one notification per order, newest first,
    each marked read when pressed. */
module Notifications {
  import opened Common
  import opened Catalog
  import opened Sorting

  /** A notification as the screen builds it. `kind` is the `type` field. */
  datatype Notification = Notification(
    id: string,
    kind: string,
    title: string,
    message: string,
    date: int,
    read: bool,
    orderId: string,
    status: string)

  /** `getOrderNotificationTitle(status)`. */
  function Title(status: string): (r: string)
    ensures r == "Order Update" <==>
              status != "Delivered" && status != "Shipped" && status != "Processing" && status != "Cancelled"
    ensures r != "Order Update" ==> r == "Order " + status
  {
    match status
    case "Delivered" => "Order Delivered"
    case "Shipped" => "Order Shipped"
    case "Processing" => "Order Processing"
    case "Cancelled" => "Order Cancelled"
    case _ => "Order Update"
  }

  /** `getNotificationIcon(type, status)`: a status icon for order
      notifications, the bell for anything else. */
  function Icon(kind: string, status: string): (r: string)
    ensures r == "notifications" <==>
              kind != "order" ||
              (status != "Delivered" && status != "Shipped" && status != "Processing" && status != "Cancelled")
    ensures kind == "order" ==> (r == "checkmark-circle" <==> status == "Delivered")
    ensures kind == "order" ==> (r == "car" <==> status == "Shipped")
    ensures kind == "order" ==> (r == "time" <==> status == "Processing")
    ensures kind == "order" ==> (r == "close-circle" <==> status == "Cancelled")
  {
    if kind == "order" then
      match status
      case "Delivered" => "checkmark-circle"
      case "Shipped" => "car"
      case "Processing" => "time"
      case "Cancelled" => "close-circle"
      case _ => "notifications"
    else "notifications"
  }

  /** An order notification shows the bell exactly when its title is the
      generic "Order Update", and every other kind always shows the bell. */
  lemma IconAgreesWithTitle(kind: string, status: string)
    ensures kind == "order" ==> (Icon(kind, status) == "notifications" <==> Title(status) == "Order Update")
    ensures kind != "order" ==> Icon(kind, status) == "notifications"
  {
  }

  /** The notification built for one order: unread, dated by its last
      update or else its creation. */
  function ToNotification(order: Order): (n: Notification)
    ensures n.id == order.id && n.orderId == order.id && n.status == order.status
    ensures n.kind == "order" && !n.read
    ensures n.title == Title(order.status)
    ensures n.message == OrderLabel(order.id) + " - " + order.status
    ensures order.updatedAt.Some? ==> n.date == order.updatedAt.value
    ensures order.updatedAt.None? ==> n.date == order.createdAt
  {
    Notification(order.id, "order", Title(order.status),
                 OrderLabel(order.id) + " - " + order.status,
                 order.updatedAt.GetOr(order.createdAt), false, order.id, order.status)
  }

  /** `orders.map(...)`. */
  function ToNotifications(orders: seq<Order>): (r: seq<Notification>)
    ensures |r| == |orders|
    ensures forall i :: 0 <= i < |orders| ==> r[i] == ToNotification(orders[i])
  {
    seq(|orders|, i requires 0 <= i < |orders| => ToNotification(orders[i]))
  }

  /** The comparator `new Date(b.date) - new Date(a.date)`, as "its value is
      at most 0": later dates first. */
  function LaterFirst(): (Notification, Notification) -> bool {
    (a: Notification, b: Notification) => b.date <= a.date
  }

  /** The list `fetchNotifications()` shows: one unread notification per
      order, newest first. */
  function OrderNotifications(orders: seq<Order>): (r: seq<Notification>)
    ensures |r| == |orders|
    ensures multiset(r) == multiset(ToNotifications(orders))
    ensures forall i, j :: 0 <= i < j < |r| ==> r[i].date >= r[j].date
    ensures forall k :: 0 <= k < |r| ==> !r[k].read && r[k].kind == "order"
  {
    var built := ToNotifications(orders);
    assert Total(LaterFirst()) && Transitive(LaterFirst());
    SortBySorted(built, LaterFirst());
    var r := SortBy(built, LaterFirst());
    assert |r| == |multiset(r)| == |multiset(built)| == |built|;
    forall k | 0 <= k < |r| ensures !r[k].read && r[k].kind == "order" {
      assert r[k] in multiset(built);
    }
    r
  }

  /** The notifications of one date. */
  function DatedAt(d: int): Notification -> bool {
    (n: Notification) => n.date == d
  }

  /** Notifications of the same date keep the order of the fetched orders. */
  lemma EqualDatesKeepOrder(orders: seq<Order>, d: int)
    ensures Filter(OrderNotifications(orders), DatedAt(d)) == Filter(ToNotifications(orders), DatedAt(d))
  {
    SortByStable(ToNotifications(orders), LaterFirst(), DatedAt(d));
  }

  /** Every order has its notification and every notification comes from
      an order. */
  lemma NotificationPerOrder(orders: seq<Order>)
    ensures forall i :: 0 <= i < |orders| ==> ToNotification(orders[i]) in OrderNotifications(orders)
    ensures forall k :: 0 <= k < |OrderNotifications(orders)| ==>
              exists i :: 0 <= i < |orders| && OrderNotifications(orders)[k] == ToNotification(orders[i])
  {
    var built := ToNotifications(orders);
    var r := OrderNotifications(orders);
    forall i | 0 <= i < |orders| ensures ToNotification(orders[i]) in r {
      assert built[i] in multiset(r);
    }
    forall k | 0 <= k < |r|
      ensures exists i :: 0 <= i < |orders| && r[k] == ToNotification(orders[i])
    {
      assert r[k] in multiset(built);
      var i :| 0 <= i < |built| && built[i] == r[k];
    }
  }

  /** The list after `markAsRead(id)`: every notification with the id is
      read, nothing else changes. */
  function MarkedRead(list: seq<Notification>, id: string): (r: seq<Notification>)
    ensures |r| == |list|
    ensures forall i :: 0 <= i < |r| ==>
              r[i].read == (list[i].read || list[i].id == id) && r[i].(read := list[i].read) == list[i]
  {
    seq(|list|, i requires 0 <= i < |list| => if list[i].id == id then list[i].(read := true) else list[i])
  }

  /** Marking the same id twice is marking it once. */
  lemma MarkedReadIdempotent(list: seq<Notification>, id: string)
    ensures MarkedRead(MarkedRead(list, id), id) == MarkedRead(list, id)
  {
    var once := MarkedRead(list, id);
    var twice := MarkedRead(once, id);
    forall i | 0 <= i < |list| ensures twice[i] == once[i] {
      assert twice[i].(read := once[i].read) == once[i];
    }
  }

  /** The screen's state. A network request is replaced by its outcome,
      passed in as a parameter (`None` for a failed request). */
  class NotificationsState {
    var notifications: seq<Notification>

    constructor()
      ensures notifications == []
    {
      notifications := [];
    }

    /** `fetchNotifications()`, also run by pull-to-refresh: a failed
        request keeps the list. */
    method FetchNotifications(response: Option<seq<Order>>)
      modifies this
      ensures notifications == if response.Some? then OrderNotifications(response.value)
                               else old(notifications)
    {
      if response.Some? {
        var orderNotifications := OrderNotifications(response.value);
        notifications := orderNotifications;
      }
    }

    /** Pressing a notification: opens its order when it names one, then
        `markAsRead(item.id)`. */
    method Press(item: Notification) returns (openOrder: Option<string>)
      modifies this
      ensures openOrder == if item.orderId != "" then Some(item.orderId) else None
      ensures notifications == MarkedRead(old(notifications), item.id)
    {
      openOrder := if item.orderId != "" then Some(item.orderId) else None;
      notifications := MarkedRead(notifications, item.id);
    }
  }
}
