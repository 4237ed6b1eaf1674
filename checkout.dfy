/** The checkout screen: the shipping address chosen from the saved ones, the
    payment method, the guards before an order is placed and the order
    request itself. */
module Checkout {
  import opened Common
  import opened Catalog

  /** A line of the cart as the cart store holds it. */
  datatype CartItem = CartItem(product: Product, quantity: int)

  /** The two payment options, sent as `COD` and `ONLINE`. */
  datatype PaymentMethod = COD | Online

  /** The cash-on-delivery charge added to the displayed total. */
  const CodCharge: real := 100.0

  /** The address fields an order carries. */
  datatype ShippingAddress = ShippingAddress(
    fullName: string, address: string, city: string, state: string, zipCode: string, phone: string)

  /** One line of the order request: a product id and a quantity. */
  datatype PayloadItem = PayloadItem(product: string, quantity: int)

  /** The body of `POST /orders`. */
  datatype OrderPayload = OrderPayload(
    items: seq<PayloadItem>, shippingAddress: ShippingAddress, paymentMethod: PaymentMethod)

  /** `list.find((a) => a.isDefault) || list[0]`: the first default address,
      else the first address, else none. */
  function DefaultAddress(list: seq<Address>): (r: Option<Address>)
    ensures r.None? <==> list == []
    ensures r.Some? ==> r.value in list
    ensures (exists i :: 0 <= i < |list| && list[i].isDefault) ==>
              r.Some? && r.value.isDefault &&
              exists i :: 0 <= i < |list| && list[i] == r.value &&
                          forall j :: 0 <= j < i ==> !list[j].isDefault
    ensures list != [] && (forall i :: 0 <= i < |list| ==> !list[i].isDefault) ==> r == Some(list[0])
  {
    var found := FirstDefault(list);
    if found.Some? then found
    else if list == [] then None
    else Some(list[0])
  }

  /** The first address marked default. */
  function FirstDefault(list: seq<Address>): (r: Option<Address>)
    ensures r.None? <==> forall i :: 0 <= i < |list| ==> !list[i].isDefault
    ensures r.Some? ==>
              r.value.isDefault &&
              exists i :: 0 <= i < |list| && list[i] == r.value &&
                          forall j :: 0 <= j < i ==> !list[j].isDefault
  {
    if list == [] then None
    else if list[0].isDefault then Some(list[0])
    else
      var r := FirstDefault(list[1..]);
      assert forall i :: 1 <= i < |list| ==> list[i] == list[1..][i - 1];
      if r.Some? then
        var i :| 0 <= i < |list[1..]| && list[1..][i] == r.value &&
                 forall j :: 0 <= j < i ==> !list[1..][j].isDefault;
        assert list[i + 1] == r.value;
        r
      else r
  }

  /** Why `handlePlaceOrder()` refuses to place an order. */
  datatype CheckoutError = SelectAddress | AddAddressFirst | CartEmpty

  function ErrorMessage(e: CheckoutError): string {
    match e
    case SelectAddress => "Please select a shipping address"
    case AddAddressFirst => "Please add a shipping address first"
    case CartEmpty => "Cart is empty"
  }

  /** The guards of `handlePlaceOrder()`, in their order. */
  function PlaceOrderGuard(addresses: seq<Address>, selected: Option<Address>, cartItems: seq<CartItem>)
    : (r: Option<CheckoutError>)
    ensures r == Some(SelectAddress) <==> selected.None? && addresses != []
    ensures r == Some(AddAddressFirst) <==> addresses == []
    ensures r == Some(CartEmpty) <==> selected.Some? && addresses != [] && cartItems == []
    // an order is only built with an address to read it from
    ensures r.None? <==> selected.Some? && addresses != [] && cartItems != []
  {
    if selected.None? && |addresses| > 0 then Some(SelectAddress)
    else if |addresses| == 0 then Some(AddAddressFirst)
    else if |cartItems| == 0 then Some(CartEmpty)
    else None
  }

  /** The address fields copied into the order. */
  function ShippingAddressOf(a: Address): (s: ShippingAddress)
    ensures s.fullName == a.fullName && s.address == a.address && s.city == a.city
    ensures s.state == a.state && s.zipCode == a.zipCode && s.phone == a.phone
  {
    ShippingAddress(a.fullName, a.address, a.city, a.state, a.zipCode, a.phone)
  }

  /** The request body: one line per cart item, in cart order. */
  function OrderPayloadFor(cartItems: seq<CartItem>, a: Address, pm: PaymentMethod): (r: OrderPayload)
    ensures |r.items| == |cartItems|
    ensures forall i :: 0 <= i < |cartItems| ==>
              r.items[i].product == cartItems[i].product.id && r.items[i].quantity == cartItems[i].quantity
    ensures r.shippingAddress == ShippingAddressOf(a) && r.paymentMethod == pm
  {
    OrderPayload(
      seq(|cartItems|, i requires 0 <= i < |cartItems| => PayloadItem(cartItems[i].product.id, cartItems[i].quantity)),
      ShippingAddressOf(a), pm)
  }

  /** The total shown in the summary: the cart total plus the
      cash-on-delivery charge. */
  function DisplayedTotal(cartTotal: real, pm: PaymentMethod): (r: real)
    ensures pm == COD ==> r == cartTotal + CodCharge
    ensures pm == Online ==> r == cartTotal
  {
    cartTotal + (if pm == COD then CodCharge else 0.0)
  }

  /** The place-order button is disabled while placing or without
      addresses. */
  predicate ButtonDisabled(placing: bool, addresses: seq<Address>): (b: bool)
    ensures !b <==> !placing && DefaultAddress(addresses).Some?
  {
    placing || |addresses| == 0
  }

  /** Through the enabled button the "add an address first" guard never
      fires, and after a successful address load nothing but an empty cart
      stops the order. */
  lemma EnabledButtonGuards(list: seq<Address>, cartItems: seq<CartItem>)
    requires !ButtonDisabled(false, list)
    ensures PlaceOrderGuard(list, DefaultAddress(list), cartItems) != Some(AddAddressFirst)
    ensures PlaceOrderGuard(list, DefaultAddress(list), cartItems).Some? <==> cartItems == []
  {
  }

  /** What pressing "Place order" led to. */
  datatype PlaceOrderOutcome =
    | Refused(error: CheckoutError)
    | Placed(payload: OrderPayload)
    | NotPlaced(payload: OrderPayload, message: string)

  /** The screen's state. A network request is replaced by its outcome,
      passed in as a parameter (`None` for a failed request). The cart
      store lies outside this model: its items are passed in and the
      `clearCart()` call is reported. */
  class CheckoutState {
    var addresses: seq<Address>
    var selectedAddress: Option<Address>
    var paymentMethod: PaymentMethod
    var success: bool

    constructor()
      ensures addresses == [] && selectedAddress.None? && paymentMethod == COD && !success
    {
      addresses, selectedAddress, paymentMethod, success := [], None, COD, false;
    }

    /** `loadAddresses()`: the list and its default; a failed request
        keeps both. */
    method LoadAddresses(response: Option<seq<Address>>)
      modifies this
      ensures response.Some? ==> addresses == response.value && selectedAddress == DefaultAddress(response.value)
      ensures response.None? ==> addresses == old(addresses) && selectedAddress == old(selectedAddress)
      ensures paymentMethod == old(paymentMethod) && success == old(success)
    {
      if response.Some? {
        var list := response.value;
        addresses := list;
        selectedAddress := DefaultAddress(list);
      }
    }

    /** `handlePlaceOrder()`: the guards, then the request; on success the
        order is shown as placed and the cart is cleared. */
    method HandlePlaceOrder(cartItems: seq<CartItem>, post: ApiResult)
      returns (outcome: PlaceOrderOutcome, clearCart: bool)
      modifies this`success
      ensures PlaceOrderGuard(addresses, selectedAddress, cartItems).Some? ==>
        outcome == Refused(PlaceOrderGuard(addresses, selectedAddress, cartItems).value) &&
        !clearCart && success == old(success)
      ensures PlaceOrderGuard(addresses, selectedAddress, cartItems).None? ==>
        var payload := OrderPayloadFor(cartItems, selectedAddress.value, paymentMethod);
        match post
        case Succeeded => outcome == Placed(payload) && clearCart && success
        case Failed(m) => outcome == NotPlaced(payload, MessageOr(m, "Order failed")) &&
                          !clearCart && success == old(success)
    {
      var refusal := PlaceOrderGuard(addresses, selectedAddress, cartItems);
      if refusal.Some? {
        return Refused(refusal.value), false;
      }
      var orderData := OrderPayloadFor(cartItems, selectedAddress.value, paymentMethod);
      match post {
        case Succeeded =>
          success := true;
          outcome, clearCart := Placed(orderData), true;
        case Failed(m) =>
          outcome, clearCart := NotPlaced(orderData, MessageOr(m, "Order failed")), false;
      }
    }
  }
}
