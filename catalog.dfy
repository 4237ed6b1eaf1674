/** The records the screens receive from the storefront's REST API, already
    deserialised. A field the API may leave out is an `Option`; an identifier
    or text field that JavaScript tests for truthiness is a string whose
    empty value stands for "absent". Prices are exact reals and timestamps
    are integers (the instants `new Date(...)` would compare). */
module Catalog {
  import opened Common

  /** A product as listed by `GET /products`. */
  datatype Product = Product(
    id: string,
    title: string,
    category: string,
    price: real,
    stock: int,
    createdAt: int)

  /** One line of an order as stored by the server. */
  datatype OrderItem = OrderItem(
    product: Option<Product>,
    title: Option<string>,
    quantity: Option<int>,
    price: Option<real>)

  /** One entry of an order's status history. */
  datatype StatusEntry = StatusEntry(status: string, date: Option<int>, note: Option<string>)

  /** An order as listed by `GET /orders`. */
  datatype Order = Order(
    id: string,
    status: string,
    createdAt: int,
    updatedAt: Option<int>,
    items: Option<seq<OrderItem>>,
    total: Option<real>,
    shippingCharges: Option<real>,
    statusHistory: Option<seq<StatusEntry>>,
    paymentMethod: Option<string>)

  /** A saved shipping address as listed by `GET /addresses`. */
  datatype Address = Address(
    id: string,
    fullName: string,
    address: string,
    city: string,
    state: string,
    zipCode: string,
    phone: string,
    isDefault: bool)

  /** The query parameters of `GET /products`: each key present or absent. */
  datatype ProductQuery = ProductQuery(search: Option<string>, category: Option<string>)

  /** An `addToCart(product, quantity)` call made on the cart store, which
      lies outside this model and is only recorded. */
  datatype CartAdd = CartAdd(product: Product, quantity: Option<int>)

  /** The result of a request whose response body does not matter: success,
      or failure with the server's optional `message`. */
  datatype ApiResult = Succeeded | Failed(serverMessage: Option<string>)

  /** The number of id characters an order label shows. */
  const ShortIdLength: nat := 8

  /** `Order #${id.slice(-8).toUpperCase()}`: an order's label, made of the
      last eight characters of its id in capitals. */
  function OrderLabel(id: string): (r: string)
    ensures |r| == 7 + (if |id| <= ShortIdLength then |id| else ShortIdLength)
    ensures r[..7] == "Order #"
    ensures r[7..] == Upper(id[|id| - (|r| - 7)..])
  {
    var tail := LastChars(id, ShortIdLength);
    var r := "Order #" + Upper(tail);
    assert r[7..] == Upper(tail);
    r
  }

  // ---------------------------------------------------------------------
  // Lists of products keyed by id
  // ---------------------------------------------------------------------

  /** No two entries share a product id. */
  ghost predicate UniqueIds(list: seq<Product>) {
    forall i, j :: 0 <= i < j < |list| ==> list[i].id != list[j].id
  }

  /** Some entry carries the id. */
  predicate HasId(list: seq<Product>, id: string) {
    exists i :: 0 <= i < |list| && list[i].id == id
  }

  /** The filter that drops the entries of one product id. */
  function DifferentId(id: string): Product -> bool {
    (q: Product) => q.id != id
  }

  /** Filtering keeps a list free of duplicate ids. */
  lemma {:induction false} FilterKeepsUnique(list: seq<Product>, keep: Product -> bool)
    requires UniqueIds(list)
    ensures UniqueIds(Filter(list, keep))
  {
    if list != [] {
      FilterKeepsUnique(list[1..], keep);
      var rest := Filter(list[1..], keep);
      forall k | 0 <= k < |rest| ensures rest[k].id != list[0].id {
        var j :| 0 <= j < |list[1..]| && list[1..][j] == rest[k];
        assert list[j + 1] == rest[k];
      }
    }
  }

  /** Dropping the id of one entry of a duplicate-free list removes exactly that entry. */
  lemma {:induction false} FilterDropsOne(list: seq<Product>, k: nat)
    requires UniqueIds(list) && k < |list|
    ensures |Filter(list, DifferentId(list[k].id))| == |list| - 1
  {
    var id := list[k].id;
    if k == 0 {
      FilterAll(list[1..], DifferentId(id));
    } else {
      FilterDropsOne(list[1..], k - 1);
      assert list[1..][k - 1] == list[k];
    }
  }
}
