/** The product details screen: the stock badge, the quantity stepper and
    the add-to-cart guard. */
module ProductDetails {
  import opened Common
  import opened Catalog

  /** The stock badge. */
  datatype StockLabel = OutOfStock | LowStock | InStock

  /** The stock level at or under which the badge warns. */
  const LowStockLevel: int := 10

  /** The badge for a stock count: exactly zero is out of stock, anything
      else up to ten (negative counts included) is low. */
  function StockLabelFor(stock: int): (r: StockLabel)
    ensures r == OutOfStock <==> stock == 0
    ensures r == LowStock <==> stock != 0 && stock <= LowStockLevel
    ensures r == InStock <==> stock > LowStockLevel
  {
    if stock == 0 then OutOfStock else if stock <= LowStockLevel then LowStock else InStock
  }

  /** The badge text: a different text for each label. */
  function LabelText(l: StockLabel): (r: string)
    ensures r == "Out of stock" <==> l == OutOfStock
    ensures r == "Low stock" <==> l == LowStock
    ensures r == "In stock" <==> l == InStock
  {
    match l
    case OutOfStock => "Out of stock"
    case LowStock => "Low stock"
    case InStock => "In stock"
  }

  /** The add-to-cart button is disabled (apart from while adding) when
      fewer than one item is in stock. */
  predicate AddDisabled(stock: int): (b: bool)
    ensures b <==> stock <= 0
    ensures !b ==> StockLabelFor(stock) != OutOfStock
  {
    stock < 1
  }

  /** For a non-negative stock count the button is disabled exactly when the
      badge says "Out of stock"; a negative count is disabled under a "Low
      stock" badge. */
  lemma DisabledIffOutOfStock(stock: int)
    ensures stock >= 0 ==> (AddDisabled(stock) <==> StockLabelFor(stock) == OutOfStock)
    ensures stock < 0 ==> AddDisabled(stock) && StockLabelFor(stock) == LowStock
  {
  }

  /** The minus button: `Math.max(1, q - 1)`. */
  function StepDown(q: int): (r: int)
    ensures r >= 1
    ensures q > 1 ==> r == q - 1
  {
    if q - 1 < 1 then 1 else q - 1
  }

  /** The plus button: `Math.min(stock, q + 1)`. */
  function StepUp(q: int, stock: int): (r: int)
    ensures r <= stock && r <= q + 1
    ensures q < stock ==> r == q + 1
  {
    if stock < q + 1 then stock else q + 1
  }

  /** The stepper's reachable values for a stock count: at most the stock
      (or 1 when the stock is below 1), and at least 1 unless it equals the
      stock. */
  ghost predicate StepperRange(q: int, stock: int) {
    (q >= 1 || q == stock) && q <= (if stock < 1 then 1 else stock)
  }

  /** Both buttons keep the quantity in range, starting from 1. */
  lemma StepperStaysInRange(q: int, stock: int)
    ensures StepperRange(1, stock)
    ensures StepperRange(q, stock) ==> StepperRange(StepDown(q), stock) && StepperRange(StepUp(q, stock), stock)
  {
  }

  /** Why `handleAddToCart()` refuses. */
  function AddRefused(product: Option<Product>, quantity: int): bool {
    product.None? || product.value.stock < quantity
  }

  /** With the quantity reached through the stepper, an in-stock product is
      never refused: "Insufficient stock" appears only when the stock is
      below 1, where the button is disabled anyway. */
  lemma InRangeNeverRefused(p: Product, q: int)
    requires StepperRange(q, p.stock)
    ensures AddRefused(Some(p), q) ==> AddDisabled(p.stock)
  {
  }

  /** The screen's state. The cart store lies outside this model; the
      `addToCart` call is reported. */
  class ProductDetailsState {
    var product: Option<Product>
    var quantity: int

    ghost predicate Valid()
      reads this
    {
      product.Some? ==> StepperRange(quantity, product.value.stock)
    }

    /** The screen opens on the route's product with quantity 1. */
    constructor(initialProduct: Option<Product>)
      ensures product == initialProduct && quantity == 1 && Valid()
    {
      product, quantity := initialProduct, 1;
      if initialProduct.Some? {
        StepperStaysInRange(1, initialProduct.value.stock);
      }
    }

    /** The details request's `.then`: the fetched product (absent when the
        response carries none) replaces the one from the route. */
    method ReplaceWithFetched(fetched: Option<Product>)
      modifies this`product
      ensures product == fetched
    {
      product := fetched;
    }

    method Decrement()
      modifies this`quantity
      ensures quantity == StepDown(old(quantity))
      ensures old(Valid()) ==> Valid()
    {
      if product.Some? {
        StepperStaysInRange(quantity, product.value.stock);
      }
      quantity := StepDown(quantity);
    }

    method Increment()
      requires product.Some?
      modifies this`quantity
      ensures quantity == StepUp(old(quantity), product.value.stock)
      ensures old(Valid()) ==> Valid()
    {
      StepperStaysInRange(quantity, product.value.stock);
      quantity := StepUp(quantity, product.value.stock);
    }

    /** `handleAddToCart()`: the "Insufficient stock" error, or one
        `addToCart(product, quantity)` call. */
    method HandleAddToCart() returns (call: Option<CartAdd>)
      ensures call.None? <==> AddRefused(product, quantity)
      ensures call.Some? ==> call.value == CartAdd(product.value, Some(quantity))
    {
      if product.None? || product.value.stock < quantity {
        return None;
      }
      call := Some(CartAdd(product.value, Some(quantity)));
    }
  }
}
