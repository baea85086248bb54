/** The product page: the product is looked up by the route's id in the
    built-in catalog, a quantity selector is clamped to [1, stock], and
    "Add to Cart" calls the cart's `addItem` once per selected unit. */
module ProductDetails {
  import opened Common
  import opened Catalog
  import opened CartContext

  /** What the page shows for a route id. */
  datatype View =
    | NotFound
    | Details(product: Product, outOfStock: bool, showsPurchaseControls: bool)

  /** The page for route id `id`: the not-found view when no product has that
      exact id; otherwise the product, with the quantity selector and the add
      button offered exactly when its stock is not zero. */
  function Render(catalog: seq<Product>, id: string): (v: View)
    ensures v.NotFound? <==> forall i :: 0 <= i < |catalog| ==> catalog[i].id != id
    ensures v.Details? ==> v.product in catalog && v.product.id == id
    ensures v.Details? ==> (v.outOfStock <==> v.product.stock == 0)
    ensures v.Details? ==> (v.showsPurchaseControls <==> v.product.stock != 0)
  {
    match FindById(catalog, id)
    case None => NotFound
    case Some(p) => Details(p, p.stock == 0, p.stock != 0)
  }

  /** No catalog product renders as out of stock. */
  lemma CatalogPagesOfferPurchase(id: string)
    ensures Render(Products, id).Details? ==> Render(Products, id).showsPurchaseControls
  {
    CatalogPricesAndStocksPositive();
  }

  /** The minus button: `Math.max(1, quantity - 1)`. */
  function Decrement(quantity: int): (q: int)
    ensures q >= 1
    ensures quantity > 1 ==> q == quantity - 1
    ensures quantity <= 1 ==> q == 1
  {
    Max(1, quantity - 1)
  }

  /** The plus button: `Math.min(product.stock, quantity + 1)`. */
  function Increment(quantity: int, stock: int): (q: int)
    ensures q <= stock
    ensures quantity < stock ==> q == quantity + 1
    ensures quantity >= stock ==> q == stock
  {
    Min(stock, quantity + 1)
  }

  /** Starting from one, the two buttons keep the quantity within [1, stock]. */
  lemma SelectorStaysInRange(quantity: int, stock: int)
    requires 1 <= quantity <= stock
    ensures 1 <= Decrement(quantity) <= stock
    ensures 1 <= Increment(quantity, stock) <= stock
  {
  }

  /** `n` successive `addItem(product)` calls without size or colour. */
  function AddRepeatedly(items: seq<CartLine>, product: Product, n: nat): seq<CartLine> {
    if n == 0 then items else AddLine(AddRepeatedly(items, product, n - 1), product, None, None)
  }

  /** Repeated adds never create a second line with an existing key. */
  lemma {:induction false} AddRepeatedlyPreservesNoDuplicateKeys(items: seq<CartLine>, product: Product, n: nat)
    requires NoDuplicateKeys(items)
    ensures NoDuplicateKeys(AddRepeatedly(items, product, n))
  {
    if n > 0 {
      AddRepeatedlyPreservesNoDuplicateKeys(items, product, n - 1);
      AddLinePreservesNoDuplicateKeys(AddRepeatedly(items, product, n - 1), product, None, None);
    }
  }

  /** After `n` adds, the variant-less line has gained `n` units but never
      passes the stock (a line already at or above stock keeps its quantity),
      and an absent line starts at one. */
  lemma {:induction false} AddRepeatedlyQuantity(items: seq<CartLine>, product: Product, n: nat)
    ensures var key := AddKey(product, None, None);
      QuantityOf(AddRepeatedly(items, product, n), key) ==
        match QuantityOf(items, key)
        case None => if n == 0 then None else Some(Max(1, Min(n, product.stock)))
        case Some(q) => Some(Max(q, Min(q + n, product.stock)))
  {
    if n > 0 {
      var key := AddKey(product, None, None);
      var prev := AddRepeatedly(items, product, n - 1);
      AddRepeatedlyQuantity(items, product, n - 1);
      AddLineQuantity(prev, product, None, None);
      var s := product.stock;
      match QuantityOf(items, key)
      case None =>
        if n > 1 {
          StepFromAbsent(n - 1, s);
        }
      case Some(q) =>
        StepFromPresent(q, n - 1, s);
    }
  }

  /** One more add to a line that started absent and has had `n` adds. */
  lemma StepFromAbsent(n: nat, s: int)
    requires n >= 1
    ensures var m := Max(1, Min(n, s));
      (if m >= s then m else m + 1) == Max(1, Min(n + 1, s))
  {
  }

  /** One more add to a line that started at `q` and has had `n` adds. */
  lemma StepFromPresent(q: int, n: nat, s: int)
    ensures var m := Max(q, Min(q + n, s));
      (if m >= s then m else m + 1) == Max(q, Min(q + n + 1, s))
  {
  }

  /** With a selector value `q` in [1, stock], "Add to Cart" leaves the
      variant-less line at `q` units when it was absent, and at
      `min(old + q, stock)` when it held `old <= stock` units. */
  lemma AddToCartFromSelector(items: seq<CartLine>, product: Product, q: nat)
    requires 1 <= q <= product.stock
    ensures var key := AddKey(product, None, None);
      var after := QuantityOf(AddRepeatedly(items, product, q), key);
      (QuantityOf(items, key).None? ==> after == Some(q)) &&
      (QuantityOf(items, key).Some? && QuantityOf(items, key).value <= product.stock ==>
        after == Some(Min(QuantityOf(items, key).value + q, product.stock)))
  {
    AddRepeatedlyQuantity(items, product, q);
  }

  /** The page's `quantity` state for a product found in the catalog. */
  class ProductPage {
    const product: Product
    var quantity: int

    /** The selector stays within [1, stock]. */
    ghost predicate Valid()
      reads this
    {
      1 <= quantity <= product.stock
    }

    /** The page opens with quantity one; the selector exists only for a
        product in stock, as every catalog product is. */
    constructor (p: Product)
      requires p.stock > 0
      ensures product == p && quantity == 1 && Valid()
    {
      product := p;
      quantity := 1;
    }

    /** The minus button. */
    method Minus()
      requires Valid()
      modifies this
      ensures quantity == Decrement(old(quantity)) && Valid()
    {
      quantity := Decrement(quantity);
    }

    /** The plus button. */
    method Plus()
      requires Valid()
      modifies this
      ensures quantity == Increment(old(quantity), product.stock) && Valid()
    {
      quantity := Increment(quantity, product.stock);
    }

    /** `handleAddToCart`: `addItem(product)` once per selected unit, then the selector resets to one. */
    method HandleAddToCart(cart: Cart)
      requires Valid()
      modifies this, cart
      ensures cart.items == AddRepeatedly(old(cart.items), product, old(quantity))
      ensures quantity == 1 && Valid()
    {
      var n := quantity;
      var i := 0;
      while i < n
        invariant 0 <= i <= n
        invariant cart.items == AddRepeatedly(old(cart.items), product, i)
      {
        var _ := cart.AddItem(product, None, None);
        i := i + 1;
      }
      quantity := 1;
    }
  }
}
