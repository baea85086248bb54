/** The cart page's order summary: shipping is free strictly above 30000
    naira and 2500 otherwise, the order total adds shipping to the subtotal,
    and below the threshold a hint names the amount still missing. */
module CartPage {
  import opened Common
  import opened CartContext

  const FreeShippingThreshold: int := 30000
  const ShippingFee: int := 2500

  /** `totalPrice > freeShippingThreshold ? 0 : 2500`. */
  function Shipping(subtotal: int): (fee: int)
    ensures fee == 0 <==> subtotal > FreeShippingThreshold
    ensures fee != 0 ==> fee == ShippingFee
  {
    if subtotal > FreeShippingThreshold then 0 else ShippingFee
  }

  /** `totalPrice + shipping`. */
  function OrderTotal(subtotal: int): (total: int)
    ensures subtotal <= total <= subtotal + ShippingFee
    ensures total == subtotal <==> subtotal > FreeShippingThreshold
  {
    subtotal + Shipping(subtotal)
  }

  /** The "Add ₦… more for free shipping!" hint: shown when the subtotal is
      below the threshold, naming the amount still missing. */
  function FreeShippingHint(subtotal: int): (hint: Option<int>)
    ensures hint.Some? <==> subtotal < FreeShippingThreshold
    ensures hint.Some? ==> hint.value > 0 && subtotal + hint.value == FreeShippingThreshold
  {
    if subtotal < FreeShippingThreshold then Some(FreeShippingThreshold - subtotal) else None
  }

  /** At exactly the threshold the fee is still charged and no hint is shown. */
  lemma ThresholdIsCharged()
    ensures Shipping(FreeShippingThreshold) == ShippingFee
    ensures FreeShippingHint(FreeShippingThreshold).None?
  {
  }

  /** What the cart page shows. */
  datatype View =
    | EmptyState
    | Summary(totalItems: int, subtotal: int, shipping: int, total: int, hint: Option<int>)

  /** The page for a cart: the empty state for an empty list, otherwise the
      summary built from the cart's totals. */
  function Render(items: seq<CartLine>): (v: View)
    ensures v.EmptyState? <==> items == []
    ensures v.Summary? ==>
      v.totalItems == SumQuantities(items) && v.subtotal == SumPrices(items) &&
      v.shipping == Shipping(v.subtotal) && v.total == v.subtotal + v.shipping &&
      v.hint == FreeShippingHint(v.subtotal)
  {
    if items == [] then EmptyState
    else
      var subtotal := SumPrices(items);
      Summary(SumQuantities(items), subtotal, Shipping(subtotal), OrderTotal(subtotal), FreeShippingHint(subtotal))
  }

  /** A non-empty summary either ships free or shows the hint, never both,
      except at exactly the threshold where it does neither. */
  lemma SummaryFreeShippingOrHint(items: seq<CartLine>)
    requires items != []
    ensures var v := Render(items);
      (v.shipping == 0 ==> v.hint.None?) &&
      (v.hint.Some? ==> v.shipping == ShippingFee) &&
      (v.shipping == ShippingFee && v.hint.None? <==> v.subtotal == FreeShippingThreshold)
  {
  }
}
