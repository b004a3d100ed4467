/** The cart page: the empty view, the order summary (subtotal, delivery
    fee, total and the free-delivery hint) and the quantity stepper. */
module CartPage {
  import opened Collections
  import opened CartContext

  /** Orders above this subtotal are delivered free. */
  const FreeDeliveryAbove := 500
  /** The fee charged otherwise. */
  const StandardDeliveryFee := 40

  /** `totalPrice > 500 ? 0 : 40`, shared by the cart and checkout pages. */
  function DeliveryFee(subtotal: int): (fee: int)
    ensures fee == 0 <==> subtotal > FreeDeliveryAbove
    ensures fee == 0 || fee == StandardDeliveryFee
  {
    if subtotal > FreeDeliveryAbove then 0 else StandardDeliveryFee
  }

  /** What the cart page shows. */
  datatype CartView =
    | EmptyCartView
    | CartSummary(lineCount: nat, lineAmounts: seq<int>, subtotal: int, deliveryFee: int, total: int,
                  shortfall: Option<int>)

  function RenderCart(items: seq<CartItem>): (v: CartView)
    ensures v.EmptyCartView? <==> items == []
    ensures v.CartSummary? ==>
      v.lineCount == |items| &&
      |v.lineAmounts| == |items| &&
      (forall i :: 0 <= i < |items| ==> v.lineAmounts[i] == items[i].price * items[i].quantity) &&
      v.subtotal == TotalPrice(items) &&
      v.total == v.subtotal + v.deliveryFee &&
      (v.deliveryFee == 0 <==> v.subtotal > FreeDeliveryAbove)
    ensures v.CartSummary? ==>
      (v.shortfall.Some? <==> v.deliveryFee > 0) &&
      (v.shortfall.Some? ==> 0 <= v.shortfall.value == FreeDeliveryAbove - v.subtotal)
  {
    if items == [] then EmptyCartView
    else
      var subtotal := TotalPrice(items);
      var fee := DeliveryFee(subtotal);
      CartSummary(|items|, seq(|items|, i requires 0 <= i < |items| => LineAmount(items[i])),
                  subtotal, fee, subtotal + fee,
                  if fee > 0 then Some(FreeDeliveryAbove - subtotal) else None)
  }

  /** The amounts shown per line add up to the subtotal. */
  lemma LineAmountsAddUp(items: seq<CartItem>)
    requires items != []
    ensures Sum(x => x, RenderCart(items).lineAmounts) == RenderCart(items).subtotal
  {
    var amounts := RenderCart(items).lineAmounts;
    SumPointwise(x => x, LineAmount, amounts, items);
  }

  /** The total never falls below the subtotal, and exceeds it by at most
      the standard fee. */
  lemma TotalWithinFee(items: seq<CartItem>)
    requires items != []
    ensures RenderCart(items).subtotal <= RenderCart(items).total <= RenderCart(items).subtotal + StandardDeliveryFee
  {
  }

  /** The minus button: `updateQuantity(product_id, quantity - 1)`. */
  function Decrement(items: seq<CartItem>, k: nat): seq<CartItem>
    requires k < |items|
  {
    WithQuantity(items, items[k].productId, items[k].quantity - 1)
  }

  /** The plus button: `updateQuantity(product_id, quantity + 1)`. */
  function Increment(items: seq<CartItem>, k: nat): seq<CartItem>
    requires k < |items|
  {
    WithQuantity(items, items[k].productId, items[k].quantity + 1)
  }

  /** Pressing minus on a line of quantity one removes that line. */
  lemma DecrementLastUnitRemovesLine(items: seq<CartItem>, k: nat)
    requires UniqueProducts(items)
    requires k < |items| && items[k].quantity == 1
    ensures Decrement(items, k) == items[..k] + items[k + 1..]
  {
    RemoveLowersTotals(items, items[k].productId, k);
  }

  /** Pressing minus on a larger line lowers its quantity by one. */
  lemma DecrementLowersQuantity(items: seq<CartItem>, k: nat)
    requires UniqueProducts(items)
    requires k < |items| && items[k].quantity > 1
    ensures Decrement(items, k) == items[k := items[k].(quantity := items[k].quantity - 1)]
    ensures TotalQuantity(Decrement(items, k)) == TotalQuantity(items) - 1
  {
    var lowered := items[k].(quantity := items[k].quantity - 1);
    MapWhereSingle(LineOf(items[k].productId), SetQuantity(items[k].quantity - 1), items, k);
    SumUpdate(LineQuantity, items, k, lowered);
  }

  /** Pressing plus on a line of non-negative quantity has the same effect
      as adding that product again. */
  lemma IncrementIsAdd(items: seq<CartItem>, catalogue: seq<Product>, k: nat, stamp: string)
    requires UniqueProducts(items)
    requires k < |items| && items[k].quantity >= 0
    requires exists i :: 0 <= i < |catalogue| && catalogue[i].id == items[k].productId
    ensures Increment(items, k) == WithItemAdded(items, catalogue, items[k].productId, stamp)
  {
    MapWhereSingle(LineOf(items[k].productId), SetQuantity(items[k].quantity + 1), items, k);
    AddExistingProduct(items, catalogue, items[k].productId, stamp, k);
  }
}
