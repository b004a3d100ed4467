/** The checkout page: the redirect of an empty cart and the place-order
    handler with its two guards. Toasts are modelled by their kind, the
    payment method choice (which nothing reads) is not modelled. */
module CheckoutPage {
  import opened Collections
  import opened Text
  import opened CartContext
  import opened CartPage

  /** What the checkout page renders. */
  datatype CheckoutView = RedirectToCart | CheckoutForm(subtotal: int, deliveryFee: int, total: int)

  function RenderCheckout(items: seq<CartItem>): (v: CheckoutView)
    ensures v.RedirectToCart? <==> items == []
    ensures v.CheckoutForm? ==>
      v.subtotal == TotalPrice(items) && v.total == v.subtotal + v.deliveryFee &&
      v.deliveryFee == RenderCart(items).deliveryFee
  {
    if items == [] then RedirectToCart
    else
      var subtotal := TotalPrice(items);
      CheckoutForm(subtotal, DeliveryFee(subtotal), subtotal + DeliveryFee(subtotal))
  }

  /** The order id minted from `Date.now()`. */
  function OrderId(stamp: string): string
  {
    "order_" + stamp
  }

  /** The toast the handler raises. */
  datatype OrderToast = LoginRequired | AddressRequired | OrderPlaced(orderId: string)

  /** The decision `handlePlaceOrder` takes, before its effects. */
  function PlaceOrder(isAuthenticated: bool, address: string, stamp: string): (t: OrderToast)
    ensures t == LoginRequired <==> !isAuthenticated
    ensures t == AddressRequired <==> isAuthenticated && forall i :: 0 <= i < |address| ==> IsSpace(address[i])
    ensures t.OrderPlaced? ==> t.orderId == OrderId(stamp) && "order_" <= t.orderId
  {
    TrimEmptyIffBlank(address);
    if !isAuthenticated then LoginRequired
    else if Trim(address) == "" then AddressRequired
    else OrderPlaced(OrderId(stamp))
  }

  /** Where the handler navigates to after a given toast. */
  function NavigationAfter(t: OrderToast): (path: Option<string>)
    ensures t == AddressRequired <==> path == None
    ensures t == LoginRequired ==> path == Some("/login")
    ensures t.OrderPlaced? ==> path == Some("/order-tracking/" + t.orderId)
  {
    match t
    case LoginRequired => Some("/login")
    case AddressRequired => None
    case OrderPlaced(orderId) => Some("/order-tracking/" + orderId)
  }

  /** `handlePlaceOrder`: the cart is cleared exactly when the order is
      placed, and then the page moves to the order's tracking page. */
  method HandlePlaceOrder(cart: CartProvider, isAuthenticated: bool, address: string, stamp: string)
      returns (toast: OrderToast, navigation: Option<string>)
    modifies cart
    ensures toast == PlaceOrder(isAuthenticated, address, stamp)
    ensures navigation == NavigationAfter(toast)
    ensures toast.OrderPlaced? ==> cart.items == []
    ensures !toast.OrderPlaced? ==> cart.items == old(cart.items)
  {
    if !isAuthenticated {
      return LoginRequired, Some("/login");
    }
    if Trim(address) == "" {
      return AddressRequired, None;
    }
    var orderId := OrderId(stamp);
    cart.ClearCart();
    return OrderPlaced(orderId), Some("/order-tracking/" + orderId);
  }

  /** A signed-in shopper with a non-blank address always places the order,
      whatever whitespace surrounds the address. */
  lemma SurroundingSpaceIsIgnored(address: string, stamp: string)
    requires exists i :: 0 <= i < |address| && !IsSpace(address[i])
    ensures PlaceOrder(true, " " + address + "\n", stamp) == OrderPlaced(OrderId(stamp))
  {
    var padded := " " + address + "\n";
    var i :| 0 <= i < |address| && !IsSpace(address[i]);
    assert padded[i + 1] == address[i];
  }
}
