/** The shopping cart (`CartProvider`): a list of lines keyed by product id,
    the four operations that replace it, and the three totals. Prices and
    quantities are integers. */
module CartContext {
  import opened Collections

  /** A catalogue product, the fields a cart line copies. */
  datatype Product = Product(id: string, name: string, price: int, image: string, unit: string, shopId: string)

  /** One cart line. */
  datatype CartItem = CartItem(id: string, productId: string, name: string, price: int, quantity: int,
                               image: string, unit: string, shopId: string)

  /** No two lines share a product id. */
  predicate UniqueProducts(items: seq<CartItem>)
  {
    forall i, j :: 0 <= i < j < |items| ==> items[i].productId != items[j].productId
  }

  predicate HasProduct(items: seq<CartItem>, productId: string)
  {
    exists i :: 0 <= i < |items| && items[i].productId == productId
  }

  /** The line selectors and rewrites the cart operations pass to the
      array methods. */
  function IsProduct(productId: string): Product -> bool
  {
    (p: Product) => p.id == productId
  }

  function LineOf(productId: string): CartItem -> bool
  {
    (item: CartItem) => item.productId == productId
  }

  function LineNotOf(productId: string): CartItem -> bool
  {
    (item: CartItem) => item.productId != productId
  }

  function Bump(): CartItem -> CartItem
  {
    (item: CartItem) => item.(quantity := item.quantity + 1)
  }

  function SetQuantity(quantity: int): CartItem -> CartItem
  {
    (item: CartItem) => item.(quantity := quantity)
  }

  /** The new line `addItem` appends for a product; `stamp` is `Date.now()`. */
  function NewLine(product: Product, stamp: string): CartItem
  {
    CartItem("cart_" + stamp, product.id, product.name, product.price, 1, product.image, product.unit, product.shopId)
  }

  /** The cart after `addItem(productId)`. */
  function WithItemAdded(items: seq<CartItem>, catalogue: seq<Product>, productId: string, stamp: string): seq<CartItem>
  {
    match Find(IsProduct(productId), catalogue)
    case None => items
    case Some(product) =>
      if Find(LineOf(productId), items).Some? then
        MapWhere(LineOf(productId), Bump(), items)
      else
        items + [NewLine(product, stamp)]
  }

  /** The cart after `removeItem(productId)`. */
  function WithoutProduct(items: seq<CartItem>, productId: string): seq<CartItem>
  {
    Filter(LineNotOf(productId), items)
  }

  /** The cart after `updateQuantity(productId, quantity)`. */
  function WithQuantity(items: seq<CartItem>, productId: string, quantity: int): seq<CartItem>
  {
    if quantity <= 0 then WithoutProduct(items, productId)
    else MapWhere(LineOf(productId), SetQuantity(quantity), items)
  }

  function LineQuantity(item: CartItem): int { item.quantity }
  function LineAmount(item: CartItem): int { item.price * item.quantity }

  /** `totalQuantity`. */
  function TotalQuantity(items: seq<CartItem>): int
  {
    Sum(LineQuantity, items)
  }

  /** `totalPrice`. */
  function TotalPrice(items: seq<CartItem>): int
  {
    Sum(LineAmount, items)
  }

  /** Adding a product the catalogue lacks changes nothing. */
  lemma AddUnknownProduct(items: seq<CartItem>, catalogue: seq<Product>, productId: string, stamp: string)
    requires forall i :: 0 <= i < |catalogue| ==> catalogue[i].id != productId
    ensures WithItemAdded(items, catalogue, productId, stamp) == items
  {
  }

  /** Adding a product already in the cart raises that line's quantity by
      one and leaves the length and every other line unchanged. */
  lemma AddExistingProduct(items: seq<CartItem>, catalogue: seq<Product>, productId: string, stamp: string, k: nat)
    requires exists i :: 0 <= i < |catalogue| && catalogue[i].id == productId
    requires UniqueProducts(items)
    requires k < |items| && items[k].productId == productId
    ensures WithItemAdded(items, catalogue, productId, stamp) == items[k := items[k].(quantity := items[k].quantity + 1)]
    ensures TotalQuantity(WithItemAdded(items, catalogue, productId, stamp)) == TotalQuantity(items) + 1
    ensures TotalPrice(WithItemAdded(items, catalogue, productId, stamp)) == TotalPrice(items) + items[k].price
  {
    var r := WithItemAdded(items, catalogue, productId, stamp);
    var bumped := items[k].(quantity := items[k].quantity + 1);
    MapWhereSingle(LineOf(productId), Bump(), items, k);
    assert r == items[k := bumped];
    SumUpdate(LineQuantity, items, k, bumped);
    SumUpdate(LineAmount, items, k, bumped);
  }

  /** Adding a catalogue product not yet in the cart appends one line with
      quantity 1 and the product's fields; product ids stay unique. */
  lemma AddNewProduct(items: seq<CartItem>, catalogue: seq<Product>, productId: string, stamp: string)
    requires exists i :: 0 <= i < |catalogue| && catalogue[i].id == productId
    requires !HasProduct(items, productId)
    ensures var product := Find(IsProduct(productId), catalogue).value;
      WithItemAdded(items, catalogue, productId, stamp) == items + [NewLine(product, stamp)] &&
      product.id == productId &&
      TotalQuantity(WithItemAdded(items, catalogue, productId, stamp)) == TotalQuantity(items) + 1 &&
      TotalPrice(WithItemAdded(items, catalogue, productId, stamp)) == TotalPrice(items) + product.price
    ensures UniqueProducts(items) ==> UniqueProducts(WithItemAdded(items, catalogue, productId, stamp))
  {
    var product := Find(IsProduct(productId), catalogue).value;
    var line := NewLine(product, stamp);
    SumAppend(LineQuantity, items, [line]);
    SumAppend(LineAmount, items, [line]);
  }

  /** Both kinds of add keep product ids unique. */
  lemma AddKeepsProductsUnique(items: seq<CartItem>, catalogue: seq<Product>, productId: string, stamp: string)
    requires UniqueProducts(items)
    ensures UniqueProducts(WithItemAdded(items, catalogue, productId, stamp))
  {
    var r := WithItemAdded(items, catalogue, productId, stamp);
    if Find(IsProduct(productId), catalogue).Some? && Find(LineOf(productId), items).None? {
      AddNewProduct(items, catalogue, productId, stamp);
    }
  }

  /** Removing drops exactly the lines of that product, keeps the others in
      order, and keeps ids unique. */
  lemma RemoveDropsExactly(items: seq<CartItem>, productId: string)
    ensures !HasProduct(WithoutProduct(items, productId), productId)
    ensures forall i :: 0 <= i < |items| && items[i].productId != productId ==> items[i] in WithoutProduct(items, productId)
    ensures forall x :: multiset(WithoutProduct(items, productId))[x] ==
              if x.productId != productId then multiset(items)[x] else 0
    ensures IsSubsequence(WithoutProduct(items, productId), items)
    ensures UniqueProducts(items) ==> UniqueProducts(WithoutProduct(items, productId))
  {
    FilterMembers(LineNotOf(productId), items);
    FilterMultiset(LineNotOf(productId), items);
    FilterIsSubsequence(LineNotOf(productId), items);
    if UniqueProducts(items) {
      FilterKeepsUnique(items, productId);
    }
  }

  lemma {:induction false} FilterKeepsUnique(items: seq<CartItem>, productId: string)
    requires UniqueProducts(items)
    ensures UniqueProducts(WithoutProduct(items, productId))
    ensures forall i :: 0 <= i < |WithoutProduct(items, productId)| ==> WithoutProduct(items, productId)[i] in items
  {
    FilterMembers(LineNotOf(productId), items);
    if items != [] {
      FilterKeepsUnique(items[1..], productId);
      var rest := WithoutProduct(items[1..], productId);
      assert forall i :: 0 <= i < |rest| ==> rest[i] in items[1..];
      assert forall i :: 0 <= i < |rest| ==> rest[i].productId != items[0].productId;
    }
  }

  /** Removing a product whose line is unique lowers the totals by that line. */
  lemma RemoveLowersTotals(items: seq<CartItem>, productId: string, k: nat)
    requires UniqueProducts(items)
    requires k < |items| && items[k].productId == productId
    ensures WithoutProduct(items, productId) == items[..k] + items[k + 1..]
    ensures TotalQuantity(WithoutProduct(items, productId)) == TotalQuantity(items) - items[k].quantity
    ensures TotalPrice(WithoutProduct(items, productId)) == TotalPrice(items) - LineAmount(items[k])
  {
    var p := LineNotOf(productId);
    assert items == items[..k] + [items[k]] + items[k + 1..];
    FilterAppend(p, items[..k] + [items[k]], items[k + 1..]);
    FilterAppend(p, items[..k], [items[k]]);
    FilterKeepsAll(p, items[..k]);
    FilterKeepsAll(p, items[k + 1..]);
    assert Filter(p, [items[k]]) == [];
    SumAppend(LineQuantity, items[..k] + [items[k]], items[k + 1..]);
    SumAppend(LineQuantity, items[..k], [items[k]]);
    SumAppend(LineQuantity, items[..k], items[k + 1..]);
    SumAppend(LineAmount, items[..k] + [items[k]], items[k + 1..]);
    SumAppend(LineAmount, items[..k], [items[k]]);
    SumAppend(LineAmount, items[..k], items[k + 1..]);
  }

  /** A quantity of zero or less removes the product. */
  lemma NonPositiveQuantityRemoves(items: seq<CartItem>, productId: string, quantity: int)
    requires quantity <= 0
    ensures WithQuantity(items, productId, quantity) == WithoutProduct(items, productId)
  {
  }

  /** A positive quantity is set on the product's line, the other lines and
      the length are unchanged, and an absent product is a no-op. */
  lemma PositiveQuantitySets(items: seq<CartItem>, productId: string, quantity: int)
    requires quantity > 0
    ensures |WithQuantity(items, productId, quantity)| == |items|
    ensures forall i :: 0 <= i < |items| && items[i].productId == productId ==>
      WithQuantity(items, productId, quantity)[i] == items[i].(quantity := quantity)
    ensures forall i :: 0 <= i < |items| && items[i].productId != productId ==>
      WithQuantity(items, productId, quantity)[i] == items[i]
    ensures !HasProduct(items, productId) ==> WithQuantity(items, productId, quantity) == items
    ensures UniqueProducts(items) ==> UniqueProducts(WithQuantity(items, productId, quantity))
  {
  }

  /** The empty cart has no lines and zero totals. */
  lemma EmptyCartTotals()
    ensures TotalQuantity([]) == 0 && TotalPrice([]) == 0
  {
  }

  /** With non-negative prices and quantities, the total price is
      non-negative. */
  lemma TotalPriceNonNegative(items: seq<CartItem>)
    requires forall i :: 0 <= i < |items| ==> items[i].price >= 0 && items[i].quantity >= 0
    ensures TotalPrice(items) >= 0
  {
    SumNonNegative(LineAmount, items);
  }

  /** The cart state: `items`, replaced by each operation. */
  class CartProvider {
    var items: seq<CartItem>

    /** The cart starts from the saved lines. */
    constructor (saved: seq<CartItem>)
      ensures items == saved
    {
      items := saved;
    }

    /** `totalItems`: the number of lines. */
    function TotalItems(): (n: nat)
      reads this
      ensures n == |items|
    {
      |items|
    }

    function Quantity(): int
      reads this
    {
      TotalQuantity(items)
    }

    function Price(): int
      reads this
    {
      TotalPrice(items)
    }

    method AddItem(catalogue: seq<Product>, productId: string, stamp: string)
      modifies this
      ensures items == WithItemAdded(old(items), catalogue, productId, stamp)
      ensures UniqueProducts(old(items)) ==> UniqueProducts(items)
    {
      if UniqueProducts(items) {
        AddKeepsProductsUnique(items, catalogue, productId, stamp);
      }
      items := WithItemAdded(items, catalogue, productId, stamp);
    }

    method RemoveItem(productId: string)
      modifies this
      ensures items == WithoutProduct(old(items), productId)
      ensures !HasProduct(items, productId)
    {
      RemoveDropsExactly(items, productId);
      items := WithoutProduct(items, productId);
    }

    method UpdateQuantity(productId: string, quantity: int)
      modifies this
      ensures items == WithQuantity(old(items), productId, quantity)
    {
      if quantity <= 0 {
        RemoveItem(productId);
        return;
      }
      items := WithQuantity(items, productId, quantity);
    }

    method ClearCart()
      modifies this
      ensures items == [] && Quantity() == 0 && Price() == 0
    {
      items := [];
    }
  }
}
