/** The cart panel: the − and + buttons on each line and what they ask the store
    for. Raising or lowering a quantity goes to the store's `updateCartQuantity`,
    which the store does not define, so the model stops at the request; a quantity
    below one goes to `removeFromCart` instead. */
module Cart {
  import opened Base
  import opened DataContext

  /** What a quantity change asks of the store. */
  datatype CartRequest = RemoveLine(productId: int) | UpdateQuantity(productId: int, quantity: int)

  /** `handleQuantityChange` */
  function QuantityChange(productId: int, newQuantity: int): (r: CartRequest)
    ensures r.productId == productId
    ensures r.RemoveLine? <==> newQuantity < 1
    ensures r.UpdateQuantity? ==> r.quantity == newQuantity && r.quantity >= 1
  {
    if newQuantity < 1 then RemoveLine(productId) else UpdateQuantity(productId, newQuantity)
  }

  /** The − button of a line. */
  function Decrement(item: CartItem): CartRequest
  {
    QuantityChange(item.product.id, item.quantity - 1)
  }

  /** The + button of a line. */
  function Increment(item: CartItem): CartRequest
  {
    QuantityChange(item.product.id, item.quantity + 1)
  }

  /** The buttons ask for one less and one more; − on a line of one removes it, and
      + on a line the store keeps (quantity at least 1) never does. */
  lemma ButtonRequests(item: CartItem)
    ensures Decrement(item).UpdateQuantity? ==> Decrement(item).quantity == item.quantity - 1
    ensures Decrement(item).RemoveLine? <==> item.quantity <= 1
    ensures item.quantity >= 0 ==> Increment(item) == UpdateQuantity(item.product.id, item.quantity + 1)
  {
  }

  /** A removal request carried out by the store leaves no line for the product and
      every other line as it was. */
  lemma RemoveRequestEffect(cart: seq<CartItem>, item: CartItem)
    requires item.quantity <= 1
    ensures var r := RemoveFromCartItems(cart, Decrement(item).productId);
            (forall it :: it in r ==> it.product.id != item.product.id)
            && forall it :: it in cart && it.product.id != item.product.id ==> it in r
  {
    FilterMembers(cart, ItemIsNot(item.product.id));
  }

  /** The header's line count. */
  function LineCount(cart: seq<CartItem>): nat
  {
    |cart|
  }

  /** The checkout button is disabled exactly for an empty cart. */
  function CheckoutDisabled(cart: seq<CartItem>): (r: bool)
    ensures r <==> LineCount(cart) == 0
  {
    |cart| == 0
  }

  /** Adding a product always enables checkout; removing a product disables it
      exactly when every line was for that product. */
  lemma CheckoutAfterEdits(cart: seq<CartItem>, product: Product, quantity: int, productId: int)
    ensures !CheckoutDisabled(AddToCartItems(cart, product, quantity))
    ensures CheckoutDisabled(RemoveFromCartItems(cart, productId))
            <==> forall it :: it in cart ==> it.product.id == productId
  {
    var r := RemoveFromCartItems(cart, productId);
    FilterMembers(cart, ItemIsNot(productId));
    if r != [] {
      assert r[0] in r;
    }
    if FirstIndex(cart, ItemIs(product.id)) >= 0 {
      assert |cart| > 0;
    }
  }
}
