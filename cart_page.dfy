/**
 * The cart page (app/cart/page.tsx): the summary's free-shipping hint, the
 * checkout button and the per-line buttons, which call the cart store with
 * the line's own key.
 */
module CartPage {
  import opened Wrappers
  import opened Types
  import opened JsArray
  import opened Pricing
  import opened Cart
  import opened Auth
  import CheckoutPage

  datatype CheckoutNav = GoToLogin | CartEmpty | GoToCheckout

  /** handleCheckout: the sign-in test comes before the empty-cart test. */
  function CheckoutClick(isAuthenticated: bool, itemCount: nat): (r: CheckoutNav)
    ensures r == GoToLogin <==> !isAuthenticated
    ensures r == CartEmpty <==> isAuthenticated && itemCount == 0
    ensures r == GoToCheckout <==> isAuthenticated && itemCount > 0
  {
    if !isAuthenticated then GoToLogin
    else if itemCount == 0 then CartEmpty
    else GoToCheckout
  }

  /**
   * When the session flags agree with the user, a visitor the cart page sends
   * on to checkout is shown the checkout form there.
   */
  lemma CheckoutClickLeadsToForm(user: Option<User>, isAuthenticated: bool, isAdmin: bool, items: seq<CartItem>)
    requires SessionConsistent(user, isAuthenticated, isAdmin)
    ensures CheckoutClick(isAuthenticated, |items|) == GoToCheckout <==>
            CheckoutPage.CheckoutRedirect(isAuthenticated, user, |items|) == CheckoutPage.Stay
  {
  }

  /**
   * The "buy this much more for free shipping" line, with the amount it
   * names: the least extra spend that makes shipping free.
   */
  function FreeShippingHint(totalPrice: int): (r: Option<int>)
    ensures r.Some? <==> ShippingFee(totalPrice) == FlatShippingFee
    ensures r.Some? ==> r.value > 0 && ShippingFee(totalPrice + r.value) == 0
    ensures r.Some? ==> ShippingFee(totalPrice + r.value - 1) == FlatShippingFee
  {
    if totalPrice < FreeShippingThreshold && FreeShippingThreshold - totalPrice > 0
    then Some(FreeShippingThreshold - totalPrice) else None
  }

  /** The trash button of line k. */
  method TrashClick(cart: CartStore, k: nat)
    requires k < |cart.items|
    modifies cart
    ensures cart.items == RemoveLines(old(cart.items), old(cart.items)[k].product.id,
                                      old(cart.items)[k].selectedSize, old(cart.items)[k].selectedColor)
    ensures UniqueLines(old(cart.items)) ==> cart.items == old(cart.items)[..k] + old(cart.items)[k + 1..]
  {
    var item := cart.items[k];
    if UniqueLines(cart.items) {
      RemoveLinesOneLine(cart.items, k);
    }
    cart.RemoveItem(item.product.id, item.selectedSize, item.selectedColor);
  }

  /** The minus button of line k: quantity − 1, which removes a line that held one. */
  method MinusClick(cart: CartStore, k: nat)
    requires k < |cart.items|
    modifies cart
    ensures var item := old(cart.items)[k];
      cart.items == UpdateLines(old(cart.items), item.product.id, item.selectedSize, item.selectedColor, item.quantity - 1)
    ensures UniqueLines(old(cart.items)) && old(cart.items)[k].quantity <= 1 ==>
      cart.items == old(cart.items)[..k] + old(cart.items)[k + 1..]
    ensures UniqueLines(old(cart.items)) && old(cart.items)[k].quantity > 1 ==>
      cart.items == old(cart.items)[k := old(cart.items)[k].(quantity := old(cart.items)[k].quantity - 1)]
  {
    var item := cart.items[k];
    if UniqueLines(cart.items) {
      if item.quantity <= 1 {
        RemoveLinesOneLine(cart.items, k);
      } else {
        SetQuantityOneLine(cart.items, k, item.quantity - 1);
      }
    }
    cart.UpdateQuantity(item.product.id, item.selectedSize, item.selectedColor, item.quantity - 1);
  }

  /** The plus button of line k: quantity + 1. */
  method PlusClick(cart: CartStore, k: nat)
    requires k < |cart.items|
    modifies cart
    ensures var item := old(cart.items)[k];
      cart.items == UpdateLines(old(cart.items), item.product.id, item.selectedSize, item.selectedColor, item.quantity + 1)
    ensures UniqueLines(old(cart.items)) && old(cart.items)[k].quantity >= 0 ==>
      TotalItems(cart.items) == TotalItems(old(cart.items)) + 1
  {
    var item := cart.items[k];
    if UniqueLines(cart.items) && item.quantity >= 0 {
      PlusRaisesTotal(cart.items, k);
    }
    cart.UpdateQuantity(item.product.id, item.selectedSize, item.selectedColor, item.quantity + 1);
  }

  /** One plus click on a line of a well-formed cart adds exactly one unit to the item count. */
  lemma PlusRaisesTotal(items: seq<CartItem>, k: nat)
    requires UniqueLines(items) && k < |items| && items[k].quantity >= 0
    ensures var item := items[k];
      TotalItems(UpdateLines(items, item.product.id, item.selectedSize, item.selectedColor, item.quantity + 1))
      == TotalItems(items) + 1
  {
    var item := items[k];
    SetQuantityOneLine(items, k, item.quantity + 1);
    SumUpdate(items, k, item.(quantity := item.quantity + 1), Quantity);
  }

  /** One minus click on a line holding more than one unit takes exactly one unit away. */
  lemma MinusLowersTotal(items: seq<CartItem>, k: nat)
    requires UniqueLines(items) && k < |items| && items[k].quantity > 1
    ensures var item := items[k];
      TotalItems(UpdateLines(items, item.product.id, item.selectedSize, item.selectedColor, item.quantity - 1))
      == TotalItems(items) - 1
  {
    var item := items[k];
    SetQuantityOneLine(items, k, item.quantity - 1);
    SumUpdate(items, k, item.(quantity := item.quantity - 1), Quantity);
  }
}
