/**
 * The checkout page (app/checkout/page.tsx): the form is shown only to a
 * signed-in user with a non-empty cart; submitting a complete address
 * records an order for the cart's lines and empties the cart. No payment is
 * taken. The two clock readings and the ISO time createOrder takes are
 * parameters of HandleSubmit.
 */
module CheckoutPage {
  import opened Wrappers
  import opened Types
  import opened Pricing
  import opened Cart
  import opened Orders
  import opened Auth

  /** The form's first state: recipient and phone from the user, when there is one. */
  function InitialAddress(user: Option<User>): (a: Address)
    ensures a.postalCode == "" && a.address == "" && a.detailAddress == ""
    ensures user.None? ==> a.recipient == "" && a.phone == ""
    ensures user.Some? ==> a.recipient == user.value.name
    ensures user.Some? && user.value.phone.Some? ==> a.phone == user.value.phone.value
    ensures user.Some? && user.value.phone.None? ==> a.phone == ""
  {
    var recipient := if user.Some? then user.value.name else "";
    var phone := if user.Some? && user.value.phone.Some? then user.value.phone.value else "";
    Address("", "", "", recipient, phone)
  }

  /** The submit check: every field a non-empty string (blank text passes). */
  predicate AddressComplete(a: Address) {
    a.postalCode != "" && a.address != "" && a.detailAddress != "" && a.recipient != "" && a.phone != ""
  }

  /** The form as first shown never passes the check: the postal code is still empty. */
  lemma InitialAddressIncomplete(user: Option<User>)
    ensures !AddressComplete(InitialAddress(user))
  {
  }

  /** Only emptiness is checked, so a field holding a single space is accepted. */
  lemma BlankFieldsAccepted()
    ensures AddressComplete(Address(" ", " ", " ", " ", " "))
  {
  }

  datatype Redirect = ToLogin | ToCart | Stay

  /** The effect that sends the visitor away, in the order the page tests. */
  function CheckoutRedirect(isAuthenticated: bool, user: Option<User>, itemCount: nat): (r: Redirect)
    ensures r == ToLogin <==> !isAuthenticated || user.None?
    ensures r == ToCart <==> isAuthenticated && user.Some? && itemCount == 0
    ensures r == Stay <==> ShowsForm(isAuthenticated, user, itemCount)
  {
    if !isAuthenticated || user.None? then ToLogin
    else if itemCount == 0 then ToCart
    else Stay
  }

  /** The page renders the form instead of its loading text. */
  predicate ShowsForm(isAuthenticated: bool, user: Option<User>, itemCount: nat) {
    isAuthenticated && user.Some? && itemCount > 0
  }

  datatype SubmitOutcome = NoForm | MissingFields | Placed(order: Order)

  /**
   * The amount the order records is the goods total alone: below the
   * free-shipping threshold it is the shipping fee less than the total the
   * page shows the customer.
   */
  lemma RecordedAmountOmitsShipping(userId: string, items: seq<CartItem>, address: Address,
                                     numberClock: nat, idClock: nat, createdAt: string)
    ensures var o := NewOrder(userId, items, address, numberClock, idClock, createdAt);
      && o.totalAmount == GoodsTotal(items)
      && FinalTotal(GoodsTotal(items)) - o.totalAmount == ShippingFee(GoodsTotal(items))
      && (GoodsTotal(items) < FreeShippingThreshold ==> o.totalAmount != FinalTotal(GoodsTotal(items)))
  {
  }

  /**
   * handleSubmit. With the form not shown there is no handler to run; with a
   * field empty the alert is shown and nothing changes; otherwise an order
   * for the signed-in user is recorded and the cart emptied.
   */
  method HandleSubmit(auth: AuthStore, cart: CartStore, ledger: OrderStore, shippingAddress: Address,
                      numberClock: nat, idClock: nat, createdAt: string) returns (outcome: SubmitOutcome)
    modifies cart, ledger
    ensures !ShowsForm(auth.isAuthenticated, auth.user, |old(cart.items)|) ==>
      outcome == NoForm && cart.items == old(cart.items) && ledger.orders == old(ledger.orders)
    ensures ShowsForm(auth.isAuthenticated, auth.user, |old(cart.items)|) && !AddressComplete(shippingAddress) ==>
      outcome == MissingFields && cart.items == old(cart.items) && ledger.orders == old(ledger.orders)
    ensures ShowsForm(auth.isAuthenticated, auth.user, |old(cart.items)|) && AddressComplete(shippingAddress) ==>
      && outcome == Placed(NewOrder(auth.user.value.id, old(cart.items), shippingAddress, numberClock, idClock, createdAt))
      && ledger.orders == old(ledger.orders) + [outcome.order]
      && cart.items == []
  {
    if !ShowsForm(auth.isAuthenticated, auth.user, |cart.items|) {
      return NoForm;
    }
    if !AddressComplete(shippingAddress) {
      return MissingFields;
    }
    var order := ledger.CreateOrder(auth.user.value.id, cart.items, shippingAddress, numberClock, idClock, createdAt);
    cart.ClearCart();
    return Placed(order);
  }
}
