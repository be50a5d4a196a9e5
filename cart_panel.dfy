/** The slide-in cart panel: what it shows for the given lines and what its
    buttons and inputs forward to the application root. */
module CartPanel {
  import opened Seqs
  import opened Types
  import opened Totals
  import opened CartStore
  import opened App

  /** The panel's body: the empty state, or the lines with their totals and the subtotal. */
  datatype PanelView =
    | EmptyState
    | Lines(items: seq<CartItem>, lineTotals: seq<int>, subtotal: int)

  /** The controls of the panel. EditQuantity carries the number the input
      parsed, unclamped. */
  datatype PanelAction =
    | Close
    | StartShopping
    | ProceedToCheckout
    | ClearCartButton
    | Trash(productId: int)
    | EditQuantity(productId: int, value: int)

  /** The body for the cart's lines. */
  function Panel(cartItems: seq<CartItem>): (v: PanelView)
    ensures v.EmptyState? <==> cartItems == []
    ensures v.Lines? ==>
      v.items == cartItems && |v.lineTotals| == |cartItems| &&
      (forall i :: 0 <= i < |cartItems| ==> v.lineTotals[i] == cartItems[i].product.price * cartItems[i].quantity) &&
      v.subtotal == Sum(cartItems, LineTotal) && Sum(v.lineTotals, Cents) == v.subtotal
  {
    if cartItems == [] then EmptyState
    else
      SubtotalIsSumOfLineTotals(cartItems);
      LineTotalsAddUp(cartItems);
      Lines(cartItems, LineTotals(cartItems), Subtotal(cartItems))
  }

  /** The controls each body renders. */
  predicate Offers(v: PanelView, a: PanelAction)
  {
    match a
    case Close => true
    case StartShopping => v.EmptyState?
    case ProceedToCheckout => v.Lines?
    case ClearCartButton => v.Lines?
    case Trash(id) => v.Lines? && HasLine(v.items, id)
    case EditQuantity(id, _) => v.Lines? && HasLine(v.items, id)
  }

  /** An empty cart shows only the empty state: no checkout, no clear, no
      line controls; a non-empty cart offers checkout and clear. */
  lemma EmptyCartOffersNoCheckout(cartItems: seq<CartItem>)
    ensures Offers(Panel(cartItems), ProceedToCheckout) <==> cartItems != []
    ensures Offers(Panel(cartItems), ClearCartButton) <==> cartItems != []
    ensures Offers(Panel(cartItems), StartShopping) <==> cartItems == []
    ensures forall id :: Offers(Panel(cartItems), Trash(id)) <==> HasLine(cartItems, id)
  {
  }

  /** handleCheckout: close the panel, then show the checkout view. */
  method HandleCheckout(app: AppState)
    requires app.Valid()
    modifies app
    ensures app.Valid()
    ensures !app.isCartOpen && app.view == CheckoutView
    ensures app.cart == old(app.cart) && app.toast == old(app.toast) && app.session == old(app.session)
    ensures app.loading == old(app.loading) && app.farms == old(app.farms) && app.products == old(app.products)
  {
    app.SetCartOpen(false);
    app.SetView(CheckoutView);
  }

  /** What each control does to the root's state. The trash button asks for
      quantity 0 and so removes the line; an edited quantity is passed on as
      entered, so a value of zero or less removes the line too. */
  method Dispatch(app: AppState, action: PanelAction)
    requires app.Valid()
    modifies app
    ensures app.Valid()
    ensures action.Close? || action.StartShopping? ==> !app.isCartOpen && app.cart == old(app.cart) && app.view == old(app.view)
    ensures action.ProceedToCheckout? ==> !app.isCartOpen && app.cart == old(app.cart) && app.view == CheckoutView
    ensures action.ClearCartButton? ==> !app.isCartOpen && app.cart == [] && app.view == old(app.view)
    ensures action.Trash? ==>
      app.cart == SetLineQuantity(old(app.cart), action.productId, 0) && !HasLine(app.cart, action.productId)
    ensures action.EditQuantity? ==>
      app.cart == SetLineQuantity(old(app.cart), action.productId, action.value)
    ensures action.EditQuantity? && action.value <= 0 ==> !HasLine(app.cart, action.productId)
    ensures action.Trash? || action.EditQuantity? ==> app.isCartOpen == old(app.isCartOpen) && app.view == old(app.view)
    ensures app.toast == old(app.toast) && app.session == old(app.session) && app.loading == old(app.loading)
    ensures app.farms == old(app.farms) && app.products == old(app.products)
  {
    match action
    case Close =>
      app.SetCartOpen(false);
    case StartShopping =>
      app.SetCartOpen(false);
    case ProceedToCheckout =>
      HandleCheckout(app);
    case ClearCartButton =>
      app.ClearCart();
    case Trash(id) =>
      SetQuantityKeepsIdsUnique(app.cart, id, 0);
      app.UpdateCartQuantity(id, 0);
    case EditQuantity(id, value) =>
      SetQuantityKeepsIdsUnique(app.cart, id, value);
      app.UpdateCartQuantity(id, value);
  }
}
