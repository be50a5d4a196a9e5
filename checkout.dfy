/** The checkout page: the order summary with a fixed shipping charge, and
    the form whose submission places the order. */
module Checkout {
  import opened Seqs
  import opened Types
  import opened Totals
  import opened App

  /** Shipping: 5.00, whatever the cart holds. */
  const Shipping: int := 500

  function Total(cartItems: seq<CartItem>): int
  {
    Subtotal(cartItems) + Shipping
  }

  /** The summary: each line shows price times quantity, the lines add up
      to the subtotal, the total is that plus shipping; an empty cart totals
      5.00 and with no negative price or quantity the total is at least 5.00. */
  lemma SummaryAddsUp(cartItems: seq<CartItem>)
    ensures forall i :: 0 <= i < |cartItems| ==>
      LineTotals(cartItems)[i] == cartItems[i].product.price * cartItems[i].quantity
    ensures Total(cartItems) == Sum(LineTotals(cartItems), Cents) + 500
    ensures Total(cartItems) == Sum(cartItems, LineTotal) + 500
    ensures cartItems == [] ==> Total(cartItems) == 500
    ensures NonnegativeLines(cartItems) ==> Total(cartItems) >= 500
  {
    LineTotalsAddUp(cartItems);
    SubtotalIsSumOfLineTotals(cartItems);
    if NonnegativeLines(cartItems) {
      SubtotalNonnegative(cartItems);
    }
  }

  /** handleSubmit: place the order once; the page itself holds no state to change. */
  method HandleSubmit(app: AppState)
    requires app.Valid()
    modifies app
    ensures app.Valid()
    ensures app.cart == [] && !app.isCartOpen && app.view == HomeView && app.toast == Some(OrderPlacedToast)
    ensures app.session == old(app.session) && app.loading == old(app.loading)
    ensures app.farms == old(app.farms) && app.products == old(app.products)
  {
    app.PlaceOrder();
  }
}
