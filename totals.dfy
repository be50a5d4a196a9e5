/** The cart's derived numbers: the item count the header shows and the
    subtotal the cart panel and the checkout page both compute with reduce. */
module Totals {
  import opened Seqs
  import opened Types

  function Quantity(item: CartItem): int { item.quantity }

  /** What a line costs: unit price times quantity, in cents. */
  function LineTotal(item: CartItem): int { item.product.price * item.quantity }

  function ItemCount(cart: seq<CartItem>): int { Reduce(cart, Quantity) }

  function Subtotal(cart: seq<CartItem>): int { Reduce(cart, LineTotal) }

  /** The subtotal is the sum of the line totals; an empty cart has subtotal 0. */
  lemma SubtotalIsSumOfLineTotals(cart: seq<CartItem>)
    ensures Subtotal(cart) == Sum(cart, LineTotal)
    ensures cart == [] ==> Subtotal(cart) == 0
  {
    ReduceIsSum(cart, LineTotal);
  }

  /** The item count is the sum of the line quantities. */
  lemma ItemCountIsSumOfQuantities(cart: seq<CartItem>)
    ensures ItemCount(cart) == Sum(cart, Quantity)
    ensures cart == [] ==> ItemCount(cart) == 0
  {
    ReduceIsSum(cart, Quantity);
  }

  lemma SubtotalConcat(a: seq<CartItem>, b: seq<CartItem>)
    ensures Subtotal(a + b) == Subtotal(a) + Subtotal(b)
  {
    ReduceConcat(a, b, LineTotal);
  }

  lemma ItemCountConcat(a: seq<CartItem>, b: seq<CartItem>)
    ensures ItemCount(a + b) == ItemCount(a) + ItemCount(b)
  {
    ReduceConcat(a, b, Quantity);
  }

  predicate NonnegativeLines(cart: seq<CartItem>)
  {
    forall i :: 0 <= i < |cart| ==> cart[i].product.price >= 0 && cart[i].quantity >= 0
  }

  /** With no negative price or quantity the subtotal is not negative. */
  lemma SubtotalNonnegative(cart: seq<CartItem>)
    requires NonnegativeLines(cart)
    ensures Subtotal(cart) >= 0
  {
    forall i | 0 <= i < |cart| ensures LineTotal(cart[i]) >= 0 {
      assert cart[i].product.price >= 0 && cart[i].quantity >= 0;
    }
    ReduceNonnegative(cart, LineTotal);
  }

  /** A displayed amount counted as it is, so that Sum can add a list of amounts. */
  function Cents(x: int): int { x }

  /** The amount displayed beside each line, in line order. */
  function LineTotals(cart: seq<CartItem>): (r: seq<int>)
    ensures |r| == |cart|
    ensures forall i :: 0 <= i < |cart| ==> r[i] == cart[i].product.price * cart[i].quantity
  {
    seq(|cart|, i requires 0 <= i < |cart| => LineTotal(cart[i]))
  }

  /** The displayed line totals add up to the subtotal. */
  lemma {:induction false} LineTotalsAddUp(cart: seq<CartItem>)
    ensures Sum(LineTotals(cart), Cents) == Subtotal(cart)
    decreases |cart|
  {
    ReduceIsSum(cart, LineTotal);
    if cart != [] {
      LineTotalsAddUp(cart[1..]);
      ReduceIsSum(cart[1..], LineTotal);
      assert LineTotals(cart)[1..] == LineTotals(cart[1..]);
    }
  }

  /** Two at 4.99 and one at 15.00 come to 24.98. */
  lemma SubtotalExample(a: Product, b: Product)
    requires a.price == 499 && b.price == 1500
    ensures Subtotal([CartItem(a, 2), CartItem(b, 1)]) == 2498
  {
    SubtotalConcat([CartItem(a, 2)], [CartItem(b, 1)]);
    assert [CartItem(a, 2)] + [CartItem(b, 1)] == [CartItem(a, 2), CartItem(b, 1)];
    assert [CartItem(a, 2)][..0] == [] && [CartItem(b, 1)][..0] == [];
  }
}
