/** The list updates behind the cart mutators of the application root:
    addToCart merges by product id or appends, updateCartQuantity removes a
    line at a quantity of zero or less and otherwise replaces its quantity.
    Both build a new list and leave the old one alone. */
module CartStore {
  import opened Seqs
  import opened Types
  import opened Totals

  function HasId(id: int): CartItem -> bool { (item: CartItem) => item.product.id == id }

  function OtherThan(id: int): CartItem -> bool { (item: CartItem) => item.product.id != id }

  function AddBy(q: int): int -> int { x => x + q }

  function SetTo(q: int): int -> int { _ => q }

  /** The `map` both mutators use: every line with the id gets its quantity
      mapped through f, every other line is kept. */
  function UpdateLines(cart: seq<CartItem>, id: int, f: int -> int): seq<CartItem>
  {
    seq(|cart|, i requires 0 <= i < |cart| =>
      if cart[i].product.id == id then cart[i].(quantity := f(cart[i].quantity)) else cart[i])
  }

  /** addToCart's new list: merge into the existing line or append one. */
  function AddLine(cart: seq<CartItem>, product: Product, quantity: int): seq<CartItem>
  {
    if Find(cart, HasId(product.id)).Some? then UpdateLines(cart, product.id, AddBy(quantity))
    else cart + [CartItem(product, quantity)]
  }

  /** updateCartQuantity's new list. */
  function SetLineQuantity(cart: seq<CartItem>, productId: int, quantity: int): seq<CartItem>
  {
    if quantity <= 0 then Filter(cart, OtherThan(productId))
    else UpdateLines(cart, productId, SetTo(quantity))
  }

  /** The cart invariant: at most one line per product id. */
  predicate UniqueIds(cart: seq<CartItem>)
  {
    forall i, j :: 0 <= i < j < |cart| ==> cart[i].product.id != cart[j].product.id
  }

  predicate HasLine(cart: seq<CartItem>, id: int)
  {
    exists i :: 0 <= i < |cart| && cart[i].product.id == id
  }

  function QuantityFor(id: int): CartItem -> int
  {
    (item: CartItem) => if item.product.id == id then item.quantity else 0
  }

  /** The total quantity held for one product id. */
  function QuantityOf(cart: seq<CartItem>, id: int): int { Reduce(cart, QuantityFor(id)) }

  /** addToCart once per item, in order (the batch add of the recipe assistant). */
  function AddLines(cart: seq<CartItem>, items: seq<CartItem>): seq<CartItem>
    decreases |items|
  {
    if items == [] then cart
    else
      var last := items[|items| - 1];
      AddLine(AddLines(cart, items[..|items| - 1]), last.product, last.quantity)
  }

  lemma UpdateLinesAt(cart: seq<CartItem>, id: int, f: int -> int, k: nat)
    requires UniqueIds(cart) && k < |cart| && cart[k].product.id == id
    ensures UpdateLines(cart, id, f) == cart[k := cart[k].(quantity := f(cart[k].quantity))]
  {
  }

  /** Adding a product already in the cart raises that line's quantity by
      exactly the amount added; the line keeps its product record, and every
      other line and their order stay as they were. */
  lemma AddToExistingLine(cart: seq<CartItem>, product: Product, quantity: int, k: nat)
    requires UniqueIds(cart) && k < |cart| && cart[k].product.id == product.id
    ensures AddLine(cart, product, quantity) == cart[k := cart[k].(quantity := cart[k].quantity + quantity)]
    ensures ItemCount(AddLine(cart, product, quantity)) == ItemCount(cart) + quantity
  {
    assert HasId(product.id)(cart[k]);
    UpdateLinesAt(cart, product.id, AddBy(quantity), k);
    ReduceUpdate(cart, k, cart[k].(quantity := cart[k].quantity + quantity), Quantity);
  }

  /** Adding a product not yet in the cart appends exactly one line at the end. */
  lemma AddNewLine(cart: seq<CartItem>, product: Product, quantity: int)
    requires !HasLine(cart, product.id)
    ensures AddLine(cart, product, quantity) == cart + [CartItem(product, quantity)]
    ensures ItemCount(AddLine(cart, product, quantity)) == ItemCount(cart) + quantity
  {
    assert forall j :: 0 <= j < |cart| ==> !HasId(product.id)(cart[j]);
    ItemCountConcat(cart, [CartItem(product, quantity)]);
    ReduceSingleton(CartItem(product, quantity), Quantity);
  }

  /** addToCart never creates a second line for a product id, and the ids
      in the cart afterwards are the old ones plus the added product's. */
  lemma AddLineKeepsIdsUnique(cart: seq<CartItem>, product: Product, quantity: int)
    requires UniqueIds(cart)
    ensures UniqueIds(AddLine(cart, product, quantity))
    ensures forall id :: HasLine(AddLine(cart, product, quantity), id) <==> HasLine(cart, id) || id == product.id
  {
    if k :| 0 <= k < |cart| && cart[k].product.id == product.id {
      AddToExistingLine(cart, product, quantity, k);
      var r := AddLine(cart, product, quantity);
      assert forall i :: 0 <= i < |r| ==> r[i].product == cart[i].product;
      forall id | HasLine(r, id) ensures HasLine(cart, id) {
        var i :| 0 <= i < |r| && r[i].product.id == id;
        assert cart[i].product.id == id;
      }
      forall id | HasLine(cart, id) ensures HasLine(r, id) {
        var i :| 0 <= i < |cart| && cart[i].product.id == id;
        assert r[i].product.id == id;
      }
    } else {
      AddNewLine(cart, product, quantity);
      var r := AddLine(cart, product, quantity);
      assert r[|cart|].product.id == product.id;
      forall id | HasLine(cart, id) ensures HasLine(r, id) {
        var i :| 0 <= i < |cart| && cart[i].product.id == id;
        assert r[i] == cart[i];
      }
    }
  }

  /** The quantity held for each product id grows by the amount added for
      that id and is unchanged for every other id. */
  lemma AddLineQuantityOf(cart: seq<CartItem>, product: Product, quantity: int, id: int)
    requires UniqueIds(cart)
    ensures QuantityOf(AddLine(cart, product, quantity), id)
         == QuantityOf(cart, id) + (if id == product.id then quantity else 0)
  {
    if k :| 0 <= k < |cart| && cart[k].product.id == product.id {
      AddToExistingLine(cart, product, quantity, k);
      ReduceUpdate(cart, k, cart[k].(quantity := cart[k].quantity + quantity), QuantityFor(id));
    } else {
      AddNewLine(cart, product, quantity);
      ReduceConcat(cart, [CartItem(product, quantity)], QuantityFor(id));
      ReduceSingleton(CartItem(product, quantity), QuantityFor(id));
    }
  }

  lemma FilterOthersAt(cart: seq<CartItem>, productId: int, k: nat)
    requires UniqueIds(cart) && k < |cart| && cart[k].product.id == productId
    ensures Filter(cart, OtherThan(productId)) == cart[..k] + cart[k + 1..]
  {
    forall i | 0 <= i < |cart| && i != k ensures OtherThan(productId)(cart[i]) {
      assert cart[i].product.id != cart[k].product.id;
    }
    FilterDropsOne(cart, OtherThan(productId), k);
  }

  /** Setting a quantity of zero or less removes that product's line and
      nothing else; the item count drops by the line's former quantity. */
  lemma SetQuantityRemovesLine(cart: seq<CartItem>, productId: int, quantity: int, k: nat)
    requires UniqueIds(cart) && quantity <= 0 && k < |cart| && cart[k].product.id == productId
    ensures SetLineQuantity(cart, productId, quantity) == cart[..k] + cart[k + 1..]
    ensures ItemCount(SetLineQuantity(cart, productId, quantity)) == ItemCount(cart) - cart[k].quantity
  {
    FilterOthersAt(cart, productId, k);
    ReduceRemove(cart, k, Quantity);
  }

  /** Setting a positive quantity replaces (does not add to) that line's
      quantity; every other line stays as it was. */
  lemma SetQuantityReplacesLine(cart: seq<CartItem>, productId: int, quantity: int, k: nat)
    requires UniqueIds(cart) && quantity > 0 && k < |cart| && cart[k].product.id == productId
    ensures SetLineQuantity(cart, productId, quantity) == cart[k := cart[k].(quantity := quantity)]
    ensures ItemCount(SetLineQuantity(cart, productId, quantity)) == ItemCount(cart) - cart[k].quantity + quantity
  {
    UpdateLinesAt(cart, productId, SetTo(quantity), k);
    ReduceUpdate(cart, k, cart[k].(quantity := quantity), Quantity);
  }

  /** Updating a product that has no line leaves the cart as it was, whatever the quantity. */
  lemma SetQuantityOfAbsentLine(cart: seq<CartItem>, productId: int, quantity: int)
    requires !HasLine(cart, productId)
    ensures SetLineQuantity(cart, productId, quantity) == cart
  {
    if quantity <= 0 {
      FilterKeepsAll(cart, OtherThan(productId));
    }
  }

  /** updateCartQuantity keeps at most one line per id; afterwards the cart
      holds the updated id exactly when the quantity was positive and it was there. */
  lemma SetQuantityKeepsIdsUnique(cart: seq<CartItem>, productId: int, quantity: int)
    requires UniqueIds(cart)
    ensures UniqueIds(SetLineQuantity(cart, productId, quantity))
    ensures forall id :: HasLine(SetLineQuantity(cart, productId, quantity), id)
                     <==> HasLine(cart, id) && (id != productId || quantity > 0)
  {
    var r := SetLineQuantity(cart, productId, quantity);
    if k :| 0 <= k < |cart| && cart[k].product.id == productId {
      if quantity <= 0 {
        SetQuantityRemovesLine(cart, productId, quantity, k);
        assert forall i :: 0 <= i < |r| ==> r[i] == if i < k then cart[i] else cart[i + 1];
        forall id | HasLine(cart, id) && id != productId ensures HasLine(r, id) {
          var i :| 0 <= i < |cart| && cart[i].product.id == id;
          assert i != k;
          if i < k { assert r[i] == cart[i]; } else { assert r[i - 1] == cart[i]; }
        }
      } else {
        SetQuantityReplacesLine(cart, productId, quantity, k);
        forall id | HasLine(cart, id) ensures HasLine(r, id) {
          var i :| 0 <= i < |cart| && cart[i].product.id == id;
          assert r[i].product.id == id;
        }
      }
    } else {
      SetQuantityOfAbsentLine(cart, productId, quantity);
    }
  }

  lemma HasLineSnoc(items: seq<CartItem>, last: CartItem, id: int)
    ensures HasLine(items + [last], id) <==> HasLine(items, id) || last.product.id == id
  {
    var all := items + [last];
    if HasLine(all, id) && last.product.id != id {
      var i :| 0 <= i < |all| && all[i].product.id == id;
      assert items[i] == all[i];
    }
    if HasLine(items, id) {
      var i :| 0 <= i < |items| && items[i].product.id == id;
      assert all[i] == items[i];
    }
    assert all[|items|] == last;
  }

  /** A run of adds keeps the ids unique and holds a line for exactly the
      ids already present or added. */
  lemma {:induction false} AddLinesIds(cart: seq<CartItem>, items: seq<CartItem>, id: int)
    requires UniqueIds(cart)
    ensures UniqueIds(AddLines(cart, items))
    ensures HasLine(AddLines(cart, items), id) <==> HasLine(cart, id) || HasLine(items, id)
    decreases |items|
  {
    if items != [] {
      var init, last := items[..|items| - 1], items[|items| - 1];
      AddLinesIds(cart, init, id);
      AddLineKeepsIdsUnique(AddLines(cart, init), last.product, last.quantity);
      assert init + [last] == items;
      HasLineSnoc(init, last, id);
    }
  }

  /** After a run of adds each id holds what it held plus everything added for it. */
  lemma {:induction false} AddLinesQuantity(cart: seq<CartItem>, items: seq<CartItem>, id: int)
    requires UniqueIds(cart)
    ensures QuantityOf(AddLines(cart, items), id) == QuantityOf(cart, id) + QuantityOf(items, id)
    decreases |items|
  {
    if items != [] {
      var init, last := items[..|items| - 1], items[|items| - 1];
      AddLinesQuantity(cart, init, id);
      AddLinesIds(cart, init, id);
      AddLineQuantityOf(AddLines(cart, init), last.product, last.quantity, id);
      assert init + [last] == items;
      ReduceSnoc(init, last, QuantityFor(id));
    }
  }

  /** A run of adds keeps the ids unique, holds a line for exactly the ids
      already present or added, and for each id the quantity is what was
      there plus everything added for it, whatever the order of the adds. */
  lemma AddLinesMerge(cart: seq<CartItem>, items: seq<CartItem>, id: int)
    requires UniqueIds(cart)
    ensures UniqueIds(AddLines(cart, items))
    ensures HasLine(AddLines(cart, items), id) <==> HasLine(cart, id) || HasLine(items, id)
    ensures QuantityOf(AddLines(cart, items), id) == QuantityOf(cart, id) + QuantityOf(items, id)
  {
    AddLinesIds(cart, items, id);
    AddLinesQuantity(cart, items, id);
  }

  /** Two of Tomatoes, one of Honey, three more of Tomatoes: one line per
      product, Tomatoes first with 5, then Honey with 1. */
  lemma MergeExample(tomatoes: Product, honey: Product)
    requires tomatoes.id != honey.id
    ensures AddLines([], [CartItem(tomatoes, 2), CartItem(honey, 1), CartItem(tomatoes, 3)])
         == [CartItem(tomatoes, 5), CartItem(honey, 1)]
  {
    var items := [CartItem(tomatoes, 2), CartItem(honey, 1), CartItem(tomatoes, 3)];
    assert items[..2] == [CartItem(tomatoes, 2), CartItem(honey, 1)];
    assert items[..2][..1] == [CartItem(tomatoes, 2)];
    assert items[..2][..1][..0] == [];
    var one := AddLine([], tomatoes, 2);
    AddNewLine([], tomatoes, 2);
    assert one == [CartItem(tomatoes, 2)];
    AddNewLine(one, honey, 1);
    var two := AddLine(one, honey, 1);
    assert two == [CartItem(tomatoes, 2), CartItem(honey, 1)];
    AddToExistingLine(two, tomatoes, 3, 0);
    assert AddLines([], items[..2][..1][..0]) == [];
    assert AddLines([], items[..2][..1]) == one;
    assert AddLines([], items[..2]) == two;
  }
}
