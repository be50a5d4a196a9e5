/** The recipe assistant: reconciling a generated recipe's ingredients with
    the catalog, the page's generate handler, and the batch add of a recipe's
    matched ingredients to the cart. */
module RecipeAssistant {
  import opened Seqs
  import opened Types
  import opened Totals
  import opened CartStore
  import opened Catalog
  import opened App

  /** JavaScript truthiness of an optional number: present and not 0. */
  predicate TruthyNumber(n: Option<int>)
  {
    n.Some? && n.value != 0
  }

  /** Some product of the catalog has this id. */
  predicate InCatalog(products: seq<Product>, id: int)
  {
    exists i :: 0 <= i < |products| && products[i].id == id
  }

  /** The product an ingredient is shown with: looked up only when its
      matched id is truthy. */
  function MatchOf(ing: AssistantIngredient, products: seq<Product>): (r: Option<Product>)
    ensures r.Some? <==> TruthyNumber(ing.matchedProductId) && InCatalog(products, ing.matchedProductId.value)
    ensures r.Some? ==>
      r.value in products && r.value.id == ing.matchedProductId.value &&
      FirstProductWithId(products, ing.matchedProductId.value, r.value)
  {
    if TruthyNumber(ing.matchedProductId) then FindProduct(products, ing.matchedProductId.value) else None
  }

  /** The cart line an ingredient contributes: the matched product with the
      quantity to buy, when both checks pass. */
  function Purchase(ing: AssistantIngredient, products: seq<Product>): (r: Option<CartItem>)
    ensures r.Some? <==>
      TruthyNumber(ing.matchedProductId) && InCatalog(products, ing.matchedProductId.value) &&
      TruthyNumber(ing.quantityToBuy)
    ensures r.Some? ==>
      r.value.product in products && r.value.product.id == ing.matchedProductId.value &&
      r.value.quantity == ing.quantityToBuy.value && r.value.quantity != 0 &&
      FirstProductWithId(products, ing.matchedProductId.value, r.value.product)
  {
    match MatchOf(ing, products)
    case Some(product) =>
      if TruthyNumber(ing.quantityToBuy) then Some(CartItem(product, ing.quantityToBuy.value)) else None
    case None => None
  }

  /** An ingredient's cost: what its cart line costs, or 0 without one. */
  function Cost(ing: AssistantIngredient, products: seq<Product>): int
  {
    match Purchase(ing, products)
    case Some(item) => LineTotal(item)
    case None => 0
  }

  function CostIn(products: seq<Product>): AssistantIngredient -> int
  {
    (ing: AssistantIngredient) => Cost(ing, products)
  }

  /** An ingredient as the card lists it: the ingredient, its product if
      found, and its cost. */
  datatype IngredientWithMeta = IngredientWithMeta(ingredient: AssistantIngredient, product: Option<Product>, cost: int)

  function WithMeta(ing: AssistantIngredient, products: seq<Product>): IngredientWithMeta
  {
    IngredientWithMeta(ing, MatchOf(ing, products), Cost(ing, products))
  }

  /** The list the card's map builds, one entry per ingredient. */
  function MetaList(ings: seq<AssistantIngredient>, products: seq<Product>): seq<IngredientWithMeta>
    decreases |ings|
  {
    if ings == [] then [] else MetaList(ings[..|ings| - 1], products) + [WithMeta(ings[|ings| - 1], products)]
  }

  /** Entry k of the mapped list describes ingredient k. */
  lemma {:induction false} MetaListAt(ings: seq<AssistantIngredient>, products: seq<Product>)
    ensures |MetaList(ings, products)| == |ings|
    ensures forall k :: 0 <= k < |ings| ==> MetaList(ings, products)[k] == WithMeta(ings[k], products)
    decreases |ings|
  {
    if ings != [] {
      var init := ings[..|ings| - 1];
      MetaListAt(init, products);
      assert forall k :: 0 <= k < |init| ==> init[k] == ings[k];
    }
  }

  function PurchaseIn(products: seq<Product>): AssistantIngredient -> Option<CartItem>
  {
    (ing: AssistantIngredient) => Purchase(ing, products)
  }

  /** The lines pushed to itemsToAdd, in ingredient order. */
  function Purchases(ings: seq<AssistantIngredient>, products: seq<Product>): seq<CartItem>
    decreases |ings|
  {
    if ings == [] then []
    else
      var last := ings[|ings| - 1];
      Purchases(ings[..|ings| - 1], products) +
        (match Purchase(last, products) case Some(item) => [item] case None => [])
  }

  /** The pushes are the generic filter-and-map of the ingredients. */
  lemma {:induction false} PurchasesChoose(ings: seq<AssistantIngredient>, products: seq<Product>)
    ensures Purchases(ings, products) == Choose(ings, PurchaseIn(products))
    decreases |ings|
  {
    if ings != [] {
      PurchasesChoose(ings[..|ings| - 1], products);
    }
  }

  /** The cost of an ingredient is its price times its quantity to buy
      exactly when the matched id is truthy, names a catalog product and the
      quantity is truthy; the price is that of the first product with the id.
      Otherwise the cost is 0, so an id or quantity of 0 or absent adds nothing. */
  lemma CostIsMatchedLine(ing: AssistantIngredient, products: seq<Product>)
    ensures !TruthyNumber(ing.matchedProductId) || !TruthyNumber(ing.quantityToBuy) ==> Cost(ing, products) == 0
    ensures TruthyNumber(ing.matchedProductId) && !InCatalog(products, ing.matchedProductId.value) ==> Cost(ing, products) == 0
    ensures TruthyNumber(ing.matchedProductId) && InCatalog(products, ing.matchedProductId.value) && TruthyNumber(ing.quantityToBuy) ==>
      exists i :: 0 <= i < |products| && products[i].id == ing.matchedProductId.value &&
        (forall j :: 0 <= j < i ==> products[j].id != ing.matchedProductId.value) &&
        Cost(ing, products) == products[i].price * ing.quantityToBuy.value
  {
    if TruthyNumber(ing.matchedProductId) && InCatalog(products, ing.matchedProductId.value) && TruthyNumber(ing.quantityToBuy) {
      var id := ing.matchedProductId.value;
      var k := FindIndex(products, ProductWithId(id));
      assert k.Some?;
      assert Find(products, ProductWithId(id)) == Some(products[k.value]);
      assert forall j :: 0 <= j < k.value ==> products[j].id != id by {
        assert forall j :: 0 <= j < k.value ==> !ProductWithId(id)(products[j]);
      }
    }
  }

  lemma PurchasesSnoc(ings: seq<AssistantIngredient>, ing: AssistantIngredient, products: seq<Product>)
    ensures Purchases(ings + [ing], products) ==
      Purchases(ings, products) + (match Purchase(ing, products) case Some(item) => [item] case None => [])
  {
    assert (ings + [ing])[..|ings + [ing]| - 1] == ings;
  }

  /** itemsToAdd holds exactly the lines of the purchasable ingredients. */
  lemma PurchasesMembership(ings: seq<AssistantIngredient>, products: seq<Product>)
    ensures |Purchases(ings, products)| <= |ings|
    ensures forall x :: x in Purchases(ings, products) <==>
      exists i :: 0 <= i < |ings| && Purchase(ings[i], products) == Some(x)
  {
    PurchasesChoose(ings, products);
    ChooseMembership(ings, PurchaseIn(products));
  }

  /** The "add all" button is disabled exactly when no ingredient is purchasable. */
  lemma PurchasesEmpty(ings: seq<AssistantIngredient>, products: seq<Product>)
    ensures Purchases(ings, products) == [] <==> forall i :: 0 <= i < |ings| ==> Purchase(ings[i], products).None?
  {
    PurchasesChoose(ings, products);
    ChooseEmpty(ings, PurchaseIn(products));
  }

  /** The recipe's total, the sum of its ingredient costs, is what its
      cart lines cost together. */
  lemma {:induction false} PurchasesTotal(ings: seq<AssistantIngredient>, products: seq<Product>)
    ensures Reduce(ings, CostIn(products)) == Subtotal(Purchases(ings, products))
    decreases |ings|
  {
    if ings != [] {
      var init, last := ings[..|ings| - 1], ings[|ings| - 1];
      PurchasesTotal(init, products);
      var tail := match Purchase(last, products) case Some(item) => [item] case None => [];
      SubtotalConcat(Purchases(init, products), tail);
      if Purchase(last, products).Some? {
        ReduceSingleton(Purchase(last, products).value, LineTotal);
      }
    }
  }

  /** One turn of the card's loop, in the terms the loop body uses. */
  lemma CardStep(prefix: seq<AssistantIngredient>, ing: AssistantIngredient, products: seq<Product>)
    ensures var found := if TruthyNumber(ing.matchedProductId) then FindProduct(products, ing.matchedProductId.value) else None;
      var pushed := found.Some? && TruthyNumber(ing.quantityToBuy);
      MetaList(prefix + [ing], products) ==
        MetaList(prefix, products) + [IngredientWithMeta(ing, found, if pushed then found.value.price * ing.quantityToBuy.value else 0)] &&
      Purchases(prefix + [ing], products) ==
        Purchases(prefix, products) + (if pushed then [CartItem(found.value, ing.quantityToBuy.value)] else []) &&
      Reduce(prefix + [ing], CostIn(products)) ==
        Reduce(prefix, CostIn(products)) + (if pushed then found.value.price * ing.quantityToBuy.value else 0)
  {
    PurchasesSnoc(prefix, ing, products);
    ReduceSnoc(prefix, ing, CostIn(products));
    assert (prefix + [ing])[..|prefix + [ing]| - 1] == prefix;
  }

  /** RecipeCard's pass over the ingredients: each one is listed with its
      product and cost, each purchasable one pushes its line, and the total
      accumulates the costs. */
  method RecipeCardTotals(recipe: AssistantRecipe, products: seq<Product>)
    returns (ingredientsWithMeta: seq<IngredientWithMeta>, totalCost: int, itemsToAdd: seq<CartItem>)
    ensures ingredientsWithMeta == MetaList(recipe.ingredients, products)
    ensures |ingredientsWithMeta| == |recipe.ingredients|
    ensures forall k :: 0 <= k < |recipe.ingredients| ==> ingredientsWithMeta[k] == WithMeta(recipe.ingredients[k], products)
    ensures itemsToAdd == Purchases(recipe.ingredients, products)
    ensures totalCost == Sum(recipe.ingredients, CostIn(products))
    ensures totalCost == Subtotal(itemsToAdd)
  {
    var ings := recipe.ingredients;
    totalCost := 0;
    itemsToAdd := [];
    ingredientsWithMeta := [];
    var i := 0;
    while i < |ings|
      invariant 0 <= i <= |ings|
      invariant ingredientsWithMeta == MetaList(ings[..i], products)
      invariant itemsToAdd == Purchases(ings[..i], products)
      invariant totalCost == Reduce(ings[..i], CostIn(products))
    {
      var ing := ings[i];
      ghost var prefix := ings[..i];
      CardStep(prefix, ing, products);
      assert ings[..i + 1] == prefix + [ing];
      var product: Option<Product> := None;
      var cost := 0;
      if TruthyNumber(ing.matchedProductId) {
        product := FindProduct(products, ing.matchedProductId.value);
        if product.Some? && TruthyNumber(ing.quantityToBuy) {
          cost := product.value.price * ing.quantityToBuy.value;
          totalCost := totalCost + cost;
          itemsToAdd := itemsToAdd + [CartItem(product.value, ing.quantityToBuy.value)];
        }
      }
      ingredientsWithMeta := ingredientsWithMeta + [IngredientWithMeta(ing, product, cost)];
      i := i + 1;
    }
    assert ings[..i] == ings;
    MetaListAt(ings, products);
    PurchasesTotal(ings, products);
    ReduceIsSum(ings, CostIn(products));
  }

  /** Two of product 101 at 4.99 cost 9.98 and make the only line to add;
      an ingredient with no matched id, or one matched to id 0, costs
      nothing and adds nothing. */
  lemma SeedRecipeExample(tomatoes: Product)
    requires tomatoes.id == 101 && tomatoes.price == 499
    ensures Purchases([AssistantIngredient("Tomatoes", "2 lbs", Some(101), Some(2)),
                       AssistantIngredient("Basil", "1 bunch", None, Some(1)),
                       AssistantIngredient("Salt", "a pinch", Some(0), Some(1))], [tomatoes]) == [CartItem(tomatoes, 2)]
    ensures Cost(AssistantIngredient("Tomatoes", "2 lbs", Some(101), Some(2)), [tomatoes]) == 998
    ensures Cost(AssistantIngredient("Basil", "1 bunch", None, Some(1)), [tomatoes]) == 0
  {
    var ings := [AssistantIngredient("Tomatoes", "2 lbs", Some(101), Some(2)),
                 AssistantIngredient("Basil", "1 bunch", None, Some(1)),
                 AssistantIngredient("Salt", "a pinch", Some(0), Some(1))];
    assert InCatalog([tomatoes], 101) by { assert [tomatoes][0].id == 101; }
    assert ings[..2] == [ings[0], ings[1]];
    assert ings[..2][..1] == [ings[0]];
    assert ings[..2][..1][..0] == [];
    assert Purchase(ings[0], [tomatoes]) == Some(CartItem(tomatoes, 2));
    assert Purchase(ings[1], [tomatoes]) == None;
    assert Purchase(ings[2], [tomatoes]) == None;
    PurchasesSnoc([], ings[0], [tomatoes]);
    PurchasesSnoc([ings[0]], ings[1], [tomatoes]);
    PurchasesSnoc([ings[0], ings[1]], ings[2], [tomatoes]);
    assert [ings[0], ings[1]] + [ings[2]] == ings;
  }

  /** The characters String.prototype.trim removes: white space and line
      terminators as ECMAScript defines them (section 12.2 and 12.3 of
      ECMA-262). */
  predicate IsJsWhitespace(c: char)
  {
    c == '\t' || c == '\n' || c == '\U{000B}' || c == '\U{000C}' || c == '\r' || c == ' ' ||
    c == '\U{00A0}' || c == '\U{1680}' || ('\U{2000}' <= c <= '\U{200A}') ||
    c == '\U{2028}' || c == '\U{2029}' || c == '\U{202F}' || c == '\U{205F}' ||
    c == '\U{3000}' || c == '\U{FEFF}'
  }

  function TrimStart(s: string): string
    decreases |s|
  {
    if s != [] && IsJsWhitespace(s[0]) then TrimStart(s[1..]) else s
  }

  function TrimEnd(s: string): string
    decreases |s|
  {
    if s != [] && IsJsWhitespace(s[|s| - 1]) then TrimEnd(s[..|s| - 1]) else s
  }

  function Trim(s: string): string
  {
    TrimEnd(TrimStart(s))
  }

  /** `!prompt.trim()`: the trimmed prompt is the empty string. */
  predicate Blank(s: string)
  {
    Trim(s) == ""
  }

  lemma {:induction false} TrimStartSpec(s: string)
    ensures TrimStart(s) == [] <==> forall i :: 0 <= i < |s| ==> IsJsWhitespace(s[i])
    ensures TrimStart(s) != [] ==> !IsJsWhitespace(TrimStart(s)[0])
    decreases |s|
  {
    if s != [] && IsJsWhitespace(s[0]) {
      TrimStartSpec(s[1..]);
      assert forall i :: 1 <= i < |s| ==> s[i] == s[1..][i - 1];
    }
  }

  lemma {:induction false} TrimEndSpec(s: string)
    ensures TrimEnd(s) == [] <==> forall i :: 0 <= i < |s| ==> IsJsWhitespace(s[i])
    decreases |s|
  {
    if s != [] && IsJsWhitespace(s[|s| - 1]) {
      TrimEndSpec(s[..|s| - 1]);
      assert forall i :: 0 <= i < |s| - 1 ==> s[i] == s[..|s| - 1][i];
    }
  }

  /** A prompt is blank exactly when every character is white space or a
      line terminator; the empty prompt is blank. */
  lemma BlankIffAllWhitespace(s: string)
    ensures Blank(s) <==> forall i :: 0 <= i < |s| ==> IsJsWhitespace(s[i])
  {
    TrimStartSpec(s);
    TrimEndSpec(TrimStart(s));
  }

  const NoRecipesError: string := "I couldn't find any recipes matching that request using our inventory. Try something else!"
  const GenerateFailedError: string := "Something went wrong. Please try again."

  /** What the generator call did: returned a list, or threw. */
  datatype GenerateOutcome = Returned(results: seq<AssistantRecipe>) | Threw

  /** The page's state slots. */
  class AssistantPage {
    var prompt: string
    var recipes: seq<AssistantRecipe>
    var loading: bool
    var error: Option<string>

    /** The initial values of the state hooks. */
    constructor ()
      ensures prompt == "" && recipes == [] && !loading && error == None
    {
      prompt := "";
      recipes := [];
      loading := false;
      error := None;
    }

    /** The Go button is disabled while loading, or when the prompt holds
        nothing but white space and line terminators. */
    predicate GoDisabled()
      reads this
      ensures GoDisabled() <==> loading || forall i :: 0 <= i < |prompt| ==> IsJsWhitespace(prompt[i])
    {
      BlankIffAllWhitespace(prompt);
      loading || Blank(prompt)
    }

    /** The text input's change handler. */
    method SetPrompt(text: string)
      modifies this
      ensures prompt == text
      ensures recipes == old(recipes) && loading == old(loading) && error == old(error)
    {
      prompt := text;
    }

    /** The synchronous part of handleGenerate: give up on a blank prompt,
        otherwise show loading with no error and no recipes. */
    method StartGenerate() returns (started: bool)
      modifies this
      ensures started <==> !Blank(old(prompt))
      ensures prompt == old(prompt)
      ensures !started ==> recipes == old(recipes) && loading == old(loading) && error == old(error)
      ensures started ==> loading && error == None && recipes == []
    {
      if Blank(prompt) {
        return false;
      }
      loading := true;
      error := None;
      recipes := [];
      started := true;
    }

    /** The awaited part: an empty list sets the no-recipes error and keeps
        the recipes empty, a non-empty one is shown, a throw sets the
        generic error; loading ends in every case. */
    method FinishGenerate(outcome: GenerateOutcome)
      requires error == None && recipes == []
      modifies this
      ensures !loading && prompt == old(prompt)
      ensures outcome.Returned? && outcome.results == [] ==> error == Some(NoRecipesError) && recipes == []
      ensures outcome.Returned? && outcome.results != [] ==> error == None && recipes == outcome.results
      ensures outcome.Threw? ==> error == Some(GenerateFailedError) && recipes == []
    {
      match outcome {
        case Returned(results) =>
          if |results| == 0 {
            error := Some(NoRecipesError);
          } else {
            recipes := results;
          }
        case Threw =>
          error := Some(GenerateFailedError);
      }
      loading := false;
    }

    /** handleGenerate with the generator's outcome given: a blank prompt
        changes nothing; otherwise the three outcomes are told apart and
        loading is false at the end. */
    method HandleGenerate(outcome: GenerateOutcome)
      modifies this
      ensures prompt == old(prompt)
      ensures Blank(old(prompt)) ==> recipes == old(recipes) && loading == old(loading) && error == old(error)
      ensures !Blank(old(prompt)) ==> !loading
      ensures !Blank(old(prompt)) && outcome.Returned? && outcome.results == [] ==>
        error == Some(NoRecipesError) && recipes == []
      ensures !Blank(old(prompt)) && outcome.Returned? && outcome.results != [] ==>
        error == None && recipes == outcome.results
      ensures !Blank(old(prompt)) && outcome.Threw? ==> error == Some(GenerateFailedError) && recipes == []
    {
      var started := StartGenerate();
      if started {
        FinishGenerate(outcome);
      }
    }
  }

  /** handleBatchAddToCart: addToCart once per item, in order, each with its
      own quantity. Lines merge by product id, so every id ends up with what
      it had plus everything added for it; the panel opens and the toast
      names the last item's product. */
  method HandleBatchAddToCart(app: AppState, items: seq<CartItem>)
    requires app.Valid()
    modifies app
    ensures app.Valid()
    ensures app.cart == AddLines(old(app.cart), items)
    ensures forall id :: HasLine(app.cart, id) <==> HasLine(old(app.cart), id) || HasLine(items, id)
    ensures forall id :: QuantityOf(app.cart, id) == QuantityOf(old(app.cart), id) + QuantityOf(items, id)
    ensures items != [] ==> app.isCartOpen && app.toast == Some(AddedToCartToast(items[|items| - 1].product))
    ensures items == [] ==> app.isCartOpen == old(app.isCartOpen) && app.toast == old(app.toast)
    ensures app.session == old(app.session) && app.loading == old(app.loading) && app.view == old(app.view)
    ensures app.farms == old(app.farms) && app.products == old(app.products)
  {
    ghost var cart0 := app.cart;
    var i := 0;
    while i < |items|
      invariant 0 <= i <= |items|
      invariant app.Valid()
      invariant app.cart == AddLines(cart0, items[..i])
      invariant i > 0 ==> app.isCartOpen && app.toast == Some(AddedToCartToast(items[i - 1].product))
      invariant i == 0 ==> app.isCartOpen == old(app.isCartOpen) && app.toast == old(app.toast)
      invariant app.session == old(app.session) && app.loading == old(app.loading) && app.view == old(app.view)
      invariant app.farms == old(app.farms) && app.products == old(app.products)
    {
      app.AddToCart(items[i].product, items[i].quantity);
      assert items[..i + 1][..i] == items[..i];
      i := i + 1;
    }
    assert items[..i] == items;
    forall id ensures HasLine(app.cart, id) <==> HasLine(cart0, id) || HasLine(items, id)
      ensures QuantityOf(app.cart, id) == QuantityOf(cart0, id) + QuantityOf(items, id)
    {
      AddLinesMerge(cart0, items, id);
    }
  }

  /** The card's "add all" button: the batch add of the card's itemsToAdd. */
  method AddAllIngredients(app: AppState, recipe: AssistantRecipe, products: seq<Product>)
    requires app.Valid()
    modifies app
    ensures app.Valid()
    ensures app.cart == AddLines(old(app.cart), Purchases(recipe.ingredients, products))
    ensures forall id :: HasLine(app.cart, id) <==>
      HasLine(old(app.cart), id) || HasLine(Purchases(recipe.ingredients, products), id)
    ensures forall id ::
      QuantityOf(app.cart, id) == QuantityOf(old(app.cart), id) + QuantityOf(Purchases(recipe.ingredients, products), id)
    ensures (forall i :: 0 <= i < |recipe.ingredients| ==> Purchase(recipe.ingredients[i], products).None?) ==>
      app.cart == old(app.cart) && app.isCartOpen == old(app.isCartOpen) && app.toast == old(app.toast)
    ensures var items := Purchases(recipe.ingredients, products);
      items != [] ==> app.isCartOpen && app.toast == Some(AddedToCartToast(items[|items| - 1].product))
    ensures app.session == old(app.session) && app.loading == old(app.loading) && app.view == old(app.view)
    ensures app.farms == old(app.farms) && app.products == old(app.products)
  {
    var ingredientsWithMeta, totalCost, itemsToAdd := RecipeCardTotals(recipe, products);
    PurchasesEmpty(recipe.ingredients, products);
    HandleBatchAddToCart(app, itemsToAdd);
  }
}
