# Harvest & Home storefront core in Dafny

Harvest & Home is a farm-to-table storefront. The application root holds the
session, the catalog of farms and products, the current view, the cart, the
cart panel's open flag and a single toast slot. The handlers passed down to
the pages overwrite those slots. This project models that root and the pages
that compute something from it:

- the cart merge rules of `addToCart` and `updateCartQuantity`;
- the item count and the subtotal, both derived with `reduce`;
- the catalog fetch: renaming the rows, the fixed overrides for the first
  three farms, and the product image table;
- the view resolution and the loading/auth/app gate;
- the cart panel and the checkout summary, with its fixed 5.00 shipping;
- the browse page's category filter and in-place sort;
- the recipe assistant. It matches generated ingredients against the catalog,
  costs them and batch-adds them to the cart, and its generate handler tells
  apart three outcomes.

Prices are integer cents, so every sum is exact: 4.99 is `499`.

Files and modules:

- `seqs.dfy` (`Seqs`): `Array.prototype.find`, `filter` and `reduce` as
  functions, with facts about them. `Reduce` is the left fold the source
  performs, and `Sum` is the reference it is proved equal to.
- `types.dfy` (`Types`): the records and unions of `types.ts`, plus the
  assistant's recipe and ingredient shapes.
- `totals.dfy` (`Totals`): item count, line totals and subtotal.
- `cart_store.dfy` (`CartStore`): the pure list transformations behind the
  cart handlers, and the invariant "one line per product id".
- `catalog.dfy` (`Catalog`): the query rows, their transformation, the image
  override and the find/filter lookups.
- `app.dfy` (`App`): the class `AppState`, whose fields are the state hooks of
  `App.tsx`. Each handler is a method that changes those fields. It also holds
  `RenderView` and `RenderApp`.
- `cart_panel.dfy`, `checkout.dfy` and `browse.dfy`: the cart panel, the
  checkout page and the browse page. The sort is an insertion sort on an
  array, proved to give a sorted permutation.
- `recipe_assistant.dfy` (`RecipeAssistant`): the recipe card's loop, the
  class `AssistantPage` for the page's four state hooks, and the batch add.

External calls become inputs:

- the session fetch and auth-change notifications are method parameters;
- each select query is a `QueryResult` (rows or an error);
- the recipe generator's outcome is a `GenerateOutcome` (a returned list, or a throw).

The root's sign-out, login and routes:

- Sign-out only calls the remote service (App.tsx:183-185); no local session
  is cleared.
- No demo login is wired: `AuthPage` is rendered without a demo handler
  (App.tsx:225-227).
- `View` has six variants (types.ts:29-35). The recipe assistant page has no
  route and is modelled on its own.

## Model

| member | source | states |
|---|---|---|
| Seqs.Find | App.tsx:147 | `find` returns nothing exactly when no element satisfies the predicate; otherwise it returns the first element that does |
| Seqs.FilterMembership | App.tsx:164 | an element survives `filter` exactly when it is in the list and satisfies the predicate |
| Seqs.FilterCount | App.tsx:196 | `filter` keeps every kept element with its full multiplicity and drops the others entirely |
| Seqs.FilterIsSubsequence | App.tsx:196 | `filter` keeps the list's order |
| Seqs.ReduceIsSum | App.tsx:214 | the left fold `reduce((acc, x) => acc + f(x), 0)` equals the sum of `f` over the list |
| Types.CategoriesListed | types.ts:19 | the category union has exactly five members, Vegetable, Fruit, Dairy, Bakery and Artisanal, each with its own name |
| Totals.ItemCountIsSumOfQuantities | App.tsx:214 | the header's item count is the sum of the line quantities, 0 for an empty cart |
| Totals.SubtotalIsSumOfLineTotals | components/Cart.tsx:15-18 | the subtotal is the sum of price times quantity over the lines, 0 for an empty cart |
| Totals.SubtotalConcat | components/Cart.tsx:15-18 | the subtotal of two carts put together is the sum of their subtotals |
| Totals.ItemCountConcat | App.tsx:214 | the item count of two carts put together is the sum of their counts |
| Totals.SubtotalNonnegative | components/Cart.tsx:15-18 | with no negative price or quantity the subtotal is not negative |
| Totals.LineTotalsAddUp | components/Cart.tsx:75-83 | the displayed line amounts add up to the displayed subtotal |
| Totals.SubtotalExample | components/Cart.tsx:15-18 | two at 4.99 and one at 15.00 come to 24.98 |
| CartStore.AddToExistingLine | App.tsx:147-153 | adding a product that has a line adds the quantity to that line only; the line's product, the other lines and the order stay; the item count grows by exactly the quantity |
| CartStore.AddNewLine | App.tsx:155 | adding a product without a line appends exactly one line with that product and quantity at the end; the item count grows by the quantity |
| CartStore.AddLineKeepsIdsUnique | App.tsx:145-156 | after an add the cart still has at most one line per product id, and has a line for exactly the old ids plus the added product's |
| CartStore.AddLineQuantityOf | App.tsx:145-156 | an add raises the quantity held for the added id by the amount added and leaves every other id's quantity unchanged |
| CartStore.SetQuantityRemovesLine | App.tsx:163-164 | a quantity of zero or less deletes that product's line and nothing else; the item count drops by the line's former quantity |
| CartStore.SetQuantityReplacesLine | App.tsx:166-168 | a positive quantity replaces that line's quantity instead of adding to it, and leaves every other line as it was |
| CartStore.SetQuantityOfAbsentLine | App.tsx:161-170 | updating an id that has no line leaves the cart unchanged, whatever the quantity |
| CartStore.SetQuantityKeepsIdsUnique | App.tsx:161-170 | an update keeps at most one line per id; afterwards the updated id has a line exactly when it had one and the quantity was positive |
| CartStore.UpdateLinesAt | App.tsx:149-153 | mapping over a cart with unique ids changes only the line with the id |
| CartStore.AddLinesIds | App.tsx:145-156 | after any run of adds the ids are still unique, and an id has a line exactly when it had one or was added |
| CartStore.AddLinesQuantity | App.tsx:145-156 | after any run of adds each id holds its old quantity plus everything added for it |
| CartStore.AddLinesMerge | App.tsx:145-156 | any run of adds leaves one line per id; an id has a line exactly when it had one or was added; its quantity is its old quantity plus everything added for it, in any order |
| CartStore.MergeExample | App.tsx:145-156 | Tomatoes 2, Honey 1, Tomatoes 3 give the cart [Tomatoes 5, Honey 1] |
| Catalog.RenameFarms | App.tsx:53-61 | one farm per row, in row order; `image_url` becomes `imageUrl` and `cover_image_url` becomes `coverImageUrl`; id, name, location, story and certifications are copied |
| Catalog.TransformFarms | App.tsx:53-90 | every farm keeps its row's id, story and certifications; the first three take the fixed names, locations and image URLs; every later farm is its row as it came |
| Catalog.RenameProducts | App.tsx:98-108 | one product per row, in row order; `farm_id` becomes `farmId` and `image_url` becomes `imageUrl`; id, name, description, price, unit, category and stock are copied |
| Catalog.OverrideImages | App.tsx:122-127 | the image pass keeps the products in order and every field but the image; the image becomes the table's URL exactly when the name is a key of the table (the intended lookup), else it stays |
| Catalog.OverrideProductImage | App.tsx:111-127 | the override changes only `imageUrl`, and changes it to the table's URL exactly when the product's name is a key of the table (the intended lookup); names and URLs are those of the table |
| Catalog.TransformedProducts | App.tsx:95-129 | with the intended lookup, the published products are the rows in order, each unchanged except that its image is the table's URL when its name is a key, else the row's `image_url` |
| Catalog.InheritedNameTakesOverride | App.tsx:123 | as written, a product named "toString", which is not a key of the table, still takes the override branch and gets a non-string image |
| Catalog.OverrideAgreesOffInheritedKeys | App.tsx:123-124 | for every name that is not an inherited object key, the lookup as written and the intended lookup pick the same products and the same URL |
| Catalog.FindFarm | App.tsx:194 | the farm lookup finds nothing exactly when no farm has the id; otherwise it finds the first farm in the list with that id |
| Catalog.FindProduct | App.tsx:201 | the product lookup finds nothing exactly when no product has the id; otherwise it finds the first product in the list with that id |
| Catalog.FarmProducts | App.tsx:196 | a farm's products are exactly the products with that farm id, in catalog order, with their multiplicity |
| App.RenderView | App.tsx:187-211 | a farm view shows the first farm with the id and exactly that farm's products, in catalog order with their multiplicity, when the id resolves, else "not found"; a product view shows the first product with the id and the first farm with its farm id, which may be absent without error, when the id resolves, else "not found"; browse, checkout and home show their pages; `farms` falls to home |
| App.RenderApp | App.tsx:214-261 | loading shows only the loading screen; no session shows only the auth page; a session shows the app with the resolved view, the item count, the panel flag and the toast |
| App.AppState.constructor | App.tsx:19-27 | the initial state: no session, loading, empty catalog, home view, empty closed cart, no toast |
| App.AppState.InitialSessionLoaded | App.tsx:30-34 | the one-shot session fetch stores the session and ends loading; nothing else changes |
| App.AppState.AuthStateChanged | App.tsx:38-43 | every auth notification stores its session; "SIGNED_IN", and only it, also resets the view to home |
| App.AppState.FetchData | App.tsx:48-131 | a successful farms query publishes the transformed farms and a successful products query the transformed products (with the intended image lookup); a failed query leaves its list as it was |
| App.AppState.AddToCart | App.tsx:145-159 | the cart becomes the merged cart with unique ids, the item count grows by the quantity, the panel opens, and the toast becomes the info message "<name> added to cart" |
| App.AppState.UpdateCartQuantity | App.tsx:161-170 | the cart becomes the updated cart with unique ids; no other slot changes |
| App.AppState.ClearCart | App.tsx:172-175 | the cart is empty and the panel closed, whatever came before, so clearing twice is clearing once |
| App.AppState.PlaceOrder | App.tsx:177-181 | placing the order empties the cart, closes the panel, returns home and posts the success toast "Order placed successfully!" |
| App.AppState.SetView | App.tsx:24 | navigation replaces the view unconditionally |
| App.AppState.SetCartOpen | App.tsx:234 | the header button opens the panel and the close handlers close it |
| App.AppState.DismissToast | App.tsx:136-143 | dismissing, by the close button or by the timer, empties the toast slot |
| App.Mount | App.tsx:18-134 | mounting with the three remote outcomes ends loading with the fetched session; a successful query publishes its transformed rows and a failed one leaves its list empty; the view is home and the cart empty and closed |
| CartPanel.Panel | components/Cart.tsx:46-83 | the empty state exactly for an empty cart; otherwise the lines, each with price times quantity, and a subtotal equal to the sum of the line amounts |
| CartPanel.EmptyCartOffersNoCheckout | components/Cart.tsx:46-93 | checkout and clear are offered exactly for a non-empty cart, "Start Shopping" exactly for an empty one, and a trash button exactly for each product that has a line |
| CartPanel.HandleCheckout | components/Cart.tsx:20-23 | checkout closes the panel and shows the checkout view, leaving the cart as it is |
| CartPanel.Dispatch | components/Cart.tsx:41-93 | close and "Start Shopping" only close the panel; trash asks for quantity 0 and so removes the line; an edited quantity is passed on unclamped, so a value of zero or less removes the line; clear empties the cart |
| Checkout.SummaryAddsUp | pages/CheckoutPage.tsx:10-12 | the summary's line amounts add up to the subtotal; the total is that plus 5.00 shipping; an empty cart totals 5.00; with no negative price or quantity the total is at least 5.00 |
| Checkout.HandleSubmit | pages/CheckoutPage.tsx:14-18 | submitting places the order exactly once |
| Browse.FilterChoicesListed | pages/BrowsePage.tsx:38 | the buttons are "All" followed by each category's name once, in the union's order |
| Browse.FilterByCategorySpec | pages/BrowsePage.tsx:41-45 | "All" keeps the products as they are; any other filter keeps exactly that category's products, in order, with their multiplicity |
| Browse.ParseSort | pages/BrowsePage.tsx:48-57 | "price-asc", "price-desc" and "name-desc" pick their orders, and any other key sorts like "name-asc" |
| Browse.NameLeTotal | pages/BrowsePage.tsx:54-57 | any two names compare one way or the other |
| Browse.NameLeTransitive | pages/BrowsePage.tsx:54-57 | the name order is transitive |
| Browse.InOrderTransitive | pages/BrowsePage.tsx:47-59 | each of the four comparators is transitive |
| Browse.SortedPairwise | pages/BrowsePage.tsx:47-59 | in a sorted list any earlier product may precede any later one: prices never decrease for "price-asc" and never increase for "price-desc"; names descend for "name-desc" and ascend otherwise |
| Browse.SortInPlace | pages/BrowsePage.tsx:47-59 | sorting the array in place leaves it sorted by the comparator and a permutation of what it held |
| Browse.FilteredAndSortedProducts | pages/BrowsePage.tsx:40-62 | the result is a permutation of the filtered products, ordered pairwise by the chosen sort |
| Browse.ViewDetails | pages/BrowsePage.tsx:110 | clicking a card shows that product's view and changes nothing else |
| Browse.QuickAdd | pages/BrowsePage.tsx:111 | the card's "+" adds one of the product, which raises the item count by one, opens the panel and posts its toast |
| RecipeAssistant.MatchOf | pages/RecipeAssistantPage.tsx:25-28 | an ingredient is shown with a product exactly when its matched id is truthy and some product has it; that product is the first catalog product with the id |
| RecipeAssistant.Purchase | pages/RecipeAssistantPage.tsx:27-33 | an ingredient becomes a cart line exactly when its matched id is truthy, resolves to a catalog product and its quantity is truthy; the line pairs the first catalog product with the id with the quantity to buy |
| RecipeAssistant.CostIsMatchedLine | pages/RecipeAssistantPage.tsx:24-35 | the cost is the first matching product's price times the quantity when all three checks pass; otherwise it is 0, including for an id or quantity of 0 or absent |
| RecipeAssistant.PurchasesMembership | pages/RecipeAssistantPage.tsx:22-32 | itemsToAdd holds exactly the lines of the purchasable ingredients, never more than there are ingredients |
| RecipeAssistant.PurchasesEmpty | pages/RecipeAssistantPage.tsx:101 | the "add all" button is disabled exactly when no ingredient is purchasable |
| RecipeAssistant.PurchasesTotal | pages/RecipeAssistantPage.tsx:21-31 | the sum of the ingredient costs is the subtotal of itemsToAdd |
| RecipeAssistant.PurchasesSnoc | pages/RecipeAssistantPage.tsx:32 | each ingredient pushes its line after those of the earlier ingredients |
| RecipeAssistant.MetaListAt | pages/RecipeAssistantPage.tsx:24-36 | the mapped list has one entry per ingredient, and entry k carries ingredient k, its product and its cost |
| RecipeAssistant.CardStep | pages/RecipeAssistantPage.tsx:25-35 | one turn of the loop appends that ingredient's entry, pushes its line exactly when a product was found and the quantity is truthy, and adds its cost to the total |
| RecipeAssistant.RecipeCardTotals | pages/RecipeAssistantPage.tsx:21-36 | the card lists every ingredient with its product and cost; itemsToAdd is the purchasable lines in ingredient order; totalCost is the sum of the costs and the subtotal of itemsToAdd |
| RecipeAssistant.SeedRecipeExample | pages/RecipeAssistantPage.tsx:24-35 | two of product 101 at 4.99 cost 9.98 and form the only line; an ingredient with no id or id 0 adds nothing |
| RecipeAssistant.TrimStartSpec | pages/RecipeAssistantPage.tsx:122 | trimming the front leaves nothing exactly when every character is white space, else it leaves a non-white first character |
| RecipeAssistant.TrimEndSpec | pages/RecipeAssistantPage.tsx:122 | trimming the end leaves nothing exactly when every character is white space |
| RecipeAssistant.BlankIffAllWhitespace | pages/RecipeAssistantPage.tsx:122 | a prompt counts as blank exactly when all its characters are white space or line terminators |
| RecipeAssistant.AssistantPage.GoDisabled | pages/RecipeAssistantPage.tsx:172 | the Go button is disabled exactly while loading or when every character of the prompt is white space or a line terminator |
| RecipeAssistant.AssistantPage.constructor | pages/RecipeAssistantPage.tsx:115-118 | empty prompt, no recipes, not loading, no error |
| RecipeAssistant.AssistantPage.SetPrompt | pages/RecipeAssistantPage.tsx:166 | typing replaces the prompt only |
| RecipeAssistant.AssistantPage.StartGenerate | pages/RecipeAssistantPage.tsx:122-126 | a blank prompt stops the handler with nothing changed; otherwise loading is on, the error cleared and the recipes emptied |
| RecipeAssistant.AssistantPage.FinishGenerate | pages/RecipeAssistantPage.tsx:128-139 | an empty result sets the "couldn't find any recipes" error and keeps no recipes; a non-empty result is shown with no error; a throw sets "Something went wrong. Please try again."; loading ends in every case |
| RecipeAssistant.AssistantPage.HandleGenerate | pages/RecipeAssistantPage.tsx:120-140 | a blank prompt changes nothing; otherwise the three outcomes give their three distinct states and loading is off at the end |
| RecipeAssistant.HandleBatchAddToCart | pages/RecipeAssistantPage.tsx:142-146 | one add per item, in order, each with its own quantity. Ids stay unique, and each id gains exactly what was added for it. A non-empty batch opens the panel with the last item's toast; an empty one changes nothing |
| RecipeAssistant.AddAllIngredients | pages/RecipeAssistantPage.tsx:96-101 | the card's button adds itemsToAdd: each id gains exactly what itemsToAdd holds for it; a non-empty itemsToAdd opens the panel with the toast for its last line's product; with no purchasable ingredient the cart, panel and toast stay as they were |

## Left out

- Supabase I/O and its asynchrony are not modelled: `getSession`, the auth
  subscription and its unsubscribe, the two selects and `signOut`. Their
  results are parameters. Interleavings of the two initial effects are not
  modelled; each handler runs to completion in one step.
- The 3000 ms toast timer and its cancellation are timing. The toast is a
  single slot that the latest message replaces, and `DismissToast` clears it.
- Floating point is left out. Prices are integer cents; `toFixed(2)` and NaN
  from `parseInt` in the quantity input (components/Cart.tsx:67) are out of
  scope. `EditQuantity` carries an integer.
- Browse.NameLe: `localeCompare` is modelled as code-point lexicographic
  order, not locale collation.
- Browse.SortInPlace: it promises a sorted permutation but not the tie order
  that the engine's stable sort gives equal keys.
- Catalog.ProductRow: the `category` column is taken to be one of the five
  categories. The model does not carry a row with any other string.
- App.Session keeps two fields of the remote session; the rest of the
  session object is never read by the core.
- `services/geminiService.ts` is not part of this model; it is the remote
  generator. Its prompt, schema and JSON parsing are left out, and the
  generator's result is a `GenerateOutcome` input.
- The recipe assistant's recipe and ingredient shapes are inferred from
  their use in pages/RecipeAssistantPage.tsx.
- `RecipeAssistant.TruthyNumber`: NaN and other non-integer values are left
  out. A number is falsy only when absent or 0.
- RecipeAssistant.IsJsWhitespace: it lists the white space and line
  terminators of section 12.2 and 12.3 of ECMA-262 by code point. A future
  addition to Unicode's space separators is not tracked.
- The page markup and the flags that only drive presentation are left out:
  the card's `expanded`, the auth page's messages, the header, the toast
  component and the home, farms, farm and product pages. The product page's
  `Math.max(1, ...)` input clamp is left out with them.
- Catalog.OverrideImages, Catalog.TransformedProducts and
  App.AppState.FetchData state the intended image lookup. A product named
  after an `Object.prototype` key publishes a non-string image in the code
  (App.tsx:123); see Findings and Catalog.InheritedNameTakesOverride.
- `constants.ts` is static seed data that the root never reads. It is used
  only for the example values (product 101 at 4.99).

## Findings

| source | as written | input that shows it | evidently intended | confidence | as-written member | corrected member |
|---|---|---|---|---|---|---|
| App.tsx:122-127 | the image table is a plain object indexed by the product's name, so names inherited from `Object.prototype` are found too | a product named "toString" gets the inherited function as its `imageUrl` | only the eight names in the table take an override | not executed | Catalog.InheritedNameTakesOverride | Catalog.OverrideProductImage |
