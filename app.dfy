/** The application root: the state slots it holds, the handlers that
    overwrite them, the view resolution and the session gate. */
module App {
  import opened Seqs
  import opened Types
  import opened Totals
  import opened CartStore
  import opened Catalog

  /** The authenticated identity; the model only looks at whether one is held. */
  datatype Session = Session(userId: string, email: string)

  /** What the main area shows for the current view. */
  datatype Page =
    | HomePage(farms: seq<Farm>, products: seq<Product>)
    | BrowsePage(products: seq<Product>)
    | FarmPage(farm: Farm, farmProducts: seq<Product>)
    | FarmNotFound
    | ProductPage(product: Product, productFarm: Option<Farm>)
    | ProductNotFound
    | CheckoutPage(cartItems: seq<CartItem>)

  /** What the root renders: the loading screen, the auth page, or the full app. */
  datatype Screen =
    | LoadingScreen
    | AuthScreen
    | MainScreen(page: Page, cartItemCount: int, cartOpen: bool, toast: Option<ToastMessage>)

  /** renderView: the switch over the view's tag. The farm and product views
      resolve their payload against the catalog; `farms` has no case and,
      like any other tag, falls to the home page. */
  function RenderView(view: View, farms: seq<Farm>, products: seq<Product>, cart: seq<CartItem>): (p: Page)
    ensures view.FarmView? ==>
      (p.FarmPage? <==> exists i :: 0 <= i < |farms| && farms[i].id == view.payload)
    ensures view.FarmView? && p.FarmPage? ==>
      p.farm in farms && p.farm.id == view.payload && FirstFarmWithId(farms, view.payload, p.farm) &&
      (forall x :: x in p.farmProducts <==> x in products && x.farmId == view.payload) &&
      Subsequence(p.farmProducts, products) && p.farmProducts == FarmProducts(products, view.payload)
    ensures view.FarmView? && !p.FarmPage? ==> p == FarmNotFound
    ensures view.ProductView? ==>
      (p.ProductPage? <==> exists i :: 0 <= i < |products| && products[i].id == view.payload)
    ensures view.ProductView? && p.ProductPage? ==>
      p.product in products && p.product.id == view.payload && FirstProductWithId(products, view.payload, p.product) &&
      p.productFarm == FindFarm(farms, p.product.farmId) &&
      (p.productFarm.None? <==> forall i :: 0 <= i < |farms| ==> farms[i].id != p.product.farmId) &&
      (p.productFarm.Some? ==> p.productFarm.value in farms && p.productFarm.value.id == p.product.farmId)
    ensures view.ProductView? && !p.ProductPage? ==> p == ProductNotFound
    ensures view == HomeView || view == FarmsView ==> p == HomePage(farms, products)
    ensures view == BrowseView ==> p == BrowsePage(products)
    ensures view == CheckoutView ==> p == CheckoutPage(cart)
  {
    match view
    case HomeView => HomePage(farms, products)
    case BrowseView => BrowsePage(products)
    case FarmView(id) =>
      (match FindFarm(farms, id)
       case Some(farm) => FarmPage(farm, FarmProducts(products, farm.id))
       case None => FarmNotFound)
    case ProductView(id) =>
      (match FindProduct(products, id)
       case Some(product) => ProductPage(product, FindFarm(farms, product.farmId))
       case None => ProductNotFound)
    case CheckoutView => CheckoutPage(cart)
    case _ => HomePage(farms, products)
  }

  /** The gate: the loading screen while the first session fetch is pending,
      only the auth page without a session, and the full app with one. */
  function RenderApp(loading: bool, session: Option<Session>, view: View, farms: seq<Farm>,
                     products: seq<Product>, cart: seq<CartItem>, isCartOpen: bool,
                     toast: Option<ToastMessage>): (s: Screen)
    ensures s == LoadingScreen <==> loading
    ensures s == AuthScreen <==> !loading && session.None?
    ensures s.MainScreen? <==> !loading && session.Some?
    ensures s.MainScreen? ==>
      s.page == RenderView(view, farms, products, cart) && s.cartItemCount == Sum(cart, Quantity) &&
      s.cartOpen == isCartOpen && s.toast == toast
  {
    if loading then LoadingScreen
    else if session.None? then AuthScreen
    else
      ItemCountIsSumOfQuantities(cart);
      MainScreen(RenderView(view, farms, products, cart), ItemCount(cart), isCartOpen, toast)
  }

  const SignedInEvent: string := "SIGNED_IN"

  function AddedToCartToast(product: Product): ToastMessage
  {
    ToastMessage(product.name + " added to cart", Info)
  }

  const OrderPlacedToast: ToastMessage := ToastMessage("Order placed successfully!", Success)

  /** The state slots of the application root. */
  class AppState {
    var session: Option<Session>
    var loading: bool
    var farms: seq<Farm>
    var products: seq<Product>
    var view: View
    var cart: seq<CartItem>
    var isCartOpen: bool
    var toast: Option<ToastMessage>

    /** The cart invariant every mutator keeps. */
    predicate Valid()
      reads this
    {
      UniqueIds(cart)
    }

    /** The initial values of the state hooks. */
    constructor ()
      ensures Valid()
      ensures session == None && loading && farms == [] && products == []
      ensures view == HomeView && cart == [] && !isCartOpen && toast == None
    {
      session := None;
      loading := true;
      farms := [];
      products := [];
      view := HomeView;
      cart := [];
      isCartOpen := false;
      toast := None;
    }

    /** The one-shot session fetch completes: store the session, stop loading. */
    method InitialSessionLoaded(s: Option<Session>)
      requires Valid()
      modifies this
      ensures Valid()
      ensures session == s && !loading
      ensures farms == old(farms) && products == old(products) && view == old(view)
      ensures cart == old(cart) && isCartOpen == old(isCartOpen) && toast == old(toast)
    {
      session := s;
      loading := false;
    }

    /** An auth state notification: always store the session; a sign-in
        also sends the view back home. */
    method AuthStateChanged(event: string, s: Option<Session>)
      requires Valid()
      modifies this
      ensures Valid()
      ensures session == s
      ensures view == if event == SignedInEvent then HomeView else old(view)
      ensures loading == old(loading) && farms == old(farms) && products == old(products)
      ensures cart == old(cart) && isCartOpen == old(isCartOpen) && toast == old(toast)
    {
      session := s;
      if event == SignedInEvent {
        view := HomeView;
      }
    }

    /** The catalog fetch with both query results given: each successful
        query replaces its list with the transformed rows, a failed one
        leaves its list as it was (empty on mount). */
    method FetchData(farmsResult: QueryResult<FarmRow>, productsResult: QueryResult<ProductRow>)
      requires Valid()
      modifies this
      ensures Valid()
      ensures farms == if farmsResult.Rows? then TransformFarms(farmsResult.data) else old(farms)
      ensures products == if productsResult.Rows? then OverrideImages(RenameProducts(productsResult.data)) else old(products)
      ensures session == old(session) && loading == old(loading) && view == old(view)
      ensures cart == old(cart) && isCartOpen == old(isCartOpen) && toast == old(toast)
    {
      if farmsResult.Rows? {
        var transformedFarms := RenameFarms(farmsResult.data);
        if |transformedFarms| > 0 {
          transformedFarms := transformedFarms[0 := WithOverride(transformedFarms[0], FarmOverrides[0])];
        }
        if |transformedFarms| > 1 {
          transformedFarms := transformedFarms[1 := WithOverride(transformedFarms[1], FarmOverrides[1])];
        }
        if |transformedFarms| > 2 {
          transformedFarms := transformedFarms[2 := WithOverride(transformedFarms[2], FarmOverrides[2])];
        }
        assert transformedFarms == TransformFarms(farmsResult.data);
        farms := transformedFarms;
      }
      if productsResult.Rows? {
        var transformedProducts := RenameProducts(productsResult.data);
        transformedProducts := OverrideImages(transformedProducts);
        products := transformedProducts;
      }
    }

    /** addToCart: merge or append, open the cart panel, and replace the
        toast with an info message naming the product. */
    method AddToCart(product: Product, quantity: int)
      requires Valid()
      modifies this
      ensures Valid()
      ensures cart == AddLine(old(cart), product, quantity)
      ensures ItemCount(cart) == old(ItemCount(cart)) + quantity
      ensures isCartOpen && toast == Some(AddedToCartToast(product))
      ensures session == old(session) && loading == old(loading) && farms == old(farms)
      ensures products == old(products) && view == old(view)
    {
      AddLineKeepsIdsUnique(cart, product, quantity);
      if k :| 0 <= k < |cart| && cart[k].product.id == product.id {
        AddToExistingLine(cart, product, quantity, k);
      } else {
        AddNewLine(cart, product, quantity);
      }
      cart := AddLine(cart, product, quantity);
      isCartOpen := true;
      toast := Some(AddedToCartToast(product));
    }

    /** updateCartQuantity: remove the line at a quantity of zero or less,
        otherwise replace its quantity; nothing else changes. */
    method UpdateCartQuantity(productId: int, quantity: int)
      requires Valid()
      modifies this
      ensures Valid()
      ensures cart == SetLineQuantity(old(cart), productId, quantity)
      ensures session == old(session) && loading == old(loading) && farms == old(farms)
      ensures products == old(products) && view == old(view)
      ensures isCartOpen == old(isCartOpen) && toast == old(toast)
    {
      SetQuantityKeepsIdsUnique(cart, productId, quantity);
      cart := SetLineQuantity(cart, productId, quantity);
    }

    /** clearCart: an empty cart and a closed panel, whatever came before,
        so clearing twice is the same as clearing once. */
    method ClearCart()
      requires Valid()
      modifies this
      ensures Valid()
      ensures cart == [] && !isCartOpen
      ensures session == old(session) && loading == old(loading) && farms == old(farms)
      ensures products == old(products) && view == old(view) && toast == old(toast)
    {
      cart := [];
      isCartOpen := false;
    }

    /** handlePlaceOrder: clear the cart, go home, post the success toast. */
    method PlaceOrder()
      requires Valid()
      modifies this
      ensures Valid()
      ensures cart == [] && !isCartOpen && view == HomeView && toast == Some(OrderPlacedToast)
      ensures session == old(session) && loading == old(loading) && farms == old(farms)
      ensures products == old(products)
    {
      ClearCart();
      view := HomeView;
      toast := Some(OrderPlacedToast);
    }

    /** setView, passed to every page: replace the view unconditionally. */
    method SetView(v: View)
      requires Valid()
      modifies this
      ensures Valid()
      ensures view == v
      ensures session == old(session) && loading == old(loading) && farms == old(farms)
      ensures products == old(products) && cart == old(cart) && isCartOpen == old(isCartOpen)
      ensures toast == old(toast)
    {
      view := v;
    }

    /** The header's cart button (open) and the panel's close handlers. */
    method SetCartOpen(open: bool)
      requires Valid()
      modifies this
      ensures Valid()
      ensures isCartOpen == open
      ensures session == old(session) && loading == old(loading) && farms == old(farms)
      ensures products == old(products) && cart == old(cart) && view == old(view)
      ensures toast == old(toast)
    {
      isCartOpen := open;
    }

    /** The toast's close button, and the timer firing 3000 ms after the
        latest toast was set. */
    method DismissToast()
      requires Valid()
      modifies this
      ensures Valid()
      ensures toast == None
      ensures session == old(session) && loading == old(loading) && farms == old(farms)
      ensures products == old(products) && cart == old(cart) && view == old(view)
      ensures isCartOpen == old(isCartOpen)
    {
      toast := None;
    }
  }

  /** Mounting the app with the outcomes of its three remote calls: a
      successful catalog query publishes its transformed rows, a failed one
      leaves that list empty. */
  method Mount(initial: Option<Session>, farmsResult: QueryResult<FarmRow>, productsResult: QueryResult<ProductRow>)
    returns (app: AppState)
    ensures fresh(app) && app.Valid()
    ensures app.session == initial && !app.loading
    ensures app.farms == if farmsResult.Rows? then TransformFarms(farmsResult.data) else []
    ensures app.products == if productsResult.Rows? then OverrideImages(RenameProducts(productsResult.data)) else []
    ensures app.view == HomeView && app.cart == [] && !app.isCartOpen && app.toast == None
  {
    app := new AppState();
    app.InitialSessionLoaded(initial);
    app.FetchData(farmsResult, productsResult);
  }
}
