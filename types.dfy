/** The storefront's records and tagged unions. Prices are integer cents so
    that every sum below is exact. */
module Types {
  import opened Seqs

  datatype Category = Vegetable | Fruit | Dairy | Bakery | Artisanal

  datatype Farm = Farm(
    id: int,
    name: string,
    location: string,
    story: string,
    certifications: seq<string>,
    imageUrl: string,
    coverImageUrl: string)

  datatype Product = Product(
    id: int,
    name: string,
    description: string,
    price: int,      // cents
    unit: string,
    farmId: int,
    category: Category,
    imageUrl: string,
    stock: int)

  /** A cart line: the full product record and an unvalidated quantity. */
  datatype CartItem = CartItem(product: Product, quantity: int)

  /** The current screen; only the farm and product views carry a payload. */
  datatype View =
    | HomeView
    | BrowseView
    | FarmsView
    | FarmView(payload: int)
    | ProductView(payload: int)
    | CheckoutView

  /** A recipe idea as the product page receives it. */
  datatype Recipe = Recipe(
    recipeName: string,
    description: string,
    ingredients: seq<string>,
    instructions: seq<string>)

  datatype ToastKind = Success | Info | Error

  /** The notification slot's message; the source's field `type` is `kind` here. */
  datatype ToastMessage = ToastMessage(message: string, kind: ToastKind)

  /** An ingredient of an assistant recipe; the two optional numbers are the
      catalog match the generator proposes. */
  datatype AssistantIngredient = AssistantIngredient(
    name: string,
    amount: string,
    matchedProductId: Option<int>,
    quantityToBuy: Option<int>)

  datatype AssistantRecipe = AssistantRecipe(
    name: string,
    description: string,
    ingredients: seq<AssistantIngredient>,
    instructions: seq<string>)

  /** The string the category union uses for each variant. */
  function CategoryName(c: Category): string
  {
    match c
    case Vegetable => "Vegetable"
    case Fruit => "Fruit"
    case Dairy => "Dairy"
    case Bakery => "Bakery"
    case Artisanal => "Artisanal"
  }

  const Categories: seq<Category> := [Vegetable, Fruit, Dairy, Bakery, Artisanal]

  /** The five categories are listed once each and have distinct names. */
  lemma CategoriesListed()
    ensures |Categories| == 5
    ensures forall c: Category :: c in Categories
    ensures forall i, j :: 0 <= i < j < |Categories| ==> CategoryName(Categories[i]) != CategoryName(Categories[j])
  {
    forall c: Category ensures c in Categories {
      match c
      case Vegetable => assert Categories[0] == c;
      case Fruit => assert Categories[1] == c;
      case Dairy => assert Categories[2] == c;
      case Bakery => assert Categories[3] == c;
      case Artisanal => assert Categories[4] == c;
    }
  }
}
