/** The browse page: a category filter and a sort over a copy of the
    catalog, and the two actions of each product card. */
module Browse {
  import opened Seqs
  import opened Types
  import opened App

  /** The filter buttons, in display order. */
  const FilterChoices: seq<string> := ["All", "Vegetable", "Fruit", "Dairy", "Bakery", "Artisanal"]

  /** Six choices, "All" first, then each category's name once, in the union's order. */
  lemma FilterChoicesListed()
    ensures |FilterChoices| == 6 && FilterChoices[0] == "All"
    ensures forall i :: 1 <= i < 6 ==> FilterChoices[i] == CategoryName(Categories[i - 1])
    ensures forall c: Category :: CategoryName(c) in FilterChoices[1..]
  {
    assert FilterChoices[1] == CategoryName(Categories[0]);
    assert FilterChoices[2] == CategoryName(Categories[1]);
    assert FilterChoices[3] == CategoryName(Categories[2]);
    assert FilterChoices[4] == CategoryName(Categories[3]);
    assert FilterChoices[5] == CategoryName(Categories[4]);
    forall c: Category ensures CategoryName(c) in FilterChoices[1..] {
      match c
      case Vegetable => assert FilterChoices[1..][0] == CategoryName(c);
      case Fruit => assert FilterChoices[1..][1] == CategoryName(c);
      case Dairy => assert FilterChoices[1..][2] == CategoryName(c);
      case Bakery => assert FilterChoices[1..][3] == CategoryName(c);
      case Artisanal => assert FilterChoices[1..][4] == CategoryName(c);
    }
  }

  function InCategory(name: string): Product -> bool
  {
    (p: Product) => CategoryName(p.category) == name
  }

  /** The filtering step: "All" keeps the copy as it is, any other filter
      keeps the products whose category is that string. */
  function FilterByCategory(products: seq<Product>, filter: string): seq<Product>
  {
    if filter == "All" then products else Filter(products, InCategory(filter))
  }

  /** "All" keeps every product; any other filter keeps exactly the products
      of that category, in catalog order and with their multiplicity. */
  lemma FilterByCategorySpec(products: seq<Product>, filter: string)
    ensures filter == "All" ==> FilterByCategory(products, filter) == products
    ensures Subsequence(FilterByCategory(products, filter), products)
    ensures filter != "All" ==> forall p ::
      (p in FilterByCategory(products, filter) <==> p in products && CategoryName(p.category) == filter) &&
      multiset(FilterByCategory(products, filter))[p] ==
        if CategoryName(p.category) == filter then multiset(products)[p] else 0
  {
    if filter == "All" {
      SubsequenceReflexive(products);
    } else {
      FilterIsSubsequence(products, InCategory(filter));
      forall p
        ensures (p in FilterByCategory(products, filter) <==> p in products && CategoryName(p.category) == filter)
        ensures multiset(FilterByCategory(products, filter))[p] ==
          if CategoryName(p.category) == filter then multiset(products)[p] else 0
      {
        FilterMembership(products, InCategory(filter), p);
        FilterCount(products, InCategory(filter), p);
      }
    }
  }

  lemma {:induction false} SubsequenceReflexive<T>(s: seq<T>)
    ensures Subsequence(s, s)
    decreases |s|
  {
    if s != [] {
      SubsequenceReflexive(s[1..]);
    }
  }

  datatype SortOrder = PriceAsc | PriceDesc | NameDesc | NameAsc

  /** The comparator's switch: an unrecognised key sorts like "name-asc". */
  function ParseSort(sort: string): (o: SortOrder)
    ensures o == PriceAsc <==> sort == "price-asc"
    ensures o == PriceDesc <==> sort == "price-desc"
    ensures o == NameDesc <==> sort == "name-desc"
    ensures o == NameAsc <==> sort != "price-asc" && sort != "price-desc" && sort != "name-desc"
  {
    if sort == "price-asc" then PriceAsc
    else if sort == "price-desc" then PriceDesc
    else if sort == "name-desc" then NameDesc
    else NameAsc
  }

  /** Lexicographic order on code points, standing for localeCompare(a, b) <= 0. */
  predicate NameLe(a: string, b: string)
    decreases |a|
  {
    a == [] || (b != [] && (a[0] < b[0] || (a[0] == b[0] && NameLe(a[1..], b[1..]))))
  }

  lemma {:induction false} NameLeTotal(a: string, b: string)
    ensures NameLe(a, b) || NameLe(b, a)
    decreases |a|
  {
    if a != [] && b != [] && a[0] == b[0] {
      NameLeTotal(a[1..], b[1..]);
    }
  }

  lemma {:induction false} NameLeTransitive(a: string, b: string, c: string)
    requires NameLe(a, b) && NameLe(b, c)
    ensures NameLe(a, c)
    decreases |a|
  {
    if a != [] && a[0] == b[0] && b[0] == c[0] {
      NameLeTransitive(a[1..], b[1..], c[1..]);
    }
  }

  /** a may come before b: the comparator returns a value of at most 0. */
  predicate InOrder(o: SortOrder, a: Product, b: Product)
  {
    match o
    case PriceAsc => a.price <= b.price
    case PriceDesc => b.price <= a.price
    case NameDesc => NameLe(b.name, a.name)
    case NameAsc => NameLe(a.name, b.name)
  }

  lemma InOrderTotal(o: SortOrder, a: Product, b: Product)
    ensures InOrder(o, a, b) || InOrder(o, b, a)
  {
    NameLeTotal(a.name, b.name);
  }

  lemma InOrderTransitive(o: SortOrder, a: Product, b: Product, c: Product)
    requires InOrder(o, a, b) && InOrder(o, b, c)
    ensures InOrder(o, a, c)
  {
    match o
    case NameDesc => NameLeTransitive(c.name, b.name, a.name);
    case NameAsc => NameLeTransitive(a.name, b.name, c.name);
    case _ =>
  }

  /** Each product may come before the next one. */
  predicate Sorted(o: SortOrder, s: seq<Product>)
  {
    forall k :: 0 < k < |s| ==> InOrder(o, s[k - 1], s[k])
  }

  /** A sorted list is ordered between any two positions, not only
      neighbouring ones: nondecreasing price for "price-asc", nonincreasing for
      "price-desc", descending names for "name-desc", ascending otherwise. */
  lemma {:induction false} SortedPairwise(o: SortOrder, s: seq<Product>, i: nat, j: nat)
    requires Sorted(o, s) && i < j < |s|
    ensures InOrder(o, s[i], s[j])
    decreases j - i
  {
    if i + 1 < j {
      SortedPairwise(o, s, i + 1, j);
      InOrderTransitive(o, s[i], s[i + 1], s[j]);
    }
  }

  method Swap(a: array<Product>, i: nat, j: nat)
    requires i < a.Length && j < a.Length
    modifies a
    ensures a[..] == old(a[..])[i := old(a[j])][j := old(a[i])]
    ensures multiset(a[..]) == multiset(old(a[..]))
  {
    a[i], a[j] := a[j], a[i];
  }

  /** `result.sort(comparator)` on the copied array: insertion sort by
      neighbour swaps. */
  method SortInPlace(a: array<Product>, o: SortOrder)
    modifies a
    ensures Sorted(o, a[..])
    ensures multiset(a[..]) == multiset(old(a[..]))
  {
    var i := 0;
    while i < a.Length
      invariant 0 <= i <= a.Length
      invariant Sorted(o, a[..i])
      invariant multiset(a[..]) == multiset(old(a[..]))
    {
      var j := i;
      while j > 0 && !InOrder(o, a[j - 1], a[j])
        invariant 0 <= j <= i
        invariant forall k :: 0 < k <= i && k != j ==> InOrder(o, a[k - 1], a[k])
        invariant 0 < j < i ==> InOrder(o, a[j - 1], a[j + 1])
        invariant multiset(a[..]) == multiset(old(a[..]))
      {
        InOrderTotal(o, a[j - 1], a[j]);
        Swap(a, j - 1, j);
        j := j - 1;
      }
      i := i + 1;
    }
  }

  /** filteredAndSortedProducts: a sorted permutation of the filtered
      products; the products passed in are a value and are never changed. */
  method FilteredAndSortedProducts(products: seq<Product>, filter: string, sort: string)
    returns (result: seq<Product>)
    ensures multiset(result) == multiset(FilterByCategory(products, filter))
    ensures Sorted(ParseSort(sort), result)
    ensures forall i, j :: 0 <= i < j < |result| ==> InOrder(ParseSort(sort), result[i], result[j])
  {
    var filtered := FilterByCategory(products, filter);
    var a := new Product[|filtered|](i requires 0 <= i < |filtered| => filtered[i]);
    assert a[..] == filtered;
    SortInPlace(a, ParseSort(sort));
    result := a[..];
    forall i, j | 0 <= i < j < |result| ensures InOrder(ParseSort(sort), result[i], result[j]) {
      SortedPairwise(ParseSort(sort), result, i, j);
    }
  }

  /** Clicking a card opens that product's view. */
  method ViewDetails(app: AppState, product: Product)
    requires app.Valid()
    modifies app
    ensures app.Valid() && app.view == ProductView(product.id)
    ensures app.cart == old(app.cart) && app.isCartOpen == old(app.isCartOpen) && app.toast == old(app.toast)
    ensures app.session == old(app.session) && app.loading == old(app.loading)
    ensures app.farms == old(app.farms) && app.products == old(app.products)
  {
    app.SetView(ProductView(product.id));
  }

  /** The card's "+" adds one of the product. */
  method QuickAdd(app: AppState, product: Product)
    requires app.Valid()
    modifies app
    ensures app.Valid()
    ensures app.cart == CartStore.AddLine(old(app.cart), product, 1)
    ensures Totals.ItemCount(app.cart) == old(Totals.ItemCount(app.cart)) + 1
    ensures app.isCartOpen && app.toast == Some(AddedToCartToast(product))
    ensures app.view == old(app.view) && app.session == old(app.session) && app.loading == old(app.loading)
    ensures app.farms == old(app.farms) && app.products == old(app.products)
  {
    app.AddToCart(product, 1);
  }
}
