/** The catalog: the rows the two remote queries return, their renaming into
    Farm and Product records, the fixed overrides applied after the fetch,
    and the lookups the views use. */
module Catalog {
  import opened Seqs
  import opened Types

  /** A row of the farms table, with the table's snake_case column names. */
  datatype FarmRow = FarmRow(
    id: int,
    name: string,
    location: string,
    story: string,
    certifications: seq<string>,
    image_url: string,
    cover_image_url: string)

  /** A row of the products table. */
  datatype ProductRow = ProductRow(
    id: int,
    name: string,
    description: string,
    price: int,
    unit: string,
    farm_id: int,
    category: Category,
    image_url: string,
    stock: int)

  /** What a select query gives back: its rows or an error. */
  datatype QueryResult<T> = Rows(data: seq<T>) | QueryError(message: string)

  function ToFarm(row: FarmRow): Farm
  {
    Farm(row.id, row.name, row.location, row.story, row.certifications, row.image_url, row.cover_image_url)
  }

  function ToProduct(row: ProductRow): Product
  {
    Product(row.id, row.name, row.description, row.price, row.unit, row.farm_id, row.category, row.image_url, row.stock)
  }

  /** The fields the fetch overwrites on the farm at one position. */
  datatype FarmOverride = FarmOverride(name: string, location: string, imageUrl: string, coverImageUrl: string)

  const FarmOverrides: seq<FarmOverride> := [
    FarmOverride(
      "Golden Valley Acres",
      "California, USA",
      "https://images.unsplash.com/photo-1560493676-04071c5f467b?q=80&w=800&auto=format&fit=crop",
      "https://images.unsplash.com/photo-1425913502235-e41249b65846?q=80&w=1600&auto=format&fit=crop"),
    FarmOverride(
      "Toscana Fields",
      "Tuscany, Italy",
      "https://images.unsplash.com/photo-1536858974309-96399a19d849?q=80&w=800&auto=format&fit=crop",
      "https://images.unsplash.com/photo-1506012787146-f92b2d7d6d96?q=80&w=1600&auto=format&fit=crop"),
    FarmOverride(
      "Serra do Mar Coffee",
      "Minas Gerais, Brazil",
      "https://images.unsplash.com/photo-1447933601403-0c6688de566e?q=80&w=800&auto=format&fit=crop",
      "https://images.unsplash.com/photo-1511920183353-3c9c9b062c1d?q=80&w=1600&auto=format&fit=crop")
  ]

  /** The object spread `{ ...farm, name, location, imageUrl, coverImageUrl }`. */
  function WithOverride(f: Farm, o: FarmOverride): Farm
  {
    f.(name := o.name, location := o.location, imageUrl := o.imageUrl, coverImageUrl := o.coverImageUrl)
  }

  /** The `farmsData.map(...)` renaming: one farm per row, in row order; the
      two image columns move to their camelCase names and every other field
      is copied. */
  function RenameFarms(rows: seq<FarmRow>): (r: seq<Farm>)
    ensures |r| == |rows|
    ensures forall i :: 0 <= i < |rows| ==>
      r[i].imageUrl == rows[i].image_url && r[i].coverImageUrl == rows[i].cover_image_url
    ensures forall i :: 0 <= i < |rows| ==>
      r[i].id == rows[i].id && r[i].name == rows[i].name && r[i].location == rows[i].location &&
      r[i].story == rows[i].story && r[i].certifications == rows[i].certifications
  {
    seq(|rows|, i requires 0 <= i < |rows| => ToFarm(rows[i]))
  }

  /** The farms list the fetch publishes, position by position: the first
      three farms take the fixed name, location and images but keep their id,
      story and certifications; every later farm is the renamed row. */
  function TransformFarms(rows: seq<FarmRow>): (r: seq<Farm>)
    ensures |r| == |rows|
    ensures forall i :: 0 <= i < |rows| ==>
      r[i].id == rows[i].id && r[i].story == rows[i].story && r[i].certifications == rows[i].certifications
    ensures forall i :: 0 <= i < |rows| && i < 3 ==>
      r[i].name == FarmOverrides[i].name && r[i].location == FarmOverrides[i].location &&
      r[i].imageUrl == FarmOverrides[i].imageUrl && r[i].coverImageUrl == FarmOverrides[i].coverImageUrl
    ensures forall i :: 3 <= i < |rows| ==> r[i] == ToFarm(rows[i])
  {
    seq(|rows|, i requires 0 <= i < |rows| =>
      if i < |FarmOverrides| then WithOverride(ToFarm(rows[i]), FarmOverrides[i]) else ToFarm(rows[i]))
  }

  const ProductImageOverrides: map<string, string> := map[
    "Heirloom Tomatoes" := "https://images.unsplash.com/photo-1615485925575-b0354a73752d?q=80&w=800&auto=format&fit=crop",
    "Rainbow Carrots" := "https://images.unsplash.com/photo-1585375108879-e2ab463df32a?q=80&w=800&auto=format&fit=crop",
    "Organic Strawberries" := "https://images.unsplash.com/photo-1601004890684-d8cbf643f5f2?q=80&w=800&auto=format&fit=crop",
    "Artisanal Cheddar Cheese" := "https://images.unsplash.com/photo-1618164436241-44752046d609?q=80&w=800&auto=format&fit=crop",
    "Artisanal Sourdough" := "https://images.unsplash.com/photo-1589988832945-8145a57a0528?q=80&w=800&auto=format&fit=crop",
    "Pasture-Raised Eggs" := "https://images.unsplash.com/photo-1598965675045-a1df16f27d49?q=80&w=800&auto=format&fit=crop",
    "Wildflower Honey" := "https://images.unsplash.com/photo-1558642452-9d2a7deb7f62?q=80&w=800&auto=format&fit=crop",
    "Gala Apples" := "https://images.unsplash.com/photo-1579613832125-5d34a13ffe2a?q=80&w=800&auto=format&fit=crop"
  ]

  /** The image override as intended: only the names that are keys of the table. */
  function OverrideProductImage(p: Product): (r: Product)
    ensures r == p.(imageUrl := r.imageUrl)
    ensures r.imageUrl == if p.name in ProductImageOverrides then ProductImageOverrides[p.name] else p.imageUrl
  {
    if p.name in ProductImageOverrides then p.(imageUrl := ProductImageOverrides[p.name]) else p
  }

  /** The `productsData.map(...)` renaming: one product per row, in row
      order; `farm_id` and `image_url` move to their camelCase names and
      every other field is copied. */
  function RenameProducts(rows: seq<ProductRow>): (r: seq<Product>)
    ensures |r| == |rows|
    ensures forall i :: 0 <= i < |rows| ==> r[i].farmId == rows[i].farm_id && r[i].imageUrl == rows[i].image_url
    ensures forall i :: 0 <= i < |rows| ==>
      r[i].id == rows[i].id && r[i].name == rows[i].name && r[i].description == rows[i].description &&
      r[i].price == rows[i].price && r[i].unit == rows[i].unit && r[i].category == rows[i].category &&
      r[i].stock == rows[i].stock
  {
    seq(|rows|, i requires 0 <= i < |rows| => ToProduct(rows[i]))
  }

  /** The second `map`, applying the image table to every product: the
      products keep their order and every field but the image, which becomes
      the table's URL exactly for the names the table has. */
  function OverrideImages(products: seq<Product>): (r: seq<Product>)
    ensures |r| == |products|
    ensures forall i :: 0 <= i < |products| ==> r[i] == products[i].(imageUrl := r[i].imageUrl)
    ensures forall i :: 0 <= i < |products| ==>
      r[i].imageUrl == if products[i].name in ProductImageOverrides then ProductImageOverrides[products[i].name] else products[i].imageUrl
  {
    seq(|products|, i requires 0 <= i < |products| => OverrideProductImage(products[i]))
  }

  /** The products list the fetch publishes: the renamed rows, in row order,
      each with its image replaced exactly when its name is a table key. */
  lemma TransformedProducts(rows: seq<ProductRow>)
    ensures |OverrideImages(RenameProducts(rows))| == |rows|
    ensures forall i :: 0 <= i < |rows| ==>
      var p := OverrideImages(RenameProducts(rows))[i];
      p == ToProduct(rows[i]).(imageUrl := p.imageUrl) &&
      p.imageUrl == if rows[i].name in ProductImageOverrides then ProductImageOverrides[rows[i].name] else rows[i].image_url
  {
  }

  // ----- The lookup as written: a plain object indexed by the product name -----

  /** The keys every plain JavaScript object inherits from Object.prototype. */
  const InheritedKeys: set<string> := {
    "constructor", "hasOwnProperty", "isPrototypeOf", "propertyIsEnumerable",
    "toLocaleString", "toString", "valueOf", "__proto__",
    "__defineGetter__", "__defineSetter__", "__lookupGetter__", "__lookupSetter__"
  }

  /** What `productImageOverrides[name]` evaluates to. */
  datatype JsValue = JsString(s: string) | JsInherited(key: string) | JsUndefined

  function LookupOverride(name: string): JsValue
  {
    if name in ProductImageOverrides then JsString(ProductImageOverrides[name])
    else if name in InheritedKeys then JsInherited(name)
    else JsUndefined
  }

  predicate Truthy(v: JsValue)
  {
    match v
    case JsString(s) => s != ""
    case JsInherited(_) => true   // a function or an object
    case JsUndefined => false
  }

  /** The branch of the source's override: the value written into imageUrl,
      or None when the product is kept. */
  function ImageOverrideAsWritten(name: string): Option<JsValue>
  {
    var v := LookupOverride(name);
    if Truthy(v) then Some(v) else None
  }

  /** A product named after an inherited key takes the override branch
      although its name is not in the table, and its image becomes a value
      that is not a string. */
  lemma InheritedNameTakesOverride()
    ensures "toString" !in ProductImageOverrides
    ensures ImageOverrideAsWritten("toString") == Some(JsInherited("toString"))
  {
  }

  /** Off the inherited keys the source's lookup and the intended one agree. */
  lemma OverrideAgreesOffInheritedKeys(p: Product)
    requires p.name !in InheritedKeys
    ensures ImageOverrideAsWritten(p.name).Some? <==> p.name in ProductImageOverrides
    ensures ImageOverrideAsWritten(p.name).Some? ==>
      ImageOverrideAsWritten(p.name) == Some(JsString(OverrideProductImage(p).imageUrl))
  {
    if p.name in ProductImageOverrides {
      assert ProductImageOverrides[p.name] != "";
    }
  }

  // ----- Lookups the views use -----

  function FarmWithId(id: int): Farm -> bool { (f: Farm) => f.id == id }

  function ProductWithId(id: int): Product -> bool { (p: Product) => p.id == id }

  function OfFarm(farmId: int): Product -> bool { (p: Product) => p.farmId == farmId }

  /** f is the farm at some position i with the id, and no farm before i has it. */
  predicate FirstFarmWithId(farms: seq<Farm>, id: int, f: Farm)
  {
    exists i :: 0 <= i < |farms| && farms[i] == f && f.id == id &&
      forall j :: 0 <= j < i ==> farms[j].id != id
  }

  /** p is the product at some position i with the id, and no product before i has it. */
  predicate FirstProductWithId(products: seq<Product>, id: int, p: Product)
  {
    exists i :: 0 <= i < |products| && products[i] == p && p.id == id &&
      forall j :: 0 <= j < i ==> products[j].id != id
  }

  /** `farms.find(f => f.id === id)`: nothing exactly when no farm has the
      id, otherwise the first farm that has it. */
  function FindFarm(farms: seq<Farm>, id: int): (r: Option<Farm>)
    ensures r.None? <==> forall i :: 0 <= i < |farms| ==> farms[i].id != id
    ensures r.Some? ==> r.value in farms && r.value.id == id && FirstFarmWithId(farms, id, r.value)
  {
    var k := FindIndex(farms, FarmWithId(id));
    var r := Find(farms, FarmWithId(id));
    assert r.None? <==> forall i :: 0 <= i < |farms| ==> !FarmWithId(id)(farms[i]);
    if k.Some? then
      assert r == Some(farms[k.value]);
      assert forall j :: 0 <= j < k.value ==> !FarmWithId(id)(farms[j]);
      r
    else r
  }

  /** `products.find(p => p.id === id)`: nothing exactly when no product has
      the id, otherwise the first product that has it. */
  function FindProduct(products: seq<Product>, id: int): (r: Option<Product>)
    ensures r.None? <==> forall i :: 0 <= i < |products| ==> products[i].id != id
    ensures r.Some? ==> r.value in products && r.value.id == id && FirstProductWithId(products, id, r.value)
  {
    var k := FindIndex(products, ProductWithId(id));
    var r := Find(products, ProductWithId(id));
    assert r.None? <==> forall i :: 0 <= i < |products| ==> !ProductWithId(id)(products[i]);
    if k.Some? then
      assert r == Some(products[k.value]);
      assert forall j :: 0 <= j < k.value ==> !ProductWithId(id)(products[j]);
      r
    else r
  }

  /** `products.filter(p => p.farmId === farmId)`: exactly the farm's
      products, in catalog order. */
  function FarmProducts(products: seq<Product>, farmId: int): (r: seq<Product>)
    ensures forall p :: p in r <==> p in products && p.farmId == farmId
    ensures Subsequence(r, products)
    ensures forall p :: multiset(r)[p] == if p.farmId == farmId then multiset(products)[p] else 0
  {
    FilterIsSubsequence(products, OfFarm(farmId));
    forall p
      ensures (p in Filter(products, OfFarm(farmId)) <==> p in products && p.farmId == farmId)
      ensures multiset(Filter(products, OfFarm(farmId)))[p] == if p.farmId == farmId then multiset(products)[p] else 0
    {
      FilterMembership(products, OfFarm(farmId), p);
      FilterCount(products, OfFarm(farmId), p);
    }
    Filter(products, OfFarm(farmId))
  }
}
