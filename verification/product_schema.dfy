/**
 * The product document of the server's product schema: required paths,
 * the category enumeration and the defaults.
 */
module ProductSchema {
  import opened Wrappers

  /** The four categories the schema's enumeration admits. */
  datatype Category = Batter | ReadyToEat | Pickles | Others

  /** The string stored for each category. */
  function CategoryName(c: Category): string {
    match c
    case Batter => "Batter"
    case ReadyToEat => "Ready-to-Eat"
    case Pickles => "Pickles"
    case Others => "Others"
  }

  /** The category a stored string names, if it names one. */
  function ParseCategory(s: string): (r: Option<Category>)
    ensures r.Some? ==> CategoryName(r.value) == s
  {
    if s == "Batter" then Some(Batter)
    else if s == "Ready-to-Eat" then Some(ReadyToEat)
    else if s == "Pickles" then Some(Pickles)
    else if s == "Others" then Some(Others)
    else None
  }

  /** Every category survives being written and read back, and the names are distinct. */
  lemma CategoryRoundTrip(c: Category)
    ensures ParseCategory(CategoryName(c)) == Some(c)
  {
  }

  /** A string is accepted exactly when it is one of the four names. */
  lemma ParseCategoryIff(s: string)
    ensures ParseCategory(s).Some? <==> s in {"Batter", "Ready-to-Eat", "Pickles", "Others"}
  {
  }

  const DefaultCategory := Batter
  const DefaultMaker := "Local Artisan"
  const DefaultInStock := true

  /** A stored product. */
  datatype Product = Product(
    name: string,
    description: string,
    price: int,
    image: string,
    category: Category,
    maker: string,
    inStock: bool,
    createdAt: int)

  /** A product document as submitted; any path may be absent. */
  datatype ProductFields = ProductFields(
    name: Option<string>,
    description: Option<string>,
    price: Option<int>,
    image: Option<string>,
    category: Option<string>,
    maker: Option<string>,
    inStock: Option<bool>,
    createdAt: Option<int>)

  /** The required check on a String path: present and of positive length. */
  predicate HasString(v: Option<string>) {
    v.Some? && |v.value| > 0
  }

  /** The category path passes its enumeration check; an absent one takes the default. */
  predicate CategoryOk(v: Option<string>) {
    v.None? || ParseCategory(v.value).Some?
  }

  predicate Valid(f: ProductFields) {
    && HasString(f.name)
    && HasString(f.description)
    && f.price.Some?
    && HasString(f.image)
    && CategoryOk(f.category)
  }

  /** The paths a save reports as failing validation. */
  function Errors(f: ProductFields): (r: set<string>)
    ensures r == {} <==> Valid(f)
    ensures "category" in r <==> !CategoryOk(f.category)
    ensures "price" in r <==> f.price.None?
    ensures "name" in r <==> !HasString(f.name)
    ensures "description" in r <==> !HasString(f.description)
    ensures "image" in r <==> !HasString(f.image)
    ensures r <= {"name", "description", "price", "image", "category"}
  {
    (if HasString(f.name) then {} else {"name"})
    + (if HasString(f.description) then {} else {"description"})
    + (if f.price.Some? then {} else {"price"})
    + (if HasString(f.image) then {} else {"image"})
    + (if CategoryOk(f.category) then {} else {"category"})
  }

  /** Saving a product document: defaults, then validation, then the stored record. */
  function Create(f: ProductFields, now: int): (r: Result<Product, set<string>>)
    ensures r.Success? <==> Valid(f)
    ensures r.Failure? ==> r.error == Errors(f) && r.error != {}
    ensures r.Success? ==>
      && r.value.name == f.name.value
      && r.value.description == f.description.value
      && r.value.price == f.price.value
      && r.value.image == f.image.value
      && CategoryName(r.value.category) == f.category.GetOr(CategoryName(DefaultCategory))
      && (f.category.None? ==> r.value.category == DefaultCategory)
      && (f.maker.None? ==> r.value.maker == DefaultMaker)
      && (f.maker.Some? ==> r.value.maker == f.maker.value)
      && (f.inStock.None? ==> r.value.inStock == DefaultInStock)
      && (f.inStock.Some? ==> r.value.inStock == f.inStock.value)
      && r.value.createdAt == f.createdAt.GetOr(now)
  {
    var category := f.category.GetOr(CategoryName(DefaultCategory));
    if Errors(f) != {} then Failure(Errors(f))
    else
      Success(Product(
        f.name.value, f.description.value, f.price.value, f.image.value,
        ParseCategory(category).value,
        f.maker.GetOr(DefaultMaker),
        f.inStock.GetOr(DefaultInStock),
        f.createdAt.GetOr(now)))
  }

  /** A category outside the four names is refused, whatever else the document holds. */
  lemma UnknownCategoryRefused(f: ProductFields, now: int)
    requires f.category.Some? && f.category.value !in {"Batter", "Ready-to-Eat", "Pickles", "Others"}
    ensures Create(f, now).Failure? && "category" in Create(f, now).error
  {
    ParseCategoryIff(f.category.value);
  }
}
