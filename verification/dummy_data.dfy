/**
 * The pure parts of src/utils/dummyData.js: the seed user directory, the choice
 * of product endpoint, the client-side category filter and the values the
 * fetch helpers fall back to. A fetched response enters as an `Option`
 * (`None` for a network or HTTP failure); lower-casing and URI encoding are
 * parameters.
 */
module DummyData {
  import opened Wrappers
  import opened Seqs
  import opened Text
  import opened Entities

  const ApiBaseUrl := "https://dummyjson.com"

  /** The fixed directory that login and signup consult. */
  const InitialUsers: seq<User> := [
    User(Some(1), Some("John Doe"), Some("john@example.com"), Some("password123"),
         Some("https://images.unsplash.com/photo-1472099645785-5658abf4ff4e?w=150&h=150&fit=crop&crop=face"),
         Some("+1 (555) 123-4567"), Some("New York, NY"),
         Some("Passionate about sustainable living and finding great deals!")),
    User(Some(2), Some("Jane Smith"), Some("jane@example.com"), Some("password123"),
         Some("https://images.unsplash.com/photo-1494790108755-2616b612b786?w=150&h=150&fit=crop&crop=face"),
         Some("+1 (555) 987-6543"), Some("Los Angeles, CA"),
         Some("Love buying and selling second-hand items to reduce waste."))
  ]

  /** The seed user whose email and password both equal the given ones exactly, if any. */
  function FindSeedUser(email: string, password: string): Option<User>
  {
    Find(InitialUsers, (u: User) => u.email == Some(email) && u.password == Some(password))
  }

  /** The seed user with the given email, if any (`email` is absent when the form lacks it). */
  function FindSeedEmail(email: Option<string>): Option<User>
  {
    Find(InitialUsers, (u: User) => u.email == email)
  }

  /** The seed lookup succeeds exactly when some seed user matches both fields, and returns such a user. */
  lemma SeedLookup(email: string, password: string)
    ensures FindSeedUser(email, password).Some?
        <==> exists i :: 0 <= i < |InitialUsers| && InitialUsers[i].email == Some(email)
                                                 && InitialUsers[i].password == Some(password)
    ensures FindSeedUser(email, password).Some? ==>
              FindSeedUser(email, password).value.email == Some(email)
              && FindSeedUser(email, password).value.password == Some(password)
  {
  }

  /** The request `fetchProducts` issues. */
  datatype Request =
    | ListRequest(limit: int, skip: int)
    | SearchRequest(query: string, limit: int, skip: int)

  /** Endpoint choice: a non-empty search goes to the search endpoint. */
  function ProductsRequest(limit: int, skip: int, search: string): Request
  {
    if search != "" then SearchRequest(search, limit, skip) else ListRequest(limit, skip)
  }

  /** The URL of a request; `encode` is `encodeURIComponent`. */
  function RequestUrl(r: Request, encode: string -> string): string
  {
    match r
    case ListRequest(limit, skip) =>
      ApiBaseUrl + "/products?limit=" + IntToString(limit) + "&skip=" + IntToString(skip)
    case SearchRequest(q, limit, skip) =>
      ApiBaseUrl + "/products/search?q=" + encode(q)
        + "&limit=" + IntToString(limit) + "&skip=" + IntToString(skip)
  }

  /**
   * A non-empty search selects the search endpoint with the encoded query, an
   * empty one the listing endpoint; both end with the same limit and skip.
   */
  lemma RequestUrlShape(limit: int, skip: int, search: string, encode: string -> string)
    ensures var url := RequestUrl(ProductsRequest(limit, skip, search), encode);
      var tail := "&skip=" + IntToString(skip);
      && (search != "" ==> url == ApiBaseUrl + "/products/search?q=" + encode(search)
                                  + "&limit=" + IntToString(limit) + tail)
      && (search == "" ==> url == ApiBaseUrl + "/products?limit=" + IntToString(limit) + tail)
  {
  }

  /** A page of products as the API returns it. */
  datatype Page = Page(products: seq<Product>, total: int, skip: int, limit: int)

  /** What `fetchProducts` returns after any failure. */
  const FailedPage := Page([], 0, 0, 0)

  /** The category filter runs only for a non-empty category other than "all". */
  predicate CategoryFilterApplies(category: string)
  {
    category != "" && category != "all"
  }

  /** `product.category.toLowerCase().includes(category.toLowerCase())`, for a product that has a category. */
  predicate InCategory(p: Product, category: string, lower: string -> string)
  {
    p.category.Some? && Includes(lower(p.category.value), lower(category))
  }

  /**
   * `fetchProducts(limit, skip, search, category)` given the parsed response of
   * the request `ProductsRequest(limit, skip, search)`. Reading the category of
   * a product that has none throws inside the filter, which the helper's catch
   * turns into the failure page.
   */
  function FetchProducts(category: string, response: Option<Page>, lower: string -> string): Page
  {
    match response
    case None => FailedPage
    case Some(data) =>
      if !CategoryFilterApplies(category) then data
      else if exists i :: 0 <= i < |data.products| && data.products[i].category.None? then FailedPage
      else data.(products := Filter(data.products, (p: Product) => InCategory(p, category, lower)))
  }

  /**
   * The category filter keeps exactly the products whose lower-cased category
   * contains the lower-cased filter, in the response's order, and touches
   * nothing else; without an applicable filter the response passes unchanged.
   */
  lemma FetchProductsFilter(category: string, data: Page, lower: string -> string)
    requires CategoryFilterApplies(category) ==>
               forall i :: 0 <= i < |data.products| ==> data.products[i].category.Some?
    ensures var r := FetchProducts(category, Some(data), lower);
      && r.total == data.total && r.skip == data.skip && r.limit == data.limit
      && (!CategoryFilterApplies(category) ==> r == data)
      && (CategoryFilterApplies(category) ==>
            forall p :: p in r.products <==> p in data.products && InCategory(p, category, lower))
  {
    if CategoryFilterApplies(category) {
      forall p ensures p in FetchProducts(category, Some(data), lower).products
                       <==> p in data.products && InCategory(p, category, lower) {
        FilterMembership(data.products, (p: Product) => InCategory(p, category, lower), p);
      }
    }
  }

  /**
   * The filter keeps the response's order: the survivors of a response whose
   * products are `a` followed by `b` are those of `a` followed by those of `b`.
   */
  lemma FetchProductsKeepsOrder(category: string, data: Page, a: seq<Product>, b: seq<Product>,
                                lower: string -> string)
    requires CategoryFilterApplies(category) ==>
               (forall i :: 0 <= i < |a| ==> a[i].category.Some?)
               && (forall i :: 0 <= i < |b| ==> b[i].category.Some?)
    ensures FetchProducts(category, Some(data.(products := a + b)), lower).products
         == FetchProducts(category, Some(data.(products := a)), lower).products
            + FetchProducts(category, Some(data.(products := b)), lower).products
  {
    if CategoryFilterApplies(category) {
      var ab := a + b;
      forall i | 0 <= i < |ab| ensures ab[i].category.Some? {
        if i >= |a| {
          assert ab[i] == b[i - |a|];
        }
      }
      FilterAppend(a, b, (p: Product) => InCategory(p, category, lower));
    }
  }

  /** Any failure yields the empty page, whose cursor no longer allows loading more. */
  lemma FetchFailure(category: string, lower: string -> string)
    ensures FetchProducts(category, None, lower) == Page([], 0, 0, 0)
    ensures !(FailedPage.skip + FailedPage.limit < FailedPage.total)
  {
  }

  /** `fetchProductById(id)`: the fetched product, or `null` when the fetch fails. */
  function FetchProductById(response: Option<Product>): Option<Product>
  {
    response
  }

  /** The slugs `fetchCategories` falls back to. */
  const FallbackCategories: seq<string> := [
    "smartphones", "laptops", "fragrances", "skincare", "groceries",
    "home-decoration", "furniture", "tops", "womens-dresses", "womens-shoes",
    "mens-shirts", "mens-shoes", "mens-watches", "womens-watches", "womens-bags",
    "womens-jewellery", "sunglasses", "automotive", "motorcycle", "lighting"
  ]

  /** `fetchCategories()`: the fetched list, or the fixed fallback list when the fetch fails. */
  function FetchCategories(response: Option<seq<string>>): (r: seq<string>)
    ensures response.None? ==> |r| == 20 && r[0] == "smartphones" && r[19] == "lighting"
    ensures response.Some? ==> r == response.value
  {
    match response
    case Some(cs) => cs
    case None => FallbackCategories
  }
}
