/**
 * The product catalog store of src/context/ProductContext.jsx: remote products
 * with a pagination cursor and search/category filters, and locally authored
 * products written through to local storage. Fetched responses and the clock
 * are inputs; each asynchronous intent runs as one sequential step.
 */
module Products {
  import opened Wrappers
  import opened Seqs
  import opened Entities
  import opened Storage
  import opened DummyData

  /** The remote fetch window. */
  datatype Pagination = Pagination(skip: int, limit: int, total: int)

  datatype ProductState = ProductState(
    products: seq<Product>,
    localProducts: seq<Product>,
    categories: seq<string>,
    loading: bool,
    error: Option<string>,
    searchQuery: string,
    selectedCategory: string,
    pagination: Pagination)

  datatype ProductAction =
    | SetLoading(loading: bool)
    | SetProducts(products: seq<Product>)
    | AppendProducts(products: seq<Product>)
    | SetCategories(categories: seq<string>)
    | SetSearchQuery(query: string)
    | SetSelectedCategory(category: string)
    | SetPagination(pagination: Pagination)
    | AddProduct(product: Product)
    | UpdateProduct(product: Product)
    | DeleteProduct(productId: int)
    | SetLocalProducts(products: seq<Product>)
    | SetError(error: Option<string>)

  const LocalProductsKey := "ecofinds_local_products"
  const PageSize := 20

  const InitialProducts := ProductState([], [], [], false, None, "", "all", Pagination(0, PageSize, 0))

  /** `list.map(p => p.id === id ? updated : p)`. */
  function ReplaceById(ps: seq<Product>, id: int, updated: Product): (r: seq<Product>)
  {
    seq(|ps|, i requires 0 <= i < |ps| => if ps[i].id == id then updated else ps[i])
  }

  /** `list.filter(p => p.id !== id)`. */
  function RemoveById(ps: seq<Product>, id: int): seq<Product>
  {
    Filter(ps, (p: Product) => p.id != id)
  }

  /** `productReducer`. */
  function ProductReduce(s: ProductState, a: ProductAction): ProductState
  {
    match a
    case SetLoading(b) => s.(loading := b)
    case SetProducts(ps) => s.(products := ps, loading := false)
    case AppendProducts(ps) => s.(products := s.products + ps, loading := false)
    case SetCategories(cs) => s.(categories := cs)
    case SetSearchQuery(q) => s.(searchQuery := q)
    case SetSelectedCategory(c) => s.(selectedCategory := c)
    case SetPagination(pg) => s.(pagination := pg)
    case AddProduct(p) => s.(localProducts := [p] + s.localProducts)
    case UpdateProduct(p) => s.(localProducts := ReplaceById(s.localProducts, p.id, p))
    case DeleteProduct(id) => s.(localProducts := RemoveById(s.localProducts, id))
    case SetLocalProducts(ps) => s.(localProducts := ps)
    case SetError(e) => s.(error := e, loading := false)
  }

  /** The state after the dispatches of `loadProducts` once the response has arrived. */
  function AfterLoad(s: ProductState, data: Page, append: bool): ProductState
  {
    var s1 := ProductReduce(s, SetLoading(true));
    var s2 := ProductReduce(s1, SetError(None));
    var s3 := ProductReduce(s2, if append then AppendProducts(data.products) else SetProducts(data.products));
    ProductReduce(s3, SetPagination(Pagination(data.skip, data.limit, data.total)))
  }

  /**
   * A load appends the fetched products (append) or replaces the list with
   * them, clears loading and the error, takes the response's cursor, and
   * leaves the local list, categories and filters alone.
   */
  lemma LoadOutcome(s: ProductState, data: Page, append: bool)
    ensures var r := AfterLoad(s, data, append);
      && r.products == (if append then s.products + data.products else data.products)
      && !r.loading && r.error.None?
      && r.pagination == Pagination(data.skip, data.limit, data.total)
      && r.localProducts == s.localProducts && r.categories == s.categories
      && r.searchQuery == s.searchQuery && r.selectedCategory == s.selectedCategory
  {
  }

  /** The guard of `loadMoreProducts` (and of the Load More button). */
  predicate CanLoadMore(pg: Pagination)
  {
    pg.skip + pg.limit < pg.total
  }

  /** At skip 20, limit 20 and total 35 nothing more is loaded; after a failed fetch neither; from skip 0 more is. */
  lemma LoadMoreStops()
    ensures !CanLoadMore(Pagination(20, 20, 35))
    ensures !CanLoadMore(Pagination(FailedPage.skip, FailedPage.limit, FailedPage.total))
    ensures CanLoadMore(Pagination(0, 20, 35))
  {
  }

  /** The local product `addProduct` creates: `{id: now, ...data, userId, createdAt, updatedAt}`. */
  function NewLocalProduct(data: ProductPatch, userId: int, now: int, nowIso: string): (p: Product)
    ensures p.userId == Some(userId)
    ensures p.createdAt == p.updatedAt == Some(nowIso)
    ensures p.id == data.id.GetOr(now)
    ensures data.title.Some? ==> p.title == data.title
    ensures data.price.Some? ==> p.price == data.price.value
    ensures data.stock.Some? ==> p.stock == data.stock.value
  {
    var blank := Product(now, None, None, 0.0, None, None, None, 0.0, 0,
                         None, None, None, None, None, None, None);
    MergeProduct(blank, data).(userId := Some(userId), createdAt := Some(nowIso), updatedAt := Some(nowIso))
  }

  /** The product `updateProduct` builds: `{...existing, ...updates, updatedAt}`. */
  function UpdatedProduct(existing: Product, updates: ProductPatch, nowIso: string): (p: Product)
    ensures p.updatedAt == Some(nowIso)
    ensures updates.id.None? ==> p.id == existing.id
  {
    MergeProduct(existing, updates).(updatedAt := Some(nowIso))
  }

  /** Replacing by id keeps the length and every entry with another id. */
  lemma ReplaceKeepsOthers(ps: seq<Product>, id: int, updated: Product)
    ensures var r := ReplaceById(ps, id, updated);
      && |r| == |ps|
      && (forall i :: 0 <= i < |ps| && ps[i].id != id ==> r[i] == ps[i])
      && (forall i :: 0 <= i < |ps| && ps[i].id == id ==> r[i] == updated)
  {
  }

  /**
   * The write-through of `updateProduct` replaces by the requested id, the
   * reducer by the id of the merged product. They agree when the updates keep
   * the id; updates that change it leave storage holding something other than
   * the in-memory list.
   */
  lemma UpdateWriteThrough(ps: seq<Product>, id: int, k: int, updates: ProductPatch, nowIso: string)
    requires 0 <= k < |ps| && ps[k].id == id
    ensures var updated := UpdatedProduct(ps[k], updates, nowIso);
      && (updates.id.None? || updates.id == Some(id) ==> ReplaceById(ps, id, updated) == ReplaceById(ps, updated.id, updated))
      && (updates.id.Some? && updates.id != Some(id) && updated != ps[k] ==>
            ReplaceById(ps, id, updated) != ReplaceById(ps, updated.id, updated))
  {
    var updated := UpdatedProduct(ps[k], updates, nowIso);
    if updates.id.Some? && updates.id != Some(id) && updated != ps[k] {
      assert ReplaceById(ps, id, updated)[k] == updated;
      assert ReplaceById(ps, updated.id, updated)[k] == ps[k];
    }
  }

  /** Deleting removes every entry with the id, keeps all others, and keeps their order across any split of the list. */
  lemma DeleteRemovesAll(ps: seq<Product>, id: int)
    ensures forall p :: p in RemoveById(ps, id) <==> p in ps && p.id != id
    ensures forall a, b :: ps == a + b ==> RemoveById(ps, id) == RemoveById(a, id) + RemoveById(b, id)
    ensures (forall i :: 0 <= i < |ps| ==> ps[i].id != id) ==> RemoveById(ps, id) == ps
  {
    var keep := (p: Product) => p.id != id;
    forall p ensures p in RemoveById(ps, id) <==> p in ps && p.id != id {
      FilterMembership(ps, keep, p);
    }
    forall a, b | ps == a + b ensures RemoveById(ps, id) == RemoveById(a, id) + RemoveById(b, id) {
      FilterAppend(a, b, keep);
    }
    if forall i :: 0 <= i < |ps| ==> ps[i].id != id {
      FilterKeepsAll(ps, keep);
    }
  }

  /**
   * `getUserProducts(userId)`: the local products owned by the user, in list
   * order; `userId` is `None` when the caller passes `undefined`.
   */
  function UserProducts(ps: seq<Product>, userId: Option<int>): seq<Product>
  {
    Filter(ps, (p: Product) => p.userId == userId)
  }

  /** A local product is listed for a user exactly when that user owns it, and the listing keeps the list's order. */
  lemma UserProductsMembership(ps: seq<Product>, userId: Option<int>)
    ensures forall p :: p in UserProducts(ps, userId) <==> p in ps && p.userId == userId
    ensures forall a, b :: ps == a + b ==> UserProducts(ps, userId) == UserProducts(a, userId) + UserProducts(b, userId)
  {
    var keep := (p: Product) => p.userId == userId;
    forall p ensures p in UserProducts(ps, userId) <==> p in ps && p.userId == userId {
      FilterMembership(ps, keep, p);
    }
    forall a, b | ps == a + b ensures UserProducts(ps, userId) == UserProducts(a, userId) + UserProducts(b, userId) {
      FilterAppend(a, b, keep);
    }
  }

  /** `localProducts.find(p => p.id === parseInt(id))`; `id` is the parsed id, `None` for NaN. */
  function FindLocal(ps: seq<Product>, id: Option<int>): (r: Option<Product>)
    ensures r.Some? <==> id.Some? && exists i :: 0 <= i < |ps| && ps[i].id == id.value
    ensures r.Some? ==> r.value in ps && r.value.id == id.value
  {
    if id.None? then None else Find(ps, (p: Product) => p.id == id.value)
  }

  /** `getProductById`: a local match first; otherwise the remote lookup, `None` when that fails. */
  function ProductById(ps: seq<Product>, id: Option<int>, remote: Option<Product>): (r: Option<Product>)
    ensures FindLocal(ps, id).Some? ==> r == FindLocal(ps, id)
    ensures FindLocal(ps, id).None? ==> r == FetchProductById(remote)
  {
    match FindLocal(ps, id)
    case Some(p) => Some(p)
    case None => FetchProductById(remote)
  }

  /**
   * A locally added product is found by its id whatever the remote source
   * does, even when it is unreachable, as long as no other local product
   * shares the id.
   */
  lemma LocalFoundWithoutRemote(ps: seq<Product>, p: Product, remote: Option<Product>)
    requires p in ps && forall q :: q in ps && q.id == p.id ==> q == p
    ensures ProductById(ps, Some(p.id), remote) == Some(p)
    ensures ProductById(ps, Some(p.id), remote) == ProductById(ps, Some(p.id), None)
  {
    var found := FindLocal(ps, Some(p.id));
    assert found.Some? && found.value in ps && found.value.id == p.id;
  }

  /** The product `addProduct` has just prepended is such a product when the stored ids were fresh. */
  lemma JustAddedFound(ps: seq<Product>, p: Product, remote: Option<Product>)
    requires forall q :: q in ps ==> q.id != p.id
    ensures ProductById([p] + ps, Some(p.id), remote) == Some(p)
  {
    LocalFoundWithoutRemote([p] + ps, p, remote);
  }

  /** The provider: the reducer's state as fields, and the local-products storage slot. */
  class Catalog {
    var products: seq<Product>
    var localProducts: seq<Product>
    var categories: seq<string>
    var loading: bool
    var error: Option<string>
    var searchQuery: string
    var selectedCategory: string
    var pagination: Pagination
    var storage: map<string, Slot<seq<Product>>>

    function State(): ProductState
      reads this
    {
      ProductState(products, localProducts, categories, loading, error, searchQuery, selectedCategory, pagination)
    }

    /**
     * Mounting: the categories are fetched (the fallback list on failure) and
     * the local products read from storage (`[]` when there are none).
     */
    constructor (stored: map<string, Slot<seq<Product>>>, categoriesResponse: Option<seq<string>>)
      ensures State() == InitialProducts.(categories := FetchCategories(categoriesResponse),
                                          localProducts := GetFromLocalStorage(stored, LocalProductsKey, []))
      ensures storage == stored
    {
      var s := ProductReduce(InitialProducts, SetCategories(FetchCategories(categoriesResponse)));
      s := ProductReduce(s, SetLocalProducts(GetFromLocalStorage(stored, LocalProductsKey, [])));
      products, localProducts, categories := s.products, s.localProducts, s.categories;
      loading, error, searchQuery := s.loading, s.error, s.searchQuery;
      selectedCategory, pagination := s.selectedCategory, s.pagination;
      storage := stored;
    }

    /** `dispatch(action)`. */
    method Dispatch(a: ProductAction)
      modifies this
      ensures State() == ProductReduce(old(State()), a)
      ensures storage == old(storage)
    {
      var s := ProductReduce(State(), a);
      products, localProducts, categories := s.products, s.localProducts, s.categories;
      loading, error, searchQuery := s.loading, s.error, s.searchQuery;
      selectedCategory, pagination := s.selectedCategory, s.pagination;
    }

    /**
     * `loadProducts(query, category, skip, append)`: issues `req` and applies
     * the (category-filtered) response. `response` is what the request
     * returned, `None` when it failed.
     */
    method LoadProducts(query: string, category: string, skip: int, append: bool,
                        response: Option<Page>, lower: string -> string) returns (req: Request)
      modifies this
      ensures req == ProductsRequest(PageSize, skip, query)
      ensures State() == AfterLoad(old(State()), FetchProducts(category, response, lower), append)
      ensures storage == old(storage)
    {
      Dispatch(SetLoading(true));
      Dispatch(SetError(None));
      req := ProductsRequest(PageSize, skip, query);
      var data := FetchProducts(category, response, lower);
      if append {
        Dispatch(AppendProducts(data.products));
      } else {
        Dispatch(SetProducts(data.products));
      }
      Dispatch(SetPagination(Pagination(data.skip, data.limit, data.total)));
    }

    /** `searchProducts(query)`: records the query and reloads from skip 0 with the current category. */
    method SearchProducts(query: string, response: Option<Page>, lower: string -> string) returns (req: Request)
      modifies this
      ensures req == ProductsRequest(PageSize, 0, query)
      ensures State() == AfterLoad(old(State()).(searchQuery := query),
                                   FetchProducts(old(selectedCategory), response, lower), false)
      ensures storage == old(storage)
    {
      Dispatch(SetSearchQuery(query));
      req := LoadProducts(query, selectedCategory, 0, false, response, lower);
    }

    /** `filterByCategory(category)`: records the category and reloads from skip 0 with the current query. */
    method FilterByCategory(category: string, response: Option<Page>, lower: string -> string) returns (req: Request)
      modifies this
      ensures req == ProductsRequest(PageSize, 0, old(searchQuery))
      ensures State() == AfterLoad(old(State()).(selectedCategory := category),
                                   FetchProducts(category, response, lower), false)
      ensures storage == old(storage)
    {
      Dispatch(SetSelectedCategory(category));
      req := LoadProducts(searchQuery, category, 0, false, response, lower);
    }

    /**
     * `loadMoreProducts()`: fetches only while skip + limit < total, from skip
     * + limit, appending, with the current query and category.
     */
    method LoadMoreProducts(response: Option<Page>, lower: string -> string) returns (req: Option<Request>)
      modifies this
      ensures req.Some? <==> CanLoadMore(old(pagination))
      ensures !CanLoadMore(old(pagination)) ==> State() == old(State())
      ensures CanLoadMore(old(pagination)) ==>
                && req == Some(ProductsRequest(PageSize, old(pagination.skip + pagination.limit), old(searchQuery)))
                && State() == AfterLoad(old(State()), FetchProducts(old(selectedCategory), response, lower), true)
      ensures storage == old(storage)
    {
      var nextSkip := pagination.skip + pagination.limit;
      if nextSkip < pagination.total {
        var r := LoadProducts(searchQuery, selectedCategory, nextSkip, true, response, lower);
        req := Some(r);
      } else {
        req := None;
      }
    }

    function GetProductById(id: Option<int>, remote: Option<Product>): Option<Product>
      reads this
    {
      ProductById(localProducts, id, remote)
    }

    /**
     * `addProduct(data, userId)`: prepends the new product and writes the new
     * local list to storage. `userId` is `None` when the caller passes
     * `undefined`, which the default parameter turns into 1.
     */
    method AddProduct(data: ProductPatch, userId: Option<int>, now: int, nowIso: string) returns (p: Product)
      modifies this
      ensures p == NewLocalProduct(data, userId.GetOr(1), now, nowIso)
      ensures State() == old(State()).(localProducts := [p] + old(localProducts))
      ensures storage == SaveToLocalStorage(old(storage), LocalProductsKey, localProducts)
    {
      p := NewLocalProduct(data, userId.GetOr(1), now, nowIso);
      var updatedLocal := [p] + localProducts;
      Dispatch(ProductAction.AddProduct(p));
      storage := SaveToLocalStorage(storage, LocalProductsKey, updatedLocal);
    }

    /**
     * `updateProduct(id, updates)`: `None` and no change when no local product
     * has the id; otherwise the merged product replaces the matches in memory
     * (by its own id) and in storage (by `id`).
     */
    method UpdateProduct(id: int, updates: ProductPatch, nowIso: string) returns (r: Option<Product>)
      modifies this
      ensures FindLocal(old(localProducts), Some(id)).None? ==>
                r.None? && State() == old(State()) && storage == old(storage)
      ensures FindLocal(old(localProducts), Some(id)).Some? ==>
                var updated := UpdatedProduct(FindLocal(old(localProducts), Some(id)).value, updates, nowIso);
                && r == Some(updated)
                && State() == old(State()).(localProducts := ReplaceById(old(localProducts), updated.id, updated))
                && storage == SaveToLocalStorage(old(storage), LocalProductsKey,
                                                 ReplaceById(old(localProducts), id, updated))
    {
      var existing := FindLocal(localProducts, Some(id));
      if existing.None? {
        return None;
      }
      var updated := UpdatedProduct(existing.value, updates, nowIso);
      var written := ReplaceById(localProducts, id, updated);
      Dispatch(ProductAction.UpdateProduct(updated));
      storage := SaveToLocalStorage(storage, LocalProductsKey, written);
      r := Some(updated);
    }

    /** `deleteProduct(id)`: drops every local product with the id, in memory and in storage. */
    method DeleteProduct(id: int)
      modifies this
      ensures State() == old(State()).(localProducts := RemoveById(old(localProducts), id))
      ensures storage == SaveToLocalStorage(old(storage), LocalProductsKey, localProducts)
    {
      Dispatch(ProductAction.DeleteProduct(id));
      storage := SaveToLocalStorage(storage, LocalProductsKey, localProducts);
    }

    function GetUserProducts(userId: Option<int>): seq<Product>
      reads this
    {
      UserProducts(localProducts, userId)
    }

    /** `getAllProducts()`: local products first, then the remote ones. */
    function GetAllProducts(): (r: seq<Product>)
      reads this
      ensures |r| == |localProducts| + |products|
      ensures r[..|localProducts|] == localProducts && r[|localProducts|..] == products
    {
      localProducts + products
    }
  }
}
