/**
 * The browsing logic of src/pages/Home.jsx: the search and category filter the
 * page applies to the merged product view, and the visibility condition of
 * the Load More button. Lower-casing is the parameter `lower`.
 */
module Home {
  import opened Wrappers
  import opened Seqs
  import opened Text
  import opened Entities
  import opened Products

  /** `product.field?.toLowerCase().includes(q.toLowerCase())`: a missing field gives no match. */
  predicate FieldContains(field: Option<string>, q: string, lower: string -> string)
  {
    field.Some? && Includes(lower(field.value), lower(q))
  }

  /** `matchesSearch`: an empty query matches everything, otherwise the title or the description must contain it. */
  predicate MatchesSearch(p: Product, searchQuery: string, lower: string -> string)
  {
    searchQuery == "" || FieldContains(p.title, searchQuery, lower) || FieldContains(p.description, searchQuery, lower)
  }

  /** `matchesCategory`: "all" matches everything, otherwise the product's category must contain the selection. */
  predicate MatchesCategory(p: Product, selectedCategory: string, lower: string -> string)
  {
    selectedCategory == "all" || FieldContains(p.category, selectedCategory, lower)
  }

  predicate Shown(p: Product, searchQuery: string, selectedCategory: string, lower: string -> string)
  {
    MatchesSearch(p, searchQuery, lower) && MatchesCategory(p, selectedCategory, lower)
  }

  /** `filteredProducts` over a product view. */
  function FilteredProducts(all: seq<Product>, searchQuery: string, selectedCategory: string,
                            lower: string -> string): seq<Product>
  {
    Filter(all, (p: Product) => Shown(p, searchQuery, selectedCategory, lower))
  }

  /** A product is shown exactly when it is in the view and matches both the search and the category. */
  lemma FilteredMembership(all: seq<Product>, searchQuery: string, selectedCategory: string, lower: string -> string)
    ensures forall p :: (p in FilteredProducts(all, searchQuery, selectedCategory, lower)) <==>
                          (p in all && MatchesSearch(p, searchQuery, lower) && MatchesCategory(p, selectedCategory, lower))
  {
    forall p ensures p in FilteredProducts(all, searchQuery, selectedCategory, lower)
                     <==> p in all && Shown(p, searchQuery, selectedCategory, lower) {
      FilterMembership(all, (p: Product) => Shown(p, searchQuery, selectedCategory, lower), p);
    }
  }

  /**
   * Over the merged view (local products first) the page shows the shown
   * local products, then the shown remote ones, each in its list's order.
   */
  lemma FilteredKeepsOrder(local: seq<Product>, remote: seq<Product>, searchQuery: string,
                           selectedCategory: string, lower: string -> string)
    ensures FilteredProducts(local + remote, searchQuery, selectedCategory, lower)
         == FilteredProducts(local, searchQuery, selectedCategory, lower)
            + FilteredProducts(remote, searchQuery, selectedCategory, lower)
  {
    FilterAppend(local, remote, (p: Product) => Shown(p, searchQuery, selectedCategory, lower));
  }

  /** With the default empty query and the "all" category the page shows the whole view unchanged. */
  lemma DefaultsShowEverything(all: seq<Product>, lower: string -> string)
    ensures FilteredProducts(all, "", "all", lower) == all
  {
    FilterKeepsAll(all, (p: Product) => Shown(p, "", "all", lower));
  }

  /**
   * A non-empty query matches exactly when the lower-cased query occurs at
   * some position of the lower-cased title or of the lower-cased description;
   * a missing field contributes nothing.
   */
  lemma SearchIsSubstring(p: Product, searchQuery: string, lower: string -> string)
    requires searchQuery != ""
    ensures MatchesSearch(p, searchQuery, lower) <==>
              (p.title.Some? && exists i :: OccursAt(lower(p.title.value), lower(searchQuery), i))
              || (p.description.Some? && exists i :: OccursAt(lower(p.description.value), lower(searchQuery), i))
    ensures p.title.None? && p.description.None? ==> !MatchesSearch(p, searchQuery, lower)
  {
    if p.title.Some? {
      IncludesIffOccurs(lower(p.title.value), lower(searchQuery));
    }
    if p.description.Some? {
      IncludesIffOccurs(lower(p.description.value), lower(searchQuery));
    }
  }

  /** A category other than "all" matches exactly when the lower-cased selection occurs in the lower-cased category. */
  lemma CategoryIsSubstring(p: Product, selectedCategory: string, lower: string -> string)
    requires selectedCategory != "all"
    ensures MatchesCategory(p, selectedCategory, lower) <==>
              p.category.Some? && exists i :: OccursAt(lower(p.category.value), lower(selectedCategory), i)
  {
    if p.category.Some? {
      IncludesIffOccurs(lower(p.category.value), lower(selectedCategory));
    }
  }

  /** The Load More button: some product is shown and the catalog's load-more guard holds. */
  predicate ShowLoadMore(filtered: seq<Product>, pg: Pagination)
  {
    |filtered| > 0 && pg.skip + pg.limit < pg.total
  }

  /**
   * The button is visible only when pressing it fetches (the guard of
   * `loadMoreProducts`), and is hidden whenever nothing is shown.
   */
  lemma LoadMoreButtonGuard(filtered: seq<Product>, pg: Pagination)
    ensures ShowLoadMore(filtered, pg) <==> filtered != [] && CanLoadMore(pg)
  {
  }
}
