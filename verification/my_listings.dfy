/**
 * The seller's page of src/pages/MyListings.jsx: its copy of the signed-in
 * user's local products, the activate/deactivate toggle and the delete
 * button (both applied to the catalog and to the copy), and the summary
 * figures. The confirmation dialog's answer is a parameter.
 */
module MyListings {
  import opened Wrappers
  import opened Seqs
  import opened Entities
  import opened Storage
  import opened Products

  /** `{...product, stock: product.stock > 0 ? 0 : 1}`. */
  function Toggle(p: Product): (r: Product)
    ensures p.stock > 0 ==> r.stock == 0
    ensures p.stock <= 0 ==> r.stock == 1
    ensures r.(stock := p.stock) == p
  {
    p.(stock := if p.stock > 0 then 0 else 1)
  }

  /** A toggle always flips the listing between active and inactive. */
  lemma ToggleFlipsActive(p: Product)
    ensures Toggle(p).stock > 0 <==> !(p.stock > 0)
    ensures Toggle(Toggle(p)).stock > 0 <==> p.stock > 0
  {
  }

  /**
   * In the catalog a toggle sends the whole toggled listing as the update. When
   * the catalog's entry is the listing itself, the merged product is the
   * toggled listing with a fresh `updatedAt`, and since the id is unchanged the
   * stored list and the in-memory list agree.
   */
  lemma ToggleInCatalog(ps: seq<Product>, k: int, nowIso: string)
    requires 0 <= k < |ps|
    ensures UpdatedProduct(ps[k], PatchOf(Toggle(ps[k])), nowIso) == Toggle(ps[k]).(updatedAt := Some(nowIso))
    ensures var updated := UpdatedProduct(ps[k], PatchOf(Toggle(ps[k])), nowIso);
      ReplaceById(ps, ps[k].id, updated) == ReplaceById(ps, updated.id, updated)
  {
  }

  /** The Active figure: listings with positive stock. */
  function ActiveCount(ps: seq<Product>): nat
  {
    |Filter(ps, (p: Product) => p.stock > 0)|
  }

  /** The Sold Out figure: listings with stock exactly 0. */
  function SoldOutCount(ps: seq<Product>): nat
  {
    |Filter(ps, (p: Product) => p.stock == 0)|
  }

  /** The Total Value figure: the sum of the listings' prices. */
  function TotalValue(ps: seq<Product>): real
  {
    SumReal(ps, (p: Product) => p.price)
  }

  /** With no negative stock every listing is counted as exactly one of Active and Sold Out. */
  lemma {:induction false} ActivePlusSoldOut(ps: seq<Product>)
    requires forall i :: 0 <= i < |ps| ==> ps[i].stock >= 0
    ensures ActiveCount(ps) + SoldOutCount(ps) == |ps|
  {
    if ps != [] {
      ActivePlusSoldOut(ps[1..]);
    }
  }

  /** Toggling never changes prices, so the Total Value of the page's copy stays the same. */
  lemma {:induction false} ToggleKeepsTotalValue(ps: seq<Product>, p: Product)
    requires forall i :: 0 <= i < |ps| && ps[i].id == p.id ==> ps[i].price == p.price
    ensures TotalValue(ReplaceById(ps, p.id, Toggle(p))) == TotalValue(ps)
  {
    if ps != [] {
      ToggleKeepsTotalValue(ps[1..], p);
      var r := ReplaceById(ps, p.id, Toggle(p));
      assert r[1..] == ReplaceById(ps[1..], p.id, Toggle(p));
      assert r[0].price == ps[0].price;
    }
  }

  /** The page's state: its copy of the user's listings and its loading flag. */
  class ListingsPage {
    var myProducts: seq<Product>
    var loading: bool

    constructor ()
      ensures myProducts == [] && loading
    {
      myProducts, loading := [], true;
    }

    /** The effect on the signed-in user: the copy becomes the user's local products. Signed out, nothing happens. */
    method Refresh(catalog: Catalog, user: Option<User>)
      modifies this
      ensures user.Some? ==> myProducts == UserProducts(catalog.localProducts, user.value.id) && !loading
      ensures user.None? ==> myProducts == old(myProducts) && loading == old(loading)
    {
      if user.Some? {
        myProducts := catalog.GetUserProducts(user.value.id);
        loading := false;
      }
    }

    /** `handleDeleteProduct(productId)`: once confirmed, the listing goes from the catalog and from the copy. */
    method HandleDeleteProduct(catalog: Catalog, productId: int, confirmed: bool)
      modifies this, catalog
      ensures !confirmed ==> myProducts == old(myProducts) && catalog.State() == old(catalog.State())
                             && catalog.storage == old(catalog.storage)
      ensures confirmed ==>
                && myProducts == RemoveById(old(myProducts), productId)
                && catalog.State() == old(catalog.State()).(localProducts := RemoveById(old(catalog.localProducts), productId))
                && catalog.storage == SaveToLocalStorage(old(catalog.storage), LocalProductsKey, catalog.localProducts)
      ensures loading == old(loading)
    {
      if confirmed {
        catalog.DeleteProduct(productId);
        myProducts := RemoveById(myProducts, productId);
      }
    }

    /**
     * `handleToggleStatus(product)`: the catalog updates the listing with the
     * toggled copy, and the page's copy replaces every entry with its id by
     * the toggled copy (without the catalog's fresh `updatedAt`).
     */
    method HandleToggleStatus(catalog: Catalog, product: Product, nowIso: string) returns (r: Option<Product>)
      modifies this, catalog
      ensures myProducts == ReplaceById(old(myProducts), product.id, Toggle(product))
      ensures FindLocal(old(catalog.localProducts), Some(product.id)).None? ==>
                r.None? && catalog.State() == old(catalog.State()) && catalog.storage == old(catalog.storage)
      ensures FindLocal(old(catalog.localProducts), Some(product.id)).Some? ==>
                var updated := UpdatedProduct(FindLocal(old(catalog.localProducts), Some(product.id)).value,
                                              PatchOf(Toggle(product)), nowIso);
                && r == Some(updated)
                && updated.id == product.id && updated.stock == Toggle(product).stock
                && catalog.State() == old(catalog.State()).(localProducts := ReplaceById(old(catalog.localProducts), product.id, updated))
                && catalog.storage == SaveToLocalStorage(old(catalog.storage), LocalProductsKey, catalog.localProducts)
      ensures loading == old(loading)
    {
      var toggled := Toggle(product);
      r := catalog.UpdateProduct(product.id, PatchOf(toggled), nowIso);
      myProducts := ReplaceById(myProducts, product.id, toggled);
    }
  }
}
