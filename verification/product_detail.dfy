/**
 * The product page of src/pages/ProductDetailPage.jsx: loading the product,
 * the 1..5 quantity selector, the signed-in guard and loop of its add-to-cart
 * button, the discount it displays and its image list.
 */
module ProductDetail {
  import opened Wrappers
  import opened Entities
  import opened Storage
  import opened Cart
  import opened Products

  /** The options of the quantity selector. */
  const QuantityOptions: seq<int> := [1, 2, 3, 4, 5]

  /** The items after `n` consecutive ADD_TO_CART actions for `p`. */
  function AddedTimes(items: seq<LineItem>, p: Product, n: int): seq<LineItem>
    decreases n
  {
    if n <= 0 then items else AddItem(AddedTimes(items, p, n - 1), p)
  }

  /** Every line with the id gets `n` more. */
  function IncreaseLines(items: seq<LineItem>, id: int, n: int): (r: seq<LineItem>)
    ensures |r| == |items|
    ensures forall i :: 0 <= i < |items| ==> LineId(r[i]) == LineId(items[i])
  {
    seq(|items|, i requires 0 <= i < |items| =>
      if LineId(items[i]) == id then items[i].(quantity := items[i].quantity + n) else items[i])
  }

  /** For a product that already has a line, `n` adds raise every line with its id by `n`. */
  lemma {:induction false} AddedTimesExisting(items: seq<LineItem>, p: Product, n: int)
    requires HasLine(items, p.id) && n >= 0
    ensures AddedTimes(items, p, n) == IncreaseLines(items, p.id, n)
  {
    if n == 0 {
      assert IncreaseLines(items, p.id, 0) == items;
    } else {
      AddedTimesExisting(items, p, n - 1);
      IncreaseStep(items, p.id, n);
      assert AddedTimes(items, p, n) == AddItem(IncreaseLines(items, p.id, n - 1), p);
    }
  }

  /** One more ADD_TO_CART on lines already raised by `n - 1` raises them by `n`. */
  lemma IncreaseStep(items: seq<LineItem>, id: int, n: int)
    requires HasLine(items, id)
    ensures FindLine(IncreaseLines(items, id, n - 1), id).Some?
    ensures IncrementLine(IncreaseLines(items, id, n - 1), id) == IncreaseLines(items, id, n)
  {
    var prev := IncreaseLines(items, id, n - 1);
    var next := IncreaseLines(items, id, n);
    var k :| 0 <= k < |items| && LineId(items[k]) == id;
    assert LineId(prev[k]) == id;
    var r := IncrementLine(prev, id);
    forall i | 0 <= i < |items| ensures r[i] == next[i] {
      if LineId(items[i]) == id {
        assert prev[i] == items[i].(quantity := items[i].quantity + (n - 1));
      } else {
        assert prev[i] == items[i];
      }
    }
  }

  /** For a product without a line, `n` adds, `n` at least one, append a single line with quantity `n`. */
  lemma {:induction false} AddedTimesAbsent(items: seq<LineItem>, p: Product, n: int)
    requires !HasLine(items, p.id) && n >= 1
    ensures AddedTimes(items, p, n) == items + [LineItem(p, n)]
  {
    if n > 1 {
      AddedTimesAbsent(items, p, n - 1);
      var prev := items + [LineItem(p, n - 1)];
      var next := items + [LineItem(p, n)];
      assert LineId(prev[|items|]) == p.id;
      assert FindLine(prev, p.id).Some?;
      var r := IncrementLine(prev, p.id);
      forall i | 0 <= i < |prev| ensures r[i] == next[i] {
        if i < |items| {
          assert prev[i] == items[i] && LineId(items[i]) != p.id;
        }
      }
      assert AddedTimes(items, p, n) == AddItem(prev, p) == r == next;
    }
  }

  /** The reducer's ADD_TO_CART after `i` adds gives the state after `i + 1` adds. */
  lemma AddOneMore(s: CartState, p: Product, i: int)
    requires i >= 0
    ensures CartReduce(s.(items := AddedTimes(s.items, p, i)), CartAction.AddToCart(p))
         == s.(items := AddedTimes(s.items, p, i + 1))
  {
    assert AddedTimes(s.items, p, i + 1) == AddItem(AddedTimes(s.items, p, i), p);
  }

  /** With one line per id, raising the lines with an id raises exactly the one line. */
  lemma IncreaseOneLine(items: seq<LineItem>, id: int, n: int, k: int)
    requires UniqueIds(items)
    requires 0 <= k < |items| && LineId(items[k]) == id
    ensures IncreaseLines(items, id, n) == items[k := items[k].(quantity := items[k].quantity + n)]
  {
  }

  /**
   * Adding a product `n` times raises its line's quantity by exactly `n`, or,
   * when it has no line yet, appends one line with quantity `n`; the rest of
   * the cart is untouched.
   */
  lemma AddRepeatedlyEffect(s: CartState, p: Product, n: int)
    requires UniqueIds(s.items) && n >= 1
    ensures forall k :: 0 <= k < |s.items| && LineId(s.items[k]) == p.id ==>
              AddedTimes(s.items, p, n) == s.items[k := s.items[k].(quantity := s.items[k].quantity + n)]
    ensures !HasLine(s.items, p.id) ==> AddedTimes(s.items, p, n) == s.items + [LineItem(p, n)]
  {
    forall k | 0 <= k < |s.items| && LineId(s.items[k]) == p.id
      ensures AddedTimes(s.items, p, n) == s.items[k := s.items[k].(quantity := s.items[k].quantity + n)] {
      AddedTimesExisting(s.items, p, n);
      IncreaseOneLine(s.items, p.id, n, k);
    }
    if !HasLine(s.items, p.id) {
      AddedTimesAbsent(s.items, p, n);
    }
  }

  /**
   * `getDiscountPercentage(product)`: a non-zero discount as is; otherwise the
   * rounded percentage between `price / 0.7` and `price`, which is NaN
   * (`None`) for a price of 0.
   */
  function DiscountPercentage(p: Product): (r: Option<real>)
    ensures p.discountPercentage != 0.0 ==> r == Some(p.discountPercentage)
    ensures p.discountPercentage == 0.0 && p.price != 0.0 ==> r == Some(30.0)
    ensures p.discountPercentage == 0.0 && p.price == 0.0 ==> r.None?
  {
    if p.discountPercentage != 0.0 then Some(p.discountPercentage)
    else if p.price == 0.0 then None
    else
      var original := p.price / 0.7;
      var ratio := (original - p.price) / original * 100.0;
      assert original == p.price * 10.0 / 7.0;
      assert original - p.price == original * 0.3;
      assert (original - p.price) / original == 0.3;
      assert ratio == 30.0;
      Some((ratio + 0.5).Floor as real)
  }

  /** `product.images || [product.thumbnail]`: any images array, even an empty one, wins. */
  function DisplayImages(p: Product): (r: seq<Option<string>>)
    ensures p.images.Some? ==> |r| == |p.images.value| && forall i :: 0 <= i < |r| ==> r[i] == Some(p.images.value[i])
    ensures p.images.None? ==> r == [p.thumbnail]
  {
    match p.images
    case Some(images) => seq(|images|, i requires 0 <= i < |images| => Some(images[i]))
    case None => [p.thumbnail]
  }

  /** The page's state: the loaded product and the selected quantity. */
  class DetailPage {
    var product: Option<Product>
    var loading: bool
    var quantity: int

    /** Invariant of the selector: the quantity is always one of its options. */
    predicate Valid()
      reads this
    {
      1 <= quantity <= 5
    }

    constructor ()
      ensures product.None? && loading && quantity == 1 && Valid()
    {
      product, loading, quantity := None, true, 1;
    }

    /**
     * `loadProduct`: the catalog lookup of the route id (local first, then the
     * remote answer). A found product is shown; when there is none the page
     * keeps what it had and asks to go back to the home page.
     */
    method LoadProduct(catalog: Catalog, id: Option<int>, remote: Option<Product>) returns (goHome: bool)
      modifies this
      ensures goHome <==> ProductById(catalog.localProducts, id, remote).None?
      ensures !goHome ==> product == ProductById(catalog.localProducts, id, remote)
      ensures goHome ==> product == old(product)
      ensures !loading && quantity == old(quantity)
    {
      var found := catalog.GetProductById(id, remote);
      goHome := found.None?;
      if found.Some? {
        product := found;
      }
      loading := false;
    }

    /** The selector's `onChange`: the chosen option becomes the quantity. */
    method SelectQuantity(option: int)
      requires 0 <= option < |QuantityOptions|
      modifies this
      ensures quantity == QuantityOptions[option] && product == old(product) && loading == old(loading)
      ensures Valid()
    {
      quantity := QuantityOptions[option];
    }

    /**
     * `handleAddToCart`: signed out, the cart is untouched; signed in, the
     * product is added `quantity` times, one ADD_TO_CART per iteration.
     */
    method HandleAddToCart(cart: CartStore, isAuthenticated: bool)
      requires product.Some? && Valid()
      modifies cart
      ensures !isAuthenticated ==> cart.State() == old(cart.State()) && cart.storage == old(cart.storage)
      ensures isAuthenticated ==>
                && cart.State() == old(cart.State()).(items := AddedTimes(old(cart.items), product.value, quantity))
                && cart.storage == SaveToLocalStorage(old(cart.storage), CartKey, cart.Saved())
    {
      if !isAuthenticated {
        return;
      }
      ghost var start := cart.State();
      var i := 0;
      while i < quantity
        invariant 0 <= i <= quantity
        invariant cart.State() == start.(items := AddedTimes(start.items, product.value, i))
        invariant i == 0 ==> cart.storage == old(cart.storage)
        invariant i > 0 ==> cart.storage == SaveToLocalStorage(old(cart.storage), CartKey, cart.Saved())
      {
        ghost var previous := cart.Saved();
        cart.AddToCart(product.value);
        AddOneMore(start, product.value, i);
        if i > 0 {
          SaveOverwrites(old(cart.storage), CartKey, previous, cart.Saved());
        }
        i := i + 1;
      }
    }
  }
}
