/**
 * The cart and checkout store of src/context/CartContext.jsx: a reducer over
 * line items and purchase history, and the provider that dispatches to it and
 * writes `{items, purchases}` to local storage after every change.
 *
 * `total` and `itemCount` are getters on the initial state object. The first
 * object spread in the reducer evaluates them on the empty initial cart and
 * copies the results, 0 and 0, as plain fields, which every later spread copies
 * again. The state therefore carries them as stored fields; the sums they were
 * meant to compute are `IntendedTotal` and `IntendedItemCount`.
 */
module Cart {
  import opened Wrappers
  import opened Seqs
  import opened Entities
  import opened Storage

  /** A cart line: the product's fields spread into a record with a `quantity`. */
  datatype LineItem = LineItem(product: Product, quantity: int)

  function LineId(it: LineItem): int
  {
    it.product.id
  }

  /** A completed checkout; never changed once recorded. */
  datatype Purchase = Purchase(id: int, items: seq<LineItem>, total: real, date: string, status: string)

  /** The reducer's state, with the frozen `total` and `itemCount` fields. */
  datatype CartState = CartState(items: seq<LineItem>, purchases: seq<Purchase>, total: real, itemCount: int)

  /** What the storage key holds once parsed; a missing field reads as `[]` when loaded. */
  datatype SavedCart = SavedCart(items: Option<seq<LineItem>>, purchases: Option<seq<Purchase>>)

  datatype CartAction =
    | AddToCart(product: Product)
    | RemoveFromCart(productId: int)
    | UpdateQuantity(productId: int, quantity: int)
    | ClearCart
    | Checkout(purchaseId: int, date: string)
    | LoadCart(saved: SavedCart)

  const CartKey := "ecofinds_cart"
  const EmptySavedCart := SavedCart(Some([]), Some([]))

  function LineTotal(it: LineItem): real
  {
    it.product.price * it.quantity as real
  }

  /** What the `total` getter computes: the sum of price times quantity. */
  function IntendedTotal(items: seq<LineItem>): real
  {
    SumReal(items, LineTotal)
  }

  /** What the `itemCount` getter computes: the sum of quantities. */
  function IntendedItemCount(items: seq<LineItem>): int
  {
    if items == [] then 0 else items[0].quantity + IntendedItemCount(items[1..])
  }

  /** The initial state: the getters read on the empty cart give the values every later state copies. */
  const InitialCart := CartState([], [], IntendedTotal([]), IntendedItemCount([]))

  /** `items.find(item => item.id === id)`. */
  function FindLine(items: seq<LineItem>, id: int): Option<LineItem>
  {
    Find(items, (it: LineItem) => LineId(it) == id)
  }

  /** The map of ADD_TO_CART: every line with the id gets one more. */
  function IncrementLine(items: seq<LineItem>, id: int): seq<LineItem>
  {
    seq(|items|, i requires 0 <= i < |items| =>
      if LineId(items[i]) == id then items[i].(quantity := items[i].quantity + 1) else items[i])
  }

  /** The items after ADD_TO_CART: one more of an existing line, or the product appended with quantity 1. */
  function AddItem(items: seq<LineItem>, p: Product): seq<LineItem>
  {
    if FindLine(items, p.id).Some? then IncrementLine(items, p.id) else items + [LineItem(p, 1)]
  }

  /** The map of UPDATE_QUANTITY: every line with the id gets quantity `q`. */
  function SetLineQuantity(items: seq<LineItem>, id: int, q: int): seq<LineItem>
  {
    seq(|items|, i requires 0 <= i < |items| =>
      if LineId(items[i]) == id then items[i].(quantity := q) else items[i])
  }

  function WithoutLine(items: seq<LineItem>, id: int): seq<LineItem>
  {
    Filter(items, (it: LineItem) => LineId(it) != id)
  }

  function PositiveLines(items: seq<LineItem>): seq<LineItem>
  {
    Filter(items, (it: LineItem) => it.quantity > 0)
  }

  /** `cartReducer`. Every case copies `total` and `itemCount` unchanged. */
  function CartReduce(s: CartState, a: CartAction): CartState
  {
    match a
    case AddToCart(p) => s.(items := AddItem(s.items, p))
    case RemoveFromCart(id) => s.(items := WithoutLine(s.items, id))
    case UpdateQuantity(id, q) => s.(items := PositiveLines(SetLineQuantity(s.items, id, q)))
    case ClearCart => s.(items := [])
    case Checkout(pid, date) =>
      s.(items := [], purchases := s.purchases + [Purchase(pid, s.items, s.total, date, "completed")])
    case LoadCart(saved) =>
      s.(items := saved.items.GetOr([]), purchases := saved.purchases.GetOr([]))
  }

  /** At most one line per product id. */
  ghost predicate UniqueIds(items: seq<LineItem>)
  {
    forall i, j :: 0 <= i < j < |items| ==> LineId(items[i]) != LineId(items[j])
  }

  /** No line with a quantity of zero or less. */
  ghost predicate AllPositive(items: seq<LineItem>)
  {
    forall i :: 0 <= i < |items| ==> items[i].quantity > 0
  }

  ghost predicate HasLine(items: seq<LineItem>, id: int)
  {
    exists i :: 0 <= i < |items| && LineId(items[i]) == id
  }

  /** Dropping lines keeps ids unique. */
  lemma {:induction false} FilterKeepsUnique(items: seq<LineItem>, keep: LineItem -> bool)
    requires UniqueIds(items)
    ensures UniqueIds(Filter(items, keep))
  {
    if items != [] {
      var tail := items[1..];
      UniqueTail(items);
      FilterKeepsUnique(tail, keep);
      var rest := Filter(tail, keep);
      if keep(items[0]) {
        assert Filter(items, keep) == [items[0]] + rest;
        forall j | 0 <= j < |rest| ensures LineId(rest[j]) != LineId(items[0]) {
          assert rest[j] in tail;
        }
        UniqueCons(items[0], rest);
      }
    }
  }

  /** The tail of a cart with unique ids has unique ids, none of them the head's. */
  lemma UniqueTail(items: seq<LineItem>)
    requires UniqueIds(items) && items != []
    ensures UniqueIds(items[1..])
    ensures forall x :: x in items[1..] ==> LineId(x) != LineId(items[0])
  {
    var tail := items[1..];
    forall i, j | 0 <= i < j < |tail| ensures LineId(tail[i]) != LineId(tail[j]) {
      assert tail[i] == items[i + 1] && tail[j] == items[j + 1];
    }
    forall x | x in tail ensures LineId(x) != LineId(items[0]) {
      var k :| 0 <= k < |tail| && tail[k] == x;
      assert items[k + 1] == x;
    }
  }

  /** A line in front of unique lines with other ids keeps the ids unique. */
  lemma UniqueCons(x: LineItem, rest: seq<LineItem>)
    requires UniqueIds(rest)
    requires forall j :: 0 <= j < |rest| ==> LineId(rest[j]) != LineId(x)
    ensures UniqueIds([x] + rest)
  {
    var r := [x] + rest;
    forall i, j | 0 <= i < j < |r| ensures LineId(r[i]) != LineId(r[j]) {
      if i == 0 {
        assert r[j] == rest[j - 1];
      } else {
        assert r[i] == rest[i - 1] && r[j] == rest[j - 1];
      }
    }
  }

  /** Dropping lines keeps every quantity positive. */
  lemma FilterKeepsPositive(items: seq<LineItem>, keep: LineItem -> bool)
    requires AllPositive(items)
    ensures AllPositive(Filter(items, keep))
  {
    var r := Filter(items, keep);
    forall i | 0 <= i < |r| ensures r[i].quantity > 0 {
      assert r[i] in items;
    }
  }

  /**
   * ADD_TO_CART on a product already in the cart adds one to that line's
   * quantity and changes nothing else: no new line, the other lines and their
   * order untouched, the line keeping its earlier product fields.
   */
  lemma AddExistingLine(s: CartState, p: Product, k: int)
    requires UniqueIds(s.items)
    requires 0 <= k < |s.items| && LineId(s.items[k]) == p.id
    ensures CartReduce(s, AddToCart(p))
         == s.(items := s.items[k := s.items[k].(quantity := s.items[k].quantity + 1)])
  {
    assert FindLine(s.items, p.id).Some?;
    var r := IncrementLine(s.items, p.id);
    assert r == s.items[k := s.items[k].(quantity := s.items[k].quantity + 1)];
  }

  /** ADD_TO_CART on a product not in the cart appends one line, the product with quantity 1, at the end. */
  lemma AddAbsentLine(s: CartState, p: Product)
    requires !HasLine(s.items, p.id)
    ensures CartReduce(s, AddToCart(p)) == s.(items := s.items + [LineItem(p, 1)])
  {
  }

  /**
   * REMOVE_FROM_CART deletes exactly the line with that id: the lines before
   * and after it stay, in order, and the purchases are untouched.
   */
  lemma RemoveExistingLine(s: CartState, id: int, k: int)
    requires UniqueIds(s.items)
    requires 0 <= k < |s.items| && LineId(s.items[k]) == id
    ensures CartReduce(s, RemoveFromCart(id)) == s.(items := s.items[..k] + s.items[k + 1..])
  {
    FilterDropsOne(s.items, (it: LineItem) => LineId(it) != id, k);
  }

  /** After REMOVE_FROM_CART no line has that id, every other line is still there, and the purchases are untouched. */
  lemma RemoveLeavesNoLine(s: CartState, id: int)
    ensures var r := CartReduce(s, RemoveFromCart(id));
      && !HasLine(r.items, id)
      && (forall it :: it in r.items <==> it in s.items && LineId(it) != id)
      && r.purchases == s.purchases
  {
    var keep := (it: LineItem) => LineId(it) != id;
    var r := CartReduce(s, RemoveFromCart(id));
    forall i | 0 <= i < |r.items| ensures LineId(r.items[i]) != id {
      assert r.items[i] in r.items;
    }
    forall it ensures it in r.items <==> it in s.items && LineId(it) != id {
      FilterMembership(s.items, keep, it);
    }
  }

  /** REMOVE_FROM_CART of an id that has no line leaves the cart as it was. */
  lemma RemoveAbsentId(s: CartState, id: int)
    requires !HasLine(s.items, id)
    ensures CartReduce(s, RemoveFromCart(id)) == s
  {
    var keep := (it: LineItem) => LineId(it) != id;
    forall x | x in s.items ensures keep(x) {
      var i :| 0 <= i < |s.items| && s.items[i] == x;
    }
    FilterKeepsAll(s.items, keep);
  }

  /** UPDATE_QUANTITY on an id that has no line leaves a cart of positive lines as it was. */
  lemma UpdateAbsentId(s: CartState, id: int, q: int)
    requires AllPositive(s.items) && !HasLine(s.items, id)
    ensures CartReduce(s, UpdateQuantity(id, q)) == s
  {
    var m := SetLineQuantity(s.items, id, q);
    assert m == s.items;
    forall x | x in m ensures x.quantity > 0 {
      var i :| 0 <= i < |m| && m[i] == x;
    }
    FilterKeepsAll(m, (it: LineItem) => it.quantity > 0);
  }

  /** UPDATE_QUANTITY with a positive quantity sets that one line to exactly that quantity. */
  lemma UpdateSetsQuantity(s: CartState, id: int, q: int, k: int)
    requires UniqueIds(s.items) && AllPositive(s.items)
    requires 0 <= k < |s.items| && LineId(s.items[k]) == id
    requires q > 0
    ensures CartReduce(s, UpdateQuantity(id, q)) == s.(items := s.items[k := s.items[k].(quantity := q)])
  {
    var m := SetLineQuantity(s.items, id, q);
    assert m == s.items[k := s.items[k].(quantity := q)];
    forall x | x in m ensures x.quantity > 0 {
      var i :| 0 <= i < |m| && m[i] == x;
    }
    FilterKeepsAll(m, (it: LineItem) => it.quantity > 0);
  }

  /** UPDATE_QUANTITY with zero or less drops the line, and after any update every line is positive. */
  lemma UpdateDropsNonPositive(s: CartState, id: int, q: int)
    ensures AllPositive(CartReduce(s, UpdateQuantity(id, q)).items)
    ensures q <= 0 ==> !HasLine(CartReduce(s, UpdateQuantity(id, q)).items, id)
  {
    var m := SetLineQuantity(s.items, id, q);
    var r := CartReduce(s, UpdateQuantity(id, q)).items;
    forall i | 0 <= i < |r| ensures r[i].quantity > 0 && (q <= 0 ==> LineId(r[i]) != id) {
      assert r[i] in m;
      var j :| 0 <= j < |m| && m[j] == r[i];
    }
  }

  /** Every transition keeps at most one line per product id (a load keeps it when what it loads has it). */
  lemma UniquePreserved(s: CartState, a: CartAction)
    requires UniqueIds(s.items)
    requires a.LoadCart? ==> UniqueIds(a.saved.items.GetOr([]))
    ensures UniqueIds(CartReduce(s, a).items)
  {
    match a
    case AddToCart(p) =>
      if FindLine(s.items, p.id).Some? {
        var r := IncrementLine(s.items, p.id);
        assert forall i :: 0 <= i < |r| ==> LineId(r[i]) == LineId(s.items[i]);
      } else {
        var r := s.items + [LineItem(p, 1)];
        forall i, j | 0 <= i < j < |r| ensures LineId(r[i]) != LineId(r[j]) {
          if j == |s.items| {
            assert r[i] == s.items[i];
          }
        }
      }
    case RemoveFromCart(id) =>
      FilterKeepsUnique(s.items, (it: LineItem) => LineId(it) != id);
    case UpdateQuantity(id, q) =>
      var m := SetLineQuantity(s.items, id, q);
      assert forall i :: 0 <= i < |m| ==> LineId(m[i]) == LineId(s.items[i]);
      FilterKeepsUnique(m, (it: LineItem) => it.quantity > 0);
    case ClearCart =>
    case Checkout(_, _) =>
    case LoadCart(_) =>
  }

  /** Every transition keeps all quantities positive (a load keeps it when what it loads has it). */
  lemma PositivePreserved(s: CartState, a: CartAction)
    requires AllPositive(s.items)
    requires a.LoadCart? ==> AllPositive(a.saved.items.GetOr([]))
    ensures AllPositive(CartReduce(s, a).items)
  {
    match a
    case AddToCart(p) =>
    case RemoveFromCart(id) =>
      FilterKeepsPositive(s.items, (it: LineItem) => LineId(it) != id);
    case UpdateQuantity(id, q) =>
      UpdateDropsNonPositive(s, id, q);
    case ClearCart =>
    case Checkout(_, _) =>
    case LoadCart(_) =>
  }

  /** Only CHECKOUT and LOAD_CART touch the purchase history; CLEAR_CART empties the cart and keeps it. */
  lemma PurchasesOnlyChangeAtCheckout(s: CartState, a: CartAction)
    requires !a.Checkout? && !a.LoadCart?
    ensures CartReduce(s, a).purchases == s.purchases
    ensures a.ClearCart? ==> CartReduce(s, a).items == []
  {
  }

  /** CHECKOUT appends one purchase snapshotting the cart and the state's `total` field, and empties the cart. */
  lemma CheckoutAppendsOnePurchase(s: CartState, pid: int, date: string)
    ensures var r := CartReduce(s, Checkout(pid, date));
      && r.items == []
      && |r.purchases| == |s.purchases| + 1
      && r.purchases[..|s.purchases|] == s.purchases
      && r.purchases[|s.purchases|] == Purchase(pid, s.items, s.total, date, "completed")
  {
  }

  /** The state after a sequence of dispatches. */
  function Run(s: CartState, actions: seq<CartAction>): CartState
    decreases |actions|
  {
    if actions == [] then s else Run(CartReduce(s, actions[0]), actions[1..])
  }

  /** No sequence of dispatches changes the copied `total` and `itemCount` fields. */
  lemma {:induction false} RunKeepsFrozenFields(s: CartState, actions: seq<CartAction>)
    ensures Run(s, actions).total == s.total && Run(s, actions).itemCount == s.itemCount
    decreases |actions|
  {
    if actions != [] {
      RunKeepsFrozenFields(CartReduce(s, actions[0]), actions[1..]);
    }
  }

  /**
   * In every reachable state `total` and `itemCount` are 0, so every purchase
   * records 0 as its total, which differs from the intended sum whenever that
   * sum is not 0.
   */
  lemma CheckoutRecordsFrozenTotal(actions: seq<CartAction>, pid: int, date: string)
    ensures var s := Run(InitialCart, actions);
      var r := CartReduce(s, Checkout(pid, date));
      && s.total == 0.0 && s.itemCount == 0
      && r.purchases[|r.purchases| - 1].total == 0.0
      && (IntendedTotal(s.items) != 0.0 ==> r.purchases[|r.purchases| - 1].total != IntendedTotal(s.items))
  {
    RunKeepsFrozenFields(InitialCart, actions);
  }

  /**
   * Two adds of a 10-priced product and one of a 5-priced product give a cart
   * whose intended total is 25, yet checkout records a purchase with total 0.
   */
  lemma FrozenTotalExample(a: Product, b: Product, pid: int, date: string)
    requires a.price == 10.0 && b.price == 5.0 && a.id != b.id
    ensures var s := Run(InitialCart, [AddToCart(a), AddToCart(a), AddToCart(b)]);
      && s.items == [LineItem(a, 2), LineItem(b, 1)]
      && IntendedTotal(s.items) == 25.0
      && CartReduce(s, Checkout(pid, date)).purchases == [Purchase(pid, s.items, 0.0, date, "completed")]
  {
    var s1 := CartReduce(InitialCart, AddToCart(a));
    assert s1.items == [LineItem(a, 1)];
    var s2 := CartReduce(s1, AddToCart(a));
    AddExistingLine(s1, a, 0);
    assert s2.items == [LineItem(a, 2)];
    var s3 := CartReduce(s2, AddToCart(b));
    assert !HasLine(s2.items, b.id);
    assert s3.items == [LineItem(a, 2), LineItem(b, 1)];
    var acts := [AddToCart(a), AddToCart(a), AddToCart(b)];
    calc {
      Run(InitialCart, acts);
      Run(s1, acts[1..]);
      { assert acts[1..][0] == AddToCart(a) && acts[1..][1..] == [AddToCart(b)]; }
      Run(s2, [AddToCart(b)]);
      { assert [AddToCart(b)][1..] == []; }
      Run(s3, []);
    }
    assert IntendedTotal(s3.items) == LineTotal(s3.items[0]) + IntendedTotal(s3.items[1..]);
    assert s3.items[1..] == [LineItem(b, 1)];
    assert IntendedTotal([LineItem(b, 1)]) == 5.0 by {
      assert [LineItem(b, 1)][1..] == [];
    }
  }

  /** `(price / 0.7 - price) * quantity`: the assumed saving on one purchased line. */
  function ItemSavings(it: LineItem): real
  {
    (it.product.price / 0.7 - it.product.price) * it.quantity as real
  }

  function PurchaseSavings(pu: Purchase): real
  {
    SumReal(pu.items, ItemSavings)
  }

  function PurchaseValue(pu: Purchase): real
  {
    IntendedTotal(pu.items)
  }

  /** `getTotalSavings()`. */
  function TotalSavings(purchases: seq<Purchase>): real
  {
    SumReal(purchases, PurchaseSavings)
  }

  lemma ItemSavingsIsThreeSevenths(it: LineItem)
    ensures ItemSavings(it) == 3.0 / 7.0 * LineTotal(it)
  {
    var p, q := it.product.price, it.quantity as real;
    assert p / 0.7 == 10.0 * p / 7.0;
    assert p / 0.7 - p == 3.0 / 7.0 * p;
    assert (3.0 / 7.0 * p) * q == 3.0 / 7.0 * (p * q);
  }

  /** In exact arithmetic the savings are 3/7 of the value of everything purchased. */
  lemma SavingsAreThreeSevenths(purchases: seq<Purchase>)
    ensures TotalSavings(purchases) == 3.0 / 7.0 * SumReal(purchases, PurchaseValue)
  {
    forall pu | pu in purchases ensures PurchaseSavings(pu) == 3.0 / 7.0 * PurchaseValue(pu) {
      forall it | it in pu.items ensures ItemSavings(it) == 3.0 / 7.0 * LineTotal(it) {
        ItemSavingsIsThreeSevenths(it);
      }
      SumScaled(pu.items, ItemSavings, LineTotal, 3.0 / 7.0);
    }
    SumScaled(purchases, PurchaseSavings, PurchaseValue, 3.0 / 7.0);
  }

  /** With no negative price or quantity the savings are not negative. */
  lemma SavingsNonNegative(purchases: seq<Purchase>)
    requires forall pu, it :: pu in purchases && it in pu.items ==> it.product.price >= 0.0 && it.quantity >= 0
    ensures TotalSavings(purchases) >= 0.0
  {
    forall pu | pu in purchases ensures PurchaseSavings(pu) >= 0.0 {
      forall it | it in pu.items ensures ItemSavings(it) >= 0.0 {
        ItemSavingsIsThreeSevenths(it);
        var p, q := it.product.price, it.quantity as real;
        assert p * q >= 0.0;
      }
      SumNonNegative(pu.items, ItemSavings);
    }
    SumNonNegative(purchases, PurchaseSavings);
  }

  datatype CheckoutResult = CheckoutSucceeded(message: string) | CheckoutFailed(error: string)

  /** The provider: the reducer's state as fields, and local storage as a map. */
  class CartStore {
    var items: seq<LineItem>
    var purchases: seq<Purchase>
    var total: real
    var itemCount: int
    var storage: map<string, Slot<SavedCart>>

    function State(): CartState
      reads this
    {
      CartState(items, purchases, total, itemCount)
    }

    /** The record the persist effect writes. */
    function Saved(): SavedCart
      reads this
    {
      SavedCart(Some(items), Some(purchases))
    }

    /**
     * Mounting: the initial state, then LOAD_CART with what storage holds (or
     * an empty cart), then the persist effect writing the loaded state back.
     */
    constructor (stored: map<string, Slot<SavedCart>>)
      ensures State() == CartReduce(InitialCart, LoadCart(GetFromLocalStorage(stored, CartKey, EmptySavedCart)))
      ensures total == 0.0 && itemCount == 0
      ensures storage == SaveToLocalStorage(stored, CartKey, Saved())
    {
      var s := CartReduce(InitialCart, LoadCart(GetFromLocalStorage(stored, CartKey, EmptySavedCart)));
      items, purchases, total, itemCount := s.items, s.purchases, s.total, s.itemCount;
      storage := SaveToLocalStorage(stored, CartKey, SavedCart(Some(s.items), Some(s.purchases)));
    }

    /** `dispatch(action)` followed by the persist effect that every change of items or purchases triggers. */
    method Dispatch(a: CartAction)
      modifies this
      ensures State() == CartReduce(old(State()), a)
      ensures storage == SaveToLocalStorage(old(storage), CartKey, Saved())
    {
      var s := CartReduce(State(), a);
      items, purchases, total, itemCount := s.items, s.purchases, s.total, s.itemCount;
      storage := SaveToLocalStorage(storage, CartKey, Saved());
    }

    method AddToCart(p: Product)
      modifies this
      ensures State() == CartReduce(old(State()), CartAction.AddToCart(p))
      ensures storage == SaveToLocalStorage(old(storage), CartKey, Saved())
    {
      Dispatch(CartAction.AddToCart(p));
    }

    method RemoveFromCart(id: int)
      modifies this
      ensures State() == CartReduce(old(State()), CartAction.RemoveFromCart(id))
      ensures storage == SaveToLocalStorage(old(storage), CartKey, Saved())
    {
      Dispatch(CartAction.RemoveFromCart(id));
    }

    method UpdateQuantity(id: int, q: int)
      modifies this
      ensures State() == CartReduce(old(State()), CartAction.UpdateQuantity(id, q))
      ensures storage == SaveToLocalStorage(old(storage), CartKey, Saved())
    {
      Dispatch(CartAction.UpdateQuantity(id, q));
    }

    method ClearCart()
      modifies this
      ensures items == [] && purchases == old(purchases)
      ensures total == old(total) && itemCount == old(itemCount)
      ensures storage == SaveToLocalStorage(old(storage), CartKey, Saved())
    {
      Dispatch(CartAction.ClearCart);
    }

    /**
     * `checkout()`: an empty cart fails and nothing changes; otherwise one
     * purchase holding the cart and the stored `total` is appended and the cart
     * emptied. `now` and `date` are the clock readings.
     */
    method Checkout(now: int, date: string) returns (r: CheckoutResult)
      modifies this
      ensures old(items) == [] ==>
                r == CheckoutFailed("Cart is empty") && State() == old(State()) && storage == old(storage)
      ensures old(items) != [] ==>
                && r == CheckoutSucceeded("Order placed successfully!")
                && items == []
                && purchases == old(purchases) + [Purchase(now, old(items), old(total), date, "completed")]
                && total == old(total) && itemCount == old(itemCount)
                && storage == SaveToLocalStorage(old(storage), CartKey, Saved())
    {
      if |items| == 0 {
        r := CheckoutFailed("Cart is empty");
        return;
      }
      Dispatch(CartAction.Checkout(now, date));
      r := CheckoutSucceeded("Order placed successfully!");
    }

    /** `getPurchaseById(id)`: the first purchase with that id. */
    function GetPurchaseById(id: int): (r: Option<Purchase>)
      reads this
      ensures r.Some? <==> exists i :: 0 <= i < |purchases| && purchases[i].id == id
      ensures r.Some? ==> r.value in purchases && r.value.id == id
    {
      Find(purchases, (pu: Purchase) => pu.id == id)
    }

    function GetTotalSavings(): real
      reads this
    {
      TotalSavings(purchases)
    }
  }
}
