/**
 * The cart controls of src/components/Products/ProductCard.jsx: the +/-
 * buttons that compose the cart store's operations, the card's view of the
 * product's cart line, and the discounted price it shows.
 */
module ProductCard {
  import opened Wrappers
  import opened Entities
  import opened Storage
  import opened Cart

  /** The `action` argument of `handleQuantityChange`. */
  datatype QuantityAction = Increase | Decrease

  /** `items.find(item => item.id === product.id)`: the card's cart line. */
  function CartItem(items: seq<LineItem>, p: Product): (r: Option<LineItem>)
    ensures r.Some? <==> HasLine(items, p.id)
    ensures r.Some? ==> r.value in items && LineId(r.value) == p.id
  {
    FindLine(items, p.id)
  }

  /** `isInCart`. */
  predicate IsInCart(items: seq<LineItem>, p: Product)
  {
    CartItem(items, p).Some?
  }

  /** With one line per id, the quantity the card shows is the quantity of the product's line. */
  lemma CartItemIsTheLine(items: seq<LineItem>, p: Product, k: int)
    requires UniqueIds(items)
    requires 0 <= k < |items| && LineId(items[k]) == p.id
    ensures IsInCart(items, p)
    ensures CartItem(items, p) == Some(items[k])
  {
    var r := CartItem(items, p);
    var j :| 0 <= j < |items| && items[j] == r.value && LineId(items[j]) == p.id
             && forall i :: 0 <= i < j ==> LineId(items[i]) != p.id;
    assert j == k;
  }

  /** The store action the button issues. */
  function QuantityChange(items: seq<LineItem>, p: Product, action: QuantityAction): (a: CartAction)
    ensures action == Increase ==> a == CartAction.AddToCart(p)
    ensures action == Decrease && CartItem(items, p).Some? && CartItem(items, p).value.quantity > 1
            ==> a == CartAction.UpdateQuantity(p.id, CartItem(items, p).value.quantity - 1)
    ensures action == Decrease && !(CartItem(items, p).Some? && CartItem(items, p).value.quantity > 1)
            ==> a == CartAction.RemoveFromCart(p.id)
  {
    match action
    case Increase => CartAction.AddToCart(p)
    case Decrease =>
      var current := CartItem(items, p);
      if current.Some? && current.value.quantity > 1 then CartAction.UpdateQuantity(p.id, current.value.quantity - 1)
      else CartAction.RemoveFromCart(p.id)
  }

  /** "decrease" on a line with quantity above one lowers exactly that line by one. */
  lemma DecreaseLowersByOne(s: CartState, p: Product, k: int)
    requires UniqueIds(s.items) && AllPositive(s.items)
    requires 0 <= k < |s.items| && LineId(s.items[k]) == p.id && s.items[k].quantity > 1
    ensures CartReduce(s, QuantityChange(s.items, p, Decrease))
         == s.(items := s.items[k := s.items[k].(quantity := s.items[k].quantity - 1)])
  {
    CartItemIsTheLine(s.items, p, k);
    UpdateSetsQuantity(s, p.id, s.items[k].quantity - 1, k);
  }

  /** "decrease" on an absent line or one with quantity one or less leaves no line for the product. */
  lemma DecreaseRemoves(s: CartState, p: Product)
    requires UniqueIds(s.items)
    requires forall i :: 0 <= i < |s.items| && LineId(s.items[i]) == p.id ==> s.items[i].quantity <= 1
    ensures !HasLine(CartReduce(s, QuantityChange(s.items, p, Decrease)).items, p.id)
  {
    RemoveLeavesNoLine(s, p.id);
  }

  /** "increase" adds one to the product's line, or appends the product with quantity one. */
  lemma IncreaseAddsOne(s: CartState, p: Product)
    requires UniqueIds(s.items)
    ensures var r := CartReduce(s, QuantityChange(s.items, p, Increase));
      && (forall k :: 0 <= k < |s.items| && LineId(s.items[k]) == p.id ==>
            r == s.(items := s.items[k := s.items[k].(quantity := s.items[k].quantity + 1)]))
      && (!HasLine(s.items, p.id) ==> r == s.(items := s.items + [LineItem(p, 1)]))
  {
    forall k | 0 <= k < |s.items| && LineId(s.items[k]) == p.id
      ensures CartReduce(s, CartAction.AddToCart(p))
           == s.(items := s.items[k := s.items[k].(quantity := s.items[k].quantity + 1)]) {
      AddExistingLine(s, p, k);
    }
  }

  /** `handleQuantityChange(e, action)`: one store operation, chosen from the current cart. */
  method HandleQuantityChange(cart: CartStore, p: Product, action: QuantityAction)
    modifies cart
    ensures cart.State() == CartReduce(old(cart.State()), QuantityChange(old(cart.items), p, action))
    ensures cart.storage == SaveToLocalStorage(old(cart.storage), CartKey, cart.Saved())
  {
    if action == Increase {
      cart.AddToCart(p);
    } else {
      var current := FindLine(cart.items, p.id);
      if current.Some? && current.value.quantity > 1 {
        cart.UpdateQuantity(p.id, current.value.quantity - 1);
      } else {
        cart.RemoveFromCart(p.id);
      }
    }
  }

  /** `calculateDiscountedPrice(price, discountPercentage)`, exactly. */
  function DiscountedPrice(price: real, discountPercentage: real): (r: real)
    ensures discountPercentage == 0.0 ==> r == price
    ensures price >= 0.0 && 0.0 <= discountPercentage <= 100.0 ==> 0.0 <= r <= price
    ensures discountPercentage == 100.0 ==> r == 0.0
  {
    assert price * discountPercentage / 100.0 == price * (discountPercentage / 100.0);
    price - price * discountPercentage / 100.0
  }
}
