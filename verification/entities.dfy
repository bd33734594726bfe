/**
 * The records the stores hold: products (remote or locally authored) and users.
 * A JavaScript object spread `{...base, ...patch}` becomes a field-wise merge in
 * which every field the patch carries overrides the base.
 */
module Entities {
  import opened Wrappers

  /**
   * A catalog product. `id`, `price`, `stock` and `discountPercentage` are always
   * present in the products the system handles (a missing discount is read as 0
   * everywhere it is used); the other fields may be absent.
   */
  datatype Product = Product(
    id: int,
    title: Option<string>,
    description: Option<string>,
    price: real,
    category: Option<string>,
    brand: Option<string>,
    condition: Option<string>,
    discountPercentage: real,
    stock: int,
    images: Option<seq<string>>,
    thumbnail: Option<string>,
    rating: Option<real>,
    reviews: Option<int>,
    userId: Option<int>,
    createdAt: Option<string>,
    updatedAt: Option<string>)

  /** The fields an object spread over a product may carry; `None` is a field the object lacks. */
  datatype ProductPatch = ProductPatch(
    id: Option<int>,
    title: Option<string>,
    description: Option<string>,
    price: Option<real>,
    category: Option<string>,
    brand: Option<string>,
    condition: Option<string>,
    discountPercentage: Option<real>,
    stock: Option<int>,
    images: Option<seq<string>>,
    thumbnail: Option<string>,
    rating: Option<real>,
    reviews: Option<int>,
    userId: Option<int>,
    createdAt: Option<string>,
    updatedAt: Option<string>)

  const EmptyPatch := ProductPatch(None, None, None, None, None, None, None, None,
                                   None, None, None, None, None, None, None, None)

  /** The first option when it holds a value, otherwise the second: one field of an object spread. */
  function Override<T>(patch: Option<T>, base: Option<T>): Option<T>
  {
    if patch.Some? then patch else base
  }

  /** `{...p, ...u}`. */
  function MergeProduct(p: Product, u: ProductPatch): (r: Product)
    ensures u == EmptyPatch ==> r == p
  {
    Product(
      u.id.GetOr(p.id),
      Override(u.title, p.title),
      Override(u.description, p.description),
      u.price.GetOr(p.price),
      Override(u.category, p.category),
      Override(u.brand, p.brand),
      Override(u.condition, p.condition),
      u.discountPercentage.GetOr(p.discountPercentage),
      u.stock.GetOr(p.stock),
      Override(u.images, p.images),
      Override(u.thumbnail, p.thumbnail),
      Override(u.rating, p.rating),
      Override(u.reviews, p.reviews),
      Override(u.userId, p.userId),
      Override(u.createdAt, p.createdAt),
      Override(u.updatedAt, p.updatedAt))
  }

  /** `{...p}` used as a patch: every field the product has. */
  function PatchOf(p: Product): ProductPatch
  {
    ProductPatch(Some(p.id), p.title, p.description, Some(p.price), p.category, p.brand,
                 p.condition, Some(p.discountPercentage), Some(p.stock), p.images,
                 p.thumbnail, p.rating, p.reviews, p.userId, p.createdAt, p.updatedAt)
  }

  /** Spreading a product over itself gives the product back. */
  lemma MergeOwnPatch(p: Product)
    ensures MergeProduct(p, PatchOf(p)) == p
  {
  }

  /** Spreading `q` over any product keeps every field `q` has, so a `q` with all its optional fields present wins outright. */
  lemma MergeFullPatch(p: Product, q: Product)
    ensures var r := MergeProduct(p, PatchOf(q));
      r.id == q.id && r.price == q.price && r.stock == q.stock
      && r.discountPercentage == q.discountPercentage
      && (q.title.Some? ==> r.title == q.title)
      && (q.updatedAt.Some? ==> r.updatedAt == q.updatedAt)
  {
  }

  /**
   * A user record. Every field is optional so that the spread of `null`
   * (`{...null, ...patch}`) is the empty record overridden by the patch.
   */
  datatype User = User(
    id: Option<int>,
    name: Option<string>,
    email: Option<string>,
    password: Option<string>,
    avatar: Option<string>,
    phone: Option<string>,
    location: Option<string>,
    bio: Option<string>)

  const NoUserFields := User(None, None, None, None, None, None, None, None)

  /** `{...u, ...patch}`. */
  function MergeUser(u: User, patch: User): User
  {
    User(
      Override(patch.id, u.id),
      Override(patch.name, u.name),
      Override(patch.email, u.email),
      Override(patch.password, u.password),
      Override(patch.avatar, u.avatar),
      Override(patch.phone, u.phone),
      Override(patch.location, u.location),
      Override(patch.bio, u.bio))
  }

  /** Spreading `patch` over `u`: each field the patch carries wins, each one it lacks keeps `u`'s value. */
  lemma MergeUserFields(u: User, patch: User)
    ensures var r := MergeUser(u, patch);
      && r.id == (if patch.id.Some? then patch.id else u.id)
      && r.name == (if patch.name.Some? then patch.name else u.name)
      && r.email == (if patch.email.Some? then patch.email else u.email)
      && r.password == (if patch.password.Some? then patch.password else u.password)
      && r.avatar == (if patch.avatar.Some? then patch.avatar else u.avatar)
      && r.phone == (if patch.phone.Some? then patch.phone else u.phone)
      && r.location == (if patch.location.Some? then patch.location else u.location)
      && r.bio == (if patch.bio.Some? then patch.bio else u.bio)
  {
  }

  /** `delete copy.password` on a copy of the record. */
  function StripPassword(u: User): (r: User)
    ensures r.password.None?
    ensures r.(password := u.password) == u
  {
    u.(password := None)
  }
}
