/**
 * The listing form of src/pages/AddProduct.jsx: its image list, its submit
 * handler's validation, and the normalisation of the form into the product
 * handed to the catalog. `parseInt` and `parseFloat` are parameters returning
 * `None` for NaN. The price field is a required number input with minimum 0,
 * so it reaches the handler as a number.
 */
module AddProduct {
  import opened Wrappers
  import opened Entities
  import opened Storage
  import opened Products

  /** The form state (`formData`). */
  datatype ProductForm = ProductForm(
    title: string,
    description: string,
    price: real,
    category: string,
    brand: string,
    stock: string,
    condition: string,
    discountPercentage: string,
    images: seq<string>)

  /** What a submission ends with. */
  datatype SubmitResult = Listed(product: Product) | Rejected(message: string)

  const MaxImages := 5
  const NoImagesMessage := "Please add at least one image for your product"
  const TooManyImagesMessage := "You can only upload up to 5 images"
  const GenericErrorMessage := "An error occurred. Please try again."
  const PlaceholderImage := "https://via.placeholder.com/300x200?text=No+Image"
  const NewListingRating := 4.5

  const InitialForm := ProductForm("", "", 0.0, "", "", "", "Good", "30", [])

  /** `images.filter((_, i) => i !== index)`. */
  function WithoutIndex(images: seq<string>, index: int): (r: seq<string>)
    ensures 0 <= index < |images| ==> r == images[..index] + images[index + 1..]
    ensures !(0 <= index < |images|) ==> r == images
  {
    if images == [] then []
    else
      var rest := WithoutIndex(images[1..], index - 1);
      if index == 0 then rest
      else
        assert 0 < index < |images| ==> images[1..][..index - 1] == images[1..index];
        assert 0 < index < |images| ==> images[1..][index..] == images[index + 1..];
        [images[0]] + rest
  }

  /** `x || fallback` for a parsed number: NaN and 0 are falsy. */
  function OrIfFalsy<T(==)>(parsed: Option<T>, zero: T, fallback: T): T
  {
    if parsed.None? || parsed.value == zero then fallback else parsed.value
  }

  /** `formData.images[0] || placeholder`. */
  function Thumbnail(images: seq<string>): string
  {
    if images == [] || images[0] == "" then PlaceholderImage else images[0]
  }

  /**
   * `productData`: the form's fields with the price parsed, the stock and the
   * discount parsed with defaults 1 and 30, the owner, the fixed rating and
   * review count, and the thumbnail.
   */
  function ProductData(form: ProductForm, userId: Option<int>,
                       parseInt: string -> Option<int>, parseFloat: string -> Option<real>): (d: ProductPatch)
    ensures d.id.None? && d.userId == userId
    ensures d.rating == Some(NewListingRating) && d.reviews == Some(0)
    ensures d.stock == Some(if parseInt(form.stock) == None || parseInt(form.stock) == Some(0) then 1
                            else parseInt(form.stock).value)
    ensures d.discountPercentage == Some(if parseFloat(form.discountPercentage) == None
                                            || parseFloat(form.discountPercentage) == Some(0.0) then 30.0
                                         else parseFloat(form.discountPercentage).value)
    ensures d.images == Some(form.images) && d.price == Some(form.price)
    ensures |form.images| > 0 && form.images[0] != "" ==> d.thumbnail == Some(form.images[0])
  {
    ProductPatch(
      None,
      Some(form.title),
      Some(form.description),
      Some(form.price),
      Some(form.category),
      Some(form.brand),
      Some(form.condition),
      Some(OrIfFalsy(parseFloat(form.discountPercentage), 0.0, 30.0)),
      Some(OrIfFalsy(parseInt(form.stock), 0, 1)),
      Some(form.images),
      Some(Thumbnail(form.images)),
      Some(NewListingRating),
      Some(0),
      userId,
      None,
      None)
  }

  /** Every image is a non-empty URL (object URLs always are). */
  predicate NonEmptyImages(images: seq<string>)
  {
    forall i :: 0 <= i < |images| ==> images[i] != ""
  }

  /** Uploading non-empty URLs and removing images both keep every image non-empty. */
  lemma ImagesStayNonEmpty(images: seq<string>, urls: seq<string>, index: int)
    requires NonEmptyImages(images) && NonEmptyImages(urls)
    ensures NonEmptyImages(images + urls)
    ensures NonEmptyImages(WithoutIndex(images, index))
  {
    var r := WithoutIndex(images, index);
    if 0 <= index < |images| {
      forall i | 0 <= i < |r| ensures r[i] != "" {
        if i < index { assert r[i] == images[i]; } else { assert r[i] == images[i + 1]; }
      }
    }
  }

  /** With non-empty image URLs the placeholder is never used: an accepted listing's thumbnail is its first image. */
  lemma ThumbnailIsFirstImage(form: ProductForm, userId: Option<int>,
                              parseInt: string -> Option<int>, parseFloat: string -> Option<real>)
    requires 1 <= |form.images| <= MaxImages && NonEmptyImages(form.images)
    ensures ProductData(form, userId, parseInt, parseFloat).thumbnail == Some(form.images[0])
  {
  }

  /** The product a valid submission creates: the catalog's new local product for the submitting user. */
  function ListedProduct(form: ProductForm, u: User, now: int, nowIso: string,
                         parseInt: string -> Option<int>, parseFloat: string -> Option<real>): (p: Product)
    ensures p.userId == Some(u.id.GetOr(1))
    ensures p.id == now && p.rating == Some(NewListingRating) && p.reviews == Some(0)
    ensures p.images == Some(form.images) && p.price == form.price && p.title == Some(form.title)
    ensures p.createdAt == p.updatedAt == Some(nowIso)
  {
    NewLocalProduct(ProductData(form, u.id, parseInt, parseFloat), u.id.GetOr(1), now, nowIso)
  }

  /** The page's form state and busy flag. */
  class ListingForm {
    var form: ProductForm
    var isLoading: bool

    constructor ()
      ensures form == InitialForm && !isLoading
    {
      form := InitialForm;
      isLoading := false;
    }

    /** `handleImageUpload`: the uploaded files' URLs go after the existing images. */
    method HandleImageUpload(urls: seq<string>)
      modifies this
      ensures form == old(form).(images := old(form.images) + urls)
      ensures isLoading == old(isLoading)
    {
      form := form.(images := form.images + urls);
    }

    /** `removeImage(index)`: exactly the image at `index` goes; the rest keep their order. */
    method RemoveImage(index: int)
      modifies this
      ensures 0 <= index < |old(form.images)| ==>
                form == old(form).(images := old(form.images)[..index] + old(form.images)[index + 1..])
      ensures !(0 <= index < |old(form.images)|) ==> form == old(form)
      ensures isLoading == old(isLoading)
    {
      form := form.(images := WithoutIndex(form.images, index));
    }

    /**
     * `handleSubmit`: no image or more than five are refused, as is a
     * submission without a signed-in user (reading `user.id` throws); any
     * other submission adds the normalised product to the catalog. The busy
     * flag is cleared on every path.
     */
    method HandleSubmit(catalog: Catalog, user: Option<User>, now: int, nowIso: string,
                        parseInt: string -> Option<int>, parseFloat: string -> Option<real>) returns (r: SubmitResult)
      modifies this, catalog
      ensures !isLoading && form == old(form)
      ensures |form.images| == 0 ==> r == Rejected(NoImagesMessage)
      ensures |form.images| > MaxImages ==> r == Rejected(TooManyImagesMessage)
      ensures 1 <= |form.images| <= MaxImages && user.None? ==> r == Rejected(GenericErrorMessage)
      ensures r.Rejected? ==> catalog.State() == old(catalog.State()) && catalog.storage == old(catalog.storage)
      ensures r.Listed? <==> 1 <= |form.images| <= MaxImages && user.Some?
      ensures r.Listed? ==>
                && r.product == ListedProduct(form, user.value, now, nowIso, parseInt, parseFloat)
                && catalog.State() == old(catalog.State()).(localProducts := [r.product] + old(catalog.localProducts))
                && catalog.storage == SaveToLocalStorage(old(catalog.storage), LocalProductsKey, catalog.localProducts)
    {
      isLoading := true;
      if |form.images| == 0 {
        isLoading := false;
        return Rejected(NoImagesMessage);
      }
      if |form.images| > MaxImages {
        isLoading := false;
        return Rejected(TooManyImagesMessage);
      }
      if user.None? {
        isLoading := false;
        return Rejected(GenericErrorMessage);
      }
      var data := ProductData(form, user.value.id, parseInt, parseFloat);
      var p := catalog.AddProduct(data, user.value.id, now, nowIso);
      r := Listed(p);
      isLoading := false;
    }
  }
}
