/**
 * `getCategoryImage` of src/utils/categoryImages.js: a stock photo per
 * category name, looked up case-sensitively in a fixed table with a fallback
 * photo, sized by the two "x"-separated fields of `size`.
 */
module CategoryImages {
  import opened Wrappers
  import opened Text

  const ImagePrefix := "https://images.unsplash.com/photo-"
  const ImageSuffix := "&fit=crop&crop=center"
  const DefaultSize := "300x200"
  const FallbackPhoto := "1560472354-b33ff0c44a43"

  /** The photo id of every category the table names. */
  const CategoryPhotos: map<string, string> := map[
    "Electronics" := "1498049794561-7780c723c1a1",
    "Fashion" := "1441986300917-64674bd600d8",
    "Books" := "1481627834876-b7833e8f5570",
    "Home & Garden" := "1586023492125-27b2c045efd7",
    "Sports" := "1571019613454-1cb2f99b2d8b",
    "Toys" := "1558060370-9a8b8a4b8c4a",
    "Automotive" := "1558618666-fcd25c85cd64",
    "Beauty" := "1596462502278-27bfdc403348",
    "Health" := "1559757148-5c350d0d3c56",
    "Jewelry" := "1515562141207-7a88fb7ce338",
    "Musical Instruments" := "1493225457124-a3eb161ffa5f",
    "Office Supplies" := "1586953208448-b95a79798f07",
    "smartphones" := "1511707171634-5f897ff02afd",
    "laptops" := "1496181133206-80ce9b88a853",
    "fragrances" := "1541643600914-78b084683601",
    "skincare" := "1570194065650-d99fb4bedf0a",
    "groceries" := "1542838132-92c53300491e",
    "home-decoration" := "1586023492125-27b2c045efd7",
    "furniture" := "1586023492125-27b2c045efd7",
    "tops" := "1441986300917-64674bd600d8",
    "womens-dresses" := "1594633312681-425c7b97ccd1",
    "womens-shoes" := "1543163521-1bf539c55dd2",
    "mens-shirts" := "1596755094514-f87e34085b2c",
    "mens-shoes" := "1549298916-b41d501d3772",
    "mens-watches" := "1523275335684-37898b6baf30",
    "womens-watches" := "1523275335684-37898b6baf30",
    "womens-bags" := "1553062407-98eeb64c6a62",
    "womens-jewellery" := "1515562141207-7a88fb7ce338",
    "sunglasses" := "1511499767150-a48a237f0083",
    "automotive" := "1558618666-fcd25c85cd64",
    "motorcycle" := "1558618666-fcd25c85cd64",
    "lighting" := "1558618666-fcd25c85cd64"
  ]

  /** The URL template: the photo id, then the width and height query values. */
  function PhotoUrl(photo: string, w: string, h: string): (url: string)
    ensures ImagePrefix <= url
    ensures |url| >= |ImageSuffix| && url[|url| - |ImageSuffix|..] == ImageSuffix
  {
    var url := ImagePrefix + photo + "?w=" + w + "&h=" + h + ImageSuffix;
    assert url == (ImagePrefix + photo + "?w=" + w + "&h=" + h) + ImageSuffix;
    url
  }

  /** `size.split("x")[0]`. */
  function Width(size: string): string
  {
    Split(size, 'x')[0]
  }

  /** `size.split("x")[1]`, which interpolates as "undefined" when `size` has no "x". */
  function Height(size: string): string
  {
    var parts := Split(size, 'x');
    if |parts| > 1 then parts[1] else "undefined"
  }

  /** The photo for a category: its table entry, or the fallback for any other (or a missing) name. */
  function PhotoFor(category: Option<string>): string
  {
    if category.Some? && category.value in CategoryPhotos then CategoryPhotos[category.value] else FallbackPhoto
  }

  /** `getCategoryImage(category, size)`; a missing `size` is the default "300x200". */
  function CategoryImage(category: Option<string>, size: Option<string>): (url: string)
    ensures ImagePrefix <= url
    ensures |url| >= |ImageSuffix| && url[|url| - |ImageSuffix|..] == ImageSuffix
  {
    var s := size.GetOr(DefaultSize);
    PhotoUrl(PhotoFor(category), Width(s), Height(s))
  }

  /** A category in the table gets its own photo; any other name, or none, gets the fallback photo. */
  lemma LookupOrFallback(category: Option<string>, w: string, h: string)
    requires 'x' !in w && 'x' !in h
    ensures category.Some? && category.value in CategoryPhotos ==>
              CategoryImage(category, Some(w + "x" + h)) == PhotoUrl(CategoryPhotos[category.value], w, h)
    ensures !(category.Some? && category.value in CategoryPhotos) ==>
              CategoryImage(category, Some(w + "x" + h)) == PhotoUrl(FallbackPhoto, w, h)
  {
    SizeFields(w, h);
  }

  /** The width and height are the fields before and after the "x" of the size. */
  lemma SizeFields(w: string, h: string)
    requires 'x' !in w && 'x' !in h
    ensures Width(w + "x" + h) == w && Height(w + "x" + h) == h
  {
    SplitTwoFields(w, 'x', h);
    assert w + "x" + h == w + ['x'] + h;
  }

  /** Without a size the URL asks for 300 by 200. */
  lemma DefaultSizeIs300By200(category: Option<string>)
    ensures CategoryImage(category, None) == PhotoUrl(PhotoFor(category), "300", "200")
  {
    SizeFields("300", "200");
    assert DefaultSize == "300" + "x" + "200";
  }

  /** A size without an "x" puts the whole size as the width and the text "undefined" as the height. */
  lemma SizeWithoutSeparator(category: Option<string>, size: string)
    requires 'x' !in size
    ensures CategoryImage(category, Some(size)) == PhotoUrl(PhotoFor(category), size, "undefined")
  {
    SplitNoSeparator(size, 'x');
  }

  /** Lookup is case-sensitive: "Automotive" and "automotive" are separate keys that share a photo, "AUTOMOTIVE" is not a key. */
  lemma CaseSensitiveLookup()
    ensures "Automotive" in CategoryPhotos && "automotive" in CategoryPhotos
    ensures CategoryPhotos["Automotive"] == CategoryPhotos["automotive"]
    ensures "AUTOMOTIVE" !in CategoryPhotos
    ensures PhotoFor(Some("AUTOMOTIVE")) == FallbackPhoto
    ensures PhotoFor(Some("Automotive")) != FallbackPhoto
  {
  }
}
