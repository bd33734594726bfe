# EcoFinds client state, modelled in Dafny

EcoFinds is a second-hand marketplace written as a React single-page
application. Its behaviour lives in three context providers:

- the cart and checkout store (`CartContext.jsx`);
- the product catalog store (`ProductContext.jsx`);
- the authentication store (`AuthContext.jsx`).

Around them sit the data helpers of `dummyData.js` and the page logic that
composes the stores: the home page filter, the listing form, the product
card's cart controls, the product page's add-to-cart loop, the seller's
listings page, and the category image lookup.

This project models that core.

- Each reducer is a pure function over a state datatype.
- Each provider is a class whose fields are the reducer's state plus the
  provider's local-storage slot. A `map` from key to parsed value stands in
  for browser storage.
- Each provider method calls `Dispatch` (one reducer step) and writes
  storage, as the source does.
- The page handlers that change state are methods on small page classes:
  `ListingForm`, `DetailPage`, `ListingsPage`.
- Network responses, clock readings, `toLowerCase`, `encodeURIComponent`,
  `parseInt`/`parseFloat` and the answer of the confirmation dialog are
  parameters.
- Prices are exact reals, and JavaScript's `NaN` is `None`.

Modules, one per source file or shared concern:

- `Wrappers`: `Option`.
- `Seqs`: `filter`, `find`, summing `reduce`.
- `Text`: `includes`, `split`, number to text.
- `Storage`: the local-storage helpers.
- `Entities`: products and users, and object spread as a field-wise override.
- `DummyData`, `Cart`, `Products`, `Auth`, `Home`, `AddProduct`,
  `ProductCard`, `ProductDetail`, `MyListings`, `CategoryImages`.

Where the intended design and the code disagree, the model follows the code.

- **The cart's `total` and `itemCount` do not update.** They are getters on
  the initial state object. The first `{...state}` spread in the reducer
  evaluates them on the empty cart and copies the results as plain fields,
  and every later spread copies those again. So `total` and `itemCount` stay
  0 in every reachable state, and every purchase records a total of 0. The
  model stores them as fields that no transition changes. The sums they were
  meant to compute are the functions `IntendedTotal` and
  `IntendedItemCount`, and lemmas state the gap (`CheckoutRecordsFrozenTotal`,
  `FrozenTotalExample`: two adds at 10 and one at 5 give an intended total of
  25 and a recorded total of 0).
- **`fetchProducts` can fail on a missing category.** A product without a
  `category`, under an active category filter, makes
  `product.category.toLowerCase()` throw. The helper's own catch turns this
  into the empty failure page.
- **`updateProduct` can leave storage and memory apart.** It stores the list
  replaced by the requested id, while the reducer replaces by the merged
  product's id. The two differ only when the updates carry a different `id`
  (`UpdateWriteThrough`).
- **Login and signup are separate.** Login checks only the fixed seed users,
  so an account created by signup cannot log in again (`LoginOnlyForSeeds`).

## Model

| member | source | states |
|---|---|---|
| Storage.SaveThenGet | src/utils/dummyData.js:128-144 | reading a key back after saving it yields the saved value, whatever the default |
| Storage.SaveLeavesOtherKeys | src/utils/dummyData.js:128-144 | saving under one key leaves what every other key reads as unchanged |
| Storage.SaveOverwrites | src/utils/dummyData.js:128-134 | a second save under the same key replaces the first; only the last write is kept |
| Storage.GetFallsBack | src/utils/dummyData.js:136-144 | an absent key, an empty stored string and unparsable text all read as the default |
| Seqs.FilterMembership | src/context/CartContext.jsx:29 | an element survives `filter` exactly when it is in the input and satisfies the predicate |
| Seqs.FilterDropsOne | src/context/CartContext.jsx:29 | a filter that rejects exactly the element at index k returns the input with that one element deleted, the rest in order |
| Seqs.Find | src/context/CartContext.jsx:130-132 | `find` returns a value exactly when some element satisfies the predicate, and then it is the first such element |
| Text.IncludesIffOccurs | src/pages/Home.jsx:32-33 | `includes` holds exactly when the substring occurs at some position |
| Text.SplitTwoFields | src/utils/categoryImages.js:104-106 | two separator-free fields joined by one separator split back into exactly those two fields |
| Entities.MergeProduct | src/context/ProductContext.jsx:203-207 | spreading an update with no fields over a product gives the product back |
| Entities.MergeOwnPatch | src/pages/MyListings.jsx:30-34 | spreading a product over itself gives the product back |
| Entities.MergeFullPatch | src/context/ProductContext.jsx:203-207 | spreading a whole product over another: its id, price, stock and discount win, and so do its title and updatedAt when present |
| Entities.MergeUserFields | src/context/AuthContext.jsx:26-30 | spreading a patch over a user: each of the eight fields the patch carries wins, each one it lacks keeps the user's value |
| Entities.StripPassword | src/context/AuthContext.jsx:72-73 | the copy has no password and every other field equal to the original |
| DummyData.SeedLookup | src/context/AuthContext.jsx:66-69 | the seed lookup succeeds exactly when some seed user has both the email and the password, and returns such a user |
| DummyData.RequestUrlShape | src/utils/dummyData.js:48-54 | a non-empty search selects the search endpoint with the encoded query, an empty one the listing endpoint; both carry the same limit and skip |
| DummyData.FetchProductsFilter | src/utils/dummyData.js:63-70 | the category filter runs only for a non-empty category other than "all", keeps exactly the products whose lower-cased category contains the lower-cased filter, and leaves total, skip and limit alone; without an applicable filter the response passes unchanged whatever its categories |
| DummyData.FetchProductsKeepsOrder | src/utils/dummyData.js:63-70 | the filter keeps the response's order: for products `a` followed by `b`, the survivors are those of `a` followed by those of `b` |
| DummyData.FetchFailure | src/utils/dummyData.js:71-74 | any failure gives the empty page with total, skip and limit 0, whose load-more guard is false |
| DummyData.FetchCategories | src/utils/dummyData.js:90-125 | a fetched list is returned as is; a failure gives the 20 fallback slugs from "smartphones" to "lighting" |
| Cart.AddExistingLine | src/context/CartContext.jsx:8-21 | ADD_TO_CART of a product already in the cart raises that line's quantity by exactly one; no new line, every other line and the order unchanged |
| Cart.AddAbsentLine | src/context/CartContext.jsx:22-25 | ADD_TO_CART of an absent product appends one line, the product with quantity 1, at the end |
| Cart.RemoveExistingLine | src/context/CartContext.jsx:26-30 | REMOVE_FROM_CART deletes exactly the line with the id; the lines before and after stay in order and purchases are untouched |
| Cart.RemoveLeavesNoLine | src/context/CartContext.jsx:26-30 | after REMOVE_FROM_CART no line has the id, every other line remains, and purchases are untouched |
| Cart.RemoveAbsentId | src/context/CartContext.jsx:26-30 | REMOVE_FROM_CART of an id with no line leaves the state unchanged |
| Cart.UpdateAbsentId | src/context/CartContext.jsx:31-41 | UPDATE_QUANTITY of an id with no line leaves a cart of positive lines unchanged |
| Cart.UpdateSetsQuantity | src/context/CartContext.jsx:31-41 | UPDATE_QUANTITY with a positive quantity sets exactly that line to it and changes nothing else |
| Cart.UpdateDropsNonPositive | src/context/CartContext.jsx:31-41 | after any UPDATE_QUANTITY every line is positive, so a quantity of zero or less removes the line |
| Cart.UniquePreserved | src/context/CartContext.jsx:6-69 | every reducer case keeps at most one line per product id (a load when what it loads has that property) |
| Cart.PositivePreserved | src/context/CartContext.jsx:6-69 | every reducer case keeps every quantity positive (a load when what it loads has that property) |
| Cart.PurchasesOnlyChangeAtCheckout | src/context/CartContext.jsx:8-46 | only CHECKOUT and LOAD_CART change the purchase history; CLEAR_CART empties the items |
| Cart.CheckoutAppendsOnePurchase | src/context/CartContext.jsx:47-59 | CHECKOUT empties the cart and appends exactly one purchase holding the previous items and the state's `total` field |
| Cart.RunKeepsFrozenFields | src/context/CartContext.jsx:71-83 | no sequence of reducer steps changes the copied `total` and `itemCount` fields |
| Cart.CheckoutRecordsFrozenTotal | src/context/CartContext.jsx:47-83 | in every state reachable from the initial one, `total` and `itemCount` are 0, so a checkout records 0, unlike the intended sum whenever that sum is not 0 |
| Cart.FrozenTotalExample | src/context/CartContext.jsx:6-83 | two adds of a 10-priced product and one of a 5-priced product give lines of quantity 2 and 1 with intended total 25, yet the purchase records 0 |
| Cart.ItemSavingsIsThreeSevenths | src/context/CartContext.jsx:140-144 | the saving on one line is 3/7 of its price times quantity |
| Cart.SavingsAreThreeSevenths | src/context/CartContext.jsx:134-147 | total savings are 3/7 of the value of everything purchased, in exact arithmetic |
| Cart.SavingsNonNegative | src/context/CartContext.jsx:134-147 | with no negative price or quantity the total savings are not negative |
| Cart.CartStore.constructor | src/context/CartContext.jsx:88-103 | mounting loads the stored cart (or an empty one) through LOAD_CART, with total and itemCount 0, and writes the loaded items and purchases back |
| Cart.CartStore.Dispatch | src/context/CartContext.jsx:97-103 | the new state is the reducer's, and storage then holds the new items and purchases |
| Cart.CartStore.AddToCart | src/context/CartContext.jsx:105-107 | one ADD_TO_CART step, persisted |
| Cart.CartStore.RemoveFromCart | src/context/CartContext.jsx:109-111 | one REMOVE_FROM_CART step, persisted |
| Cart.CartStore.UpdateQuantity | src/context/CartContext.jsx:113-115 | one UPDATE_QUANTITY step, persisted |
| Cart.CartStore.ClearCart | src/context/CartContext.jsx:117-119 | items become empty; purchases, total and itemCount are unchanged; storage holds the new state |
| Cart.CartStore.Checkout | src/context/CartContext.jsx:121-128 | an empty cart fails with "Cart is empty" and changes nothing; otherwise one purchase of the old items and the old `total` is appended, the cart emptied, and success returned |
| Cart.CartStore.GetPurchaseById | src/context/CartContext.jsx:130-132 | a purchase is returned exactly when one has the id, and it has that id |
| Products.LoadOutcome | src/context/ProductContext.jsx:107-137 | a load appends the fetched products or replaces the list with them, clears loading and the error, takes the response's skip, limit and total, and keeps the local list, categories and filters |
| Products.LoadMoreStops | src/context/ProductContext.jsx:149-160 | the guard is false at skip 20, limit 20, total 35 and after a failed fetch, and true at skip 0, limit 20, total 35 |
| Products.NewLocalProduct | src/context/ProductContext.jsx:181-188 | the new product has the given owner, equal createdAt and updatedAt, the data's id or else the clock reading, and the data's title, price and stock |
| Products.UpdatedProduct | src/context/ProductContext.jsx:203-207 | the merged product has the fresh updatedAt and keeps its id unless the updates carry one |
| Products.ReplaceKeepsOthers | src/context/ProductContext.jsx:46-52 | UPDATE_PRODUCT keeps the list length, replaces every entry with the id, and leaves every other entry |
| Products.UpdateWriteThrough | src/context/ProductContext.jsx:199-217 | the stored list and the in-memory list agree when the updates keep the id, and differ when the updates change it |
| Products.DeleteRemovesAll | src/context/ProductContext.jsx:53-59 | DELETE_PRODUCT removes every entry with the id, keeps all others, and distributes over any split of the list (order kept) |
| Products.UserProductsMembership | src/context/ProductContext.jsx:230-232 | a product is in the user's products exactly when it is local and owned by that user, and the filter distributes over any split of the list (order kept) |
| Products.FindLocal | src/context/ProductContext.jsx:165-167 | a local product is found exactly when the parsed id is a number that some local product has, and it has that id |
| Products.ProductById | src/context/ProductContext.jsx:162-179 | a local match is returned; otherwise the remote answer, or none when the fetch fails |
| Products.LocalFoundWithoutRemote | src/context/ProductContext.jsx:162-170 | any local product whose id no other local product shares is found, whatever the remote source would answer |
| Products.JustAddedFound | src/context/ProductContext.jsx:162-190 | the product `addProduct` has just put in front of local products with other ids is found by its id |
| Products.Catalog.constructor | src/context/ProductContext.jsx:84-105 | mounting sets the fetched or fallback categories and the stored local products (or none) over the initial state |
| Products.Catalog.Dispatch | src/context/ProductContext.jsx:12-67 | the new state is the reducer's; storage unchanged |
| Products.Catalog.LoadProducts | src/context/ProductContext.jsx:107-137 | issues the request for page size 20 at the skip and query, and the state becomes the load outcome of the fetched page |
| Products.Catalog.SearchProducts | src/context/ProductContext.jsx:139-142 | sets the query and reloads from skip 0 with the current category |
| Products.Catalog.FilterByCategory | src/context/ProductContext.jsx:144-147 | sets the category and reloads from skip 0 with the current query |
| Products.Catalog.LoadMoreProducts | src/context/ProductContext.jsx:149-160 | fetches exactly when skip + limit < total, then at skip + limit in append mode with the current filters; otherwise changes nothing |
| Products.Catalog.AddProduct | src/context/ProductContext.jsx:181-197 | prepends exactly the new product (owner defaulting to 1) to the local list and stores the new list |
| Products.Catalog.UpdateProduct | src/context/ProductContext.jsx:199-218 | an unknown id returns null and changes nothing; a known one returns the merged product, replaces entries by its id in memory, and stores the list replaced by the requested id |
| Products.Catalog.DeleteProduct | src/context/ProductContext.jsx:220-228 | removes every local product with the id, in memory and in storage alike |
| Products.Catalog.GetAllProducts | src/context/ProductContext.jsx:234-237 | the local products followed by the remote ones |
| Auth.AuthenticatedHasUser | src/context/AuthContext.jsx:10-39 | every reducer step keeps "authenticated implies a user is present" |
| Auth.ProfileUpdateWhileSignedOut | src/context/AuthContext.jsx:26-30 | a profile update while signed out leaves a user record without authenticating it |
| Auth.UpdateProfileMerges | src/context/AuthContext.jsx:26-30 | UPDATE_PROFILE changes only the user; for each of the eight fields, a value the update carries wins, and an absent one keeps the signed-in user's value |
| Auth.LoginOutcome | src/context/AuthContext.jsx:66-81 | login succeeds exactly when a seed user matches email and password, and then returns that seed user's record with its password removed; otherwise the single error "Invalid email or password" |
| Auth.NewAccount | src/context/AuthContext.jsx:97-106 | the new account has no password, the default avatar whatever was supplied, the supplied id or else the clock reading, and the supplied profile fields |
| Auth.SignupOutcome | src/context/AuthContext.jsx:90-110 | signup fails with "User with this email already exists" exactly when a seed user has the email; otherwise it yields the new account |
| Auth.SeedLogin | src/context/AuthContext.jsx:66-81 | the seed credentials log in as John Doe (id 1) without his password, a wrong password is refused, and Jane Smith logs in as id 2 |
| Auth.SignupEmails | src/context/AuthContext.jsx:90-95 | a seed email is refused and a fresh one accepted |
| Auth.LoginOnlyForSeeds | src/context/AuthContext.jsx:66-69 | credentials whose email is no seed user's are refused, whatever was signed up before |
| Auth.Restored | src/context/AuthContext.jsx:51-58 | at startup a stored user is signed in without re-checking credentials; with none, loading ends and nobody is signed in |
| Auth.AuthStore.constructor | src/context/AuthContext.jsx:47-58 | the initial state is the restore of the stored session |
| Auth.AuthStore.Dispatch | src/context/AuthContext.jsx:10-39 | the new state is the reducer's; storage unchanged |
| Auth.AuthStore.Login | src/context/AuthContext.jsx:60-82 | on success the password-free user is stored and signed in; on failure only loading becomes false and storage is unchanged |
| Auth.AuthStore.Signup | src/context/AuthContext.jsx:84-111 | a fresh email stores and signs in the new account; a seed email only ends loading and stores nothing |
| Auth.AuthStore.Logout | src/context/AuthContext.jsx:113-116 | the stored session is removed and the state is signed out |
| Auth.AuthStore.UpdateProfile | src/context/AuthContext.jsx:118-122 | the state takes the merged user and storage holds that same user |
| Auth.RestoreAfterWrite | src/context/AuthContext.jsx:51-58 | a restore after login, signup or a profile update reproduces the signed-in user |
| Auth.RestoreAfterLogout | src/context/AuthContext.jsx:113-116 | a restore after logout ends signed out |
| Home.FilteredMembership | src/pages/Home.jsx:28-40 | a product is shown exactly when it is in the combined list and matches both the search and the category |
| Home.FilteredKeepsOrder | src/pages/Home.jsx:28-40 | the shown local products come before the shown remote products, each in their original order |
| Home.DefaultsShowEverything | src/pages/Home.jsx:30-39 | with an empty query and the "all" category the whole list is shown unchanged |
| Home.SearchIsSubstring | src/pages/Home.jsx:30-33 | a non-empty query matches exactly when its lower-cased text occurs in the lower-cased title or description; a product with neither never matches |
| Home.CategoryIsSubstring | src/pages/Home.jsx:35-37 | a selection other than "all" matches exactly when its lower-cased text occurs in the lower-cased category |
| Home.LoadMoreButtonGuard | src/pages/Home.jsx:193-202 | the Load More button shows exactly when some product is shown and the catalog's load-more guard holds |
| AddProduct.WithoutIndex | src/pages/AddProduct.jsx:60-66 | removing index i deletes exactly the i-th image and keeps the rest in order; an index out of range changes nothing |
| AddProduct.ProductData | src/pages/AddProduct.jsx:86-97 | the owner is the user's id, rating 4.5, reviews 0; stock is the parsed integer or 1 when it is NaN or 0; discount is the parsed number or 30 when it is NaN or 0; the thumbnail is the first non-empty image |
| AddProduct.ImagesStayNonEmpty | src/pages/AddProduct.jsx:51-66 | uploading and removing images keeps every image URL non-empty |
| AddProduct.ThumbnailIsFirstImage | src/pages/AddProduct.jsx:74-97 | for an accepted submission the thumbnail is the first image, so the placeholder is never used |
| AddProduct.ListedProduct | src/pages/AddProduct.jsx:86-99 | the listed product is owned by the submitting user, with id the clock reading, rating 4.5, reviews 0, the form's images, price and title, and equal timestamps |
| AddProduct.ListingForm.constructor | src/pages/AddProduct.jsx:12-24 | the empty form with condition "Good", discount "30" and no images, not busy |
| AddProduct.ListingForm.HandleImageUpload | src/pages/AddProduct.jsx:51-58 | the new image URLs go after the existing ones |
| AddProduct.ListingForm.RemoveImage | src/pages/AddProduct.jsx:60-66 | exactly the image at the index goes; the rest keep their order |
| AddProduct.ListingForm.HandleSubmit | src/pages/AddProduct.jsx:68-112 | no images or more than five are refused with their messages and add nothing; a missing user fails with the generic error; otherwise exactly the listed product is prepended to the catalog and stored; the busy flag ends cleared |
| ProductCard.CartItem | src/components/Products/ProductCard.jsx:36-37 | the card finds a line exactly when some line has the product's id, and the line it finds has that id |
| ProductCard.CartItemIsTheLine | src/components/Products/ProductCard.jsx:36-37 | with one line per id, the card's line is the product's line, so the displayed quantity is its quantity |
| ProductCard.QuantityChange | src/components/Products/ProductCard.jsx:17-34 | "increase" is one ADD_TO_CART; "decrease" is UPDATE_QUANTITY to one less when the line's quantity is above one, and REMOVE_FROM_CART otherwise |
| ProductCard.IncreaseAddsOne | src/components/Products/ProductCard.jsx:21-23 | "increase" raises the product's line by one, or appends it with quantity one |
| ProductCard.DecreaseLowersByOne | src/components/Products/ProductCard.jsx:24-28 | "decrease" on a line above one lowers exactly that line by one |
| ProductCard.DecreaseRemoves | src/components/Products/ProductCard.jsx:29-31 | "decrease" on an absent line or one of quantity one or less leaves no line for the product |
| ProductCard.HandleQuantityChange | src/components/Products/ProductCard.jsx:17-34 | the cart takes exactly the one store step the button chooses, persisted |
| ProductCard.DiscountedPrice | src/components/Products/ProductCard.jsx:39-46 | a zero discount gives the price; a discount in 0..100 on a non-negative price gives a value between 0 and the price; 100 gives 0 |
| ProductDetail.AddedTimesExisting | src/pages/ProductDetailPage.jsx:48-50 | n adds of a product that has a line raise every line with its id by n |
| ProductDetail.AddedTimesAbsent | src/pages/ProductDetailPage.jsx:48-50 | n adds (n at least one) of a product without a line append one line with quantity n |
| ProductDetail.AddRepeatedlyEffect | src/pages/ProductDetailPage.jsx:48-50 | with one line per id, n adds raise the product's line by exactly n, or append one line with quantity n; nothing else changes |
| ProductDetail.DiscountPercentage | src/pages/ProductDetailPage.jsx:61-68 | a non-zero discount is returned as is; otherwise a non-zero price gives 30 and a zero price gives NaN |
| ProductDetail.DisplayImages | src/pages/ProductDetailPage.jsx:96 | the product's images when it has an images array (even an empty one), otherwise the single thumbnail |
| ProductDetail.DetailPage.constructor | src/pages/ProductDetailPage.jsx:15-18 | no product, loading, quantity 1 |
| ProductDetail.DetailPage.LoadProduct | src/pages/ProductDetailPage.jsx:20-40 | a found product (the catalog's lookup of the route id) is shown; when none is found the shown product is kept and the page asks to go home; loading ends either way |
| ProductDetail.DetailPage.SelectQuantity | src/pages/ProductDetailPage.jsx:235-246 | the chosen option becomes the quantity, which stays within 1..5 |
| ProductDetail.DetailPage.HandleAddToCart | src/pages/ProductDetailPage.jsx:42-52 | signed out, the cart and storage are unchanged; signed in, the cart takes exactly `quantity` ADD_TO_CART steps and storage holds the result |
| MyListings.Toggle | src/pages/MyListings.jsx:29-34 | positive stock becomes 0, any other stock becomes 1, and no other field changes |
| MyListings.ToggleFlipsActive | src/pages/MyListings.jsx:29-40 | a toggle flips the listing between active and inactive, and two toggles restore its activity |
| MyListings.ToggleInCatalog | src/pages/MyListings.jsx:29-34 | sending the toggled listing as the update yields the toggled listing with a fresh updatedAt, and storage agrees with memory |
| MyListings.ActivePlusSoldOut | src/pages/MyListings.jsx:141-193 | with no negative stock the Active and Sold Out counts add up to the number of listings |
| MyListings.ToggleKeepsTotalValue | src/pages/MyListings.jsx:222 | toggling a listing leaves the Total Value unchanged |
| MyListings.ListingsPage.constructor | src/pages/MyListings.jsx:10-11 | no listings, loading |
| MyListings.ListingsPage.Refresh | src/pages/MyListings.jsx:13-19 | signed in, the page's copy becomes the user's local products and loading ends; signed out, nothing changes |
| MyListings.ListingsPage.HandleDeleteProduct | src/pages/MyListings.jsx:21-27 | once confirmed, the listing goes from the catalog, its storage and the page's copy; otherwise nothing changes |
| MyListings.ListingsPage.HandleToggleStatus | src/pages/MyListings.jsx:29-41 | the page's copy replaces the entries with the id by the toggled listing; the catalog updates a known listing with the toggled copy and stores it, or changes nothing for an unknown one |
| CategoryImages.PhotoUrl | src/utils/categoryImages.js:4-6 | every photo URL starts with the Unsplash photo prefix and ends with "&fit=crop&crop=center" |
| CategoryImages.CategoryImage | src/utils/categoryImages.js:2-107 | every result starts with the Unsplash photo prefix and ends with "&fit=crop&crop=center" |
| CategoryImages.LookupOrFallback | src/utils/categoryImages.js:102-107 | a category in the table gets its own photo; any other name, or none, gets the fallback photo |
| CategoryImages.SizeFields | src/utils/categoryImages.js:4-6 | the width and height are the fields before and after the "x" of the size |
| CategoryImages.DefaultSizeIs300By200 | src/utils/categoryImages.js:2 | without a size the URL asks for width 300 and height 200 |
| CategoryImages.SizeWithoutSeparator | src/utils/categoryImages.js:104-106 | a size without an "x" is the width, and the height prints as "undefined" |
| CategoryImages.CaseSensitiveLookup | src/utils/categoryImages.js:22-91 | "Automotive" and "automotive" are distinct keys with the same photo, and "AUTOMOTIVE" falls back |

## Left out

- Network I/O, `fetch`, HTTP status checks and `response.json()`: each fetch is a parameter holding the parsed response, or `None` for any failure.
- async/await and the one-second delay of login and signup: each operation is one sequential step. Races between overlapping loads are not modelled.
- Stale closures: provider methods are modelled reading the current state, not the state captured at render time.
- `Date.now()` and `toISOString()`: parameters. The two timestamp readings in `addProduct` are one reading.
- Floating point: prices, discounts and savings are exact reals. `Math.round` is `floor(x + 0.5)`. `Intl.NumberFormat`, `toFixed` and every other display formatting are not modelled.
- Browser storage: each store has its own key-to-value map, not one shared store. `JSON.stringify` followed by `JSON.parse` is taken to give the value back. Write failures (such as the storage quota) that `saveToLocalStorage` swallows are not modelled.
- `toLowerCase`, `encodeURIComponent`, `parseInt` and `parseFloat`: parameters, with parsing returning `None` for NaN.
- The price field of the listing form: taken as already numeric, as its required number input supplies it. `parseFloat` of an empty price is not modelled.
- The `reviews` field of a product: an optional number. The remote catalog's array of reviews is not modelled; no modelled operation reads the field, which only feeds the review counts on the card and the product page.
- Categories from the remote listing: modelled as strings; `{name, slug}` objects are not modelled.
- The category image table: modelled as a map of its own keys. Inherited object keys such as "constructor" are not modelled. A `null` size, which would throw, is not modelled; a missing size takes the default.
- Error paths that cannot run:
  - the outer catch of `loadProducts`, because `fetchProducts` catches every failure itself;
  - the catch of `loadCategories`, because `fetchCategories` always returns;
  - the "Failed to add product" branch of the listing form, because `addProduct` always returns a product.
- DummyData.FetchProductById, Products.Catalog.GetProductById, Products.Catalog.GetUserProducts and Cart.CartStore.GetTotalSavings: these are plain lookups with no `ensures` of their own. The lemmas about the functions they return (`ProductById`, `UserProductsMembership`, `SavingsAreThreeSevenths`) state their properties.
- Rendering, routing, the navigation bar, the dashboard and previous-purchases pages, toasts, `navigate`, `window.confirm` (a parameter of the delete handler), `URL.createObjectURL` (its URLs are the upload handler's argument), `handleChange` of the form fields, and `console` logging.
