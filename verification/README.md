# Tester-box storefront core, modelled in Dafny

This project models the client-side logic of a perfume storefront built on a
remote commerce API. Shoppers fill a "tester box" with ten distinct perfume
samples and submit it as one cart line. They also keep a wishlist and a cart
whose id is persisted in the browser. The model covers:

- **The bundle builder** (`tester_box.dfy`, module `TesterBox`). Its state is the
  bundle, the "bundle ready" modal flag and the three facet filters. It is paired
  with the cart context it reads and updates. Add, remove, facet setters, modal
  dismissal and submission are pure transitions. Filtering is a conjunction of
  JavaScript truthiness tests.
- **The cart library** (`cart.dfy`, module `Cart`). It maps a bundle to one
  cart line with "Tester N" attributes and chooses between the create and
  add-lines mutations. It also reads `userErrors`, and models `removeFromCart`
  and `getCart`.
- **The catalog queries** (`queries.dfy`, module `Queries`). These are the
  ordered not-found checks, product normalisation, de-duplicated facet option
  lists and the null-dropping batch lookup.
- **The wishlist context** (`wishlist.dfy`, module `Wishlist`). It covers toggle,
  membership, and saving and reloading the stored id array.
- **The cart context** (`cart_context.dfy`, module `CartContext`). It covers the
  item count, `updateCart` and the three-way startup reconciliation of the
  stored cart id.

Supporting modules:

- `Wrappers` holds `Option` and `Result`.
- `Js` holds truthiness and `x || null`.
- `Seqs` holds `filter`, `filter(Boolean)` and `[...new Set(xs)]`.
- `Decimal` renders the position numbers and proves that rendering injective.
- `Gateway` holds the reply of one remote call and the thrown error values.
- `Catalog` holds the product projection and its facets.

Every remote call is a parameter. A mutation service is a function from the
request sent to the reply received. A query reply is a value. So "which
mutation is sent" is a statement about the request the service is applied to.
Every fetch failure becomes the helper's fixed error object
`{status: 500, message: "Error receiving data from Shopify"}`
(src/lib/shopify.ts:38-44). Browser storage is a `map<string, string>` for the
cart id. For the wishlist it is the stored id array itself.

Code behaviours worth knowing when reading the contracts:

- `addBundleToCart` maps any number of items to attributes. Only the builder's submit guard insists on ten.
- A stored cart id or cached cart id that is the empty string counts as no id, because the tests are truthiness tests.
- The facet option lists are arrays in first-occurrence order, not sets.
- A malformed stored wishlist makes `JSON.parse` throw; it does not yield an empty set.

## Model

| member | source | states |
|---|---|---|
| TesterBox.AddToBundle | src/components/TesterBoxBuilder.tsx:77-86 | A full bundle (10 items) or one already holding the product's id is returned unchanged, modal flag included. Otherwise the product is appended after the unchanged earlier items. The modal is open afterwards exactly when it already was or the add brought the length from 9 to 10. The builder invariant is preserved. |
| TesterBox.RemoveFromBundle | src/components/TesterBoxBuilder.tsx:88-91 | The remaining items are exactly those with a different id. The removed id is absent afterwards, and an absent id leaves the bundle as it was. The modal is always closed and filters are untouched. The invariant is preserved. |
| TesterBox.RemoveDropsOnlyThatItem | src/components/TesterBoxBuilder.tsx:88-91 | With distinct ids, removing the id of item i yields the bundle with exactly position i cut out, others in their original order. |
| TesterBox.RemoveUndoesAdd | src/components/TesterBoxBuilder.tsx:77-91 | Removing a product right after a successful add of it restores the previous bundle. |
| TesterBox.DismissModal | src/components/TesterBoxBuilder.tsx:243-256 | Closing the modal changes only the modal flag and keeps the invariant. |
| TesterBox.SetFacet | src/components/TesterBoxBuilder.tsx:126-144 | A setter replaces its own facet's constraint with the chosen value and leaves the other two as they were. |
| TesterBox.ChooseFacet | src/components/TesterBoxBuilder.tsx:122-145 | Choosing a facet value changes only that constraint; bundle and modal flag are untouched. |
| TesterBox.SettersCommute | src/components/TesterBoxBuilder.tsx:126-144 | Setters on different facets commute. |
| TesterBox.SetterIdempotent | src/components/TesterBoxBuilder.tsx:126-144 | Repeating a setter is a no-op, and the last value set on a facet wins. |
| TesterBox.FilteredProducts | src/components/TesterBoxBuilder.tsx:67-75 | A product is shown iff it is in the catalog and every truthy facet constraint equals its value. With no constraints the whole catalog is shown. |
| TesterBox.FilteredProductsAppend | src/components/TesterBoxBuilder.tsx:67-75 | The filtered view distributes over catalog concatenation, so shown products keep catalog order. |
| TesterBox.EmptyConstraintIsNoConstraint | src/components/TesterBoxBuilder.tsx:70-73 | An empty-string constraint shows the same products as "All" (null), because the test is truthiness. |
| TesterBox.CurrentCartId | src/components/TesterBoxBuilder.tsx:98 | The id passed to the cart library is the cached cart's id when there is a cart with a non-empty id, and null otherwise. |
| TesterBox.SubmitBundle | src/components/TesterBoxBuilder.tsx:93-112 | Nothing changes unless the bundle has exactly 10 items. On success the bundle is emptied, the modal closed, filters kept, and the cart context updated with the returned cart. On any failure the whole page state, bundle and cart included, is unchanged. The invariant is preserved. |
| TesterBox.SubmitSendsOneLine | src/components/TesterBoxBuilder.tsx:93-101 | A full bundle is sent as a single line of quantity 1 on the tester-box variant. Item i is labelled by key i, in selection order. It goes to the add-lines mutation exactly when a cached cart with a non-empty id exists. |
| TesterBox.StepPreservesValid | src/components/TesterBoxBuilder.tsx:77-111 | Every user action keeps the invariant: at most 10 items, pairwise distinct ids, and the modal open only on a full bundle. |
| TesterBox.RunPreservesValid | src/components/TesterBoxBuilder.tsx:77-111 | Any sequence of actions from a valid builder ends in a valid builder. |
| TesterBox.ReachableIsValid | src/components/TesterBoxBuilder.tsx:56-63 | Starting from the initial empty builder, every reachable builder satisfies the invariant. |
| Cart.LineAttributes | src/lib/cart.ts:112-115 | One attribute per bundle item, in order. Entry i has key "Tester " followed by i+1 in decimal and the item's title as value. |
| Cart.AttributeKeysDistinct | src/lib/cart.ts:112-115 | The attribute keys of one line are pairwise distinct, so no item's title shadows another's. |
| Cart.TenItemKeys | src/lib/cart.ts:113 | The first key is "Tester 1" and the tenth is "Tester 10". |
| Decimal.ParseNatToString | src/lib/cart.ts:113 | Reading back the decimal rendering of a position number gives the number. |
| Decimal.NatToStringInjective | src/lib/cart.ts:113 | Different position numbers render as different strings. |
| Cart.BundleRequest | src/lib/cart.ts:117-145 | The request is add-lines with that id iff the cart id is truthy, and create otherwise; never both and never a removal. It carries exactly one line, of quantity 1 on the tester-box variant, whose attributes are exactly `LineAttributes(items)` whatever the item count. |
| Cart.AddBundleToCart | src/lib/cart.ts:107-146 | The call succeeds iff the reply to its request arrived with no user errors, and then returns that reply's cart unchanged. Non-empty user errors throw the first error's message. A failed fetch yields the fetch helper's error. |
| Cart.AddBundleUsesOnlyItsRequest | src/lib/cart.ts:123-145 | The result depends only on the reply to the one request chosen. |
| Cart.RemoveRequest | src/lib/cart.ts:182-190 | The removal targets the given cart and lists exactly the one line id. |
| Cart.RemoveFromCart | src/lib/cart.ts:178-195 | It succeeds iff the reply to the removal arrived without user errors, returning its cart. Otherwise it throws the first user error's message or the fetch error. |
| Cart.GetCart | src/lib/cart.ts:156-162 | A delivered reply is returned as-is, null included. Only a failed fetch is an error. |
| CartContext.RemoveLineLowersCount | src/lib/cart.ts:178-195 | When the service answers a removal with the cart minus exactly that line, the removal succeeds, and caching its result lowers the count by that line's quantity and keeps the stored cart id. |
| Queries.MetafieldValue | src/lib/queries.ts:97-99 | A facet is the metafield's value when the metafield exists and its value is non-empty, and null otherwise. |
| Queries.NormalizeProduct | src/lib/queries.ts:93-101 | A normalised product keeps the node's id and title, takes its first variant's id, and normalises each of the three facets. |
| Queries.NormalizeProducts | src/lib/queries.ts:93-101 | There is one product per collection edge, in edge order. |
| Queries.FacetList | src/lib/queries.ts:103-113 | An option list has no duplicates. A value is listed iff it is non-empty and is some product's value for that facet. |
| Queries.DeriveFilters | src/lib/queries.ts:103-113 | Each of the three option lists is its facet's list: no value repeats, and a value is offered iff it is non-empty and some product carries it for that facet. |
| Seqs.Distinct | src/lib/queries.ts:105 | De-duplication keeps exactly the input's values and repeats none. |
| Queries.FirstVariantId | src/lib/queries.ts:115-122 | The tester-box variant id exists iff the product has a first variant with a non-empty id, and then it is that id. |
| Queries.GetTesterProductsAndFilters | src/lib/queries.ts:67-125 | The checks run in source order. A failed collection fetch gives the fetch error and a missing collection gives its not-found message. Then a failed tester-box fetch gives the fetch error and a missing product its not-found message. With both found, a collection product without variants gives a `TypeError`, a tester box without a truthy first variant id gives the variant message, and otherwise the load succeeds. On success the products follow the edges in length and order, the filters are derived from them, and the variant id is the first variant's non-empty id. |
| Queries.CollectionCheckedFirst | src/lib/queries.ts:71-85 | When the collection fetch fails or finds nothing, the call fails whatever the tester-box query would answer. |
| Queries.FiltersCoverProducts | src/lib/queries.ts:93-113 | After a successful load every product's facet value is offered, and every offered value belongs to some product. No option appears twice. |
| Queries.FacetListFromMetafields | src/lib/queries.ts:93-113 | From the raw collection, a value is offered for a facet iff it is non-empty and some node's metafield for that facet holds it. |
| Queries.GetProductsByIds | src/lib/queries.ts:143-150 | It fails only when the fetch fails, with the fetch error. Otherwise a node is returned iff it was resolved, and there are never more results than replies. |
| Queries.ProductsByIdsKeepsOrder | src/lib/queries.ts:148-149 | For any split of the service's reply, the result is the resolved nodes of the first part followed by those of the second, so the kept nodes stay in their returned order with their multiplicity. |
| Queries.ProductsByIdsDropsMissing | src/lib/queries.ts:148-149 | Looking up A, B, C where B no longer resolves returns exactly A then C. |
| Wishlist.IsWishlisted | src/contexts/WishlistContext.tsx:47-49 | True iff the id is in the wishlist. |
| Wishlist.Toggle | src/contexts/WishlistContext.tsx:35-45 | A present id is removed and an absent one added. No other id changes membership, and the set never gains a duplicate. |
| Wishlist.ToggleTwice | src/contexts/WishlistContext.tsx:35-45 | Toggling the same id twice restores the set. |
| Wishlist.ToggleTwiceRestoresOrder | src/contexts/WishlistContext.tsx:35-45 | For an absent id, toggling twice restores even the iteration order. |
| Wishlist.Save | src/contexts/WishlistContext.tsx:30-33 | The stored array lists exactly the members, each once. |
| Wishlist.Load | src/contexts/WishlistContext.tsx:22-28 | With nothing stored the wishlist is empty. Otherwise its members are exactly the stored array's values, without duplicates. |
| Wishlist.SaveLoadRoundTrip | src/contexts/WishlistContext.tsx:22-33 | Reloading what was saved gives back the same wishlist. |
| CartContext.Mount | src/contexts/CartContext.tsx:22-23 | The provider starts with no cart, storage as found, and loading set. |
| CartContext.InitializeCart | src/contexts/CartContext.tsx:26-41 | Loading is cleared in every branch, and no other storage key changes. With no truthy stored id, cart and storage are untouched. If the fetch fails, the id is removed and the cart untouched. If the fetch delivers, its cart (possibly null) is cached and the id kept. |
| CartContext.StartupFromMount | src/contexts/CartContext.tsx:22-38 | From a fresh mount, loading always ends. With no truthy stored id the cart stays null and storage is untouched. A failed lookup leaves the cart null and removes the id. A cart is cached only when the lookup of the stored id delivered it. |
| CartContext.UpdateCart | src/contexts/CartContext.tsx:43-46 | The cached cart becomes exactly the new cart and the stored id its id. Nothing else in storage changes. |
| CartContext.ReloadAfterUpdate | src/contexts/CartContext.tsx:26-46 | After an update, a reload whose fetch returns that cart restores it and keeps the stored id. |
| CartContext.SumQuantities | src/contexts/CartContext.tsx:48-50 | The sum is at least every line's quantity. |
| CartContext.SumQuantitiesAppend | src/contexts/CartContext.tsx:48-50 | The sum of quantities is additive over concatenation of line lists. |
| CartContext.CartCount | src/contexts/CartContext.tsx:48-50 | The count is 0 without a cart or with no lines, and at least every line's quantity otherwise. |
| CartContext.CountAfterAppend | src/contexts/CartContext.tsx:48-50 | Adding a line raises the count by exactly its quantity. |

## Left out

- The GraphQL transport (src/lib/shopify.ts) is not modelled: endpoint, access token, JSON bodies, the cache hint and diagnostic logging. A remote call is a `Reply` that is delivered or failed. GraphQL-level error messages never reach callers, because the helper replaces them with its fixed error.
- GraphQL documents, images, prices and `checkoutUrl`'s use are left out. Only the fields the logic reads are modelled.
- The server-side limits of the queries (250 products, 100 cart lines) are enforced by the remote service and are not modelled.
- A `userErrors` list that is `null` or absent is represented as an empty list.
- A mutation payload whose `cart` is null without user errors is not modelled. The source types it as always present.
- A collection product without variants makes the source crash when it reads `edges[0].node.id`. The model reports this as `TypeError`, without the message.
- Wishlist storage holds the id array itself, not its JSON text. A malformed stored value makes `JSON.parse` throw, and that is not modelled.
- The wishlist save effect also runs once at mount with the initial empty set, before the loaded set is committed. This is React effect scheduling and is not modelled.
- Rendering is not modelled: JSX, animation, alerts, `console.error`, header badges, the page components and the option buttons of `FilterGroup`.
- CartView's remove handler is not modelled. It only composes `Cart.RemoveFromCart` with `CartContext.UpdateCart`, and its price display uses floating point and locale formatting.
- Async scheduling, React state batching, stale closures, double-click races and the `isLoading` busy flags are not modelled. Each handler is one atomic transition.
- `useCart`/`useWishlist` throwing outside their providers is not modelled.
- CartContext.CartCount: quantities are natural numbers, not JavaScript floats. The `|| 0` fallback, which only matters for a non-numeric sum, is therefore the identity.
