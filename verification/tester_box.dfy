/** The tester-box builder (src/components/TesterBoxBuilder.tsx): a bundle of
    at most ten distinct products, three facet filters over the catalog, a
    "bundle ready" modal, and submission of the bundle as one cart line. The
    builder's state and the cart context it uses form one page state; every
    handler is one atomic transition of it. */
module TesterBox {
  import opened Wrappers
  import opened Js
  import opened Gateway
  import opened Seqs
  import opened Catalog
  import opened Cart
  import CartContext

  /** The number of testers in a box. */
  const BundleSize := 10

  /** The facet constraints currently selected; `null` means "All". */
  datatype ActiveFilters = ActiveFilters(brand: Option<string>, fragranceType: Option<string>, gender: Option<string>)

  const NoFilters := ActiveFilters(None, None, None)

  function Constraint(a: ActiveFilters, f: Facet): Option<string> {
    match f
    case Brand => a.brand
    case FragranceType => a.fragranceType
    case Gender => a.gender
  }

  /** A facet setter: replaces the one constraint and no other. */
  function SetFacet(a: ActiveFilters, f: Facet, value: Option<string>): (r: ActiveFilters)
    ensures Constraint(r, f) == value
    ensures forall g :: g != f ==> Constraint(r, g) == Constraint(a, g)
  {
    match f
    case Brand => a.(brand := value)
    case FragranceType => a.(fragranceType := value)
    case Gender => a.(gender := value)
  }

  /** One facet's test: an unset (falsy) constraint admits every product. */
  predicate FacetAdmits(p: Product, a: ActiveFilters, f: Facet) {
    !Truthy(Constraint(a, f)) || FacetValue(p, f) == Constraint(a, f)
  }

  /** The filter predicate: the conjunction over the three facets. */
  predicate Matches(p: Product, a: ActiveFilters) {
    FacetAdmits(p, a, Brand) && FacetAdmits(p, a, FragranceType) && FacetAdmits(p, a, Gender)
  }

  /** `filteredProducts`. */
  function FilteredProducts(products: seq<Product>, a: ActiveFilters): (r: seq<Product>)
    ensures |r| <= |products|
    ensures forall p :: p in r <==> p in products && Matches(p, a)
    ensures a == NoFilters ==> r == products
  {
    NoFiltersShowAll(products, a);
    Filter(p => Matches(p, a), products)
  }

  /** With no constraint set, every product matches. */
  lemma NoFiltersShowAll(products: seq<Product>, a: ActiveFilters)
    ensures a == NoFilters ==> Filter(p => Matches(p, a), products) == products
  {
    if a == NoFilters {
      FilterKeepsAll(p => Matches(p, a), products);
    }
  }

  /** The view of a concatenated catalog is the concatenation of the views:
      matching products keep their catalog order. */
  lemma FilteredProductsAppend(xs: seq<Product>, ys: seq<Product>, a: ActiveFilters)
    ensures FilteredProducts(xs + ys, a) == FilteredProducts(xs, a) + FilteredProducts(ys, a)
  {
    FilterAppend(p => Matches(p, a), xs, ys);
  }

  /** Setters on different facets commute. */
  lemma SettersCommute(a: ActiveFilters, f: Facet, g: Facet, v: Option<string>, w: Option<string>)
    requires f != g
    ensures SetFacet(SetFacet(a, f, v), g, w) == SetFacet(SetFacet(a, g, w), f, v)
  {
  }

  /** Repeating a setter changes nothing more; the last value set wins. */
  lemma SetterIdempotent(a: ActiveFilters, f: Facet, v: Option<string>, w: Option<string>)
    ensures SetFacet(SetFacet(a, f, v), f, v) == SetFacet(a, f, v)
    ensures SetFacet(SetFacet(a, f, v), f, w) == SetFacet(a, f, w)
  {
  }

  /** Selecting the empty string on a facet shows the same products as "All". */
  lemma EmptyConstraintIsNoConstraint(products: seq<Product>, a: ActiveFilters, f: Facet)
    ensures FilteredProducts(products, SetFacet(a, f, Some(""))) == FilteredProducts(products, SetFacet(a, f, None))
  {
    var a1, a2 := SetFacet(a, f, Some("")), SetFacet(a, f, None);
    forall i | 0 <= i < |products| ensures Matches(products[i], a1) == Matches(products[i], a2) {
      var p := products[i];
      assert FacetAdmits(p, a1, Brand) == FacetAdmits(p, a2, Brand);
      assert FacetAdmits(p, a1, FragranceType) == FacetAdmits(p, a2, FragranceType);
      assert FacetAdmits(p, a1, Gender) == FacetAdmits(p, a2, Gender);
    }
    FilterCongruent(p => Matches(p, a1), p => Matches(p, a2), products);
  }

  /** The builder's own state. */
  datatype Builder = Builder(bundle: seq<Product>, modalOpen: bool, active: ActiveFilters)

  const Initial := Builder([], false, NoFilters)

  predicate InBundle(bundle: seq<Product>, productId: string) {
    exists i :: 0 <= i < |bundle| && bundle[i].id == productId
  }

  predicate DistinctIds(bundle: seq<Product>) {
    forall i, j :: 0 <= i < j < |bundle| ==> bundle[i].id != bundle[j].id
  }

  /** The builder invariant: at most ten items, no id twice, and the modal
      shown only for a full bundle. */
  predicate Valid(b: Builder) {
    && |b.bundle| <= BundleSize
    && DistinctIds(b.bundle)
    && (b.modalOpen ==> |b.bundle| == BundleSize)
  }

  /** `handleAddToBundle`. */
  function AddToBundle(b: Builder, p: Product): (r: Builder)
    ensures |b.bundle| >= BundleSize || InBundle(b.bundle, p.id) ==> r == b
    ensures !(|b.bundle| >= BundleSize || InBundle(b.bundle, p.id)) ==>
      r.bundle == b.bundle + [p] && r.active == b.active
    ensures r.modalOpen <==> b.modalOpen || (|b.bundle| == BundleSize - 1 && !InBundle(b.bundle, p.id))
    ensures Valid(b) ==> Valid(r)
  {
    if |b.bundle| >= BundleSize || InBundle(b.bundle, p.id) then b
    else
      var bundle := b.bundle + [p];
      assert forall i :: 0 <= i < |b.bundle| ==> bundle[i] == b.bundle[i];
      b.(bundle := bundle, modalOpen := if |bundle| == BundleSize then true else b.modalOpen)
  }

  /** `handleRemoveFromBundle`: drops every item with that id and closes the modal. */
  function RemoveFromBundle(b: Builder, productId: string): (r: Builder)
    ensures !r.modalOpen && r.active == b.active
    ensures forall q :: q in r.bundle <==> q in b.bundle && q.id != productId
    ensures !InBundle(r.bundle, productId)
    ensures !InBundle(b.bundle, productId) ==> r.bundle == b.bundle
    ensures Valid(b) ==> Valid(r)
  {
    var keep := (q: Product) => q.id != productId;
    RemoveAbsentKeepsBundle(b.bundle, productId);
    RemovePreservesDistinct(b.bundle, productId);
    Builder(Filter(keep, b.bundle), false, b.active)
  }

  lemma RemoveAbsentKeepsBundle(bundle: seq<Product>, productId: string)
    ensures !InBundle(bundle, productId) ==> Filter((q: Product) => q.id != productId, bundle) == bundle
  {
    if !InBundle(bundle, productId) {
      FilterKeepsAll((q: Product) => q.id != productId, bundle);
    }
  }

  lemma RemovePreservesDistinct(bundle: seq<Product>, productId: string)
    ensures DistinctIds(bundle) ==> DistinctIds(Filter((q: Product) => q.id != productId, bundle))
  {
    if DistinctIds(bundle) {
      DistinctIdsFilter((q: Product) => q.id != productId, bundle);
    }
  }

  /** Filtering a bundle keeps its ids distinct. */
  lemma {:induction false} DistinctIdsFilter(keep: Product -> bool, bundle: seq<Product>)
    requires DistinctIds(bundle)
    ensures DistinctIds(Filter(keep, bundle))
  {
    if bundle != [] {
      var rest := bundle[1..];
      assert DistinctIds(rest);
      DistinctIdsFilter(keep, rest);
      var tail := Filter(keep, rest);
      forall j | 0 <= j < |tail| ensures tail[j].id != bundle[0].id {
        assert tail[j] in rest;
      }
    }
  }

  /** Removing the item at `i` of a bundle with distinct ids removes that
      item only and keeps the others in order. */
  lemma RemoveDropsOnlyThatItem(b: Builder, i: nat)
    requires DistinctIds(b.bundle) && i < |b.bundle|
    ensures RemoveFromBundle(b, b.bundle[i].id).bundle == b.bundle[..i] + b.bundle[i + 1..]
  {
    var id := b.bundle[i].id;
    FilterDropsOne((q: Product) => q.id != id, b.bundle, i);
  }

  /** Removing a product right after adding it gives back the bundle. */
  lemma RemoveUndoesAdd(b: Builder, p: Product)
    requires !(|b.bundle| >= BundleSize || InBundle(b.bundle, p.id))
    ensures RemoveFromBundle(AddToBundle(b, p), p.id).bundle == b.bundle
  {
    var bundle := b.bundle + [p];
    assert bundle[|b.bundle|] == p;
    assert forall j :: 0 <= j < |b.bundle| ==> bundle[j] == b.bundle[j];
    FilterDropsOne((q: Product) => q.id != p.id, bundle, |b.bundle|);
    assert bundle[..|b.bundle|] == b.bundle;
  }

  /** Closing the modal (backdrop click or close button). */
  function DismissModal(b: Builder): (r: Builder)
    ensures !r.modalOpen && r.bundle == b.bundle && r.active == b.active
    ensures Valid(b) ==> Valid(r)
  {
    b.(modalOpen := false)
  }

  /** A facet setter applied to the builder: the bundle and modal are untouched. */
  function ChooseFacet(b: Builder, f: Facet, value: Option<string>): (r: Builder)
    ensures r.bundle == b.bundle && r.modalOpen == b.modalOpen
    ensures Constraint(r.active, f) == value
    ensures forall g :: g != f ==> Constraint(r.active, g) == Constraint(b.active, g)
  {
    b.(active := SetFacet(b.active, f, value))
  }

  /** The builder together with the cart context it reads and updates. */
  datatype Page = Page(builder: Builder, session: CartContext.Session)

  /** `cart?.id || null`: the cart id the submission uses. */
  function CurrentCartId(session: CartContext.Session): (r: Option<string>)
    ensures r.Some? <==> session.cart.Some? && session.cart.value.id != ""
    ensures r.Some? ==> r.value == session.cart.value.id
  {
    OrNull(if session.cart.Some? then Some(session.cart.value.id) else None)
  }

  /** `handleAddToCart`: nothing unless the bundle is full; on success the
      returned cart replaces the cached one and the builder is cleared; on
      failure nothing changes. */
  function SubmitBundle(pg: Page, testerBoxVariantId: string, service: CartService): (r: Page)
    ensures |pg.builder.bundle| != BundleSize ==> r == pg
    ensures |pg.builder.bundle| == BundleSize ==>
      var outcome := AddBundleToCart(CurrentCartId(pg.session), testerBoxVariantId, pg.builder.bundle, service);
      && (outcome.Failure? ==> r == pg)
      && (outcome.Success? ==>
            && r.builder == Builder([], false, pg.builder.active)
            && r.session == CartContext.UpdateCart(pg.session, outcome.value))
    ensures Valid(pg.builder) ==> Valid(r.builder)
  {
    if |pg.builder.bundle| != BundleSize then pg
    else
      match AddBundleToCart(CurrentCartId(pg.session), testerBoxVariantId, pg.builder.bundle, service)
      case Success(newCart) =>
        Page(pg.builder.(bundle := [], modalOpen := false), CartContext.UpdateCart(pg.session, newCart))
      case Failure(_) => pg
  }

  /** A submitted full bundle becomes one line labelled "Tester 1" to
      "Tester 10" in selection order, sent to the cached cart when there is
      one and to a new cart otherwise. */
  lemma SubmitSendsOneLine(pg: Page, testerBoxVariantId: string)
    requires |pg.builder.bundle| == BundleSize
    ensures var m := BundleRequest(CurrentCartId(pg.session), testerBoxVariantId, pg.builder.bundle);
      && (m.CartLinesAdd? <==> pg.session.cart.Some? && pg.session.cart.value.id != "")
      && m.lines == [CartLineInput(testerBoxVariantId, 1, LineAttributes(pg.builder.bundle))]
      && (forall i :: 0 <= i < BundleSize ==>
            m.lines[0].attributes[i] == Attribute(AttributeKey(i), pg.builder.bundle[i].title))
  {
  }

  /** The page's user actions. */
  datatype Action =
    | Add(product: Product)
    | Remove(productId: string)
    | Choose(facet: Facet, value: Option<string>)
    | Dismiss
    | Submit(service: CartService)

  function Step(pg: Page, testerBoxVariantId: string, action: Action): Page {
    match action
    case Add(p) => pg.(builder := AddToBundle(pg.builder, p))
    case Remove(id) => pg.(builder := RemoveFromBundle(pg.builder, id))
    case Choose(f, v) => pg.(builder := ChooseFacet(pg.builder, f, v))
    case Dismiss => pg.(builder := DismissModal(pg.builder))
    case Submit(service) => SubmitBundle(pg, testerBoxVariantId, service)
  }

  function Run(pg: Page, testerBoxVariantId: string, actions: seq<Action>): Page
    decreases |actions|
  {
    if actions == [] then pg
    else Run(Step(pg, testerBoxVariantId, actions[0]), testerBoxVariantId, actions[1..])
  }

  /** Every action keeps the builder invariant. */
  lemma StepPreservesValid(pg: Page, testerBoxVariantId: string, action: Action)
    requires Valid(pg.builder)
    ensures Valid(Step(pg, testerBoxVariantId, action).builder)
  {
  }

  /** Whatever the shopper does, starting from an empty builder the bundle
      never exceeds ten items, never holds an id twice, and the modal is only
      open on a full bundle. */
  lemma {:induction false} RunPreservesValid(pg: Page, testerBoxVariantId: string, actions: seq<Action>)
    requires Valid(pg.builder)
    ensures Valid(Run(pg, testerBoxVariantId, actions).builder)
    decreases |actions|
  {
    if actions != [] {
      StepPreservesValid(pg, testerBoxVariantId, actions[0]);
      RunPreservesValid(Step(pg, testerBoxVariantId, actions[0]), testerBoxVariantId, actions[1..]);
    }
  }

  /** The initial builder satisfies the invariant, so every reachable one does. */
  lemma ReachableIsValid(session: CartContext.Session, testerBoxVariantId: string, actions: seq<Action>)
    ensures Valid(Run(Page(Initial, session), testerBoxVariantId, actions).builder)
  {
    RunPreservesValid(Page(Initial, session), testerBoxVariantId, actions);
  }
}
