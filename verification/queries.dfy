/** The catalog queries (src/lib/queries.ts): loading the tester collection
    and the tester-box variant, normalising products, deriving the facet
    option lists, and the batch lookup used by the wishlist page. Each query's
    reply is a parameter. */
module Queries {
  import opened Wrappers
  import opened Js
  import opened Gateway
  import opened Seqs
  import opened Catalog

  /** A custom metafield; the query returns `null` for a missing one. */
  datatype Metafield = Metafield(value: string)

  /** A product node of the collection query (images are not modelled). */
  datatype ProductNode = ProductNode(
    id: string,
    title: string,
    handle: string,
    variantIds: seq<string>,
    brand: Option<Metafield>,
    fragranceType: Option<Metafield>,
    gender: Option<Metafield>)

  /** The collection query's `collection` field, when the handle resolves. */
  datatype Collection = Collection(edges: seq<ProductNode>)

  /** The tester-box query's `product` field, when the handle resolves. */
  datatype BoxProduct = BoxProduct(variantIds: seq<string>)

  /** What `getTesterProductsAndFilters` returns. */
  datatype TesterCatalog = TesterCatalog(products: seq<Product>, filters: Filters, testerBoxVariantId: string)

  /** A node of the batch lookup (images are not modelled). */
  datatype ProductSummary = ProductSummary(id: string, title: string, handle: string)

  const CollectionHandle := "tester-perfumes"
  const ProductHandle := "perfume-tester-box"

  const CollectionNotFound := "Collection with handle \"" + CollectionHandle
    + "\" not found. Please check the handle in your Shopify admin."
  const ProductNotFound := "Product with handle \"" + ProductHandle
    + "\" not found. Please check the handle in your Shopify admin."
  const VariantNotFound := "The product \"" + ProductHandle
    + "\" does not have a variant. Please add one in Shopify."

  /** `metafield?.value || null`. */
  function MetafieldValue(m: Option<Metafield>): (r: Option<string>)
    ensures r.Some? <==> m.Some? && m.value.value != ""
    ensures r.Some? ==> r.value == m.value.value
  {
    OrNull(if m.Some? then Some(m.value.value) else None)
  }

  /** A collection node as a `Product`: its first variant's id and its three
      facets as non-empty values or `null`. */
  function NormalizeProduct(node: ProductNode): (p: Product)
    requires |node.variantIds| > 0
    ensures p.id == node.id && p.title == node.title && p.variantId == node.variantIds[0]
    ensures p.brand == MetafieldValue(node.brand)
    ensures p.fragranceType == MetafieldValue(node.fragranceType)
    ensures p.gender == MetafieldValue(node.gender)
  {
    Product(node.id, node.variantIds[0], node.title,
            MetafieldValue(node.brand), MetafieldValue(node.fragranceType), MetafieldValue(node.gender))
  }

  predicate AllHaveVariants(edges: seq<ProductNode>) {
    forall i :: 0 <= i < |edges| ==> |edges[i].variantIds| > 0
  }

  /** The products list, one per edge and in edge order. */
  function NormalizeProducts(edges: seq<ProductNode>): (ps: seq<Product>)
    requires AllHaveVariants(edges)
    ensures |ps| == |edges|
    ensures forall i :: 0 <= i < |edges| ==> ps[i] == NormalizeProduct(edges[i])
  {
    seq(|edges|, i requires 0 <= i < |edges| => NormalizeProduct(edges[i]))
  }

  /** The truthy values of facet `f` over `products`, in product order,
      repetitions included (`products.map(...).filter(Boolean)`). */
  function TruthyFacetValues(products: seq<Product>, f: Facet): (vs: seq<string>)
    ensures forall v | v in vs :: v != "" && exists i :: 0 <= i < |products| && FacetValue(products[i], f) == Some(v)
    ensures forall i | 0 <= i < |products| && Truthy(FacetValue(products[i], f)) :: FacetValue(products[i], f).value in vs
  {
    if products == [] then []
    else
      var v := FacetValue(products[0], f);
      var rest := TruthyFacetValues(products[1..], f);
      assert forall i | 0 < i < |products| :: products[i] == products[1..][i - 1];
      (if Truthy(v) then [v.value] else []) + rest
  }

  /** One facet's option list: each truthy value once, first occurrence first. */
  function FacetList(products: seq<Product>, f: Facet): (options: seq<string>)
    ensures NoDuplicates(options)
    ensures forall v :: v in options <==> v != "" && exists i :: 0 <= i < |products| && FacetValue(products[i], f) == Some(v)
  {
    Distinct(TruthyFacetValues(products, f))
  }

  /** The `filters` object derived from the products: for every facet, each
      non-empty value some product carries, listed once. */
  function DeriveFilters(products: seq<Product>): (filters: Filters)
    ensures forall f :: FacetOptions(filters, f) == FacetList(products, f)
    ensures forall f :: NoDuplicates(FacetOptions(filters, f))
    ensures forall f, v :: v in FacetOptions(filters, f) <==>
      v != "" && exists i :: 0 <= i < |products| && FacetValue(products[i], f) == Some(v)
  {
    Filters(FacetList(products, Brand), FacetList(products, FragranceType), FacetList(products, Gender))
  }

  /** `variants.edges[0]?.node.id`, tested for truthiness. */
  function FirstVariantId(box: BoxProduct): (r: Option<string>)
    ensures r.Some? <==> |box.variantIds| > 0 && box.variantIds[0] != ""
    ensures r.Some? ==> r.value == box.variantIds[0]
  {
    OrNull(if |box.variantIds| > 0 then Some(box.variantIds[0]) else None)
  }

  /** `getTesterProductsAndFilters`, given the replies of its two queries, in
      the order the checks are made: collection fetched, collection found,
      tester box fetched, tester box found, every product has a variant
      (otherwise the mapping crashes), tester box has a variant. */
  function GetTesterProductsAndFilters(collectionReply: Reply<Option<Collection>>,
                                       boxReply: Reply<Option<BoxProduct>>): (r: Result<TesterCatalog, Error>)
    ensures collectionReply.FetchFailed? ==> r == Failure(FetchError)
    ensures collectionReply == Delivered(None) ==> r == Failure(Thrown(CollectionNotFound))
    ensures collectionReply.Delivered? && collectionReply.data.Some? ==>
      && (boxReply.FetchFailed? ==> r == Failure(FetchError))
      && (boxReply == Delivered(None) ==> r == Failure(Thrown(ProductNotFound)))
    ensures r.Success? ==>
      && collectionReply.Delivered? && collectionReply.data.Some?
      && boxReply.Delivered? && boxReply.data.Some?
      && var edges := collectionReply.data.value.edges;
         var box := boxReply.data.value;
         && AllHaveVariants(edges)
         && |r.value.products| == |edges|
         && (forall i :: 0 <= i < |edges| ==> r.value.products[i] == NormalizeProduct(edges[i]))
         && r.value.filters == DeriveFilters(r.value.products)
         && |box.variantIds| > 0 && r.value.testerBoxVariantId == box.variantIds[0] && r.value.testerBoxVariantId != ""
    ensures r.Failure? && r.error == Thrown(VariantNotFound) ==>
      boxReply.Delivered? && boxReply.data.Some? && FirstVariantId(boxReply.data.value).None?
    ensures collectionReply.Delivered? && collectionReply.data.Some? && boxReply.Delivered? && boxReply.data.Some? ==>
      var edges := collectionReply.data.value.edges;
      var box := boxReply.data.value;
      && (!AllHaveVariants(edges) ==> r == Failure(TypeError))
      && (AllHaveVariants(edges) && FirstVariantId(box).None? ==> r == Failure(Thrown(VariantNotFound)))
      && (AllHaveVariants(edges) && FirstVariantId(box).Some? ==> r.Success?)
  {
    match collectionReply
    case FetchFailed => Failure(FetchError)
    case Delivered(None) => Failure(Thrown(CollectionNotFound))
    case Delivered(Some(collection)) =>
      match boxReply
      case FetchFailed => Failure(FetchError)
      case Delivered(None) => Failure(Thrown(ProductNotFound))
      case Delivered(Some(box)) =>
        if !AllHaveVariants(collection.edges) then Failure(TypeError)
        else
          var products := NormalizeProducts(collection.edges);
          var filters := DeriveFilters(products);
          match FirstVariantId(box)
          case None => Failure(Thrown(VariantNotFound))
          case Some(variantId) => Success(TesterCatalog(products, filters, variantId))
  }

  /** The collection is checked before the tester box is looked at: when the
      collection query fails or finds nothing, the tester-box reply does not
      matter. */
  lemma CollectionCheckedFirst(collectionReply: Reply<Option<Collection>>,
                               box1: Reply<Option<BoxProduct>>, box2: Reply<Option<BoxProduct>>)
    requires collectionReply.FetchFailed? || collectionReply == Delivered(None)
    ensures GetTesterProductsAndFilters(collectionReply, box1) == GetTesterProductsAndFilters(collectionReply, box2)
    ensures GetTesterProductsAndFilters(collectionReply, box1).Failure?
  {
  }

  /** Every option offered by a successful load is the value of that facet on
      some listed product, and every product's facet value is offered. */
  lemma FiltersCoverProducts(collectionReply: Reply<Option<Collection>>, boxReply: Reply<Option<BoxProduct>>, f: Facet)
    requires GetTesterProductsAndFilters(collectionReply, boxReply).Success?
    ensures var cat := GetTesterProductsAndFilters(collectionReply, boxReply).value;
      && NoDuplicates(FacetOptions(cat.filters, f))
      && (forall i :: 0 <= i < |cat.products| && FacetValue(cat.products[i], f).Some? ==>
            FacetValue(cat.products[i], f).value in FacetOptions(cat.filters, f))
      && (forall v :: v in FacetOptions(cat.filters, f) ==>
            exists i :: 0 <= i < |cat.products| && FacetValue(cat.products[i], f) == Some(v))
  {
  }

  /** The metafield a collection node carries for facet `f`. */
  function NodeMetafield(node: ProductNode, f: Facet): Option<Metafield> {
    match f
    case Brand => node.brand
    case FragranceType => node.fragranceType
    case Gender => node.gender
  }

  /** End to end from the collection: a value is offered for facet `f` exactly
      when it is non-empty and some node's metafield for `f` holds it. */
  lemma FacetListFromMetafields(edges: seq<ProductNode>, f: Facet, v: string)
    requires AllHaveVariants(edges)
    ensures v in FacetList(NormalizeProducts(edges), f) <==>
      v != "" && exists i :: 0 <= i < |edges| && NodeMetafield(edges[i], f) == Some(Metafield(v))
  {
  }

  /** `getProductsByIds`: the nodes that resolved, in the order returned. */
  function GetProductsByIds(ids: seq<string>, lookup: seq<string> -> Reply<seq<Option<ProductSummary>>>)
    : (r: Result<seq<ProductSummary>, Error>)
    ensures r.Failure? <==> lookup(ids).FetchFailed?
    ensures r.Failure? ==> r.error == FetchError
    ensures r.Success? ==>
      && |r.value| <= |lookup(ids).data|
      && (forall n :: n in r.value <==> Some(n) in lookup(ids).data)
  {
    match lookup(ids)
    case FetchFailed => Failure(FetchError)
    case Delivered(nodes) => Success(Present(nodes))
  }

  /** The lookup keeps the resolved nodes in the order the service returned
      them: the result for a concatenated reply is the concatenation of the
      results for its parts. */
  lemma ProductsByIdsKeepsOrder(ids: seq<string>, lookup: seq<string> -> Reply<seq<Option<ProductSummary>>>,
                                xs: seq<Option<ProductSummary>>, ys: seq<Option<ProductSummary>>)
    requires lookup(ids) == Delivered(xs + ys)
    ensures GetProductsByIds(ids, lookup) == Success(Present(xs) + Present(ys))
  {
    PresentAppend(xs, ys);
  }

  /** Looking up three ids of which the middle one no longer resolves returns
      the other two, in their original order. */
  lemma ProductsByIdsDropsMissing(a: ProductSummary, c: ProductSummary,
                                  lookup: seq<string> -> Reply<seq<Option<ProductSummary>>>)
    requires lookup([a.id, "B", c.id]) == Delivered([Some(a), None, Some(c)])
    ensures GetProductsByIds([a.id, "B", c.id], lookup) == Success([a, c])
  {
    var nodes := [Some(a), None, Some(c)];
    assert nodes[1..][1..][1..] == [];
    assert Present(nodes[1..][1..]) == [c];
    assert Present(nodes[1..]) == [c];
    assert Present(nodes) == [a, c];
  }
}
