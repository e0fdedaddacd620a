/** The read-only product projection shared by the catalog queries, the
    bundle builder and the cart library, and its three filter facets. */
module Catalog {
  import opened Wrappers

  /** A catalog product as the builder sees it. Each facet is `null` when the
      product has no usable value for it. Images are not modelled. */
  datatype Product = Product(
    id: string,
    variantId: string,
    title: string,
    brand: Option<string>,
    fragranceType: Option<string>,
    gender: Option<string>)

  /** The three independent filter dimensions. */
  datatype Facet = Brand | FragranceType | Gender

  function FacetValue(p: Product, f: Facet): Option<string> {
    match f
    case Brand => p.brand
    case FragranceType => p.fragranceType
    case Gender => p.gender
  }

  /** The option lists offered for each facet. */
  datatype Filters = Filters(brands: seq<string>, fragranceTypes: seq<string>, genders: seq<string>)

  function FacetOptions(filters: Filters, f: Facet): seq<string> {
    match f
    case Brand => filters.brands
    case FragranceType => filters.fragranceTypes
    case Gender => filters.genders
  }
}
