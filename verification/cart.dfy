/** The cart library (src/lib/cart.ts): turning a bundle into a single cart
    line, choosing between the create and add-lines mutations, and reading
    the mutation payloads. The remote service is a parameter mapping each
    request to the reply it gets. */
module Cart {
  import opened Wrappers
  import opened Js
  import opened Gateway
  import Decimal
  import Catalog

  /** The fields of a cart line the storefront reads; prices, titles and
      images are not modelled. */
  datatype CartLine = CartLine(id: string, quantity: nat, merchandiseId: string)

  /** A snapshot of a remote cart. */
  datatype ShopifyCart = ShopifyCart(id: string, checkoutUrl: string, lines: seq<CartLine>)

  datatype UserError = UserError(field: seq<string>, message: string)

  /** The payload of a cart mutation: the resulting cart and the validation
      errors the service reports (an absent list is represented as empty). */
  datatype MutationPayload = MutationPayload(cart: ShopifyCart, userErrors: seq<UserError>)

  /** A custom attribute attached to a cart line. */
  datatype Attribute = Attribute(key: string, value: string)

  /** A line as sent to the service. */
  datatype CartLineInput = CartLineInput(merchandiseId: string, quantity: nat, attributes: seq<Attribute>)

  /** The three cart mutations, with the variables each one sends. */
  datatype CartMutation =
    | CartCreate(lines: seq<CartLineInput>)
    | CartLinesAdd(cartId: string, lines: seq<CartLineInput>)
    | CartLinesRemove(cartId: string, lineIds: seq<string>)

  /** The remote service, as the reply it gives to each mutation. */
  type CartService = CartMutation -> Reply<MutationPayload>

  /** The remote cart query, as the reply it gives for each cart id. */
  type CartLookup = string -> Reply<Option<ShopifyCart>>

  const TesterPrefix := "Tester "

  /** The attribute key for the item at zero-based position `index`. */
  function AttributeKey(index: nat): string {
    TesterPrefix + Decimal.NatToString(index + 1)
  }

  /** One attribute per bundle item, in bundle order. */
  function LineAttributes(items: seq<Catalog.Product>): (attrs: seq<Attribute>)
    ensures |attrs| == |items|
    ensures forall i :: 0 <= i < |items| ==> attrs[i].key == AttributeKey(i) && attrs[i].value == items[i].title
  {
    seq(|items|, i requires 0 <= i < |items| => Attribute(AttributeKey(i), items[i].title))
  }

  /** Different positions get different keys, so no item's title overwrites another's. */
  lemma AttributeKeysDistinct(items: seq<Catalog.Product>)
    ensures forall i, j :: 0 <= i < j < |items| ==> LineAttributes(items)[i].key != LineAttributes(items)[j].key
  {
    var attrs := LineAttributes(items);
    forall i, j | 0 <= i < j < |items|
      ensures attrs[i].key != attrs[j].key
    {
      if attrs[i].key == attrs[j].key {
        var a, b := Decimal.NatToString(i + 1), Decimal.NatToString(j + 1);
        assert (TesterPrefix + a)[|TesterPrefix|..] == a;
        assert (TesterPrefix + b)[|TesterPrefix|..] == b;
        Decimal.NatToStringInjective(i + 1, j + 1);
      }
    }
  }

  /** A full box of ten is labelled "Tester 1" through "Tester 10". */
  lemma TenItemKeys()
    ensures AttributeKey(0) == "Tester 1"
    ensures AttributeKey(9) == "Tester 10"
  {
  }

  /** The single line that represents a whole bundle. */
  function BundleLine(testerBoxVariantId: string, items: seq<Catalog.Product>): CartLineInput {
    CartLineInput(testerBoxVariantId, 1, LineAttributes(items))
  }

  /** The mutation `addBundleToCart` sends: add-lines against a truthy cart id,
      create otherwise; either way exactly one line carrying the whole bundle. */
  function BundleRequest(cartId: Option<string>, testerBoxVariantId: string, items: seq<Catalog.Product>): (m: CartMutation)
    ensures m.CartLinesAdd? <==> Truthy(cartId)
    ensures m.CartCreate? <==> !Truthy(cartId)
    ensures m.CartLinesAdd? ==> m.cartId == cartId.value
    ensures !m.CartLinesRemove?
    ensures |m.lines| == 1
    ensures m.lines[0].merchandiseId == testerBoxVariantId && m.lines[0].quantity == 1
    ensures m.lines[0].attributes == LineAttributes(items)
  {
    var line := BundleLine(testerBoxVariantId, items);
    if Truthy(cartId) then CartLinesAdd(cartId.value, [line]) else CartCreate([line])
  }

  /** How every cart mutation reads its reply: a failed fetch propagates, a
      non-empty `userErrors` throws its first message, otherwise the cart is
      returned as it came. */
  function MutationOutcome(reply: Reply<MutationPayload>): Result<ShopifyCart, Error> {
    match reply
    case FetchFailed => Failure(FetchError)
    case Delivered(payload) =>
      if |payload.userErrors| > 0 then Failure(Thrown(payload.userErrors[0].message))
      else Success(payload.cart)
  }

  /** `addBundleToCart`: sends `BundleRequest` and reads its reply. */
  function AddBundleToCart(cartId: Option<string>, testerBoxVariantId: string, items: seq<Catalog.Product>,
                           service: CartService): (r: Result<ShopifyCart, Error>)
    ensures var reply := service(BundleRequest(cartId, testerBoxVariantId, items));
      && (r.Success? <==> reply.Delivered? && reply.data.userErrors == [])
      && (r.Success? ==> r.value == reply.data.cart)
      && (reply.Delivered? && |reply.data.userErrors| > 0 ==> r == Failure(Thrown(reply.data.userErrors[0].message)))
      && (reply.FetchFailed? ==> r == Failure(FetchError))
  {
    MutationOutcome(service(BundleRequest(cartId, testerBoxVariantId, items)))
  }

  /** The result of `addBundleToCart` depends only on the reply to the one
      request it sends, never on what the other path would have answered. */
  lemma AddBundleUsesOnlyItsRequest(cartId: Option<string>, testerBoxVariantId: string,
                                    items: seq<Catalog.Product>, s1: CartService, s2: CartService)
    requires s1(BundleRequest(cartId, testerBoxVariantId, items)) == s2(BundleRequest(cartId, testerBoxVariantId, items))
    ensures AddBundleToCart(cartId, testerBoxVariantId, items, s1) == AddBundleToCart(cartId, testerBoxVariantId, items, s2)
  {
  }

  /** The mutation `removeFromCart` sends. */
  function RemoveRequest(cartId: string, lineId: string): (m: CartMutation)
    ensures m.CartLinesRemove? && m.cartId == cartId && m.lineIds == [lineId]
  {
    CartLinesRemove(cartId, [lineId])
  }

  /** `removeFromCart`: removes exactly one line and reads the reply like the
      other mutations. */
  function RemoveFromCart(cartId: string, lineId: string, service: CartService): (r: Result<ShopifyCart, Error>)
    ensures var reply := service(RemoveRequest(cartId, lineId));
      && (r.Success? <==> reply.Delivered? && reply.data.userErrors == [])
      && (r.Success? ==> r.value == reply.data.cart)
      && (reply.Delivered? && |reply.data.userErrors| > 0 ==> r == Failure(Thrown(reply.data.userErrors[0].message)))
      && (reply.FetchFailed? ==> r == Failure(FetchError))
  {
    MutationOutcome(service(RemoveRequest(cartId, lineId)))
  }

  /** `getCart`: the query's `cart` field as it came, `null` included; only a
      failed fetch is an error. */
  function GetCart(cartId: string, lookup: CartLookup): (r: Result<Option<ShopifyCart>, Error>)
    ensures r.Success? <==> lookup(cartId).Delivered?
    ensures r.Success? ==> r.value == lookup(cartId).data
    ensures r.Failure? ==> r.error == FetchError
  {
    match lookup(cartId)
    case Delivered(cart) => Success(cart)
    case FetchFailed => Failure(FetchError)
  }
}
