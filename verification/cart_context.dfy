/** The cart context (src/contexts/CartContext.tsx): the cached cart snapshot,
    the cart id persisted under "shopify_cart_id", the derived item count and
    the startup reconciliation. Local storage is an abstract string map. */
module CartContext {
  import opened Wrappers
  import opened Js
  import opened Gateway
  import opened Cart

  const CartIdKey := "shopify_cart_id"

  /** Browser-local storage as a map from keys to stored strings. */
  type Store = map<string, string>

  /** The provider's state: cached cart, local storage, and the loading flag. */
  datatype Session = Session(cart: Option<ShopifyCart>, store: Store, isLoading: bool)

  /** The state when the provider mounts, before startup has run. */
  function Mount(store: Store): (s: Session)
    ensures s.cart.None? && s.store == store && s.isLoading
  {
    Session(None, store, true)
  }

  /** `localStorage.getItem(key)`. */
  function GetItem(store: Store, key: string): Option<string> {
    if key in store then Some(store[key]) else None
  }

  /** `initializeCart`: with a truthy stored id, fetch that cart; keep what the
      fetch returns (even `null`), or forget the id if the fetch throws. */
  function InitializeCart(s: Session, lookup: CartLookup): (r: Session)
    ensures !r.isLoading
    ensures !Truthy(GetItem(s.store, CartIdKey)) ==> r.cart == s.cart && r.store == s.store
    ensures Truthy(GetItem(s.store, CartIdKey)) && lookup(s.store[CartIdKey]).FetchFailed? ==>
      r.cart == s.cart && r.store == s.store - {CartIdKey}
    ensures Truthy(GetItem(s.store, CartIdKey)) && lookup(s.store[CartIdKey]).Delivered? ==>
      r.cart == lookup(s.store[CartIdKey]).data && r.store == s.store
    ensures forall k :: k != CartIdKey ==> GetItem(r.store, k) == GetItem(s.store, k)
  {
    var stored := GetItem(s.store, CartIdKey);
    if Truthy(stored) then
      match GetCart(stored.value, lookup)
      case Success(cartData) => s.(cart := cartData, isLoading := false)
      case Failure(_) => s.(store := s.store - {CartIdKey}, isLoading := false)
    else
      s.(isLoading := false)
  }

  /** `updateCart`: caches the new snapshot and persists its id. */
  function UpdateCart(s: Session, newCart: ShopifyCart): (r: Session)
    ensures r.cart == Some(newCart)
    ensures GetItem(r.store, CartIdKey) == Some(newCart.id)
    ensures forall k :: k != CartIdKey ==> GetItem(r.store, k) == GetItem(s.store, k)
    ensures r.isLoading == s.isLoading
  {
    Session(Some(newCart), s.store[CartIdKey := newCart.id], s.isLoading)
  }

  /** After `updateCart`, a reload whose fetch returns the same cart restores
      it: the persisted id is the one startup looks up. */
  lemma ReloadAfterUpdate(s: Session, newCart: ShopifyCart, lookup: CartLookup)
    requires newCart.id != ""
    requires lookup(newCart.id) == Delivered(Some(newCart))
    ensures InitializeCart(Mount(UpdateCart(s, newCart).store), lookup).cart == Some(newCart)
    ensures InitializeCart(Mount(UpdateCart(s, newCart).store), lookup).store == UpdateCart(s, newCart).store
  {
  }

  /** Startup from a freshly mounted provider: the cart stays null unless the
      lookup of a truthy stored id delivers, storage changes only when that
      lookup fails, and loading ends either way. */
  lemma StartupFromMount(store: Store, lookup: CartLookup)
    ensures var r := InitializeCart(Mount(store), lookup);
      && !r.isLoading
      && (!Truthy(GetItem(store, CartIdKey)) ==> r.cart.None? && r.store == store)
      && (Truthy(GetItem(store, CartIdKey)) && lookup(store[CartIdKey]).FetchFailed? ==>
            r.cart.None? && CartIdKey !in r.store)
      && (r.cart.Some? ==> Truthy(GetItem(store, CartIdKey)) && lookup(store[CartIdKey]) == Delivered(r.cart))
  {
  }

  /** The total quantity over a list of lines. */
  function SumQuantities(lines: seq<CartLine>): (total: nat)
    ensures forall i :: 0 <= i < |lines| ==> lines[i].quantity <= total
  {
    if lines == [] then 0 else lines[0].quantity + SumQuantities(lines[1..])
  }

  /** The count is additive over concatenated line lists. */
  lemma {:induction false} SumQuantitiesAppend(a: seq<CartLine>, b: seq<CartLine>)
    ensures SumQuantities(a + b) == SumQuantities(a) + SumQuantities(b)
  {
    if a == [] {
      assert a + b == b;
    } else {
      assert (a + b)[1..] == a[1..] + b;
      SumQuantitiesAppend(a[1..], b);
    }
  }

  /** `cartCount`: the sum of line quantities, 0 without a cart. The `|| 0`
      fallback only matters for a non-numeric sum, which natural quantities
      cannot produce. */
  function CartCount(cart: Option<ShopifyCart>): (count: nat)
    ensures cart.None? ==> count == 0
    ensures cart.Some? && cart.value.lines == [] ==> count == 0
    ensures cart.Some? ==> forall i :: 0 <= i < |cart.value.lines| ==> cart.value.lines[i].quantity <= count
  {
    if cart.Some? then SumQuantities(cart.value.lines) else 0
  }

  /** Adding a cart line to a snapshot raises the count by exactly its quantity. */
  lemma CountAfterAppend(c: ShopifyCart, line: CartLine)
    ensures CartCount(Some(c.(lines := c.lines + [line]))) == CartCount(Some(c)) + line.quantity
  {
    SumQuantitiesAppend(c.lines, [line]);
    assert [line][1..] == [];
  }

  /** Removing line `i` through `removeFromCart` and caching the result, when
      the service answers with the cart minus exactly that line, lowers the
      count by that line's quantity and keeps the cart id. */
  lemma RemoveLineLowersCount(s: Session, c: ShopifyCart, i: nat, service: CartService)
    requires i < |c.lines|
    requires service(RemoveRequest(c.id, c.lines[i].id))
      == Delivered(MutationPayload(c.(lines := c.lines[..i] + c.lines[i + 1..]), []))
    ensures RemoveFromCart(c.id, c.lines[i].id, service).Success?
    ensures var after := UpdateCart(s, RemoveFromCart(c.id, c.lines[i].id, service).value);
      && CartCount(after.cart) + c.lines[i].quantity == CartCount(Some(c))
      && GetItem(after.store, CartIdKey) == Some(c.id)
  {
    var before, after := c.lines[..i], c.lines[i + 1..];
    assert c.lines == before + ([c.lines[i]] + after);
    SumQuantitiesAppend(before, [c.lines[i]] + after);
    SumQuantitiesAppend([c.lines[i]], after);
    assert [c.lines[i]][1..] == [];
    SumQuantitiesAppend(before, after);
  }
}
