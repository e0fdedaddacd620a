/** The wishlist context (src/contexts/WishlistContext.tsx): a set of product
    ids kept in insertion order, as a JavaScript `Set` iterates, and persisted
    as an array of ids under the storage key "wishlist". */
module Wishlist {
  import opened Wrappers
  import opened Seqs

  const StorageKey := "wishlist"

  /** The ids in the set's iteration order. */
  datatype Wishlist = Wishlist(items: seq<string>)

  const Empty := Wishlist([])

  /** A `Set` never holds a value twice. */
  predicate Valid(w: Wishlist) {
    NoDuplicates(w.items)
  }

  function Members(w: Wishlist): set<string> {
    set x | x in w.items
  }

  /** `isWishlisted`. */
  function IsWishlisted(w: Wishlist, productId: string): (b: bool)
    ensures b <==> productId in Members(w)
  {
    productId in w.items
  }

  /** `toggleWishlist`: deletes a present id, appends an absent one. */
  function Toggle(w: Wishlist, productId: string): (r: Wishlist)
    ensures productId in Members(w) ==> productId !in Members(r)
    ensures productId !in Members(w) ==> productId in Members(r)
    ensures forall other :: other != productId ==> (other in Members(r) <==> other in Members(w))
    ensures Valid(w) ==> Valid(r)
  {
    if productId in w.items then
      var kept := Filter(x => x != productId, w.items);
      FilterPreservesValid(w, productId);
      Wishlist(kept)
    else
      Wishlist(w.items + [productId])
  }

  lemma FilterPreservesValid(w: Wishlist, productId: string)
    ensures Valid(w) ==> NoDuplicates(Filter(x => x != productId, w.items))
  {
    if Valid(w) {
      FilterNoDuplicates(x => x != productId, w.items);
    }
  }

  /** Toggling the same id twice restores the set. */
  lemma ToggleTwice(w: Wishlist, productId: string)
    ensures Members(Toggle(Toggle(w, productId), productId)) == Members(w)
  {
  }

  /** Adding then removing an id restores even the iteration order. */
  lemma {:induction false} ToggleTwiceRestoresOrder(w: Wishlist, productId: string)
    requires productId !in w.items
    ensures Toggle(Toggle(w, productId), productId) == w
  {
    var keep := x => x != productId;
    FilterAppend(keep, w.items, [productId]);
    assert [productId][1..] == [];
    assert Filter(keep, [productId]) == [];
    FilterKeepsAll(keep, w.items);
  }

  /** The array written to storage (`Array.from(wishlistItems)`). */
  function Save(w: Wishlist): (stored: seq<string>)
    ensures Valid(w) ==> NoDuplicates(stored)
    ensures forall x :: x in stored <==> x in Members(w)
  {
    w.items
  }

  /** The set rebuilt at startup from the stored array, or the empty set when
      nothing is stored (`new Set(array)` keeps first occurrences). */
  function Load(stored: Option<seq<string>>): (w: Wishlist)
    ensures Valid(w)
    ensures stored.None? ==> w == Empty
    ensures stored.Some? ==> forall x :: x in Members(w) <==> x in stored.value
  {
    match stored
    case None => Empty
    case Some(ids) => Wishlist(Distinct(ids))
  }

  /** Saving and reloading gives back the same wishlist, order included. */
  lemma SaveLoadRoundTrip(w: Wishlist)
    requires Valid(w)
    ensures Load(Some(Save(w))) == w
  {
    DistinctOfNoDuplicates(w.items);
  }
}
