/** Sequence operations the storefront performs with array built-ins:
    `filter` (order-preserving selection), `filter(Boolean)` over nullable
    entries, and `[...new Set(xs)]` (de-duplication keeping first occurrences). */
module Seqs {
  import opened Wrappers

  predicate NoDuplicates<T(==)>(xs: seq<T>) {
    forall i, j :: 0 <= i < j < |xs| ==> xs[i] != xs[j]
  }

  /** `xs.filter(keep)`: the elements `keep` accepts, in their original order. */
  function Filter<T(==)>(keep: T -> bool, xs: seq<T>): (r: seq<T>)
    ensures |r| <= |xs|
    ensures forall x | x in r :: x in xs && keep(x)
    ensures forall x | x in xs && keep(x) :: x in r
  {
    if xs == [] then []
    else (if keep(xs[0]) then [xs[0]] else []) + Filter(keep, xs[1..])
  }

  /** Filtering distributes over concatenation, so the relative order of the
      kept elements is the order they had in the input. */
  lemma {:induction false} FilterAppend<T>(keep: T -> bool, xs: seq<T>, ys: seq<T>)
    ensures Filter(keep, xs + ys) == Filter(keep, xs) + Filter(keep, ys)
  {
    if xs == [] {
      assert xs + ys == ys;
    } else {
      assert (xs + ys)[1..] == xs[1..] + ys;
      FilterAppend(keep, xs[1..], ys);
    }
  }

  /** A filter that accepts every element returns its input unchanged. */
  lemma {:induction false} FilterKeepsAll<T>(keep: T -> bool, xs: seq<T>)
    requires forall i :: 0 <= i < |xs| ==> keep(xs[i])
    ensures Filter(keep, xs) == xs
  {
    if xs != [] {
      FilterKeepsAll(keep, xs[1..]);
    }
  }

  /** Two predicates that agree on every element select the same subsequence. */
  lemma {:induction false} FilterCongruent<T>(keep1: T -> bool, keep2: T -> bool, xs: seq<T>)
    requires forall i :: 0 <= i < |xs| ==> keep1(xs[i]) == keep2(xs[i])
    ensures Filter(keep1, xs) == Filter(keep2, xs)
  {
    if xs != [] {
      FilterCongruent(keep1, keep2, xs[1..]);
    }
  }

  /** Filtering never introduces a duplicate. */
  lemma {:induction false} FilterNoDuplicates<T>(keep: T -> bool, xs: seq<T>)
    requires NoDuplicates(xs)
    ensures NoDuplicates(Filter(keep, xs))
  {
    if xs != [] {
      FilterNoDuplicates(keep, xs[1..]);
      assert xs[0] !in xs[1..];
    }
  }

  /** When `keep` rejects exactly the element at `i`, filtering removes exactly
      that element and keeps the rest in order. */
  lemma {:induction false} FilterDropsOne<T>(keep: T -> bool, xs: seq<T>, i: nat)
    requires i < |xs|
    requires !keep(xs[i])
    requires forall j :: 0 <= j < |xs| && j != i ==> keep(xs[j])
    ensures Filter(keep, xs) == xs[..i] + xs[i + 1..]
  {
    var before, after := xs[..i], xs[i + 1..];
    var rest := [xs[i]] + after;
    assert xs == before + rest;
    KeepsSlice(keep, xs, 0, i);
    KeepsSlice(keep, xs, i + 1, |xs|);
    assert xs[i + 1..|xs|] == after;
    assert [xs[i]][1..] == [];
    assert Filter(keep, [xs[i]]) == [];
    FilterAppend(keep, [xs[i]], after);
    assert Filter(keep, rest) == after;
    FilterAppend(keep, before, rest);
    calc {
      Filter(keep, xs);
      Filter(keep, before + rest);
      Filter(keep, before) + Filter(keep, rest);
      before + after;
    }
  }

  /** Helper: a slice all of whose elements are kept survives filtering intact. */
  lemma KeepsSlice<T>(keep: T -> bool, xs: seq<T>, lo: nat, hi: nat)
    requires lo <= hi <= |xs|
    requires forall j :: lo <= j < hi ==> keep(xs[j])
    ensures Filter(keep, xs[lo..hi]) == xs[lo..hi]
  {
    var part := xs[lo..hi];
    forall j | 0 <= j < |part| ensures keep(part[j]) {
      assert part[j] == xs[lo + j];
    }
    FilterKeepsAll(keep, part);
  }

  /** `xs.filter(Boolean)` over nullable entries: the present values, in order. */
  function Present<T(==)>(xs: seq<Option<T>>): (r: seq<T>)
    ensures |r| <= |xs|
    ensures forall x | x in r :: Some(x) in xs
    ensures forall i | 0 <= i < |xs| && xs[i].Some? :: xs[i].value in r
    ensures |xs| == 1 ==> r == (if xs[0].Some? then [xs[0].value] else [])
  {
    if xs == [] then []
    else (if xs[0].Some? then [xs[0].value] else []) + Present(xs[1..])
  }

  /** Dropping absent entries distributes over concatenation (order is kept). */
  lemma {:induction false} PresentAppend<T>(xs: seq<Option<T>>, ys: seq<Option<T>>)
    ensures Present(xs + ys) == Present(xs) + Present(ys)
  {
    if xs == [] {
      assert xs + ys == ys;
    } else {
      assert (xs + ys)[1..] == xs[1..] + ys;
      PresentAppend(xs[1..], ys);
    }
  }

  /** `[...new Set(xs)]`: each value once, in the order of its first occurrence
      (the iteration order of a JavaScript `Set`). */
  function Distinct<T(==)>(xs: seq<T>): (r: seq<T>)
    ensures |r| <= |xs|
    ensures NoDuplicates(r)
    ensures forall x | x in r :: x in xs
    ensures forall x | x in xs :: x in r
  {
    if xs == [] then []
    else
      var prefix := Distinct(xs[..|xs| - 1]);
      var last := xs[|xs| - 1];
      assert xs == xs[..|xs| - 1] + [last];
      if last in prefix then prefix else prefix + [last]
  }

  /** A sequence that already has no duplicates is its own de-duplication. */
  lemma {:induction false} DistinctOfNoDuplicates<T>(xs: seq<T>)
    requires NoDuplicates(xs)
    ensures Distinct(xs) == xs
  {
    if xs != [] {
      var init := xs[..|xs| - 1];
      assert NoDuplicates(init);
      DistinctOfNoDuplicates(init);
      assert xs[|xs| - 1] !in init;
      assert init + [xs[|xs| - 1]] == xs;
    }
  }
}
