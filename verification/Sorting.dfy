/** The library's stable sort, by insertion, and the order on strings. */
module Sorting {

  /** x placed after everything that is not greater. */
  function Insert<T>(ys: seq<T>, x: T, less: (T, T) -> bool): seq<T> {
    if ys == [] || !less(x, ys[|ys| - 1]) then ys + [x]
    else Insert(ys[..|ys| - 1], x, less) + [ys[|ys| - 1]]
  }

  function SortStable<T>(xs: seq<T>, less: (T, T) -> bool): seq<T> {
    if xs == [] then [] else Insert(SortStable(xs[..|xs| - 1], less), xs[|xs| - 1], less)
  }

  /** less is the strict part of a total preorder. */
  ghost predicate Ordering<T(!new)>(less: (T, T) -> bool) {
    && (forall a, b :: less(a, b) ==> !less(b, a))
    && (forall a, b, c :: !less(b, a) && !less(c, b) ==> !less(c, a))
  }

  ghost predicate Sorted<T>(xs: seq<T>, less: (T, T) -> bool) {
    forall i, j :: 0 <= i < j < |xs| ==> !less(xs[j], xs[i])
  }

  lemma {:induction false} InsertIsPermutation<T>(ys: seq<T>, x: T, less: (T, T) -> bool)
    ensures multiset(Insert(ys, x, less)) == multiset(ys + [x])
  {
    if !(ys == [] || !less(x, ys[|ys| - 1])) {
      InsertIsPermutation(ys[..|ys| - 1], x, less);
      assert ys == ys[..|ys| - 1] + [ys[|ys| - 1]];
    }
  }

  lemma {:induction false} SortIsPermutation<T>(xs: seq<T>, less: (T, T) -> bool)
    ensures multiset(SortStable(xs, less)) == multiset(xs)
  {
    if xs != [] {
      SortIsPermutation(xs[..|xs| - 1], less);
      InsertIsPermutation(SortStable(xs[..|xs| - 1], less), xs[|xs| - 1], less);
      assert xs == xs[..|xs| - 1] + [xs[|xs| - 1]];
    }
  }

  lemma {:induction false} InsertKeepsSorted<T(!new)>(ys: seq<T>, x: T, less: (T, T) -> bool)
    requires Ordering(less) && Sorted(ys, less)
    ensures Sorted(Insert(ys, x, less), less)
  {
    if !(ys == [] || !less(x, ys[|ys| - 1])) {
      var init, last := ys[..|ys| - 1], ys[|ys| - 1];
      InsertKeepsSorted(init, x, less);
      InsertIsPermutation(init, x, less);
      var out := Insert(init, x, less);
      forall i | 0 <= i < |out|
        ensures !less(last, out[i])
      {
        assert out[i] in multiset(init + [x]);
        assert out[i] in init + [x];
      }
    }
  }

  lemma {:induction false} SortSorts<T(!new)>(xs: seq<T>, less: (T, T) -> bool)
    requires Ordering(less)
    ensures Sorted(SortStable(xs, less), less)
  {
    if xs != [] {
      SortSorts(xs[..|xs| - 1], less);
      InsertKeepsSorted(SortStable(xs[..|xs| - 1], less), xs[|xs| - 1], less);
    }
  }

  /** strings.Compare(a, b) < 0. */
  predicate StringLess(a: string, b: string) {
    if b == [] then false
    else if a == [] then true
    else a[0] < b[0] || (a[0] == b[0] && StringLess(a[1..], b[1..]))
  }

  lemma {:induction false} StringLessAsymmetric(a: string, b: string)
    requires StringLess(a, b)
    ensures !StringLess(b, a)
  {
    if a != [] && a[0] == b[0] {
      StringLessAsymmetric(a[1..], b[1..]);
    }
  }

  lemma {:induction false} StringLessTransitive(a: string, b: string, c: string)
    requires !StringLess(b, a) && !StringLess(c, b)
    ensures !StringLess(c, a)
  {
    if a != [] && b != [] && c != [] && a[0] == b[0] == c[0] {
      StringLessTransitive(a[1..], b[1..], c[1..]);
    }
  }

  lemma {:induction false} TwoPlaces<T>(xs: seq<T>, x: T) returns (i: nat, j: nat)
    requires multiset(xs)[x] >= 2
    ensures i < j < |xs| && xs[i] == xs[j] == x
  {
    var init, last := xs[..|xs| - 1], xs[|xs| - 1];
    assert xs == init + [last];
    if last == x {
      assert x in multiset(init);
      i :| 0 <= i < |init| && init[i] == x;
      j := |init|;
    } else {
      i, j := TwoPlaces(init, x);
    }
  }
}
