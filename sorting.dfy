/**
 * Swift's `sorted(by:)`, the library sort the service hands its comparators
 * to. It is modelled by an insertion sort; what is claimed of it is only what
 * any correct sort delivers: the output is a permutation of the input, and
 * when the comparator is a strict order no later element is ordered before an
 * earlier one. Each element is inserted after the already placed elements it
 * is not ordered before, so tied elements keep their input order; that is
 * proved for a pair of tied elements.
 */
module Sorting {

  /** `less` never relates an element to itself and chains transitively. */
  ghost predicate StrictOrder<T(!new)>(less: (T, T) -> bool)
  {
    && (forall x :: !less(x, x))
    && (forall x, y, z :: less(x, y) && less(y, z) ==> less(x, z))
  }

  /** No element is ordered strictly before an element that precedes it. */
  ghost predicate SortedBy<T>(xs: seq<T>, less: (T, T) -> bool)
  {
    forall i, j :: 0 <= i < j < |xs| ==> !less(xs[j], xs[i])
  }

  /** Places `x` in front of the first element of `ys` that `x` is ordered before. */
  function Insert<T>(x: T, ys: seq<T>, less: (T, T) -> bool): (r: seq<T>)
    ensures multiset(r) == multiset(ys) + multiset{x}
    ensures |r| == |ys| + 1
  {
    if ys == [] || less(x, ys[0]) then [x] + ys
    else
      assert ys == [ys[0]] + ys[1..];
      [ys[0]] + Insert(x, ys[1..], less)
  }

  /**
   * `sorted(by: less)`: each element in turn, from the first to the last, is
   * inserted after every element already placed that it is not ordered before.
   */
  function Sort<T>(xs: seq<T>, less: (T, T) -> bool): (r: seq<T>)
    ensures multiset(r) == multiset(xs)
    ensures |r| == |xs|
  {
    if xs == [] then []
    else
      var n := |xs| - 1;
      assert xs == xs[..n] + [xs[n]];
      Insert(xs[n], Sort(xs[..n], less), less)
  }

  /** Inserting into a sorted sequence keeps it sorted under a strict order. */
  lemma {:induction false} InsertSorted<T(!new)>(x: T, ys: seq<T>, less: (T, T) -> bool)
    requires StrictOrder(less)
    requires SortedBy(ys, less)
    ensures SortedBy(Insert(x, ys, less), less)
  {
    var r := Insert(x, ys, less);
    if ys == [] {
      assert r == [x];
    } else if less(x, ys[0]) {
      forall i, j | 0 <= i < j < |r|
        ensures !less(r[j], r[i])
      {
        assert r[j] == ys[j - 1];
        if i > 0 {
          assert r[i] == ys[i - 1];
        }
      }
    } else {
      var tail := Insert(x, ys[1..], less);
      InsertSorted(x, ys[1..], less);
      assert multiset(tail) == multiset(ys[1..]) + multiset{x};
      forall k | 0 <= k < |tail|
        ensures !less(tail[k], ys[0])
      {
        assert tail[k] in multiset(tail);
        if tail[k] != x {
          assert tail[k] in multiset(ys[1..]);
          var m :| 0 <= m < |ys[1..]| && ys[1..][m] == tail[k];
          assert ys[m + 1] == tail[k];
        }
      }
      assert r == [ys[0]] + tail;
    }
  }

  /** Under a strict order the result of `Sort` is sorted. */
  lemma {:induction false} SortSorted<T(!new)>(xs: seq<T>, less: (T, T) -> bool)
    requires StrictOrder(less)
    ensures SortedBy(Sort(xs, less), less)
  {
    if xs != [] {
      var n := |xs| - 1;
      SortSorted(xs[..n], less);
      InsertSorted(xs[n], Sort(xs[..n], less), less);
    }
  }

  /** Two elements neither of which is ordered before the other keep their order. */
  lemma SortKeepsTiedPair<T>(a: T, b: T, less: (T, T) -> bool)
    requires !less(a, b) && !less(b, a)
    ensures Sort([a, b], less) == [a, b]
  {
    assert [a, b][..1] == [a];
    assert Sort([a], less) == [a];
  }
}
