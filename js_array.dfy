/** The two JavaScript array operations the views use on their lists: `xs.map(f)` and
    `xs.filter(keep)`. Both build a new array and leave their input alone. */
module JsArray {

  /** `xs.map(f)`: one result per element, in the same order. */
  function Map<T, U>(xs: seq<T>, f: T -> U): (ys: seq<U>)
    ensures |ys| == |xs|
    ensures forall i :: 0 <= i < |xs| ==> ys[i] == f(xs[i])
  {
    if xs == [] then [] else [f(xs[0])] + Map(xs[1..], f)
  }

  /** `xs.filter(keep)`: the elements that pass `keep`, in their original order. */
  function Filter<T(!new)>(xs: seq<T>, keep: T -> bool): (ys: seq<T>)
    ensures |ys| <= |xs|
    ensures forall y :: y in ys <==> y in xs && keep(y)
  {
    if xs == [] then []
    else if keep(xs[0]) then [xs[0]] + Filter(xs[1..], keep)
    else Filter(xs[1..], keep)
  }

  /** Filtering commutes with concatenation, so the survivors keep their relative order. */
  lemma {:induction false} FilterConcat<T(!new)>(xs: seq<T>, zs: seq<T>, keep: T -> bool)
    ensures Filter(xs + zs, keep) == Filter(xs, keep) + Filter(zs, keep)
  {
    if xs == [] {
      assert xs + zs == zs;
    } else {
      assert (xs + zs)[1..] == xs[1..] + zs;
      FilterConcat(xs[1..], zs, keep);
    }
  }

  /** When every element passes, the filter gives back its input. */
  lemma {:induction false} FilterKeepsAll<T(!new)>(xs: seq<T>, keep: T -> bool)
    requires forall i :: 0 <= i < |xs| ==> keep(xs[i])
    ensures Filter(xs, keep) == xs
  {
    if xs != [] {
      FilterKeepsAll(xs[1..], keep);
    }
  }

  /** Filtering twice with the same test is filtering once. */
  lemma FilterIdempotent<T(!new)>(xs: seq<T>, keep: T -> bool)
    ensures Filter(Filter(xs, keep), keep) == Filter(xs, keep)
  {
  }

  /** The number of elements that `keep` rejects. */
  function Rejected<T>(xs: seq<T>, keep: T -> bool): nat
  {
    if xs == [] then 0 else (if keep(xs[0]) then 0 else 1) + Rejected(xs[1..], keep)
  }

  /** The filter shrinks its input by exactly the rejected elements. */
  lemma {:induction false} FilterLength<T(!new)>(xs: seq<T>, keep: T -> bool)
    ensures |Filter(xs, keep)| == |xs| - Rejected(xs, keep)
  {
    if xs != [] {
      FilterLength(xs[1..], keep);
    }
  }

  /** No two elements of `xs` share a key. */
  ghost predicate DistinctBy<T, K>(xs: seq<T>, key: T -> K)
  {
    forall i, j :: 0 <= i < j < |xs| ==> key(xs[i]) != key(xs[j])
  }

  /** Dropping elements cannot make two keys collide. */
  lemma {:induction false} FilterKeepsDistinct<T(!new), K>(xs: seq<T>, keep: T -> bool, key: T -> K)
    requires DistinctBy(xs, key)
    ensures DistinctBy(Filter(xs, keep), key)
  {
    if xs != [] {
      var tail := xs[1..];
      assert DistinctBy(tail, key) by {
        forall i, j | 0 <= i < j < |tail| ensures key(tail[i]) != key(tail[j]) {
          assert tail[i] == xs[i + 1] && tail[j] == xs[j + 1];
        }
      }
      FilterKeepsDistinct(tail, keep, key);
      if keep(xs[0]) {
        var rest := Filter(tail, keep);
        var ys := [xs[0]] + rest;
        forall i, j | 0 <= i < j < |ys| ensures key(ys[i]) != key(ys[j]) {
          if i == 0 {
            assert ys[j] == rest[j - 1] && rest[j - 1] in rest;
            var k :| 0 <= k < |tail| && tail[k] == rest[j - 1];
            assert xs[k + 1] == ys[j];
          } else {
            assert ys[i] == rest[i - 1] && ys[j] == rest[j - 1];
          }
        }
      }
    }
  }
}
