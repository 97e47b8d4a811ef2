/**
 * Python's ordering of str values (lexicographic on code points) and
 * sorted() over a list of str.
 */
module Sorting {

  /** a <= b for Python strings. */
  predicate Le(a: string, b: string)
    decreases |a|
  {
    a == [] || (b != [] && (a[0] < b[0] || (a[0] == b[0] && Le(a[1..], b[1..]))))
  }

  lemma {:induction false} LeTotal(a: string, b: string)
    ensures Le(a, b) || Le(b, a)
    decreases |a|
  {
    if a != [] && b != [] && a[0] == b[0] {
      LeTotal(a[1..], b[1..]);
    }
  }

  lemma {:induction false} LeTransitive(a: string, b: string, c: string)
    requires Le(a, b) && Le(b, c)
    ensures Le(a, c)
    decreases |a|
  {
    if a != [] && a[0] == b[0] && b[0] == c[0] {
      LeTransitive(a[1..], b[1..], c[1..]);
    }
  }

  lemma {:induction false} LeAntisymmetric(a: string, b: string)
    requires Le(a, b) && Le(b, a)
    ensures a == b
    decreases |a|
  {
    if a != [] {
      LeAntisymmetric(a[1..], b[1..]);
      assert a == [a[0]] + a[1..] && b == [b[0]] + b[1..];
    }
  }

  predicate Sorted(xs: seq<string>)
  {
    forall i, j :: 0 <= i < j < |xs| ==> Le(xs[i], xs[j])
  }

  /** All of xs are at least y. */
  predicate AllAtLeast(y: string, xs: seq<string>)
  {
    forall k :: 0 <= k < |xs| ==> Le(y, xs[k])
  }

  /** Inserts x into a sorted list before the first element it does not exceed. */
  function Insert(x: string, xs: seq<string>): (r: seq<string>)
    ensures multiset(r) == multiset(xs) + multiset{x}
  {
    if xs == [] || Le(x, xs[0]) then [x] + xs
    else
      assert xs == [xs[0]] + xs[1..];
      [xs[0]] + Insert(x, xs[1..])
  }

  lemma {:induction false} InsertKeepsLowerBound(y: string, x: string, xs: seq<string>)
    requires Le(y, x) && AllAtLeast(y, xs)
    ensures AllAtLeast(y, Insert(x, xs))
  {
    if !(xs == [] || Le(x, xs[0])) {
      InsertKeepsLowerBound(y, x, xs[1..]);
    }
  }

  lemma {:induction false} InsertKeepsSorted(x: string, xs: seq<string>)
    requires Sorted(xs)
    ensures Sorted(Insert(x, xs))
  {
    if xs == [] || Le(x, xs[0]) {
      forall j | 0 < j < |xs|
        ensures Le(x, xs[j])
      {
        LeTransitive(x, xs[0], xs[j]);
      }
    } else {
      LeTotal(x, xs[0]);
      InsertKeepsSorted(x, xs[1..]);
      InsertKeepsLowerBound(xs[0], x, xs[1..]);
    }
  }

  /** sorted(xs) */
  function Sort(xs: seq<string>): (r: seq<string>)
    ensures Sorted(r)
    ensures multiset(r) == multiset(xs)
  {
    if xs == [] then []
    else
      assert xs == [xs[0]] + xs[1..];
      InsertKeepsSorted(xs[0], Sort(xs[1..]));
      Insert(xs[0], Sort(xs[1..]))
  }

  lemma SortedTail(xs: seq<string>)
    requires Sorted(xs) && xs != []
    ensures Sorted(xs[1..])
  {
  }

  lemma {:induction false} SortedHeadIsLeast(xs: seq<string>, y: string)
    requires Sorted(xs) && y in multiset(xs)
    ensures Le(xs[0], y)
  {
    var j :| 0 <= j < |xs| && xs[j] == y;
    if j == 0 {
      LeTotal(y, y);
    }
  }

  /**
   * A sorted arrangement of a list is unique: any sorted permutation of xs
   * is Sort(xs), so Sort is Python's sorted() whatever algorithm that uses.
   */
  lemma {:induction false} SortedPermutationIsUnique(a: seq<string>, b: seq<string>)
    requires Sorted(a) && Sorted(b) && multiset(a) == multiset(b)
    ensures a == b
    decreases |a|
  {
    if a != [] {
      SortedSameHead(a, b);
      DropHead(a);
      DropHead(b);
      SortedTail(a);
      SortedTail(b);
      SortedPermutationIsUnique(a[1..], b[1..]);
      assert a == [a[0]] + a[1..] && b == [b[0]] + b[1..];
    }
  }

  /** Two sorted permutations of each other start with the same element. */
  lemma SortedSameHead(a: seq<string>, b: seq<string>)
    requires Sorted(a) && Sorted(b) && multiset(a) == multiset(b) && a != []
    ensures b != [] && a[0] == b[0]
  {
    assert |multiset(a)| == |a| && |multiset(b)| == |b|;
    assert a[0] in multiset(b);
    assert b[0] in multiset(a);
    SortedHeadIsLeast(b, a[0]);
    SortedHeadIsLeast(a, b[0]);
    LeAntisymmetric(a[0], b[0]);
  }

  lemma DropHead(a: seq<string>)
    requires a != []
    ensures multiset(a[1..]) == multiset(a) - multiset{a[0]}
  {
    assert a == [a[0]] + a[1..];
  }
}
