/** Small vocabulary shared by every module: options, duplicate-free sequences and
    sums over sequences. */
module Basics {

  datatype Option<+T> = None | Some(value: T)

  ghost predicate NoDup<T>(xs: seq<T>) {
    forall i, j :: 0 <= i < j < |xs| ==> xs[i] != xs[j]
  }

  /** A duplicate-free sequence is as long as the set of its elements. */
  lemma {:induction false} NoDupCard<T>(xs: seq<T>)
    requires NoDup(xs)
    ensures |set x | x in xs| == |xs|
  {
    if xs == [] {
      assert (set x | x in xs) == {};
    } else {
      var init, last := xs[..|xs| - 1], xs[|xs| - 1];
      NoDupCard(init);
      assert last !in init;
      assert (set x | x in xs) == (set x | x in init) + {last};
    }
  }

  lemma SubsetCard<T>(a: set<T>, b: set<T>)
    requires a <= b
    ensures |a| <= |b|
  {
    assert b == a + (b - a);
  }

  /** A set whose elements all occur in a sequence is not larger than it is long. */
  lemma {:induction false} CoveredCard<T>(a: set<T>, xs: seq<T>)
    requires forall x :: x in a ==> x in xs
    ensures |a| <= |xs|
  {
    if xs != [] {
      var last := xs[|xs| - 1];
      CoveredCard(a - {last}, xs[..|xs| - 1]);
      SubsetCard(a, (a - {last}) + {last});
    } else {
      assert a == {};
    }
  }

  /** Names the element that shows a sequence is not empty. */
  lemma HeadIsIn<T>(xs: seq<T>)
    ensures xs == [] || xs[0] in xs
  {
  }

  /** Finitely many numbers leave one that is not among them. */
  lemma {:induction false} Unused(xs: set<nat>) returns (b: nat)
    ensures forall x :: x in xs ==> x < b
  {
    if xs == {} {
      b := 0;
    } else {
      var x :| x in xs;
      var c := Unused(xs - {x});
      b := if x < c then c else x + 1;
      forall y | y in xs ensures y < b {
        assert y == x || y in xs - {x};
      }
    }
  }

  function Sum(xs: seq<int>): int {
    if xs == [] then 0 else Sum(xs[..|xs| - 1]) + xs[|xs| - 1]
  }

  lemma {:induction false} SumUpdate(xs: seq<int>, i: nat, x: int)
    requires i < |xs|
    ensures Sum(xs[i := x]) == Sum(xs) - xs[i] + x
  {
    var n := |xs| - 1;
    if i == n {
      assert xs[i := x][..n] == xs[..n];
    } else {
      assert xs[i := x][..n] == xs[..n][i := x];
      SumUpdate(xs[..n], i, x);
    }
  }
}
