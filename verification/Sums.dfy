/**
 Totals over table rows: a sum of a per-row amount, and the laws the ledger proofs need.  A sum is folded in the order
 in which a loop over the rows adds it up, so a loop invariant can speak of the rows read so far; that the order does
 not matter is one of the laws.  The listing of a set stands for a loop over a dictionary in whatever order it has.
 */
module Sums {

  /** The sum of f over xs, folded in the order a loop over xs adds it up. */
  function Sum<T>(xs: seq<T>, f: T -> int): int
  {
    if |xs| == 0 then 0 else Sum(xs[..|xs| - 1], f) + f(xs[|xs| - 1])
  }

  ghost predicate Distinct<T>(xs: seq<T>)
  {
    forall i, j :: 0 <= i < j < |xs| ==> xs[i] != xs[j]
  }

  lemma SumPush<T>(xs: seq<T>, x: T, f: T -> int)
    ensures Sum(xs + [x], f) == Sum(xs, f) + f(x)
  {
    assert (xs + [x])[..|xs|] == xs;
  }

  lemma {:induction false} SumConcat<T>(xs: seq<T>, ys: seq<T>, f: T -> int)
    ensures Sum(xs + ys, f) == Sum(xs, f) + Sum(ys, f)
  {
    if |ys| == 0 {
      assert xs + ys == xs;
    } else {
      var n := |ys| - 1;
      SumConcat(xs, ys[..n], f);
      assert (xs + ys)[..|xs + ys| - 1] == xs + ys[..n];
    }
  }

  lemma {:induction false} SumAgree<T>(xs: seq<T>, f: T -> int, g: T -> int)
    requires forall i :: 0 <= i < |xs| ==> f(xs[i]) == g(xs[i])
    ensures Sum(xs, f) == Sum(xs, g)
  {
    if |xs| > 0 {
      SumAgree(xs[..|xs| - 1], f, g);
    }
  }

  lemma {:induction false} SumPairwise<T>(xs: seq<T>, ys: seq<T>, f: T -> int)
    requires |xs| == |ys| && forall i :: 0 <= i < |xs| ==> f(xs[i]) == f(ys[i])
    ensures Sum(xs, f) == Sum(ys, f)
  {
    if |xs| > 0 {
      SumPairwise(xs[..|xs| - 1], ys[..|ys| - 1], f);
    }
  }

  lemma {:induction false} SumAtMost<T>(xs: seq<T>, f: T -> int, g: T -> int)
    requires forall i :: 0 <= i < |xs| ==> f(xs[i]) <= g(xs[i])
    ensures Sum(xs, f) <= Sum(xs, g)
  {
    if |xs| > 0 {
      SumAtMost(xs[..|xs| - 1], f, g);
    }
  }

  /** A sum of rows whose amounts are f = g + k * h row by row. */
  lemma {:induction false} SumLinear<T>(xs: seq<T>, f: T -> int, g: T -> int, k: int, h: T -> int)
    requires forall i :: 0 <= i < |xs| ==> f(xs[i]) == g(xs[i]) + k * h(xs[i])
    ensures Sum(xs, f) == Sum(xs, g) + k * Sum(xs, h)
  {
    if |xs| > 0 {
      var n := |xs| - 1;
      SumLinear(xs[..n], f, g, k, h);
      assert f(xs[n]) == g(xs[n]) + k * h(xs[n]);
      assert k * Sum(xs, h) == k * Sum(xs[..n], h) + k * h(xs[n]);
    }
  }

  lemma {:induction false} SumNonNegative<T>(xs: seq<T>, f: T -> int)
    requires forall i :: 0 <= i < |xs| ==> 0 <= f(xs[i])
    ensures 0 <= Sum(xs, f)
  {
    if |xs| > 0 {
      SumNonNegative(xs[..|xs| - 1], f);
    }
  }

  lemma SumWithout<T>(xs: seq<T>, k: nat, f: T -> int)
    requires k < |xs|
    ensures Sum(xs, f) == Sum(xs[..k] + xs[k + 1..], f) + f(xs[k])
  {
    hide Sum;
    assert xs == xs[..k] + [xs[k]] + xs[k + 1..];
    SumConcat(xs[..k] + [xs[k]], xs[k + 1..], f);
    SumPush(xs[..k], xs[k], f);
    SumConcat(xs[..k], xs[k + 1..], f);
  }

  lemma SumUpdated<T>(xs: seq<T>, k: nat, x: T, f: T -> int)
    requires k < |xs|
    ensures Sum(xs[k := x], f) == Sum(xs, f) - f(xs[k]) + f(x)
  {
    SumWithout(xs, k, f);
    SumWithout(xs[k := x], k, f);
    assert xs[k := x][..k] + xs[k := x][k + 1..] == xs[..k] + xs[k + 1..];
  }

  /** A sum does not depend on the order a query lists its rows in. */
  lemma {:induction false} SumOrderFree<T>(xs: seq<T>, ys: seq<T>, f: T -> int)
    requires multiset(xs) == multiset(ys)
    ensures Sum(xs, f) == Sum(ys, f)
  {
    if |xs| == 0 {
      assert |multiset(ys)| == 0;
    } else {
      var n := |xs| - 1;
      assert xs == xs[..n] + [xs[n]];
      assert xs[n] in multiset(ys);
      var k :| 0 <= k < |ys| && ys[k] == xs[n];
      assert ys == ys[..k] + [ys[k]] + ys[k + 1..];
      assert multiset(ys[..k] + ys[k + 1..]) == multiset(ys) - multiset{xs[n]};
      SumOrderFree(xs[..n], ys[..k] + ys[k + 1..], f);
      SumWithout(ys, k, f);
    }
  }

  lemma {:induction false} DistinctCount<T>(xs: seq<T>, x: T)
    requires Distinct(xs)
    ensures multiset(xs)[x] == if x in xs then 1 else 0
  {
    if |xs| > 0 {
      var n := |xs| - 1;
      DistinctCount(xs[..n], x);
      assert xs == xs[..n] + [xs[n]];
    }
  }

  lemma SameRowsSameMultiset<T>(xs: seq<T>, ys: seq<T>)
    requires Distinct(xs) && Distinct(ys)
    requires forall x :: x in xs <==> x in ys
    ensures multiset(xs) == multiset(ys)
  {
    forall x ensures multiset(xs)[x] == multiset(ys)[x] {
      DistinctCount(xs, x);
      DistinctCount(ys, x);
    }
  }

  /** Two listings of the same rows have the same sum. */
  lemma SameRowsSameSum<T>(xs: seq<T>, ys: seq<T>, f: T -> int)
    requires Distinct(xs) && Distinct(ys)
    requires forall x :: x in xs <==> x in ys
    ensures Sum(xs, f) == Sum(ys, f)
  {
    SameRowsSameMultiset(xs, ys);
    SumOrderFree(xs, ys, f);
  }

  /**
   If every row of xs with a positive amount also occurs in ys, and ys has no negative amounts, ys sums to at least
   as much.
   */
  lemma {:induction false} SumWithin<T>(xs: seq<T>, ys: seq<T>, f: T -> int)
    requires Distinct(xs) && Distinct(ys)
    requires forall i :: 0 <= i < |ys| ==> 0 <= f(ys[i])
    requires forall i :: 0 <= i < |xs| && 0 < f(xs[i]) ==> xs[i] in ys
    ensures Sum(xs, f) <= Sum(ys, f)
  {
    if |xs| == 0 {
      SumNonNegative(ys, f);
    } else {
      var n := |xs| - 1;
      if f(xs[n]) <= 0 {
        SumWithin(xs[..n], ys, f);
      } else {
        var k :| 0 <= k < |ys| && ys[k] == xs[n];
        var rest := ys[..k] + ys[k + 1..];
        forall i | 0 <= i < n && 0 < f(xs[..n][i]) ensures xs[..n][i] in rest {
          var j :| 0 <= j < |ys| && ys[j] == xs[i];
          assert rest[if j < k then j else j - 1] == xs[i];
        }
        SumWithin(xs[..n], rest, f);
        SumWithout(ys, k, f);
      }
    }
  }

  /** The rows of xs that satisfy p, in table order. */
  function Where<T(!new)>(xs: seq<T>, p: T -> bool): (r: seq<T>)
    ensures forall x :: x in r <==> x in xs && p(x)
  {
    if |xs| == 0 then []
    else
      var rest := Where(xs[..|xs| - 1], p);
      if p(xs[|xs| - 1]) then rest + [xs[|xs| - 1]] else rest
  }

  lemma {:induction false} SumWhere<T(!new)>(xs: seq<T>, p: T -> bool, f: T -> int, g: T -> int)
    requires forall i :: 0 <= i < |xs| ==> g(xs[i]) == if p(xs[i]) then f(xs[i]) else 0
    ensures Sum(Where(xs, p), f) == Sum(xs, g)
  {
    if |xs| > 0 {
      var n := |xs| - 1;
      SumWhere(xs[..n], p, f, g);
      SumPush(Where(xs[..n], p), xs[n], f);
    }
  }

  lemma {:induction false} DistinctWhere<T(!new)>(xs: seq<T>, p: T -> bool)
    requires Distinct(xs)
    ensures Distinct(Where(xs, p))
  {
    if |xs| > 0 {
      DistinctWhere(xs[..|xs| - 1], p);
    }
  }

  lemma {:induction false} DistinctSize<T>(xs: seq<T>, s: set<T>)
    requires Distinct(xs) && forall x :: x in s <==> x in xs
    ensures |xs| == |s|
  {
    if |xs| == 0 {
      assert s == {};
    } else {
      var n := |xs| - 1;
      DistinctSize(xs[..n], s - {xs[n]});
    }
  }

  /** Distinct members of a set, as many as it has, are all of them. */
  lemma {:induction false} DistinctCovers<T>(xs: seq<T>, s: set<T>, x: T)
    requires Distinct(xs) && |xs| == |s| && x in s
    requires forall i :: 0 <= i < |xs| ==> xs[i] in s
    ensures x in xs
  {
    assert |s - {x}| == |s| - 1;
    var n := |xs| - 1;
    if x != xs[n] {
      DistinctCovers(xs[..n], s - {xs[n]}, x);
    }
  }

  /** A dictionary's keys in the order a loop over it happens to meet them. */
  method Listing<T(==)>(s: set<T>) returns (xs: seq<T>)
    ensures Distinct(xs)
    ensures forall x :: x in xs <==> x in s
    ensures |xs| == |s|
  {
    xs := [];
    var todo := s;
    while todo != {}
      invariant Distinct(xs)
      invariant forall x :: x in s <==> x in xs || x in todo
      invariant forall x :: x in todo ==> x !in xs
      invariant |xs| + |todo| == |s|
      decreases |todo|
    {
      var x :| x in todo;
      xs := xs + [x];
      todo := todo - {x};
    }
  }
}
