/** Outcome datatypes shared by every service. */
module Wrappers {
  datatype Option<+T> = None | Some(value: T)

  datatype Result<+R, +E> = Ok(value: R) | Err(error: E)
}

/**
 Sums over tables. A table is a sequence of rows and a figure read from it is
 SumBy(rows, f), where f is a named function value: the same name with the
 same arguments always denotes the same figure.
 */
module Sums {

  function SumBy<T>(xs: seq<T>, f: T -> int): int {
    if xs == [] then 0 else SumBy(xs[..|xs| - 1], f) + f(xs[|xs| - 1])
  }

  /** f on the rows whose key is k, zero on the others. */
  function Only<T, K(==)>(key: T -> K, k: K, f: T -> int): T -> int {
    x => if key(x) == k then f(x) else 0
  }

  /** The figure of one group of rows, as a function of the group's key. */
  function GroupSum<T, K(==)>(xs: seq<T>, key: T -> K, f: T -> int): K -> int {
    k => SumBy(xs, Only(key, k, f))
  }

  function Negated<T>(f: T -> int): T -> int {
    x => -f(x)
  }

  ghost predicate Distinct<T>(xs: seq<T>) {
    forall i, j :: 0 <= i < j < |xs| ==> xs[i] != xs[j]
  }

  lemma DistinctAppend<T>(xs: seq<T>, x: T)
    ensures Distinct(xs + [x]) <==> Distinct(xs) && x !in xs
  {
    var longer := xs + [x];
    assert longer[|xs|] == x && forall i :: 0 <= i < |xs| ==> longer[i] == xs[i];
    forall i | 0 <= i < |xs| ensures Distinct(longer) ==> xs[i] != x {
    }
  }

  lemma SumAppend<T>(xs: seq<T>, x: T, f: T -> int)
    ensures SumBy(xs + [x], f) == SumBy(xs, f) + f(x)
  {
    assert (xs + [x])[..|xs|] == xs;
  }

  lemma SumStep<T>(xs: seq<T>, i: nat, f: T -> int)
    requires i < |xs|
    ensures SumBy(xs[..i + 1], f) == SumBy(xs[..i], f) + f(xs[i])
  {
    assert xs[..i + 1] == xs[..i] + [xs[i]];
    SumAppend(xs[..i], xs[i], f);
  }

  lemma {:induction false} SumConcat<T>(xs: seq<T>, ys: seq<T>, f: T -> int)
    ensures SumBy(xs + ys, f) == SumBy(xs, f) + SumBy(ys, f)
  {
    if ys == [] {
      assert xs + ys == xs;
    } else {
      var init, last := ys[..|ys| - 1], ys[|ys| - 1];
      assert xs + ys == (xs + init) + [last];
      SumAppend(xs + init, last, f);
      SumConcat(xs, init, f);
    }
  }

  lemma SumHead<T>(xs: seq<T>, f: T -> int)
    requires xs != []
    ensures SumBy(xs, f) == f(xs[0]) + SumBy(xs[1..], f)
  {
    assert xs == [xs[0]] + xs[1..];
    SumConcat([xs[0]], xs[1..], f);
    assert SumBy([xs[0]], f) == SumBy([], f) + f(xs[0]) by { assert [] + [xs[0]] == [xs[0]]; SumAppend([], xs[0], f); }
  }

  lemma SumUpdate<T>(xs: seq<T>, i: nat, y: T, f: T -> int)
    requires i < |xs|
    ensures SumBy(xs[i := y], f) == SumBy(xs, f) - f(xs[i]) + f(y)
  {
    assert xs == xs[..i] + [xs[i]] + xs[i + 1..];
    assert xs[i := y] == xs[..i] + [y] + xs[i + 1..];
    SumAppend(xs[..i], xs[i], f);
    SumAppend(xs[..i], y, f);
    SumConcat(xs[..i] + [xs[i]], xs[i + 1..], f);
    SumConcat(xs[..i] + [y], xs[i + 1..], f);
  }

  lemma {:induction false} SumSame<T>(xs: seq<T>, f: T -> int, g: T -> int)
    requires forall x :: x in xs ==> f(x) == g(x)
    ensures SumBy(xs, f) == SumBy(xs, g)
  {
    if xs != [] {
      SumSame(xs[..|xs| - 1], f, g);
    }
  }

  lemma {:induction false} SumPlus<T>(xs: seq<T>, f: T -> int, g: T -> int, h: T -> int)
    requires forall x :: x in xs ==> h(x) == f(x) + g(x)
    ensures SumBy(xs, h) == SumBy(xs, f) + SumBy(xs, g)
  {
    if xs != [] {
      SumPlus(xs[..|xs| - 1], f, g, h);
    }
  }

  lemma {:induction false} SumNegated<T>(xs: seq<T>, f: T -> int)
    ensures SumBy(xs, Negated(f)) == -SumBy(xs, f)
  {
    if xs != [] {
      SumNegated(xs[..|xs| - 1], f);
    }
  }

  lemma {:induction false} SumZero<T>(xs: seq<T>, f: T -> int)
    requires forall x :: x in xs ==> f(x) == 0
    ensures SumBy(xs, f) == 0
  {
    if xs != [] {
      SumZero(xs[..|xs| - 1], f);
    }
  }

  lemma {:induction false} SumLeq<T>(xs: seq<T>, f: T -> int, g: T -> int)
    requires forall x :: x in xs ==> f(x) <= g(x)
    ensures SumBy(xs, f) <= SumBy(xs, g)
  {
    if xs != [] {
      SumLeq(xs[..|xs| - 1], f, g);
    }
  }

  lemma {:induction false} SumNonNegative<T>(xs: seq<T>, f: T -> int)
    requires forall x :: x in xs ==> f(x) >= 0
    ensures SumBy(xs, f) >= 0
    ensures forall x :: x in xs ==> f(x) <= SumBy(xs, f)
  {
    if xs != [] {
      SumNonNegative(xs[..|xs| - 1], f);
    }
  }

  /** Two tables that agree row by row have the same figure. */
  lemma {:induction false} SumPairwise<T, U>(xs: seq<T>, ys: seq<U>, f: T -> int, g: U -> int)
    requires |xs| == |ys| && forall i :: 0 <= i < |xs| ==> f(xs[i]) == g(ys[i])
    ensures SumBy(xs, f) == SumBy(ys, g)
  {
    if xs != [] {
      SumPairwise(xs[..|xs| - 1], ys[..|ys| - 1], f, g);
    }
  }

  /** The groups' figures add up to the figure of the whole table. */
  lemma {:induction false} Partition<T, K>(xs: seq<T>, keys: seq<K>, key: T -> K, f: T -> int)
    requires Distinct(keys)
    requires forall x :: x in xs ==> key(x) in keys
    ensures SumBy(keys, GroupSum(xs, key, f)) == SumBy(xs, f)
  {
    if xs == [] {
      SumZero(keys, GroupSum(xs, key, f));
    } else {
      var init, last := xs[..|xs| - 1], xs[|xs| - 1];
      Partition(init, keys, key, f);
      var point := (k: K) => if key(last) == k then f(last) else 0;
      SumPlus(keys, GroupSum(init, key, f), point, GroupSum(xs, key, f));
      assert last in xs;
      SumPoint(keys, key(last), f(last), point);
    }
  }

  lemma {:induction false} SumPoint<K>(keys: seq<K>, k: K, v: int, point: K -> int)
    requires Distinct(keys)
    requires forall x :: point(x) == if k == x then v else 0
    ensures SumBy(keys, point) == if k in keys then v else 0
  {
    if keys != [] {
      var init, last := keys[..|keys| - 1], keys[|keys| - 1];
      SumPoint(init, k, v, point);
      assert keys == init + [last];
      assert k in keys <==> k in init || k == last;
      assert last !in init;
    }
  }
}
