/** Sums over sequences and over the values of a dictionary, as the scoring and reporting
    folds use them. */
module Sums {

  function SumOf<T>(xs: seq<T>, f: T -> int): int {
    if xs == [] then 0 else f(xs[0]) + SumOf(xs[1..], f)
  }

  lemma {:induction false} SumSnoc<T>(xs: seq<T>, i: nat, f: T -> int)
    requires i < |xs|
    ensures SumOf(xs[..i + 1], f) == SumOf(xs[..i], f) + f(xs[i])
  {
    if i > 0 {
      SumSnoc(xs[1..], i - 1, f);
      assert xs[..i + 1][1..] == xs[1..][..i];
      assert xs[..i][1..] == xs[1..][..i - 1];
    }
  }

  lemma {:induction false} SumMonotone<T>(xs: seq<T>, f: T -> int, g: T -> int)
    requires forall x :: x in xs ==> f(x) <= g(x)
    ensures SumOf(xs, f) <= SumOf(xs, g)
  {
    if xs != [] {
      SumMonotone(xs[1..], f, g);
    }
  }

  lemma {:induction false} SumConcat<T>(xs: seq<T>, ys: seq<T>, f: T -> int)
    ensures SumOf(xs + ys, f) == SumOf(xs, f) + SumOf(ys, f)
  {
    if xs == [] {
      assert xs + ys == ys;
    } else {
      SumConcat(xs[1..], ys, f);
      assert (xs + ys)[1..] == xs[1..] + ys;
    }
  }

  lemma {:induction false} SumNonNegative<T>(xs: seq<T>, f: T -> int)
    requires forall x :: x in xs ==> 0 <= f(x)
    ensures 0 <= SumOf(xs, f)
  {
    if xs != [] {
      SumNonNegative(xs[1..], f);
    }
  }

  function CountOf<T>(xs: seq<T>, holds: T -> bool): (count: nat)
    ensures count <= |xs|
  {
    if xs == [] then 0 else (if holds(xs[0]) then 1 else 0) + CountOf(xs[1..], holds)
  }

  lemma {:induction false} CountSnoc<T>(xs: seq<T>, i: nat, holds: T -> bool)
    requires i < |xs|
    ensures CountOf(xs[..i + 1], holds) == CountOf(xs[..i], holds) + if holds(xs[i]) then 1 else 0
  {
    if i > 0 {
      CountSnoc(xs[1..], i - 1, holds);
      assert xs[..i + 1][1..] == xs[1..][..i];
      assert xs[..i][1..] == xs[1..][..i - 1];
    }
  }

  /** Something holds of a list exactly when it is counted at least once. */
  lemma {:induction false} CountPositive<T>(xs: seq<T>, holds: T -> bool)
    ensures 0 < CountOf(xs, holds) <==> exists x :: x in xs && holds(x)
  {
    if xs != [] {
      CountPositive(xs[1..], holds);
      assert forall x :: x in xs <==> x == xs[0] || x in xs[1..];
    }
  }

  lemma {:induction false} CountConcat<T>(xs: seq<T>, ys: seq<T>, holds: T -> bool)
    ensures CountOf(xs + ys, holds) == CountOf(xs, holds) + CountOf(ys, holds)
  {
    if xs == [] {
      assert xs + ys == ys;
    } else {
      CountConcat(xs[1..], ys, holds);
      assert (xs + ys)[1..] == xs[1..] + ys;
    }
  }

  lemma {:induction false} CountMonotone<T>(xs: seq<T>, before: T -> bool, after: T -> bool)
    requires forall x :: x in xs && before(x) ==> after(x)
    ensures CountOf(xs, before) <= CountOf(xs, after)
  {
    if xs != [] {
      CountMonotone(xs[1..], before, after);
    }
  }

  lemma PairTotals<T>(x: T, y: T, f: T -> int, holds: T -> bool)
    ensures SumOf([x, y], f) == f(x) + f(y)
    ensures CountOf([x, y], holds) == (if holds(x) then 1 else 0) + (if holds(y) then 1 else 0)
  {
    assert [x, y][1..] == [y] && [y][1..] == [];
    assert SumOf([y], f) == f(y);
  }

  lemma {:induction false} SumZero<T>(xs: seq<T>, f: T -> int)
    requires forall k :: 0 <= k < |xs| ==> f(xs[k]) == 0
    ensures SumOf(xs, f) == 0
  {
    if xs != [] {
      SumZero(xs[1..], f);
    }
  }

  lemma {:induction false} CountZero<T>(xs: seq<T>, holds: T -> bool)
    requires forall k :: 0 <= k < |xs| ==> !holds(xs[k])
    ensures CountOf(xs, holds) == 0
  {
    if xs != [] {
      CountZero(xs[1..], holds);
    }
  }

  // ---------------------------------------------------------------- dictionaries of totals

  /** Add to the total kept under a key; a missing key starts at zero. */
  function Bump<K(==)>(m: map<K, int>, key: K, amount: int): map<K, int> {
    m[key := (if key in m then m[key] else 0) + amount]
  }

  ghost function ValueSum<K>(m: map<K, int>): int {
    if m == map[] then 0
    else
      var key :| key in m;
      m[key] + ValueSum(m - {key})
  }

  lemma {:induction false} ValueSumWithout<K>(m: map<K, int>, key: K)
    requires key in m
    ensures ValueSum(m) == m[key] + ValueSum(m - {key})
  {
    var first :| first in m && ValueSum(m) == m[first] + ValueSum(m - {first});
    if first != key {
      ValueSumWithout(m - {first}, key);
      ValueSumWithout(m - {key}, first);
      assert m - {first} - {key} == m - {key} - {first};
    }
  }

  lemma ValueSumBump<K>(m: map<K, int>, key: K, amount: int)
    ensures ValueSum(Bump(m, key, amount)) == ValueSum(m) + amount
  {
    var after := Bump(m, key, amount);
    ValueSumWithout(after, key);
    assert after - {key} == m - {key};
    if key in m {
      ValueSumWithout(m, key);
    } else {
      assert m - {key} == m;
    }
  }
}
