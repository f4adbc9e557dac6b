/** Number helpers shared by the fetcher and the summariser: decimal rounding
    and the reductions `sum`, `max` and `min` over a list of reals. */
module Numeric {

  /** Python's `round(x, digits)`: the nearest multiple of 10^-digits, ties
      upwards. Rounding x to d + 1 digits is rounding 10 * x to d digits and
      dividing by 10. */
  function Round(x: real, digits: nat): real
    decreases digits
  {
    if digits == 0 then (x + 0.5).Floor as real else Round(x * 10.0, digits - 1) / 10.0
  }

  /** Rounding never reverses the order of two values. */
  lemma {:induction false} RoundMonotone(x: real, y: real, digits: nat)
    requires x <= y
    ensures Round(x, digits) <= Round(y, digits)
    decreases digits
  {
    if digits == 0 {
      assert (x + 0.5).Floor <= (y + 0.5).Floor;
    } else {
      RoundMonotone(x * 10.0, y * 10.0, digits - 1);
    }
  }

  /** Rounding keeps a value non-negative. */
  lemma {:induction false} RoundNonNegative(x: real, digits: nat)
    requires x >= 0.0
    ensures Round(x, digits) >= 0.0
    decreases digits
  {
    if digits > 0 {
      RoundNonNegative(x * 10.0, digits - 1);
    }
  }

  /** A whole number is left as it is by rounding. */
  lemma {:induction false} RoundWhole(n: int, digits: nat)
    ensures Round(n as real, digits) == n as real
    decreases digits
  {
    if digits > 0 {
      var m := 10 * n;
      assert n as real * 10.0 == m as real;
      RoundWhole(m, digits - 1);
      assert Round(n as real, digits) == Round(m as real, digits - 1) / 10.0;
    }
  }

  /** Python's `sum` over a list of reals. */
  function Sum(xs: seq<real>): real
  {
    if xs == [] then 0.0 else Sum(xs[..|xs| - 1]) + xs[|xs| - 1]
  }

  /** Adding one element at the end adds it to the sum. */
  lemma SumAppend(xs: seq<real>, x: real)
    ensures Sum(xs + [x]) == Sum(xs) + x
  {
    assert (xs + [x])[..|xs|] == xs;
  }

  /** The sum of a three-element list. */
  lemma SumOfThree(a: real, b: real, c: real)
    ensures Sum([a, b, c]) == a + b + c
  {
    assert [a, b, c] == [] + [a] + [b] + [c];
    SumAppend([], a);
    SumAppend([a], b);
    SumAppend([a, b], c);
  }

  /** Dividing by a positive number keeps the order. */
  lemma DivideMonotone(a: real, b: real, c: real)
    requires c > 0.0 && a <= b
    ensures a / c <= b / c
  {
    assert b / c - a / c == (b - a) / c;
  }

  /** Python's `max` over a non-empty list: an element no other element exceeds. */
  function Max(xs: seq<real>): (m: real)
    requires xs != []
    ensures m in xs
    ensures forall i :: 0 <= i < |xs| ==> xs[i] <= m
  {
    if |xs| == 1 then xs[0]
    else
      var rest := Max(xs[1..]);
      assert forall i :: 1 <= i < |xs| ==> xs[i] == xs[1..][i - 1];
      if xs[0] >= rest then xs[0] else rest
  }

  /** Python's `min` over a non-empty list: an element no other element is below. */
  function Min(xs: seq<real>): (m: real)
    requires xs != []
    ensures m in xs
    ensures forall i :: 0 <= i < |xs| ==> m <= xs[i]
  {
    if |xs| == 1 then xs[0]
    else
      var rest := Min(xs[1..]);
      assert forall i :: 1 <= i < |xs| ==> xs[i] == xs[1..][i - 1];
      if xs[0] <= rest then xs[0] else rest
  }

  /** Every element within [lo, hi] puts the sum within [n * lo, n * hi]. */
  lemma {:induction false} SumBounds(xs: seq<real>, lo: real, hi: real)
    requires forall i :: 0 <= i < |xs| ==> lo <= xs[i] <= hi
    ensures |xs| as real * lo <= Sum(xs) <= |xs| as real * hi
  {
    if xs != [] {
      var init := xs[..|xs| - 1];
      assert forall i :: 0 <= i < |init| ==> init[i] == xs[i];
      SumBounds(init, lo, hi);
      var n := |init| as real;
      assert Sum(xs) == Sum(init) + xs[|xs| - 1];
      assert |xs| as real * lo == n * lo + lo;
      assert |xs| as real * hi == n * hi + hi;
    }
  }

  /** Dividing n * lo <= s <= n * hi by a positive n. */
  lemma DivideBounds(s: real, n: real, lo: real, hi: real)
    requires n > 0.0 && n * lo <= s <= n * hi
    ensures lo <= s / n <= hi
  {
    assert s / n - lo == (s - n * lo) / n;
    assert hi - s / n == (n * hi - s) / n;
  }

  /** The arithmetic mean `sum(xs) / len(xs)` of a non-empty list. */
  function Mean(xs: seq<real>): real
    requires xs != []
  {
    Sum(xs) / |xs| as real
  }

  /** Bounds on every element are bounds on the mean. */
  lemma MeanWithin(xs: seq<real>, lo: real, hi: real)
    requires xs != []
    requires forall i :: 0 <= i < |xs| ==> lo <= xs[i] <= hi
    ensures lo <= Mean(xs) <= hi
  {
    var n := |xs| as real;
    SumBounds(xs, lo, hi);
    DivideBounds(Sum(xs), n, lo, hi);
  }

  /** The mean lies between the least and the greatest element. */
  lemma MeanBounds(xs: seq<real>)
    requires xs != []
    ensures Min(xs) <= Mean(xs) <= Max(xs)
  {
    MeanWithin(xs, Min(xs), Max(xs));
  }
}
