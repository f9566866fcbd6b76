/** The average order amount of an account, re-rounded to cents on every payment: how far it can drift from
    the true mean.  Amounts and averages are in cents; float64 is idealised as exact arithmetic. */
module Averages {

  /** `a` is a whole number nearest to p / q; ties may go either way. */
  predicate NearestTo(p: int, q: int, a: int)
    requires q > 0
  {
    -q <= 2 * (q * a - p) <= q
  }

  /** Rounding to nearest, ties upward. */
  function Nearest(p: int, q: int): (a: int)
    requires q > 0
    ensures NearestTo(p, q, a)
  {
    var a := (2 * p + q) / (2 * q);
    assert 2 * p + q == (2 * q) * a + (2 * p + q) % (2 * q);
    a
  }

  /** One update of the stored average: the mean of `n` orders averaging `a` and one more of amount `x`. */
  predicate AverageStep(n: nat, a: int, x: int, b: int) {
    NearestTo(a * n + x, n + 1, b)
  }

  function Sum(xs: seq<int>): int {
    if xs == [] then 0 else Sum(xs[..|xs| - 1]) + xs[|xs| - 1]
  }

  /** `avgs` lists the stored averages of a fresh account over a run of successful orders. */
  predicate AverageRun(xs: seq<int>, avgs: seq<int>) {
    && |avgs| == |xs| + 1 && avgs[0] == 0
    && forall i :: 0 <= i < |xs| ==> StepAt(xs, avgs, i)
  }

  predicate StepAt(xs: seq<int>, avgs: seq<int>, i: nat)
    requires i < |xs| && |avgs| == |xs| + 1
  {
    AverageStep(i, avgs[i], xs[i], avgs[i + 1])
  }

  /** A run without its last order is a run. */
  lemma AllButLast(xs: seq<int>, avgs: seq<int>)
    requires AverageRun(xs, avgs) && xs != []
    ensures var n := |xs| - 1;
            && AverageRun(xs[..n], avgs[..n + 1])
            && AverageStep(n, avgs[n], xs[n], avgs[n + 1])
  {
    var n := |xs| - 1;
    var ys, bs := xs[..n], avgs[..n + 1];
    forall i | 0 <= i < n
      ensures StepAt(ys, bs, i)
    {
      assert StepAt(xs, avgs, i);
    }
    assert StepAt(xs, avgs, n);
  }

  lemma {:induction false} DriftInduction(xs: seq<int>, avgs: seq<int>)
    requires AverageRun(xs, avgs) && xs != []
    ensures var n := |xs|; var d := n * avgs[n] - Sum(xs);
            -(n * (n + 1) - 2) <= 4 * d <= n * (n + 1) - 2
  {
    var n := |xs|;
    AllButLast(xs, avgs);
    if n == 1 {
      assert xs[..0] == [];
      assert Sum(xs) == xs[0];
    } else {
      DriftInduction(xs[..n - 1], avgs[..n]);
      DriftStep(n - 1, avgs[n - 1], xs[n - 1], avgs[n], Sum(xs[..n - 1]));
    }
  }

  lemma DriftStep(n: nat, a: int, x: int, b: int, sum: int)
    requires AverageStep(n, a, x, b)
    requires -(n * (n + 1) - 2) <= 4 * (n * a - sum) <= n * (n + 1) - 2
    ensures -((n + 1) * (n + 2) - 2) <= 4 * ((n + 1) * b - (sum + x)) <= (n + 1) * (n + 2) - 2
  {
    var e := (n + 1) * b - (a * n + x);
    assert 4 * ((n + 1) * b - (sum + x)) == 4 * e + 4 * (n * a - sum);
    assert (n + 1) * (n + 2) == n * (n + 1) + 2 * (n + 1);
  }

  /** After n successful orders from a fresh account, the stored average differs from the true mean by at
      most a quarter cent times n + 1 (less half a cent over n). */
  lemma AverageDrift(xs: seq<int>, avgs: seq<int>)
    requires AverageRun(xs, avgs) && xs != []
    ensures NearMean(avgs[|xs|], Sum(xs), |xs|)
  {
    DriftInduction(xs, avgs);
    ScaledDown(|xs|, avgs[|xs|], Sum(xs));
  }

  /** `a` differs from the mean of `n` amounts that add up to `sum` by at most (n + 1) / 4 - 1 / 2n. */
  predicate NearMean(a: int, sum: int, n: nat)
    requires n >= 1
  {
    var m := n as real;
    -((m + 1.0) / 4.0 - 0.5 / m) <= a as real - sum as real / m <= (m + 1.0) / 4.0 - 0.5 / m
  }

  lemma ScaledDown(n: nat, a: int, sum: int)
    requires n >= 1 && -(n * (n + 1) - 2) <= 4 * (n * a - sum) <= n * (n + 1) - 2
    ensures NearMean(a, sum, n)
  {
    Cast(n, a);
    Cast(n, n + 1);
    RealMean(n as real, a as real, sum as real, (n * a) as real, (n * (n + 1)) as real);
  }

  /** The bound over the reals; `ma` and `mm` name the two products. */
  lemma RealMean(m: real, a: real, sum: real, ma: real, mm: real)
    requires m >= 1.0 && ma == m * a && mm == m * (m + 1.0)
    requires -(mm - 2.0) <= 4.0 * (ma - sum) <= mm - 2.0
    ensures -((m + 1.0) / 4.0 - 0.5 / m) <= a - sum / m <= (m + 1.0) / 4.0 - 0.5 / m
  {
    Quotients(m, a, sum, (m + 1.0) / 4.0, 0.5);
    assert m * ((m + 1.0) / 4.0) == mm / 4.0;
    Squeeze(m, a - sum / m, (m + 1.0) / 4.0 - 0.5 / m, ma - sum, (mm - 2.0) / 4.0);
  }

  lemma Quotients(m: real, a: real, sum: real, b: real, half: real)
    requires m > 0.0
    ensures m * (a - sum / m) == m * a - sum
    ensures m * (b - half / m) == m * b - half
  {
    Difference(m, a, sum / m);
    Difference(m, b, half / m);
  }

  lemma Cast(n: int, a: int)
    ensures (n * a) as real == n as real * a as real
  {
  }

  lemma Difference(m: real, x: real, y: real)
    ensures m * (x - y) == m * x - m * y
  {
  }

  /** A factor above zero can be divided out of both sides of a bound. */
  lemma Squeeze(m: real, x: real, bound: real, mx: real, mbound: real)
    requires m > 0.0 && m * x == mx && m * bound == mbound && -mbound <= mx <= mbound
    ensures -bound <= x <= bound
  {
    if x > bound {
      Scale(m, bound, x);
    }
    if x < -bound {
      Scale(m, x, -bound);
      Difference(m, 0.0, bound);
    }
  }

  lemma Scale(m: real, x: real, y: real)
    requires m > 0.0 && x < y
    ensures m * x < m * y
  {
  }

  /** The stored average stays between the smallest and the largest order amount. */
  lemma {:induction false} AverageWithinOrders(xs: seq<int>, avgs: seq<int>, lo: int, hi: int)
    requires AverageRun(xs, avgs) && xs != []
    requires forall i :: 0 <= i < |xs| ==> lo <= xs[i] <= hi
    ensures lo <= avgs[|xs|] <= hi
  {
    var n := |xs|;
    AllButLast(xs, avgs);
    if n > 1 {
      AverageWithinOrders(xs[..n - 1], avgs[..n], lo, hi);
      Between(n - 1, avgs[n - 1], xs[n - 1], avgs[n], lo, hi);
    }
  }

  lemma Between(n: nat, a: int, x: int, b: int, lo: int, hi: int)
    requires lo <= a <= hi && lo <= x <= hi && AverageStep(n, a, x, b)
    ensures lo <= b <= hi
  {
    Monotone(n, lo, a);
    Monotone(n, a, hi);
    Distribute(n, lo);
    Distribute(n, hi);
    var p := a * n + x;
    assert (n + 1) * lo <= p <= (n + 1) * hi;
    NearestAbove(p, n + 1, b, lo);
    NearestBelow(p, n + 1, b, hi);
  }

  lemma Distribute(n: nat, x: int)
    ensures (n + 1) * x == n * x + x
  {
  }

  lemma Shift(q: int, x: int, d: int)
    ensures q * (x + d) == q * x + q * d
  {
  }

  lemma NearestAbove(p: int, q: int, a: int, lo: int)
    requires q > 0 && NearestTo(p, q, a) && q * lo <= p
    ensures lo <= a
  {
    if a <= lo - 1 {
      Monotone(q, a, lo - 1);
      Shift(q, lo, -1);
    }
  }

  lemma NearestBelow(p: int, q: int, a: int, hi: int)
    requires q > 0 && NearestTo(p, q, a) && p <= q * hi
    ensures a <= hi
  {
    if a >= hi + 1 {
      Monotone(q, hi + 1, a);
      Shift(q, hi, 1);
    }
  }

  lemma Monotone(n: nat, x: int, y: int)
    requires x <= y
    ensures n * x <= n * y
  {
  }

  lemma DivideOut(q: int, x: int, y: int)
    requires q > 0 && q * x <= q * y
    ensures x <= y
  {
    if x >= y + 1 {
      Monotone(q, y + 1, x);
      Shift(q, y, 1);
    }
  }
}
