/** `CalculateExponentialBackoffWithJitter`: a doubling delay with a random jitter and a cap, in the
    64-bit arithmetic of Go's `time.Duration`. */
module Backoff {

  const TWO_63: int := 0x8000_0000_0000_0000
  const TWO_64: int := 0x1_0000_0000_0000_0000

  /** The value an int64 holds after an operation whose exact result is `x`. */
  function Wrap64(x: int): int {
    (x + TWO_63) % TWO_64 - TWO_63
  }

  /** It is an int64, and it differs from the exact result by a multiple of 2^64. */
  lemma WrapsModulo(x: int)
    ensures -TWO_63 <= Wrap64(x) < TWO_63 && (x - Wrap64(x)) % TWO_64 == 0
  {
    var q := (x + TWO_63) / TWO_64;
    assert x - Wrap64(x) == q * TWO_64;
  }

  /** Go's integer division, which truncates toward zero. */
  function Quot(x: int, d: int): int
    requires d > 0
  {
    if x >= 0 then x / d else -((-x) / d)
  }

  function Pow2(n: nat): (p: int)
    ensures p >= 1
  {
    if n == 0 then 1 else 2 * Pow2(n - 1)
  }

  /** The undithered delay of attempt `count`, as the program computes it. */
  function Nominal(count: int, base: int): int
    requires 1 <= count <= 63
  {
    Wrap64(base * Pow2(count - 1))
  }

  /** `rand.Int63n` panics unless its argument is positive. */
  datatype Outcome = Delay(ns: int) | Panic

  function Calculate(count: int, base: int, max: int, draw: int): Outcome
    requires count <= 63
  {
    if count <= 0 then Delay(0) else
    var b := Nominal(count, base);
    if Quot(b, 4) <= 0 then Panic else
    var delay := Wrap64(b + Wrap64(draw - Quot(b, 8)));
    Delay(if delay > max then max else delay)
  }

  /** The draws `rand.Int63n(b / 4)` can make. */
  predicate IsDraw(count: int, base: int, draw: int)
    requires 1 <= count <= 63
  {
    0 <= draw < Quot(Nominal(count, base), 4)
  }

  /** A base of at least 4 ns, and no sum or product that leaves the int64 range. */
  predicate InRange(count: int, base: int) {
    && 1 <= count <= 63 && 4 <= base
    && base * Pow2(count - 1) + base * Pow2(count - 1) / 8 < TWO_63
  }

  lemma {:induction false} Pow2Grows(m: nat, n: nat)
    requires m <= n
    ensures Pow2(m) <= Pow2(n)
  {
    if m < n {
      Pow2Grows(m, n - 1);
    }
  }

  lemma ScaleGrows(base: int, p: int, q: int)
    requires base >= 0 && p <= q
    ensures base * p <= base * q
  {
  }

  /** Within the range nothing wraps, at this attempt or at any earlier one. */
  lemma NominalExact(count: int, most: int, base: int)
    requires 1 <= count <= most && InRange(most, base)
    ensures InRange(count, base)
    ensures Nominal(count, base) == base * Pow2(count - 1) >= 4
  {
    Pow2Grows(count - 1, most - 1);
    ScaleGrows(base, Pow2(count - 1), Pow2(most - 1));
    ScaleGrows(base, 1, Pow2(count - 1));
  }

  /** The undithered delay starts at the base and doubles from attempt to attempt. */
  lemma NominalsDouble(count: int, most: int, base: int)
    requires 1 <= count < most && InRange(most, base)
    ensures Nominal(1, base) == base && Nominal(count + 1, base) == 2 * Nominal(count, base)
  {
    NominalExact(1, most, base);
    NominalExact(count, most, base);
    NominalExact(count + 1, most, base);
    Twice(base, Pow2(count - 1));
  }

  lemma Twice(base: int, p: int)
    ensures base * (2 * p) == 2 * (base * p)
  {
  }

  /** The five attempts that the configuration allows at most. */
  lemma FiveNominals(base: int)
    requires 4 <= base && 18 * base < TWO_63
    ensures InRange(5, base)
    ensures Nominal(1, base) == base && Nominal(2, base) == 2 * base && Nominal(3, base) == 4 * base
    ensures Nominal(4, base) == 8 * base && Nominal(5, base) == 16 * base
  {
    assert Pow2(0) == 1 && Pow2(1) == 2 && Pow2(2) == 4 && Pow2(3) == 8 && Pow2(4) == 16;
  }

  /** Without a retry there is no delay. */
  lemma NoRetryNoDelay(count: int, base: int, max: int, draw: int)
    requires count <= 0
    ensures Calculate(count, base, max, draw) == Delay(0)
  {
  }

  /** The delay before the cap. */
  function Dithered(count: int, base: int, draw: int): int
    requires 1 <= count <= 63
  {
    Nominal(count, base) + draw - Nominal(count, base) / 8
  }

  lemma JitterExact(b: int, draw: int)
    requires 4 <= b && b + b / 8 < TWO_63 && 0 <= draw < b / 4
    ensures Wrap64(b + Wrap64(draw - Quot(b, 8))) == b + draw - b / 8
    ensures b - b / 8 <= b + draw - b / 8 <= b + b / 8
  {
  }

  /** Whatever is drawn, the delay lies within an eighth of the nominal one before the cap and never
      exceeds the cap; no draw panics. */
  lemma DelayBounds(count: int, base: int, max: int, draw: int)
    requires InRange(count, base) && IsDraw(count, base, draw)
    ensures var b := base * Pow2(count - 1);
            && b - b / 8 <= Dithered(count, base, draw) <= b + b / 8
            && Calculate(count, base, max, draw)
               == Delay(if Dithered(count, base, draw) > max then max else Dithered(count, base, draw))
  {
    NominalExact(count, count, base);
    JitterExact(base * Pow2(count - 1), draw);
  }

  /** The program panics exactly when the product, as int64 holds it, is below 4. */
  lemma PanicsIffTiny(count: int, base: int, max: int, draw: int)
    requires 1 <= count <= 63
    ensures Calculate(count, base, max, draw) == Panic <==> Nominal(count, base) < 4
  {
  }

  /** A base that is large enough makes the product wrap to a negative number, and the program panics. */
  lemma OverflowPanics(max: int, draw: int)
    ensures Calculate(4, TWO_63 / 8, max, draw) == Panic
  {
    assert Pow2(3) == 8;
    assert Wrap64(TWO_63) == -TWO_63;
  }

  /** A later attempt never waits less, whatever the two draws are. */
  lemma DelaysNeverDecrease(m: int, n: int, base: int, max: int, drawM: int, drawN: int)
    requires 1 <= m < n && InRange(n, base)
    requires IsDraw(m, base, drawM) && IsDraw(n, base, drawN)
    ensures Calculate(m, base, max, drawM).Delay? && Calculate(n, base, max, drawN).Delay?
    ensures Calculate(m, base, max, drawM).ns <= Calculate(n, base, max, drawN).ns
  {
    NominalExact(m, n, base);
    DelayBounds(m, base, max, drawM);
    DelayBounds(n, base, max, drawN);
    NominalDoubles(m, n, base);
    Gap(base * Pow2(m - 1), base * Pow2(n - 1));
  }

  lemma NominalDoubles(m: int, n: int, base: int)
    requires 1 <= m < n && base >= 0
    ensures 2 * (base * Pow2(m - 1)) <= base * Pow2(n - 1)
  {
    Pow2Grows(m, n - 1);
    ScaleGrows(base, Pow2(m), Pow2(n - 1));
    assert base * Pow2(m) == base * (2 * Pow2(m - 1)) == 2 * (base * Pow2(m - 1));
  }

  lemma Gap(b: int, d: int)
    requires 0 <= b && 2 * b <= d
    ensures b + b / 8 <= d - d / 8
  {
  }

  lemma OneDelay(count: int, base: int, max: int, draw: int)
    requires max >= 0 && InRange(count, base) && IsDraw(count, base, draw)
    ensures Calculate(count, base, max, draw).Delay? && 0 <= Calculate(count, base, max, draw).ns <= max
  {
    DelayBounds(count, base, max, draw);
    NominalExact(count, count, base);
  }

  /** The backoff of a job over the attempts 1, 2, ..., with the draws made for them. */
  function TotalBackoff(base: int, max: int, draws: seq<int>): int
    requires |draws| <= 63
  {
    if draws == [] then 0
    else
      var last := Calculate(|draws|, base, max, draws[|draws| - 1]);
      TotalBackoff(base, max, draws[..|draws| - 1]) + (if last.Delay? then last.ns else 0)
  }

  predicate AllDraws(base: int, draws: seq<int>)
    requires |draws| <= 63
  {
    forall i :: 0 <= i < |draws| ==> IsDraw(i + 1, base, draws[i])
  }

  lemma Plus(n: nat, max: int)
    ensures (n + 1) * max == n * max + max
  {
  }

  /** Over its life a job with at most n retries waits between 0 and n times the cap. */
  lemma {:induction false} TotalBackoffBounded(base: int, max: int, draws: seq<int>)
    requires max >= 0 && |draws| <= 63 && (draws != [] ==> InRange(|draws|, base)) && AllDraws(base, draws)
    ensures 0 <= TotalBackoff(base, max, draws) <= |draws| * max
  {
    if draws != [] {
      var n := |draws| - 1;
      OneDelay(n + 1, base, max, draws[n]);
      if n > 0 {
        NominalExact(n, n + 1, base);
      }
      TotalBackoffBounded(base, max, draws[..n]);
      Plus(n, max);
    }
  }
}
