/** The average of an account and its copy in Redis, which is written before the payment commits.  Stored
    averages are in cents, cached ones in millionths of a dollar, ten thousand to the cent. */
module AverageCache {
  import opened Jobs
  import opened Averages

  /** Units of the cached average per cent. */
  const FINE := 10_000

  /** The stored average of an account, its order count, and the Redis copy while it lives. */
  datatype Book = Book(count: nat, average: int, cache: Option<int>)

  /** A stored average of zero is the empty column. */
  const NEW_BOOK := Book(0, 0, None)

  datatype Step =
    | Pay(x: int, average: int, cached: int)   // a payment of x commits
    | RollBack(x: int, cached: int)            // a payment of x reaches the cache but does not commit
    | Consult                                  // the fraud check reads the average
    | Expire                                   // the cache entry reaches its hour

  predicate Enabled(b: Book, step: Step) {
    match step
    case Pay(x, average, cached) =>
      && AverageStep(b.count, b.average, x, average)
      && NearestTo(FINE * (b.average * b.count + x), b.count + 1, cached)
    case RollBack(x, cached) => NearestTo(FINE * (b.average * b.count + x), b.count + 1, cached)
    case _ => true
  }

  function Apply(b: Book, step: Step): Book {
    match step
    case Pay(_, average, cached) => Book(b.count + 1, average, Some(cached))
    case RollBack(_, cached) => b.(cache := Some(cached))
    case Consult => if b.cache.None? then b.(cache := Some(FINE * b.average)) else b
    case Expire => b.(cache := None)
  }

  predicate ValidRun(b: Book, steps: seq<Step>)
    decreases |steps|
  {
    steps == [] || (Enabled(b, steps[0]) && ValidRun(Apply(b, steps[0]), steps[1..]))
  }

  function End(b: Book, steps: seq<Step>): Book
    requires ValidRun(b, steps)
    decreases |steps|
  {
    if steps == [] then b else End(Apply(b, steps[0]), steps[1..])
  }

  /** The account row and the cache entry as the program updates them. */
  class Account {
    var balance: int
    var count: nat
    var average: int
    var cache: Option<int>

    function View(): Book
      reads this
    {
      Book(count, average, cache)
    }

    constructor (balance: int)
      ensures this.balance == balance && View() == NEW_BOOK
    {
      this.balance, count, average, cache := balance, 0, 0, None;
    }

    /** `UpdateBalanceAvgCount`: the cache takes the new average at once, the row only if the transaction
        commits. */
    method UpdateBalanceAvgCount(amount: int, commits: bool)
      modifies this
      ensures balance == (if commits then old(balance) - amount else old(balance))
      ensures exists step :: Enabled(old(View()), step) && View() == Apply(old(View()), step)
                             && (if commits then step.Pay? && step.x == amount else step.RollBack? && step.x == amount)
    {
      var sum, n := average * count + amount, count + 1;
      cache := Some(Nearest(FINE * sum, n));
      ghost var step := if commits then Pay(amount, Nearest(sum, n), cache.value) else RollBack(amount, cache.value);
      if commits {
        balance, average, count := balance - amount, Nearest(sum, n), n;
      }
      assert Enabled(old(View()), step) && View() == Apply(old(View()), step);
    }

    /** `computeDeviation`: the copy answers if it is there, otherwise the stored average is read and copied; an
        average of zero gives no deviation.  While the copies agree, what is served is close to the deviation
        from the stored average. */
    method ComputeDeviation(amount: real) returns (deviation: real)
      modifies this`cache
      ensures View() == Apply(old(View()), Consult) && cache.Some?
      ensures deviation == Served(View(), amount)
      ensures cache.value <= 0 ==> deviation == 0.0
      ensures cache.value > 0 ==> RelativeTo(deviation, amount, Used(View()))
      ensures old(cache).Some? ==> cache == old(cache)
      ensures old(cache).None? ==> Used(View()) == Stored(View())
      ensures Agrees(old(View())) && average > 0 && cache.value > 0 && amount >= 0.0 ==>
                Close(deviation, amount, Used(View()), Stored(View()))
    {
      if cache.None? {
        cache := Some(FINE * average);
        MissIsExact(View());
      }
      deviation := Divided(amount, cache.value as real / 1_000_000.0);
      ServedIs(View(), amount);
      if Agrees(old(View())) && average > 0 && cache.value > 0 && amount >= 0.0 {
        ServedClose(View(), amount);
      }
    }
  }

  /** The most by which the two copies differ: half a cent and half a millionth. */
  const HALF := 0.0050005

  /** The averages in dollars: the copy that answers, and the stored one. */
  function Used(b: Book): real
    requires b.cache.Some?
  {
    b.cache.value as real / 1_000_000.0
  }

  function Stored(b: Book): real {
    b.average as real / 100.0
  }

  /** The deviation the fraud check is given. */
  function Served(b: Book, amount: real): real
    requires b.cache.Some?
  {
    Divided(amount, Used(b))
  }

  /** `ComputeDeviation` behind its guard: only a positive average is divided by. */
  function Divided(amount: real, average: real): real {
    if average > 0.0 then Deviation(amount, average) else 0.0
  }

  /** A copy that is not positive gives no deviation; otherwise it is the distance relative to the copy. */
  lemma ServedIs(b: Book, amount: real)
    requires b.cache.Some?
    ensures b.cache.value <= 0 ==> Served(b, amount) == 0.0
    ensures b.cache.value > 0 ==> RelativeTo(Served(b, amount), amount, Used(b))
  {
    if b.cache.value > 0 {
      DeviationIs(amount, Used(b));
    }
  }

  /** The distance of the amount from a positive average, in units of that average. */
  predicate RelativeTo(deviation: real, amount: real, average: real) {
    average > 0.0 && deviation * average == Distance(amount, average)
  }

  lemma DeviationIs(amount: real, average: real)
    requires average > 0.0
    ensures RelativeTo(Deviation(amount, average), amount, average)
  {
  }

  /** A miss copies the stored average exactly. */
  lemma MissIsExact(b: Book)
    requires b.cache == Some(FINE * b.average)
    ensures Used(b) == Stored(b)
  {
  }

  /** The deviation differs from the one from the stored average by at most amount * 0.0050005 over the product
      of the averages. */
  predicate Close(deviation: real, amount: real, used: real, stored: real)
    requires used > 0.0 && stored > 0.0
  {
    Distance(deviation, Deviation(amount, stored)) <= amount * HALF / (used * stored)
  }

  lemma CloseAverages(amount: real, used: real, stored: real)
    requires amount >= 0.0 && used > 0.0 && stored > 0.0 && Distance(used, stored) <= HALF
    ensures Close(Deviation(amount, used), amount, used, stored)
  {
    DeviationsClose(amount, used, stored, HALF);
  }

  lemma Positive(b: Book)
    requires b.cache.Some? && b.cache.value > 0 && b.average > 0
    ensures Used(b) > 0.0 && Stored(b) > 0.0
  {
  }

  lemma ServedClose(b: Book, amount: real)
    requires b.cache.Some? && b.cache.value > 0 && b.average > 0 && amount >= 0.0 && Agrees(b)
    ensures Used(b) > 0.0 && Stored(b) > 0.0 && Close(Served(b, amount), amount, Used(b), Stored(b))
  {
    AgreesInDollars(b);
    Positive(b);
    CloseAverages(amount, Used(b), Stored(b));
  }

  lemma AgreesInDollars(b: Book)
    requires b.cache.Some? && Agrees(b)
    ensures Distance(Used(b), Stored(b)) <= HALF
  {
  }

  /** The copy is within half a cent and half a millionth of the stored average. */
  predicate Agrees(b: Book) {
    b.cache.Some? ==> -(FINE + 1) <= 2 * (b.cache.value - FINE * b.average) <= FINE + 1
  }

  lemma PayAgrees(n: nat, p: int, average: int, cached: int)
    requires NearestTo(p, n + 1, average) && NearestTo(FINE * p, n + 1, cached)
    ensures -(FINE + 1) <= 2 * (cached - FINE * average) <= FINE + 1
  {
    var q, d := n + 1, 2 * (cached - FINE * average);
    Combined(q, p, average, cached, q * average, q * cached);
    DivideOut(q, d, FINE + 1);
    DivideOut(q, -(FINE + 1), d);
  }

  lemma Combined(q: int, p: int, average: int, cached: int, qa: int, qc: int)
    requires qa == q * average && qc == q * cached
    requires -q <= 2 * (qa - p) <= q && -q <= 2 * (qc - FINE * p) <= q
    ensures q * -(FINE + 1) <= q * (2 * (cached - FINE * average)) <= q * (FINE + 1)
  {
    assert q * (2 * (cached - FINE * average)) == 2 * (qc - FINE * qa) by {
      Shift(q, 2 * cached, -(2 * FINE * average));
    }
  }

  /** Once the entry has expired, the next fraud check copies the stored average exactly, whatever was cached. */
  lemma ExpiryRefreshes(b: Book)
    ensures var next := Apply(Apply(b, Expire), Consult);
            next.cache.Some? && Used(next) == Stored(next) && next.average == b.average && next.count == b.count
  {
    MissIsExact(Apply(Apply(b, Expire), Consult));
  }

  // ----- payments that are rolled back -----

  function Gap(b: Book, x: int): nat {
    if x >= b.average then x - b.average else b.average - x
  }

  /** A rolled-back payment of `x` moves the cached average by less, or by more, than the copies may differ. */
  predicate Near(b: Book, x: int) {
    2 * FINE * Gap(b, x) < (FINE + 1) * (b.count + 1)
  }

  predicate Far(b: Book, x: int) {
    2 * FINE * Gap(b, x) > (FINE + 1) * (b.count + 1)
  }

  /** The cached average of a rolled-back payment lies `d` from the stored one: up to half a unit, the gap
      spread over the orders. */
  lemma RollBackShift(n: nat, average: int, x: int, cached: int, d: int)
    requires d == cached - FINE * average
    ensures NearestTo(FINE * (average * n + x), n + 1, cached)
            <==> -(n + 1) <= 2 * ((n + 1) * d) - 2 * FINE * (x - average) <= n + 1
  {
    Shift(n + 1, cached, -(FINE * average));
    Spread(n, average);
  }

  lemma Spread(n: nat, average: int)
    ensures (n + 1) * -(FINE * average) == -(FINE * (average * n)) - FINE * average
  {
  }

  lemma DivideStrictly(q: int, x: int, y: int)
    requires q > 0 && q * x < q * y
    ensures x < y
  {
  }

  /** A gap below the bound keeps the shift within it; `qd` names the product. */
  lemma SmallShift(q: int, d: int, gap: int, qd: int)
    requires q > 0 && qd == q * d && -q <= 2 * qd - 2 * FINE * gap <= q
    requires -((FINE + 1) * q) < 2 * FINE * gap < (FINE + 1) * q
    ensures -(FINE + 1) <= 2 * d <= FINE + 1
  {
    DivideStrictly(q, 2 * d, FINE + 2);
    DivideStrictly(q, -(FINE + 2), 2 * d);
  }

  lemma LargeShift(q: int, d: int, gap: int, qd: int)
    requires q > 0 && qd == q * d && -q <= 2 * qd - 2 * FINE * gap <= q
    requires 2 * FINE * gap > (FINE + 1) * q
    ensures 2 * d > FINE + 1
  {
    DivideStrictly(q, FINE, 2 * d);
  }

  lemma NearAgrees(b: Book, x: int, cached: int)
    requires Enabled(b, RollBack(x, cached)) && Near(b, x)
    ensures Agrees(Apply(b, RollBack(x, cached)))
  {
    var q, d := b.count + 1, cached - FINE * b.average;
    RollBackShift(b.count, b.average, x, cached, d);
    SmallShift(q, d, x - b.average, q * d);
  }

  lemma FarDisagrees(b: Book, x: int, cached: int)
    requires Enabled(b, RollBack(x, cached)) && Far(b, x)
    ensures !Agrees(Apply(b, RollBack(x, cached)))
  {
    var q, d := b.count + 1, cached - FINE * b.average;
    RollBackShift(b.count, b.average, x, cached, d);
    if x >= b.average {
      LargeShift(q, d, x - b.average, q * d);
    } else {
      Negated(q, d);
      LargeShift(q, -d, b.average - x, q * -d);
    }
  }

  lemma Negated(q: int, d: int)
    ensures q * -d == -(q * d)
  {
  }

  /** When the shift is exactly the bound, the rounding of the copy decides. */
  lemma TieGoesEitherWay(b: Book, x: int)
    requires 2 * FINE * Gap(b, x) == (FINE + 1) * (b.count + 1)
    ensures exists cached :: Enabled(b, RollBack(x, cached)) && Agrees(Apply(b, RollBack(x, cached)))
    ensures exists cached :: Enabled(b, RollBack(x, cached)) && !Agrees(Apply(b, RollBack(x, cached)))
  {
    var sign := if x >= b.average then 1 else -1;
    TieRounds(b, x, sign * (FINE / 2));
    TieRounds(b, x, sign * (FINE / 2 + 1));
    assert Agrees(Apply(b, RollBack(x, FINE * b.average + sign * (FINE / 2))));
    assert !Agrees(Apply(b, RollBack(x, FINE * b.average + sign * (FINE / 2 + 1))));
  }

  lemma TieRounds(b: Book, x: int, d: int)
    requires 2 * FINE * Gap(b, x) == (FINE + 1) * (b.count + 1)
    requires if x >= b.average then d == FINE / 2 || d == FINE / 2 + 1 else d == -(FINE / 2) || d == -(FINE / 2 + 1)
    ensures Enabled(b, RollBack(x, FINE * b.average + d))
  {
    RollBackShift(b.count, b.average, x, FINE * b.average + d, d);
  }

  predicate AlwaysAgrees(b: Book, steps: seq<Step>)
    requires ValidRun(b, steps)
    decreases |steps|
  {
    Agrees(b) && (steps == [] || AlwaysAgrees(Apply(b, steps[0]), steps[1..]))
  }

  /** Every rolled-back payment of the run is near. */
  predicate AllNear(b: Book, steps: seq<Step>)
    requires ValidRun(b, steps)
    decreases |steps|
  {
    steps == [] ||
    ((steps[0].RollBack? ==> Near(b, steps[0].x)) && AllNear(Apply(b, steps[0]), steps[1..]))
  }

  /** No rolled-back payment of the run is far. */
  predicate NoneFar(b: Book, steps: seq<Step>)
    requires ValidRun(b, steps)
    decreases |steps|
  {
    steps == [] ||
    ((steps[0].RollBack? ==> !Far(b, steps[0].x)) && NoneFar(Apply(b, steps[0]), steps[1..]))
  }

  lemma StepAgrees(b: Book, step: Step)
    requires Enabled(b, step) && Agrees(b)
    ensures !step.RollBack? || Near(b, step.x) ==> Agrees(Apply(b, step))
    ensures step.RollBack? && Far(b, step.x) ==> !Agrees(Apply(b, step))
  {
    if step.Pay? {
      PayAgrees(b.count, b.average * b.count + step.x, step.average, step.cached);
    } else if step.RollBack? && Near(b, step.x) {
      NearAgrees(b, step.x, step.cached);
    } else if step.RollBack? && Far(b, step.x) {
      FarDisagrees(b, step.x, step.cached);
    }
  }

  /** Over every serial run of payments that commit or are rolled back, fraud checks and expiries: the copies
      agree throughout if every rolled-back amount is near the average it met, and only if none is far. */
  lemma {:induction false} AgreesIffNear(b: Book, steps: seq<Step>)
    requires ValidRun(b, steps) && Agrees(b)
    ensures AllNear(b, steps) ==> AlwaysAgrees(b, steps)
    ensures AlwaysAgrees(b, steps) ==> NoneFar(b, steps)
    decreases |steps|
  {
    if steps != [] {
      var next := Apply(b, steps[0]);
      StepAgrees(b, steps[0]);
      if Agrees(next) {
        AgreesIffNear(next, steps[1..]);
      } else {
        assert !AlwaysAgrees(next, steps[1..]);
      }
    }
  }

  lemma {:induction false} EndAgrees(b: Book, steps: seq<Step>)
    requires ValidRun(b, steps) && AlwaysAgrees(b, steps)
    ensures Agrees(End(b, steps))
    decreases |steps|
  {
    if steps != [] {
      EndAgrees(Apply(b, steps[0]), steps[1..]);
    }
  }

  /** Over every serial run whose rolled-back payments, if any, are near, a cached average is within 0.0050005
      of the stored one, whether it came from a miss or from an update. */
  lemma CacheAgrees(steps: seq<Step>)
    requires ValidRun(NEW_BOOK, steps) && AllNear(NEW_BOOK, steps)
    ensures var b := End(NEW_BOOK, steps); Agrees(b) && (b.cache.Some? ==> Distance(Used(b), Stored(b)) <= HALF)
  {
    AgreesIffNear(NEW_BOOK, steps);
    EndAgrees(NEW_BOOK, steps);
    if End(NEW_BOOK, steps).cache.Some? {
      AgreesInDollars(End(NEW_BOOK, steps));
    }
  }

  /** Over every such run the deviation served from the cache differs from the one computed from the stored
      average by at most amount times 0.0050005 over the product of the two averages. */
  lemma ServedDeviationClose(steps: seq<Step>, amount: real)
    requires ValidRun(NEW_BOOK, steps) && AllNear(NEW_BOOK, steps) && amount >= 0.0
    requires var b := End(NEW_BOOK, steps); b.cache.Some? && b.cache.value > 0 && b.average > 0
    ensures var b := End(NEW_BOOK, steps);
            Used(b) > 0.0 && Stored(b) > 0.0 && Close(Served(b, amount), amount, Used(b), Stored(b))
  {
    CacheAgrees(steps);
    ServedClose(End(NEW_BOOK, steps), amount);
  }

  // ----- deviations -----

  /** The relative deviation of an amount from an average. */
  function Deviation(amount: real, average: real): real
    requires average > 0.0
  {
    (if amount >= average then amount - average else average - amount) / average
  }

  function Distance(x: real, y: real): real {
    if x >= y then x - y else y - x
  }

  lemma DeviationAsRatio(amount: real, average: real)
    requires average > 0.0
    ensures Deviation(amount, average) == Distance(amount / average, 1.0)
  {
    var r := amount / average;
    assert average * r == amount;
    Difference(average, r, 1.0);
    Difference(average, 1.0, r);
    if amount >= average {
      Quotient(average, r - 1.0, amount - average);
      if r < 1.0 {
        Scale(average, r, 1.0);
      }
    } else {
      Quotient(average, 1.0 - r, average - amount);
      if r >= 1.0 {
        if r > 1.0 {
          Scale(average, 1.0, r);
        }
      }
    }
  }

  lemma Quotient(m: real, x: real, y: real)
    requires m > 0.0 && m * x == y
    ensures y / m == x
  {
  }

  /** Two averages that differ by at most e give deviations that differ by at most
      amount times e over their product. */
  lemma DeviationsClose(amount: real, cached: real, stored: real, e: real)
    requires amount >= 0.0 && cached > 0.0 && stored > 0.0 && Distance(cached, stored) <= e
    ensures Distance(Deviation(amount, cached), Deviation(amount, stored)) <= amount * e / (cached * stored)
  {
    DeviationAsRatio(amount, cached);
    DeviationAsRatio(amount, stored);
    RatiosClose(amount, cached, stored, e);
  }

  lemma RatiosClose(amount: real, c: real, s: real, e: real)
    requires amount >= 0.0 && c > 0.0 && s > 0.0 && Distance(c, s) <= e
    ensures Distance(amount / c, amount / s) <= amount * e / (c * s)
  {
    var cs := c * s;
    var x, y := amount / c, amount / s;
    var bound := amount * e / cs;
    Difference(cs, x, y);
    Difference(cs, y, x);
    assert cs * x == amount * s by { assert c * x == amount; Reorder(c, s, x, amount); }
    assert cs * y == amount * c by { assert s * y == amount; Reorder(s, c, y, amount); }
    Difference(amount, s, c);
    Difference(amount, c, s);
    assert cs * bound == amount * e;
    Weigh(amount, s - c, e);
    Weigh(amount, c - s, e);
    if x - y > bound {
      Scale(cs, bound, x - y);
    }
    if y - x > bound {
      Scale(cs, bound, y - x);
    }
  }

  lemma Reorder(c: real, s: real, x: real, v: real)
    requires c * x == v
    ensures c * s * x == v * s && s * c * x == v * s
  {
    assert c * s * x == c * x * s;
  }

  lemma Weigh(m: real, x: real, y: real)
    requires m >= 0.0 && x <= y
    ensures m * x <= m * y
  {
  }

  // ----- the account's average over a whole run -----

  /** The amounts paid in a run. */
  function Amounts(steps: seq<Step>): seq<int> {
    if steps == [] then [] else Paid(steps[0]) + Amounts(steps[1..])
  }

  lemma OneMore(xs: seq<int>, avgs: seq<int>, x: int, b: int)
    requires AverageRun(xs, avgs) && AverageStep(|xs|, avgs[|xs|], x, b)
    ensures AverageRun(xs + [x], avgs + [b])
  {
    var ys, bs := xs + [x], avgs + [b];
    forall i | 0 <= i < |ys|
      ensures StepAt(ys, bs, i)
    {
      assert i < |xs| ==> StepAt(xs, avgs, i);
    }
  }

  /** The book holds the average and the count after the orders `xs`. */
  predicate Follows(b: Book, xs: seq<int>, avgs: seq<int>) {
    AverageRun(xs, avgs) && b.count == |xs| && b.average == avgs[|xs|]
  }

  function Paid(step: Step): seq<int> {
    if step.Pay? then [step.x] else []
  }

  lemma StepFollows(b: Book, step: Step, xs: seq<int>, avgs: seq<int>) returns (more: seq<int>)
    requires Enabled(b, step) && Follows(b, xs, avgs)
    ensures Follows(Apply(b, step), xs + Paid(step), more)
  {
    if step.Pay? {
      OneMore(xs, avgs, step.x, step.average);
      more := avgs + [step.average];
    } else {
      assert xs + Paid(step) == xs;
      more := avgs;
    }
  }

  lemma PaidFirst(xs: seq<int>, steps: seq<Step>)
    requires steps != []
    ensures xs + Paid(steps[0]) + Amounts(steps[1..]) == xs + Amounts(steps)
  {
    Regroup(xs, Paid(steps[0]), Amounts(steps[1..]));
  }

  lemma Regroup(xs: seq<int>, ys: seq<int>, zs: seq<int>)
    ensures xs + ys + zs == xs + (ys + zs)
  {
  }

  lemma {:induction false} RunFollows(b: Book, steps: seq<Step>, xs: seq<int>, avgs: seq<int>, all: seq<int>)
    returns (more: seq<int>)
    requires ValidRun(b, steps) && Follows(b, xs, avgs) && all == xs + Amounts(steps)
    ensures Follows(End(b, steps), all, more)
    decreases |steps|
  {
    if steps == [] {
      more := avgs;
      assert all == xs;
    } else {
      var next := StepFollows(b, steps[0], xs, avgs);
      PaidFirst(xs, steps);
      more := RunFollows(Apply(b, steps[0]), steps[1..], xs + Paid(steps[0]), next, all);
    }
  }

  /** Over every serial run of payments, fraud checks and expiries from a fresh account, the row has counted the
      payments, and its average is within a quarter cent times n + 1 of their mean and between their extremes. */
  lemma AccountAverageTracksMean(steps: seq<Step>, lo: int, hi: int)
    requires ValidRun(NEW_BOOK, steps) && Amounts(steps) != []
    requires forall i :: 0 <= i < |Amounts(steps)| ==> lo <= Amounts(steps)[i] <= hi
    ensures var b, xs := End(NEW_BOOK, steps), Amounts(steps);
            b.count == |xs| && lo <= b.average <= hi && NearMean(b.average, Sum(xs), |xs|)
  {
    var xs := Amounts(steps);
    assert xs == [] + xs;
    var avgs := RunFollows(NEW_BOOK, steps, [], [0], xs);
    AverageWithinOrders(xs, avgs, lo, hi);
    AverageDrift(xs, avgs);
  }
}
