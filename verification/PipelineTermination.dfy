/** Bounded work: every run is finite, every order is attempted a bounded number of times, and every reachable
    state can be driven to completion. */
module PipelineTermination {
  import opened Jobs
  import opened Pipeline
  import opened PipelineMoves
  import opened PipelineControl
  import opened PipelineHistory
  import opened PipelineCopies
  import PipelineRetries
  import opened PipelineProgress

  // ----- a measure that every step lowers -----

  /** The retry budget of a job, worth more than the stages of an attempt together. */
  function Budget(c: Config, r: nat): nat {
    if r <= c.maxRetry then 40 * (c.maxRetry + 1 - r) else 0
  }

  /** The stages left in an attempt. */
  function StagesLeft(pc: Pc): nat {
    match pc
    case Received => 32
    case Overdue => 31
    case Sleeping => 31
    case Locking => 30
    case Opening => 29
    case Decrypting => 28
    case Checking => 27
    case Screening => 26
    case Settling => 25
    case Debiting => 24
    case Marking(_, after) => if after == ThenOffer then 22 else 10
    case Offering(late) => if late then 23 else 18
    case Unlocking(_) => 9
    case Committing(_) => 8
    case Reporting(_) => 7
    case Finished(_) => 0
  }

  /** The lexicographic measure, budget before stage, of one place. */
  function Fuel(c: Config): Place -> int {
    (p: Place) =>
      match p
      case Waiting(stage, job) =>
        (match stage
         case Queued => Budget(c, job.retryCount) + 34
         case Fetched => Budget(c, job.retryCount) + 33
         case Caught => if job.retryCount > c.maxRetry then 5 else Budget(c, job.retryCount) + 36
         case Recording => 4
         case Requeued => Budget(c, job.retryCount) + 35
         case Refetched => Budget(c, job.retryCount) + 34)
      case Working(wk) =>
        if wk.pc.Finished? then 0
        else StagesLeft(wk.pc) + (if wk.sent then 0 else Budget(c, wk.job.retryCount))
  }

  lemma WorkBurns(c: Config, s: State, w: nat, a: Action)
    requires Enabled(c, s, Work(w, a)) && WorkerOk(s.workers[w])
    ensures FewSum(Entered(c, s, Work(w, a)), Fuel(c)) < Fuel(c)(Working(s.workers[w]))
  {
    StageFalls(c, s, w, a);
    if a == Offer {
      OfferBurns(c, s, w);
    }
  }

  /** Every action leaves fewer stages of the attempt. */
  lemma StageFalls(c: Config, s: State, w: nat, a: Action)
    requires Enabled(c, s, Work(w, a)) && WorkerOk(s.workers[w])
    ensures var wk, nk := s.workers[w], NextWorker(c, s, w, a);
            && StagesLeft(nk.pc) < StagesLeft(wk.pc)
            && nk.job == wk.job && nk.sent == (wk.sent || a == Offer) && !wk.pc.Finished?
  {
  }

  /** Sending the job on takes one retry from its budget, which pays for the copy. */
  lemma OfferBurns(c: Config, s: State, w: nat)
    requires Enabled(c, s, Work(w, Offer)) && WorkerOk(s.workers[w])
    ensures FewSum(Entered(c, s, Work(w, Offer)), Fuel(c)) < Fuel(c)(Working(s.workers[w]))
  {
  }

  lemma LocalBurns(c: Config, s: State, step: Step)
    requires Enabled(c, s, step) && AllOk(s) && !step.Tick?
    ensures |Left(c, s, step)| <= 2 && |Entered(c, s, step)| <= 2
    ensures FewSum(Entered(c, s, step), Fuel(c)) < FewSum(Left(c, s, step), Fuel(c))
  {
    match step
    case Work(w, a) => WorkBurns(c, s, w, a);
    case _ =>
  }

  /** Every step except the passing of time lowers the measure. */
  lemma StepBurns(c: Config, s: State, step: Step)
    requires Enabled(c, s, step) && AllOk(s)
    ensures step.Tick? ==> Total(Apply(c, s, step), Fuel(c)) == Total(s, Fuel(c))
    ensures !step.Tick? ==> Total(Apply(c, s, step), Fuel(c)) < Total(s, Fuel(c))
  {
    if !step.Tick? {
      StepMoves(c, s, step, Fuel(c));
      MovesAsFew(c, s, step, Fuel(c));
      LocalBurns(c, s, step);
    }
  }

  /** The number of steps that are not ticks. */
  function Moves(steps: seq<Step>): nat {
    if steps == [] then 0 else (if steps[0].Tick? then 0 else 1) + Moves(steps[1..])
  }

  lemma {:induction false} RunBurns(c: Config, s: State, steps: seq<Step>)
    requires ValidRun(c, s, steps) && AllOk(s)
    ensures Moves(steps) + Total(End(c, s, steps), Fuel(c)) <= Total(s, Fuel(c))
    decreases |steps|
  {
    if steps != [] {
      StepBurns(c, s, steps[0]);
      StepKeepsOk(c, s, steps[0]);
      RunBurns(c, Apply(c, s, steps[0]), steps[1..]);
    }
  }

  lemma {:induction false} OrdersFuel(c: Config, js: seq<Job>)
    ensures JobSum(js, Queued, Fuel(c)) <= |js| * (40 * (c.maxRetry + 1) + 34)
  {
    if js != [] {
      OrdersFuel(c, js[..|js| - 1]);
    }
  }

  /** Termination: however the goroutines interleave and whatever fails, a run over finitely many orders
      takes at most a fixed number of steps per order. */
  lemma RunsAreFinite(c: Config, s: State, steps: seq<Step>)
    requires Initial(s) && ValidRun(c, s, steps)
    ensures Moves(steps) <= |s.queues.orders| * (40 * (c.maxRetry + 1) + 34)
  {
    RunBurns(c, s, steps);
    OrdersFuel(c, s.queues.orders);
    PlaceInTotal(End(c, s, steps), Fuel(c));
  }

  /** A run of faultless steps. */
  ghost predicate FaultlessRun(c: Config, s: State, steps: seq<Step>)
    requires ValidRun(c, s, steps)
  {
    Throughout(c, s, steps, Faultless)
  }

  /** Completion: from every reachable state some faultless continuation disposes of every message. */
  lemma {:induction false} Completes(c: Config, s: State, before: seq<Step>) returns (rest: seq<Step>)
    requires ValidConfig(c) && c.pool >= c.orderCap + c.retryCap + 1
    requires Initial(s) && DistinctOrders(s.queues.orders) && ValidRun(c, s, before)
    ensures ValidRun(c, End(c, s, before), rest) && FaultlessRun(c, End(c, s, before), rest)
    ensures !Busy(End(c, End(c, s, before), rest))
  {
    ReachedFrom(c, s, before);
    rest := Drain(c, End(c, s, before));
  }

  /** The invariant of a reachable state is kept by every step. */
  lemma StepKeepsReached(c: Config, s: State, step: Step)
    requires Enabled(c, s, step) && Reached(c, s)
    ensures Reached(c, Apply(c, s, step))
  {
    StepKeepsOk(c, s, step);
    StepKeepsAccounts(c, s, step);
    PipelineRetries.StepKeepsCounts(c, s, step);
    forall k: Key
      ensures Total(Apply(c, s, step), CopyOf(k)) <= 1
    {
      StepKeepsOneCopy(c, s, step, k);
    }
  }

  /** One faultless step, after a delay where a backoff asks for one. */
  lemma Advance(c: Config, s: State) returns (some: seq<Step>)
    requires ValidConfig(c) && c.pool >= c.orderCap + c.retryCap + 1 && Reached(c, s) && Busy(s)
    ensures ValidRun(c, s, some) && FaultlessRun(c, s, some)
    ensures Reached(c, End(c, s, some)) && Total(End(c, s, some), Fuel(c)) < Total(s, Fuel(c))
  {
    var d, step := BusyMoves(c, s);
    var t := s.(now := s.now + d);
    if d == 0 {
      assert t == s;
      Single(c, s, step);
      some := [step];
    } else {
      Later(c, s, d);
      Single(c, t, step);
      some := [Tick(d)] + [step];
      Concat(c, s, [Tick(d)], [step]);
      assert Faultless(t, step);
    }
  }

  lemma Single(c: Config, s: State, step: Step)
    requires Enabled(c, s, step) && Faultless(s, step) && !step.Tick? && Reached(c, s)
    ensures ValidRun(c, s, [step]) && FaultlessRun(c, s, [step])
    ensures Reached(c, End(c, s, [step])) && Total(End(c, s, [step]), Fuel(c)) < Total(s, Fuel(c))
  {
    assert [step][1..] == [];
    StepKeepsReached(c, s, step);
    StepBurns(c, s, step);
  }

  lemma Later(c: Config, s: State, d: int)
    requires d > 0 && Reached(c, s)
    ensures ValidRun(c, s, [Tick(d)]) && FaultlessRun(c, s, [Tick(d)])
    ensures End(c, s, [Tick(d)]) == s.(now := s.now + d)
    ensures Reached(c, s.(now := s.now + d)) && Total(s.(now := s.now + d), Fuel(c)) == Total(s, Fuel(c))
  {
    assert [Tick(d)][1..] == [];
    StepKeepsReached(c, s, Tick(d));
    StepBurns(c, s, Tick(d));
  }

  lemma {:induction false} Concat(c: Config, s: State, xs: seq<Step>, ys: seq<Step>)
    requires ValidRun(c, s, xs) && FaultlessRun(c, s, xs)
    requires ValidRun(c, End(c, s, xs), ys) && FaultlessRun(c, End(c, s, xs), ys)
    ensures ValidRun(c, s, xs + ys) && FaultlessRun(c, s, xs + ys)
    ensures End(c, s, xs + ys) == End(c, End(c, s, xs), ys)
    decreases |xs|
  {
    if xs == [] {
      assert xs + ys == ys;
    } else {
      Concat(c, Apply(c, s, xs[0]), xs[1..], ys);
      assert (xs + ys)[1..] == xs[1..] + ys;
    }
  }

  lemma {:induction false} Drain(c: Config, s: State) returns (rest: seq<Step>)
    requires ValidConfig(c) && c.pool >= c.orderCap + c.retryCap + 1 && Reached(c, s)
    ensures ValidRun(c, s, rest) && FaultlessRun(c, s, rest)
    ensures !Busy(End(c, s, rest))
    decreases Total(s, Fuel(c))
  {
    rest := [];
    if Busy(s) {
      PlaceInTotal(s, Fuel(c));
      var some := Advance(c, s);
      var more := Drain(c, End(c, s, some));
      Concat(c, s, some, more);
      rest := some + more;
    }
  }

  // ----- attempts of one order -----

  /** The attempts a copy with `r` retries behind it can still start. */
  function Tries(c: Config, r: nat): nat {
    if r <= c.maxRetry then c.maxRetry + 1 - r else 1
  }

  /** Attempts of order `k` that a place can still cause. */
  function TriesLeft(c: Config, k: Key): Place -> int {
    (p: Place) =>
      match p
      case Waiting(stage, job) =>
        if job.key != k || ((stage == Queued || stage == Fetched) && !job.wellFormed) then 0
        else if stage == Recording || (stage == Caught && job.retryCount > c.maxRetry) then 0
        else Tries(c, job.retryCount)
      case Working(wk) =>
        if wk.job.key != k || !wk.job.wellFormed || wk.sent then 0
        else if wk.pc == Received || wk.pc == Sleeping || wk.pc == Locking then Tries(c, wk.job.retryCount)
        else if wk.pc == Overdue || wk.pc.Finished? then 0
        else Tries(c, wk.job.retryCount) - 1
  }

  lemma WorkTries(c: Config, s: State, w: nat, a: Action, k: Key)
    requires Enabled(c, s, Work(w, a)) && WorkerOk(s.workers[w])
    ensures FewSum(Entered(c, s, Work(w, a)), TriesLeft(c, k))
            + (if (a == TakeLock || a.LockFault?) && s.workers[w].job.key == k then 1 else 0)
         <= TriesLeft(c, k)(Working(s.workers[w]))
  {
  }

  lemma LocalTries(c: Config, s: State, step: Step, k: Key)
    requires Enabled(c, s, step) && AllOk(s)
    ensures |Left(c, s, step)| <= 2 && |Entered(c, s, step)| <= 2
    ensures FewSum(Entered(c, s, step), TriesLeft(c, k)) + EventSum(NewEvents(s, step), AttemptsOf(k))
         <= FewSum(Left(c, s, step), TriesLeft(c, k))
  {
    NewEventSum(s, step, AttemptsOf(k));
    match step
    case Work(w, a) => WorkTries(c, s, w, a, k);
    case _ =>
  }

  lemma StepTries(c: Config, s: State, step: Step, k: Key)
    requires Enabled(c, s, step) && AllOk(s)
    ensures Total(Apply(c, s, step), TriesLeft(c, k)) + EventSum(Apply(c, s, step).db.history, AttemptsOf(k))
         <= Total(s, TriesLeft(c, k)) + EventSum(s.db.history, AttemptsOf(k))
  {
    StepMoves(c, s, step, TriesLeft(c, k));
    MovesAsFew(c, s, step, TriesLeft(c, k));
    StepSums(c, s, step, AttemptsOf(k));
    LocalTries(c, s, step, k);
  }

  lemma {:induction false} RunTries(c: Config, s: State, steps: seq<Step>, k: Key)
    requires ValidRun(c, s, steps) && AllOk(s)
    ensures Total(End(c, s, steps), TriesLeft(c, k)) + EventSum(End(c, s, steps).db.history, AttemptsOf(k))
         <= Total(s, TriesLeft(c, k)) + EventSum(s.db.history, AttemptsOf(k))
    decreases |steps|
  {
    if steps != [] {
      StepTries(c, s, steps[0], k);
      StepKeepsOk(c, s, steps[0]);
      RunTries(c, Apply(c, s, steps[0]), steps[1..], k);
    }
  }

  /** A weight of at most `most` on well-formed copies of `k`, and zero elsewhere in the orders topic. */
  lemma {:induction false} DistinctWeight(js: seq<Job>, f: Place -> int, k: Key, most: nat)
    requires DistinctOrders(js)
    requires forall j: Job :: f(Waiting(Queued, j)) <= (if j.wellFormed && j.key == k then most else 0)
    ensures JobSum(js, Queued, f) <= most
    ensures (forall i :: 0 <= i < |js| ==> !(js[i].wellFormed && js[i].key == k)) ==> JobSum(js, Queued, f) <= 0
  {
    if js != [] {
      var n := |js| - 1;
      assert forall i :: 0 <= i < n ==> js[..n][i] == js[i];
      DistinctWeight(js[..n], f, k, most);
      assert js[n] == js[|js| - 1];
    }
  }

  /** Each order is attempted at most once more than the retry limit. */
  lemma AttemptsBounded(c: Config, s: State, steps: seq<Step>, k: Key)
    requires Initial(s) && DistinctOrders(s.queues.orders) && ValidRun(c, s, steps)
    ensures EventSum(End(c, s, steps).db.history, AttemptsOf(k)) <= c.maxRetry + 1
  {
    DistinctWeight(s.queues.orders, TriesLeft(c, k), k, c.maxRetry + 1);
    RunTries(c, s, steps, k);
    PlaceInTotal(End(c, s, steps), TriesLeft(c, k));
  }
}
