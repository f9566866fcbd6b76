/** Attempts, exactly: the history counts the goroutines that began one, and the retry count of a copy is the
    number of attempts made on its order, so that an order runs out of retries after exactly one attempt more
    than the retry limit. */
module PipelineAttempts {
  import opened Jobs
  import opened Pipeline
  import opened PipelineMoves
  import opened PipelineControl
  import opened PipelineHistory
  import opened PipelineCopies
  import opened PipelineRetries
  import opened PipelineLetters

  /** The goroutine has asked for the lock: it is past that point, or ended with a readable message that was not
      above the retry limit. */
  predicate Begun(c: Config, wk: Worker) {
    match wk.pc
    case Received => false
    case Overdue => false
    case Sleeping => false
    case Locking => false
    case Finished(_) => wk.job.wellFormed && (wk.source == Retries ==> wk.job.retryCount <= c.maxRetry)
    case _ => true
  }

  function BegunOn(c: Config, k: Key): Place -> int {
    (p: Place) => if p.Working? && p.worker.job.key == k && Begun(c, p.worker) then 1 else 0
  }

  /** The action starts an attempt. */
  predicate Starts(a: Action) {
    a == TakeLock || a.LockFault?
  }

  lemma ActBegins(c: Config, s: State, w: nat, a: Action)
    requires Enabled(c, s, Work(w, a)) && WorkerOk(s.workers[w]) && CountsBounded(c, s)
    ensures Begun(c, NextWorker(c, s, w, a)) <==> Begun(c, s.workers[w]) || Starts(a)
    ensures Starts(a) ==> !Begun(c, s.workers[w]) && s.workers[w].pc == Locking
    ensures NextWorker(c, s, w, a).job == s.workers[w].job
  {
  }

  /** The attempts that a step starts on an order. */
  function NewAttempts(s: State, step: Step, k: Key): nat {
    if step.Work? && step.w < |s.workers| && Starts(step.a) && s.workers[step.w].job.key == k then 1 else 0
  }

  lemma AttemptEvents(s: State, step: Step, k: Key)
    ensures EventSum(NewEvents(s, step), AttemptsOf(k)) == NewAttempts(s, step, k)
  {
    NewEventSum(s, step, AttemptsOf(k));
  }

  lemma AttemptsAfter(c: Config, s: State, step: Step, k: Key)
    requires Enabled(c, s, step)
    ensures EventSum(Apply(c, s, step).db.history, AttemptsOf(k))
         == EventSum(s.db.history, AttemptsOf(k)) + NewAttempts(s, step, k)
  {
    StepSums(c, s, step, AttemptsOf(k));
    AttemptEvents(s, step, k);
  }

  lemma StepCounts(c: Config, s: State, step: Step, k: Key)
    requires Enabled(c, s, step) && AllOk(s) && CountsBounded(c, s)
    ensures Total(Apply(c, s, step), BegunOn(c, k)) == Total(s, BegunOn(c, k)) + NewAttempts(s, step, k)
  {
    StepMoves(c, s, step, BegunOn(c, k));
    MovesAsFew(c, s, step, BegunOn(c, k));
    if step.Work? {
      ActBegins(c, s, step.w, step.a);
    }
  }

  lemma {:induction false} RunCounts(c: Config, s: State, steps: seq<Step>, k: Key)
    requires ValidRun(c, s, steps) && AllOk(s) && CountsBounded(c, s)
    requires Total(s, BegunOn(c, k)) == EventSum(s.db.history, AttemptsOf(k))
    ensures Total(End(c, s, steps), BegunOn(c, k)) == EventSum(End(c, s, steps).db.history, AttemptsOf(k))
    decreases |steps|
  {
    if steps != [] {
      StepCounts(c, s, steps[0], k);
      AttemptsAfter(c, s, steps[0], k);
      StepKeepsOk(c, s, steps[0]);
      StepKeepsCounts(c, s, steps[0]);
      RunCounts(c, Apply(c, s, steps[0]), steps[1..], k);
    }
  }

  /** In every run the attempts recorded for an order are the goroutines that began one, no more and no less. */
  lemma AttemptsAreTheBegun(c: Config, s: State, steps: seq<Step>, k: Key)
    requires Initial(s) && ValidRun(c, s, steps)
    ensures EventSum(End(c, s, steps).db.history, AttemptsOf(k)) == WorkerSum(End(c, s, steps).workers, BegunOn(c, k))
  {
    var t := End(c, s, steps);
    QueuesWeighNothing(s.queues.orders, Queued, BegunOn(c, k));
    RunCounts(c, s, steps, k);
    QueuesWeighNothing(t.queues.orders, Queued, BegunOn(c, k));
    QueuesWeighNothing(t.queues.retries, Requeued, BegunOn(c, k));
  }

  // ----- the retry count of a copy is the number of attempts made -----

  /** The attempts that the place of a copy accounts for. */
  function Tried(c: Config, p: Place): nat {
    match p
    case Waiting(_, job) => job.retryCount
    case Working(wk) => wk.job.retryCount + (if Begun(c, wk) then 1 else 0)
  }

  /** Live copies of an order that account for `n` attempts, and those that do not. */
  function Matched(c: Config, k: Key, n: int): Place -> int {
    (p: Place) => if CopiesIn(p, k) == 1 && Tried(c, p) == n then 1 else 0
  }

  function Unmatched(c: Config, k: Key, n: int): Place -> int {
    (p: Place) => if CopiesIn(p, k) == 1 && Tried(c, p) != n then 1 else 0
  }

  lemma {:induction false} JobSumAdds(js: seq<Job>, stage: Stage, f: Place -> int, g: Place -> int, h: Place -> int)
    requires forall p :: f(p) == g(p) + h(p)
    ensures JobSum(js, stage, f) == JobSum(js, stage, g) + JobSum(js, stage, h)
  {
    if js != [] {
      JobSumAdds(js[..|js| - 1], stage, f, g, h);
    }
  }

  lemma {:induction false} WorkerSumAdds(ws: seq<Worker>, f: Place -> int, g: Place -> int, h: Place -> int)
    requires forall p :: f(p) == g(p) + h(p)
    ensures WorkerSum(ws, f) == WorkerSum(ws, g) + WorkerSum(ws, h)
  {
    if ws != [] {
      WorkerSumAdds(ws[..|ws| - 1], f, g, h);
    }
  }

  lemma TotalAdds(s: State, f: Place -> int, g: Place -> int, h: Place -> int)
    requires forall p :: f(p) == g(p) + h(p)
    ensures Total(s, f) == Total(s, g) + Total(s, h)
  {
    JobSumAdds(s.queues.orders, Queued, f, g, h);
    JobSumAdds(s.queues.retries, Requeued, f, g, h);
    WorkerSumAdds(s.workers, f, g, h);
  }

  /** A step that starts no attempt leaves every copy accounting for what it did. */
  lemma WorkKeepsMatched(c: Config, s: State, w: nat, a: Action, k: Key, n: int)
    requires Enabled(c, s, Work(w, a)) && WorkerOk(s.workers[w]) && CountsBounded(c, s)
    requires !(Starts(a) && s.workers[w].job.key == k)
    ensures FewSum(Entered(c, s, Work(w, a)), Unmatched(c, k, n)) <= Unmatched(c, k, n)(Working(s.workers[w]))
  {
    ActBegins(c, s, w, a);
    NextIsCopy(c, s, w, a);
    SendsAfterBegin(c, s, w, a);
  }

  lemma SendsAfterBegin(c: Config, s: State, w: nat, a: Action)
    requires Enabled(c, s, Work(w, a)) && WorkerOk(s.workers[w])
    ensures a == Offer ==> Begun(c, s.workers[w]) && Live(s.workers[w]) && s.workers[w].job.wellFormed
    ensures Live(NextWorker(c, s, w, a)) ==> Live(s.workers[w])
  {
  }

  lemma StepKeepsMatched(c: Config, s: State, step: Step, k: Key, n: int)
    requires Enabled(c, s, step) && AllOk(s) && CountsBounded(c, s) && NewAttempts(s, step, k) == 0
    ensures Total(Apply(c, s, step), Unmatched(c, k, n)) <= Total(s, Unmatched(c, k, n))
  {
    StepMoves(c, s, step, Unmatched(c, k, n));
    MovesAsFew(c, s, step, Unmatched(c, k, n));
    if step.Work? {
      WorkKeepsMatched(c, s, step.w, step.a, k, n);
    } else {
      OthersKeepMatched(c, s, step, k, n);
    }
  }

  lemma OthersKeepMatched(c: Config, s: State, step: Step, k: Key, n: int)
    requires Enabled(c, s, step) && !step.Work?
    ensures |Left(c, s, step)| <= 1 && |Entered(c, s, step)| <= 1
    ensures FewSum(Entered(c, s, step), Unmatched(c, k, n)) <= FewSum(Left(c, s, step), Unmatched(c, k, n))
  {
    if step.Publish? && step.ok {
      assert Delayed(c, s, s.handler.job, step.draw).retryCount == s.handler.job.retryCount;
    }
  }

  /** The one copy that starts an attempt accounts for one more. */
  lemma StartMatches(c: Config, s: State, step: Step, k: Key, n: int)
    requires Enabled(c, s, step) && AllOk(s) && CountsBounded(c, s) && NewAttempts(s, step, k) == 1
    requires Total(s, CopyOf(k)) <= 1 && Total(s, Unmatched(c, k, n)) == 0
    ensures Total(Apply(c, s, step), Unmatched(c, k, n + 1)) <= 0
  {
    var t := Apply(c, s, step);
    TotalAdds(t, CopyOf(k), Matched(c, k, n + 1), Unmatched(c, k, n + 1));
    if step.a == TakeLock {
      StepKeepsOneCopy(c, s, step, k);
      MatchedAfterLock(c, s, step.w, k, n);
    } else {
      FaultUsesCopy(c, s, step, k);
      TotalPositive(t, Matched(c, k, n + 1));
    }
  }

  lemma MatchedAfterLock(c: Config, s: State, w: nat, k: Key, n: int)
    requires Enabled(c, s, Work(w, TakeLock)) && WorkerOk(s.workers[w]) && s.workers[w].job.key == k
    requires Total(s, Unmatched(c, k, n)) == 0
    ensures Total(Apply(c, s, Work(w, TakeLock)), Matched(c, k, n + 1)) >= 1
  {
    WorkerInTotal(s, w, Unmatched(c, k, n));
    LockMatches(c, s, w, k, n);
    WorkerInTotal(Apply(c, s, Work(w, TakeLock)), w, Matched(c, k, n + 1));
  }

  lemma LockMatches(c: Config, s: State, w: nat, k: Key, n: int)
    requires Enabled(c, s, Work(w, TakeLock)) && WorkerOk(s.workers[w]) && s.workers[w].job.key == k
    requires Unmatched(c, k, n)(Working(s.workers[w])) == 0
    ensures Matched(c, k, n + 1)(Working(NextWorker(c, s, w, TakeLock))) == 1
  {
  }

  lemma FaultUsesCopy(c: Config, s: State, step: Step, k: Key)
    requires Enabled(c, s, step) && AllOk(s) && Total(s, CopyOf(k)) <= 1
    requires step.Work? && step.a.LockFault? && s.workers[step.w].job.key == k
    ensures Total(Apply(c, s, step), CopyOf(k)) <= 0
  {
    StepMoves(c, s, step, CopyOf(k));
    MovesAsFew(c, s, step, CopyOf(k));
  }

  ghost predicate Accurate(c: Config, s: State, k: Key) {
    Total(s, CopyOf(k)) <= 1 && Total(s, Unmatched(c, k, EventSum(s.db.history, AttemptsOf(k)))) == 0
  }

  lemma StepKeepsAccurate(c: Config, s: State, step: Step, k: Key)
    requires Enabled(c, s, step) && AllOk(s) && CountsBounded(c, s) && Accurate(c, s, k)
    ensures Accurate(c, Apply(c, s, step), k)
  {
    var n := EventSum(s.db.history, AttemptsOf(k));
    AttemptsAfter(c, s, step, k);
    StepKeepsOneCopy(c, s, step, k);
    if NewAttempts(s, step, k) == 0 {
      StepKeepsMatched(c, s, step, k, n);
      TotalPositive(Apply(c, s, step), Unmatched(c, k, n));
    } else {
      StartMatches(c, s, step, k, n);
      TotalPositive(Apply(c, s, step), Unmatched(c, k, n + 1));
    }
  }

  lemma {:induction false} RunKeepsAccurate(c: Config, s: State, steps: seq<Step>, k: Key)
    requires ValidRun(c, s, steps) && AllOk(s) && CountsBounded(c, s) && Accurate(c, s, k)
    ensures Accurate(c, End(c, s, steps), k)
    decreases |steps|
  {
    if steps != [] {
      StepKeepsAccurate(c, s, steps[0], k);
      StepKeepsOk(c, s, steps[0]);
      StepKeepsCounts(c, s, steps[0]);
      RunKeepsAccurate(c, Apply(c, s, steps[0]), steps[1..], k);
    }
  }

  lemma {:induction false} FreshAccurate(c: Config, js: seq<Job>, k: Key)
    requires forall i :: 0 <= i < |js| ==> js[i].retryCount == 0
    ensures JobSum(js, Queued, Unmatched(c, k, 0)) == 0
  {
    if js != [] {
      assert forall i :: 0 <= i < |js| - 1 ==> js[..|js| - 1][i] == js[i];
      FreshAccurate(c, js[..|js| - 1], k);
    }
  }

  /** In every run of distinct orders that arrive with no retry behind them: a job in the retry topic or with the
      channel reader carries as its retry count exactly the number of attempts made on its order, and a live
      goroutine one attempt less once it has begun its own. */
  lemma RetryCountIsAttempts(c: Config, s: State, steps: seq<Step>, k: Key)
    requires Initial(s) && DistinctOrders(s.queues.orders) && ValidRun(c, s, steps)
    requires forall i :: 0 <= i < |s.queues.orders| ==> s.queues.orders[i].retryCount == 0
    ensures AllTried(c, End(c, s, steps), k, EventSum(End(c, s, steps).db.history, AttemptsOf(k)))
  {
    DistinctSum(s.queues.orders, k);
    FreshAccurate(c, s.queues.orders, k);
    assert Accurate(c, s, k);
    RunKeepsAccurate(c, s, steps, k);
    NothingUnmatched(c, End(c, s, steps), k, EventSum(End(c, s, steps).db.history, AttemptsOf(k)));
  }

  /** Every copy of the order accounts for `n` attempts. */
  ghost predicate AllTried(c: Config, s: State, k: Key, n: int) {
    && (forall j :: j in s.queues.retries && j.key == k ==> j.retryCount == n)
    && (!s.handler.Idle? && s.handler.job.key == k ==> s.handler.job.retryCount == n)
    && (forall w :: 0 <= w < |s.workers| && s.workers[w].job.key == k && s.workers[w].job.wellFormed
                    && Live(s.workers[w])
                    ==> n == s.workers[w].job.retryCount + (if Begun(c, s.workers[w]) then 1 else 0))
  }

  lemma NothingUnmatched(c: Config, s: State, k: Key, n: int)
    requires Total(s, Unmatched(c, k, n)) == 0
    ensures AllTried(c, s, k, n)
  {
    PlaceInTotal(s, Unmatched(c, k, n));
    forall j | j in s.queues.retries && j.key == k
      ensures j.retryCount == n
    {
      assert Unmatched(c, k, n)(Waiting(Requeued, j)) <= 0;
    }
    forall w | 0 <= w < |s.workers|
      ensures Unmatched(c, k, n)(Working(s.workers[w])) <= 0
    {
      WorkerInTotal(s, w, Unmatched(c, k, n));
    }
  }

  /** In such a run an order is given up only after exactly one attempt more than the retry limit. */
  lemma GivenUpAfterAllAttempts(c: Config, s: State, steps: seq<Step>)
    requires Initial(s) && DistinctOrders(s.queues.orders) && ValidRun(c, s, steps)
    requires forall i :: 0 <= i < |s.queues.orders| ==> s.queues.orders[i].retryCount == 0
    requires var h := End(c, s, steps).handler; !h.Idle? && h.job.retryCount > c.maxRetry
    ensures var t := End(c, s, steps); EventSum(t.db.history, AttemptsOf(t.handler.job.key)) == c.maxRetry + 1
  {
    var t := End(c, s, steps);
    RetryCountIsAttempts(c, s, steps, t.handler.job.key);
    HandlerCounts(c, s, steps);
  }

  /** The channel reader is never more than one past the limit. */
  predicate ReaderCount(c: Config, s: State) {
    !s.handler.Idle? ==> s.handler.job.retryCount <= c.maxRetry + 1
  }

  ghost predicate Fresh(s: State) {
    && (forall j :: j in s.queues.orders ==> j.retryCount == 0)
    && (s.queues.fetchedOrder.Some? ==> s.queues.fetchedOrder.value.retryCount == 0)
    && (forall w :: 0 <= w < |s.workers| && s.workers[w].source == Orders ==> s.workers[w].job.retryCount == 0)
  }

  lemma StepKeepsFresh(c: Config, s: State, step: Step)
    requires Enabled(c, s, step) && AllOk(s) && CountsBounded(c, s) && Fresh(s) && ReaderCount(c, s)
    ensures Fresh(Apply(c, s, step)) && ReaderCount(c, Apply(c, s, step))
  {
    if step.Work? {
      NextIsCopy(c, s, step.w, step.a);
    } else if step.FetchOrder? {
      assert s.queues.orders[step.i] in s.queues.orders;
    }
  }

  lemma {:induction false} RunKeepsFresh(c: Config, s: State, steps: seq<Step>)
    requires ValidRun(c, s, steps) && AllOk(s) && CountsBounded(c, s) && Fresh(s) && ReaderCount(c, s)
    ensures ReaderCount(c, End(c, s, steps))
    decreases |steps|
  {
    if steps != [] {
      StepKeepsFresh(c, s, steps[0]);
      StepKeepsOk(c, s, steps[0]);
      StepKeepsCounts(c, s, steps[0]);
      RunKeepsFresh(c, Apply(c, s, steps[0]), steps[1..]);
    }
  }

  lemma HandlerCounts(c: Config, s: State, steps: seq<Step>)
    requires Initial(s) && ValidRun(c, s, steps)
    requires forall i :: 0 <= i < |s.queues.orders| ==> s.queues.orders[i].retryCount == 0
    ensures ReaderCount(c, End(c, s, steps))
  {
    RunKeepsFresh(c, s, steps);
  }
}
