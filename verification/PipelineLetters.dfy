/** Dead letters, exactly: each topic holds the jobs of the goroutines of its source that ended with an error,
    and the retry topic those that ran out of retries; and no order has more than two letters more than the
    retry limit. */
module PipelineLetters {
  import opened Jobs
  import opened Pipeline
  import opened PipelineMoves
  import opened PipelineControl
  import opened PipelineCopies
  import opened PipelineTermination

  // ----- exactly which jobs become letters -----

  /** What the letters of a topic weigh. */
  function LetterSum(js: seq<Job>, g: Job -> int): int {
    if js == [] then 0 else LetterSum(js[..|js| - 1], g) + g(js[|js| - 1])
  }

  /** The goroutines of a source that ended with an error: a rejected message, an error of ProcessPayment, or a
      message above the retry limit. */
  function Failed(source: Source, g: Job -> int): Place -> int {
    (p: Place) =>
      if p.Working? && p.worker.source == source && p.worker.pc == Finished(true) then g(p.worker.job) else 0
  }

  /** The jobs that were sent on with no retry left, less the one the channel reader still has. */
  function Exhausted(c: Config, g: Job -> int): Place -> int {
    (p: Place) =>
      match p
      case Waiting(stage, job) =>
        if (stage == Caught || stage == Recording) && job.retryCount > c.maxRetry then -g(job) else 0
      case Working(wk) => if wk.sent && wk.job.retryCount >= c.maxRetry then g(NextTry(wk.job)) else 0
  }

  lemma LetterSumOne(js: seq<Job>, j: Job, g: Job -> int)
    ensures LetterSum(js + [j], g) == LetterSum(js, g) + g(j)
  {
    assert (js + [j])[..|js + [j]| - 1] == js;
  }

  /** What a step adds to the letters of a topic. */
  function Added(before: seq<Job>, after: seq<Job>, g: Job -> int): int {
    LetterSum(after, g) - LetterSum(before, g)
  }

  ghost predicate LettersExact(c: Config, s: State, g: Job -> int) {
    && LetterSum(s.dead.orders, g) == Total(s, Failed(Orders, g))
    && LetterSum(s.dead.retries, g) == Total(s, Failed(Retries, g)) + Total(s, Exhausted(c, g))
  }

  lemma WorkAddsOrders(c: Config, s: State, w: nat, a: Action, g: Job -> int)
    requires Enabled(c, s, Work(w, a)) && WorkerOk(s.workers[w])
    ensures Added(s.dead.orders, NextDead(s, s.workers[w], a).orders, g)
         == FewSum(Entered(c, s, Work(w, a)), Failed(Orders, g)) - Failed(Orders, g)(Working(s.workers[w]))
  {
    LetterSumOne(s.dead.orders, s.workers[w].job, g);
  }

  lemma WorkAddsRetries(c: Config, s: State, w: nat, a: Action, g: Job -> int)
    requires Enabled(c, s, Work(w, a)) && WorkerOk(s.workers[w])
    ensures Added(s.dead.retries, NextDead(s, s.workers[w], a).retries, g)
         == FewSum(Entered(c, s, Work(w, a)), Failed(Retries, g)) - Failed(Retries, g)(Working(s.workers[w]))
    ensures FewSum(Entered(c, s, Work(w, a)), Exhausted(c, g)) == Exhausted(c, g)(Working(s.workers[w]))
  {
    LetterSumOne(s.dead.retries, s.workers[w].job, g);
    NextIsCopy(c, s, w, a);
  }

  lemma NextIsCopy(c: Config, s: State, w: nat, a: Action)
    requires Enabled(c, s, Work(w, a)) && WorkerOk(s.workers[w])
    ensures var wk, nk := s.workers[w], NextWorker(c, s, w, a);
            && nk.job == wk.job && nk.source == wk.source
            && nk.sent == (wk.sent || a == Offer) && (a == Offer ==> !wk.sent)
  {
  }

  /** The channel reader writes a final status only for a job without retries left. */
  predicate ReaderOver(c: Config, s: State) {
    s.handler.Updating? ==> s.handler.job.retryCount > c.maxRetry
  }

  lemma StepAdds(c: Config, s: State, step: Step, g: Job -> int)
    requires Enabled(c, s, step) && AllOk(s) && ReaderOver(c, s)
    ensures var t := Apply(c, s, step); var out, into := Left(c, s, step), Entered(c, s, step);
            && Added(s.dead.orders, t.dead.orders, g)
            == PlaceSum(into, Failed(Orders, g)) - PlaceSum(out, Failed(Orders, g))
            && Added(s.dead.retries, t.dead.retries, g)
            == PlaceSum(into, Failed(Retries, g)) - PlaceSum(out, Failed(Retries, g))
               + PlaceSum(into, Exhausted(c, g)) - PlaceSum(out, Exhausted(c, g))
  {
    MovesAsFew(c, s, step, Failed(Orders, g));
    MovesAsFew(c, s, step, Failed(Retries, g));
    MovesAsFew(c, s, step, Exhausted(c, g));
    if step.Work? {
      WorkAddsOrders(c, s, step.w, step.a, g);
      WorkAddsRetries(c, s, step.w, step.a, g);
    } else if step.HandlerFail? || step.HandlerFault? {
      LetterSumOne(s.dead.retries, s.handler.job, g);
    } else if step.Publish? && step.ok {
      assert Delayed(c, s, s.handler.job, step.draw).retryCount == s.handler.job.retryCount;
    }
  }

  lemma StepKeepsExact(c: Config, s: State, step: Step, g: Job -> int)
    requires Enabled(c, s, step) && AllOk(s) && ReaderOver(c, s) && LettersExact(c, s, g)
    ensures LettersExact(c, Apply(c, s, step), g) && ReaderOver(c, Apply(c, s, step))
  {
    StepMoves(c, s, step, Failed(Orders, g));
    StepMoves(c, s, step, Failed(Retries, g));
    StepMoves(c, s, step, Exhausted(c, g));
    StepAdds(c, s, step, g);
  }

  lemma {:induction false} RunKeepsExact(c: Config, s: State, steps: seq<Step>, g: Job -> int)
    requires ValidRun(c, s, steps) && AllOk(s) && ReaderOver(c, s) && LettersExact(c, s, g)
    ensures LettersExact(c, End(c, s, steps), g)
    decreases |steps|
  {
    if steps != [] {
      StepKeepsExact(c, s, steps[0], g);
      StepKeepsOk(c, s, steps[0]);
      RunKeepsExact(c, Apply(c, s, steps[0]), steps[1..], g);
    }
  }

  lemma {:induction false} QueuesWeighNothing(js: seq<Job>, stage: Stage, f: Place -> int)
    requires forall j :: f(Waiting(stage, j)) == 0
    ensures JobSum(js, stage, f) == 0
  {
    if js != [] {
      QueuesWeighNothing(js[..|js| - 1], stage, f);
    }
  }

  /** The job that the channel reader has and that has no retry left. */
  function WithReader(c: Config, h: Handler, g: Job -> int): int {
    if !h.Idle? && h.job.retryCount > c.maxRetry then g(h.job) else 0
  }

  /** In every run and for every weight on jobs, so with contents and multiplicity: the letters of the orders
      topic are the jobs of the order goroutines that ended with an error; those of the retry topic are the
      jobs of the retry goroutines that did, and the jobs sent on with no retry left that the channel reader
      has dealt with. */
  lemma LettersAreTheFailures(c: Config, s: State, steps: seq<Step>, g: Job -> int)
    requires Initial(s) && ValidRun(c, s, steps)
    ensures var t := End(c, s, steps);
            && LetterSum(t.dead.orders, g) == WorkerSum(t.workers, Failed(Orders, g))
            && LetterSum(t.dead.retries, g)
            == WorkerSum(t.workers, Failed(Retries, g))
               + WorkerSum(t.workers, Exhausted(c, g)) - WithReader(c, t.handler, g)
  {
    var t := End(c, s, steps);
    OnlyWorkers(c, s, g);
    RunKeepsExact(c, s, steps, g);
    OnlyWorkers(c, t, g);
  }

  lemma OnlyWorkers(c: Config, s: State, g: Job -> int)
    ensures forall source :: Total(s, Failed(source, g)) == WorkerSum(s.workers, Failed(source, g))
    ensures Total(s, Exhausted(c, g)) == WorkerSum(s.workers, Exhausted(c, g)) - WithReader(c, s.handler, g)
  {
    forall source
      ensures Total(s, Failed(source, g)) == WorkerSum(s.workers, Failed(source, g))
    {
      QueuesWeighNothing(s.queues.orders, Queued, Failed(source, g));
      QueuesWeighNothing(s.queues.retries, Requeued, Failed(source, g));
    }
    QueuesWeighNothing(s.queues.orders, Queued, Exhausted(c, g));
    QueuesWeighNothing(s.queues.retries, Requeued, Exhausted(c, g));
  }

  // ----- at most two letters more than the retry limit -----

  /** Well-formed dead letters of an order. */
  function LettersOf(js: seq<Job>, k: Key): nat {
    if js == [] then 0
    else LettersOf(js[..|js| - 1], k) + (if js[|js| - 1].key == k && js[|js| - 1].wellFormed then 1 else 0)
  }

  function AllLetters(s: State, k: Key): nat {
    LettersOf(s.dead.orders, k) + LettersOf(s.dead.retries, k)
  }

  /** Dead letters of order `k` that a place can still cause: one per attempt, one for giving up. */
  function LettersLeft(c: Config, k: Key): Place -> int {
    (p: Place) =>
      match p
      case Waiting(stage, job) =>
        if job.key != k || ((stage == Queued || stage == Fetched) && !job.wellFormed) then 0
        else if stage == Recording || (stage == Caught && job.retryCount > c.maxRetry) then 1
        else Tries(c, job.retryCount) + 1
      case Working(wk) =>
        if wk.job.key != k || !wk.job.wellFormed || wk.pc.Finished? then 0
        else if wk.sent || wk.pc.Reporting? || wk.pc == Overdue then 1
        else Tries(c, wk.job.retryCount) + 1
  }

  lemma WorkLetters(c: Config, s: State, w: nat, a: Action, k: Key)
    requires Enabled(c, s, Work(w, a)) && WorkerOk(s.workers[w])
    ensures FewSum(Entered(c, s, Work(w, a)), LettersLeft(c, k))
            + (if (a == Report || a.GiveUp?) && s.workers[w].job.key == k then 1 else 0)
         <= LettersLeft(c, k)(Working(s.workers[w]))
  {
  }

  lemma LettersOne(js: seq<Job>, j: Job, k: Key)
    ensures LettersOf(js + [j], k) == LettersOf(js, k) + (if j.key == k && j.wellFormed then 1 else 0)
  {
    assert (js + [j])[..|js + [j]| - 1] == js;
  }

  /** A bound on the dead letters of an order that one step adds. */
  function NewLetters(s: State, step: Step, k: Key): nat {
    if (step.HandlerFail? || step.HandlerFault?) && !s.handler.Idle? && s.handler.job.key == k then 1
    else if step.Work? && step.w < |s.workers| && (step.a == Report || step.a.GiveUp?)
            && s.workers[step.w].job.key == k && s.workers[step.w].job.wellFormed then 1
    else 0
  }

  lemma DeadLetterOne(dead: DeadLetters, source: Source, job: Job, k: Key)
    ensures LettersOf(DeadLetter(dead, source, job).orders, k) + LettersOf(DeadLetter(dead, source, job).retries, k)
         == LettersOf(dead.orders, k) + LettersOf(dead.retries, k) + (if job.key == k && job.wellFormed then 1 else 0)
  {
    LettersOne(dead.orders, job, k);
    LettersOne(dead.retries, job, k);
  }

  lemma StepWritesLetters(c: Config, s: State, step: Step, k: Key)
    requires Enabled(c, s, step)
    ensures AllLetters(Apply(c, s, step), k) <= AllLetters(s, k) + NewLetters(s, step, k)
  {
    if step.Work? {
      WorkWritesLetters(s, step.w, step.a, k);
    } else if step.HandlerFail? || step.HandlerFault? {
      DeadLetterOne(s.dead, Retries, s.handler.job, k);
    }
  }

  /** A rejected job is no well-formed letter; giving up and reporting write at most one. */
  lemma WorkWritesLetters(s: State, w: nat, a: Action, k: Key)
    requires w < |s.workers| && (a == Reject ==> !s.workers[w].job.wellFormed)
    ensures var dead := NextDead(s, s.workers[w], a);
            LettersOf(dead.orders, k) + LettersOf(dead.retries, k) <= AllLetters(s, k) + NewLetters(s, Work(w, a), k)
  {
    var wk := s.workers[w];
    var dead := NextDead(s, wk, a);
    if dead == s.dead {
      return;
    }
    var source := if a.GiveUp? then Retries else wk.source;
    assert dead == DeadLetter(s.dead, source, wk.job);
    DeadLetterOne(s.dead, source, wk.job, k);
  }

  lemma LocalLetters(c: Config, s: State, step: Step, k: Key)
    requires Enabled(c, s, step) && AllOk(s)
    ensures |Left(c, s, step)| <= 2 && |Entered(c, s, step)| <= 2
    ensures FewSum(Entered(c, s, step), LettersLeft(c, k)) + NewLetters(s, step, k)
         <= FewSum(Left(c, s, step), LettersLeft(c, k))
  {
    match step
    case Work(w, a) => WorkLetters(c, s, w, a, k);
    case _ =>
  }

  lemma StepLetters(c: Config, s: State, step: Step, k: Key)
    requires Enabled(c, s, step) && AllOk(s)
    ensures Total(Apply(c, s, step), LettersLeft(c, k)) + AllLetters(Apply(c, s, step), k)
         <= Total(s, LettersLeft(c, k)) + AllLetters(s, k)
  {
    StepMoves(c, s, step, LettersLeft(c, k));
    MovesAsFew(c, s, step, LettersLeft(c, k));
    StepWritesLetters(c, s, step, k);
    LocalLetters(c, s, step, k);
  }

  lemma {:induction false} RunLetters(c: Config, s: State, steps: seq<Step>, k: Key)
    requires ValidRun(c, s, steps) && AllOk(s)
    ensures Total(End(c, s, steps), LettersLeft(c, k)) + AllLetters(End(c, s, steps), k)
         <= Total(s, LettersLeft(c, k)) + AllLetters(s, k)
    decreases |steps|
  {
    if steps != [] {
      StepLetters(c, s, steps[0], k);
      StepKeepsOk(c, s, steps[0]);
      RunLetters(c, Apply(c, s, steps[0]), steps[1..], k);
    }
  }

  /** Each order produces at most two dead letters more than the retry limit. */
  lemma DeadLettersBounded(c: Config, s: State, steps: seq<Step>, k: Key)
    requires Initial(s) && DistinctOrders(s.queues.orders) && ValidRun(c, s, steps)
    ensures AllLetters(End(c, s, steps), k) <= c.maxRetry + 2
  {
    DistinctWeight(s.queues.orders, LettersLeft(c, k), k, c.maxRetry + 2);
    RunLetters(c, s, steps, k);
    PlaceInTotal(End(c, s, steps), LettersLeft(c, k));
  }
}
