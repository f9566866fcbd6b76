/** Retry counts and backoff: what the channel reader publishes, attempt by attempt. */
module PipelineRetries {
  import opened Jobs
  import opened Pipeline

  /** The counts a message of the retry topic can carry. */
  predicate Countable(c: Config, job: Job) {
    1 <= job.retryCount <= c.maxRetry
  }

  ghost predicate CountsBounded(c: Config, s: State) {
    && (forall j :: j in s.queues.retries ==> Countable(c, j))
    && (s.queues.fetchedRetry.Some? ==> Countable(c, s.queues.fetchedRetry.value))
    && (!s.handler.Idle? ==> s.handler.job.retryCount >= 1)
    && forall w :: 0 <= w < |s.workers| ==>
         && (s.workers[w].source == Retries ==> Countable(c, s.workers[w].job))
         && (s.workers[w].pc == Overdue ==> s.workers[w].source == Retries && s.workers[w].job.retryCount > c.maxRetry)
  }

  lemma ActKeepsCounts(c: Config, s: State, w: nat, a: Action)
    requires Enabled(c, s, Work(w, a)) && CountsBounded(c, s)
    ensures CountsBounded(c, Apply(c, s, Work(w, a)))
  {
    OverdueAboveLimit(c, s, w, a);
    var t := Apply(c, s, Work(w, a));
    assert forall v :: 0 <= v < |t.workers| && v != w ==> t.workers[v] == s.workers[v];
  }

  lemma OverdueAboveLimit(c: Config, s: State, w: nat, a: Action)
    requires Enabled(c, s, Work(w, a))
    ensures var wk, nk := s.workers[w], NextWorker(c, s, w, a);
            && nk.source == wk.source && nk.job == wk.job
            && (nk.pc == Overdue ==> wk.source == Retries && wk.job.retryCount > c.maxRetry)
  {
  }

  lemma StepKeepsCounts(c: Config, s: State, step: Step)
    requires Enabled(c, s, step) && CountsBounded(c, s)
    ensures CountsBounded(c, Apply(c, s, step))
  {
    match step
    case Work(w, a) => ActKeepsCounts(c, s, w, a);
    case FetchRetry(i) => assert s.queues.retries[i] in s.queues.retries;
    case Publish(draw, ok) =>
      if ok {
        var job := Delayed(c, s, s.handler.job, draw);
        assert job.retryCount == s.handler.job.retryCount;
      }
    case _ =>
  }

  lemma {:induction false} RunKeepsCounts(c: Config, s: State, steps: seq<Step>)
    requires ValidRun(c, s, steps) && CountsBounded(c, s)
    ensures CountsBounded(c, End(c, s, steps))
    decreases |steps|
  {
    if steps != [] {
      StepKeepsCounts(c, s, steps[0]);
      RunKeepsCounts(c, Apply(c, s, steps[0]), steps[1..]);
    }
  }

  /** Every message the channel reader publishes carries a count between 1 and the maximum, so the limit
      check of the retry consumer never fires on them, whatever counts the orders arrive with. */
  lemma RetryCountsBounded(c: Config, s: State, steps: seq<Step>)
    requires Initial(s) && ValidRun(c, s, steps)
    ensures CountsBounded(c, End(c, s, steps))
    ensures forall w :: 0 <= w < |End(c, s, steps).workers| ==> End(c, s, steps).workers[w].pc != Overdue
  {
    RunKeepsCounts(c, s, steps);
  }

  // ----- messages above the limit, wherever they come from -----

  /** Whoever has a retry message above the limit has not yet looked at it, is about to give it up, or has. */
  ghost predicate NeverAttempted(c: Config, s: State) {
    forall w :: 0 <= w < |s.workers| && s.workers[w].source == Retries && s.workers[w].job.retryCount > c.maxRetry
                ==> s.workers[w].pc == Received || s.workers[w].pc == Overdue || s.workers[w].pc == Finished(true)
  }

  lemma ActKeepsNeverAttempted(c: Config, s: State, w: nat, a: Action)
    requires Enabled(c, s, Work(w, a)) && NeverAttempted(c, s)
    ensures NeverAttempted(c, Apply(c, s, Work(w, a)))
  {
    OverdueAboveLimit(c, s, w, a);
    var t := Apply(c, s, Work(w, a));
    assert forall v :: 0 <= v < |t.workers| && v != w ==> t.workers[v] == s.workers[v];
  }

  /** Whatever a retry topic holds when the process starts, no message above the limit is ever attempted. */
  lemma {:induction false} AboveLimitNeverAttempted(c: Config, s: State, steps: seq<Step>)
    requires ValidRun(c, s, steps) && NeverAttempted(c, s)
    ensures NeverAttempted(c, End(c, s, steps))
    decreases |steps|
  {
    if steps != [] {
      if steps[0].Work? {
        ActKeepsNeverAttempted(c, s, steps[0].w, steps[0].a);
      }
      AboveLimitNeverAttempted(c, Apply(c, s, steps[0]), steps[1..]);
    }
  }
}
