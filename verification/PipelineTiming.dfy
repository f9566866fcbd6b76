/** When a retry runs: the message that the channel reader publishes is held back by the jittered, capped backoff
    of its retry count, and no retry goroutine asks for the lock before that time has passed. */
module PipelineTiming {
  import opened Jobs
  import Backoff
  import opened Pipeline

  function Min(x: int, y: int): int {
    if x <= y then x else y
  }

  /** The least and the longest backoff of a retry: an eighth below and above the nominal one, capped. */
  function Least(c: Config, count: nat): int
    requires count >= 1
  {
    var b := c.base * Backoff.Pow2(count - 1);
    Min(b - b / 8, c.maxBackoff)
  }

  function Longest(c: Config, count: nat): int
    requires count >= 1
  {
    var b := c.base * Backoff.Pow2(count - 1);
    Min(b + b / 8, c.maxBackoff)
  }

  /** The message that a publish appends carries the job of the channel reader, and is held back by at least the
      least and at most the longest backoff of its count, counted from the present time. */
  lemma PublishDelays(c: Config, s: State, draw: int)
    requires ValidConfig(c) && Enabled(c, s, Publish(draw, true))
    ensures var t, job := Apply(c, s, Publish(draw, true)), s.handler.job;
            && |t.queues.retries| == |s.queues.retries| + 1
            && t.queues.retries[..|s.queues.retries|] == s.queues.retries
            && var j := t.queues.retries[|s.queues.retries|];
            && j.key == job.key && j.account == job.account && j.amount == job.amount
            && j.retryCount == job.retryCount && j.wellFormed == job.wellFormed
            && Least(c, job.retryCount) <= j.notBefore - s.now <= Longest(c, job.retryCount)
  {
    var count := s.handler.job.retryCount;
    Backoff.NominalExact(count, c.maxRetry, c.base);
    Backoff.DelayBounds(count, c.base, c.maxBackoff, draw);
  }

  // ----- over whole runs -----

  /** A message was published for order `key` with `count` retries behind it, at time `at`. */
  datatype Publication = Publication(key: Key, count: nat, at: int)

  /** What the channel reader publishes in a run. */
  function Published(c: Config, s: State, steps: seq<Step>): set<Publication>
    requires ValidRun(c, s, steps)
    decreases |steps|
  {
    if steps == [] then {}
    else (if steps[0].Publish? && steps[0].ok
          then {Publication(s.handler.job.key, s.handler.job.retryCount, s.now)} else {})
         + Published(c, Apply(c, s, steps[0]), steps[1..])
  }

  /** A publication of this job, held back by its backoff. */
  ghost predicate HeldBack(c: Config, job: Job, ps: set<Publication>) {
    exists p :: p in ps && p.key == job.key && p.count == job.retryCount >= 1
                && p.at + Least(c, p.count) <= job.notBefore <= p.at + Longest(c, p.count)
  }

  /** Past its backoff and not yet done. */
  predicate Awake(wk: Worker) {
    wk.pc != Received && wk.pc != Overdue && wk.pc != Sleeping && !wk.pc.Finished?
  }

  ghost predicate Timely(c: Config, s: State, ps: set<Publication>) {
    && (forall j :: j in s.queues.retries ==> HeldBack(c, j, ps))
    && (s.queues.fetchedRetry.Some? ==> HeldBack(c, s.queues.fetchedRetry.value, ps))
    && (forall w :: 0 <= w < |s.workers| && s.workers[w].source == Retries ==> HeldBack(c, s.workers[w].job, ps))
    && (forall w :: 0 <= w < |s.workers| && s.workers[w].source == Retries && Awake(s.workers[w])
                    ==> s.workers[w].job.notBefore <= s.now)
    && (forall w :: 0 <= w < |s.workers| && s.workers[w].source == Retries && s.workers[w].lock.Some?
                    ==> s.workers[w].job.notBefore <= s.workers[w].lock.value)
  }

  lemma TimelyWithMore(c: Config, s: State, ps: set<Publication>, qs: set<Publication>)
    requires Timely(c, s, ps) && ps <= qs
    ensures Timely(c, s, qs)
  {
    forall job | HeldBack(c, job, ps)
      ensures HeldBack(c, job, qs)
    {
    }
  }

  lemma ActKeepsTime(c: Config, s: State, w: nat, a: Action)
    requires Enabled(c, s, Work(w, a))
    ensures var wk, nk := s.workers[w], NextWorker(c, s, w, a);
            && nk.job == wk.job && nk.source == wk.source
            && (Awake(nk) && wk.source == Retries ==> Awake(wk) || wk.job.notBefore <= s.now)
            && (nk.lock.Some? ==> nk.lock == wk.lock || (nk.lock == Some(s.now) && Awake(wk)))
  {
  }

  lemma WorkKeepsTimely(c: Config, s: State, w: nat, a: Action, ps: set<Publication>)
    requires Enabled(c, s, Work(w, a)) && Timely(c, s, ps)
    ensures Timely(c, Apply(c, s, Work(w, a)), ps)
  {
    ActKeepsTime(c, s, w, a);
    var t := Apply(c, s, Work(w, a));
    assert forall v :: 0 <= v < |t.workers| && v != w ==> t.workers[v] == s.workers[v];
  }

  /** What one step publishes. */
  function PublishedBy(s: State, step: Step): set<Publication> {
    if step.Publish? && step.ok && !s.handler.Idle?
    then {Publication(s.handler.job.key, s.handler.job.retryCount, s.now)} else {}
  }

  lemma StepKeepsTimely(c: Config, s: State, step: Step, ps: set<Publication>)
    requires ValidConfig(c) && Enabled(c, s, step) && Timely(c, s, ps)
    ensures Timely(c, Apply(c, s, step), ps + PublishedBy(s, step))
  {
    if step.Publish? && step.ok {
      PublishKeepsTimely(c, s, step.draw, ps);
    } else {
      assert ps + PublishedBy(s, step) == ps;
      if step.Work? {
        WorkKeepsTimely(c, s, step.w, step.a, ps);
      } else {
        OthersKeepTimely(c, s, step, ps);
      }
    }
  }

  lemma OthersKeepTimely(c: Config, s: State, step: Step, ps: set<Publication>)
    requires Enabled(c, s, step) && Timely(c, s, ps) && !step.Work? && !(step.Publish? && step.ok)
    ensures Timely(c, Apply(c, s, step), ps)
  {
    if step.FetchRetry? {
      assert s.queues.retries[step.i] in s.queues.retries;
    }
  }

  lemma PublishKeepsTimely(c: Config, s: State, draw: int, ps: set<Publication>)
    requires ValidConfig(c) && Enabled(c, s, Publish(draw, true)) && Timely(c, s, ps)
    ensures Timely(c, Apply(c, s, Publish(draw, true)), ps + PublishedBy(s, Publish(draw, true)))
  {
    var t, n := Apply(c, s, Publish(draw, true)), |s.queues.retries|;
    var p := Publication(s.handler.job.key, s.handler.job.retryCount, s.now);
    var qs := ps + PublishedBy(s, Publish(draw, true));
    PublishDelays(c, s, draw);
    TimelyWithMore(c, s, ps, qs);
    assert p in qs;
    assert HeldBack(c, t.queues.retries[n], qs);
    forall j | j in t.queues.retries
      ensures HeldBack(c, j, qs)
    {
      assert j in s.queues.retries || j == t.queues.retries[n];
    }
  }

  lemma {:induction false} RunKeepsTimely(c: Config, s: State, steps: seq<Step>, ps: set<Publication>)
    requires ValidConfig(c) && ValidRun(c, s, steps) && Timely(c, s, ps)
    ensures Timely(c, End(c, s, steps), ps + Published(c, s, steps))
    decreases |steps|
  {
    if steps == [] {
      assert ps + {} == ps;
    } else {
      var more := ps + PublishedBy(s, steps[0]);
      StepKeepsTimely(c, s, steps[0], ps);
      RunKeepsTimely(c, Apply(c, s, steps[0]), steps[1..], more);
      assert more + Published(c, Apply(c, s, steps[0]), steps[1..]) == ps + Published(c, s, steps);
    }
  }

  /** In every run no retry goroutine asks for the lock, holds it or goes on before the least backoff of its
      retry count has passed since its job was published; and what waits in the retry topic is held back by no
      more than the longest. */
  lemma RetriesWaitTheirBackoff(c: Config, s: State, steps: seq<Step>)
    requires ValidConfig(c) && Initial(s) && ValidRun(c, s, steps)
    ensures var t, ps := End(c, s, steps), Published(c, s, steps);
            && (forall w :: 0 <= w < |t.workers| && t.workers[w].source == Retries && Awake(t.workers[w]) ==>
                  exists p :: p in ps && p.key == t.workers[w].job.key && p.count == t.workers[w].job.retryCount >= 1
                              && p.at + Least(c, p.count) <= t.now
                              && (t.workers[w].lock.Some? ==> p.at + Least(c, p.count) <= t.workers[w].lock.value))
            && (forall j :: j in t.queues.retries ==> HeldBack(c, j, ps))
  {
    var t, ps := End(c, s, steps), Published(c, s, steps);
    RunKeepsTimely(c, s, steps, {});
    assert {} + ps == ps;
    forall w | 0 <= w < |t.workers| && t.workers[w].source == Retries && Awake(t.workers[w])
      ensures exists p :: p in ps && p.key == t.workers[w].job.key && p.count == t.workers[w].job.retryCount >= 1
                          && p.at + Least(c, p.count) <= t.now
                          && (t.workers[w].lock.Some? ==> p.at + Least(c, p.count) <= t.workers[w].lock.value)
    {
      assert HeldBack(c, t.workers[w].job, ps);
    }
  }
}
