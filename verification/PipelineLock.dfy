/** The Redis account lock: `SetNX` with a 20 second expiry, and an unconditional `Del`. */
module PipelineLock {
  import opened Jobs
  import opened Pipeline
  import opened PipelineControl

  /** Between winning the lock and deleting it. */
  predicate InSection(wk: Worker) {
    wk.lock.Some?
  }

  /** Every critical section in progress is younger than the expiry. */
  ghost predicate WithinTtl(s: State) {
    forall w :: 0 <= w < |s.workers| && InSection(s.workers[w]) ==> s.now < s.workers[w].lock.value + LOCK_TTL
  }

  ghost predicate Exclusive(s: State) {
    forall v, w :: 0 <= v < |s.workers| && 0 <= w < |s.workers| && v != w
                   && InSection(s.workers[v]) && InSection(s.workers[w])
                   ==> s.workers[v].job.account != s.workers[w].job.account
  }

  /** Whoever is in a critical section that has not outlived the expiry is protected by the key it set itself. */
  ghost predicate Protected(s: State) {
    forall w :: 0 <= w < |s.workers| && InSection(s.workers[w]) && s.now < s.workers[w].lock.value + LOCK_TTL
                ==> s.workers[w].job.account in s.locks
                    && s.locks[s.workers[w].job.account] == s.workers[w].lock.value + LOCK_TTL
  }

  /** The step wins the lock of an account. */
  predicate Wins(s: State, step: Step) {
    step.Work? && step.w < |s.workers| && step.a == TakeLock && LockFree(s, s.workers[step.w].job.account)
  }

  /** The step wins a lock while another worker's section of that account has outlived the expiry. */
  ghost predicate WinsOverExpired(s: State, step: Step) {
    && Wins(s, step)
    && exists v :: 0 <= v < |s.workers| && v != step.w && InSection(s.workers[v])
                   && s.workers[v].job.account == s.workers[step.w].job.account
                   && s.workers[v].lock.value + LOCK_TTL <= s.now
  }

  /** The lock key changes only when a free lock is taken or when the section's owner deletes it. */
  lemma LockChange(c: Config, s: State, w: nat, a: Action)
    requires Enabled(c, s, Work(w, a)) && WorkerOk(s.workers[w])
    ensures var wk, nk, locks := s.workers[w], NextWorker(c, s, w, a), Apply(c, s, Work(w, a)).locks;
            && nk.job == wk.job
            && (nk.lock == wk.lock || nk.lock.None? || (wk.pc == Locking && nk.lock == Some(s.now)))
            && (|| locks == s.locks
                || (LockFree(s, wk.job.account) && wk.pc == Locking
                    && locks == s.locks[wk.job.account := s.now + LOCK_TTL])
                || (wk.lock.Some? && nk.lock.None? && locks == s.locks - {wk.job.account}))
            && (wk.pc == Locking && nk.lock.Some? ==>
                  && a == TakeLock && LockFree(s, wk.job.account)
                  && locks == s.locks[wk.job.account := s.now + LOCK_TTL])
  {
  }

  /** The keys of the other accounts, and of this one outside its owner's section, are left alone. */
  lemma ActKeepsProtected(c: Config, s: State, w: nat, a: Action)
    requires Enabled(c, s, Work(w, a)) && AllOk(s) && Exclusive(s) && Protected(s)
    ensures Protected(Apply(c, s, Work(w, a)))
  {
    var t := Apply(c, s, Work(w, a));
    LockChange(c, s, w, a);
    forall v | 0 <= v < |t.workers| && InSection(t.workers[v]) && t.now < t.workers[v].lock.value + LOCK_TTL
      ensures t.workers[v].job.account in t.locks
      ensures t.locks[t.workers[v].job.account] == t.workers[v].lock.value + LOCK_TTL
    {
      if v != w {
        assert t.workers[v] == s.workers[v];
      }
    }
  }

  /** One action keeps exclusion exactly when it does not win over a section that has outlived the expiry. */
  lemma ActKeepsExclusion(c: Config, s: State, w: nat, a: Action)
    requires Enabled(c, s, Work(w, a)) && AllOk(s) && Exclusive(s) && Protected(s)
    ensures Exclusive(Apply(c, s, Work(w, a))) <==> !WinsOverExpired(s, Work(w, a))
  {
    var t := Apply(c, s, Work(w, a));
    LockChange(c, s, w, a);
    assert forall v :: 0 <= v < |t.workers| && v != w ==> t.workers[v] == s.workers[v];
    if WinsOverExpired(s, Work(w, a)) {
      var v :| 0 <= v < |s.workers| && v != w && InSection(s.workers[v])
               && s.workers[v].job.account == s.workers[w].job.account;
      assert InSection(t.workers[w]) && InSection(t.workers[v]);
    } else {
      forall u, v | 0 <= u < |t.workers| && 0 <= v < |t.workers| && u != v
                    && InSection(t.workers[u]) && InSection(t.workers[v])
        ensures t.workers[u].job.account != t.workers[v].job.account
      {
        var other := if u == w then v else u;
        assert t.workers[other] == s.workers[other];
      }
    }
  }

  lemma StepKeepsExclusion(c: Config, s: State, step: Step)
    requires Enabled(c, s, step) && AllOk(s) && Exclusive(s) && Protected(s)
    ensures Exclusive(Apply(c, s, step)) <==> !WinsOverExpired(s, step)
    ensures Protected(Apply(c, s, step))
  {
    if step.Work? {
      ActKeepsExclusion(c, s, step.w, step.a);
      ActKeepsProtected(c, s, step.w, step.a);
    }
  }

  ghost predicate NeverWinsOverExpired(c: Config, s: State, steps: seq<Step>)
    requires ValidRun(c, s, steps)
  {
    Throughout(c, s, steps, (u: State, step: Step) => !WinsOverExpired(u, step))
  }

  ghost predicate AlwaysExclusive(c: Config, s: State, steps: seq<Step>)
    requires ValidRun(c, s, steps)
  {
    Throughout(c, s, steps, (u: State, _: Step) => Exclusive(u)) && Exclusive(End(c, s, steps))
  }

  lemma {:induction false} RunKeepsExclusion(c: Config, s: State, steps: seq<Step>)
    requires ValidRun(c, s, steps) && AllOk(s) && Exclusive(s) && Protected(s)
    ensures AlwaysExclusive(c, s, steps) <==> NeverWinsOverExpired(c, s, steps)
    decreases |steps|
  {
    if steps != [] {
      var t, rest := Apply(c, s, steps[0]), steps[1..];
      StepKeepsExclusion(c, s, steps[0]);
      StepKeepsOk(c, s, steps[0]);
      if Exclusive(t) {
        RunKeepsExclusion(c, t, rest);
      } else if rest == [] {
        assert End(c, s, steps) == t;
      } else {
        assert !Throughout(c, t, rest, (u: State, _: Step) => Exclusive(u));
      }
    }
  }

  /** In every run, at most one worker per account is between winning and deleting its lock at every moment if
      and only if nobody ever wins a lock while another worker's section of that account has outlived the
      expiry. */
  lemma ExclusiveIffNoWinOverExpired(c: Config, s: State, steps: seq<Step>)
    requires Initial(s) && ValidRun(c, s, steps)
    ensures AlwaysExclusive(c, s, steps) <==> NeverWinsOverExpired(c, s, steps)
  {
    RunKeepsExclusion(c, s, steps);
  }

  ghost predicate SectionsShort(c: Config, s: State, steps: seq<Step>)
    requires ValidRun(c, s, steps)
  {
    Throughout(c, s, steps, (u: State, _: Step) => WithinTtl(u))
  }

  lemma {:induction false} ShortSectionsNeverOverrun(c: Config, s: State, steps: seq<Step>)
    requires ValidRun(c, s, steps) && SectionsShort(c, s, steps)
    ensures NeverWinsOverExpired(c, s, steps)
    decreases |steps|
  {
    if steps != [] {
      ShortSectionsNeverOverrun(c, Apply(c, s, steps[0]), steps[1..]);
    }
  }

  /** In particular, critical sections that are all shorter than the expiry exclude each other. */
  lemma MutualExclusion(c: Config, s: State, steps: seq<Step>)
    requires Initial(s) && ValidRun(c, s, steps) && SectionsShort(c, s, steps)
    ensures AlwaysExclusive(c, s, steps)
  {
    ShortSectionsNeverOverrun(c, s, steps);
    ExclusiveIffNoWinOverExpired(c, s, steps);
  }

  // ----- who deletes the key, and how long a lock nobody deletes lasts -----

  /** A step that deletes the key of an account is taken by a worker that won that lock. */
  lemma OnlyWinnersDelete(c: Config, s: State, step: Step, a: AccountId)
    requires Enabled(c, s, step) && AllOk(s)
    requires a in s.locks && a !in Apply(c, s, step).locks
    ensures step.Work? && step.w < |s.workers|
    ensures InSection(s.workers[step.w]) && s.workers[step.w].job.account == a
  {
    if step.Work? {
      LockChange(c, s, step.w, step.a);
    }
  }

  /** The step wins the lock of account `a`, or sets its key although it reports an error. */
  predicate Acquires(s: State, step: Step, a: AccountId) {
    && step.Work? && step.w < |s.workers| && s.workers[step.w].job.account == a
    && (step.a == LockFault(true) || (step.a == TakeLock && LockFree(s, a)))
  }

  ghost predicate NobodyAcquires(c: Config, s: State, steps: seq<Step>, a: AccountId)
    requires ValidRun(c, s, steps)
  {
    Throughout(c, s, steps, (u: State, step: Step) => !Acquires(u, step, a))
  }

  /** No key outlives its expiry. */
  ghost predicate KeysFresh(s: State) {
    forall a :: a in s.locks ==> s.locks[a] <= s.now + LOCK_TTL
  }

  lemma StepAgesKeys(c: Config, s: State, step: Step, a: AccountId)
    requires Enabled(c, s, step) && AllOk(s)
    ensures Apply(c, s, step).now >= s.now
    ensures KeysFresh(s) ==> KeysFresh(Apply(c, s, step))
    ensures !Acquires(s, step, a) && a in Apply(c, s, step).locks
            ==> a in s.locks && Apply(c, s, step).locks[a] == s.locks[a]
  {
    if step.Work? {
      LockChange(c, s, step.w, step.a);
    }
  }

  lemma {:induction false} RunAgesKeys(c: Config, s: State, steps: seq<Step>, a: AccountId)
    requires ValidRun(c, s, steps) && AllOk(s)
    requires NobodyAcquires(c, s, steps, a)
    ensures a in End(c, s, steps).locks ==> a in s.locks && End(c, s, steps).locks[a] == s.locks[a]
    decreases |steps|
  {
    if steps != [] {
      StepAgesKeys(c, s, steps[0], a);
      StepKeepsOk(c, s, steps[0]);
      RunAgesKeys(c, Apply(c, s, steps[0]), steps[1..], a);
    }
  }

  lemma {:induction false} RunKeepsKeysFresh(c: Config, s: State, steps: seq<Step>)
    requires ValidRun(c, s, steps) && AllOk(s) && KeysFresh(s)
    ensures KeysFresh(End(c, s, steps))
    decreases |steps|
  {
    if steps != [] {
      StepAgesKeys(c, s, steps[0], 0);
      StepKeepsOk(c, s, steps[0]);
      RunKeepsKeysFresh(c, Apply(c, s, steps[0]), steps[1..]);
    }
  }

  /** A lock that is never deleted (its owner failed to open a transaction, or `Del` failed) blocks the
      account for at most 20 seconds: from any reachable state, once the clock has advanced by the expiry
      and nobody else has taken the lock, it is free. */
  lemma AbandonedLockExpires(c: Config, s0: State, before: seq<Step>, after: seq<Step>, a: AccountId)
    requires Initial(s0) && ValidRun(c, s0, before)
    requires ValidRun(c, End(c, s0, before), after)
    requires NobodyAcquires(c, End(c, s0, before), after, a)
    requires End(c, End(c, s0, before), after).now >= End(c, s0, before).now + 20_000_000_000
    ensures LockFree(End(c, End(c, s0, before), after), a)
  {
    RunKeepsOk(c, s0, before);
    RunKeepsKeysFresh(c, s0, before);
    RunAgesKeys(c, End(c, s0, before), after, a);
  }
}
