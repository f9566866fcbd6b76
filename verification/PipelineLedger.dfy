/** Conservation of money under concurrency. */
module PipelineLedger {
  import opened Jobs
  import opened Pipeline
  import opened PipelineControl
  import opened PipelineLock
  import opened PipelineHistory

  /** The account holds its initial balance minus what the committed payments took, and counts them. */
  predicate Balanced(s0: State, s: State, a: AccountId) {
    && HasRow(s, a) && HasRow(s0, a)
    && Current(s, a).balance == Current(s0, a).balance - EventSum(s.db.history, Spent(a))
    && Current(s, a).count == Current(s0, a).count + EventSum(s.db.history, Charges(a))
  }

  ghost predicate Conserved(s0: State, s: State) {
    && s.db.rows.Keys == s0.db.rows.Keys
    && forall a :: a in s.db.rows ==> Balanced(s0, s, a)
  }

  /** The step commits a debit that was computed from a row that is no longer the committed one. */
  predicate StaleCommit(s: State, step: Step) {
    && CommitsDebit(s, step)
    && HasRow(s, s.workers[step.w].job.account)
    && s.workers[step.w].seen != Some(Current(s, s.workers[step.w].job.account))
  }

  lemma BalancedStep(c: Config, s0: State, s: State, step: Step, a: AccountId)
    requires Enabled(c, s, step) && AllOk(s) && Balanced(s0, s, a)
    ensures Balanced(s0, Apply(c, s, step), a)
            <==> !(StaleCommit(s, step) && s.workers[step.w].job.account == a)
  {
    if CommitsDebit(s, step) && s.workers[step.w].job.account == a {
      BalancedDebit(c, s0, s, step, a);
    } else {
      RowAfter(c, s, step, a);
      SpentByStep(c, s, step, a);
    }
  }

  /** A debit keeps the account balanced exactly when it was computed from the committed row. */
  lemma BalancedDebit(c: Config, s0: State, s: State, step: Step, a: AccountId)
    requires Enabled(c, s, step) && AllOk(s) && Balanced(s0, s, a)
    requires CommitsDebit(s, step) && s.workers[step.w].job.account == a
    ensures Balanced(s0, Apply(c, s, step), a) <==> s.workers[step.w].seen == Some(Current(s, a))
  {
    var wk := s.workers[step.w];
    RowAfter(c, s, step, a);
    SpentByStep(c, s, step, a);
    PendingDebit(wk);
    assert Current(Apply(c, s, step), a) == Charge(wk.seen.value, wk.job.amount);
  }

  /** The committed row of an account after one step. */
  lemma RowAfter(c: Config, s: State, step: Step, a: AccountId)
    requires Enabled(c, s, step) && HasRow(s, a)
    ensures HasRow(Apply(c, s, step), a)
    ensures Current(Apply(c, s, step), a)
         == (if CommitsDebit(s, step) && s.workers[step.w].job.account == a then s.workers[step.w].tx.row.value
             else Current(s, a))
  {
    StepWrites(c, s, step);
  }

  lemma PendingDebit(wk: Worker)
    requires WorkerOk(wk) && wk.tx.Tx? && wk.tx.row.Some?
    ensures wk.seen.Some? && wk.tx.row.value == Charge(wk.seen.value, wk.job.amount)
    ensures wk.tx.row.value.balance >= 0
  {
  }

  /** One step keeps the books exactly when it does not commit a stale debit. */
  lemma ConservedStep(c: Config, s0: State, s: State, step: Step)
    requires Enabled(c, s, step) && AllOk(s) && Conserved(s0, s)
    ensures Conserved(s0, Apply(c, s, step)) <==> !StaleCommit(s, step)
  {
    RowsKept(c, s, step);
    forall a | a in s.db.rows
      ensures Balanced(s0, Apply(c, s, step), a)
              <==> !(StaleCommit(s, step) && s.workers[step.w].job.account == a)
    {
      BalancedStep(c, s0, s, step, a);
    }
  }

  lemma RowsKept(c: Config, s: State, step: Step)
    requires Enabled(c, s, step)
    ensures Apply(c, s, step).db.rows.Keys == s.db.rows.Keys
  {
    StepWrites(c, s, step);
  }

  /** The amount and the number of debits that a step adds to an account. */
  function Taken(s: State, step: Step, a: AccountId): (int, int) {
    if CommitsDebit(s, step) && s.workers[step.w].job.account == a then (s.workers[step.w].job.amount, 1) else (0, 0)
  }

  lemma SpentByStep(c: Config, s: State, step: Step, a: AccountId)
    requires Enabled(c, s, step)
    ensures EventSum(Apply(c, s, step).db.history, Spent(a)) == EventSum(s.db.history, Spent(a)) + Taken(s, step, a).0
    ensures EventSum(Apply(c, s, step).db.history, Charges(a))
         == EventSum(s.db.history, Charges(a)) + Taken(s, step, a).1
  {
    StepSums(c, s, step, Spent(a));
    StepSums(c, s, step, Charges(a));
    NewDebits(s, step, a);
  }

  lemma NewDebits(s: State, step: Step, a: AccountId)
    ensures EventSum(NewEvents(s, step), Spent(a)) == Taken(s, step, a).0
    ensures EventSum(NewEvents(s, step), Charges(a)) == Taken(s, step, a).1
  {
    NewEventSum(s, step, Spent(a));
    NewEventSum(s, step, Charges(a));
  }

  ghost predicate NoStaleCommit(c: Config, s: State, steps: seq<Step>)
    requires ValidRun(c, s, steps)
  {
    Throughout(c, s, steps, (u: State, step: Step) => !StaleCommit(u, step))
  }

  ghost predicate AlwaysConserved(c: Config, s0: State, s: State, steps: seq<Step>)
    requires ValidRun(c, s, steps)
  {
    && Throughout(c, s, steps, (u: State, _: Step) => Conserved(s0, u))
    && Conserved(s0, End(c, s, steps))
  }

  /** Over a whole run the books balance at every moment if and only if no stale debit is committed. */
  lemma {:induction false} ConservedIffNoStaleCommit(c: Config, s0: State, s: State, steps: seq<Step>)
    requires ValidRun(c, s, steps) && AllOk(s) && Conserved(s0, s)
    ensures AlwaysConserved(c, s0, s, steps) <==> NoStaleCommit(c, s, steps)
    decreases |steps|
  {
    if steps != [] {
      var t, rest := Apply(c, s, steps[0]), steps[1..];
      ConservedStep(c, s0, s, steps[0]);
      StepKeepsOk(c, s, steps[0]);
      if Conserved(s0, t) {
        ConservedIffNoStaleCommit(c, s0, t, rest);
      } else if rest == [] {
        assert End(c, s, steps) == t;
      } else {
        assert !Throughout(c, t, rest, (u: State, _: Step) => Conserved(s0, u));
      }
    }
  }

  // ----- balances never become negative, whatever is stale -----

  ghost predicate Solvent(s: State) {
    forall a, i :: a in s.db.rows && 0 <= i < |s.db.rows[a]| ==> s.db.rows[a][i].balance >= 0
  }

  lemma {:induction false} RunKeepsSolvent(c: Config, s: State, steps: seq<Step>)
    requires ValidRun(c, s, steps) && AllOk(s) && Solvent(s)
    ensures Solvent(End(c, s, steps))
    decreases |steps|
  {
    if steps != [] {
      StepWrites(c, s, steps[0]);
      StepKeepsOk(c, s, steps[0]);
      RunKeepsSolvent(c, Apply(c, s, steps[0]), steps[1..]);
    }
  }

  // ----- the discipline under which no commit is stale -----

  /** The worker has accepted a balance and may still commit a debit computed from it. */
  predicate Armed(wk: Worker) {
    || wk.pc == Screening || wk.pc == Settling || wk.pc == Debiting
    || (wk.tx.Tx? && !wk.tx.aborted && wk.tx.row.Some?)
  }

  /** A debit of the account is pending although its lock is already released. */
  predicate PendingUnlocked(wk: Worker, a: AccountId) {
    wk.job.account == a && !InSection(wk) && wk.tx.Tx? && !wk.tx.aborted && wk.tx.row.Some?
  }

  /** A balance is read from the latest committed row. */
  predicate ReadsLatest(s: State, step: Step) {
    step.Work? && step.a.ReadRow? && step.w < |s.workers| && HasRow(s, s.workers[step.w].job.account) ==>
      step.a.version == |s.db.rows[s.workers[step.w].job.account]| - 1
  }

  /** No balance is read between another worker's release of the lock and its commit. */
  ghost predicate ReadsSettled(s: State, step: Step) {
    step.Work? && step.a.ReadRow? && step.w < |s.workers| ==>
      forall v :: 0 <= v < |s.workers| ==> !PendingUnlocked(s.workers[v], s.workers[step.w].job.account)
  }

  /** The hypothesis on a run: nobody wins a lock over a section that has outlived the expiry, balances are
      read from the latest committed row, and none is read between a release of the lock and its commit. */
  ghost predicate Disciplined(s: State, step: Step) {
    !WinsOverExpired(s, step) && ReadsLatest(s, step) && ReadsSettled(s, step)
  }

  /** At most one worker may still debit an account, and it has seen the committed row. */
  ghost predicate Solo(s: State) {
    forall v, w :: 0 <= v < |s.workers| && 0 <= w < |s.workers| && v != w
                   && Armed(s.workers[v]) && Armed(s.workers[w])
                   ==> s.workers[v].job.account != s.workers[w].job.account
  }

  ghost predicate Fresh(s: State) {
    forall w :: 0 <= w < |s.workers| && Armed(s.workers[w])
                ==> HasRow(s, s.workers[w].job.account)
                    && s.workers[w].seen == Some(Current(s, s.workers[w].job.account))
  }

  /** How an action arms a worker: only by reading an accepted balance inside the critical section. */
  lemma Arming(c: Config, s: State, w: nat, a: Action)
    requires Enabled(c, s, Work(w, a)) && WorkerOk(s.workers[w])
    ensures var wk, nk := s.workers[w], NextWorker(c, s, w, a);
            && nk.job == wk.job
            && (Armed(nk) && Armed(wk) ==> nk.seen == wk.seen)
            && (Armed(nk) && !Armed(wk) ==>
                  && a.ReadRow? && InSection(wk) && HasRow(s, wk.job.account)
                  && nk.seen == Some(s.db.rows[wk.job.account][a.version]))
            && (CommitsDebit(s, Work(w, a)) ==> Armed(wk) && !Armed(nk))
            && (Armed(wk) && !InSection(wk) ==> PendingUnlocked(wk, wk.job.account))
  {
  }

  lemma ActKeepsSolo(c: Config, s: State, w: nat, a: Action)
    requires Enabled(c, s, Work(w, a)) && AllOk(s) && Exclusive(s) && Solo(s) && Fresh(s)
    requires Disciplined(s, Work(w, a))
    ensures Solo(Apply(c, s, Work(w, a)))
  {
    var t := Apply(c, s, Work(w, a));
    Arming(c, s, w, a);
    forall v | 0 <= v < |t.workers| && v != w && Armed(t.workers[v]) && Armed(t.workers[w])
      ensures t.workers[v].job.account != t.workers[w].job.account
    {
      assert t.workers[v] == s.workers[v];
      if !Armed(s.workers[w]) && s.workers[v].job.account == s.workers[w].job.account {
        ArmedElsewhere(s, v);
      }
    }
    forall u, v | 0 <= u < |t.workers| && 0 <= v < |t.workers| && u != v && u != w && v != w
                  && Armed(t.workers[u]) && Armed(t.workers[v])
      ensures t.workers[u].job.account != t.workers[v].job.account
    {
      assert t.workers[u] == s.workers[u] && t.workers[v] == s.workers[v];
    }
  }

  lemma ArmedElsewhere(s: State, v: nat)
    requires v < |s.workers| && WorkerOk(s.workers[v]) && Armed(s.workers[v])
    ensures InSection(s.workers[v]) || PendingUnlocked(s.workers[v], s.workers[v].job.account)
  {
  }

  lemma ActKeepsFresh(c: Config, s: State, w: nat, a: Action)
    requires Enabled(c, s, Work(w, a)) && AllOk(s) && Solo(s) && Fresh(s)
    requires Disciplined(s, Work(w, a))
    ensures Fresh(Apply(c, s, Work(w, a)))
  {
    var t := Apply(c, s, Work(w, a));
    Arming(c, s, w, a);
    StepWrites(c, s, Work(w, a));
    forall v | 0 <= v < |t.workers| && Armed(t.workers[v])
      ensures HasRow(t, t.workers[v].job.account)
      ensures t.workers[v].seen == Some(Current(t, t.workers[v].job.account))
    {
      if v != w {
        assert t.workers[v] == s.workers[v];
      }
    }
  }

  /** The induction behind conservation. */
  ghost predicate InStep(s: State) {
    AllOk(s) && Exclusive(s) && Protected(s) && Solo(s) && Fresh(s)
  }

  lemma StepKeepsInStep(c: Config, s: State, step: Step)
    requires Enabled(c, s, step) && InStep(s) && Disciplined(s, step)
    ensures InStep(Apply(c, s, step))
    ensures !StaleCommit(s, step)
  {
    StepKeepsOk(c, s, step);
    StepKeepsExclusion(c, s, step);
    if step.Work? {
      ActKeepsSolo(c, s, step.w, step.a);
      ActKeepsFresh(c, s, step.w, step.a);
      Arming(c, s, step.w, step.a);
    } else {
      StepWrites(c, s, step);
      OthersKeepSolo(c, s, step);
    }
  }

  lemma OthersKeepSolo(c: Config, s: State, step: Step)
    requires Enabled(c, s, step) && Solo(s) && Fresh(s) && !step.Work?
    ensures Solo(Apply(c, s, step)) && Fresh(Apply(c, s, step))
  {
    var t := Apply(c, s, step);
    StepWrites(c, s, step);
    assert forall v :: 0 <= v < |t.workers| && Armed(t.workers[v]) ==> v < |s.workers| && t.workers[v] == s.workers[v];
  }

  lemma {:induction false} DisciplineForbidsStale(c: Config, s: State, steps: seq<Step>)
    requires ValidRun(c, s, steps) && InStep(s) && Throughout(c, s, steps, Disciplined)
    ensures NoStaleCommit(c, s, steps)
    decreases |steps|
  {
    if steps != [] {
      StepKeepsInStep(c, s, steps[0]);
      DisciplineForbidsStale(c, Apply(c, s, steps[0]), steps[1..]);
    }
  }

  /** Conservation: in every disciplined interleaving, every account holds its initial balance minus the
      committed successful amounts, has counted them, and was never negative. */
  lemma Conservation(c: Config, s: State, steps: seq<Step>)
    requires Initial(s) && Solvent(s) && ValidRun(c, s, steps)
    requires Throughout(c, s, steps, Disciplined)
    ensures Conserved(s, End(c, s, steps))
    ensures Solvent(End(c, s, steps))
  {
    RunKeepsSolvent(c, s, steps);
    DisciplineForbidsStale(c, s, steps);
    ConservedIffNoStaleCommit(c, s, s, steps);
  }
}
