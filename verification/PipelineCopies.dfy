/** One order, one live copy, at most one debit; a debit and its status are atomic. */
module PipelineCopies {
  import opened Jobs
  import opened Pipeline
  import opened PipelineMoves
  import opened PipelineControl
  import opened PipelineHistory

  /** The goroutine can still debit the order or send it round again. */
  predicate Live(wk: Worker) {
    !wk.sent && !wk.pc.Reporting? && !wk.pc.Finished?
  }

  /** Live copies of an order in a place. */
  function CopiesIn(p: Place, k: Key): int {
    match p
    case Waiting(stage, job) =>
      if job.key == k && ((stage == Queued || stage == Fetched) ==> job.wellFormed) then 1 else 0
    case Working(wk) => if wk.job.key == k && wk.job.wellFormed && Live(wk) then 1 else 0
  }

  function CopyOf(k: Key): Place -> int {
    (p: Place) => CopiesIn(p, k)
  }

  /** No step makes a second copy, and a step that debits an order uses up its copy. */
  lemma CopyMoves(c: Config, s: State, step: Step, k: Key)
    requires Enabled(c, s, step) && AllOk(s)
    ensures PlaceSum(Entered(c, s, step), CopyOf(k)) + EventSum(NewEvents(s, step), DebitsOf(k))
         <= PlaceSum(Left(c, s, step), CopyOf(k))
  {
    MovesAsFew(c, s, step, CopyOf(k));
    NewEventSum(s, step, DebitsOf(k));
    if step.Work? {
      WorkCopies(c, s, step.w, step.a, k);
    }
  }

  lemma WorkCopies(c: Config, s: State, w: nat, a: Action, k: Key)
    requires Enabled(c, s, Work(w, a)) && WorkerOk(s.workers[w])
    ensures FewSum(Entered(c, s, Work(w, a)), CopyOf(k)) <= CopyOf(k)(Working(s.workers[w]))
    ensures a.Close? ==> FewSum(Entered(c, s, Work(w, a)), CopyOf(k)) == 0
    ensures CommitsDebit(s, Work(w, a)) && s.workers[w].job.key == k ==> CopyOf(k)(Working(s.workers[w])) == 1
  {
  }

  lemma StepKeepsOneCopy(c: Config, s: State, step: Step, k: Key)
    requires Enabled(c, s, step) && AllOk(s)
    ensures Total(Apply(c, s, step), CopyOf(k)) + EventSum(Apply(c, s, step).db.history, DebitsOf(k))
         <= Total(s, CopyOf(k)) + EventSum(s.db.history, DebitsOf(k))
    ensures Total(Apply(c, s, step), CopyOf(k)) <= Total(s, CopyOf(k))
  {
    StepMoves(c, s, step, CopyOf(k));
    StepSums(c, s, step, DebitsOf(k));
    CopyMoves(c, s, step, k);
    EventCount(NewEvents(s, step), DebitsOf(k));
  }

  lemma {:induction false} EventCount(h: seq<Event>, g: Event -> int)
    requires forall e :: 0 <= g(e)
    ensures 0 <= EventSum(h, g)
  {
    if h != [] {
      EventCount(h[..|h| - 1], g);
    }
  }

  /** Each order is published once. */
  ghost predicate DistinctOrders(js: seq<Job>) {
    forall i, j :: 0 <= i < j < |js| && js[i].wellFormed && js[j].wellFormed ==> js[i].key != js[j].key
  }

  lemma {:induction false} DistinctSum(js: seq<Job>, k: Key)
    requires DistinctOrders(js)
    ensures JobSum(js, Queued, CopyOf(k)) <= 1
    ensures JobSum(js, Queued, CopyOf(k)) == 1 ==> exists i :: 0 <= i < |js| && js[i].wellFormed && js[i].key == k
  {
    if js != [] {
      var n := |js| - 1;
      DistinctSum(js[..n], k);
      assert forall i :: 0 <= i < n ==> js[..n][i] == js[i];
      assert js[n] == js[|js| - 1];
    }
  }

  /** The copies of an order that were published. */
  function Published(s: State, k: Key): int {
    JobSum(s.queues.orders, Queued, CopyOf(k))
  }

  lemma {:induction false} RunKeepsCopies(c: Config, s: State, steps: seq<Step>, k: Key)
    requires ValidRun(c, s, steps) && AllOk(s)
    ensures Total(End(c, s, steps), CopyOf(k)) + EventSum(End(c, s, steps).db.history, DebitsOf(k))
         <= Total(s, CopyOf(k)) + EventSum(s.db.history, DebitsOf(k))
    decreases |steps|
  {
    if steps != [] {
      StepKeepsOneCopy(c, s, steps[0], k);
      StepKeepsOk(c, s, steps[0]);
      RunKeepsCopies(c, Apply(c, s, steps[0]), steps[1..], k);
    }
  }

  /** In every run, with no assumption at all: the debits of an order and its live copies together never
      exceed the copies of it that were published. */
  lemma DebitsWithinPublished(c: Config, s: State, steps: seq<Step>, k: Key)
    requires Initial(s) && ValidRun(c, s, steps)
    ensures 0 <= Total(End(c, s, steps), CopyOf(k)) && 0 <= EventSum(End(c, s, steps).db.history, DebitsOf(k))
    ensures Total(End(c, s, steps), CopyOf(k)) + EventSum(End(c, s, steps).db.history, DebitsOf(k)) <= Published(s, k)
  {
    RunKeepsCopies(c, s, steps, k);
    PlaceInTotal(End(c, s, steps), CopyOf(k));
    EventCount(End(c, s, steps).db.history, DebitsOf(k));
  }

  /** At most one debit per order, in every run and with no assumption on timing: if each order is
      published once, every reachable state has at most one live copy of it, at most one debit of it has
      ever committed, and once one has, no live copy is left. */
  lemma AtMostOneDebit(c: Config, s: State, steps: seq<Step>, k: Key)
    requires Initial(s) && DistinctOrders(s.queues.orders) && ValidRun(c, s, steps)
    ensures 0 <= Total(End(c, s, steps), CopyOf(k)) <= 1
    ensures 0 <= EventSum(End(c, s, steps).db.history, DebitsOf(k)) <= 1
    ensures EventSum(End(c, s, steps).db.history, DebitsOf(k)) == 1 ==> Total(End(c, s, steps), CopyOf(k)) == 0
  {
    DistinctSum(s.queues.orders, k);
    DebitsWithinPublished(c, s, steps, k);
  }

  // ----- a debit and its success status are atomic -----

  /** An accepted balance belongs to an account the database knows. */
  ghost predicate SeenExist(s: State) {
    forall w :: 0 <= w < |s.workers| && s.workers[w].seen.Some? ==> s.workers[w].job.account in s.db.rows
  }

  lemma StepKeepsSeen(c: Config, s: State, step: Step)
    requires Enabled(c, s, step) && SeenExist(s)
    ensures SeenExist(Apply(c, s, step))
  {
    StepWrites(c, s, step);
    if step.Work? {
      SeenFrom(c, s, step.w, step.a);
    }
  }

  lemma SeenFrom(c: Config, s: State, w: nat, a: Action)
    requires Enabled(c, s, Work(w, a))
    ensures NextWorker(c, s, w, a).job == s.workers[w].job
    ensures NextWorker(c, s, w, a).seen == s.workers[w].seen || s.workers[w].job.account in s.db.rows
  {
  }

  lemma AtomicStep(c: Config, s: State, step: Step, k: Key)
    requires Enabled(c, s, step) && AllOk(s) && SeenExist(s)
    ensures k in s.db.status ==>
              EventSum(NewEvents(s, step), DebitsOf(k)) == EventSum(NewEvents(s, step), SuccessesOf(k))
    ensures k !in s.db.status ==> EventSum(NewEvents(s, step), SuccessesOf(k)) == 0
  {
    NewEventSum(s, step, DebitsOf(k));
    NewEventSum(s, step, SuccessesOf(k));
    if step.Work? && step.a == Close(true) {
      CommitBoth(s.workers[step.w]);
    }
  }

  lemma CommitBoth(wk: Worker)
    requires WorkerOk(wk) && wk.pc.Committing? && !wk.tx.aborted
    ensures wk.tx.row.Some? <==> wk.tx.status == Some(Success)
    ensures wk.tx.row.Some? ==> wk.seen.Some?
  {
  }

  lemma {:induction false} RunKeepsAtomic(c: Config, s: State, steps: seq<Step>, k: Key)
    requires ValidRun(c, s, steps) && AllOk(s) && SeenExist(s)
    ensures k in s.db.status ==>
              EventSum(End(c, s, steps).db.history, DebitsOf(k)) - EventSum(s.db.history, DebitsOf(k))
              == EventSum(End(c, s, steps).db.history, SuccessesOf(k)) - EventSum(s.db.history, SuccessesOf(k))
    ensures k !in s.db.status ==>
              EventSum(End(c, s, steps).db.history, SuccessesOf(k)) == EventSum(s.db.history, SuccessesOf(k))
    decreases |steps|
  {
    if steps != [] {
      AtomicStep(c, s, steps[0], k);
      StepSums(c, s, steps[0], DebitsOf(k));
      StepSums(c, s, steps[0], SuccessesOf(k));
      StepWrites(c, s, steps[0]);
      StepKeepsSeen(c, s, steps[0]);
      StepKeepsOk(c, s, steps[0]);
      RunKeepsAtomic(c, Apply(c, s, steps[0]), steps[1..], k);
    }
  }

  /** In every history, wherever SQL errors and failed commits fall, an order whose row exists has been
      debited exactly as often as it was set to success; an order without a row is never set to success. */
  lemma DebitAndStatusAtomic(c: Config, s: State, steps: seq<Step>, k: Key)
    requires Initial(s) && ValidRun(c, s, steps)
    ensures k in s.db.status ==>
              EventSum(End(c, s, steps).db.history, DebitsOf(k))
              == EventSum(End(c, s, steps).db.history, SuccessesOf(k))
    ensures k !in s.db.status ==> EventSum(End(c, s, steps).db.history, SuccessesOf(k)) == 0
  {
    RunKeepsAtomic(c, s, steps, k);
  }

  // ----- who may still write the status of an order -----

  /** The job is already on its way round again but its status is not yet written: only the retryable
      outcome of the settlement sends before it writes. */
  predicate Late(wk: Worker) {
    wk.sent && wk.pc.Marking?
  }

  /** Two open transactions never hold the same order row. */
  ghost predicate RowsLocked(s: State) {
    forall v, w :: 0 <= v < |s.workers| && 0 <= w < |s.workers| && v != w
                   && LocksOrder(s, s.workers[v], s.workers[v].job.key)
                   && LocksOrder(s, s.workers[w], s.workers[w].job.key)
                   ==> s.workers[v].job.key != s.workers[w].job.key
  }

  /** A worker that can still change the status of its order. */
  predicate MayWrite(wk: Worker) {
    Late(wk) || (wk.tx.Tx? && wk.tx.status.Some?)
  }

  lemma WriteSource(c: Config, s: State, w: nat, a: Action)
    requires Enabled(c, s, Work(w, a)) && WorkerOk(s.workers[w])
    ensures var wk, nk := s.workers[w], NextWorker(c, s, w, a);
            && nk.job == wk.job
            && (MayWrite(nk) && !MayWrite(wk) ==> CopyOf(wk.job.key)(Working(wk)) == 1)
            && (LocksOrder(s, nk, nk.job.key) && !LocksOrder(s, wk, wk.job.key) ==> OrderRowFree(s, w, wk.job.key))
            && (a.Close? ==> !MayWrite(nk))
            && (a == Close(true) && wk.tx.status == Some(Success) ==> CopyOf(wk.job.key)(Working(wk)) == 1)
            && (a == GiveUp(true) ==> CopyOf(wk.job.key)(Working(wk)) == 1)
  {
  }

  /** The status of an order after one step. */
  lemma StatusStep(c: Config, s: State, step: Step, k: Key)
    requires Enabled(c, s, step) && k in s.db.status
    ensures k in Apply(c, s, step).db.status
    ensures Apply(c, s, step).db.status[k] == s.db.status[k]
         || (step == HandlerFail(true) && s.handler.job.key == k && Apply(c, s, step).db.status[k] == Failed)
         || (step.Work? && s.workers[step.w].job.key == k
             && ((step.a == GiveUp(true) && Apply(c, s, step).db.status[k] == Failed)
                 || (step.a == Close(true) && s.workers[step.w].tx.status.Some?
                     && Apply(c, s, step).db.status[k] == s.workers[step.w].tx.status.value)))
  {
    match step
    case Work(w, a) =>
    case HandlerFail(ok) =>
    case _ =>
  }

  lemma StepKeepsRowsLocked(c: Config, s: State, step: Step)
    requires Enabled(c, s, step) && AllOk(s) && RowsLocked(s)
    ensures RowsLocked(Apply(c, s, step))
  {
    var t := Apply(c, s, step);
    StepWrites(c, s, step);
    if step.Work? {
      WriteSource(c, s, step.w, step.a);
      forall v | 0 <= v < |t.workers| && v != step.w
        ensures t.workers[v] == s.workers[v]
      {}
    } else {
      assert forall v :: 0 <= v < |t.workers| && v >= |s.workers| ==> t.workers[v].tx.NoTx?;
    }
  }

  /** Two open transactions never hold the same account row. */
  ghost predicate AccountsLocked(s: State) {
    forall v, w :: 0 <= v < |s.workers| && 0 <= w < |s.workers| && v != w
                   && LocksAccount(s.workers[v], s.workers[v].job.account)
                   && LocksAccount(s.workers[w], s.workers[w].job.account)
                   ==> s.workers[v].job.account != s.workers[w].job.account
  }

  lemma DebitSource(c: Config, s: State, w: nat, a: Action)
    requires Enabled(c, s, Work(w, a)) && WorkerOk(s.workers[w])
    ensures var wk, nk := s.workers[w], NextWorker(c, s, w, a);
            && nk.job == wk.job
            && (LocksAccount(nk, nk.job.account) && !LocksAccount(wk, wk.job.account) ==>
                  AccountRowFree(s, w, wk.job.account))
  {
  }

  lemma StepKeepsAccountsLocked(c: Config, s: State, step: Step)
    requires Enabled(c, s, step) && AllOk(s) && AccountsLocked(s)
    ensures AccountsLocked(Apply(c, s, step))
  {
    var t := Apply(c, s, step);
    if step.Work? {
      DebitSource(c, s, step.w, step.a);
      assert forall v :: 0 <= v < |t.workers| && v != step.w ==> t.workers[v] == s.workers[v];
    } else {
      assert forall v :: 0 <= v < |t.workers| && v >= |s.workers| ==> t.workers[v].tx.NoTx?;
    }
  }

  lemma {:induction false} RunKeepsRows(c: Config, s: State, steps: seq<Step>)
    requires ValidRun(c, s, steps) && AllOk(s) && RowsLocked(s) && AccountsLocked(s)
    ensures RowsLocked(End(c, s, steps)) && AccountsLocked(End(c, s, steps))
    decreases |steps|
  {
    if steps != [] {
      StepKeepsOk(c, s, steps[0]);
      StepKeepsRowsLocked(c, s, steps[0]);
      StepKeepsAccountsLocked(c, s, steps[0]);
      RunKeepsRows(c, Apply(c, s, steps[0]), steps[1..]);
    }
  }

  /** In every run no two open transactions hold the row of one order, or the row of one account. */
  lemma RowsNeverShared(c: Config, s: State, steps: seq<Step>)
    requires Initial(s) && ValidRun(c, s, steps)
    ensures RowsLocked(End(c, s, steps)) && AccountsLocked(End(c, s, steps))
  {
    RunKeepsRows(c, s, steps);
  }

  /** Without a live copy and a pending write of an order its status does not change. */
  lemma NobodyWrites(c: Config, s: State, step: Step, k: Key)
    requires Enabled(c, s, step) && AllOk(s) && k in s.db.status && Total(s, CopyOf(k)) == 0
    requires forall w :: 0 <= w < |s.workers| && s.workers[w].job.key == k ==> !MayWrite(s.workers[w])
    ensures k in Apply(c, s, step).db.status && Apply(c, s, step).db.status[k] == s.db.status[k]
  {
    StatusStep(c, s, step, k);
    PlaceInTotal(s, CopyOf(k));
    if step.Work? {
      WriteSource(c, s, step.w, step.a);
    }
  }

  lemma QuietStays(c: Config, s: State, step: Step, k: Key)
    requires Enabled(c, s, step) && AllOk(s) && Total(s, CopyOf(k)) == 0
    requires forall w :: 0 <= w < |s.workers| && s.workers[w].job.key == k ==> !MayWrite(s.workers[w])
    ensures var t := Apply(c, s, step);
            forall w :: 0 <= w < |t.workers| && t.workers[w].job.key == k ==> !MayWrite(t.workers[w])
  {
    PlaceInTotal(s, CopyOf(k));
    if step.Work? {
      WriteSource(c, s, step.w, step.a);
    }
  }
}
