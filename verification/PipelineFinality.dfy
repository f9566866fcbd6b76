/** A success is final: exactly when it is, and that it always is while no settlement asks for a retry. */
module PipelineFinality {
  import opened Jobs
  import opened Pipeline
  import opened PipelineMoves
  import opened PipelineControl
  import opened PipelineHistory
  import opened PipelineCopies
  import opened PipelineRuns

  predicate HasSuccess(s: State, k: Key) {
    k in s.db.status && s.db.status[k] == Success
  }

  /** No order that waits to be read is already paid. */
  ghost predicate NonePaid(s: State) {
    forall j :: j in s.queues.orders && j.wellFormed ==> !HasSuccess(s, j.key)
  }

  // ----- behind a success there is no live copy -----

  ghost predicate UsedUp(s: State, k: Key) {
    AllOk(s) && RowsLocked(s) && Total(s, CopyOf(k)) <= 1 && (HasSuccess(s, k) ==> Total(s, CopyOf(k)) == 0)
  }

  lemma SuccessUsesCopy(c: Config, s: State, step: Step, k: Key)
    requires Enabled(c, s, step) && AllOk(s) && Total(s, CopyOf(k)) <= 1
    requires !HasSuccess(s, k) && HasSuccess(Apply(c, s, step), k)
    ensures Total(Apply(c, s, step), CopyOf(k)) <= 0
    ensures step.Work? && step.a == Close(true) && s.workers[step.w].job.key == k
    ensures s.workers[step.w].tx.status == Some(Success)
  {
    StepWrites(c, s, step);
    StatusStep(c, s, step, k);
    WriteSource(c, s, step.w, step.a);
    StepMoves(c, s, step, CopyOf(k));
    MovesAsFew(c, s, step, CopyOf(k));
    WorkCopies(c, s, step.w, step.a, k);
  }

  lemma StepKeepsUsedUp(c: Config, s: State, step: Step, k: Key)
    requires Enabled(c, s, step) && UsedUp(s, k)
    ensures UsedUp(Apply(c, s, step), k)
  {
    StepKeepsOk(c, s, step);
    StepKeepsRowsLocked(c, s, step);
    StepKeepsOneCopy(c, s, step, k);
    PlaceInTotal(Apply(c, s, step), CopyOf(k));
    if HasSuccess(Apply(c, s, step), k) && !HasSuccess(s, k) {
      SuccessUsesCopy(c, s, step, k);
    }
  }

  lemma {:induction false} RunKeepsUsedUp(c: Config, s: State, steps: seq<Step>, k: Key)
    requires ValidRun(c, s, steps) && UsedUp(s, k)
    ensures UsedUp(End(c, s, steps), k)
    decreases |steps|
  {
    if steps != [] {
      StepKeepsUsedUp(c, s, steps[0], k);
      RunKeepsUsedUp(c, Apply(c, s, steps[0]), steps[1..], k);
    }
  }

  lemma StartsUsedUp(s: State, k: Key)
    requires Initial(s) && DistinctOrders(s.queues.orders) && NonePaid(s)
    ensures UsedUp(s, k)
  {
    DistinctSum(s.queues.orders, k);
    PlaceInTotal(s, CopyOf(k));
  }

  // ----- exactly when a success survives every continuation -----

  /** No worker on the order has a status pending or still to write. */
  ghost predicate NoPendingStatus(s: State, k: Key) {
    forall w :: 0 <= w < |s.workers| && s.workers[w].job.key == k ==> !MayWrite(s.workers[w])
  }

  ghost predicate AlwaysSuccess(c: Config, s: State, k: Key) {
    forall after :: ValidRun(c, s, after) ==> HasSuccess(End(c, s, after), k)
  }

  lemma {:induction false} QuietRunKeeps(c: Config, s: State, after: seq<Step>, k: Key)
    requires ValidRun(c, s, after) && AllOk(s) && HasSuccess(s, k) && Total(s, CopyOf(k)) == 0 && NoPendingStatus(s, k)
    ensures HasSuccess(End(c, s, after), k)
    decreases |after|
  {
    if after != [] {
      NobodyWrites(c, s, after[0], k);
      QuietStays(c, s, after[0], k);
      StepKeepsOk(c, s, after[0]);
      StepKeepsOneCopy(c, s, after[0], k);
      PlaceInTotal(Apply(c, s, after[0]), CopyOf(k));
      QuietRunKeeps(c, Apply(c, s, after[0]), after[1..], k);
    }
  }

  /** A worker on an order without a live copy that may still write has sent the job on, and will write that
      the order is being retried. */
  lemma PendingIsRetrying(s: State, w: nat, k: Key)
    requires w < |s.workers| && WorkerOk(s.workers[w]) && s.workers[w].job.key == k && MayWrite(s.workers[w])
    requires Total(s, CopyOf(k)) == 0
    ensures var wk := s.workers[w];
            && wk.sent
            && (if wk.tx.status.Some?
                then wk.tx == Tx(false, Some(Retrying), None) && (wk.pc == Unlocking(true) || wk.pc == Committing(true))
                else wk.tx == CLEAN_TX && wk.lock.Some? && wk.pc == Marking(Retrying, ThenReturn(true)))
  {
    PlaceInTotal(s, CopyOf(k));
    assert CopyOf(k)(Working(s.workers[w])) <= 0;
  }

  /** The deferred calls of such a worker overwrite the status. */
  lemma ClosingOverwrites(c: Config, s0: State, s: State, w: nat, k: Key)
    requires Path(c, From(s0), s) && w < |s.workers| && s.workers[w].job.key == k && k in s.db.status
    requires s.workers[w].tx == Tx(false, Some(Retrying), None)
    requires s.workers[w].pc == Unlocking(true) || s.workers[w].pc == Committing(true)
    ensures exists t :: Path(c, From(s0), t) && k in t.db.status && t.db.status[k] == Retrying
  {
    var s1 := s;
    if s.workers[w].pc == Unlocking(true) {
      Release(c, From(s0), s, w);
      s1 := Released(s, w);
    }
    Commit(c, From(s0), s1, w);
    assert Committed(s1, w).db.status[k] == Retrying;
  }

  lemma PendingOverwrites(c: Config, s: State, w: nat, k: Key)
    requires AllOk(s) && Total(s, CopyOf(k)) == 0 && k in s.db.status
    requires w < |s.workers| && s.workers[w].job.key == k && MayWrite(s.workers[w])
    ensures exists t :: Path(c, From(s), t) && k in t.db.status && t.db.status[k] == Retrying
  {
    Start(c, From(s));
    if v :| 0 <= v < |s.workers| && s.workers[v].job.key == k && s.workers[v].tx.Tx? && s.workers[v].tx.status.Some? {
      PendingIsRetrying(s, v, k);
      ClosingOverwrites(c, s, s, v, k);
    } else {
      PendingIsRetrying(s, w, k);
      assert OrderRowFree(s, w, k);
      var wk := s.workers[w].(pc := Unlocking(true), tx := Tx(false, Some(Retrying), None));
      Alone(c, From(s), s, w, Mark(true), wk);
      ClosingOverwrites(c, s, Put(s, w, wk), w, k);
    }
  }

  /** From any reachable state in which an order is set to success, and with no hypothesis on timing: every
      continuation keeps the success if and only if no worker on the order has a status pending or still to
      write. */
  lemma SuccessSurvivesIff(c: Config, s: State, before: seq<Step>, k: Key)
    requires Initial(s) && DistinctOrders(s.queues.orders) && NonePaid(s) && ValidRun(c, s, before)
    requires HasSuccess(End(c, s, before), k)
    ensures Total(End(c, s, before), CopyOf(k)) == 0
    ensures AlwaysSuccess(c, End(c, s, before), k) <==> NoPendingStatus(End(c, s, before), k)
  {
    var mid := End(c, s, before);
    StartsUsedUp(s, k);
    RunKeepsUsedUp(c, s, before, k);
    if NoPendingStatus(mid, k) {
      forall after | ValidRun(c, mid, after)
        ensures HasSuccess(End(c, mid, after), k)
      {
        QuietRunKeeps(c, mid, after, k);
      }
    } else {
      var w :| 0 <= w < |mid.workers| && mid.workers[w].job.key == k && MayWrite(mid.workers[w]);
      PendingOverwrites(c, mid, w, k);
      var t :| Path(c, From(mid), t) && k in t.db.status && t.db.status[k] == Retrying;
      var after :| ValidRun(c, mid, after) && End(c, mid, after) == t;
      assert !HasSuccess(End(c, mid, after), k);
    }
  }

  // ----- no settlement asks for a retry -----

  /** The settlement asks for a retry; the program reports this only once the context is cancelled. */
  predicate AsksRetry(step: Step) {
    step.Work? && step.a == Settle(Retryable)
  }

  ghost predicate NoRetryAsked(c: Config, s: State, steps: seq<Step>)
    requires ValidRun(c, s, steps)
  {
    Throughout(c, s, steps, (_: State, step: Step) => !AsksRetry(step))
  }

  /** Nobody sends before writing. */
  ghost predicate Prompt(s: State) {
    forall w :: 0 <= w < |s.workers| ==> s.workers[w].pc != Offering(true) && !Late(s.workers[w])
  }

  lemma ActKeepsPrompt(c: Config, s: State, w: nat, a: Action)
    requires Enabled(c, s, Work(w, a)) && WorkerOk(s.workers[w]) && a != Settle(Retryable)
    requires s.workers[w].pc != Offering(true) && !Late(s.workers[w])
    ensures NextWorker(c, s, w, a).pc != Offering(true) && !Late(NextWorker(c, s, w, a))
  {
  }

  lemma StepKeepsPrompt(c: Config, s: State, step: Step)
    requires Enabled(c, s, step) && AllOk(s) && Prompt(s) && !AsksRetry(step)
    ensures Prompt(Apply(c, s, step))
  {
    if step.Work? {
      ActKeepsPrompt(c, s, step.w, step.a);
    }
  }

  lemma {:induction false} NoRetryKeepsApart(c: Config, s: State, steps: seq<Step>)
    requires ValidRun(c, s, steps) && AllOk(s) && Prompt(s) && NoRetryAsked(c, s, steps)
    ensures StatusFirst(c, s, steps) && Prompt(End(c, s, steps)) && AllOk(End(c, s, steps))
    decreases |steps|
  {
    if steps != [] {
      StepKeepsPrompt(c, s, steps[0]);
      StepKeepsOk(c, s, steps[0]);
      NoRetryKeepsApart(c, Apply(c, s, steps[0]), steps[1..]);
    }
  }

  /** A success is final: in every run in which no settlement asks for a retry, with no hypothesis on timing
      and faults anywhere, an order that is set to success has no live copy left and is never set to
      anything else. */
  lemma SuccessIsFinal(c: Config, s: State, before: seq<Step>, after: seq<Step>, k: Key)
    requires Initial(s) && DistinctOrders(s.queues.orders) && NonePaid(s)
    requires ValidRun(c, s, before) && NoRetryAsked(c, s, before)
    requires ValidRun(c, End(c, s, before), after) && NoRetryAsked(c, End(c, s, before), after)
    requires HasSuccess(End(c, s, before), k)
    ensures Total(End(c, s, before), CopyOf(k)) == 0
    ensures HasSuccess(End(c, End(c, s, before), after), k)
  {
    NoRetryKeepsApart(c, s, before);
    NoRetryKeepsApart(c, End(c, s, before), after);
    SuccessKeptIfStatusFirst(c, s, before, after, k);
  }

  // ----- any settlement, statuses written first -----

  /** No attempt still has its status to write when the next copy of its order is at work. */
  ghost predicate LateApart(s: State) {
    forall v, w :: 0 <= v < |s.workers| && 0 <= w < |s.workers| && Late(s.workers[v]) && Live(s.workers[w])
                   ==> s.workers[v].job.key != s.workers[w].job.key
  }

  /** Behind a success nothing is left that could touch the order again. */
  ghost predicate Concluded(s: State, k: Key) {
    HasSuccess(s, k) ==>
      && Total(s, CopyOf(k)) == 0
      && forall w :: 0 <= w < |s.workers| && s.workers[w].job.key == k ==> !MayWrite(s.workers[w])
  }

  /** A success that is already there stays, and so does the quiet behind it. */
  lemma SuccessStays(c: Config, s: State, step: Step, k: Key)
    requires Enabled(c, s, step) && AllOk(s) && Concluded(s, k)
    requires k in s.db.status && s.db.status[k] == Success
    ensures k in Apply(c, s, step).db.status && Apply(c, s, step).db.status[k] == Success
    ensures Concluded(Apply(c, s, step), k)
  {
    NobodyWrites(c, s, step, k);
    QuietStays(c, s, step, k);
    StepKeepsOneCopy(c, s, step, k);
    PlaceInTotal(Apply(c, s, step), CopyOf(k));
  }

  /** A success that has just been committed is the last word. */
  lemma SuccessArrives(c: Config, s: State, step: Step, k: Key)
    requires Enabled(c, s, step) && AllOk(s) && RowsLocked(s) && LateApart(s) && Total(s, CopyOf(k)) <= 1
    requires k in s.db.status && s.db.status[k] != Success
    ensures Concluded(Apply(c, s, step), k)
  {
    var t := Apply(c, s, step);
    StatusStep(c, s, step, k);
    if t.db.status[k] == Success {
      var w := step.w;
      assert step == Work(w, Close(true)) && s.workers[w].job.key == k;
      WriteSource(c, s, w, step.a);
      StepMoves(c, s, step, CopyOf(k));
      MovesAsFew(c, s, step, CopyOf(k));
      WorkCopies(c, s, w, step.a, k);
      PlaceInTotal(t, CopyOf(k));
      forall v | 0 <= v < |t.workers| && t.workers[v].job.key == k
        ensures !MayWrite(t.workers[v])
      {
        if v != w {
          assert t.workers[v] == s.workers[v];
          assert LocksOrder(s, s.workers[w], k);
        }
      }
    }
  }

  ghost predicate Orderly(s: State, k: Key) {
    AllOk(s) && RowsLocked(s) && Total(s, CopyOf(k)) <= 1 && Concluded(s, k)
  }

  lemma StepKeepsOrderly(c: Config, s: State, step: Step, k: Key)
    requires Enabled(c, s, step) && Orderly(s, k) && LateApart(s)
    ensures Orderly(Apply(c, s, step), k)
  {
    StepKeepsOk(c, s, step);
    StepKeepsRowsLocked(c, s, step);
    StepKeepsOneCopy(c, s, step, k);
    StepWrites(c, s, step);
    if k in s.db.status {
      if s.db.status[k] == Success {
        SuccessStays(c, s, step, k);
      } else {
        SuccessArrives(c, s, step, k);
      }
    }
  }

  /** An attempt's status is written before the next copy of its order is at work. */
  ghost predicate StatusFirst(c: Config, s: State, steps: seq<Step>)
    requires ValidRun(c, s, steps)
  {
    Throughout(c, s, steps, (u: State, _: Step) => LateApart(u))
  }

  lemma {:induction false} RunKeepsOrderly(c: Config, s: State, steps: seq<Step>, k: Key)
    requires ValidRun(c, s, steps) && Orderly(s, k) && StatusFirst(c, s, steps)
    ensures Orderly(End(c, s, steps), k)
    ensures k in s.db.status && s.db.status[k] == Success
            ==> k in End(c, s, steps).db.status && End(c, s, steps).db.status[k] == Success
    decreases |steps|
  {
    if steps != [] {
      StepKeepsOrderly(c, s, steps[0], k);
      if k in s.db.status && s.db.status[k] == Success {
        SuccessStays(c, s, steps[0], k);
      }
      RunKeepsOrderly(c, Apply(c, s, steps[0]), steps[1..], k);
    }
  }

  /** Once an order is set to success no live copy of it is left, and no continuation of the run overwrites
      the status, whatever the gateway answers, if each attempt has written its status before the next copy
      of its order is at work. */
  lemma SuccessKeptIfStatusFirst(c: Config, s: State, before: seq<Step>, after: seq<Step>, k: Key)
    requires Initial(s) && DistinctOrders(s.queues.orders)
    requires NonePaid(s)
    requires ValidRun(c, s, before) && StatusFirst(c, s, before)
    requires ValidRun(c, End(c, s, before), after) && StatusFirst(c, End(c, s, before), after)
    requires HasSuccess(End(c, s, before), k)
    ensures Total(End(c, s, before), CopyOf(k)) == 0
    ensures HasSuccess(End(c, End(c, s, before), after), k)
  {
    DistinctSum(s.queues.orders, k);
    PlaceInTotal(s, CopyOf(k));
    RunKeepsOrderly(c, s, before, k);
    RunKeepsOrderly(c, End(c, s, before), after, k);
  }
}
