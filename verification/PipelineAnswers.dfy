/** No order is forgotten unless a fault loses it: an order whose last copy is gone shows success or failure
    exactly when no fault used up that copy, whatever else failed in the run. */
module PipelineAnswers {
  import opened Jobs
  import opened Pipeline
  import opened PipelineMoves
  import opened PipelineControl
  import opened PipelineCopies
  import opened PipelineFinality
  import opened PipelineProgress

  /** The step is a fault that uses up a live copy of order `k`: a failed lock call or `Begin`, a commit that is
      not applied, a final status that is not written, or a publish that fails. */
  predicate Loses(s: State, step: Step, k: Key) {
    match step
    case Publish(_, ok) => !ok && s.handler.Holding? && s.handler.job.key == k
    case HandlerFault => s.handler.Holding? && s.handler.job.key == k
    case HandlerFail(ok) => !ok && s.handler.Updating? && s.handler.job.key == k
    case Work(w, a) =>
      && w < |s.workers| && s.workers[w].job.key == k && s.workers[w].job.wellFormed && Live(s.workers[w])
      && (a.LockFault? || a == OpenFault || a == Close(false) || a == GiveUp(false))
    case _ => false
  }

  ghost predicate NeverLost(c: Config, s: State, steps: seq<Step>, k: Key)
    requires ValidRun(c, s, steps)
  {
    Throughout(c, s, steps, (u: State, step: Step) => !Loses(u, step, k))
  }

  predicate IsAnswer(st: Status) {
    st == Success || st == Failed
  }

  predicate HasAnswer(s: State, k: Key) {
    k in s.db.status && IsAnswer(s.db.status[k])
  }

  /** What the channel reader holds and publishes decodes and validates again. */
  ghost predicate Legible(s: State) {
    && (!s.handler.Idle? ==> s.handler.job.wellFormed)
    && (forall j :: j in s.queues.retries ==> j.wellFormed)
    && (s.queues.fetchedRetry.Some? ==> s.queues.fetchedRetry.value.wellFormed)
  }

  lemma StepKeepsLegible(c: Config, s: State, step: Step)
    requires Enabled(c, s, step) && AllOk(s) && Legible(s)
    ensures Legible(Apply(c, s, step))
  {
    match step
    case FetchRetry(i) => assert s.queues.retries[i] in s.queues.retries;
    case Publish(draw, ok) =>
      if ok {
        assert Delayed(c, s, s.handler.job, draw).wellFormed;
      }
    case _ =>
  }

  // ----- the step that uses up the last copy -----

  /** The step writes an answer for order `k`. */
  predicate Closes(s: State, step: Step, k: Key) {
    || (step == HandlerFail(true) && s.handler.Updating? && s.handler.job.key == k)
    || (step.Work? && step.w < |s.workers| && s.workers[step.w].job.key == k
        && (step.a == GiveUp(true)
            || (step.a == Close(true) && s.workers[step.w].tx.Tx? && s.workers[step.w].tx.status.Some?
                && IsAnswer(s.workers[step.w].tx.status.value))))
  }

  /** A step that uses up a copy writes an answer exactly when it is no fault. */
  lemma LastCopy(c: Config, s: State, step: Step, k: Key)
    requires Enabled(c, s, step) && AllOk(s) && Legible(s)
    requires PlaceSum(Left(c, s, step), CopyOf(k)) == 1 && PlaceSum(Entered(c, s, step), CopyOf(k)) == 0
    ensures Closes(s, step, k) <==> !Loses(s, step, k)
  {
    MovesAsFew(c, s, step, CopyOf(k));
    if step.Work? {
      WorkLastCopy(c, s, step.w, step.a, k);
    }
  }

  lemma WorkLastCopy(c: Config, s: State, w: nat, a: Action, k: Key)
    requires Enabled(c, s, Work(w, a)) && WorkerOk(s.workers[w])
    requires CopyOf(k)(Working(s.workers[w])) == 1 && FewSum(Entered(c, s, Work(w, a)), CopyOf(k)) == 0
    ensures Closes(s, Work(w, a), k) <==> !Loses(s, Work(w, a), k)
  {
  }

  /** A step that keeps the copy, or finds none, neither answers nor loses. */
  lemma OtherSteps(c: Config, s: State, step: Step, k: Key)
    requires Enabled(c, s, step) && AllOk(s) && Legible(s)
    requires PlaceSum(Left(c, s, step), CopyOf(k)) == PlaceSum(Entered(c, s, step), CopyOf(k))
    ensures !Closes(s, step, k) && !Loses(s, step, k)
  {
    MovesAsFew(c, s, step, CopyOf(k));
    if step.Work? {
      WorkOther(c, s, step.w, step.a, k);
    }
  }

  lemma WorkOther(c: Config, s: State, w: nat, a: Action, k: Key)
    requires Enabled(c, s, Work(w, a)) && WorkerOk(s.workers[w])
    requires FewSum(Entered(c, s, Work(w, a)), CopyOf(k)) == CopyOf(k)(Working(s.workers[w]))
    ensures !Closes(s, Work(w, a), k) && !Loses(s, Work(w, a), k)
  {
  }

  /** An answer comes only from a step that closes the order. */
  lemma AnswerSource(c: Config, s: State, step: Step, k: Key)
    requires Enabled(c, s, step) && k in s.db.status
    ensures k in Apply(c, s, step).db.status
    ensures Closes(s, step, k) ==> HasAnswer(Apply(c, s, step), k)
    ensures !Closes(s, step, k) && !HasAnswer(s, k) ==> !HasAnswer(Apply(c, s, step), k)
  {
    StatusStep(c, s, step, k);
  }

  /** Whoever writes the answer holds the order row alone. */
  lemma AnswerAlone(c: Config, s: State, step: Step, k: Key)
    requires Enabled(c, s, step) && AllOk(s) && Prompt(s) && RowsLocked(s) && k in s.db.status
    requires Closes(s, step, k)
    ensures NoPendingStatus(Apply(c, s, step), k)
  {
    var t := Apply(c, s, step);
    forall v | 0 <= v < |t.workers| && t.workers[v].job.key == k
      ensures !MayWrite(t.workers[v])
    {
      if step.Work? && v == step.w {
        WriteSource(c, s, step.w, step.a);
      } else {
        assert t.workers[v] == s.workers[v] && !Late(s.workers[v]);
        assert !LocksOrder(s, s.workers[v], k) by {
          if step.Work? && step.a == Close(true) {
            assert LocksOrder(s, s.workers[step.w], k);
          }
        }
      }
    }
  }

  // ----- the life of one order -----

  /** An order without a live copy and without a pending status keeps its status, faults included. */
  lemma AnswerStays(c: Config, s: State, step: Step, k: Key)
    requires Enabled(c, s, step) && AllOk(s) && k in s.db.status
    requires Total(s, CopyOf(k)) == 0 && NoPendingStatus(s, k)
    ensures k in Apply(c, s, step).db.status && Apply(c, s, step).db.status[k] == s.db.status[k]
    ensures Total(Apply(c, s, step), CopyOf(k)) == 0 && NoPendingStatus(Apply(c, s, step), k)
  {
    NobodyWrites(c, s, step, k);
    QuietStays(c, s, step, k);
    StepKeepsOneCopy(c, s, step, k);
    PlaceInTotal(Apply(c, s, step), CopyOf(k));
  }

  /** Either the order has a copy and no answer, or it was lost and has none, or it has its answer for good. */
  ghost predicate Fated(s: State, k: Key, lost: bool) {
    && k in s.db.status && 0 <= Total(s, CopyOf(k)) <= 1
    && (Total(s, CopyOf(k)) == 1 ==> !lost)
    && (HasAnswer(s, k) <==> Total(s, CopyOf(k)) == 0 && !lost)
    && (HasAnswer(s, k) ==> NoPendingStatus(s, k))
  }

  ghost predicate Sound(s: State) {
    AllOk(s) && Prompt(s) && RowsLocked(s) && Legible(s)
  }

  lemma StepKeepsSound(c: Config, s: State, step: Step)
    requires Enabled(c, s, step) && Sound(s) && !AsksRetry(step)
    ensures Sound(Apply(c, s, step))
  {
    StepKeepsOk(c, s, step);
    StepKeepsPrompt(c, s, step);
    StepKeepsRowsLocked(c, s, step);
    StepKeepsLegible(c, s, step);
  }

  lemma StepKeepsFated(c: Config, s: State, step: Step, k: Key, lost: bool)
    requires Enabled(c, s, step) && Sound(s) && Fated(s, k, lost)
    ensures Fated(Apply(c, s, step), k, lost || Loses(s, step, k))
  {
    StepMoves(c, s, step, CopyOf(k));
    StepKeepsOneCopy(c, s, step, k);
    PlaceInTotal(Apply(c, s, step), CopyOf(k));
    if HasAnswer(s, k) {
      AnswerStays(c, s, step, k);
      OtherSteps(c, s, step, k);
    } else {
      AnswerSource(c, s, step, k);
      if Total(Apply(c, s, step), CopyOf(k)) == Total(s, CopyOf(k)) {
        OtherSteps(c, s, step, k);
      } else {
        OneCopyLeaves(c, s, step, k);
        LastCopy(c, s, step, k);
        if Closes(s, step, k) {
          AnswerAlone(c, s, step, k);
        }
      }
    }
  }

  lemma OneCopyLeaves(c: Config, s: State, step: Step, k: Key)
    requires Enabled(c, s, step) && AllOk(s)
    requires PlaceSum(Entered(c, s, step), CopyOf(k)) < PlaceSum(Left(c, s, step), CopyOf(k))
    ensures PlaceSum(Left(c, s, step), CopyOf(k)) == 1 && PlaceSum(Entered(c, s, step), CopyOf(k)) == 0
  {
    MovesAsFew(c, s, step, CopyOf(k));
  }

  lemma {:induction false} RunKeepsFated(c: Config, s: State, steps: seq<Step>, k: Key, lost: bool)
    requires ValidRun(c, s, steps) && Sound(s) && Fated(s, k, lost) && NoRetryAsked(c, s, steps)
    ensures Fated(End(c, s, steps), k, lost || !NeverLost(c, s, steps, k))
    decreases |steps|
  {
    if steps != [] {
      StepKeepsSound(c, s, steps[0]);
      StepKeepsFated(c, s, steps[0], k, lost);
      RunKeepsFated(c, Apply(c, s, steps[0]), steps[1..], k, lost || Loses(s, steps[0], k));
    }
  }

  lemma {:induction false} QueuedCopy(js: seq<Job>, i: nat, k: Key)
    requires i < |js| && js[i].wellFormed && js[i].key == k
    ensures JobSum(js, Queued, CopyOf(k)) >= 1
  {
    if i < |js| - 1 {
      QueuedCopy(js[..|js| - 1], i, k);
    } else {
      JobSumPositive(js[..|js| - 1], Queued, CopyOf(k));
    }
  }

  lemma {:induction false} NoCopyLeft(s: State, k: Key)
    requires !Busy(s)
    ensures Total(s, CopyOf(k)) == 0
  {
    FinishedCopies(s.workers, k);
  }

  lemma {:induction false} FinishedCopies(ws: seq<Worker>, k: Key)
    requires forall w :: 0 <= w < |ws| ==> ws[w].pc.Finished?
    ensures WorkerSum(ws, CopyOf(k)) == 0
  {
    if ws != [] {
      assert forall w :: 0 <= w < |ws| - 1 ==> ws[..|ws| - 1][w] == ws[w];
      FinishedCopies(ws[..|ws| - 1], k);
    }
  }

  /** In every run in which no settlement asks for a retry, with faults anywhere: once an order has no live copy
      left, and at the latest when all work is finished, it shows success or failure if and only if no fault
      used up one of its copies; and while it has a live copy it shows neither. */
  lemma AnsweredIffNeverLost(c: Config, s: State, steps: seq<Step>, i: nat)
    requires Initial(s) && DistinctOrders(s.queues.orders) && ValidRun(c, s, steps) && NoRetryAsked(c, s, steps)
    requires i < |s.queues.orders| && s.queues.orders[i].wellFormed
    requires s.queues.orders[i].key in s.db.status && !HasAnswer(s, s.queues.orders[i].key)
    ensures var k, t := s.queues.orders[i].key, End(c, s, steps);
            && (Total(t, CopyOf(k)) == 0 || !Busy(t) ==> (HasAnswer(t, k) <==> NeverLost(c, s, steps, k)))
            && (Total(t, CopyOf(k)) != 0 ==> !HasAnswer(t, k))
  {
    var k, t := s.queues.orders[i].key, End(c, s, steps);
    DistinctSum(s.queues.orders, k);
    QueuedCopy(s.queues.orders, i, k);
    assert Fated(s, k, false);
    RunKeepsFated(c, s, steps, k, false);
    if !Busy(t) {
      NoCopyLeft(t, k);
    }
  }
}
