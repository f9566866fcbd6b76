/** What every reachable goroutine looks like at each point of its code, and the exact use of the
    semaphores and of the connection pool. */
module PipelineControl {
  import opened Jobs
  import opened Pipeline
  import opened PipelineMoves

  const CLEAN_TX := Tx(false, None, None)

  /** No write is pending in the transaction, aborted or not. */
  predicate NothingWritten(tx: Tx) {
    tx.Tx? && tx.status.None? && tx.row.None?
  }

  /** The transaction of a payment that reports success: both writes pending, or aborted by the second. */
  predicate Paid(wk: Worker) {
    && wk.tx.Tx? && wk.seen.Some? && !wk.sent
    && wk.tx.row == Some(Charge(wk.seen.value, wk.job.amount))
    && wk.tx.status == (if wk.tx.aborted then None else Some(Success))
  }

  /** The transaction of a payment that reports failure: no debit and no success status. */
  predicate Unpaid(wk: Worker) {
    && wk.tx.Tx? && wk.tx.row.None?
    && wk.tx.status == (if wk.tx.aborted then None else Some(if wk.sent then Retrying else Failed))
  }

  /** The relation between the program counter and the rest of a goroutine. */
  predicate WorkerOk(wk: Worker) {
    && (wk.seen.Some? ==> wk.seen.value.balance >= wk.job.amount)
    && match wk.pc
       case Received => wk.lock.None? && wk.tx.NoTx? && wk.seen.None? && !wk.sent
       case Overdue => wk.lock.None? && wk.tx.NoTx? && !wk.sent && wk.source == Retries && wk.job.wellFormed
       case Sleeping => wk.lock.None? && wk.tx.NoTx? && wk.seen.None? && !wk.sent && wk.job.wellFormed
       case Locking => wk.lock.None? && wk.tx.NoTx? && wk.seen.None? && !wk.sent && wk.job.wellFormed
       case Opening => wk.tx.NoTx? && wk.seen.None? && !wk.sent && wk.job.wellFormed
       case Decrypting => wk.lock.Some? && wk.tx == CLEAN_TX && wk.seen.None? && !wk.sent && wk.job.wellFormed
       case Checking => wk.lock.Some? && wk.tx == CLEAN_TX && wk.seen.None? && !wk.sent && wk.job.wellFormed
       case Screening => wk.lock.Some? && wk.tx == CLEAN_TX && wk.seen.Some? && !wk.sent && wk.job.wellFormed
       case Settling => wk.lock.Some? && wk.tx == CLEAN_TX && wk.seen.Some? && !wk.sent && wk.job.wellFormed
       case Debiting => wk.lock.Some? && wk.tx == CLEAN_TX && wk.seen.Some? && !wk.sent && wk.job.wellFormed
       case Marking(st, after) =>
         && wk.tx.Tx? && wk.job.wellFormed
         && (match after
             case ThenOffer => wk.tx == CLEAN_TX && !wk.sent && st == Retrying
             case ThenReturn(err) =>
               && wk.lock.Some?
               && (if err then NothingWritten(wk.tx) && st == (if wk.sent then Retrying else Failed)
                               && (wk.sent ==> wk.tx == CLEAN_TX)
                   else !wk.sent && st == Success && wk.seen.Some?
                        && wk.tx == Tx(false, None, Some(Charge(wk.seen.value, wk.job.amount)))))
       case Offering(late) =>
         && !wk.sent && wk.tx.Tx? && wk.job.wellFormed
         && (if late then wk.lock.Some? && wk.tx == CLEAN_TX
             else wk.tx.row.None? && wk.tx.status == (if wk.tx.aborted then None else Some(Retrying)))
       case Unlocking(err) => wk.lock.Some? && wk.job.wellFormed && (if err then Unpaid(wk) else Paid(wk))
       case Committing(err) => wk.lock.None? && wk.job.wellFormed && (if err then Unpaid(wk) else Paid(wk))
       case Reporting(err) => wk.lock.None? && wk.tx.NoTx? && wk.job.wellFormed && (!err ==> wk.seen.Some? && !wk.sent)
       case Finished(failed) =>
         wk.lock.None? && wk.tx.NoTx? && (!failed ==> wk.job.wellFormed && wk.seen.Some? && !wk.sent)
  }

  ghost predicate AllOk(s: State) {
    forall w :: 0 <= w < |s.workers| ==> WorkerOk(s.workers[w])
  }

  /** One action keeps the goroutine well formed. */
  lemma ActKeepsOk(c: Config, s: State, w: nat, a: Action)
    requires w < |s.workers| && CanAct(c, s, w, a)
    requires WorkerOk(s.workers[w])
    ensures WorkerOk(NextWorker(c, s, w, a))
  {
    if a.Debit? || a.Mark? {
      WritingKeepsOk(c, s, w, a);
    } else if a.Offer? || a.Unlock? || a.Close? {
      ClosingKeepsOk(c, s, w, a);
    } else {
      OpeningKeepsOk(c, s, w, a);
    }
  }

  lemma OpeningKeepsOk(c: Config, s: State, w: nat, a: Action)
    requires w < |s.workers| && CanAct(c, s, w, a) && WorkerOk(s.workers[w])
    requires !(a.Debit? || a.Mark? || a.Offer? || a.Unlock? || a.Close?)
    ensures WorkerOk(NextWorker(c, s, w, a))
  {
  }

  lemma WritingKeepsOk(c: Config, s: State, w: nat, a: Action)
    requires w < |s.workers| && CanAct(c, s, w, a) && WorkerOk(s.workers[w])
    requires a.Debit? || a.Mark?
    ensures WorkerOk(NextWorker(c, s, w, a))
  {
  }

  lemma ClosingKeepsOk(c: Config, s: State, w: nat, a: Action)
    requires w < |s.workers| && CanAct(c, s, w, a) && WorkerOk(s.workers[w])
    requires a.Offer? || a.Unlock? || a.Close?
    ensures WorkerOk(NextWorker(c, s, w, a))
  {
  }

  lemma StepKeepsOk(c: Config, s: State, step: Step)
    requires Enabled(c, s, step) && AllOk(s)
    ensures AllOk(Apply(c, s, step))
  {
    if step.Work? {
      ActKeepsOk(c, s, step.w, step.a);
    }
  }

  lemma {:induction false} RunKeepsOk(c: Config, s: State, steps: seq<Step>)
    requires ValidRun(c, s, steps) && AllOk(s)
    ensures AllOk(End(c, s, steps))
    decreases |steps|
  {
    if steps != [] {
      StepKeepsOk(c, s, steps[0]);
      RunKeepsOk(c, Apply(c, s, steps[0]), steps[1..]);
    }
  }

  // ----- semaphores and connections -----

  /** Slots of one semaphore held in a place. */
  function Slot(source: Source): Place -> int {
    (p: Place) => if p.Working? && p.worker.source == source && !p.worker.pc.Finished? then 1 else 0
  }

  /** Writer connections held in a place. */
  function Conn(): Place -> int {
    (p: Place) =>
      match p
      case Waiting(stage, _) => if stage == Recording then 1 else 0
      case Working(wk) => if wk.tx.Tx? then 1 else 0
  }

  /** The counters are exactly what the goroutines hold, and never exceed the capacities. */
  ghost predicate Accounted(c: Config, s: State) {
    && s.usage.orderSem == Total(s, Slot(Orders)) <= c.orderCap
    && s.usage.retrySem == Total(s, Slot(Retries)) <= c.retryCap
    && s.usage.conns == Total(s, Conn()) <= c.pool
  }

  lemma SlotMoves(c: Config, s: State, step: Step, source: Source)
    requires Enabled(c, s, step) && AllOk(s)
    ensures PlaceSum(Entered(c, s, step), Slot(source)) - PlaceSum(Left(c, s, step), Slot(source))
         == (if source == Orders then Apply(c, s, step).usage.orderSem - s.usage.orderSem
             else Apply(c, s, step).usage.retrySem - s.usage.retrySem)
  {
    MovesAsFew(c, s, step, Slot(source));
    if step.Work? {
      WorkSlots(c, s, step.w, step.a, source);
    }
  }

  /** A goroutine gives its slot back with the last of its actions. */
  lemma WorkSlots(c: Config, s: State, w: nat, a: Action, source: Source)
    requires Enabled(c, s, Work(w, a)) && WorkerOk(s.workers[w])
    ensures var wk, u := s.workers[w], NextUsage(s, s.workers[w], a);
            && Slot(source)(Working(NextWorker(c, s, w, a))) - Slot(source)(Working(wk))
            == (if source == Orders then u.orderSem - s.usage.orderSem else u.retrySem - s.usage.retrySem)
  {
  }

  lemma WorkConns(c: Config, s: State, w: nat, a: Action)
    requires Enabled(c, s, Work(w, a)) && WorkerOk(s.workers[w])
    ensures Conn()(Working(NextWorker(c, s, w, a))) - Conn()(Working(s.workers[w]))
         == NextUsage(s, s.workers[w], a).conns - s.usage.conns
  {
  }

  lemma ConnMoves(c: Config, s: State, step: Step)
    requires Enabled(c, s, step) && AllOk(s)
    ensures PlaceSum(Entered(c, s, step), Conn()) - PlaceSum(Left(c, s, step), Conn())
         == Apply(c, s, step).usage.conns - s.usage.conns
  {
    MovesAsFew(c, s, step, Conn());
    if step.Work? {
      WorkConns(c, s, step.w, step.a);
    }
  }

  lemma StepKeepsSlots(c: Config, s: State, step: Step, source: Source)
    requires Enabled(c, s, step) && AllOk(s)
    ensures Total(Apply(c, s, step), Slot(source)) - Total(s, Slot(source))
         == (if source == Orders then Apply(c, s, step).usage.orderSem - s.usage.orderSem
             else Apply(c, s, step).usage.retrySem - s.usage.retrySem)
  {
    StepMoves(c, s, step, Slot(source));
    SlotMoves(c, s, step, source);
  }

  lemma StepKeepsConns(c: Config, s: State, step: Step)
    requires Enabled(c, s, step) && AllOk(s)
    ensures Total(Apply(c, s, step), Conn()) - Total(s, Conn()) == Apply(c, s, step).usage.conns - s.usage.conns
  {
    StepMoves(c, s, step, Conn());
    ConnMoves(c, s, step);
  }

  /** No step takes a slot or a connection that is not there. */
  lemma CapsHold(c: Config, s: State, step: Step)
    requires Enabled(c, s, step)
    requires s.usage.orderSem <= c.orderCap && s.usage.retrySem <= c.retryCap && s.usage.conns <= c.pool
    ensures var u := Apply(c, s, step).usage;
            u.orderSem <= c.orderCap && u.retrySem <= c.retryCap && u.conns <= c.pool
  {
    match step
    case Work(w, a) =>
    case _ =>
  }

  lemma StepKeepsAccounts(c: Config, s: State, step: Step)
    requires Enabled(c, s, step) && AllOk(s) && Accounted(c, s)
    ensures Accounted(c, Apply(c, s, step))
  {
    StepKeepsSlots(c, s, step, Orders);
    StepKeepsSlots(c, s, step, Retries);
    StepKeepsConns(c, s, step);
    CapsHold(c, s, step);
  }

  lemma {:induction false} EmptyAccounts(c: Config, s: State)
    requires Initial(s)
    ensures AllOk(s) && Accounted(c, s)
  {
    NothingHeld(s.queues.orders, Slot(Orders));
    NothingHeld(s.queues.orders, Slot(Retries));
    NothingHeld(s.queues.orders, Conn());
  }

  lemma {:induction false} NothingHeld(js: seq<Job>, f: Place -> int)
    requires forall j :: f(Waiting(Queued, j)) == 0
    ensures JobSum(js, Queued, f) == 0
  {
    if js != [] {
      NothingHeld(js[..|js| - 1], f);
    }
  }

  lemma {:induction false} RunKeepsAccounts(c: Config, s: State, steps: seq<Step>)
    requires ValidRun(c, s, steps) && AllOk(s) && Accounted(c, s)
    ensures Accounted(c, End(c, s, steps))
    decreases |steps|
  {
    if steps != [] {
      StepKeepsAccounts(c, s, steps[0]);
      StepKeepsOk(c, s, steps[0]);
      RunKeepsAccounts(c, Apply(c, s, steps[0]), steps[1..]);
    }
  }

  /** In every reachable state no more jobs are in flight than each semaphore admits, no more
      connections are used than the pool has, and the counters name the exact holders. */
  lemma CapacitiesRespected(c: Config, s: State, steps: seq<Step>)
    requires Initial(s) && ValidRun(c, s, steps)
    ensures Accounted(c, End(c, s, steps))
    ensures AllOk(End(c, s, steps))
  {
    EmptyAccounts(c, s);
    RunKeepsAccounts(c, s, steps);
    RunKeepsOk(c, s, steps);
  }
}
