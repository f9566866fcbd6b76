/** The pipeline never deadlocks when the pool exceeds both semaphores together, although workers hold a
    connection while they are blocked on the unbuffered retry channel, the reader of that channel itself
    needs a connection, and updates wait for the row locks of other transactions. */
module PipelineProgress {
  import opened Jobs
  import Backoff
  import opened Pipeline
  import opened PipelineMoves
  import opened PipelineControl
  import opened PipelineCopies
  import opened PipelineRetries

  /** Some message is not yet disposed of. */
  predicate Busy(s: State) {
    || s.queues.orders != [] || s.queues.fetchedOrder.Some?
    || s.queues.retries != [] || s.queues.fetchedRetry.Some?
    || s.handler != Idle
    || exists w :: 0 <= w < |s.workers| && !s.workers[w].pc.Finished?
  }

  /** The step needs no failure of Redis, Postgres, Kafka or the codec, only answers they owe: a statement
      in an aborted transaction fails, such a transaction is rolled back, a missing account is not found.  It
      does not count on a cache hit either. */
  predicate Faultless(s: State, step: Step) {
    match step
    case Publish(_, ok) => ok
    case HandlerFail(ok) => ok
    case HandlerFault => false
    case Work(w, a) =>
      && w < |s.workers|
      && (match a
          case LockFault(_) => false
          case OpenFault => false
          case Decrypt(ok) => ok
          case Screen(_, cached) => !cached
          case ReadFault => !HasRow(s, s.workers[w].job.account)
          case Debit(outcome) => outcome == DebitDone
          case Mark(ok) => s.workers[w].tx.Tx? && ok == !s.workers[w].tx.aborted
          case Unlock(ok) => ok
          case Close(applied) => s.workers[w].tx.Tx? && applied == !s.workers[w].tx.aborted
          case GiveUp(ok) => ok
          case _ => true)
    case _ => true
  }

  /** A step other than the passing of time is possible now or, for a job in backoff, after a delay. */
  predicate CanMove(c: Config, s: State, d: int, step: Step) {
    0 <= d && !step.Tick? && Faultless(s, step) && Enabled(c, s.(now := s.now + d), step)
  }

  /** Points at which a goroutine waits for nobody. */
  predicate Runnable(wk: Worker) {
    || wk.pc == Received || wk.pc == Sleeping || wk.pc == Locking || wk.pc == Decrypting || wk.pc == Settling
    || wk.pc.Unlocking? || wk.pc.Committing? || wk.pc.Reporting?
    || (wk.pc.Marking? && wk.tx.Tx? && wk.tx.aborted)
  }

  lemma RunnableMoves(c: Config, s: State, w: nat) returns (d: int, step: Step)
    requires w < |s.workers| && WorkerOk(s.workers[w]) && Runnable(s.workers[w])
    ensures CanMove(c, s, d, step)
  {
    var wk := s.workers[w];
    d := 0;
    match wk.pc {
      case Received => step := if wk.job.wellFormed then Work(w, Admit) else Work(w, Reject);
      case Sleeping =>
        d := if wk.job.notBefore <= s.now then 0 else wk.job.notBefore - s.now;
        step := Work(w, Wake);
      case Locking => step := Work(w, TakeLock);
      case Decrypting => step := Work(w, Decrypt(true));
      case Settling => step := Work(w, Settle(Settled));
      case Unlocking(_) => step := Work(w, Unlock(true));
      case Committing(_) => step := Work(w, Close(!wk.tx.aborted));
      case Reporting(_) => step := Work(w, Report);
      case Marking(_, _) => step := Work(w, Mark(false));
    }
    assert s.(now := s.now + 0) == s;
  }

  /** A goroutine that keeps a row lock is runnable, or waits at the retry channel with the lock of its
      order, or is about to write its success with the lock of its account. */
  lemma RowHolders(s: State, v: nat)
    requires v < |s.workers| && WorkerOk(s.workers[v]) && !Runnable(s.workers[v])
    ensures LocksOrder(s, s.workers[v], s.workers[v].job.key) ==> s.workers[v].pc.Offering?
    ensures LocksAccount(s.workers[v], s.workers[v].job.account) ==> s.workers[v].pc.Marking?
  {
  }

  ghost predicate NoneRunnable(s: State) {
    forall w :: 0 <= w < |s.workers| ==> !Runnable(s.workers[w])
  }

  /** Every transaction belongs to a goroutine with a semaphore slot. */
  lemma {:induction false} ConnsBelowSlots(ws: seq<Worker>)
    requires forall w :: 0 <= w < |ws| ==> WorkerOk(ws[w])
    ensures WorkerSum(ws, Conn()) <= WorkerSum(ws, Slot(Orders)) + WorkerSum(ws, Slot(Retries))
  {
    if ws != [] {
      assert forall w :: 0 <= w < |ws| - 1 ==> ws[..|ws| - 1][w] == ws[w];
      ConnsBelowSlots(ws[..|ws| - 1]);
    }
  }

  lemma {:induction false} NoConnWaiting(js: seq<Job>, stage: Stage)
    requires stage != Recording
    ensures JobSum(js, stage, Conn()) == 0
  {
    if js != [] {
      NoConnWaiting(js[..|js| - 1], stage);
    }
  }

  /** While the channel reader holds no connection, one is free. */
  lemma OneConnFree(c: Config, s: State)
    requires AllOk(s) && Accounted(c, s) && !s.handler.Updating?
    requires c.pool >= c.orderCap + c.retryCap + 1
    ensures ConnFree(c, s)
  {
    ConnsBelowSlots(s.workers);
    NoConnWaiting(s.queues.orders, Queued);
    NoConnWaiting(s.queues.retries, Requeued);
    SlotsAreWorkers(s, Orders);
    SlotsAreWorkers(s, Retries);
  }

  lemma SlotsAreWorkers(s: State, source: Source)
    ensures Total(s, Slot(source)) == WorkerSum(s.workers, Slot(source))
  {
    NoSlotWaiting(s.queues.orders, Queued, source);
    NoSlotWaiting(s.queues.retries, Requeued, source);
  }

  lemma {:induction false} NoSlotWaiting(js: seq<Job>, stage: Stage, source: Source)
    ensures JobSum(js, stage, Slot(source)) == 0
  {
    if js != [] {
      NoSlotWaiting(js[..|js| - 1], stage, source);
    }
  }

  /** What every reachable state satisfies. */
  ghost predicate Reached(c: Config, s: State) {
    && AllOk(s) && Accounted(c, s) && CountsBounded(c, s)
    && forall k :: Total(s, CopyOf(k)) <= 1
  }

  lemma HandlerMoves(c: Config, s: State) returns (d: int, step: Step)
    requires ValidConfig(c) && c.pool >= c.orderCap + c.retryCap + 1
    requires Reached(c, s) && NoneRunnable(s) && s.handler != Idle
    ensures CanMove(c, s, d, step)
  {
    d := 0;
    assert s.(now := s.now + 0) == s;
    var job := s.handler.job;
    match s.handler {
      case Updating(_) =>
        step := HandlerFail(true);
        PlaceInTotal(s, CopyOf(job.key));
        forall v | 0 <= v < |s.workers|
          ensures !LocksOrder(s, s.workers[v], job.key)
        {
          RowHolders(s, v);
        }
      case Holding(_) =>
        if job.retryCount <= c.maxRetry {
          step := Publish(0, true);
          DrawExists(job.retryCount, c.maxRetry, c.base);
        } else {
          step := HandlerConnect;
          OneConnFree(c, s);
        }
    }
  }

  lemma DrawExists(count: int, most: int, base: int)
    requires 1 <= count <= most && Backoff.InRange(most, base)
    ensures Backoff.IsDraw(count, base, 0)
  {
    Backoff.NominalExact(count, most, base);
  }

  /** Nobody keeps the lock of an order row; nobody keeps the lock of an account row. */
  ghost predicate OrdersUnlocked(s: State) {
    forall v :: 0 <= v < |s.workers| ==> !LocksOrder(s, s.workers[v], s.workers[v].job.key)
  }

  ghost predicate AccountsUnlocked(s: State) {
    forall v :: 0 <= v < |s.workers| ==> !LocksAccount(s.workers[v], s.workers[v].job.account)
  }

  lemma NobodyOffers(s: State)
    requires AllOk(s) && NoneRunnable(s)
    requires forall v :: 0 <= v < |s.workers| ==> !s.workers[v].pc.Offering?
    ensures OrdersUnlocked(s)
  {
    forall v | 0 <= v < |s.workers|
      ensures !LocksOrder(s, s.workers[v], s.workers[v].job.key)
    {
      RowHolders(s, v);
    }
  }

  lemma NobodyMarks(s: State)
    requires AllOk(s) && NoneRunnable(s)
    requires forall v :: 0 <= v < |s.workers| ==> !s.workers[v].pc.Marking?
    ensures AccountsUnlocked(s)
  {
    forall v | 0 <= v < |s.workers|
      ensures !LocksAccount(s.workers[v], s.workers[v].job.account)
    {
      RowHolders(s, v);
    }
  }

  lemma MarkMoves(c: Config, s: State, m: nat)
    requires m < |s.workers| && WorkerOk(s.workers[m]) && !Runnable(s.workers[m]) && s.workers[m].pc.Marking?
    requires OrdersUnlocked(s)
    ensures Faultless(s, Work(m, Mark(true))) && Enabled(c, s, Work(m, Mark(true)))
  {
  }

  /** With the channel reader idle and nobody runnable, some goroutine can take its next action. */
  lemma WaitingMoves(c: Config, s: State, w: nat) returns (step: Step)
    requires c.pool >= c.orderCap + c.retryCap + 1
    requires AllOk(s) && Accounted(c, s) && NoneRunnable(s) && s.handler == Idle
    requires w < |s.workers| && !s.workers[w].pc.Finished?
    ensures !step.Tick? && Faultless(s, step) && Enabled(c, s, step)
  {
    if o :| 0 <= o < |s.workers| && s.workers[o].pc.Offering? {
      step := Work(o, Offer);
    } else {
      NobodyOffers(s);
      if m :| 0 <= m < |s.workers| && s.workers[m].pc.Marking? {
        step := Work(m, Mark(true));
        MarkMoves(c, s, m);
      } else {
        NobodyMarks(s);
        OneConnFree(c, s);
        step := LastMoves(c, s, w);
      }
    }
  }

  /** The remaining waits: a connection, or an account row. */
  lemma LastMoves(c: Config, s: State, w: nat) returns (step: Step)
    requires AllOk(s) && ConnFree(c, s) && w < |s.workers| && !Runnable(s.workers[w]) && !s.workers[w].pc.Finished?
    requires !s.workers[w].pc.Offering? && !s.workers[w].pc.Marking?
    requires OrdersUnlocked(s) && AccountsUnlocked(s)
    ensures !step.Tick? && Faultless(s, step) && Enabled(c, s, step)
  {
    var wk := s.workers[w];
    match wk.pc {
      case Overdue => step := Work(w, GiveUp(true));
      case Opening => step := Work(w, OpenTx);
      case Checking =>
        step := if HasRow(s, wk.job.account) then Work(w, ReadRow(|s.db.rows[wk.job.account]| - 1))
                else Work(w, ReadFault);
      case Screening => step := Work(w, Screen(Clean, false));
      case Debiting => step := Work(w, Debit(DebitDone));
    }
  }

  lemma {:induction false} AllFinished(ws: seq<Worker>, source: Source)
    requires forall w :: 0 <= w < |ws| ==> ws[w].pc.Finished?
    ensures WorkerSum(ws, Slot(source)) == 0
  {
    if ws != [] {
      assert forall w :: 0 <= w < |ws| - 1 ==> ws[..|ws| - 1][w] == ws[w];
      AllFinished(ws[..|ws| - 1], source);
    }
  }

  lemma QueueMoves(c: Config, s: State) returns (step: Step)
    requires ValidConfig(c) && Reached(c, s) && Busy(s) && s.handler == Idle
    requires forall w :: 0 <= w < |s.workers| ==> s.workers[w].pc.Finished?
    ensures CanMove(c, s, 0, step)
  {
    assert s.(now := s.now + 0) == s;
    SlotsAreWorkers(s, Orders);
    SlotsAreWorkers(s, Retries);
    AllFinished(s.workers, Orders);
    AllFinished(s.workers, Retries);
    step := if s.queues.fetchedOrder.Some? then SpawnOrder
            else if s.queues.orders != [] then FetchOrder(0)
            else if s.queues.fetchedRetry.Some? then SpawnRetry
            else FetchRetry(0);
  }

  lemma BusyMoves(c: Config, s: State) returns (d: int, step: Step)
    requires ValidConfig(c) && c.pool >= c.orderCap + c.retryCap + 1
    requires Reached(c, s) && Busy(s)
    ensures CanMove(c, s, d, step)
  {
    if r :| 0 <= r < |s.workers| && Runnable(s.workers[r]) {
      d, step := RunnableMoves(c, s, r);
    } else if s.handler != Idle {
      d, step := HandlerMoves(c, s);
    } else if w :| 0 <= w < |s.workers| && !s.workers[w].pc.Finished? {
      d := 0;
      step := WaitingMoves(c, s, w);
      assert s.(now := s.now + 0) == s;
    } else {
      d := 0;
      step := QueueMoves(c, s);
    }
  }

  lemma ReachedFrom(c: Config, s: State, steps: seq<Step>)
    requires Initial(s) && DistinctOrders(s.queues.orders) && ValidRun(c, s, steps)
    ensures Reached(c, End(c, s, steps))
  {
    CapacitiesRespected(c, s, steps);
    RetryCountsBounded(c, s, steps);
    forall k: Key
      ensures Total(End(c, s, steps), CopyOf(k)) <= 1
    {
      AtMostOneDebit(c, s, steps, k);
    }
  }

  /** Deadlock freedom: if the pool is larger than both semaphores together and every order is published
      once, every reachable state with unfinished work has an enabled step that needs no fault. */
  lemma DeadlockFree(c: Config, s: State, steps: seq<Step>)
    requires ValidConfig(c) && c.pool >= c.orderCap + c.retryCap + 1
    requires Initial(s) && DistinctOrders(s.queues.orders) && ValidRun(c, s, steps)
    requires Busy(End(c, s, steps))
    ensures exists d, step :: CanMove(c, End(c, s, steps), d, step)
  {
    ReachedFrom(c, s, steps);
    var d, step := BusyMoves(c, End(c, s, steps));
  }
}
