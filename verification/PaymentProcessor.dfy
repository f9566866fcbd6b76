/** `ProcessPayment` as the program writes it: the calls to Redis, Postgres, the fraud service, the gateway and
    the retry channel in order, the early returns, and the deferred calls.  The processor keeps its own lock
    keys, tables, transaction and channel, and branches on what the calls return; a ghost run of the transition
    system is carried along, and what the processor has done is proved to be where that run stands.  Nothing
    else moves during a call, so a call that must wait for a resource stops there. */
module PaymentProcessor {
  import opened Jobs
  import opened Pipeline
  import opened PipelineControl
  import opened PipelineRuns

  datatype LockAnswer = Reply | LockError(applied: bool)

  /** What the world answers during one call.  `version` is the row version a replica returns, `None` if the read
      fails; `cached` says that the average came from Redis. */
  datatype Answers = Answers(
    lock: LockAnswer, begin: bool, decrypt: bool, version: Option<nat>, verdict: Verdict, cached: bool,
    settlement: Settlement, debit: DebitOutcome, mark: bool, delete: bool, commit: bool)

  /** `20*time.Second`, in nanoseconds. */
  const TWENTY_SECONDS := 20 * 1_000_000_000

  /** How a part of the function ends: it goes on, returns, or waits for a resource. */
  datatype Flow = Proceed | Leave(err: bool) | Wait

  // ----- what a call is to do -----

  predicate Free(locks: map<AccountId, int>, now: int, a: AccountId) {
    a in locks ==> locks[a] <= now
  }

  /** The row that the balance check reads, if it finds one; without a replica it is the latest. */
  function Found(c: Config, rows: map<AccountId, seq<Row>>, job: Job, a: Answers): Option<Row> {
    if a.version.None? || job.account !in rows || rows[job.account] == [] then None
    else if !c.replica then Some(rows[job.account][|rows[job.account]| - 1])
    else if a.version.value < |rows[job.account]| then Some(rows[job.account][a.version.value])
    else None
  }

  /** The amount decrypts and the row that is read covers it. */
  predicate Covered(c: Config, rows: map<AccountId, seq<Row>>, job: Job, a: Answers) {
    a.decrypt && Found(c, rows, job, a).Some? && Found(c, rows, job, a).value.balance >= job.amount
  }

  /** Once the lock is won: the payment goes through, or the job is sent to the retry channel. */
  predicate Charges(c: Config, rows: map<AccountId, seq<Row>>, job: Job, a: Answers) {
    Covered(c, rows, job, a) && a.verdict == Clean && a.settlement == Settled && a.debit == DebitDone
  }

  predicate Bounces(c: Config, rows: map<AccountId, seq<Row>>, job: Job, a: Answers) {
    Covered(c, rows, job, a) && (a.verdict == Unavailable || (a.verdict == Clean && a.settlement == Retryable))
  }

  class PaymentProcessor {
    const c: Config

    // the time, and the rows that other transactions keep locked
    const now: int
    const lockedOrders: set<Key>
    const lockedAccounts: set<AccountId>

    // Redis
    var locks: map<AccountId, int>

    // Postgres: committed tables, this call's transaction, and connections in use
    var rows: map<AccountId, seq<Row>>
    var status: map<Key, Status>
    var tx: Tx
    var conns: int

    // the reader of the retry channel
    var reader: Handler

    // the run that the call is a part of, and the goroutine that makes the call
    ghost var world: State
    ghost const w: nat

    constructor (c: Config, s: State, w: nat, lockedOrders: set<Key>, lockedAccounts: set<AccountId>)
      requires w < |s.workers|
      ensures this.c == c && this.world == s && this.w == w && Mirrors()
      ensures this.lockedOrders == lockedOrders && this.lockedAccounts == lockedAccounts
    {
      this.c, now, locks, rows, status := c, s.now, s.locks, s.db.rows, s.db.status;
      tx, conns, reader := s.workers[w].tx, s.usage.conns, s.handler;
      this.lockedOrders, this.lockedAccounts := lockedOrders, lockedAccounts;
      world, this.w := s, w;
    }

    /** What the processor holds is where the run stands. */
    ghost predicate Mirrors()
      reads this
    {
      && w < |world.workers| && world.workers[w].tx == tx
      && world.now == now && world.locks == locks && world.usage.conns == conns && world.handler == reader
      && world.db.rows == rows && world.db.status == status
    }

    /** The run leads from `s0` to here, and only this goroutine has moved. */
    ghost predicate OnTrack(s0: State)
      reads this
    {
      && w < |world.workers| == |s0.workers|
      && (forall v :: 0 <= v < |world.workers| && v != w ==> world.workers[v] == s0.workers[v])
      && world.workers[w].job == s0.workers[w].job
      && WorkerOk(world.workers[w])
      && Path(c, From(s0), world)
    }

    /** A call under way, of which nothing is committed yet. */
    ghost predicate Under(s0: State, job: Job)
      reads this
    {
      && OnTrack(s0) && Mirrors() && job == world.workers[w].job
      && rows == s0.db.rows && status == s0.db.status
    }

    /** The row locks of the other transactions. */
    ghost predicate RowLocks(s0: State)
    {
      && (forall k :: k in lockedOrders <==> !OrderRowFree(s0, w, k))
      && (forall a :: a in lockedAccounts <==> !AccountRowFree(s0, w, a))
    }

    /** The goroutine waits for a connection, a row or the channel reader. */
    ghost predicate Blocked()
      reads this
      requires w < |world.workers|
    {
      var wk := world.workers[w];
      || (wk.pc == Opening && !ConnFree(c, world))
      || ((wk.pc == Checking || wk.pc == Screening) && !ReaderFree(c, world))
      || (wk.pc == Debiting && !AccountRowFree(world, w, wk.job.account))
      || (wk.pc.Marking? && !OrderRowFree(world, w, wk.job.key))
      || (wk.pc.Offering? && world.handler != Idle)
    }

    /** A read connection, both rows and the channel reader are free. */
    predicate Calm(job: Job)
      reads this
    {
      (c.replica || conns < c.pool) && job.key !in lockedOrders && job.account !in lockedAccounts && reader == Idle
    }

    /** The part of the function that began when the reader was `was` is over: its status is written or its
        transaction aborted, and the job is with the channel reader if `resend`. */
    ghost predicate Over(job: Job, was: Handler, locked: bool, err: bool, resend: bool)
      reads this
      requires w < |world.workers|
    {
      && world.workers[w].pc == (if locked then Unlocking(err) else Committing(err))
      && world.workers[w].sent == resend
      && reader == (if resend then Holding(NextTry(job)) else was)
    }

    /** The run takes one action of this goroutine. */
    ghost method Advance(s0: State, a: Action)
      requires OnTrack(s0) && CanAct(c, world, w, a)
      modifies this`world
      ensures OnTrack(s0)
      ensures world.workers[w] == NextWorker(c, old(world), w, a)
      ensures world.now == old(world).now && world.locks == NextLocks(old(world), old(world).workers[w], a)
      ensures world.db == NextDb(old(world), old(world).workers[w], a)
      ensures world.handler == NextHandler(old(world), old(world).workers[w], a)
      ensures world.usage == NextUsage(old(world), old(world).workers[w], a)
    {
      Go(c, From(s0), world, Work(w, a));
      ActKeepsOk(c, world, w, a);
      KeepsJob(c, world, w, a);
      world := Apply(c, world, Work(w, a));
    }

    /** The run takes an action that touches nothing but the goroutine. */
    ghost method Note(s0: State, job: Job, a: Action)
      requires Under(s0, job) && CanAct(c, world, w, a)
      requires a.Decrypt? || a.ReadRow? || a.ReadFault? || a.Screen? || a.Settle?
      modifies this`world
      ensures Under(s0, job) && world.workers[w] == NextWorker(c, old(world), w, a)
    {
      Advance(s0, a);
    }

    /** The run closes the transaction. */
    ghost method NoteCommit(s0: State, job: Job, ok: bool)
      requires Under(s0, job) && world.workers[w].pc.Committing?
      modifies this`world
      ensures OnTrack(s0) && world.now == now && world.locks == locks && world.handler == reader
      ensures world.usage.conns == conns - 1
      ensures world.db.rows == RowsAfter(rows, tx, job, ok) && world.db.status == StatusAfter(status, tx, job, ok)
      ensures world.workers[w] == old(world).workers[w].(pc := Reporting(old(world).workers[w].pc.err), tx := NoTx)
    {
      TablesAfter(world.db, job, tx, ok);
      Advance(s0, Close(ok && !tx.aborted));
    }

    /** What the others hold has not changed since the call began. */
    lemma SameRows(s0: State, job: Job)
      requires Under(s0, job) && RowLocks(s0)
      ensures job.key in lockedOrders <==> !OrderRowFree(world, w, job.key)
      ensures job.account in lockedAccounts <==> !AccountRowFree(world, w, job.account)
    {
      assert forall v :: 0 <= v < |world.workers| && v != w ==>
               LocksOrder(world, world.workers[v], job.key) == LocksOrder(s0, s0.workers[v], job.key)
               && LocksAccount(world.workers[v], job.account) == LocksAccount(s0.workers[v], job.account);
    }

    // ----- single calls -----

    /** `SetNX` with the 20 s expiry. */
    method SetNX(ghost s0: State, job: Job, answer: LockAnswer) returns (locked: bool, err: bool)
      requires Under(s0, job) && world.workers[w].pc == Locking
      modifies this`locks, this`world
      ensures Under(s0, job)
      ensures err == answer.LockError? && locked == (!err && Free(old(locks), now, job.account))
      ensures locks == (if Free(old(locks), now, job.account) && (err ==> answer.applied)
                        then old(locks)[job.account := now + TWENTY_SECONDS] else old(locks))
      ensures world.workers[w] == old(world).workers[w].(pc := if err then Reporting(true) else Opening,
                                                         lock := if locked then Some(now) else None)
    {
      var free := job.account in locks ==> locks[job.account] <= now;
      Advance(s0, if answer.Reply? then TakeLock else LockFault(answer.applied && free));
      if free && (answer.Reply? || answer.applied) {
        locks := locks[job.account := now + TWENTY_SECONDS];
      }
      locked, err := answer.Reply? && free, answer.LockError?;
    }

    /** `Begin`: a connection is taken for the transaction. */
    method Begin(ghost s0: State, job: Job, ok: bool) returns (flow: Flow)
      requires Under(s0, job) && world.workers[w].pc == Opening
      modifies this`conns, this`tx, this`world
      ensures Under(s0, job) && world.handler == old(world).handler && world.locks == old(world).locks
      ensures flow == (if !ok then Leave(true) else if old(conns) < c.pool then Proceed else Wait)
      ensures conns == (if flow == Proceed then old(conns) + 1 else old(conns))
      ensures tx == (if flow == Proceed then CLEAN_TX else old(tx))
      ensures flow == Wait ==> world == old(world)
      ensures var was := old(world).workers[w];
              && (flow == Leave(true) ==> world.workers[w] == was.(pc := Reporting(true), lock := None))
              && (flow == Proceed ==>
                    world.workers[w] == was.(tx := CLEAN_TX, pc := if was.lock.Some? then Decrypting
                                                                   else Marking(Retrying, ThenOffer)))
    {
      if !ok {
        Advance(s0, OpenFault);
        return Leave(true);
      }
      if conns >= c.pool {
        return Wait;
      }
      Advance(s0, OpenTx);
      conns, tx := conns + 1, Tx(false, None, None);
      return Proceed;
    }

    /** `updateOrderStatus`: the error is only logged, but it aborts the transaction. */
    method UpdateOrderStatus(ghost s0: State, job: Job, st: Status, ok: bool) returns (wait: bool)
      requires Under(s0, job) && RowLocks(s0) && world.workers[w].pc.Marking? && world.workers[w].pc.status == st
      modifies this`tx, this`world
      ensures Under(s0, job) && locks == old(locks)
      ensures wait == (ok && !old(tx).aborted && job.key in lockedOrders)
      ensures wait ==> world == old(world) && Blocked()
      ensures !wait ==> tx == (if ok && !old(tx).aborted then old(tx).(status := Some(st))
                               else old(tx).(aborted := true))
      ensures var was := old(world).workers[w];
              !wait ==> world.workers[w] == was.(tx := tx, pc := if was.pc.after == ThenOffer then Offering(false)
                                                                 else Return(was, was.pc.after.err))
    {
      SameRows(s0, job);
      if ok && !tx.aborted && job.key in lockedOrders {
        return true;
      }
      Advance(s0, Mark(ok && !tx.aborted));
      if ok && !tx.aborted {
        tx := tx.(status := Some(st));
      } else {
        tx := tx.(aborted := true);
      }
      return false;
    }

    /** The send on the unbuffered channel: it needs the reader. */
    method Send(ghost s0: State, job: Job) returns (wait: bool)
      requires Under(s0, job) && world.workers[w].pc.Offering?
      modifies this`reader, this`world
      ensures Under(s0, job) && locks == old(locks)
      ensures wait == (old(reader) != Idle) && (wait ==> world == old(world) && reader == old(reader) && Blocked())
      ensures !wait ==> reader == Holding(NextTry(job))
      ensures var was := old(world).workers[w];
              !wait ==> world.workers[w] == was.(sent := true,
                                                 pc := if was.pc.late then Marking(Retrying, ThenReturn(true))
                                                       else Return(was, true))
    {
      if reader != Idle {
        return true;
      }
      Advance(s0, Offer);
      reader := Holding(NextTry(job));
      return false;
    }

    /** `Del`, whoever the key belongs to by now. */
    method Del(ghost s0: State, job: Job, ok: bool)
      requires Under(s0, job) && world.workers[w].pc.Unlocking?
      modifies this`locks, this`world
      ensures Under(s0, job)
      ensures locks == (if ok then old(locks) - {job.account} else old(locks))
      ensures world.workers[w] == old(world).workers[w].(pc := Committing(old(world).workers[w].pc.err), lock := None)
    {
      Advance(s0, Unlock(ok));
      if ok {
        locks := locks - {job.account};
      }
    }

    /** `Commit`: the pending writes become visible, unless the transaction is aborted or the commit fails, which
        is only logged. */
    method Commit(ghost s0: State, job: Job, ok: bool)
      requires Under(s0, job) && world.workers[w].pc.Committing?
      modifies this`rows, this`status, this`tx, this`conns, this`world
      ensures OnTrack(s0) && Mirrors() && locks == old(locks)
      ensures conns == old(conns) - 1 && tx == NoTx
      ensures rows == RowsAfter(old(rows), old(tx), job, ok) && status == StatusAfter(old(status), old(tx), job, ok)
      ensures world.workers[w].pc == Reporting(old(world).workers[w].pc.err)
    {
      NoteCommit(s0, job, ok);
      if ok && !tx.aborted && tx.row.Some? && job.account in rows {
        rows := rows[job.account := rows[job.account] + [tx.row.value]];
      }
      if ok && !tx.aborted && tx.status.Some? && job.key in status {
        status := status[job.key := tx.status.value];
      }
      conns, tx := conns - 1, NoTx;
    }

    // ----- the functions that ProcessPayment calls -----

    /** A failure that is final: the status is written and the error returned. */
    method Refuse(ghost s0: State, job: Job, a: Answers) returns (flow: Flow)
      requires Under(s0, job) && RowLocks(s0) && !world.workers[w].sent
      requires world.workers[w].pc == Marking(Failed, ThenReturn(true))
      modifies this`tx, this`world
      ensures Under(s0, job) && locks == old(locks)
      ensures flow == Wait || flow == Leave(true)
      ensures flow == Wait ==> Blocked() && job.key in lockedOrders
      ensures flow == Leave(true) ==> Over(job, old(reader), true, true, false)
    {
      var wait := UpdateOrderStatus(s0, job, Failed, a.mark);
      return if wait then Wait else Leave(true);
    }

    /** A failure to be retried: the status is written, the job sent, and the error returned. */
    method MarkThenSend(ghost s0: State, job: Job, a: Answers, ghost locked: bool) returns (flow: Flow)
      requires Under(s0, job) && RowLocks(s0) && world.workers[w].lock.Some? == locked
      requires world.workers[w].pc == Marking(Retrying, ThenOffer)
      modifies this`tx, this`reader, this`world
      ensures Under(s0, job) && locks == old(locks)
      ensures flow == Wait || flow == Leave(true)
      ensures flow == Wait ==> Blocked() && !old(Calm(job))
      ensures flow.Leave? ==> Over(job, old(reader), locked, true, true)
    {
      var wait := UpdateOrderStatus(s0, job, Retrying, a.mark);
      if !wait {
        wait := Send(s0, job);
      }
      return if wait then Wait else Leave(true);
    }

    /** A retryable settlement: the job is sent before its status is written. */
    method SendThenMark(ghost s0: State, job: Job, a: Answers) returns (flow: Flow)
      requires Under(s0, job) && RowLocks(s0) && world.workers[w].pc == Offering(true)
      modifies this`tx, this`reader, this`world
      ensures Under(s0, job) && locks == old(locks)
      ensures flow == Wait || flow == Leave(true)
      ensures flow == Wait ==> Blocked() && !old(Calm(job))
      ensures flow.Leave? ==> Over(job, old(reader), true, true, true)
    {
      var wait := Send(s0, job);
      if !wait {
        wait := UpdateOrderStatus(s0, job, Retrying, a.mark);
      }
      return if wait then Wait else Leave(true);
    }

    method DecryptAmount(ghost s0: State, job: Job, a: Answers) returns (flow: Flow)
      requires Under(s0, job) && RowLocks(s0) && world.workers[w].pc == Decrypting
      modifies this`tx, this`world
      ensures Under(s0, job) && locks == old(locks)
      ensures flow == Wait ==> Blocked() && !old(Calm(job))
      ensures flow == Proceed ==> a.decrypt && world.workers[w].pc == Checking
      ensures flow.Leave? ==> flow.err && !a.decrypt && Over(job, old(reader), true, true, false)
    {
      Note(s0, job, Decrypt(a.decrypt));
      if !a.decrypt {
        flow := Refuse(s0, job, a);
        return;
      }
      return Proceed;
    }

    /** `checkAccountBalance`. */
    method CheckAccountBalance(ghost s0: State, job: Job, a: Answers) returns (flow: Flow, account: Row)
      requires Under(s0, job) && RowLocks(s0) && world.workers[w].pc == Checking
      modifies this`tx, this`world
      ensures Under(s0, job) && locks == old(locks)
      ensures flow == Wait ==> Blocked() && !old(Calm(job))
      ensures flow == Proceed ==>
                && Found(c, rows, job, a) == Some(account) && account.balance >= job.amount
                && world.workers[w] == old(world).workers[w].(pc := Screening, seen := Some(account))
      ensures flow.Leave? ==>
                && flow.err && Over(job, old(reader), true, true, false)
                && (Found(c, rows, job, a).Some? ==> Found(c, rows, job, a).value.balance < job.amount)
    {
      account := Row(0, 0);
      var found := Found(c, rows, job, a);
      if found.None? {
        Note(s0, job, ReadFault);
        flow := Refuse(s0, job, a);
        return;
      }
      if !c.replica && conns >= c.pool {
        flow := Wait;
        return;
      }
      account := found.value;
      Note(s0, job, ReadRow(if c.replica then a.version.value else |rows[job.account]| - 1));
      if account.balance - job.amount < 0 {
        flow := Refuse(s0, job, a);
        return;
      }
      flow := Proceed;
    }

    /** The verdict of `Analyze`, and `handleFraudResult`. */
    method HandleFraudResult(ghost s0: State, job: Job, a: Answers) returns (flow: Flow)
      requires Under(s0, job) && RowLocks(s0) && world.workers[w].pc == Screening
      modifies this`tx, this`reader, this`world
      ensures Under(s0, job) && locks == old(locks)
      ensures flow == Wait ==> Blocked() && !old(Calm(job))
      ensures !a.cached && !c.replica && old(conns) >= c.pool ==> flow == Wait
      ensures flow == Proceed ==> a.verdict == Clean && reader == old(reader)
                                  && world.workers[w] == old(world).workers[w].(pc := Settling)
      ensures flow.Leave? ==>
                flow.err && a.verdict != Clean && Over(job, old(reader), true, true, a.verdict == Unavailable)
    {
      if !a.cached && !c.replica && conns >= c.pool {
        return Wait;
      }
      Note(s0, job, Screen(a.verdict, a.cached));
      if a.verdict == Clean {
        return Proceed;
      }
      if a.verdict == Unavailable {
        flow := MarkThenSend(s0, job, a, true);
        return;
      }
      flow := Refuse(s0, job, a);
    }

    /** The settlement, and `handleTransactionResult`: a retryable result is sent before its status is written. */
    method HandleTransactionResult(ghost s0: State, job: Job, a: Answers) returns (flow: Flow)
      requires Under(s0, job) && RowLocks(s0) && world.workers[w].pc == Settling
      modifies this`tx, this`reader, this`world
      ensures Under(s0, job) && locks == old(locks)
      ensures flow == Wait ==> Blocked() && !old(Calm(job))
      ensures flow == Proceed ==> a.settlement == Settled && reader == old(reader)
                                  && world.workers[w] == old(world).workers[w].(pc := Debiting)
      ensures flow.Leave? ==>
                flow.err && a.settlement != Settled && Over(job, old(reader), true, true, a.settlement == Retryable)
    {
      Note(s0, job, Settle(a.settlement));
      if a.settlement == Settled {
        return Proceed;
      }
      if a.settlement == Retryable {
        flow := SendThenMark(s0, job, a);
        return;
      }
      flow := Refuse(s0, job, a);
    }

    /** `UpdateBalanceAvgCount`: the new row is computed from the account that was checked. */
    method UpdateBalanceAvgCount(ghost s0: State, job: Job, account: Row, outcome: DebitOutcome) returns (flow: Flow)
      requires Under(s0, job) && RowLocks(s0)
      requires world.workers[w].pc == Debiting && world.workers[w].seen == Some(account)
      modifies this`tx, this`world
      ensures Under(s0, job) && locks == old(locks)
      ensures flow == (if outcome != DebitDone then Leave(true)
                       else if job.account in lockedAccounts then Wait else Proceed)
      ensures flow == Wait ==> Blocked()
      ensures var wk, was := world.workers[w], old(world).workers[w];
              && wk.sent == was.sent && wk.seen == was.seen
              && (flow == Proceed ==> tx == CLEAN_TX.(row := Some(Charge(account, job.amount)))
                                      && wk.pc == Marking(Success, ThenReturn(false)))
              && (flow == Leave(true) ==> wk.pc == Marking(Failed, ThenReturn(true)))
    {
      SameRows(s0, job);
      if outcome == DebitDone && job.account in lockedAccounts {
        return Wait;
      }
      Advance(s0, Debit(outcome));
      match outcome {
        case CryptoFault => return Leave(true);
        case SqlFault =>
          tx := tx.(aborted := true);
          return Leave(true);
        case DebitDone =>
          tx := tx.(row := Some(Row(account.balance - job.amount, account.count + 1)));
          return Proceed;
      }
    }

    /** The end of the function: the debit and the success status. */
    method SettleAccount(ghost s0: State, job: Job, account: Row, a: Answers) returns (flow: Flow)
      requires Under(s0, job) && RowLocks(s0) && !world.workers[w].sent
      requires world.workers[w].pc == Debiting && world.workers[w].seen == Some(account)
      modifies this`tx, this`world
      ensures Under(s0, job) && locks == old(locks)
      ensures flow == Wait || flow == Leave(a.debit != DebitDone)
      ensures flow == Wait ==> Blocked() && !old(Calm(job))
      ensures flow.Leave? ==> Over(job, old(reader), true, flow.err, false)
      ensures flow == Leave(false) ==> tx.aborted == !a.mark && tx.row == Some(Charge(account, job.amount))
    {
      flow := UpdateBalanceAvgCount(s0, job, account, a.debit);
      if flow == Wait {
        return;
      }
      if flow == Leave(true) {
        flow := Refuse(s0, job, a);
        return;
      }
      var wait := UpdateOrderStatus(s0, job, Success, a.mark);
      return if wait then Wait else Leave(false);
    }

    // ----- the function -----

    /** The statements behind the fraud check. */
    method ChargeAccount(ghost s0: State, job: Job, account: Row, a: Answers) returns (flow: Flow)
      requires Under(s0, job) && RowLocks(s0)
      requires world.workers[w].pc == Screening && world.workers[w].seen == Some(account)
      modifies this`tx, this`reader, this`world
      ensures Under(s0, job) && locks == old(locks)
      ensures flow != Proceed && (flow == Wait ==> Blocked() && !old(Calm(job)))
      ensures var paid := a.verdict == Clean && a.settlement == Settled && a.debit == DebitDone;
              flow.Leave? ==>
                && flow.err == !paid
                && Over(job, old(reader), true, flow.err,
                        a.verdict == Unavailable || (a.verdict == Clean && a.settlement == Retryable))
                && (paid ==> tx.aborted == !a.mark && tx.row == Some(Charge(account, job.amount)))
    {
      flow := HandleFraudResult(s0, job, a);
      if flow != Proceed {
        return;
      }
      flow := HandleTransactionResult(s0, job, a);
      if flow != Proceed {
        return;
      }
      flow := SettleAccount(s0, job, account, a);
    }

    /** The statements with the lock won. */
    method WithLock(ghost s0: State, job: Job, a: Answers) returns (flow: Flow)
      requires Under(s0, job) && RowLocks(s0) && world.workers[w].pc == Decrypting
      modifies this`tx, this`reader, this`world
      ensures Under(s0, job) && locks == old(locks)
      ensures flow != Proceed && (flow == Wait ==> Blocked() && !old(Calm(job)))
      ensures flow.Leave? ==>
                && flow.err == !Charges(c, rows, job, a)
                && Over(job, old(reader), true, flow.err, Bounces(c, rows, job, a))
                && (!flow.err ==> tx.aborted == !a.mark
                                  && tx.row == Some(Charge(Found(c, rows, job, a).value, job.amount)))
    {
      flow := DecryptAmount(s0, job, a);
      if flow != Proceed {
        return;
      }
      var account;
      flow, account := CheckAccountBalance(s0, job, a);
      if flow != Proceed {
        return;
      }
      flow := ChargeAccount(s0, job, account, a);
    }

    /** Lock and transaction.  A failed `Begin` returns with the lock still set. */
    method Open(ghost s0: State, job: Job, a: Answers) returns (flow: Flow, locked: bool)
      requires Under(s0, job) && world.workers[w].pc == Locking
      modifies this`locks, this`conns, this`tx, this`world
      ensures Under(s0, job)
      ensures locked == (a.lock.Reply? && Free(old(locks), now, job.account))
      ensures locks == (if Free(old(locks), now, job.account) && a.lock != LockError(false)
                        then old(locks)[job.account := now + TWENTY_SECONDS] else old(locks))
      ensures flow == (if a.lock.LockError? || !a.begin then Leave(true)
                       else if old(conns) < c.pool then Proceed else Wait)
      ensures conns == old(conns) + (if flow == Proceed then 1 else 0)
      ensures flow == Wait ==> Blocked()
      ensures flow.Leave? ==> world.workers[w].pc == Reporting(true)
      ensures flow == Proceed ==> world.workers[w].pc == (if locked then Decrypting else Marking(Retrying, ThenOffer))
                                  && world.workers[w].lock.Some? == locked
    {
      var err;
      locked, err := SetNX(s0, job, a.lock);
      if err {
        flow := Leave(true);
        return;
      }
      flow := Begin(s0, job, a.begin);
    }

    /** The statements between `Begin` and the deferred calls. */
    method Body(ghost s0: State, job: Job, a: Answers, locked: bool) returns (flow: Flow)
      requires Under(s0, job) && RowLocks(s0) && world.workers[w].lock.Some? == locked
      requires world.workers[w].pc == (if locked then Decrypting else Marking(Retrying, ThenOffer))
      modifies this`tx, this`reader, this`world
      ensures Under(s0, job) && locks == old(locks)
      ensures flow != Proceed && (flow == Wait ==> Blocked() && !old(Calm(job)))
      ensures flow.Leave? ==>
                && flow.err == !(locked && Charges(c, rows, job, a))
                && Over(job, old(reader), locked, flow.err, !locked || Bounces(c, rows, job, a))
                && (!flow.err ==> tx.aborted == !a.mark
                                  && tx.row == Some(Charge(Found(c, rows, job, a).value, job.amount)))
    {
      if locked {
        flow := WithLock(s0, job, a);
      } else {
        flow := MarkThenSend(s0, job, a, false);
      }
    }

    /** The deferred calls run last in, first out: the lock is deleted, if it was won, before the transaction is
        committed. */
    method Deferred(ghost s0: State, job: Job, a: Answers, locked: bool)
      requires Under(s0, job) && (if locked then world.workers[w].pc.Unlocking? else world.workers[w].pc.Committing?)
      modifies this`locks, this`rows, this`status, this`tx, this`conns, this`world
      ensures OnTrack(s0) && Mirrors() && conns == old(conns) - 1
      ensures locks == (if locked && a.delete then old(locks) - {job.account} else old(locks))
      ensures rows == RowsAfter(old(rows), old(tx), job, a.commit)
      ensures status == StatusAfter(old(status), old(tx), job, a.commit)
      ensures world.workers[w].pc == Reporting(old(world).workers[w].pc.err)
    {
      if locked {
        Del(s0, job, a.delete);
      }
      Commit(s0, job, a.commit);
    }

    /** All but the deferred calls.  `open` says that a transaction was opened. */
    method Attempt(ghost s0: State, job: Job, a: Answers) returns (flow: Flow, open: bool, locked: bool)
      requires Under(s0, job) && world == s0 && RowLocks(s0) && world.workers[w].pc == Locking
      modifies this`locks, this`conns, this`tx, this`reader, this`world
      ensures Under(s0, job)
      ensures flow != Proceed && (flow == Wait ==> Blocked())
      ensures flow == Wait ==> !(old(Calm(job)) && old(conns) + (if c.replica then 0 else 1) < c.pool)
      ensures conns == old(conns) + (if open then 1 else 0) && open == (a.lock.Reply? && a.begin && old(conns) < c.pool)
      ensures locked == (a.lock.Reply? && Free(s0.locks, now, job.account))
      ensures locks == (if Free(s0.locks, now, job.account) && a.lock != LockError(false)
                        then s0.locks[job.account := now + TWENTY_SECONDS] else s0.locks)
      ensures flow.Leave? && !open ==>
                && flow.err && world.workers[w].pc == Reporting(true)
                && reader == old(reader) && !(a.lock.Reply? && a.begin)
      ensures flow.Leave? && open ==>
                && flow.err == !Pays(c, rows, s0.locks, now, job, a)
                && Over(job, old(reader), locked, flow.err, Resends(c, rows, s0.locks, now, job, a))
                && (!flow.err ==> tx.aborted == !a.mark
                                  && tx.row == Some(Charge(Found(c, rows, job, a).value, job.amount)))
    {
      flow, locked := Open(s0, job, a);
      open := flow == Proceed;
      if open {
        flow := Body(s0, job, a, locked);
      }
    }

    /** `ProcessPayment`, from the lock to the return. */
    method ProcessPayment(job: Job, a: Answers) returns (flow: Flow)
      requires Mirrors() && RowLocks(world)
      requires world.workers[w].pc == Locking && world.workers[w].job == job && WorkerOk(world.workers[w])
      modifies this`locks, this`rows, this`status, this`tx, this`conns, this`reader, this`world
      ensures OnTrack(old(world)) && Mirrors()
      ensures flow != Proceed && (flow == Wait ==> Blocked() && rows == old(rows) && status == old(status))
      ensures flow == Wait ==> !(old(Calm(job)) && old(conns) + (if c.replica then 0 else 1) < c.pool)
      ensures flow.Leave? ==>
                && world.workers[w].pc == Reporting(flow.err) && conns == old(conns)
                && flow.err == !Pays(c, old(rows), old(locks), now, job, a)
                && reader == (if Resends(c, old(rows), old(locks), now, job, a) then Holding(NextTry(job))
                              else old(reader))
                && locks == LocksAfter(old(locks), now, job, a)
                && Settles(c, old(rows), old(status), old(locks), now, rows, status, job, a)
    {
      ghost var s0 := world;
      Start(c, From(s0));
      var open, locked;
      flow, open, locked := Attempt(s0, job, a);
      if flow == Wait || !open {
        return;
      }
      PendingAtEnd(world.workers[w]);
      CommitSettles(c, rows, status, s0.locks, now, tx, job, a);
      LocksRestored(s0.locks, now + TWENTY_SECONDS, job.account);
      Deferred(s0, job, a, locked);
    }
  }

  // ----- what a call that returns has done -----

  /** The payment goes through: the call returns nil. */
  predicate Pays(
      c: Config, rows: map<AccountId, seq<Row>>, locks: map<AccountId, int>, now: int, job: Job, a: Answers)
  {
    a.lock.Reply? && Free(locks, now, job.account) && a.begin && Charges(c, rows, job, a)
  }

  /** The job is sent to the retry channel. */
  predicate Resends(
      c: Config, rows: map<AccountId, seq<Row>>, locks: map<AccountId, int>, now: int, job: Job, a: Answers)
  {
    a.lock.Reply? && a.begin && (Free(locks, now, job.account) ==> Bounces(c, rows, job, a))
  }

  /** The lock keys after the call: a lock that was won is gone, unless `Begin` or `Del` failed. */
  function LocksAfter(locks: map<AccountId, int>, now: int, job: Job, a: Answers): map<AccountId, int> {
    if !Free(locks, now, job.account) || a.lock == LockError(false) then locks
    else if a.lock.Reply? && a.begin && a.delete then locks - {job.account}
    else locks[job.account := now + TWENTY_SECONDS]
  }

  /** What the call leaves committed: a payment that goes through and whose statements and commit succeed
      debits the row it read and sets the order to success; nothing else debits or sets success. */
  predicate Settles(
      c: Config, rows: map<AccountId, seq<Row>>, status: map<Key, Status>, locks: map<AccountId, int>, now: int,
      newRows: map<AccountId, seq<Row>>, newStatus: map<Key, Status>, job: Job, a: Answers)
  {
    if Pays(c, rows, locks, now, job, a) && a.mark && a.commit then
      && newRows == rows[job.account := rows[job.account] + [Charge(Found(c, rows, job, a).value, job.amount)]]
      && newStatus == (if job.key in status then status[job.key := Success] else status)
    else
      && newRows == rows
      && newStatus.Keys == status.Keys
      && forall k :: k in status && newStatus[k] != status[k] ==>
           k == job.key && newStatus[k] == (if Resends(c, rows, locks, now, job, a) then Retrying else Failed)
  }

  /** The tables after the commit of a transaction. */
  function RowsAfter(rows: map<AccountId, seq<Row>>, tx: Tx, job: Job, ok: bool): map<AccountId, seq<Row>>
    requires tx.Tx?
  {
    if ok && !tx.aborted && tx.row.Some? && job.account in rows
    then rows[job.account := rows[job.account] + [tx.row.value]] else rows
  }

  function StatusAfter(status: map<Key, Status>, tx: Tx, job: Job, ok: bool): map<Key, Status>
    requires tx.Tx?
  {
    if ok && !tx.aborted && tx.status.Some? && job.key in status
    then status[job.key := tx.status.value] else status
  }

  lemma TablesAfter(db: Db, job: Job, tx: Tx, ok: bool)
    requires tx.Tx?
    ensures var after := if ok && !tx.aborted then ApplyTx(db, job, tx) else db;
            after.rows == RowsAfter(db.rows, tx, job, ok) && after.status == StatusAfter(db.status, tx, job, ok)
  {
  }

  /** What is pending when the statements are over. */
  lemma PendingAtEnd(wk: Worker)
    requires WorkerOk(wk) && (wk.pc.Unlocking? || wk.pc.Committing?)
    ensures wk.tx.Tx? && wk.tx.status == (if wk.tx.aborted then None else Some(StatusOf(wk.pc.err, wk.sent)))
    ensures wk.tx.row.Some? == !wk.pc.err
  {
  }

  function StatusOf(err: bool, resend: bool): Status {
    if !err then Success else if resend then Retrying else Failed
  }

  /** The commit settles what the statements left pending. */
  lemma CommitSettles(
      c: Config, rows: map<AccountId, seq<Row>>, status: map<Key, Status>, locks: map<AccountId, int>, now: int,
      tx: Tx, job: Job, a: Answers)
    requires a.lock.Reply? && a.begin && tx.Tx?
    requires var paid := Pays(c, rows, locks, now, job, a); var resend := Resends(c, rows, locks, now, job, a);
             && tx.status == (if tx.aborted then None else Some(StatusOf(!paid, resend)))
             && tx.row.Some? == paid
             && (paid ==> tx.aborted == !a.mark && tx.row.value == Charge(Found(c, rows, job, a).value, job.amount))
    ensures Settles(c, rows, status, locks, now,
                    RowsAfter(rows, tx, job, a.commit), StatusAfter(status, tx, job, a.commit), job, a)
  {
  }

  lemma LocksRestored(locks: map<AccountId, int>, until: int, a: AccountId)
    ensures locks[a := until] - {a} == locks - {a}
  {
  }

  lemma KeepsJob(c: Config, s: State, w: nat, a: Action)
    requires w < |s.workers| && CanAct(c, s, w, a)
    ensures NextWorker(c, s, w, a).job == s.workers[w].job
  {
  }
}
