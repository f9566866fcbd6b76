/** The payment worker as a transition system: the two Kafka readers with their semaphores, the goroutines
    running `ProcessPayment`, the unbuffered retry channel and its reader, the Redis account lock, the
    Postgres transactions with their row locks, and the writer connection pool.  The context is live. */
module Pipeline {
  import opened Jobs
  import Backoff

  /** The expiry given to the account lock: 20 seconds. */
  const LOCK_TTL: int := 20_000_000_000

  datatype Config = Config(
    orderCap: nat,      // MAX_ORDERS_PLACED_CONCURRENT_JOBS
    retryCap: nat,      // MAX_ORDERS_RETRY_CONCURRENT_JOBS
    pool: nat,          // MAX_DB_CONNECTIONS
    maxRetry: nat,      // MAX_RETRY_COUNT
    base: int,          // RETRY_BASE_BACKOFF
    maxBackoff: int,    // MAX_RETRY_BACKOFF
    replica: bool)      // a read replica is configured; otherwise reads use the writer pool

  /** What the configuration loader validates, and a base for which the backoff cannot panic. */
  predicate ValidConfig(c: Config) {
    && 1 <= c.orderCap && 1 <= c.retryCap && 1 <= c.pool
    && 1 <= c.maxRetry <= 5
    && Backoff.InRange(c.maxRetry, c.base)
  }

  datatype Status = Pending | Success | Retrying | Failed

  /** The columns of an account that a payment writes. */
  datatype Row = Row(balance: int, count: nat)

  /** A worker's database transaction: pending writes, and whether a failed statement has aborted it. */
  datatype Tx = NoTx | Tx(aborted: bool, status: Option<Status>, row: Option<Row>)

  datatype Source = Orders | Retries

  datatype After = ThenOffer | ThenReturn(err: bool)

  /** Where a goroutine stands between taking its semaphore slot and giving it back. */
  datatype Pc =
    | Received
    | Overdue
    | Sleeping
    | Locking
    | Opening
    | Decrypting
    | Checking
    | Screening
    | Settling
    | Debiting
    | Marking(status: Status, after: After)
    | Offering(late: bool)
    | Unlocking(err: bool)
    | Committing(err: bool)
    | Reporting(err: bool)
    | Finished(failed: bool)

  /** `lock` is the time at which the account lock was won, while the worker still owes its release;
      `seen` is the account row the balance check accepted; `sent` says the job went to the retry channel. */
  datatype Worker = Worker(
    source: Source, job: Job, pc: Pc, lock: Option<int>, tx: Tx, seen: Option<Row>, sent: bool)

  /** The goroutine that reads the retry channel. */
  datatype Handler = Idle | Holding(job: Job) | Updating(job: Job)

  /** What ProcessPayment starts, and what commits in the database, in order. */
  datatype Event =
    | Attempted(key: Key)
    | Debited(key: Key, account: AccountId, amount: int)
    | StatusSet(key: Key, status: Status)

  /** Kafka topics that are not yet read, and the message each reader holds while it waits for a slot. */
  datatype Queues = Queues(orders: seq<Job>, fetchedOrder: Option<Job>, retries: seq<Job>, fetchedRetry: Option<Job>)

  /** Semaphore slots and writer connections taken. */
  datatype Usage = Usage(orderSem: int, retrySem: int, conns: int)

  /** Committed versions of each account row, oldest first; committed status of each order row. */
  datatype Db = Db(rows: map<AccountId, seq<Row>>, status: map<Key, Status>, history: seq<Event>)

  datatype DeadLetters = DeadLetters(orders: seq<Job>, retries: seq<Job>)

  /** `locks` gives the expiry time of each Redis lock key. */
  datatype State = State(
    now: int,
    queues: Queues,
    usage: Usage,
    workers: seq<Worker>,
    handler: Handler,
    locks: map<AccountId, int>,
    db: Db,
    dead: DeadLetters)

  /** Answers of the world to one action of a worker. */
  datatype Verdict = Clean | Unavailable | Suspicious
  datatype Settlement = Settled | Retryable | Declined
  datatype DebitOutcome = DebitDone | CryptoFault | SqlFault

  datatype Action =
    | Reject                    // undecodable or invalid message
    | Admit
    | GiveUp(ok: bool)          // the retry consumer's own limit check fired
    | Wake
    | TakeLock
    | LockFault(applied: bool)  // SetNX returned an error, with or without having set the key
    | OpenTx
    | OpenFault
    | Decrypt(ok: bool)
    | ReadRow(version: nat)
    | ReadFault
    | Screen(verdict: Verdict, cached: bool)   // `cached`: the average amount came from Redis
    | Settle(result: Settlement)
    | Debit(outcome: DebitOutcome)
    | Mark(ok: bool)
    | Offer
    | Unlock(ok: bool)
    | Close(applied: bool)
    | Report

  datatype Step =
    | Tick(d: int)
    | FetchOrder(i: nat)
    | SpawnOrder
    | FetchRetry(i: nat)
    | SpawnRetry
    | Work(w: nat, a: Action)
    | Publish(draw: int, ok: bool)
    | HandlerConnect
    | HandlerFail(ok: bool)
    | HandlerFault              // no connection could be had for the final status

  // ----- reading the state -----

  predicate LockFree(s: State, a: AccountId) {
    a in s.locks ==> s.locks[a] <= s.now
  }

  /** The account row as the primary holds it. */
  function Current(s: State, a: AccountId): Row
    requires a in s.db.rows && s.db.rows[a] != []
  {
    s.db.rows[a][|s.db.rows[a]| - 1]
  }

  predicate HasRow(s: State, a: AccountId) {
    a in s.db.rows && s.db.rows[a] != []
  }

  /** The row a successful payment writes over the row it read. */
  function Charge(seen: Row, amount: int): Row {
    Row(seen.balance - amount, seen.count + 1)
  }

  /** An open transaction keeps the lock of each row it has updated. */
  predicate LocksOrder(s: State, wk: Worker, k: Key) {
    wk.tx.Tx? && wk.tx.status.Some? && wk.job.key == k && k in s.db.status
  }

  predicate LocksAccount(wk: Worker, a: AccountId) {
    wk.tx.Tx? && wk.tx.row.Some? && wk.job.account == a
  }

  predicate OrderRowFree(s: State, w: nat, k: Key) {
    forall v :: 0 <= v < |s.workers| && v != w ==> !LocksOrder(s, s.workers[v], k)
  }

  predicate AccountRowFree(s: State, w: nat, a: AccountId) {
    forall v :: 0 <= v < |s.workers| && v != w ==> !LocksAccount(s.workers[v], a)
  }

  predicate ConnFree(c: Config, s: State) {
    s.usage.conns < c.pool
  }

  /** Reads go to the replica pool, or need one more connection of the writer pool. */
  predicate ReaderFree(c: Config, s: State) {
    c.replica || ConnFree(c, s)
  }

  // ----- one goroutine -----

  /** Whether worker `w` can take action `a` with the answer that `a` carries. */
  predicate CanAct(c: Config, s: State, w: nat, a: Action)
    requires w < |s.workers|
  {
    var wk := s.workers[w];
    match a
    case Reject => wk.pc == Received && !wk.job.wellFormed
    case Admit => wk.pc == Received && wk.job.wellFormed
    case GiveUp(ok) => wk.pc == Overdue && (ok ==> ConnFree(c, s) && OrderRowFree(s, w, wk.job.key))
    case Wake => wk.pc == Sleeping && wk.job.notBefore <= s.now
    case TakeLock => wk.pc == Locking
    case LockFault(applied) => wk.pc == Locking && (applied ==> LockFree(s, wk.job.account))
    case OpenTx => wk.pc == Opening && ConnFree(c, s)
    case OpenFault => wk.pc == Opening
    case Decrypt(_) => wk.pc == Decrypting
    case ReadRow(version) =>
      && wk.pc == Checking && ReaderFree(c, s)
      && HasRow(s, wk.job.account)
      && version < |s.db.rows[wk.job.account]|
      && (!c.replica ==> version == |s.db.rows[wk.job.account]| - 1)
    case ReadFault => wk.pc == Checking
    case Screen(_, cached) => wk.pc == Screening && (cached || ReaderFree(c, s))
    case Settle(_) => wk.pc == Settling
    case Debit(outcome) =>
      && wk.pc == Debiting && wk.tx.Tx?
      && (outcome == DebitDone ==> !wk.tx.aborted && AccountRowFree(s, w, wk.job.account))
    case Mark(ok) =>
      && wk.pc.Marking? && wk.tx.Tx?
      && (ok ==> !wk.tx.aborted && OrderRowFree(s, w, wk.job.key))
    case Offer => wk.pc.Offering? && s.handler == Idle
    case Unlock(_) => wk.pc.Unlocking?
    case Close(applied) => wk.pc.Committing? && wk.tx.Tx? && (applied ==> !wk.tx.aborted)
    case Report => wk.pc.Reporting?
  }

  /** Returning from ProcessPayment: the deferred calls run last in, first out, so the lock is deleted
      before the transaction is committed. */
  function Return(wk: Worker, err: bool): Pc {
    if wk.lock.Some? then Unlocking(err) else Committing(err)
  }

  /** The control flow of one goroutine. */
  function NextWorker(c: Config, s: State, w: nat, a: Action): Worker
    requires w < |s.workers| && CanAct(c, s, w, a)
  {
    var wk := s.workers[w];
    match a
    case Reject => wk.(pc := Finished(true))
    case Admit =>
      if wk.source == Orders then wk.(pc := Locking)
      else if wk.job.retryCount > c.maxRetry then wk.(pc := Overdue)
      else wk.(pc := Sleeping)
    case GiveUp(_) => wk.(pc := Finished(true))
    case Wake => wk.(pc := Locking)
    case TakeLock =>
      wk.(pc := Opening, lock := if LockFree(s, wk.job.account) then Some(s.now) else None)
    case LockFault(_) => wk.(pc := Reporting(true))
    case OpenTx =>
      var open := wk.(tx := Tx(false, None, None));
      if wk.lock.Some? then open.(pc := Decrypting) else open.(pc := Marking(Retrying, ThenOffer))
    case OpenFault => wk.(pc := Reporting(true), lock := None)
    case Decrypt(ok) => wk.(pc := if ok then Checking else Marking(Failed, ThenReturn(true)))
    case ReadRow(version) =>
      var row := s.db.rows[wk.job.account][version];
      if row.balance - wk.job.amount < 0 then wk.(pc := Marking(Failed, ThenReturn(true)))
      else wk.(pc := Screening, seen := Some(row))
    case ReadFault => wk.(pc := Marking(Failed, ThenReturn(true)))
    case Screen(verdict, _) =>
      (match verdict
       case Clean => wk.(pc := Settling)
       case Unavailable => wk.(pc := Marking(Retrying, ThenOffer))
       case Suspicious => wk.(pc := Marking(Failed, ThenReturn(true))))
    case Settle(result) =>
      (match result
       case Settled => wk.(pc := Debiting)
       case Retryable => wk.(pc := Offering(true))
       case Declined => wk.(pc := Marking(Failed, ThenReturn(true))))
    case Debit(outcome) =>
      (match outcome
       case DebitDone =>
         wk.(pc := Marking(Success, ThenReturn(false)),
             tx := wk.tx.(row := if wk.seen.Some? then Some(Charge(wk.seen.value, wk.job.amount)) else None))
       case CryptoFault => wk.(pc := Marking(Failed, ThenReturn(true)))
       case SqlFault => wk.(pc := Marking(Failed, ThenReturn(true)), tx := wk.tx.(aborted := true)))
    case Mark(ok) =>
      var marked := if ok then wk.(tx := wk.tx.(status := Some(wk.pc.status)))
                    else wk.(tx := wk.tx.(aborted := true));
      (match wk.pc.after
       case ThenOffer => marked.(pc := Offering(false))
       case ThenReturn(err) => marked.(pc := Return(wk, err)))
    case Offer =>
      wk.(sent := true, pc := if wk.pc.late then Marking(Retrying, ThenReturn(true)) else Return(wk, true))
    case Unlock(_) => wk.(pc := Committing(wk.pc.err), lock := None)
    case Close(_) => wk.(pc := Reporting(wk.pc.err), tx := NoTx)
    case Report => wk.(pc := Finished(wk.pc.err))
  }

  /** Giving back the semaphore slot. */
  function ReleaseSlot(u: Usage, source: Source): Usage {
    if source == Orders then u.(orderSem := u.orderSem - 1) else u.(retrySem := u.retrySem - 1)
  }

  function SetStatus(db: Db, k: Key, st: Status): Db {
    if k in db.status then db.(status := db.status[k := st], history := db.history + [StatusSet(k, st)]) else db
  }

  function AddRow(db: Db, job: Job, row: Row): Db {
    if job.account in db.rows then
      db.(rows := db.rows[job.account := db.rows[job.account] + [row]],
          history := db.history + [Debited(job.key, job.account, job.amount)])
    else db
  }

  /** Making the pending writes of a transaction visible. */
  function ApplyTx(db: Db, job: Job, tx: Tx): Db
    requires tx.Tx?
  {
    var debited := if tx.row.Some? then AddRow(db, job, tx.row.value) else db;
    if tx.status.Some? then SetStatus(debited, job.key, tx.status.value) else debited
  }

  function DeadLetter(dead: DeadLetters, source: Source, job: Job): DeadLetters {
    if source == Orders then dead.(orders := dead.orders + [job]) else dead.(retries := dead.retries + [job])
  }

  /** What one action changes in Redis. */
  function NextLocks(s: State, wk: Worker, a: Action): map<AccountId, int> {
    match a
    case TakeLock =>
      if LockFree(s, wk.job.account) then s.locks[wk.job.account := s.now + LOCK_TTL] else s.locks
    case LockFault(applied) =>
      if applied then s.locks[wk.job.account := s.now + LOCK_TTL] else s.locks
    case Unlock(ok) => if ok then s.locks - {wk.job.account} else s.locks
    case _ => s.locks
  }

  /** What one action commits in Postgres; the start of an attempt is recorded in the history too. */
  function NextDb(s: State, wk: Worker, a: Action): Db {
    match a
    case GiveUp(ok) => if ok then SetStatus(s.db, wk.job.key, Failed) else s.db
    case TakeLock => s.db.(history := s.db.history + [Attempted(wk.job.key)])
    case LockFault(_) => s.db.(history := s.db.history + [Attempted(wk.job.key)])
    case Close(applied) => if applied && wk.tx.Tx? then ApplyTx(s.db, wk.job, wk.tx) else s.db
    case _ => s.db
  }

  function NextUsage(s: State, wk: Worker, a: Action): Usage {
    match a
    case Reject => ReleaseSlot(s.usage, wk.source)
    case GiveUp(_) => ReleaseSlot(s.usage, wk.source)
    case OpenTx => s.usage.(conns := s.usage.conns + 1)
    case Close(_) => s.usage.(conns := s.usage.conns - 1)
    case Report => ReleaseSlot(s.usage, wk.source)
    case _ => s.usage
  }

  /** Dead-letter hand-offs; the order consumer and the retry consumer have a topic each. */
  function NextDead(s: State, wk: Worker, a: Action): DeadLetters {
    match a
    case Reject => DeadLetter(s.dead, wk.source, wk.job)
    case GiveUp(_) => DeadLetter(s.dead, Retries, wk.job)
    case Report => if wk.pc.Reporting? && wk.pc.err then DeadLetter(s.dead, wk.source, wk.job) else s.dead
    case _ => s.dead
  }

  /** The copy of a job that the channel reader works on. */
  function NextTry(job: Job): Job {
    job.(retryCount := job.retryCount + 1)
  }

  function NextHandler(s: State, wk: Worker, a: Action): Handler {
    if a == Offer then Holding(NextTry(wk.job)) else s.handler
  }

  // ----- the whole system -----

  function NewWorker(source: Source, job: Job): Worker {
    Worker(source, job, Received, None, NoTx, None, false)
  }

  predicate Enabled(c: Config, s: State, step: Step) {
    match step
    case Tick(d) => d > 0
    case FetchOrder(i) => s.queues.fetchedOrder.None? && i < |s.queues.orders|
    case SpawnOrder => s.queues.fetchedOrder.Some? && s.usage.orderSem < c.orderCap
    case FetchRetry(i) => s.queues.fetchedRetry.None? && i < |s.queues.retries|
    case SpawnRetry => s.queues.fetchedRetry.Some? && s.usage.retrySem < c.retryCap
    case Work(w, a) => w < |s.workers| && CanAct(c, s, w, a)
    case Publish(draw, ok) =>
      && s.handler.Holding? && s.handler.job.retryCount <= c.maxRetry
      && 1 <= s.handler.job.retryCount <= 63
      && (ok ==> Backoff.IsDraw(s.handler.job.retryCount, c.base, draw))
    case HandlerConnect => s.handler.Holding? && s.handler.job.retryCount > c.maxRetry && ConnFree(c, s)
    case HandlerFault => s.handler.Holding? && s.handler.job.retryCount > c.maxRetry
    case HandlerFail(ok) => s.handler.Updating? && (ok ==> OrderRowFree(s, |s.workers|, s.handler.job.key))
  }

  /** The backoff of a republished job. */
  function Delayed(c: Config, s: State, job: Job, draw: int): Job
    requires job.retryCount <= 63
  {
    match Backoff.Calculate(job.retryCount, c.base, c.maxBackoff, draw)
    case Delay(ns) => job.(notBefore := s.now + ns)
    case Panic => job
  }

  function Without<T>(xs: seq<T>, i: nat): seq<T>
    requires i < |xs|
  {
    xs[..i] + xs[i + 1..]
  }

  function Apply(c: Config, s: State, step: Step): State
    requires Enabled(c, s, step)
  {
    match step
    case Tick(d) => s.(now := s.now + d)
    case FetchOrder(i) =>
      s.(queues := s.queues.(orders := Without(s.queues.orders, i), fetchedOrder := Some(s.queues.orders[i])))
    case SpawnOrder =>
      s.(queues := s.queues.(fetchedOrder := None), usage := s.usage.(orderSem := s.usage.orderSem + 1),
         workers := s.workers + [NewWorker(Orders, s.queues.fetchedOrder.value)])
    case FetchRetry(i) =>
      s.(queues := s.queues.(retries := Without(s.queues.retries, i), fetchedRetry := Some(s.queues.retries[i])))
    case SpawnRetry =>
      s.(queues := s.queues.(fetchedRetry := None), usage := s.usage.(retrySem := s.usage.retrySem + 1),
         workers := s.workers + [NewWorker(Retries, s.queues.fetchedRetry.value)])
    case Work(w, a) =>
      var wk := s.workers[w];
      State(s.now, s.queues, NextUsage(s, wk, a), s.workers[w := NextWorker(c, s, w, a)],
            NextHandler(s, wk, a), NextLocks(s, wk, a), NextDb(s, wk, a), NextDead(s, wk, a))
    case Publish(draw, ok) =>
      if ok then
        s.(handler := Idle,
           queues := s.queues.(retries := s.queues.retries + [Delayed(c, s, s.handler.job, draw)]))
      else s.(handler := Idle)
    case HandlerConnect =>
      s.(handler := Updating(s.handler.job), usage := s.usage.(conns := s.usage.conns + 1))
    case HandlerFault => s.(handler := Idle, dead := DeadLetter(s.dead, Retries, s.handler.job))
    case HandlerFail(ok) =>
      s.(handler := Idle, usage := s.usage.(conns := s.usage.conns - 1),
         db := if ok then SetStatus(s.db, s.handler.job.key, Failed) else s.db,
         dead := DeadLetter(s.dead, Retries, s.handler.job))
  }

  /** A fresh process: nothing in flight, no lock taken, an empty retry topic. */
  predicate Initial(s: State) {
    && s.queues.fetchedOrder.None? && s.queues.fetchedRetry.None? && s.queues.retries == []
    && s.usage == Usage(0, 0, 0)
    && s.workers == [] && s.handler == Idle && s.locks == map[]
    && (forall a :: a in s.db.rows ==> s.db.rows[a] != [])
    && s.db.history == [] && s.dead == DeadLetters([], [])
  }

  // ----- runs -----

  predicate ValidRun(c: Config, s: State, steps: seq<Step>)
    decreases |steps|
  {
    steps == [] || (Enabled(c, s, steps[0]) && ValidRun(c, Apply(c, s, steps[0]), steps[1..]))
  }

  function End(c: Config, s: State, steps: seq<Step>): State
    requires ValidRun(c, s, steps)
    decreases |steps|
  {
    if steps == [] then s else End(c, Apply(c, s, steps[0]), steps[1..])
  }

  /** `h` holds at every step of the run, in the state the step is taken from. */
  ghost predicate Throughout(c: Config, s: State, steps: seq<Step>, h: (State, Step) -> bool)
    requires ValidRun(c, s, steps)
    decreases |steps|
  {
    steps == [] || (h(s, steps[0]) && Throughout(c, Apply(c, s, steps[0]), steps[1..], h))
  }
}
