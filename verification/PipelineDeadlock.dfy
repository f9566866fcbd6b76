/** What deadlock freedom needs, exactly: with any pool no larger than both semaphores together there is a run
    of distinct, fresh orders into deadlock, and with any pool a run of one order delivered twice. */
module PipelineDeadlock {
  import opened Jobs
  import opened Pipeline
  import opened PipelineControl
  import opened PipelineHistory
  import opened PipelineCopies
  import opened PipelineProgress
  import opened PipelineRuns
  import opened PipelineLapses

  /** All orders are of 60 from account 7, which holds 100; they differ in their keys. */
  const LEDGER: map<AccountId, seq<Row>> := map[7 := [Row(100, 0)]]

  predicate IsJob(j: Job, k: Key, count: nat) {
    j.key == k && j.account == 7 && j.amount == 60 && j.retryCount == count && j.wellFormed
  }

  /** Jobs of that kind with the keys from `k` on. */
  predicate Numbered(js: seq<Job>, k: Key, count: nat) {
    forall i :: 0 <= i < |js| ==> IsJob(js[i], k + i, count)
  }

  function Placed(n: nat): seq<Job> {
    seq(n, i requires 0 <= i < n => Job(i, 7, 60, 0, 0, true))
  }

  function KeysOf(js: seq<Job>): set<Key> {
    set j | j in js :: j.key
  }

  /** A fresh process over the given orders, all of them pending. */
  function FreshState(orders: seq<Job>): State {
    State(0, Queues(orders, None, [], None), Usage(0, 0, 0), [], Idle, map[],
          Db(LEDGER, map k | k in KeysOf(orders) :: Pending, []), DeadLetters([], []))
  }

  function FreshOrders(n: nat): State {
    FreshState(Placed(n))
  }

  /** A transaction and a read can be open at once. */
  predicate Wide(c: Config) {
    c.replica || c.pool >= 2
  }

  predicate Gone(wk: Worker) {
    wk.pc.Finished? && wk.tx.NoTx?
  }

  predicate AtStart(wk: Worker) {
    wk.pc == Locking && wk.lock.None? && wk.tx.NoTx? && wk.seen.None? && !wk.sent
    && wk.job.account == 7 && wk.job.amount == 60 && wk.job.wellFormed
  }

  // ----- rounds through the channel reader, one at a time -----

  /** Nothing is in flight but what is queued or with the channel reader. */
  ghost predicate Rested(s: State) {
    && s.queues.fetchedOrder.None? && s.queues.fetchedRetry.None? && s.usage == Usage(0, 0, 0)
    && (forall w :: 0 <= w < |s.workers| ==> Gone(s.workers[w]))
    && LockFree(s, 7) && s.db.rows == LEDGER
  }

  /** Worker `w` is about to take the lock, and everybody else is done. */
  ghost predicate Alert(s: State, w: nat) {
    && w < |s.workers| && AtStart(s.workers[w])
    && (forall v :: 0 <= v < |s.workers| && v != w ==> Gone(s.workers[v]))
    && LockFree(s, 7) && s.db.rows == LEDGER && s.usage.conns == 0
    && s.queues.fetchedOrder.None? && s.queues.fetchedRetry.None?
  }

  /** The attempt of a worker that the fraud service could not judge: it ends with the channel reader. */
  lemma Attempt(c: Config, s0: State, s: State, w: nat) returns (t: State)
    requires Wide(c) && c.pool >= 1 && Path(c, From(s0), s) && Alert(s, w) && s.handler == Idle
    requires ReleaseSlot(s.usage, s.workers[w].source) == Usage(0, 0, 0)
    ensures Path(c, From(s0), t) && Rested(t)
    ensures t.queues == s.queues && t.now == s.now && t.handler == Holding(NextTry(s.workers[w].job))
  {
    Enter(c, From(s0), s, w, 0);
    var s1 := Inside(s, w, 0);
    Bounce(c, From(s0), s1, w);
    var s2 := Bounced(s1, w);
    Hand(c, s0, s2, w);
    var s3 := Offered(s2, w);
    assert s3.workers == s.workers[w := s3.workers[w]];
    t := GoHome(c, s0, s3, w);
  }

  /** The deferred calls, the dead letter, and the slot. */
  lemma GoHome(c: Config, s0: State, s: State, w: nat) returns (t: State)
    requires Path(c, From(s0), s) && w < |s.workers| && s.workers[w].pc == Unlocking(true)
    requires s.workers[w].tx == Tx(false, Some(Retrying), None) && s.workers[w].job.account == 7
    requires ReleaseSlot(s.usage, s.workers[w].source) == Usage(0, 0, 1) && s.db.rows == LEDGER
    requires forall v :: 0 <= v < |s.workers| && v != w ==> Gone(s.workers[v])
    requires s.queues.fetchedOrder.None? && s.queues.fetchedRetry.None?
    ensures Path(c, From(s0), t) && Rested(t)
    ensures t.queues == s.queues && t.now == s.now && t.handler == s.handler
  {
    Release(c, From(s0), s, w);
    var s1 := Released(s, w);
    Commit(c, From(s0), s1, w);
    t := SlotReturned(c, s0, Committed(s1, w), w);
  }

  lemma SlotReturned(c: Config, s0: State, s: State, w: nat) returns (t: State)
    requires Path(c, From(s0), s) && w < |s.workers| && s.workers[w].pc == Reporting(true)
    ensures Path(c, From(s0), t)
    ensures t == s.(workers := s.workers[w := s.workers[w].(pc := Finished(true))], dead := t.dead,
                    usage := ReleaseSlot(s.usage, s.workers[w].source))
  {
    Go(c, From(s0), s, Work(w, Report));
    t := Apply(c, s, Work(w, Report));
  }

  /** The channel reader publishes the job it holds. */
  lemma Republish(c: Config, s0: State, s: State) returns (t: State, j: Job)
    requires ValidConfig(c) && Path(c, From(s0), s) && Rested(s)
    requires s.handler.Holding? && 1 <= s.handler.job.retryCount <= c.maxRetry
    ensures Path(c, From(s0), t) && Rested(t) && t.handler == Idle
    ensures t.queues == s.queues.(retries := s.queues.retries + [j])
    ensures j == s.handler.job.(notBefore := j.notBefore)
  {
    DrawExists(s.handler.job.retryCount, c.maxRetry, c.base);
    Go(c, From(s0), s, Publish(0, true));
    j := Delayed(c, s, s.handler.job, 0);
    t := Apply(c, s, Publish(0, true));
  }

  predicate AllDue(s: State) {
    forall i :: 0 <= i < |s.queues.retries| ==> s.queues.retries[i].notBefore <= s.now
  }

  lemma {:induction false} Latest(js: seq<Job>) returns (d: int)
    ensures d > 0 && forall i :: 0 <= i < |js| ==> js[i].notBefore <= d
  {
    d := 1;
    if js != [] {
      var n := |js| - 1;
      d := Latest(js[..n]);
      assert forall i :: 0 <= i < n ==> js[..n][i] == js[i];
      d := if js[n].notBefore > d then js[n].notBefore else d;
    }
  }

  /** Every backoff passes. */
  lemma Wait(c: Config, s0: State, s: State) returns (t: State)
    requires Path(c, From(s0), s) && Rested(s)
    ensures Path(c, From(s0), t) && Rested(t) && AllDue(t)
    ensures t.queues == s.queues && t.handler == s.handler
  {
    var d := Latest(s.queues.retries);
    var pause := if d > s.now then d - s.now else 1;
    Go(c, From(s0), s, Tick(pause));
    t := Apply(c, s, Tick(pause));
  }

  /** The retry consumer starts on a due message. */
  lemma Resume(c: Config, s0: State, s: State, i: nat, k: Key, count: nat) returns (t: State)
    requires Path(c, From(s0), s) && s.queues.fetchedRetry.None? && s.usage.retrySem < c.retryCap
    requires i < |s.queues.retries| && IsJob(s.queues.retries[i], k, count) && count <= c.maxRetry
    requires s.queues.retries[i].notBefore <= s.now
    ensures Path(c, From(s0), t)
    ensures var wk := NewWorker(Retries, s.queues.retries[i]).(pc := Locking);
            t == s.(queues := s.queues.(retries := Without(s.queues.retries, i)),
                    usage := s.usage.(retrySem := s.usage.retrySem + 1), workers := s.workers + [wk])
  {
    var w, wk := |s.workers|, NewWorker(Retries, s.queues.retries[i]);
    Go(c, From(s0), s, FetchRetry(i));
    var s1 := Apply(c, s, FetchRetry(i));
    Go(c, From(s0), s1, SpawnRetry);
    var s2 := Apply(c, s1, SpawnRetry);
    Alone(c, From(s0), s2, w, Admit, wk.(pc := Sleeping));
    var s3 := Put(s2, w, wk.(pc := Sleeping));
    Alone(c, From(s0), s3, w, Wake, wk.(pc := Locking));
    t := Put(s3, w, wk.(pc := Locking));
  }

  /** The order consumer starts on the next message. */
  lemma Begin(c: Config, s0: State, s: State, k: Key) returns (t: State)
    requires Path(c, From(s0), s) && s.queues.fetchedOrder.None? && s.usage.orderSem < c.orderCap
    requires s.queues.orders != [] && IsJob(s.queues.orders[0], k, 0)
    ensures Path(c, From(s0), t)
    ensures var wk := NewWorker(Orders, s.queues.orders[0]).(pc := Locking);
            t == s.(queues := s.queues.(orders := s.queues.orders[1..]),
                    usage := s.usage.(orderSem := s.usage.orderSem + 1), workers := s.workers + [wk])
  {
    Spawn(c, From(s0), s);
    t := Spawned(s);
  }

  /** The first `n` orders go round once and wait in the retry topic. */
  lemma {:induction false} Park(c: Config, s0: State, s: State, n: nat, k: Key) returns (t: State, parked: seq<Job>)
    requires ValidConfig(c) && Wide(c) && Path(c, From(s0), s) && Rested(s) && s.handler == Idle
    requires n <= |s.queues.orders| && Numbered(s.queues.orders, k, 0)
    ensures Path(c, From(s0), t) && Rested(t) && t.handler == Idle
    ensures t.queues.orders == s.queues.orders[n..] && t.queues.retries == s.queues.retries + parked
    ensures |parked| == n && Numbered(parked, k, 1)
    decreases n
  {
    if n == 0 {
      t, parked := s, [];
    } else {
      var s1 := Begin(c, s0, s, k);
      var s2 := Attempt(c, s0, s1, |s.workers|);
      var s3, j := Republish(c, s0, s2);
      NumberedTail(s.queues.orders, k, 0);
      var more;
      t, more := Park(c, s0, s3, n - 1, k + 1);
      parked := [j] + more;
    }
  }

  lemma NumberedTail(js: seq<Job>, k: Key, count: nat)
    requires js != [] && Numbered(js, k, count)
    ensures Numbered(js[1..], k + 1, count)
  {
    forall i | 0 <= i < |js[1..]|
      ensures IsJob(js[1..][i], k + 1 + i, count)
    {
      assert IsJob(js[i + 1], k + (i + 1), count);
    }
  }

  /** The job with the channel reader goes round until it has no retry left. */
  lemma {:induction false} Exhaust(c: Config, s0: State, s: State) returns (t: State)
    requires ValidConfig(c) && Wide(c) && Path(c, From(s0), s) && Rested(s) && s.handler.Holding?
    requires IsJob(s.handler.job, s.handler.job.key, s.handler.job.retryCount)
    requires 1 <= s.handler.job.retryCount <= c.maxRetry + 1
    ensures Path(c, From(s0), t) && Rested(t) && t.queues == s.queues
    ensures t.handler.Holding? && t.handler.job.retryCount == c.maxRetry + 1 && t.handler.job.key == s.handler.job.key
    decreases c.maxRetry + 1 - s.handler.job.retryCount
  {
    if s.handler.job.retryCount == c.maxRetry + 1 {
      t := s;
    } else {
      var m := |s.queues.retries|;
      var s1, j := Republish(c, s0, s);
      var s2 := Wait(c, s0, s1);
      var s3 := Resume(c, s0, s2, m, j.key, j.retryCount);
      assert Without(s.queues.retries + [j], m) == s.queues.retries;
      var s4 := Attempt(c, s0, s3, |s2.workers|);
      t := Exhaust(c, s0, s4);
    }
  }

  // ----- everybody waits for the channel reader -----

  /** No faultless step is possible, now or later, although work is left. */
  ghost predicate Stuck(c: Config, s: State) {
    Busy(s) && forall d, step :: !CanMove(c, s, d, step)
  }

  /** Every goroutine waits for the channel reader, which waits for a row or for a connection. */
  lemma EverybodyWaits(c: Config, s: State)
    requires s.queues == Queues([], None, [], None)
    requires forall w :: 0 <= w < |s.workers| ==> s.workers[w].pc.Finished? || s.workers[w].pc.Offering?
    requires || (s.handler.Updating?
                 && exists v :: 0 <= v < |s.workers| && LocksOrder(s, s.workers[v], s.handler.job.key))
             || (s.handler.Holding? && s.handler.job.retryCount > c.maxRetry && !ConnFree(c, s))
    ensures Stuck(c, s)
  {
    forall d, step
      ensures !CanMove(c, s, d, step)
    {
      var t := s.(now := s.now + d);
      assert forall v :: 0 <= v < |s.workers| ==>
          LocksOrder(t, t.workers[v], t.workers[v].job.key) == LocksOrder(s, s.workers[v], s.workers[v].job.key);
      match step
      case Work(w, a) =>
      case _ =>
    }
  }

  /** `o` order workers and `r` retry workers, all with keys below `next`, wait for the channel reader with a
      connection each, and the lock of the account is taken. */
  ghost predicate Jammed(c: Config, s: State, o: nat, r: nat, next: Key) {
    && s.queues.fetchedOrder.None? && s.queues.fetchedRetry.None? && s.usage == Usage(o, r, o + r)
    && s.handler.Holding? && s.handler.job.retryCount == c.maxRetry + 1
    && (forall w :: 0 <= w < |s.workers| ==> Gone(s.workers[w]) || Blocked(s.workers[w], next))
    && s.db.rows == LEDGER
    && (if o + r == 0 then LockFree(s, 7) else !LockFree(s, 7))
  }

  predicate Blocked(wk: Worker, next: Key) {
    wk.pc == Offering(false) && wk.tx.Tx? && wk.tx.row.None? && wk.job.key < next
  }

  /** One more worker, with key `k`, runs to the channel. */
  lemma Join(c: Config, s0: State, s: State, w: nat, k: Key, n: nat) returns (t: State)
    requires Wide(c) && Path(c, From(s0), s) && w < |s.workers| && AtStart(s.workers[w]) && s.workers[w].job.key == k
    requires forall v :: 0 <= v < |s.workers| && v != w ==> Gone(s.workers[v]) || Blocked(s.workers[v], k)
    requires s.db.rows == LEDGER && s.usage.conns == n < c.pool
    requires if n == 0 then LockFree(s, 7) else !LockFree(s, 7)
    ensures Path(c, From(s0), t) && !LockFree(t, 7)
    ensures t.queues == s.queues && t.handler == s.handler && t.db.rows == LEDGER && t.now == s.now
    ensures t.usage == s.usage.(conns := n + 1)
    ensures |t.workers| == |s.workers| && Blocked(t.workers[w], k + 1)
    ensures forall v :: 0 <= v < |s.workers| && v != w ==> t.workers[v] == s.workers[v]
  {
    if n == 0 {
      Enter(c, From(s0), s, w, 0);
      Bounce(c, From(s0), Inside(s, w, 0), w);
      t := Bounced(Inside(s, w, 0), w);
    } else {
      t := JoinLocked(c, s0, s, w);
    }
  }

  /** The account is locked by somebody else: the status is written and the job offered. */
  lemma JoinLocked(c: Config, s0: State, s: State, w: nat) returns (t: State)
    requires Path(c, From(s0), s) && w < |s.workers| && AtStart(s.workers[w]) && !LockFree(s, 7) && ConnFree(c, s)
    requires OrderRowFree(s, w, s.workers[w].job.key)
    ensures Path(c, From(s0), t)
    ensures t.queues == s.queues && t.handler == s.handler && t.now == s.now
    ensures t.db.rows == s.db.rows && t.locks == s.locks
    ensures t.usage == s.usage.(conns := s.usage.conns + 1)
    ensures t.workers == s.workers[w := s.workers[w].(pc := Offering(false), tx := Tx(false, Some(Retrying), None))]
  {
    Go(c, From(s0), s, Work(w, TakeLock));
    var s1 := Apply(c, s, Work(w, TakeLock));
    Go(c, From(s0), s1, Work(w, OpenTx));
    var s2 := Apply(c, s1, Work(w, OpenTx));
    var wk := s.workers[w].(pc := Marking(Retrying, ThenOffer), tx := CLEAN_TX);
    assert s2.workers == s.workers[w := wk];
    assert OrderRowFree(s2, w, wk.job.key) by {
      forall v | 0 <= v < |s2.workers| && v != w
        ensures !LocksOrder(s2, s2.workers[v], wk.job.key)
      {
        assert !LocksOrder(s, s.workers[v], wk.job.key);
      }
    }
    var nk := wk.(pc := Offering(false), tx := Tx(false, Some(Retrying), None));
    Alone(c, From(s0), s2, w, Mark(true), nk);
    t := Put(s2, w, nk);
  }

  /** The parked retries join, one by one. */
  lemma {:induction false} JamRetries(c: Config, s0: State, s: State, r: nat, k: Key) returns (t: State)
    requires Wide(c) && 1 <= c.maxRetry && Path(c, From(s0), s) && Jammed(c, s, 0, r, k) && AllDue(s)
    requires r + |s.queues.retries| <= c.retryCap && r + |s.queues.retries| <= c.pool
    requires Numbered(s.queues.retries, k, 1)
    ensures Path(c, From(s0), t) && Jammed(c, t, 0, r + |s.queues.retries|, k + |s.queues.retries|)
    ensures t.queues == s.queues.(retries := [])
    decreases |s.queues.retries|
  {
    if s.queues.retries == [] {
      t := s;
    } else {
      var w := |s.workers|;
      var s1 := Resume(c, s0, s, 0, k, 1);
      assert s1.queues.retries == s.queues.retries[1..];
      var s2 := Join(c, s0, s1, w, k, r);
      assert forall v :: 0 <= v < w ==> s2.workers[v] == s.workers[v];
      assert Jammed(c, s2, 0, r + 1, k + 1);
      NumberedTail(s.queues.retries, k, 1);
      t := JamRetries(c, s0, s2, r + 1, k + 1);
    }
  }

  /** The remaining orders join, one by one. */
  lemma {:induction false} JamOrders(c: Config, s0: State, s: State, o: nat, r: nat, k: Key) returns (t: State)
    requires Wide(c) && Path(c, From(s0), s) && Jammed(c, s, o, r, k)
    requires o + |s.queues.orders| <= c.orderCap && o + r + |s.queues.orders| <= c.pool
    requires Numbered(s.queues.orders, k, 0)
    ensures Path(c, From(s0), t) && Jammed(c, t, o + |s.queues.orders|, r, k + |s.queues.orders|)
    ensures t.queues == s.queues.(orders := [])
    decreases |s.queues.orders|
  {
    if s.queues.orders == [] {
      t := s;
    } else {
      var w := |s.workers|;
      var s1 := Begin(c, s0, s, k);
      var s2 := Join(c, s0, s1, w, k, o + r);
      assert forall v :: 0 <= v < w ==> s2.workers[v] == s.workers[v];
      assert Jammed(c, s2, o + 1, r, k + 1);
      NumberedTail(s.queues.orders, k, 0);
      t := JamOrders(c, s0, s2, o + 1, r, k + 1);
    }
  }

  // ----- the theorem -----

  /** The first `r` orders wait in the retry topic, and the next has no retry left. */
  lemma Prepare(c: Config, r: nat) returns (t: State)
    requires ValidConfig(c) && Wide(c) && r <= c.pool
    ensures Path(c, From(FreshOrders(c.pool + 1)), t) && Jammed(c, t, 0, 0, 0) && AllDue(t)
    ensures |t.queues.retries| == r && Numbered(t.queues.retries, 0, 1)
    ensures t.queues.orders == Placed(c.pool + 1)[r + 1..]
  {
    var i := FreshOrders(c.pool + 1);
    Start(c, From(i));
    var s1, parked := Park(c, i, i, r, 0);
    assert s1.queues.retries == parked;
    var s2 := Begin(c, i, s1, r);
    var s3 := Attempt(c, i, s2, |s1.workers|);
    var s4 := Exhaust(c, i, s3);
    t := Wait(c, i, s4);
  }

  /** A pool that is wide enough for a read beside a transaction. */
  lemma WidePoolDeadlocks(c: Config) returns (t: State)
    requires ValidConfig(c) && Wide(c) && c.pool <= c.orderCap + c.retryCap
    ensures Path(c, From(FreshOrders(c.pool + 1)), t) && Stuck(c, t)
  {
    var i := FreshOrders(c.pool + 1);
    var r: nat := if c.pool > c.orderCap then c.pool - c.orderCap else 0;
    var s1 := Prepare(c, r);
    var s2 := JamRetries(c, i, s1, 0, 0);
    assert Jammed(c, s2, 0, r, r + 1);
    t := JamOrders(c, i, s2, 0, r, r + 1);
    EverybodyWaits(c, t);
  }

  /** One connection and no replica: the balance read of the only transaction waits for a second connection. */
  lemma LoneConnectionDeadlocks(c: Config) returns (t: State)
    requires ValidConfig(c) && !Wide(c)
    ensures Path(c, From(FreshOrders(1)), t) && Stuck(c, t)
  {
    var i := FreshOrders(1);
    Start(c, From(i));
    var s1 := Begin(c, i, i, 0);
    Open(c, From(i), s1, 0);
    var s2 := Opened(s1, 0);
    Alone(c, From(i), s2, 0, Decrypt(true), s2.workers[0].(pc := Checking));
    t := Put(s2, 0, s2.workers[0].(pc := Checking));
    assert t.workers[0].pc == Checking;
    ReadersWait(c, t);
  }

  /** Without a replica, goroutines that all hold a connection and wait for a second one, to read a balance or an
      average that is not cached, wait for each other. */
  lemma ReadersWait(c: Config, s: State)
    requires s.queues == Queues([], None, [], None) && s.handler == Idle && !ReaderFree(c, s)
    requires forall w :: 0 <= w < |s.workers| ==>
               || s.workers[w].pc.Finished? || s.workers[w].pc == Screening
               || (s.workers[w].pc == Checking && HasRow(s, s.workers[w].job.account))
    requires exists w :: 0 <= w < |s.workers| && !s.workers[w].pc.Finished?
    ensures Stuck(c, s)
  {
    forall d, step
      ensures !CanMove(c, s, d, step)
    {
      match step
      case Work(w, a) =>
      case _ =>
    }
  }

  /** No run of distinct orders gets stuck. */
  ghost predicate NeverStuck(c: Config) {
    forall s, steps ::
      Initial(s) && DistinctOrders(s.queues.orders) && ValidRun(c, s, steps) ==> !Stuck(c, End(c, s, steps))
  }

  /** A pool no larger than both semaphores together deadlocks, on fresh, distinct orders. */
  lemma TightPoolDeadlocks(c: Config) returns (n: nat, steps: seq<Step>)
    requires ValidConfig(c) && c.pool <= c.orderCap + c.retryCap
    ensures Initial(FreshOrders(n)) && DistinctOrders(Placed(n))
    ensures ValidRun(c, FreshOrders(n), steps) && Stuck(c, End(c, FreshOrders(n), steps))
  {
    var t: State;
    if Wide(c) {
      n := c.pool + 1;
      t := WidePoolDeadlocks(c);
    } else {
      n := 1;
      t := LoneConnectionDeadlocks(c);
    }
    steps :| ValidRun(c, FreshOrders(n), steps) && End(c, FreshOrders(n), steps) == t;
  }

  /** A configuration is free of deadlock if and only if its pool exceeds both semaphores together. */
  lemma DeadlockFreeIffPoolExceedsSlots(c: Config)
    requires ValidConfig(c)
    ensures NeverStuck(c) <==> c.pool > c.orderCap + c.retryCap
  {
    if c.pool > c.orderCap + c.retryCap {
      forall s, steps | Initial(s) && DistinctOrders(s.queues.orders) && ValidRun(c, s, steps)
        ensures !Stuck(c, End(c, s, steps))
      {
        if Busy(End(c, s, steps)) {
          DeadlockFree(c, s, steps);
        }
      }
    } else {
      var n, steps := TightPoolDeadlocks(c);
      assert FreshOrders(n).queues.orders == Placed(n);
    }
  }

  // ----- a message that is delivered twice -----

  const ORDER := Job(0, 7, 60, 0, 0, true)

  lemma {:induction false} RowsOfOrdersStay(c: Config, s: State, steps: seq<Step>)
    requires ValidRun(c, s, steps)
    ensures End(c, s, steps).db.status.Keys == s.db.status.Keys
    decreases |steps|
  {
    if steps != [] {
      StepWrites(c, s, steps[0]);
      RowsOfOrdersStay(c, Apply(c, s, steps[0]), steps[1..]);
    }
  }

  /** One copy has no retry left and is with the channel reader; the other waits for the channel reader. */
  lemma SecondCopyWaits(c: Config, s0: State) returns (t: State)
    requires ValidConfig(c) && c.pool >= 2 && s0 == FreshState([ORDER, ORDER])
    ensures Path(c, From(s0), t) && t.queues == Queues([], None, [], None) && t.usage.conns == 1
    ensures t.handler.Holding? && t.handler.job.retryCount == c.maxRetry + 1 && t.handler.job.key == 0
    ensures forall w :: 0 <= w < |t.workers| ==> t.workers[w].pc.Finished? || t.workers[w].pc.Offering?
    ensures exists w :: 0 <= w < |t.workers| && t.workers[w].tx.Tx? && t.workers[w].tx.status.Some?
                        && t.workers[w].job.key == 0
  {
    var s := FirstCopyExhausted(c, s0);
    var w := |s.workers|;
    var s1 := Begin(c, s0, s, 0);
    Enter(c, From(s0), s1, w, 0);
    Bounce(c, From(s0), Inside(s1, w, 0), w);
    t := Bounced(Inside(s1, w, 0), w);
    assert t.workers[w].tx == Tx(false, Some(Retrying), None) && t.workers[w].job.key == 0;
  }

  lemma FirstCopyExhausted(c: Config, s0: State) returns (t: State)
    requires ValidConfig(c) && c.pool >= 2 && s0 == FreshState([ORDER, ORDER])
    ensures Path(c, From(s0), t) && Rested(t) && t.queues == Queues([ORDER], None, [], None)
    ensures t.handler.Holding? && t.handler.job.retryCount == c.maxRetry + 1 && t.handler.job.key == 0
  {
    Start(c, From(s0));
    var s1 := Begin(c, s0, s0, 0);
    var s2 := Attempt(c, s0, s1, 0);
    t := Exhaust(c, s0, s2);
  }

  /** Whatever the capacities are, a second copy of one order can deadlock the pipeline: the channel reader
      waits for a row lock of the very worker that waits for the channel reader. */
  lemma DuplicateDeadlocks(c: Config) returns (steps: seq<Step>)
    requires ValidConfig(c) && c.pool >= 2
    ensures Initial(FreshState([ORDER, ORDER])) && ValidRun(c, FreshState([ORDER, ORDER]), steps)
    ensures Stuck(c, End(c, FreshState([ORDER, ORDER]), steps))
  {
    var s0 := FreshState([ORDER, ORDER]);
    var s := SecondCopyWaits(c, s0);
    Go(c, From(s0), s, HandlerConnect);
    var t := Apply(c, s, HandlerConnect);
    steps :| ValidRun(c, s0, steps) && End(c, s0, steps) == t;
    RowsOfOrdersStay(c, s0, steps);
    assert [ORDER, ORDER][0] in [ORDER, ORDER];
    assert 0 in KeysOf([ORDER, ORDER]);
    var v :| 0 <= v < |s.workers| && s.workers[v].tx.Tx? && s.workers[v].tx.status.Some? && s.workers[v].job.key == 0;
    assert LocksOrder(t, t.workers[v], t.handler.job.key);
    EverybodyWaits(c, t);
  }
}
