/** Concrete runs around the retry channel: an order that is forgotten, a success that is overwritten, and an
    order that is paid twice. */
module PipelineLapses {
  import opened Jobs
  import opened Pipeline
  import opened PipelineHistory
  import opened PipelineProgress
  import opened PipelineRuns

  // ----- phases around the retry channel -----

  /** The channel reader has taken the job of worker `w`. */
  function Offered(s: State, w: nat): State
    requires w < |s.workers| && s.workers[w].pc.Offering?
  {
    var wk := s.workers[w];
    Put(s, w, wk.(sent := true,
                  pc := if wk.pc.late then Marking(Retrying, ThenReturn(true)) else Return(wk, true)))
    .(handler := Holding(NextTry(wk.job)))
  }

  lemma Hand(c: Config, s0: State, s: State, w: nat)
    requires Path(c, From(s0), s) && w < |s.workers| && s.workers[w].pc.Offering? && s.handler == Idle
    ensures Path(c, From(s0), Offered(s, w))
  {
    Go(c, From(s0), s, Work(w, Offer));
    assert Apply(c, s, Work(w, Offer)) == Offered(s, w);
  }

  lemma Reported(c: Config, s0: State, t: State, w: nat)
    requires Path(c, From(s0), t) && w < |t.workers|
    requires t.workers[w].pc == Reporting(true) && t.workers[w].source == Orders
    ensures Path(c, From(s0), Put(t, w, t.workers[w].(pc := Finished(true)))
                           .(usage := t.usage.(orderSem := t.usage.orderSem - 1),
                             dead := DeadLetter(t.dead, Orders, t.workers[w].job)))
  {
    Go(c, From(s0), t, Work(w, Report));
    assert Apply(c, t, Work(w, Report))
        == Put(t, w, t.workers[w].(pc := Finished(true)))
           .(usage := t.usage.(orderSem := t.usage.orderSem - 1), dead := DeadLetter(t.dead, Orders, t.workers[w].job));
  }

  /** The channel reader has published the job it holds, and the retry consumer has started on it. */
  function Redelivered(s: State, job: Job): State {
    s.(handler := Idle, usage := s.usage.(retrySem := s.usage.retrySem + 1),
       workers := s.workers + [NewWorker(Retries, job)])
  }

  lemma Redeliver(c: Config, s0: State, s: State, job: Job)
    requires Path(c, From(s0), s) && Enabled(c, s, Publish(0, true)) && s.usage.retrySem < c.retryCap
    requires s.queues.retries == [] && s.queues.fetchedRetry.None?
    requires job == Delayed(c, s, s.handler.job, 0)
    ensures Path(c, From(s0), Redelivered(s, job))
  {
    Go(c, From(s0), s, Publish(0, true));
    var s1 := s.(handler := Idle, queues := s.queues.(retries := [job]));
    assert Apply(c, s, Publish(0, true)) == s1;
    Go(c, From(s0), s1, FetchRetry(0));
    var s2 := s1.(queues := s.queues.(fetchedRetry := Some(job)));
    assert Apply(c, s1, FetchRetry(0)) == s2;
    Go(c, From(s0), s2, SpawnRetry);
    assert Apply(c, s2, SpawnRetry) == Redelivered(s, job);
  }

  // ----- one order, and its copy in backoff -----

  const ONE := Job(1, 7, 60, 0, 0, true)
  const BACK := Job(1, 7, 60, 1, 4, true)

  lemma Awake(c: Config, s0: State, s: State, w: nat)
    requires Path(c, From(s0), s) && w < |s.workers| && s.workers[w].pc == Received && s.workers[w].job.wellFormed
    requires s.workers[w].source == Retries && s.workers[w].job.retryCount <= c.maxRetry
    requires s.workers[w].job.notBefore <= s.now + 4
    ensures Path(c, From(s0), Put(s.(now := s.now + 4), w, s.workers[w].(pc := Locking)))
  {
    var wk := s.workers[w];
    Alone(c, From(s0), s, w, Admit, wk.(pc := Sleeping));
    var s1 := Put(s, w, wk.(pc := Sleeping));
    Go(c, From(s0), s1, Tick(4));
    var s2 := s1.(now := s.now + 4);
    Alone(c, From(s0), s2, w, Wake, wk.(pc := Locking));
    assert Put(s2, w, wk.(pc := Locking)) == Put(s.(now := s.now + 4), w, wk.(pc := Locking));
  }

  // ----- an order that is forgotten -----

  /** A failed `Begin` leaves the order pending for good: everything is finished, the job is only a dead letter. */
  lemma BeginFaultForgetsOrder()
    ensures exists t :: Path(Base(false), From(Fresh100([ONE])), t) && !Busy(t)
                        && 1 in t.db.status && t.db.status[1] == Pending && t.dead.orders == [ONE]
  {
    var c, i := Base(false), Fresh100([ONE]);
    Start(c, From(i));
    Spawn(c, From(i), i);
    var s := Spawned(i);
    assert s.workers == [NewWorker(Orders, ONE).(pc := Locking)];
    OpenFails(c, i, s, 0);
    var t := Orphaned(s, 0);
    Reported(c, i, t, 0);
  }

  /** The lock won and then abandoned. */
  function Orphaned(s: State, w: nat): State
    requires w < |s.workers|
  {
    var wk := s.workers[w];
    s.(workers := s.workers[w := wk.(pc := Reporting(true), lock := None)],
       locks := s.locks[wk.job.account := s.now + LOCK_TTL],
       db := s.db.(history := s.db.history + [Attempted(wk.job.key)]))
  }

  lemma OpenFails(c: Config, s0: State, s: State, w: nat)
    requires Path(c, From(s0), s) && w < |s.workers|
    requires s.workers[w].pc == Locking && LockFree(s, s.workers[w].job.account)
    ensures Path(c, From(s0), Orphaned(s, w))
  {
    Go(c, From(s0), s, Work(w, TakeLock));
    var s1 := Apply(c, s, Work(w, TakeLock));
    Go(c, From(s0), s1, Work(w, OpenFault));
    assert Apply(c, s1, Work(w, OpenFault)) == Orphaned(s, w);
  }

  // ----- a gateway that asks for a retry -----

  /** The payment gateway asks for a retry: the job is sent before its status is written. */
  function SentLate(): State {
    var s := Inside(Spawned(Fresh100([ONE])), 0, 0);
    Offered(Put(s, 0, s.workers[0].(pc := Offering(true))), 0)
  }

  /** The retry copy is about to take the lock, which has expired. */
  function SecondTry(): State {
    var s := SentLate();
    s.(now := LOCK_TTL + 4, handler := Idle,
       usage := s.usage.(retrySem := 1),
       workers := s.workers + [NewWorker(Retries, BACK).(pc := Locking)])
  }

  lemma Late1(c: Config)
    requires c == Base(false)
    ensures Path(c, From(Fresh100([ONE])), SentLate())
  {
    var i := Fresh100([ONE]);
    Start(c, From(i));
    Spawn(c, From(i), i);
    Enter(c, From(i), Spawned(i), 0, 0);
    var s := Inside(Spawned(i), 0, 0);
    var wk := s.workers[0];
    Alone(c, From(i), s, 0, Screen(Clean, false), wk.(pc := Settling));
    var s1 := Put(s, 0, wk.(pc := Settling));
    Alone(c, From(i), s1, 0, Settle(Retryable), wk.(pc := Offering(true)));
    var s2 := Put(s1, 0, wk.(pc := Offering(true)));
    Hand(c, i, s2, 0);
    assert s2 == Put(s, 0, wk.(pc := Offering(true)));
  }

  lemma Late2(c: Config)
    requires c == Base(false)
    ensures Path(c, From(Fresh100([ONE])), SecondTry())
  {
    var i := Fresh100([ONE]);
    Late1(c);
    var s := SentLate();
    Redeliver(c, i, s, BACK);
    var s1 := Redelivered(s, BACK);
    Go(c, From(i), s1, Tick(LOCK_TTL));
    Awake(c, i, s1.(now := LOCK_TTL), 1);
    assert SecondTry() == Put(s1.(now := LOCK_TTL + 4), 1, NewWorker(Retries, BACK).(pc := Locking));
  }

  /** With a gateway that asks for a retry while the context is live: the job is sent before its status is
      written, and that status can overwrite the success of the next attempt.  The program's own settlement
      asks for a retry only on a cancelled context. */
  lemma LateStatusOverwritesSuccess()
    ensures exists s, t :: Path(Base(false), From(Fresh100([ONE])), s) && Path(Base(false), From(s), t)
                           && 1 in s.db.status && s.db.status[1] == Success
                           && 1 in t.db.status && t.db.status[1] == Retrying
  {
    var c, i := Base(false), Fresh100([ONE]);
    Late2(c);
    var s := SecondTry();
    Enter(c, From(i), s, 1, 0);
    Leave(c, From(i), Inside(s, 1, 0), 1);
    var paid := Departed(Inside(s, 1, 0), 1);
    Start(c, From(paid));
    var wk := paid.workers[0];
    var mk := wk.(pc := Unlocking(true), tx := Tx(false, Some(Retrying), None));
    Alone(c, From(paid), paid, 0, Mark(true), mk);
    var s1 := Put(paid, 0, mk);
    Release(c, From(paid), s1, 0);
    Commit(c, From(paid), Released(s1, 0), 0);
    assert Committed(Released(s1, 0), 0).db.status[1] == Retrying;
  }

  // ----- a message that is delivered twice -----

  const TWICE := Job(1, 7, 40, 0, 0, true)

  /** The first delivery is paid. */
  function PaidOnce(): State {
    State(0, Queues([TWICE], None, [], None), Usage(1, 0, 0),
          [Worker(Orders, TWICE, Reporting(false), None, NoTx, Some(Row(100, 0)), false)], Idle, map[],
          Db(map[7 := [Row(100, 0), Row(60, 1)]], map[1 := Success, 2 := Pending],
             [Attempted(1), Debited(1, 7, 40), StatusSet(1, Success)]), DeadLetters([], []))
  }

  lemma FirstDelivery(c: Config, i: State)
    requires c == Base(false) && i == Fresh100([TWICE, TWICE])
    ensures Path(c, From(i), PaidOnce())
  {
    Start(c, From(i));
    Spawn(c, From(i), i);
    Enter(c, From(i), Spawned(i), 0, 0);
    Leave(c, From(i), Inside(Spawned(i), 0, 0), 0);
    var s := Departed(Inside(Spawned(i), 0, 0), 0);
    assert s.locks == map[];
    assert s.workers == PaidOnce().workers;
    assert s.db.rows[7] == [Row(100, 0), Row(60, 1)];
    assert s.db.rows == PaidOnce().db.rows && s.db.status == PaidOnce().db.status;
    assert s.db.history == PaidOnce().db.history;
    assert s.queues == PaidOnce().queues;
  }

  /** The second delivery is paid too. */
  lemma SecondDelivery(c: Config, i: State) returns (t: State)
    requires c == Base(false) && Path(c, From(i), PaidOnce())
    ensures Path(c, From(i), t)
    ensures 7 in t.db.rows && t.db.rows[7] == [Row(100, 0), Row(60, 1), Row(20, 2)]
    ensures t.db.history == PaidOnce().db.history + PaidOnce().db.history
  {
    EntersAgain(c, i);
    var s := Inside(Spawned(PaidOnce()), 1, 1);
    Leave(c, From(i), s, 1);
    t := Departed(s, 1);
  }

  lemma EntersAgain(c: Config, i: State)
    requires c == Base(false) && Path(c, From(i), PaidOnce())
    ensures Path(c, From(i), Inside(Spawned(PaidOnce()), 1, 1))
    ensures CanPay(c, Inside(Spawned(PaidOnce()), 1, 1), 1)
    ensures Inside(Spawned(PaidOnce()), 1, 1).workers[1].seen == Some(Row(60, 1))
  {
    Spawn(c, From(i), PaidOnce());
    Enter(c, From(i), Spawned(PaidOnce()), 1, 1);
  }

  /** One order that is delivered twice is paid twice. */
  lemma TwoDeliveriesDebitTwice() returns (t: State)
    ensures Path(Base(false), From(Fresh100([TWICE, TWICE])), t)
    ensures EventSum(t.db.history, DebitsOf(1)) == 2
    ensures HasRow(t, 7) && Current(t, 7) == Row(20, 2)
  {
    FirstDelivery(Base(false), Fresh100([TWICE, TWICE]));
    t := SecondDelivery(Base(false), Fresh100([TWICE, TWICE]));
    SixEvents(Attempted(1), Debited(1, 7, 40), StatusSet(1, Success));
  }

  lemma SixEvents(a: Event, d: Event, ok: Event)
    requires a == Attempted(1) && d == Debited(1, 7, 40) && ok == StatusSet(1, Success)
    ensures EventSum([a, d, ok] + [a, d, ok], DebitsOf(1)) == 2
  {
    var g := DebitsOf(1);
    assert [] + [a] == [a] && [a] + [d] == [a, d] && [a, d] + [ok] == [a, d, ok];
    EventSumOne([], a, g);
    EventSumOne([a], d, g);
    EventSumOne([a, d], ok, g);
    AppendSum([a, d, ok], [a, d, ok], g);
  }
}
