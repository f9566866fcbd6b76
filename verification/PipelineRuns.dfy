/** Building runs phase by phase, and a concrete run for each hypothesis of the conservation theorem. */
module PipelineRuns {
  import opened Jobs
  import opened Pipeline
  import opened PipelineControl
  import opened PipelineLock
  import opened PipelineHistory
  import opened PipelineLedger
  import opened PipelineCopies

  // ----- building runs -----

  /** Where a run starts, and whether balances are read only while no debit is pending without its lock. */
  datatype Origin = Origin(state: State, settled: bool)

  function From(s: State): Origin {
    Origin(s, false)
  }

  ghost predicate Obeys(from: Origin, s: State, step: Step) {
    from.settled ==> ReadsSettled(s, step)
  }

  ghost predicate ObeyedBy(c: Config, from: Origin, steps: seq<Step>)
    requires ValidRun(c, from.state, steps)
  {
    Throughout(c, from.state, steps, (u: State, step: Step) => Obeys(from, u, step))
  }

  /** `t` ends a run from the origin. */
  ghost predicate Path(c: Config, from: Origin, t: State) {
    exists steps :: ValidRun(c, from.state, steps) && ObeyedBy(c, from, steps) && End(c, from.state, steps) == t
  }

  lemma {:induction false} Snoc(c: Config, from: Origin, s: State, steps: seq<Step>, step: Step)
    requires ValidRun(c, s, steps) && Enabled(c, End(c, s, steps), step)
    ensures ValidRun(c, s, steps + [step])
    ensures End(c, s, steps + [step]) == Apply(c, End(c, s, steps), step)
    ensures Throughout(c, s, steps, (u: State, x: Step) => Obeys(from, u, x)) && Obeys(from, End(c, s, steps), step)
            ==> Throughout(c, s, steps + [step], (u: State, x: Step) => Obeys(from, u, x))
    decreases |steps|
  {
    if steps == [] {
      assert [step][1..] == [];
    } else {
      Snoc(c, from, Apply(c, s, steps[0]), steps[1..], step);
      assert (steps + [step])[1..] == steps[1..] + [step];
    }
  }

  lemma Start(c: Config, from: Origin)
    ensures Path(c, from, from.state)
  {
    assert ValidRun(c, from.state, []) && ObeyedBy(c, from, []) && End(c, from.state, []) == from.state;
  }

  lemma Go(c: Config, from: Origin, t: State, step: Step)
    requires Path(c, from, t) && Enabled(c, t, step) && Obeys(from, t, step)
    ensures Path(c, from, Apply(c, t, step))
  {
    var steps :| ValidRun(c, from.state, steps) && ObeyedBy(c, from, steps) && End(c, from.state, steps) == t;
    Snoc(c, from, from.state, steps, step);
  }

  // ----- the phases of an attempt, one worker at a time -----

  function Put(s: State, w: nat, wk: Worker): State
    requires w < |s.workers|
  {
    s.(workers := s.workers[w := wk])
  }

  /** At the lock, with everything it will need available. */
  predicate AtLock(c: Config, s: State, w: nat, version: nat) {
    && w < |s.workers|
    && var wk := s.workers[w];
    && wk.pc == Locking && wk.lock.None? && wk.tx.NoTx?
    && LockFree(s, wk.job.account) && s.usage.conns + (if c.replica then 0 else 1) < c.pool
    && HasRow(s, wk.job.account) && version < |s.db.rows[wk.job.account]|
    && (!c.replica ==> version == |s.db.rows[wk.job.account]| - 1)
    && s.db.rows[wk.job.account][version].balance >= wk.job.amount
  }

  /** Nobody has a debit of the worker's account pending without its lock. */
  ghost predicate AllCommitted(s: State, w: nat)
    requires w < |s.workers|
  {
    forall v :: 0 <= v < |s.workers| && v != w ==> !PendingUnlocked(s.workers[v], s.workers[w].job.account)
  }

  /** The lock won, a transaction open, the balance accepted. */
  function Inside(s: State, w: nat, version: nat): State
    requires w < |s.workers| && s.workers[w].job.account in s.db.rows
    requires version < |s.db.rows[s.workers[w].job.account]|
  {
    var wk := s.workers[w];
    var a := wk.job.account;
    s.(workers := s.workers[w := wk.(pc := Screening, lock := Some(s.now), tx := CLEAN_TX,
                                     seen := Some(s.db.rows[a][version]))],
       usage := s.usage.(conns := s.usage.conns + 1),
       locks := s.locks[a := s.now + LOCK_TTL],
       db := s.db.(history := s.db.history + [Attempted(wk.job.key)]))
  }

  /** An action that changes nothing but its worker. */
  lemma Alone(c: Config, from: Origin, s: State, w: nat, a: Action, wk: Worker)
    requires Path(c, from, s) && w < |s.workers| && CanAct(c, s, w, a) && NextWorker(c, s, w, a) == wk
    requires Obeys(from, s, Work(w, a))
    requires a.Admit? || a.Wake? || a.Decrypt? || a.ReadRow? || a.Screen? || a.Settle? || a.Debit? || a.Mark?
    ensures Path(c, from, Put(s, w, wk))
  {
    Go(c, from, s, Work(w, a));
    assert Apply(c, s, Work(w, a)) == Put(s, w, wk);
  }

  /** The lock won and a transaction open. */
  function Opened(s: State, w: nat): State
    requires w < |s.workers|
  {
    var wk := s.workers[w];
    s.(workers := s.workers[w := wk.(pc := Decrypting, lock := Some(s.now), tx := CLEAN_TX)],
       usage := s.usage.(conns := s.usage.conns + 1),
       locks := s.locks[wk.job.account := s.now + LOCK_TTL],
       db := s.db.(history := s.db.history + [Attempted(wk.job.key)]))
  }

  lemma Open(c: Config, from: Origin, s: State, w: nat)
    requires Path(c, from, s) && w < |s.workers| && s.workers[w].pc == Locking
    requires LockFree(s, s.workers[w].job.account) && ConnFree(c, s)
    ensures Path(c, from, Opened(s, w))
  {
    Go(c, from, s, Work(w, TakeLock));
    var s1 := Apply(c, s, Work(w, TakeLock));
    Go(c, from, s1, Work(w, OpenTx));
    assert Apply(c, s1, Work(w, OpenTx)) == Opened(s, w);
  }

  lemma Enter(c: Config, from: Origin, s: State, w: nat, version: nat)
    requires Path(c, from, s) && AtLock(c, s, w, version) && (from.settled ==> AllCommitted(s, w))
    ensures Path(c, from, Inside(s, w, version))
  {
    Open(c, from, s, w);
    var s1 := Opened(s, w);
    assert s1.workers[w].job == s.workers[w].job;
    Accept(c, from, s1, w, version);
    var row := s.db.rows[s.workers[w].job.account][version];
    assert Put(s1, w, s1.workers[w].(pc := Screening, seen := Some(row))) == Inside(s, w, version);
  }

  /** The amount decrypted and the balance accepted. */
  lemma Accept(c: Config, from: Origin, s: State, w: nat, version: nat)
    requires Path(c, from, s) && w < |s.workers| && s.workers[w].pc == Decrypting && ReaderFree(c, s)
    requires s.workers[w].lock.Some? && (from.settled ==> AllCommitted(s, w))
    requires HasRow(s, s.workers[w].job.account) && version < |s.db.rows[s.workers[w].job.account]|
    requires !c.replica ==> version == |s.db.rows[s.workers[w].job.account]| - 1
    requires s.db.rows[s.workers[w].job.account][version].balance >= s.workers[w].job.amount
    ensures var wk := s.workers[w];
            Path(c, from, Put(s, w, wk.(pc := Screening, seen := Some(s.db.rows[wk.job.account][version]))))
  {
    var wk := s.workers[w];
    Alone(c, from, s, w, Decrypt(true), wk.(pc := Checking));
    var s1 := Put(s, w, wk.(pc := Checking));
    var nk := wk.(pc := Screening, seen := Some(s.db.rows[wk.job.account][version]));
    Alone(c, from, s1, w, ReadRow(version), nk);
    assert Put(s1, w, nk) == Put(s, w, nk);
  }

  predicate CanPay(c: Config, s: State, w: nat) {
    && w < |s.workers|
    && var wk := s.workers[w];
    && wk.pc == Screening && wk.lock.Some? && wk.tx == CLEAN_TX && wk.seen.Some?
    && ReaderFree(c, s) && AccountRowFree(s, w, wk.job.account) && OrderRowFree(s, w, wk.job.key)
  }

  /** Both writes pending, the lock still held. */
  function Written(s: State, w: nat): State
    requires w < |s.workers| && s.workers[w].seen.Some?
  {
    var wk := s.workers[w];
    Put(s, w, wk.(pc := Unlocking(false),
                  tx := Tx(false, Some(Success), Some(Charge(wk.seen.value, wk.job.amount)))))
  }

  lemma Pay(c: Config, from: Origin, s: State, w: nat)
    requires Path(c, from, s) && CanPay(c, s, w)
    ensures Path(c, from, Written(s, w))
  {
    var wk := s.workers[w];
    Alone(c, from, s, w, Screen(Clean, false), wk.(pc := Settling));
    var s1 := Put(s, w, wk.(pc := Settling));
    Alone(c, from, s1, w, Settle(Settled), wk.(pc := Debiting));
    var s2 := Put(s1, w, wk.(pc := Debiting));
    assert s2.workers == s.workers[w := wk.(pc := Debiting)];
    Charged(c, from, s2, w);
    assert Written(s2, w) == Written(s, w);
  }

  lemma Charged(c: Config, from: Origin, s: State, w: nat)
    requires Path(c, from, s) && w < |s.workers|
    requires s.workers[w].pc == Debiting && s.workers[w].tx == CLEAN_TX
    requires s.workers[w].seen.Some? && s.workers[w].lock.Some?
    requires AccountRowFree(s, w, s.workers[w].job.account) && OrderRowFree(s, w, s.workers[w].job.key)
    ensures Path(c, from, Written(s, w))
  {
    var wk := s.workers[w];
    var row := Charge(wk.seen.value, wk.job.amount);
    var dk := wk.(pc := Marking(Success, ThenReturn(false)), tx := Tx(false, None, Some(row)));
    Alone(c, from, s, w, Debit(DebitDone), dk);
    var s1 := Put(s, w, dk);
    assert s1.workers == s.workers[w := dk];
    Alone(c, from, s1, w, Mark(true), Written(s, w).workers[w]);
    assert Put(s1, w, Written(s, w).workers[w]) == Written(s, w);
  }

  /** The fraud service is unavailable: the status is written and the job offered to the channel. */
  function Bounced(s: State, w: nat): State
    requires w < |s.workers|
  {
    Put(s, w, s.workers[w].(pc := Offering(false), tx := Tx(false, Some(Retrying), None)))
  }

  lemma Bounce(c: Config, from: Origin, s: State, w: nat)
    requires Path(c, from, s) && CanPay(c, s, w)
    ensures Path(c, from, Bounced(s, w))
  {
    Go(c, from, s, Work(w, Screen(Unavailable, false)));
    var s1 := Apply(c, s, Work(w, Screen(Unavailable, false)));
    Go(c, from, s1, Work(w, Mark(true)));
    assert Apply(c, s1, Work(w, Mark(true))) == Bounced(s, w);
  }

  /** The deferred calls, the release first. */
  function Released(s: State, w: nat): State
    requires w < |s.workers| && s.workers[w].pc.Unlocking?
  {
    var wk := s.workers[w];
    Put(s, w, wk.(pc := Committing(wk.pc.err), lock := None)).(locks := s.locks - {wk.job.account})
  }

  function Committed(s: State, w: nat): State
    requires w < |s.workers| && s.workers[w].pc.Committing? && s.workers[w].tx.Tx?
  {
    var wk := s.workers[w];
    Put(s, w, wk.(pc := Reporting(wk.pc.err), tx := NoTx))
    .(usage := s.usage.(conns := s.usage.conns - 1), db := ApplyTx(s.db, wk.job, wk.tx))
  }

  lemma Release(c: Config, from: Origin, s: State, w: nat)
    requires Path(c, from, s) && w < |s.workers| && s.workers[w].pc.Unlocking?
    ensures Path(c, from, Released(s, w))
  {
    Go(c, from, s, Work(w, Unlock(true)));
    assert Apply(c, s, Work(w, Unlock(true))) == Released(s, w);
  }

  lemma Commit(c: Config, from: Origin, s: State, w: nat)
    requires Path(c, from, s) && w < |s.workers| && s.workers[w].pc.Committing?
    requires s.workers[w].tx.Tx? && !s.workers[w].tx.aborted
    ensures Path(c, from, Committed(s, w))
  {
    Go(c, from, s, Work(w, Close(true)));
    assert Apply(c, s, Work(w, Close(true))) == Committed(s, w);
  }

  lemma Admitted(c: Config, from: Origin, s: State, w: nat)
    requires Path(c, from, s) && w < |s.workers| && s.workers[w].pc == Received
    requires s.workers[w].job.wellFormed && s.workers[w].source == Orders
    ensures Path(c, from, Put(s, w, s.workers[w].(pc := Locking)))
  {
    Go(c, from, s, Work(w, Admit));
    assert Apply(c, s, Work(w, Admit)) == Put(s, w, s.workers[w].(pc := Locking));
  }

  /** The next order is read and admitted. */
  function Spawned(s: State): State
    requires s.queues.orders != []
  {
    var job := s.queues.orders[0];
    s.(queues := s.queues.(orders := s.queues.orders[1..], fetchedOrder := None),
       usage := s.usage.(orderSem := s.usage.orderSem + 1),
       workers := s.workers + [NewWorker(Orders, job).(pc := Locking)])
  }

  lemma Spawn(c: Config, from: Origin, s: State)
    requires Path(c, from, s) && s.queues.orders != [] && s.queues.fetchedOrder.None?
    requires s.usage.orderSem < c.orderCap && s.queues.orders[0].wellFormed
    ensures Path(c, from, Spawned(s))
  {
    var job := s.queues.orders[0];
    Go(c, from, s, FetchOrder(0));
    var s1 := s.(queues := s.queues.(orders := s.queues.orders[1..], fetchedOrder := Some(job)));
    assert s.queues.orders[..0] + s.queues.orders[1..] == s.queues.orders[1..];
    assert Apply(c, s, FetchOrder(0)) == s1;
    Go(c, from, s1, SpawnOrder);
    var s2 := Apply(c, s1, SpawnOrder);
    var w := |s.workers|;
    Admitted(c, from, s2, w);
    assert Put(s2, w, s2.workers[w].(pc := Locking)) == Spawned(s);
  }

  // ----- two payments of 60 and 30 from a balance of 100 -----

  const FIRST := Job(1, 7, 60, 0, 0, true)
  const SECOND := Job(2, 7, 30, 0, 0, true)

  function Base(replica: bool): Config {
    Config(2, 1, 4, 1, 4, 4, replica)
  }

  /** An initial state over the given orders, for one account with a balance of 100. */
  function Fresh100(orders: seq<Job>): State {
    State(0, Queues(orders, None, [], None), Usage(0, 0, 0), [], Idle, map[],
          Db(map[7 := [Row(100, 0)]], map[1 := Pending, 2 := Pending], []), DeadLetters([], []))
  }

  function Fresh2(): State {
    Fresh100([FIRST, SECOND])
  }

  /** Both orders are with their workers, about to take the lock. */
  function BothReady(): State {
    Fresh2().(queues := Queues([], None, [], None), usage := Usage(2, 0, 0),
              workers := [NewWorker(Orders, FIRST).(pc := Locking), NewWorker(Orders, SECOND).(pc := Locking)])
  }

  lemma Ready(c: Config, settled: bool)
    requires c.orderCap == 2
    ensures Initial(Fresh2()) && Solvent(Fresh2())
    ensures Path(c, Origin(Fresh2(), settled), BothReady())
  {
    var from := Origin(Fresh2(), settled);
    Start(c, from);
    Spawn(c, from, Fresh2());
    Spawn(c, from, Spawned(Fresh2()));
    assert Spawned(Spawned(Fresh2())) == BothReady();
  }

  /** Two payments are in the history, but the account shows only one of them. */
  predicate LostUpdate(s: State, i: nat, j: nat) {
    && 7 in s.db.rows && s.db.rows[7] != [] && Current(s, 7).count == 1
    && i < j < |s.db.history|
    && s.db.history[i].Debited? && s.db.history[i].account == 7
    && s.db.history[j].Debited? && s.db.history[j].account == 7
  }

  lemma {:induction false} ChargesSeen(h: seq<Event>, i: nat, a: AccountId)
    requires i < |h| && h[i].Debited? && h[i].account == a
    ensures EventSum(h, Charges(a)) >= 1
  {
    if i < |h| - 1 {
      ChargesSeen(h[..|h| - 1], i, a);
    } else {
      EventCount(h[..|h| - 1], Charges(a));
    }
  }

  lemma {:induction false} TwoChargesSeen(h: seq<Event>, i: nat, j: nat, a: AccountId)
    requires i < j < |h|
    requires h[i].Debited? && h[i].account == a && h[j].Debited? && h[j].account == a
    ensures EventSum(h, Charges(a)) >= 2
  {
    if j < |h| - 1 {
      TwoChargesSeen(h[..|h| - 1], i, j, a);
    } else {
      ChargesSeen(h[..|h| - 1], i, a);
    }
  }

  lemma LostUpdateBreaksBooks(s: State, i: nat, j: nat)
    requires LostUpdate(s, i, j)
    ensures !Conserved(Fresh2(), s)
  {
    TwoChargesSeen(s.db.history, i, j, 7);
    assert !Balanced(Fresh2(), s, 7);
  }

  /** The release of the lock and the commit, one after the other. */
  function Departed(s: State, w: nat): State
    requires w < |s.workers| && s.workers[w].seen.Some?
  {
    Committed(Released(Written(s, w), w), w)
  }

  lemma Leave(c: Config, from: Origin, s: State, w: nat)
    requires Path(c, from, s) && CanPay(c, s, w)
    ensures Path(c, from, Departed(s, w))
  {
    Pay(c, from, s, w);
    Release(c, from, Written(s, w), w);
    Commit(c, from, Released(Written(s, w), w), w);
  }

  // ----- two of the three hypotheses do not suffice -----

  /** A run of the two payments that obeys `h` loses one of them. */
  ghost predicate LosesPayment(c: Config, h: (State, Step) -> bool) {
    exists steps :: ValidRun(c, Fresh2(), steps) && Throughout(c, Fresh2(), steps, h)
                    && !Conserved(Fresh2(), End(c, Fresh2(), steps))
  }

  /** The critical sections in progress began at the present time. */
  ghost predicate SectionsNew(s: State) {
    forall w :: 0 <= w < |s.workers| && InSection(s.workers[w]) ==> s.workers[w].lock.value == s.now
  }

  lemma StepKeepsNew(c: Config, s: State, step: Step)
    requires Enabled(c, s, step) && AllOk(s) && SectionsNew(s)
    ensures Apply(c, s, step).now >= s.now
    ensures Apply(c, s, step).now == s.now ==> SectionsNew(Apply(c, s, step))
    ensures !WinsOverExpired(s, step)
  {
    if step.Work? {
      LockChange(c, s, step.w, step.a);
    }
  }

  lemma {:induction false} TimePasses(c: Config, s: State, steps: seq<Step>)
    requires ValidRun(c, s, steps)
    ensures End(c, s, steps).now >= s.now
    decreases |steps|
  {
    if steps != [] {
      TimePasses(c, Apply(c, s, steps[0]), steps[1..]);
    }
  }

  /** In a run that takes no time nothing outlives its expiry. */
  lemma {:induction false} NoTimeNoOverrun(c: Config, s: State, steps: seq<Step>)
    requires ValidRun(c, s, steps) && AllOk(s) && SectionsNew(s) && End(c, s, steps).now == s.now
    ensures NeverWinsOverExpired(c, s, steps)
    decreases |steps|
  {
    if steps != [] {
      StepKeepsNew(c, s, steps[0]);
      StepKeepsOk(c, s, steps[0]);
      TimePasses(c, Apply(c, s, steps[0]), steps[1..]);
      NoTimeNoOverrun(c, Apply(c, s, steps[0]), steps[1..]);
    }
  }

  /** Without a replica every balance is read from the latest row. */
  lemma {:induction false} PrimaryReadsLatest(c: Config, s: State, steps: seq<Step>)
    requires ValidRun(c, s, steps) && !c.replica
    ensures Throughout(c, s, steps, ReadsLatest)
    decreases |steps|
  {
    if steps != [] {
      PrimaryReadsLatest(c, Apply(c, s, steps[0]), steps[1..]);
    }
  }

  lemma {:induction false} Both(
      c: Config, s: State, steps: seq<Step>,
      g: (State, Step) -> bool, h: (State, Step) -> bool, both: (State, Step) -> bool)
    requires ValidRun(c, s, steps) && Throughout(c, s, steps, g) && Throughout(c, s, steps, h)
    requires forall u, step :: g(u, step) && h(u, step) ==> both(u, step)
    ensures Throughout(c, s, steps, both)
    decreases |steps|
  {
    if steps != [] {
      Both(c, Apply(c, s, steps[0]), steps[1..], g, h, both);
    }
  }

  /** The second balance is read when the first worker has released its lock but not yet committed. */
  function ReadEarly(): State {
    Inside(Released(Written(Inside(BothReady(), 0, 0), 0), 0), 1, 0)
  }

  lemma ReadsEarly(c: Config, from: Origin)
    requires c == Base(false) && from == From(Fresh2())
    ensures Path(c, from, ReadEarly())
  {
    Ready(c, false);
    var s := Inside(BothReady(), 0, 0);
    Enter(c, from, BothReady(), 0, 0);
    Pay(c, from, s, 0);
    Release(c, from, Written(s, 0), 0);
    Enter(c, from, Released(Written(s, 0), 0), 1, 0);
  }

  lemma PaysEarly(c: Config, from: Origin) returns (t: State)
    requires c == Base(false) && from == From(Fresh2())
    ensures Path(c, from, t) && t.now == 0 && !Conserved(Fresh2(), t)
  {
    ReadsEarly(c, from);
    Commit(c, from, ReadEarly(), 0);
    Leave(c, from, Committed(ReadEarly(), 0), 1);
    t := Departed(Committed(ReadEarly(), 0), 1);
    LostUpdateBreaksBooks(t, 2, 4);
  }

  /** A read of the balance between another worker's release of the lock and its commit loses a payment,
      although every balance is read from the latest row and no lock is won over an expired section. */
  lemma ReadBeforeCommitLosesUpdate()
    ensures LosesPayment(Base(false), (s, step) => !WinsOverExpired(s, step) && ReadsLatest(s, step))
  {
    var c := Base(false);
    var t := PaysEarly(c, From(Fresh2()));
    var steps :| ValidRun(c, Fresh2(), steps) && End(c, Fresh2(), steps) == t;
    NoTimeNoOverrun(c, Fresh2(), steps);
    PrimaryReadsLatest(c, Fresh2(), steps);
    Both(c, Fresh2(), steps, (s, step) => !WinsOverExpired(s, step), ReadsLatest,
         (s, step) => !WinsOverExpired(s, step) && ReadsLatest(s, step));
  }

  /** The second balance is read, when the first payment is over, from the row before it. */
  function ReadStale(): State {
    Inside(Departed(Inside(BothReady(), 0, 0), 0), 1, 0)
  }

  lemma ReadsStale(c: Config, from: Origin)
    requires c == Base(true) && from == Origin(Fresh2(), true)
    ensures Path(c, from, ReadStale())
  {
    Ready(c, true);
    Enter(c, from, BothReady(), 0, 0);
    Leave(c, from, Inside(BothReady(), 0, 0), 0);
    Enter(c, from, Departed(Inside(BothReady(), 0, 0), 0), 1, 0);
  }

  lemma PaysStale(c: Config, from: Origin) returns (t: State)
    requires c == Base(true) && from == Origin(Fresh2(), true)
    ensures Path(c, from, t) && t.now == 0 && !Conserved(Fresh2(), t)
  {
    ReadsStale(c, from);
    Leave(c, from, ReadStale(), 1);
    t := Departed(ReadStale(), 1);
    LostUpdateBreaksBooks(t, 1, 4);
  }

  /** A replica that lags behind the primary loses a payment, although no balance is read before a commit and
      no lock is won over an expired section. */
  lemma StaleReplicaLosesUpdate()
    ensures LosesPayment(Base(true), (s, step) => !WinsOverExpired(s, step) && ReadsSettled(s, step))
  {
    var c, from := Base(true), Origin(Fresh2(), true);
    var t := PaysStale(c, from);
    var steps :| ValidRun(c, Fresh2(), steps) && ObeyedBy(c, from, steps) && End(c, Fresh2(), steps) == t;
    NoTimeNoOverrun(c, Fresh2(), steps);
    Both(c, Fresh2(), steps, (s, step) => !WinsOverExpired(s, step), (s, step) => Obeys(from, s, step),
         (s, step) => !WinsOverExpired(s, step) && ReadsSettled(s, step));
  }

  /** The second worker is in the section of the account, which the first has not left. */
  lemma SecondEnters(c: Config, from: Origin)
    requires c == Base(false) && from == Origin(Fresh2(), true)
    ensures Path(c, from, Inside(Inside(BothReady(), 0, 0).(now := LOCK_TTL), 1, 0))
  {
    Ready(c, true);
    Enter(c, from, BothReady(), 0, 0);
    var s1 := Inside(BothReady(), 0, 0);
    Go(c, from, s1, Tick(LOCK_TTL));
    assert Apply(c, s1, Tick(LOCK_TTL)) == s1.(now := LOCK_TTL);
    Enter(c, from, s1.(now := LOCK_TTL), 1, 0);
  }

  lemma PaysLate(c: Config, from: Origin) returns (t: State)
    requires c == Base(false) && from == Origin(Fresh2(), true)
    ensures Path(c, from, t) && !Conserved(Fresh2(), t)
  {
    SecondEnters(c, from);
    var s := Inside(Inside(BothReady(), 0, 0).(now := LOCK_TTL), 1, 0);
    Leave(c, from, s, 1);
    Leave(c, from, Departed(s, 1), 0);
    t := Departed(Departed(s, 1), 0);
    LostUpdateBreaksBooks(t, 2, 4);
  }

  /** A lock won over an expired section loses a payment, although every balance is read from the latest row
      and none before a commit. */
  lemma ExpiredLockLosesUpdate()
    ensures LosesPayment(Base(false), (s, step) => ReadsLatest(s, step) && ReadsSettled(s, step))
  {
    var c, from := Base(false), Origin(Fresh2(), true);
    var t := PaysLate(c, from);
    var steps :| ValidRun(c, Fresh2(), steps) && ObeyedBy(c, from, steps) && End(c, Fresh2(), steps) == t;
    PrimaryReadsLatest(c, Fresh2(), steps);
    Both(c, Fresh2(), steps, ReadsLatest, (s, step) => Obeys(from, s, step),
         (s, step) => ReadsLatest(s, step) && ReadsSettled(s, step));
  }
}
