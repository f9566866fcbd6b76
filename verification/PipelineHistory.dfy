/** Sums over the history of committed events. */
module PipelineHistory {
  import opened Jobs
  import opened Pipeline

  function EventSum(h: seq<Event>, g: Event -> int): int {
    if h == [] then 0 else EventSum(h[..|h| - 1], g) + g(h[|h| - 1])
  }

  lemma EventSumOne(h: seq<Event>, e: Event, g: Event -> int)
    ensures EventSum(h + [e], g) == EventSum(h, g) + g(e)
  {
    assert (h + [e])[..|h + [e]| - 1] == h;
  }

  /** The money debited from an account. */
  function Spent(a: AccountId): Event -> int {
    (e: Event) => if e.Debited? && e.account == a then e.amount else 0
  }

  /** The number of debits of an account. */
  function Charges(a: AccountId): Event -> int {
    (e: Event) => if e.Debited? && e.account == a then 1 else 0
  }

  /** The number of debits made for an order. */
  function DebitsOf(k: Key): Event -> int {
    (e: Event) => if e.Debited? && e.key == k then 1 else 0
  }

  /** The number of times an order was set to success. */
  function SuccessesOf(k: Key): Event -> int {
    (e: Event) => if e == StatusSet(k, Success) then 1 else 0
  }

  /** The number of times ProcessPayment started on an order. */
  function AttemptsOf(k: Key): Event -> int {
    (e: Event) => if e == Attempted(k) then 1 else 0
  }

  /** The step commits a transaction that carries a debit of an existing account. */
  predicate CommitsDebit(s: State, step: Step) {
    && step.Work? && step.w < |s.workers| && step.a == Close(true)
    && s.workers[step.w].tx.Tx? && s.workers[step.w].tx.row.Some?
    && s.workers[step.w].job.account in s.db.rows
  }

  /** The events a step adds to the history. */
  function NewEvents(s: State, step: Step): seq<Event> {
    if step.Work? && step.w < |s.workers| then
      var wk := s.workers[step.w];
      match step.a
      case GiveUp(ok) => if ok && wk.job.key in s.db.status then [StatusSet(wk.job.key, Failed)] else []
      case TakeLock => [Attempted(wk.job.key)]
      case LockFault(_) => [Attempted(wk.job.key)]
      case Close(applied) =>
        if !applied || wk.tx.NoTx? then [] else
        (if CommitsDebit(s, step) then [Debited(wk.job.key, wk.job.account, wk.job.amount)] else [])
        + (if wk.tx.status.Some? && wk.job.key in s.db.status then [StatusSet(wk.job.key, wk.tx.status.value)] else [])
      case _ => []
    else if step == HandlerFail(true) && s.handler.Updating? && s.handler.job.key in s.db.status then
      [StatusSet(s.handler.job.key, Failed)]
    else []
  }

  lemma StepWrites(c: Config, s: State, step: Step)
    requires Enabled(c, s, step)
    ensures Apply(c, s, step).db.history == s.db.history + NewEvents(s, step)
    ensures Apply(c, s, step).db.rows
         == (if CommitsDebit(s, step) then
               s.db.rows[s.workers[step.w].job.account :=
                         s.db.rows[s.workers[step.w].job.account] + [s.workers[step.w].tx.row.value]]
             else s.db.rows)
    ensures Apply(c, s, step).db.status.Keys == s.db.status.Keys
  {
    if step.Work? {
      WorkWrites(s, step.w, step.a);
    }
  }

  lemma WorkWrites(s: State, w: nat, a: Action)
    requires w < |s.workers|
    ensures var wk, db := s.workers[w], NextDb(s, s.workers[w], a);
            && db.history == s.db.history + NewEvents(s, Work(w, a))
            && db.rows == (if CommitsDebit(s, Work(w, a))
                           then s.db.rows[wk.job.account := s.db.rows[wk.job.account] + [wk.tx.row.value]]
                           else s.db.rows)
            && db.status.Keys == s.db.status.Keys
  {
  }

  /** A sum over the history grows by its sum over the new events. */
  lemma StepSums(c: Config, s: State, step: Step, g: Event -> int)
    requires Enabled(c, s, step)
    ensures EventSum(Apply(c, s, step).db.history, g) == EventSum(s.db.history, g) + EventSum(NewEvents(s, step), g)
  {
    StepWrites(c, s, step);
    AppendSum(s.db.history, NewEvents(s, step), g);
  }

  lemma {:induction false} AppendSum(h: seq<Event>, more: seq<Event>, g: Event -> int)
    ensures EventSum(h + more, g) == EventSum(h, g) + EventSum(more, g)
  {
    if more == [] {
      assert h + more == h;
    } else {
      var n := |more| - 1;
      AppendSum(h, more[..n], g);
      EventSumOne(h + more[..n], more[n], g);
      EventSumOne(more[..n], more[n], g);
      assert h + more == (h + more[..n]) + [more[n]];
      assert more == more[..n] + [more[n]];
    }
  }

  /** What the new events weigh, by the kind of step. */
  lemma NewEventSum(s: State, step: Step, g: Event -> int)
    ensures EventSum(NewEvents(s, step), g)
         == if NewEvents(s, step) == [] then 0
            else if |NewEvents(s, step)| == 1 then g(NewEvents(s, step)[0])
            else g(NewEvents(s, step)[0]) + g(NewEvents(s, step)[1])
  {
    var es := NewEvents(s, step);
    if es != [] {
      EventSumOne([], es[0], g);
      assert [] + [es[0]] == [es[0]];
      if |es| == 1 {
        assert es == [es[0]];
      } else {
        EventSumOne([es[0]], es[1], g);
        assert es == [es[0]] + [es[1]];
      }
    }
  }
}
