/** Every step of the pipeline moves at most two items between places.  Weighing each place therefore
    turns a question about a whole run (how many copies, how many connections, how many steps are left)
    into a comparison of the places one step empties and fills. */
module PipelineMoves {
  import opened Jobs
  import opened Pipeline

  /** The queues and hands in which a job can wait. */
  datatype Stage = Queued | Fetched | Caught | Recording | Requeued | Refetched

  datatype Place = Waiting(stage: Stage, job: Job) | Working(worker: Worker)

  function JobSum(js: seq<Job>, stage: Stage, f: Place -> int): int {
    if js == [] then 0 else JobSum(js[..|js| - 1], stage, f) + f(Waiting(stage, js[|js| - 1]))
  }

  function WorkerSum(ws: seq<Worker>, f: Place -> int): int {
    if ws == [] then 0 else WorkerSum(ws[..|ws| - 1], f) + f(Working(ws[|ws| - 1]))
  }

  function OptionSum(o: Option<Job>, stage: Stage, f: Place -> int): int {
    if o.Some? then f(Waiting(stage, o.value)) else 0
  }

  function HandlerSum(h: Handler, f: Place -> int): int {
    match h
    case Idle => 0
    case Holding(job) => f(Waiting(Caught, job))
    case Updating(job) => f(Waiting(Recording, job))
  }

  /** The weight of everything in the pipeline. */
  function Total(s: State, f: Place -> int): int {
    JobSum(s.queues.orders, Queued, f) + OptionSum(s.queues.fetchedOrder, Fetched, f)
    + WorkerSum(s.workers, f) + HandlerSum(s.handler, f)
    + JobSum(s.queues.retries, Requeued, f) + OptionSum(s.queues.fetchedRetry, Refetched, f)
  }

  function PlaceSum(ps: seq<Place>, f: Place -> int): int {
    if ps == [] then 0 else f(ps[0]) + PlaceSum(ps[1..], f)
  }

  /** The places a step empties. */
  function Left(c: Config, s: State, step: Step): seq<Place>
    requires Enabled(c, s, step)
  {
    match step
    case Tick(_) => []
    case FetchOrder(i) => [Waiting(Queued, s.queues.orders[i])]
    case SpawnOrder => [Waiting(Fetched, s.queues.fetchedOrder.value)]
    case FetchRetry(i) => [Waiting(Requeued, s.queues.retries[i])]
    case SpawnRetry => [Waiting(Refetched, s.queues.fetchedRetry.value)]
    case Work(w, _) => [Working(s.workers[w])]
    case Publish(_, _) => [Waiting(Caught, s.handler.job)]
    case HandlerConnect => [Waiting(Caught, s.handler.job)]
    case HandlerFail(_) => [Waiting(Recording, s.handler.job)]
    case HandlerFault => [Waiting(Caught, s.handler.job)]
  }

  /** The places a step fills. */
  function Entered(c: Config, s: State, step: Step): seq<Place>
    requires Enabled(c, s, step)
  {
    match step
    case Tick(_) => []
    case FetchOrder(i) => [Waiting(Fetched, s.queues.orders[i])]
    case SpawnOrder => [Working(NewWorker(Orders, s.queues.fetchedOrder.value))]
    case FetchRetry(i) => [Waiting(Refetched, s.queues.retries[i])]
    case SpawnRetry => [Working(NewWorker(Retries, s.queues.fetchedRetry.value))]
    case Work(w, a) =>
      if a == Offer then [Working(NextWorker(c, s, w, a)), Waiting(Caught, NextTry(s.workers[w].job))]
      else [Working(NextWorker(c, s, w, a))]
    case Publish(draw, ok) => if ok then [Waiting(Requeued, Delayed(c, s, s.handler.job, draw))] else []
    case HandlerConnect => [Waiting(Recording, s.handler.job)]
    case HandlerFail(_) => []
    case HandlerFault => []
  }

  lemma {:induction false} JobSumAppend(js: seq<Job>, more: seq<Job>, stage: Stage, f: Place -> int)
    ensures JobSum(js + more, stage, f) == JobSum(js, stage, f) + JobSum(more, stage, f)
  {
    if more == [] {
      assert js + more == js;
    } else {
      assert (js + more)[..|js + more| - 1] == js + more[..|more| - 1];
      JobSumAppend(js, more[..|more| - 1], stage, f);
    }
  }

  lemma JobSumWithout(js: seq<Job>, i: nat, stage: Stage, f: Place -> int)
    requires i < |js|
    ensures JobSum(js, stage, f) == JobSum(Without(js, i), stage, f) + f(Waiting(stage, js[i]))
  {
    assert js == js[..i] + ([js[i]] + js[i + 1..]);
    JobSumAppend(js[..i], [js[i]] + js[i + 1..], stage, f);
    JobSumAppend([js[i]], js[i + 1..], stage, f);
    JobSumAppend(js[..i], js[i + 1..], stage, f);
    assert [js[i]][..0] == [];
  }

  lemma {:induction false} WorkerSumUpdate(ws: seq<Worker>, w: nat, wk: Worker, f: Place -> int)
    requires w < |ws|
    ensures WorkerSum(ws[w := wk], f) == WorkerSum(ws, f) - f(Working(ws[w])) + f(Working(wk))
  {
    var n := |ws| - 1;
    if w == n {
      assert ws[w := wk][..n] == ws[..n];
    } else {
      assert ws[w := wk][..n] == ws[..n][w := wk];
      WorkerSumUpdate(ws[..n], w, wk, f);
    }
  }

  lemma SumOfFew(p: Place, q: Place, f: Place -> int)
    ensures PlaceSum([p], f) == f(p)
    ensures PlaceSum([p, q], f) == f(p) + f(q)
  {
    assert [p][1..] == [];
    assert [p, q][1..] == [q];
    assert [q][1..] == [];
  }

  /** The local account of a step: what the whole system weighs changes by what enters minus what leaves. */
  lemma StepMoves(c: Config, s: State, step: Step, f: Place -> int)
    requires Enabled(c, s, step)
    ensures Total(Apply(c, s, step), f)
         == Total(s, f) - PlaceSum(Left(c, s, step), f) + PlaceSum(Entered(c, s, step), f)
  {
    if step.Work? {
      WorkMoves(c, s, step.w, step.a, f);
    } else if step.FetchOrder? || step.FetchRetry? {
      FetchMoves(c, s, step, f);
    } else if step.SpawnOrder? || step.SpawnRetry? {
      SpawnMoves(c, s, step, f);
    } else if !step.Tick? {
      ReaderMoves(c, s, step, f);
    }
  }

  lemma FetchMoves(c: Config, s: State, step: Step, f: Place -> int)
    requires Enabled(c, s, step) && (step.FetchOrder? || step.FetchRetry?)
    ensures Total(Apply(c, s, step), f)
         == Total(s, f) - PlaceSum(Left(c, s, step), f) + PlaceSum(Entered(c, s, step), f)
  {
    MovesAsFew(c, s, step, f);
    if step.FetchOrder? {
      JobSumWithout(s.queues.orders, step.i, Queued, f);
    } else {
      JobSumWithout(s.queues.retries, step.i, Requeued, f);
    }
  }

  lemma SpawnMoves(c: Config, s: State, step: Step, f: Place -> int)
    requires Enabled(c, s, step) && (step.SpawnOrder? || step.SpawnRetry?)
    ensures Total(Apply(c, s, step), f)
         == Total(s, f) - PlaceSum(Left(c, s, step), f) + PlaceSum(Entered(c, s, step), f)
  {
    MovesAsFew(c, s, step, f);
    var t := Apply(c, s, step);
    assert t.workers[..|t.workers| - 1] == s.workers;
  }

  /** The steps of the channel reader. */
  lemma ReaderMoves(c: Config, s: State, step: Step, f: Place -> int)
    requires Enabled(c, s, step) && (step.Publish? || step.HandlerConnect? || step.HandlerFail? || step.HandlerFault?)
    ensures Total(Apply(c, s, step), f)
         == Total(s, f) - PlaceSum(Left(c, s, step), f) + PlaceSum(Entered(c, s, step), f)
  {
    MovesAsFew(c, s, step, f);
    if step.Publish? && step.ok {
      var t := Apply(c, s, step);
      assert t.queues.retries[..|t.queues.retries| - 1] == s.queues.retries;
    }
  }

  lemma WorkMoves(c: Config, s: State, w: nat, a: Action, f: Place -> int)
    requires Enabled(c, s, Work(w, a))
    ensures Total(Apply(c, s, Work(w, a)), f)
         == Total(s, f) - PlaceSum(Left(c, s, Work(w, a)), f) + PlaceSum(Entered(c, s, Work(w, a)), f)
  {
    WorkerSumUpdate(s.workers, w, NextWorker(c, s, w, a), f);
    SumOfFew(Working(s.workers[w]), Working(s.workers[w]), f);
    SumOfFew(Working(NextWorker(c, s, w, a)), Waiting(Caught, NextTry(s.workers[w].job)), f);
  }

  function FewSum(ps: seq<Place>, f: Place -> int): int
    requires |ps| <= 2
  {
    if |ps| == 0 then 0 else if |ps| == 1 then f(ps[0]) else f(ps[0]) + f(ps[1])
  }

  /** The sums over the places of one step, written out. */
  lemma MovesAsFew(c: Config, s: State, step: Step, f: Place -> int)
    requires Enabled(c, s, step)
    ensures |Left(c, s, step)| <= 1 && PlaceSum(Left(c, s, step), f) == FewSum(Left(c, s, step), f)
    ensures |Entered(c, s, step)| <= 2 && PlaceSum(Entered(c, s, step), f) == FewSum(Entered(c, s, step), f)
  {
    var out, into := Left(c, s, step), Entered(c, s, step);
    if |out| == 1 {
      SumOfFew(out[0], out[0], f);
      assert out == [out[0]];
    }
    if |into| == 1 {
      SumOfFew(into[0], into[0], f);
      assert into == [into[0]];
    }
    if |into| == 2 {
      SumOfFew(into[0], into[1], f);
      assert into == [into[0], into[1]];
    }
  }

  /** A weight that no place makes negative. */
  ghost predicate Positive(f: Place -> int) {
    forall p :: 0 <= f(p)
  }

  lemma {:induction false} JobSumPositive(js: seq<Job>, stage: Stage, f: Place -> int)
    requires Positive(f)
    ensures 0 <= JobSum(js, stage, f)
    ensures forall j :: j in js ==> f(Waiting(stage, j)) <= JobSum(js, stage, f)
  {
    if js != [] {
      JobSumPositive(js[..|js| - 1], stage, f);
      assert js == js[..|js| - 1] + [js[|js| - 1]];
    }
  }

  lemma {:induction false} WorkerSumPositive(ws: seq<Worker>, f: Place -> int)
    requires Positive(f)
    ensures 0 <= WorkerSum(ws, f)
    ensures forall w :: 0 <= w < |ws| ==> f(Working(ws[w])) <= WorkerSum(ws, f)
  {
    if ws != [] {
      WorkerSumPositive(ws[..|ws| - 1], f);
      forall w | 0 <= w < |ws|
        ensures f(Working(ws[w])) <= WorkerSum(ws, f)
      {
        if w < |ws| - 1 {
          assert ws[w] == ws[..|ws| - 1][w];
        }
      }
    }
  }

  /** No single place outweighs the whole. */
  lemma PlaceInTotal(s: State, f: Place -> int)
    requires Positive(f)
    ensures 0 <= Total(s, f)
    ensures forall w :: 0 <= w < |s.workers| ==> f(Working(s.workers[w])) + HandlerSum(s.handler, f) <= Total(s, f)
    ensures forall j :: j in s.queues.orders ==> f(Waiting(Queued, j)) <= Total(s, f)
    ensures forall j :: j in s.queues.retries ==> f(Waiting(Requeued, j)) <= Total(s, f)
    ensures HandlerSum(s.handler, f) <= Total(s, f)
    ensures OptionSum(s.queues.fetchedOrder, Fetched, f) <= Total(s, f)
    ensures OptionSum(s.queues.fetchedRetry, Refetched, f) <= Total(s, f)
  {
    JobSumPositive(s.queues.orders, Queued, f);
    JobSumPositive(s.queues.retries, Requeued, f);
    WorkerSumPositive(s.workers, f);
  }

  lemma WorkerInTotal(s: State, w: nat, f: Place -> int)
    requires Positive(f) && w < |s.workers|
    ensures 0 <= f(Working(s.workers[w])) <= Total(s, f)
  {
    PlaceInTotal(s, f);
  }

  lemma TotalPositive(s: State, f: Place -> int)
    requires Positive(f)
    ensures 0 <= Total(s, f)
  {
    PlaceInTotal(s, f);
  }
}
