/** A Kafka consumer of the payment worker (orders or retries): one reader, a semaphore, a goroutine per
    message, and the commit manager.  The context may be cancelled at any time. */
module Consumer {
  import opened Jobs
  import opened Commits

  datatype Message = Message(tp: TopicPartition, offset: int)

  /** How a goroutine ended.  `Abandoned` is the return on a cancelled context, before anything is
      processed; it acknowledges nothing. */
  datatype Outcome = Processed | DeadLettered | Abandoned

  datatype State = State(
    cancelled: bool,
    stopped: bool,                                // the reader has returned
    next: map<TopicPartition, int>,               // next offset of each assigned partition
    held: Option<Message>,                        // read, waiting for a slot
    slots: int,                                   // semaphore slots taken
    inFlight: set<Message>,
    ended: map<Message, Outcome>,
    manager: map<TopicPartition, Partition>,
    committed: map<TopicPartition, int>)          // what the broker has accepted

  datatype Step =
    | Cancel
    | Read(tp: TopicPartition)
    | Start                                       // a slot is taken and the goroutine starts
    | Stop                                        // the reader sees the cancelled context
    | Abandon(m: Message)
    | Finish(m: Message, dead: bool, accept: bool)

  function View(s: State, tp: TopicPartition): Partition {
    if tp in s.manager then s.manager[tp] else UNTOUCHED
  }

  predicate Enabled(cap: nat, s: State, step: Step) {
    match step
    case Cancel => true
    case Read(tp) => !s.stopped && s.held.None? && tp in s.next
    case Start => s.held.Some? && !s.stopped && s.slots < cap
    case Stop => s.held.Some? && !s.stopped && s.cancelled
    case Abandon(m) => m in s.inFlight && s.cancelled
    case Finish(m, _, _) => m in s.inFlight
  }

  function Apply(cap: nat, s: State, step: Step): State
    requires Enabled(cap, s, step)
  {
    match step
    case Cancel => s.(cancelled := true)
    case Read(tp) => s.(held := Some(Message(tp, s.next[tp])), next := s.next[tp := s.next[tp] + 1])
    case Start => s.(held := None, slots := s.slots + 1, inFlight := s.inFlight + {s.held.value})
    case Stop => s.(stopped := true)
    case Abandon(m) => s.(slots := s.slots - 1, inFlight := s.inFlight - {m}, ended := s.ended[m := Abandoned])
    case Finish(m, dead, accept) =>
      var p := View(s, m.tp);
      s.(slots := s.slots - 1, inFlight := s.inFlight - {m},
         ended := s.ended[m := if dead then DeadLettered else Processed],
         manager := s.manager[m.tp := Acked(p, m.offset, accept)],
         committed := if Asked(p, m.offset).Some? && accept
                      then s.committed[m.tp := Asked(p, m.offset).value] else s.committed)
  }

  predicate ValidRun(cap: nat, s: State, steps: seq<Step>)
    decreases |steps|
  {
    steps == [] || (Enabled(cap, s, steps[0]) && ValidRun(cap, Apply(cap, s, steps[0]), steps[1..]))
  }

  function End(cap: nat, s: State, steps: seq<Step>): State
    requires ValidRun(cap, s, steps)
    decreases |steps|
  {
    if steps == [] then s else End(cap, Apply(cap, s, steps[0]), steps[1..])
  }

  predicate Initial(s: State) {
    && !s.stopped && s.held.None? && s.slots == 0 && s.inFlight == {}
    && s.ended == map[] && s.manager == map[] && s.committed == map[]
  }

  /** The message was processed or handed to the dead-letter topic; it did not leave on a cancelled path. */
  predicate Disposed(s: State, m: Message) {
    m in s.ended && s.ended[m] != Abandoned
  }

  /** A message is in one place only, and offsets not yet read are nowhere. */
  ghost predicate Placed(s: State) {
    && (forall m :: m in s.inFlight ==> m !in s.ended && s.held != Some(m))
    && (s.held.Some? ==> s.held.value !in s.ended)
    && (forall m :: m in s.inFlight || m in s.ended || s.held == Some(m) ==> m.tp in s.next && m.offset < s.next[m.tp])
  }

  /** The offsets of a partition that were disposed of. */
  function DisposedOffsets(s: State, tp: TopicPartition): set<int> {
    set m | m in s.ended && s.ended[m] != Abandoned && m.tp == tp :: m.offset
  }

  /** What the manager of a partition knows was disposed of, and the broker holds the manager's mark. */
  ghost predicate Backed(s: State, tp: TopicPartition) {
    && Sound(View(s, tp), DisposedOffsets(s, tp))
    && (tp in s.committed ==> s.committed[tp] == View(s, tp).high + 1)
  }

  ghost predicate Ordered(cap: nat, s: State) {
    && Placed(s)
    && s.slots == |s.inFlight| <= cap
    && forall tp :: Backed(s, tp)
  }

  lemma DisposedAlso(s: State, m: Message, o: Outcome, tp: TopicPartition)
    requires m !in s.ended
    ensures DisposedOffsets(s.(ended := s.ended[m := o]), tp)
         == DisposedOffsets(s, tp) + (if o != Abandoned && m.tp == tp then {m.offset} else {})
  {
    var t := s.(ended := s.ended[m := o]);
    forall x | x in DisposedOffsets(s, tp)
      ensures x in DisposedOffsets(t, tp)
    {
      var n :| n in s.ended && s.ended[n] != Abandoned && n.tp == tp && n.offset == x;
      assert n in t.ended && t.ended[n] == s.ended[n];
    }
    if o != Abandoned && m.tp == tp {
      assert m in t.ended && t.ended[m] == o;
    }
  }

  lemma StepKeepsBacked(cap: nat, s: State, step: Step, tp: TopicPartition)
    requires Enabled(cap, s, step) && Placed(s) && Backed(s, tp)
    ensures Backed(Apply(cap, s, step), tp)
  {
    var t := Apply(cap, s, step);
    match step
    case Finish(m, dead, accept) =>
      FinishKeepsBacked(cap, s, m, dead, accept, tp);
    case Abandon(m) =>
      DisposedAlso(s, m, Abandoned, tp);
      assert DisposedOffsets(t, tp) == DisposedOffsets(s.(ended := s.ended[m := Abandoned]), tp);
    case _ =>
      assert DisposedOffsets(t, tp) == DisposedOffsets(s, tp);
  }

  lemma FinishKeepsBacked(cap: nat, s: State, m: Message, dead: bool, accept: bool, tp: TopicPartition)
    requires Enabled(cap, s, Finish(m, dead, accept)) && Placed(s) && Backed(s, tp)
    ensures Backed(Apply(cap, s, Finish(m, dead, accept)), tp)
  {
    var t := Apply(cap, s, Finish(m, dead, accept));
    var o := if dead then DeadLettered else Processed;
    DisposedAlso(s, m, o, tp);
    assert t.ended == s.(ended := s.ended[m := o]).ended;
    assert DisposedOffsets(t, tp) == DisposedOffsets(s.(ended := s.ended[m := o]), tp);
    if m.tp == tp {
      AckSound(View(s, tp), DisposedOffsets(s, tp), m.offset, accept);
    } else {
      assert View(t, tp) == View(s, tp);
    }
  }

  lemma StepKeepsOrdered(cap: nat, s: State, step: Step)
    requires Enabled(cap, s, step) && Ordered(cap, s)
    ensures Ordered(cap, Apply(cap, s, step))
  {
    forall tp
      ensures Backed(Apply(cap, s, step), tp)
    {
      assert Backed(s, tp);
      StepKeepsBacked(cap, s, step, tp);
    }
  }

  lemma {:induction false} RunKeepsOrdered(cap: nat, s: State, steps: seq<Step>)
    requires ValidRun(cap, s, steps) && Ordered(cap, s)
    ensures Ordered(cap, End(cap, s, steps))
    decreases |steps|
  {
    if steps != [] {
      StepKeepsOrdered(cap, s, steps[0]);
      RunKeepsOrdered(cap, Apply(cap, s, steps[0]), steps[1..]);
    }
  }

  /** In every run, cancelled or not and whatever commits fail: if the broker holds offset n + 1 for a
      partition, every message from 1 to n was processed or handed to the dead-letter topic, never
      abandoned; no message at 1 or above that is in flight or waits for a slot lies below the committed
      offset; and the goroutines never outnumber the semaphore. */
  lemma NothingInFlightIsSkipped(cap: nat, s: State, steps: seq<Step>, tp: TopicPartition)
    requires Initial(s) && ValidRun(cap, s, steps)
    ensures var t := End(cap, s, steps);
            && |t.inFlight| == t.slots <= cap
            && (tp in t.committed ==>
                  && (forall i :: 1 <= i < t.committed[tp] ==> Disposed(t, Message(tp, i)))
                  && (forall m :: (m in t.inFlight || t.held == Some(m)) && m.tp == tp && m.offset >= 1
                                  ==> m.offset >= t.committed[tp]))
  {
    RunKeepsOrdered(cap, s, steps);
    var t := End(cap, s, steps);
    assert Backed(t, tp);
    forall i | i in DisposedOffsets(t, tp)
      ensures Disposed(t, Message(tp, i))
    {
      var m :| m in t.ended && t.ended[m] != Abandoned && m.tp == tp && m.offset == i;
      assert m == Message(tp, i);
    }
    if tp in t.committed {
      forall i | 1 <= i < t.committed[tp]
        ensures Disposed(t, Message(tp, i))
      {
        assert i in DisposedOffsets(t, tp);
      }
    }
  }

  // ----- nothing is abandoned on a live context -----

  ghost predicate LiveKeeps(s: State) {
    && (s.stopped ==> s.cancelled)
    && forall m :: m in s.ended && s.ended[m] == Abandoned ==> s.cancelled
  }

  /** In every run a message is abandoned, or the reader stops, only once the context is cancelled. */
  lemma {:induction false} AbandonedOnlyIfCancelled(cap: nat, s: State, steps: seq<Step>)
    requires ValidRun(cap, s, steps) && LiveKeeps(s)
    ensures LiveKeeps(End(cap, s, steps))
    decreases |steps|
  {
    if steps != [] {
      AbandonedOnlyIfCancelled(cap, Apply(cap, s, steps[0]), steps[1..]);
    }
  }

  // ----- everything disposed of is committed -----

  /** The offsets of a partition that failed commits have forgotten, after one more step. */
  function Forgets(s: State, step: Step, tp: TopicPartition, missing: set<int>): set<int> {
    if step.Finish? && step.m.tp == tp then Missed(View(s, tp), missing, Ack(step.m.offset, step.accept)) else missing
  }

  function ForgottenIn(cap: nat, s: State, steps: seq<Step>, tp: TopicPartition, missing: set<int>): set<int>
    requires ValidRun(cap, s, steps)
    decreases |steps|
  {
    if steps == [] then missing
    else ForgottenIn(cap, Apply(cap, s, steps[0]), steps[1..], tp, Forgets(s, steps[0], tp, missing))
  }

  /** The manager tracks what was disposed of, and the broker holds the manager's mark once it has moved. */
  ghost predicate Kept(s: State, tp: TopicPartition, missing: set<int>) {
    && Tracks(View(s, tp), DisposedOffsets(s, tp), missing)
    && (tp in s.committed <==> View(s, tp).high > 0)
    && (tp in s.committed ==> s.committed[tp] == View(s, tp).high + 1)
  }

  lemma StepKeepsKept(cap: nat, s: State, step: Step, tp: TopicPartition, missing: set<int>)
    requires Enabled(cap, s, step) && Placed(s) && Kept(s, tp, missing)
    ensures Kept(Apply(cap, s, step), tp, Forgets(s, step, tp, missing))
  {
    var t := Apply(cap, s, step);
    match step
    case Finish(m, dead, accept) =>
      FinishKeepsKept(cap, s, m, dead, accept, tp, missing);
    case Abandon(m) =>
      DisposedAlso(s, m, Abandoned, tp);
      assert DisposedOffsets(t, tp) == DisposedOffsets(s.(ended := s.ended[m := Abandoned]), tp);
    case _ =>
      assert DisposedOffsets(t, tp) == DisposedOffsets(s, tp);
  }

  /** A message that is processed and one that is dead-lettered are acknowledged alike. */
  lemma FinishKeepsKept(
      cap: nat, s: State, m: Message, dead: bool, accept: bool, tp: TopicPartition, missing: set<int>)
    requires Enabled(cap, s, Finish(m, dead, accept)) && Placed(s) && Kept(s, tp, missing)
    ensures Kept(Apply(cap, s, Finish(m, dead, accept)), tp, Forgets(s, Finish(m, dead, accept), tp, missing))
  {
    var t := Apply(cap, s, Finish(m, dead, accept));
    var o := if dead then DeadLettered else Processed;
    DisposedAlso(s, m, o, tp);
    assert DisposedOffsets(t, tp) == DisposedOffsets(s.(ended := s.ended[m := o]), tp);
    if m.tp == tp {
      AckTracks(View(s, tp), DisposedOffsets(s, tp), missing, Ack(m.offset, accept));
      AckSound(View(s, tp), DisposedOffsets(s, tp), m.offset, accept);
    } else {
      assert View(t, tp) == View(s, tp);
    }
  }

  lemma {:induction false} RunKeepsKept(cap: nat, s: State, steps: seq<Step>, tp: TopicPartition, missing: set<int>)
    requires ValidRun(cap, s, steps) && Ordered(cap, s) && Kept(s, tp, missing)
    ensures Kept(End(cap, s, steps), tp, ForgottenIn(cap, s, steps, tp, missing))
    decreases |steps|
  {
    if steps != [] {
      StepKeepsOrdered(cap, s, steps[0]);
      StepKeepsKept(cap, s, steps[0], tp, missing);
      RunKeepsKept(cap, Apply(cap, s, steps[0]), steps[1..], tp, Forgets(s, steps[0], tp, missing));
    }
  }

  /** In every run, cancelled or not and whatever commits fail: the watermark of a partition is the largest n such
      that the messages 1 to n were all processed or dead-lettered, if and only if no failed commit has left a
      gap; and the broker holds the offset after the watermark as soon as that is above 0. */
  lemma WatermarkIsWhatWasDisposed(cap: nat, s: State, steps: seq<Step>, tp: TopicPartition)
    requires Initial(s) && ValidRun(cap, s, steps)
    ensures var t, missing := End(cap, s, steps), ForgottenIn(cap, s, steps, tp, {});
            && (IsWatermark(View(t, tp).high, DisposedOffsets(t, tp)) <==> missing == {})
            && (tp in t.committed <==> View(t, tp).high > 0)
            && (tp in t.committed ==> t.committed[tp] == View(t, tp).high + 1)
  {
    var t, missing := End(cap, s, steps), ForgottenIn(cap, s, steps, tp, {});
    RunKeepsKept(cap, s, steps, tp, {});
    if missing != {} {
      var i :| i in missing;
      assert View(t, tp).high + 1 in DisposedOffsets(t, tp);
    }
  }

  /** The broker accepts every commit. */
  predicate AllAccepted(steps: seq<Step>) {
    forall i :: 0 <= i < |steps| && steps[i].Finish? ==> steps[i].accept
  }

  lemma {:induction false} NothingForgotten(cap: nat, s: State, steps: seq<Step>, tp: TopicPartition)
    requires ValidRun(cap, s, steps) && AllAccepted(steps)
    ensures ForgottenIn(cap, s, steps, tp, {}) == {}
    decreases |steps|
  {
    if steps != [] {
      assert forall i :: 0 <= i < |steps| - 1 ==> steps[1..][i] == steps[i + 1];
      assert Forgets(s, steps[0], tp, {}) == {};
      NothingForgotten(cap, Apply(cap, s, steps[0]), steps[1..], tp);
    }
  }

  /** In every run whose commits are accepted, everything that was processed or dead-lettered without a gap from
      message 1 on is committed: the broker holds exactly the offset after the longest such prefix. */
  lemma EverythingDisposedIsCommitted(cap: nat, s: State, steps: seq<Step>, tp: TopicPartition, n: int)
    requires Initial(s) && ValidRun(cap, s, steps) && AllAccepted(steps)
    requires n >= 1 && IsWatermark(n, DisposedOffsets(End(cap, s, steps), tp))
    ensures var t := End(cap, s, steps); tp in t.committed && t.committed[tp] == n + 1
  {
    NothingForgotten(cap, s, steps, tp);
    WatermarkIsWhatWasDisposed(cap, s, steps, tp);
    WatermarkUnique(n, View(End(cap, s, steps), tp).high, DisposedOffsets(End(cap, s, steps), tp));
  }

  // ----- offset zero is not covered -----

  const TP := TopicPartition("orders-placed", 0)

  /** Messages 0 and 1 are both in flight. */
  function BothInFlight(s: State): State {
    s.(next := s.next[TP := 2], slots := 2, inFlight := {Message(TP, 0), Message(TP, 1)})
  }

  const BOTH := [Read(TP), Start, Read(TP), Start]

  lemma ReadsBoth(s: State, rest: seq<Step>)
    requires Initial(s) && TP in s.next && s.next[TP] == 0 && ValidRun(2, BothInFlight(s), rest)
    ensures ValidRun(2, s, BOTH + rest) && End(2, s, BOTH + rest) == End(2, BothInFlight(s), rest)
  {
    var s1 := s.(held := Some(Message(TP, 0)), next := s.next[TP := 1]);
    var s2 := s1.(held := None, slots := 1, inFlight := {Message(TP, 0)});
    var s3 := s2.(held := Some(Message(TP, 1)), next := s.next[TP := 2]);
    assert Apply(2, s, Read(TP)) == s1;
    assert Apply(2, s1, Start) == s2;
    assert Apply(2, s2, Read(TP)) == s3;
    assert Apply(2, s3, Start) == BothInFlight(s);
    Prepend(s3, Start, rest);
    Prepend(s2, Read(TP), [Start] + rest);
    Prepend(s1, Start, [Read(TP)] + ([Start] + rest));
    Prepend(s, Read(TP), [Start] + ([Read(TP)] + ([Start] + rest)));
    assert BOTH + rest == [Read(TP)] + ([Start] + ([Read(TP)] + ([Start] + rest)));
  }

  /** A run in which the broker holds offset 2 while message 0 is still in flight. */
  lemma OffsetZeroIsSkipped(s: State)
    requires Initial(s) && TP in s.next && s.next[TP] == 0
    ensures exists steps :: ValidRun(2, s, steps) && CommittedPastZero(End(2, s, steps))
  {
    var last := Finish(Message(TP, 1), false, true);
    OffsetZeroSkipped();
    Prepend(BothInFlight(s), last, []);
    assert [last] + [] == [last];
    ReadsBoth(s, [last]);
    assert CommittedPastZero(End(2, s, BOTH + [last]));
  }

  predicate CommittedPastZero(t: State) {
    Message(TP, 0) in t.inFlight && TP in t.committed && t.committed[TP] == 2
  }

  lemma Prepend(s: State, step: Step, rest: seq<Step>)
    requires Enabled(2, s, step) && ValidRun(2, Apply(2, s, step), rest)
    ensures ValidRun(2, s, [step] + rest)
    ensures End(2, s, [step] + rest) == End(2, Apply(2, s, step), rest)
  {
    assert ([step] + rest)[1..] == rest;
  }
}
