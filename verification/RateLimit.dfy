/** The distributed rate limiter: a local limiter in each replica, and one Redis counter shared by all of
    them whose expiry is pushed forward on every counted call. */
module RateLimit {
  import opened Jobs

  /** The shared key.  `expires` is absent when the key has no expiry, which happens when an increment was
      applied to a new key but the expiry was not. */
  datatype Counter = Absent | Counter(count: nat, expires: Option<int>)

  /** `limited` is false for a rate of zero: no local limiter is built. */
  datatype Limits = Limits(limited: bool, burst: int, ttl: int)

  predicate ValidLimits(l: Limits) {
    l.ttl > 0
  }

  /** The pipeline of INCR and EXPIRE either replies, or fails with either part applied or not. */
  datatype Answer = Replied | Errored(incremented: bool, extended: bool)

  /** One call of `Allow` in some replica: the time, what its local limiter says, and what Redis answers. */
  datatype Call = Call(now: int, local: bool, answer: Answer)

  predicate Alive(k: Counter, now: int) {
    k.Counter? && (k.expires.Some? ==> now < k.expires.value)
  }

  function Incremented(k: Counter, now: int): Counter {
    if Alive(k, now) then k.(count := k.count + 1) else Counter(1, None)
  }

  function Extended(k: Counter, now: int, ttl: int): Counter {
    if Alive(k, now) then k.(expires := Some(now + ttl)) else Absent
  }

  /** The call gets as far as Redis. */
  predicate Touches(l: Limits, call: Call) {
    l.limited && call.local
  }

  function NextCounter(l: Limits, k: Counter, call: Call): Counter {
    if !Touches(l, call) then k else
    match call.answer
    case Replied => Extended(Incremented(k, call.now), call.now, l.ttl)
    case Errored(incremented, extended) =>
      var counted := if incremented then Incremented(k, call.now) else k;
      if extended then Extended(counted, call.now, l.ttl) else counted
  }

  /** The answer of `Allow`. */
  predicate Admits(l: Limits, k: Counter, call: Call) {
    if !l.limited then true
    else if !call.local then false
    else match call.answer
         case Errored(_, _) => true
         case Replied => Incremented(k, call.now).count <= l.burst
  }

  /** The Redis key shared by the replicas. */
  class Redis {
    var counter: Counter

    constructor ()
      ensures counter == Absent
    {
      counter := Absent;
    }
  }

  class DistributedLimiter {
    const limits: Limits
    const redis: Redis

    constructor (limits: Limits, redis: Redis)
      ensures this.limits == limits && this.redis == redis
    {
      this.limits, this.redis := limits, redis;
    }

    method Allow(call: Call) returns (ok: bool)
      modifies redis
      ensures ok == Admits(limits, old(redis.counter), call)
      ensures redis.counter == NextCounter(limits, old(redis.counter), call)
      ensures !limits.limited ==> ok && redis.counter == old(redis.counter)
      ensures limits.limited && !call.local ==> !ok && redis.counter == old(redis.counter)
      ensures limits.limited && call.local && call.answer.Errored? ==> ok
      ensures limits.limited && call.local && call.answer.Replied? ==>
                var n := if Alive(old(redis.counter), call.now) then old(redis.counter).count + 1 else 1;
                redis.counter == Counter(n, Some(call.now + limits.ttl)) && (ok <==> n <= limits.burst)
    {
      if !limits.limited {
        return true;
      }
      if !call.local {
        return false;
      }
      if call.answer.Replied? || call.answer.incremented {
        redis.counter := Incremented(redis.counter, call.now);
      }
      var count := if redis.counter.Counter? then redis.counter.count else 0;
      if call.answer.Replied? || call.answer.extended {
        redis.counter := Extended(redis.counter, call.now, limits.ttl);
      }
      if call.answer.Errored? {
        return true;
      }
      ok := count <= limits.burst;
    }
  }

  // ----- runs over all replicas -----

  function End(l: Limits, k: Counter, calls: seq<Call>): Counter
    decreases |calls|
  {
    if calls == [] then k else End(l, NextCounter(l, k, calls[0]), calls[1..])
  }

  function Admitted(l: Limits, k: Counter, calls: seq<Call>): nat
    decreases |calls|
  {
    if calls == [] then 0
    else (if Admits(l, k, calls[0]) then 1 else 0) + Admitted(l, NextCounter(l, k, calls[0]), calls[1..])
  }

  /** Calls that Redis failed to answer. */
  function Errors(l: Limits, calls: seq<Call>): nat {
    if calls == [] then 0
    else (if Touches(l, calls[0]) && calls[0].answer.Errored? then 1 else 0) + Errors(l, calls[1..])
  }

  /** No call of the run finds the counter gone: the calls share one counter lifetime. */
  predicate OneLifetime(l: Limits, k: Counter, calls: seq<Call>)
    decreases |calls|
  {
    calls == [] ||
    ((Touches(l, calls[0]) ==> Alive(k, calls[0].now)) && OneLifetime(l, NextCounter(l, k, calls[0]), calls[1..]))
  }

  function Room(l: Limits, k: Counter): nat {
    var used := if k.Counter? then k.count else 0;
    if l.burst > used then l.burst - used else 0
  }

  /** Within one lifetime the calls that are admitted are at most the room left plus the errors. */
  lemma {:induction false} LifetimeBound(l: Limits, k: Counter, calls: seq<Call>)
    requires ValidLimits(l) && l.limited && OneLifetime(l, k, calls)
    ensures Admitted(l, k, calls) <= Room(l, k) + Errors(l, calls)
    decreases |calls|
  {
    if calls != [] {
      LifetimeBound(l, NextCounter(l, k, calls[0]), calls[1..]);
    }
  }

  /** For any interleaving of replicas, the calls admitted from one reset of the counter to the next are at
      most the burst plus the Redis errors. */
  lemma BurstPerLifetime(l: Limits, k: Counter, first: Call, calls: seq<Call>)
    requires ValidLimits(l) && l.limited
    requires !Alive(k, first.now)
    requires OneLifetime(l, NextCounter(l, k, first), calls)
    ensures Admitted(l, k, [first] + calls) <= (if l.burst > 0 then l.burst else 0) + Errors(l, [first] + calls)
  {
    assert ([first] + calls)[1..] == calls;
    LifetimeBound(l, NextCounter(l, k, first), calls);
  }

  // ----- exactly how many calls are admitted -----

  /** The call raises the counter, answered or not. */
  predicate Counts(l: Limits, call: Call) {
    Touches(l, call) && (call.answer.Errored? ==> call.answer.incremented)
  }

  /** The answered calls among the first `room` that raise the counter. */
  function AnsweredWithin(l: Limits, calls: seq<Call>, room: nat): nat
    decreases |calls|
  {
    if calls == [] || room == 0 then 0
    else if !Counts(l, calls[0]) then AnsweredWithin(l, calls[1..], room)
    else (if calls[0].answer.Replied? then 1 else 0) + AnsweredWithin(l, calls[1..], room - 1)
  }

  /** Within one lifetime exactly the Redis errors are admitted, and of the answered calls those that come among
      the first that use up the room left. */
  lemma {:induction false} LifetimeExact(l: Limits, k: Counter, calls: seq<Call>)
    requires ValidLimits(l) && l.limited && OneLifetime(l, k, calls)
    ensures Admitted(l, k, calls) == Errors(l, calls) + AnsweredWithin(l, calls, Room(l, k))
    decreases |calls|
  {
    if calls != [] {
      var next := NextCounter(l, k, calls[0]);
      LifetimeExact(l, next, calls[1..]);
      if Counts(l, calls[0]) {
        assert Room(l, next) == if Room(l, k) == 0 then 0 else Room(l, k) - 1;
      } else {
        assert Room(l, next) == Room(l, k);
      }
      if Room(l, k) == 0 {
        assert AnsweredWithin(l, calls[1..], 0) == 0;
      }
    }
  }

  /** From one reset of the counter to the next, exactly the Redis errors and the answered calls among the first
      burst of counted ones are admitted. */
  lemma BurstExact(l: Limits, k: Counter, first: Call, calls: seq<Call>)
    requires ValidLimits(l) && l.limited && !Alive(k, first.now)
    requires Touches(l, first) && first.answer == Replied
    requires OneLifetime(l, NextCounter(l, k, first), calls)
    ensures Admitted(l, k, [first] + calls)
         == Errors(l, calls) + AnsweredWithin(l, [first] + calls, if l.burst > 0 then l.burst else 0)
  {
    assert ([first] + calls)[1..] == calls;
    LifetimeExact(l, NextCounter(l, k, first), calls);
    assert Room(l, NextCounter(l, k, first)) == if l.burst > 1 then l.burst - 1 else 0;
    if l.burst <= 1 {
      assert AnsweredWithin(l, calls, 0) == 0;
    }
  }

  function Answered(l: Limits, calls: seq<Call>): nat {
    if calls == [] then 0
    else (if Touches(l, calls[0]) && calls[0].answer.Replied? then 1 else 0) + Answered(l, calls[1..])
  }

  /** No call that Redis failed to answer was counted all the same. */
  predicate ErrorsUncounted(l: Limits, calls: seq<Call>) {
    forall i :: 0 <= i < |calls| && Counts(l, calls[i]) ==> calls[i].answer.Replied?
  }

  lemma {:induction false} AnsweredIsMin(l: Limits, calls: seq<Call>, room: nat)
    requires ErrorsUncounted(l, calls)
    ensures AnsweredWithin(l, calls, room) == if Answered(l, calls) <= room then Answered(l, calls) else room
    decreases |calls|
  {
    if calls != [] {
      assert forall i :: 0 <= i < |calls| - 1 ==> calls[1..][i] == calls[i + 1];
      AnsweredIsMin(l, calls[1..], room);
      if room > 0 {
        AnsweredIsMin(l, calls[1..], room - 1);
      }
    }
  }

  /** If no failed call was counted, the calls admitted within a lifetime are the errors and as many answered calls
      as there is room for. */
  lemma AdmitsWhileRoom(l: Limits, k: Counter, calls: seq<Call>)
    requires ValidLimits(l) && l.limited && OneLifetime(l, k, calls) && ErrorsUncounted(l, calls)
    ensures Admitted(l, k, calls)
         == Errors(l, calls) + (if Answered(l, calls) <= Room(l, k) then Answered(l, calls) else Room(l, k))
  {
    LifetimeExact(l, k, calls);
    AnsweredIsMin(l, calls, Room(l, k));
  }

  /** A limiter without a rate admits every call, and one whose local limiter refuses admits none; neither touches
      the shared counter. */
  lemma {:induction false} LocalDecides(l: Limits, k: Counter, calls: seq<Call>)
    requires !l.limited || forall i :: 0 <= i < |calls| ==> !calls[i].local
    ensures End(l, k, calls) == k && Admitted(l, k, calls) == if l.limited then 0 else |calls|
    decreases |calls|
  {
    if calls != [] {
      assert forall i :: 0 <= i < |calls| - 1 ==> calls[1..][i] == calls[i + 1];
      LocalDecides(l, k, calls[1..]);
    }
  }

  // ----- a busy counter -----

  /** The call pushes the expiry forward. */
  predicate Refreshes(l: Limits, call: Call) {
    Touches(l, call) && (call.answer.Errored? ==> call.answer.extended)
  }

  /** Each counted call comes within the expiry of the latest refresh, which was at `last`. */
  predicate Close(l: Limits, last: int, calls: seq<Call>)
    decreases |calls|
  {
    calls == [] ||
    ((Touches(l, calls[0]) ==> calls[0].now < last + l.ttl)
     && Close(l, if Refreshes(l, calls[0]) then calls[0].now else last, calls[1..]))
  }

  lemma {:induction false} CloseCallsKeepAlive(l: Limits, k: Counter, last: int, calls: seq<Call>)
    requires ValidLimits(l) && l.limited && k.Counter? && k.expires == Some(last + l.ttl)
    requires Close(l, last, calls)
    ensures OneLifetime(l, k, calls)
    decreases |calls|
  {
    if calls != [] {
      var latest := if Refreshes(l, calls[0]) then calls[0].now else last;
      CloseCallsKeepAlive(l, NextCounter(l, k, calls[0]), latest, calls[1..]);
    }
  }

  /** If counted calls keep arriving closer together than the expiry, the counter never resets: once the
      burst is used up, only calls that Redis fails to answer are admitted, for as long as that lasts. */
  lemma BusyLimiterNeverRecovers(l: Limits, k: Counter, last: int, calls: seq<Call>)
    requires ValidLimits(l) && l.limited && k.Counter? && k.expires == Some(last + l.ttl)
    requires k.count >= l.burst && Close(l, last, calls)
    ensures Admitted(l, k, calls) == Errors(l, calls)
    ensures OneLifetime(l, k, calls)
  {
    CloseCallsKeepAlive(l, k, last, calls);
    LifetimeBound(l, k, calls);
    ErrorsAdmitted(l, k, calls);
  }

  lemma {:induction false} ErrorsAdmitted(l: Limits, k: Counter, calls: seq<Call>)
    ensures Errors(l, calls) <= Admitted(l, k, calls)
    decreases |calls|
  {
    if calls != [] {
      ErrorsAdmitted(l, NextCounter(l, k, calls[0]), calls[1..]);
    }
  }

  /** After a call that Redis answered, the next answered call starts a new lifetime exactly when it comes
      an expiry or more later. */
  lemma ResetsIffQuiet(l: Limits, k: Counter, call: Call, next: Call)
    requires ValidLimits(l) && Touches(l, call) && call.answer == Replied
    requires Touches(l, next) && next.answer == Replied && call.now <= next.now
    ensures NextCounter(l, NextCounter(l, k, call), next).count == 1 <==> next.now >= call.now + l.ttl
  {
  }
}
