/** The commit manager: out-of-order acknowledgements become a contiguous committed watermark per partition. */
module Commits {
  import opened Jobs

  datatype TopicPartition = TopicPartition(topic: string, partition: int)

  /** What the manager knows of one partition: the last committed offset, and the acknowledged offsets
      that are not yet committed.  A partition that was never touched reads as high 0 and nothing done. */
  datatype Partition = Partition(high: int, done: set<int>)

  const UNTOUCHED := Partition(0, {})

  /** The last offset of the unbroken stretch of `done` that starts right after `high`. */
  function Scan(high: int, done: set<int>): (n: int)
    ensures n >= high
    decreases |done|
  {
    if high + 1 in done then Scan(high + 1, done - {high + 1}) else high
  }

  lemma {:induction false} ScanStretch(high: int, done: set<int>)
    ensures forall i :: high < i <= Scan(high, done) ==> i in done
    ensures Scan(high, done) + 1 !in done
    decreases |done|
  {
    if high + 1 in done {
      var rest := done - {high + 1};
      ScanStretch(high + 1, rest);
      assert forall i :: i in rest ==> i in done;
    }
  }

  /** The offsets of `done` above `lo` and up to `hi`. */
  function Stretch(done: set<int>, lo: int, hi: int): set<int> {
    set i | i in done && lo < i <= hi
  }

  /** The offset that acknowledging `off` asks the broker to commit, if any. */
  function Asked(p: Partition, off: int): Option<int> {
    var n := Scan(p.high, p.done + {off});
    if n > p.high then Some(n + 1) else None
  }

  /** The partition after `off` is acknowledged; `ok` is the broker's answer.  The scanned offsets are
      forgotten before the broker is asked. */
  function Acked(p: Partition, off: int, ok: bool): Partition {
    var done := p.done + {off};
    var n := Scan(p.high, done);
    Partition(if ok then n else p.high, done - Stretch(done, p.high, n))
  }

  class CommitManager {
    var high: map<TopicPartition, int>
    var done: map<TopicPartition, set<int>>

    function View(tp: TopicPartition): Partition
      reads this
    {
      Partition(if tp in high then high[tp] else 0, if tp in done then done[tp] else {})
    }

    constructor ()
      ensures forall tp :: View(tp) == UNTOUCHED
    {
      high := map[];
      done := map[];
    }

    /** `accept` is the broker's answer should a commit be asked for. */
    method Ack(tp: TopicPartition, off: int, accept: bool) returns (asked: Option<int>)
      modifies this
      ensures asked == Asked(old(View(tp)), off)
      ensures View(tp) == Acked(old(View(tp)), off, accept)
      ensures forall q :: q != tp ==> View(q) == old(View(q))
    {
      var start := if tp in high then high[tp] else 0;
      var next, rest := Advance(start, (if tp in done then done[tp] else {}) + {off});
      done := done[tp := rest];

      asked := None;
      if next > start {
        asked := Some(next + 1);
        if !accept {
          return;
        }
        high := high[tp := next];
      }
    }

    /** The loop of `Ack`: `next` climbs while its successor is acknowledged, and each offset it passes is
        deleted. */
    static method Advance(start: int, acked: set<int>) returns (next: int, rest: set<int>)
      ensures next == Scan(start, acked) >= start
      ensures (forall i :: start < i <= next ==> i in acked) && next + 1 !in acked
      ensures rest == acked - Stretch(acked, start, next)
    {
      next, rest := start, acked;
      while next + 1 in rest
        invariant start <= next
        invariant rest == acked - Stretch(acked, start, next)
        invariant Scan(next, rest) == Scan(start, acked)
        decreases |rest|
      {
        StretchGrows(acked, start, next);
        assert Scan(next, rest) == Scan(next + 1, rest - {next + 1});
        next := next + 1;
        rest := rest - {next};
      }
      ScanStretch(start, acked);
    }
  }

  lemma StretchGrows(all: set<int>, lo: int, hi: int)
    requires lo <= hi && hi + 1 in all
    ensures (all - Stretch(all, lo, hi)) - {hi + 1} == all - Stretch(all, lo, hi + 1)
    ensures |(all - Stretch(all, lo, hi)) - {hi + 1}| == |all - Stretch(all, lo, hi)| - 1
  {
    assert hi + 1 in all - Stretch(all, lo, hi);
  }

  // ----- runs of acknowledgements on one partition -----

  datatype Ack = Ack(off: int, ok: bool)

  function Run(p: Partition, acks: seq<Ack>): Partition
    decreases |acks|
  {
    if acks == [] then p else Run(Acked(p, acks[0].off, acks[0].ok), acks[1..])
  }

  function Offsets(acks: seq<Ack>): set<int> {
    set i | 0 <= i < |acks| :: acks[i].off
  }

  /** Every commit that is asked for succeeds. */
  predicate NoFailure(p: Partition, acks: seq<Ack>)
    decreases |acks|
  {
    acks == [] ||
    ((Asked(p, acks[0].off).Some? ==> acks[0].ok) && NoFailure(Acked(p, acks[0].off, acks[0].ok), acks[1..]))
  }

  /** The offsets committed during a run, in order. */
  function Committed(p: Partition, acks: seq<Ack>): seq<int>
    decreases |acks|
  {
    if acks == [] then [] else
    var rest := Committed(Acked(p, acks[0].off, acks[0].ok), acks[1..]);
    match Asked(p, acks[0].off)
    case Some(n) => if acks[0].ok then [n] + rest else rest
    case None => rest
  }

  /** `n` is the longest acknowledged prefix: 1 to n are all acknowledged and n + 1 is not. */
  ghost predicate IsWatermark(n: int, acked: set<int>) {
    n >= 0 && (forall i :: 1 <= i <= n ==> i in acked) && n + 1 !in acked
  }

  lemma WatermarkUnique(m: int, n: int, acked: set<int>)
    requires IsWatermark(m, acked) && IsWatermark(n, acked)
    ensures m == n
  {
  }

  /** The manager mirrors the acknowledged set: everything up to `high` is acknowledged, and above `high`
      it remembers exactly what is acknowledged. */
  ghost predicate Mirrors(p: Partition, acked: set<int>) {
    && IsWatermark(p.high, acked)
    && forall i :: i > p.high ==> (i in p.done <==> i in acked)
  }

  lemma AckMirrors(p: Partition, acked: set<int>, off: int, ok: bool)
    requires Mirrors(p, acked)
    requires Asked(p, off).Some? ==> ok
    ensures Mirrors(Acked(p, off, ok), acked + {off})
  {
    var n := Scan(p.high, p.done + {off});
    ScanStretch(p.high, p.done + {off});
    var q := Acked(p, off, ok);
    assert q.high == n;
    forall i | 1 <= i <= n
      ensures i in acked + {off}
    {
      if i > p.high {
        assert i in p.done + {off};
      }
    }
  }

  lemma OffsetsCons(acks: seq<Ack>)
    requires acks != []
    ensures Offsets(acks) == {acks[0].off} + Offsets(acks[1..])
  {
    forall x | x in Offsets(acks)
      ensures x in {acks[0].off} + Offsets(acks[1..])
    {
      var i :| 0 <= i < |acks| && acks[i].off == x;
      if i > 0 {
        assert acks[1..][i - 1].off == x;
      }
    }
    forall x | x in Offsets(acks[1..])
      ensures x in Offsets(acks)
    {
      var i :| 0 <= i < |acks[1..]| && acks[1..][i].off == x;
      assert acks[i + 1].off == x;
    }
  }

  lemma {:induction false} RunMirrors(p: Partition, acked: set<int>, acks: seq<Ack>)
    requires Mirrors(p, acked) && NoFailure(p, acks)
    ensures Mirrors(Run(p, acks), acked + Offsets(acks))
    decreases |acks|
  {
    if acks == [] {
      assert acked + Offsets(acks) == acked;
    } else {
      AckMirrors(p, acked, acks[0].off, acks[0].ok);
      RunMirrors(Acked(p, acks[0].off, acks[0].ok), acked + {acks[0].off}, acks[1..]);
      OffsetsCons(acks);
      assert acked + {acks[0].off} + Offsets(acks[1..]) == acked + Offsets(acks);
    }
  }

  /** In every run without a failed commit, duplicates included, the manager has committed exactly the
      longest acknowledged prefix and remembers exactly the acknowledged offsets above it. */
  lemma CommitsLongestPrefix(acks: seq<Ack>)
    requires NoFailure(UNTOUCHED, acks)
    ensures IsWatermark(Run(UNTOUCHED, acks).high, Offsets(acks))
    ensures forall i :: i > Run(UNTOUCHED, acks).high ==> (i in Run(UNTOUCHED, acks).done <==> i in Offsets(acks))
  {
    RunMirrors(UNTOUCHED, {}, acks);
    assert {} + Offsets(acks) == Offsets(acks);
  }

  /** The order and the repetition of the acknowledgements do not matter. */
  lemma OrderIrrelevant(acks: seq<Ack>, others: seq<Ack>)
    requires NoFailure(UNTOUCHED, acks) && NoFailure(UNTOUCHED, others)
    requires Offsets(acks) == Offsets(others)
    ensures Run(UNTOUCHED, acks).high == Run(UNTOUCHED, others).high
    ensures forall i :: i > Run(UNTOUCHED, acks).high ==>
              (i in Run(UNTOUCHED, acks).done <==> i in Run(UNTOUCHED, others).done)
  {
    CommitsLongestPrefix(acks);
    CommitsLongestPrefix(others);
    WatermarkUnique(Run(UNTOUCHED, acks).high, Run(UNTOUCHED, others).high, Offsets(acks));
  }

  // ----- safety in every run, failures included -----

  /** Nothing is committed or remembered that was not acknowledged. */
  ghost predicate Sound(p: Partition, acked: set<int>) {
    && p.high >= 0 && (forall i :: 1 <= i <= p.high ==> i in acked)
    && p.done <= acked && p.high + 1 !in p.done
  }

  lemma AckSound(p: Partition, acked: set<int>, off: int, ok: bool)
    requires Sound(p, acked)
    ensures Sound(Acked(p, off, ok), acked + {off})
    ensures Asked(p, off).Some? ==>
              && Asked(p, off).value - 1 > p.high
              && forall i :: 1 <= i < Asked(p, off).value ==> i in acked + {off}
    ensures Acked(p, off, ok).high == (if Asked(p, off).Some? && ok then Asked(p, off).value - 1 else p.high)
  {
    var n := Scan(p.high, p.done + {off});
    ScanStretch(p.high, p.done + {off});
    forall i | 1 <= i <= n
      ensures i in acked + {off}
    {
      if i > p.high {
        assert i in p.done + {off};
      }
    }
    if n > p.high {
      assert p.high + 1 in Stretch(p.done + {off}, p.high, n);
    }
  }

  lemma {:induction false} RunSound(p: Partition, acked: set<int>, acks: seq<Ack>)
    requires Sound(p, acked)
    ensures Sound(Run(p, acks), acked + Offsets(acks))
    decreases |acks|
  {
    if acks == [] {
      assert acked + Offsets(acks) == acked;
    } else {
      AckSound(p, acked, acks[0].off, acks[0].ok);
      RunSound(Acked(p, acks[0].off, acks[0].ok), acked + {acks[0].off}, acks[1..]);
      OffsetsCons(acks);
      assert acked + {acks[0].off} + Offsets(acks[1..]) == acked + Offsets(acks);
    }
  }

  /** Whenever offset n + 1 is asked for, every offset from 1 to n has been acknowledged by then,
      whatever commits failed before. */
  lemma CommitSafety(acks: seq<Ack>, off: int)
    requires Asked(Run(UNTOUCHED, acks), off).Some?
    ensures forall i :: 1 <= i < Asked(Run(UNTOUCHED, acks), off).value ==> i in Offsets(acks) + {off}
  {
    RunSound(UNTOUCHED, {}, acks);
    assert {} + Offsets(acks) == Offsets(acks);
    AckSound(Run(UNTOUCHED, acks), Offsets(acks), off, true);
  }

  lemma {:induction false} CommitsIncrease(p: Partition, acked: set<int>, acks: seq<Ack>)
    requires Sound(p, acked)
    ensures forall i :: 0 <= i < |Committed(p, acks)| ==> Committed(p, acks)[i] > p.high + 1
    ensures forall i, j :: 0 <= i < j < |Committed(p, acks)| ==> Committed(p, acks)[i] < Committed(p, acks)[j]
    decreases |acks|
  {
    if acks != [] {
      var q := Acked(p, acks[0].off, acks[0].ok);
      AckSound(p, acked, acks[0].off, acks[0].ok);
      CommitsIncrease(q, acked + {acks[0].off}, acks[1..]);
    }
  }

  /** The offsets committed on a partition strictly increase, in every run. */
  lemma CommittedOffsetsIncrease(acks: seq<Ack>)
    ensures forall i, j :: 0 <= i < j < |Committed(UNTOUCHED, acks)| ==>
              Committed(UNTOUCHED, acks)[i] < Committed(UNTOUCHED, acks)[j]
  {
    CommitsIncrease(UNTOUCHED, {}, acks);
  }

  // ----- a failed commit, and how it heals -----

  /** Until the offset after `high` is acknowledged, nothing is asked for and nothing is committed. */
  lemma {:induction false} BlockedUntilNext(p: Partition, acks: seq<Ack>)
    requires p.high + 1 !in p.done && p.high + 1 !in Offsets(acks)
    ensures Run(p, acks).high == p.high && Committed(p, acks) == [] && NoFailure(p, acks)
    decreases |acks|
  {
    if acks != [] {
      OffsetsCons(acks);
      assert p.high + 1 !in p.done + {acks[0].off};
      BlockedUntilNext(Acked(p, acks[0].off, acks[0].ok), acks[1..]);
    }
  }

  /** The offsets that acknowledging `off` scans. */
  function Forgotten(p: Partition, off: int): set<int> {
    Stretch(p.done + {off}, p.high, Scan(p.high, p.done + {off}))
  }

  /** A failed commit leaves `high` where it was, forgets exactly the offsets just scanned, and blocks the
      partition until the offset after `high` is acknowledged again. */
  lemma FailedCommitForgets(p: Partition, acked: set<int>, off: int, acks: seq<Ack>)
    requires Mirrors(p, acked) && Asked(p, off).Some?
    ensures var q := Acked(p, off, false);
            && q.high == p.high
            && (forall i :: i > p.high ==> (i in q.done <==> i in acked + {off} && i >= Asked(p, off).value))
            && (p.high + 1 !in Offsets(acks) ==> Run(q, acks).high == p.high && Committed(q, acks) == [])
  {
    var q := Acked(p, off, false);
    ScanStretch(p.high, p.done + {off});
    assert p.high + 1 in Forgotten(p, off);
    if p.high + 1 !in Offsets(acks) {
      BlockedUntilNext(q, acks);
    }
  }

  /** After a failed commit, acknowledgements whose commits succeed restore the longest acknowledged
      prefix if and only if they repeat every forgotten offset, in any order. */
  lemma HealsIffReacked(p: Partition, acked: set<int>, off: int, acks: seq<Ack>)
    requires Mirrors(p, acked) && Asked(p, off).Some?
    requires NoFailure(Acked(p, off, false), acks)
    ensures IsWatermark(Run(Acked(p, off, false), acks).high, acked + {off} + Offsets(acks))
            <==> Forgotten(p, off) <= Offsets(acks)
  {
    var q := Acked(p, off, false);
    var n := Asked(p, off).value - 1;
    var forgotten := Forgotten(p, off);
    ScanStretch(p.high, p.done + {off});
    var kept := (acked + {off}) - forgotten;
    FailedCommitForgets(p, acked, off, []);
    assert Mirrors(q, kept) by {
      assert p.high + 1 in forgotten;
    }
    RunMirrors(q, kept, acks);
    var h := Run(q, acks).high;
    if forgotten <= Offsets(acks) {
      assert kept + Offsets(acks) == acked + {off} + Offsets(acks);
    } else {
      var m :| m in forgotten && m !in Offsets(acks);
      assert m !in kept + Offsets(acks);
      assert h < m;
      assert h + 1 <= p.high || h + 1 in p.done + {off};
      assert h + 1 in acked + {off};
    }
  }

  // ----- any number of failed commits -----

  /** The offsets that failed commits have forgotten and that were not acknowledged again, after one more
      acknowledgement. */
  function Missed(p: Partition, missing: set<int>, ack: Ack): set<int> {
    (missing - {ack.off}) + (if Asked(p, ack.off).Some? && !ack.ok then Forgotten(p, ack.off) else {})
  }

  /** Those offsets after a run. */
  function StillMissing(p: Partition, missing: set<int>, acks: seq<Ack>): set<int>
    decreases |acks|
  {
    if acks == [] then missing
    else StillMissing(Acked(p, acks[0].off, acks[0].ok), Missed(p, missing, acks[0]), acks[1..])
  }

  /** Above `high`, what was acknowledged is either remembered or missing, and below a missing offset
      everything was acknowledged. */
  ghost predicate Tracks(p: Partition, acked: set<int>, missing: set<int>) {
    && Sound(p, acked) && missing <= acked
    && (forall i :: i in missing ==> i > p.high && i !in p.done && forall j :: p.high < j <= i ==> j in acked)
    && (forall i :: i > p.high && i in acked ==> i in p.done || i in missing)
  }

  lemma AckTracks(p: Partition, acked: set<int>, missing: set<int>, ack: Ack)
    requires Tracks(p, acked, missing)
    ensures Tracks(Acked(p, ack.off, ack.ok), acked + {ack.off}, Missed(p, missing, ack))
  {
    var off, n := ack.off, Scan(p.high, p.done + {ack.off});
    var q, late := Acked(p, off, ack.ok), Missed(p, missing, ack);
    ScanStretch(p.high, p.done + {off});
    AckSound(p, acked, off, ack.ok);
    forall i | i in late
      ensures i > q.high && i !in q.done && forall j :: q.high < j <= i ==> j in acked + {off}
    {
      if i in missing && i != off {
        assert !(p.high < i <= n);
      }
    }
    forall i | i > q.high && i in acked + {off}
      ensures i in q.done || i in late
    {
      if p.high < i <= n {
        assert i in Forgotten(p, off);
      }
    }
  }

  lemma {:induction false} RunTracks(p: Partition, acked: set<int>, missing: set<int>, acks: seq<Ack>)
    requires Tracks(p, acked, missing)
    ensures Tracks(Run(p, acks), acked + Offsets(acks), StillMissing(p, missing, acks))
    decreases |acks|
  {
    if acks == [] {
      assert acked + Offsets(acks) == acked;
    } else {
      AckTracks(p, acked, missing, acks[0]);
      RunTracks(Acked(p, acks[0].off, acks[0].ok), acked + {acks[0].off}, Missed(p, missing, acks[0]), acks[1..]);
      OffsetsCons(acks);
      assert acked + {acks[0].off} + Offsets(acks[1..]) == acked + Offsets(acks);
    }
  }

  /** In every run, whatever commits fail: the watermark is the longest acknowledged prefix if and only if
      every offset that a failed commit scanned was acknowledged again; and above the watermark the manager
      remembers exactly the acknowledged offsets that are not missing. */
  lemma LongestPrefixIffNothingMissing(acks: seq<Ack>)
    ensures var p, missing := Run(UNTOUCHED, acks), StillMissing(UNTOUCHED, {}, acks);
            && (IsWatermark(p.high, Offsets(acks)) <==> missing == {})
            && forall i :: i > p.high ==> (i in p.done <==> i in Offsets(acks) && i !in missing)
  {
    var p, missing := Run(UNTOUCHED, acks), StillMissing(UNTOUCHED, {}, acks);
    RunTracks(UNTOUCHED, {}, {}, acks);
    assert {} + Offsets(acks) == Offsets(acks);
    if missing != {} {
      var i :| i in missing;
      assert p.high + 1 in Offsets(acks);
    }
  }

  // ----- offset zero, and a partition resumed in the middle -----

  /** The prefix starts at offset 1: a commit covers offset 0 whether or not it was acknowledged, so the
      committed offsets are all acknowledged exactly when offset 0 is. */
  lemma OffsetZeroUnchecked(acks: seq<Ack>, off: int)
    requires Asked(Run(UNTOUCHED, acks), off).Some?
    ensures (forall i :: 0 <= i < Asked(Run(UNTOUCHED, acks), off).value ==> i in Offsets(acks) + {off})
            <==> 0 in Offsets(acks) + {off}
  {
    CommitSafety(acks, off);
    RunSound(UNTOUCHED, {}, acks);
    assert {} + Offsets(acks) == Offsets(acks);
    AckSound(Run(UNTOUCHED, acks), Offsets(acks), off, true);
  }

  /** The message at offset 0 may still be in flight when offset 2 is committed. */
  lemma OffsetZeroSkipped()
    ensures Asked(UNTOUCHED, 1) == Some(2)
  {
    assert Scan(0, {1}) == 1;
    assert UNTOUCHED.done + {1} == {1};
  }

  /** A manager that starts in the middle of a partition, where every offset it is given is greater than
      1, never commits anything, whatever the broker would answer. */
  lemma ResumedPartitionNeverCommits(acks: seq<Ack>)
    requires forall i :: 0 <= i < |acks| ==> acks[i].off > 1
    ensures Committed(UNTOUCHED, acks) == [] && Run(UNTOUCHED, acks).high == 0
  {
    assert 1 !in Offsets(acks);
    BlockedUntilNext(UNTOUCHED, acks);
  }

  /** With a broker that accepts every commit, something is committed exactly when offset 1 is acknowledged. */
  lemma CommitsIffFirstOffset(acks: seq<Ack>)
    requires NoFailure(UNTOUCHED, acks)
    ensures Run(UNTOUCHED, acks).high > 0 <==> 1 in Offsets(acks)
  {
    CommitsLongestPrefix(acks);
  }
}
