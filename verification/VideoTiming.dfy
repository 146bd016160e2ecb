// Video timestamps and 32-bit frame sequences: what is accepted, what is only diagnosed, and how many
// frames a forward gap really skipped (include/avsync/video_timing.hpp).
module VideoTiming {
  import opened Timing

  const WRAP: int := 0x1_0000_0000
  const HALF: int := 0x8000_0000

  datatype TimestampClock = UnknownClock | Monotonic | Copied
  datatype SequenceStatus = FirstSequence | Normal | Gap | RepeatedSequence | Backwards | Ambiguous
  datatype TimestampStatus = FirstTimestamp | Forward | RepeatedTimestamp | Regression | InvalidTimestamp

  /** Exactly the canonical, nonnegative, monotonic times whose nanoseconds are representable. */
  function TimestampFromTimeval(seconds: Nanoseconds, micros: Nanoseconds, clock: TimestampClock): (r: Option<Nanoseconds>)
    ensures r == if clock == Monotonic && seconds >= 0 && 0 <= micros < 1_000_000
                    && seconds * NS_PER_SECOND + micros * 1_000 <= I64_MAX
                 then Some(seconds * NS_PER_SECOND + micros * 1_000) else None
  {
    if clock != Monotonic || seconds < 0 || micros < 0 || micros >= 1_000_000 then None
    else
      var fraction := micros * 1_000;
      if seconds > (I64_MAX - fraction) / NS_PER_SECOND then None else Some(seconds * NS_PER_SECOND + fraction)
  }

  datatype Point = Point(sequence: u32, timestamp: Nanoseconds)

  datatype Observation = Observation(sequence: SequenceStatus, timestamp: TimestampStatus, missing: u32) {
    predicate Accepted() {
      sequence in {FirstSequence, Normal, Gap} && timestamp in {FirstTimestamp, Forward}
    }
  }

  /** Unsigned 32-bit subtraction. */
  function Distance(from: u32, to: u32): (d: u32)
    ensures (from + d) % WRAP == to
  {
    (to - from) % WRAP
  }

  function Classify(previous: Option<Point>, p: Point): Observation {
    if previous.None? then
      Observation(FirstSequence, if p.timestamp < 0 then InvalidTimestamp else FirstTimestamp, 0)
    else
      var d := Distance(previous.value.sequence, p.sequence);
      Observation(
        if d == 0 then RepeatedSequence else if d == 1 then Normal else if d < HALF then Gap
        else if d == HALF then Ambiguous else Backwards,
        if p.timestamp < 0 then InvalidTimestamp
        else if p.timestamp < previous.value.timestamp then Regression
        else if p.timestamp == previous.value.timestamp then RepeatedTimestamp else Forward,
        if 1 < d < HALF then d - 1 else 0)
  }

  /** Only an accepted point moves the anchor. */
  function Next(previous: Option<Point>, p: Point): Option<Point> {
    if Classify(previous, p).Accepted() then Some(p) else previous
  }

  class VideoTimingTracker {
    var previous: Option<Point>

    constructor ()
      ensures previous == None
    {
      previous := None;
    }

    method Observe(sequence: u32, timestamp: Nanoseconds) returns (result: Observation)
      modifies this
      ensures result == Classify(old(previous), Point(sequence, timestamp))
      ensures previous == Next(old(previous), Point(sequence, timestamp))
    {
      result := Observation(FirstSequence, InvalidTimestamp, 0);
      if previous.None? {
        if timestamp < 0 {
          return;
        }
        result := result.(timestamp := FirstTimestamp);
        previous := Some(Point(sequence, timestamp));
        return;
      }
      var distance := (sequence - previous.value.sequence) % WRAP;
      if distance == 0 {
        result := result.(sequence := RepeatedSequence);
      } else if distance == 1 {
        result := result.(sequence := Normal);
      } else if distance < HALF {
        result := result.(sequence := Gap, missing := distance - 1);
      } else if distance == HALF {
        result := result.(sequence := Ambiguous);
      } else {
        result := result.(sequence := Backwards);
      }
      if timestamp < 0 {
        result := result.(timestamp := InvalidTimestamp);
      } else if timestamp < previous.value.timestamp {
        result := result.(timestamp := Regression);
      } else if timestamp == previous.value.timestamp {
        result := result.(timestamp := RepeatedTimestamp);
      } else {
        result := result.(timestamp := Forward);
      }
      if result.Accepted() {
        previous := Some(Point(sequence, timestamp));
      }
    }
  }

  // ---- what an observation says --------------------------------------------------------------

  /** A first point is accepted unless its time is negative. */
  lemma FirstDecides(p: Point)
    ensures var o := Classify(None, p);
            && o == Observation(FirstSequence, if p.timestamp < 0 then InvalidTimestamp else FirstTimestamp, 0)
            && Next(None, p) == if p.timestamp < 0 then None else Some(p)
  {
  }

  lemma DistanceOfTruth(a: int, b: int)
    requires -HALF <= b - a <= HALF
    ensures (b % WRAP - a % WRAP) % WRAP == if b >= a then b - a else WRAP + b - a
  {
    var qa, qb := a / WRAP, b / WRAP;
    assert b % WRAP - a % WRAP == (b - a) + WRAP * (qa - qb);
    ModShift(b % WRAP - a % WRAP, if b >= a then b - a else WRAP + b - a, if b >= a then qa - qb else qa - qb - 1);
  }

  lemma ModShift(x: int, r: int, k: int)
    requires x == r + WRAP * k && 0 <= r < WRAP
    ensures x % WRAP == r
  {
  }

  /**
   * Of two frames whose true numbers a and b lie at most 2^31 apart, however often the counter has wrapped,
   * an observation tells a repetition, a successor, a gap and its size, a step back, and the one distance at
   * which forward and back cannot be told apart; and it orders their times.  The second is accepted exactly
   * when it is truly later by both.
   */
  lemma ObservationDecides(previous: Point, p: Point, a: nat, b: nat)
    requires previous.sequence == a % WRAP && p.sequence == b % WRAP && -HALF <= b - a <= HALF
    ensures var o := Classify(Some(previous), p);
            && o.sequence == (if b == a then RepeatedSequence else if b == a + 1 then Normal
                              else if b == a + 0x8000_0000 || a == b + 0x8000_0000 then Ambiguous
                              else if b > a then Gap else Backwards)
            && o.missing == (if a + 1 < b < a + 0x8000_0000 then b - a - 1 else 0)
            && o.timestamp == (if p.timestamp < 0 then InvalidTimestamp
                               else if p.timestamp > previous.timestamp then Forward
                               else if p.timestamp < previous.timestamp then Regression else RepeatedTimestamp)
    ensures Next(Some(previous), p) ==
            if a < b < a + 0x8000_0000 && p.timestamp >= 0 && p.timestamp > previous.timestamp then Some(p) else Some(previous)
  {
    DistanceOfTruth(a, b);
  }

  // ---- whole histories -------------------------------------------------------------------

  /** What a tracker has accepted of a history, and the frames its observations called missing. */
  datatype Record = Record(accepted: seq<Point>, indices: seq<nat>, missing: nat)

  ghost function Track(points: seq<Point>): Record
    decreases |points|
  {
    if points == [] then Record([], [], 0)
    else
      var last := |points| - 1;
      var r := Track(points[..last]);
      var o := Classify(Anchor(r.accepted), points[last]);
      if o.Accepted() then Record(r.accepted + [points[last]], r.indices + [last], r.missing + o.missing) else r
  }

  ghost function Anchor(accepted: seq<Point>): Option<Point> {
    if accepted == [] then None else Some(accepted[|accepted| - 1])
  }

  /** The tracker's anchor after any history is the last point it accepted. */
  ghost function Tracked(points: seq<Point>): Option<Point>
    decreases |points|
  {
    if points == [] then None else Next(Tracked(points[..|points| - 1]), points[|points| - 1])
  }

  lemma {:induction false} AnchorIsLastAccepted(points: seq<Point>)
    ensures Tracked(points) == Anchor(Track(points).accepted)
    decreases |points|
  {
    if points != [] {
      AnchorIsLastAccepted(points[..|points| - 1]);
    }
  }

  ghost predicate Rising(points: seq<Point>) {
    forall i, j :: 0 <= i < j < |points| ==> points[i].timestamp < points[j].timestamp
  }

  /** In any history accepted timestamps strictly increase, whatever was rejected in between. */
  lemma {:induction false} TimestampsIncrease(points: seq<Point>)
    ensures Rising(Track(points).accepted)
    decreases |points|
  {
    if points != [] {
      TimestampsIncrease(points[..|points| - 1]);
      var a, b := Track(points[..|points| - 1]).accepted, Track(points).accepted;
      forall i, j | 0 <= i < j < |b|
        ensures b[i].timestamp < b[j].timestamp
      {
        assert b[i] == a[i];
        if j < |a| {
          assert b[j] == a[j];
        } else {
          assert a[i].timestamp <= a[|a| - 1].timestamp;
        }
      }
    }
  }

  /** In any history the first sequence plus all counted steps is the last sequence, modulo 2^32. */
  lemma {:induction false} SequencesAddUp(points: seq<Point>)
    ensures var r := Track(points); var a := r.accepted;
            if a == [] then r.missing == 0 else (a[0].sequence + r.missing + (|a| - 1)) % WRAP == a[|a| - 1].sequence
    decreases |points|
  {
    if points != [] {
      var last := |points| - 1;
      SequencesAddUp(points[..last]);
      var r := Track(points[..last]);
      var o := Classify(Anchor(r.accepted), points[last]);
      if o.Accepted() && r.accepted != [] {
        var a, total := r.accepted, r.accepted[0].sequence + r.missing + (|r.accepted| - 1);
        var d := Distance(a[|a| - 1].sequence, points[last].sequence);
        assert o.missing + 1 == d;
        StepAdds(total, a[|a| - 1].sequence, d, points[last].sequence);
        var t := Track(points);
        assert t.accepted[0] == a[0] && t.accepted[|t.accepted| - 1] == points[last];
        assert t.accepted[0].sequence + t.missing + (|t.accepted| - 1) == total + d;
      }
    }
  }

  lemma StepAdds(total: int, last: int, step: int, next: int)
    requires total % WRAP == last && (last + step) % WRAP == next
    ensures (total + step) % WRAP == next
  {
  }

  /** What the driver's true, never wrapping sequence numbers look like to the tracker. */
  ghost function Seen(sources: seq<nat>, timestamps: seq<Nanoseconds>): (s: seq<Point>)
    requires |sources| == |timestamps|
    ensures |s| == |sources|
  {
    seq(|sources|, i requires 0 <= i < |sources| => Point(sources[i] % WRAP, timestamps[i]))
  }

  /**
   * One accepted step counts the skipped frames exactly if and only if the true sequence advanced by
   * less than half the 32-bit range.
   */
  lemma StepExactIff(previous: nat, next: nat, before: Nanoseconds, now: Nanoseconds)
    requires Classify(Some(Point(previous % WRAP, before)), Point(next % WRAP, now)).Accepted()
    ensures Classify(Some(Point(previous % WRAP, before)), Point(next % WRAP, now)).missing == next - previous - 1
            <==> 0 < next - previous < HALF
  {
    var d := Distance(previous % WRAP, next % WRAP);
    assert 1 <= d < HALF;
    assert (next - previous) % WRAP == d by {
      ModDifference(next, previous);
    }
  }

  lemma ModDifference(a: int, b: int)
    ensures (a % WRAP - b % WRAP) % WRAP == (a - b) % WRAP
  {
    var q := a / WRAP - b / WRAP;
    assert a - b == (a % WRAP - b % WRAP) + q * WRAP;
  }

  /** The true advance from one accepted frame to the next stays below half the range. */
  ghost predicate Advances(sources: seq<nat>, indices: seq<nat>) {
    && (forall k :: 0 <= k < |indices| ==> indices[k] < |sources|)
    && (forall k :: 0 < k < |indices| ==> 0 <= sources[indices[k]] - sources[indices[k - 1]] < HALF)
  }

  /** Accepted points are exactly those at the recorded indices. */
  lemma {:induction false} IndicesName(points: seq<Point>)
    ensures var r := Track(points);
            && |r.indices| == |r.accepted|
            && forall k :: 0 <= k < |r.indices| ==> r.indices[k] < |points| && r.accepted[k] == points[r.indices[k]]
    decreases |points|
  {
    if points != [] {
      IndicesName(points[..|points| - 1]);
    }
  }

  ghost predicate Counted(sources: seq<nat>, r: Record)
    requires |r.indices| == |r.accepted| && forall k :: 0 <= k < |r.indices| ==> r.indices[k] < |sources|
  {
    if r.accepted == [] then r.missing == 0
    else r.missing == sources[r.indices[|r.indices| - 1]] - sources[r.indices[0]] - (|r.accepted| - 1)
  }

  lemma OneMoreCounts(sources: seq<nat>, r: Record, p: Point, missing: nat)
    requires sources != [] && |r.indices| == |r.accepted|
    requires forall k :: 0 <= k < |r.indices| ==> r.indices[k] < |sources| - 1
    requires Counted(sources[..|sources| - 1], r)
    requires if r.accepted == [] then missing == 0 else sources[r.indices[|r.indices| - 1]] + missing + 1 == sources[|sources| - 1]
    ensures Counted(sources, Record(r.accepted + [p], r.indices + [|sources| - 1], r.missing + missing))
  {
  }

  lemma SameCounts(sources: seq<nat>, r: Record)
    requires sources != [] && |r.indices| == |r.accepted|
    requires forall k :: 0 <= k < |r.indices| ==> r.indices[k] < |sources| - 1
    requires Counted(sources[..|sources| - 1], r)
    ensures Counted(sources, r)
  {
  }

  /**
   * Through any number of wraps, and whatever was rejected in between, the missing frames add up to
   * the true number of skipped sequence values between the first and the last accepted frame.
   */
  lemma {:induction false} MissingIsExact(sources: seq<nat>, timestamps: seq<Nanoseconds>)
    requires |sources| == |timestamps|
    requires Advances(sources, Track(Seen(sources, timestamps)).indices)
    ensures var r := Track(Seen(sources, timestamps));
            && |r.indices| == |r.accepted| && (forall k :: 0 <= k < |r.indices| ==> r.indices[k] < |sources|)
            && Counted(sources, r)
    decreases |sources|
  {
    hide Track, Classify, Counted, Advances;
    var points := Seen(sources, timestamps);
    IndicesName(points);
    if sources == [] {
      TrackNothing(points);
      NothingCounts(Record([], [], 0));
    } else {
      var last := |sources| - 1;
      var earlier := Seen(sources[..last], timestamps[..last]);
      assert points[..last] == earlier;
      var r, s := Track(earlier), Track(points);
      var o := Classify(Anchor(r.accepted), points[last]);
      IndicesName(earlier);
      TrackOneMore(points);
      AdvancesEarlier(sources, s.indices, r.indices);
      MissingIsExact(sources[..last], timestamps[..last]);
      SameCounts(sources, r);
      if o.Accepted() {
        if r.accepted == [] {
          FirstMissesNothing(points[last]);
        } else {
          var p := r.indices[|r.indices| - 1];
          assert s.indices[|r.indices|] == last && s.indices[|r.indices| - 1] == p;
          StepExactIff(sources[p], sources[last], timestamps[p], timestamps[last]);
          AcceptedMoves(sources[p], sources[last], timestamps[p], timestamps[last]);
        }
        OneMoreCounts(sources, r, points[last], o.missing);
      }
    }
  }

  lemma AdvancesEarlier(sources: seq<nat>, all: seq<nat>, some: seq<nat>)
    requires sources != [] && Advances(sources, all) && some <= all
    requires forall k :: 0 <= k < |some| ==> some[k] < |sources| - 1
    ensures Advances(sources[..|sources| - 1], some)
    ensures some != [] && |some| < |all| ==> 0 <= sources[all[|some|]] - sources[some[|some| - 1]] < HALF
  {
    assert some != [] ==> some[|some| - 1] == all[|some| - 1];
  }

  lemma NothingCounts(r: Record)
    requires r == Record([], [], 0)
    ensures Counted([], r)
  {
  }

  lemma TrackNothing(points: seq<Point>)
    requires points == []
    ensures Track(points) == Record([], [], 0)
  {
  }

  lemma TrackOneMore(points: seq<Point>)
    requires points != []
    ensures var last := |points| - 1; var r := Track(points[..last]); var o := Classify(Anchor(r.accepted), points[last]);
            Track(points) ==
            if o.Accepted() then Record(r.accepted + [points[last]], r.indices + [last], r.missing + o.missing) else r
  {
  }

  lemma FirstMissesNothing(p: Point)
    ensures Classify(None, p).missing == 0
  {
  }

  lemma AcceptedMoves(previous: nat, next: nat, before: Nanoseconds, now: Nanoseconds)
    requires Classify(Some(Point(previous % WRAP, before)), Point(next % WRAP, now)).Accepted()
    ensures next != previous
  {
  }
}
