// What the correction worker decides, in terms of its inputs alone: when a segment starts and where its
// output grid lies, how fresh everything must be, what one packet, one quantum and one pull do
// (src/audio/audio_correction.cpp).
module CorrectionDecisions {
  import opened Timing
  import opened WirePosition
  import opened PhaseModel
  import opened PhaseLedger
  import opened CorrectionSpec
  import opened CorrectionRuns

  // ---- where a segment starts ----------------------------------------------------------------

  /** How many wire frames a packet starts after its anchor, exactly. */
  function Gap(record: AudioRecord): real
    requires record.sourceRate > 0
  {
    record.packetWireStart as real - (record.devicePosition - record.deviceOrigin) as real * 48000.0 / record.sourceRate as real
  }

  lemma Quotients(b: int, c: int, whole: int, rate: int)
    requires rate > 0 && whole * rate + b == c
    ensures c as real / rate as real == whole as real + b as real / rate as real
  {
    assert c as real == whole as real * rate as real + b as real;
  }

  lemma Below(c: int, whole: int, rate: int)
    requires rate > 0 && c >= whole * rate
    ensures c as real / rate as real >= whole as real
  {
    assert c as real >= whole as real * rate as real;
    var q := c as real / rate as real;
    assert q * rate as real == c as real;
    if q < whole as real {
      assert (whole as real - q) * rate as real > 0.0;
    }
  }

  /** The program's split distance is the exact one, and a position beyond 64 bits lies after every packet. */
  lemma GapIsExact(record: AudioRecord)
    requires record.sourceRate > 0 && record.devicePosition >= record.deviceOrigin
    ensures var anchor := NominalWirePosition(record.devicePosition, record.deviceOrigin, 0, record.sourceRate);
            if anchor.None? then Gap(record) < 0.0
            else
              && anchor.value.denominator == record.sourceRate
              && WireGap(record, anchor.value) == Gap(record)
              && (anchor.value.whole > record.packetWireStart ==> Gap(record) < 0.0)
  {
    var rate, scaled := record.sourceRate, (record.devicePosition - record.deviceOrigin) * 48_000;
    NominalIsExact(record.devicePosition, record.deviceOrigin, 0, rate);
    var anchor := NominalWirePosition(record.devicePosition, record.deviceOrigin, 0, rate);
    assert (record.devicePosition - record.deviceOrigin) as real * 48000.0 == scaled as real;
    if anchor.None? {
      Below(scaled, U64_MAX + 1, rate);
    } else {
      var p := anchor.value;
      Quotients(p.remainder, scaled, p.whole, rate);
      Below(p.remainder, 0, rate);
    }
  }

  /** The floor of a quotient, without the division. */
  lemma FloorBetween(x: real, y: real)
    requires y > 0.0
    ensures var part := (x / y).Floor as real * y; part <= x < part + y
  {
    var q := x / y;
    var rest := q - q.Floor as real;
    assert q * y == x;
    NonNegativeProduct(rest, y);
    PositiveProduct(1.0 - rest, y);
    assert q * y == q.Floor as real * y + rest * y;
    assert (1.0 - rest) * y == y - rest * y;
  }

  /** Media time d apart at a rate: d is the whole number of nanoseconds that a gap takes. */
  predicate Takes(gap: real, ppm: real, d: int) {
    Reaches(gap * 1000000000.0, 48000.0 * (1.0 + ppm / 1000000.0), d)
  }

  predicate Reaches(x: real, speed: real, d: int) {
    var time := d as real * speed;
    time <= x < time + speed
  }

  lemma ExtrapolationTakes(gap: real, ppm: real)
    requires PpmValid(ppm)
    ensures Takes(gap, ppm, Extrapolation(gap, ppm))
    ensures 0.0 <= gap <= 2400.0 ==> 0 <= Extrapolation(gap, ppm) <= 100_000_000
  {
    var speed := 48000.0 * (1.0 + ppm / 1000000.0);
    assert 47976.0 <= speed <= 48024.0;
    FloorBetween(gap * 1000000000.0, speed);
    var d := Extrapolation(gap, ppm);
    assert d == (gap * 1000000000.0 / speed).Floor;
    if 0.0 <= gap <= 2400.0 {
      FloorInRange(gap * 1000000000.0, speed, d);
    }
  }

  lemma FloorInRange(x: real, speed: real, d: int)
    requires 47976.0 <= speed && 0.0 <= x <= 2400000000000.0 && d as real * speed <= x < d as real * speed + speed
    ensures 0 <= d <= 100_000_000
  {
    if d < 0 {
      NonNegativeProduct(-1.0 - d as real, speed);
    } else if d > 100_000_000 {
      NonNegativeProduct(d as real - 100000000.0, speed);
    }
  }

  /**
   * A segment starts exactly when its packet begins no earlier than its anchor and at most 50 ms of
   * nominal media after it, the resampler could be reset and the time is representable.  Its grid then
   * begins at the anchor's capture time plus the time that distance takes at the acquired rate, to the
   * nanosecond below, and the source at the packet's own first wire frame.
   */
  lemma StartExact(w: Worker, record: AudioRecord, backendReset: bool) returns (d: int)
    requires PpmValid(w.target)
    ensures record.sourceRate > 0 ==> Takes(Gap(record), w.target, d)
    ensures Start(w, record, backendReset).0 <==>
              && record.sourceRate > 0 && record.devicePosition >= record.deviceOrigin
              && 0.0 <= Gap(record) <= 2400.0 && record.capture + d <= I64_MAX && backendReset
    ensures var (ok, v) := Start(w, record, backendReset);
            ok ==>
              && v.state == Running && v.origin == Some(record.capture + d) && v.history.origin == v.origin
              && v.originWire == record.packetWireStart && v.command == w.target && v.lastProgress == w.lastNow
              && v.model.next == Position(record.packetWireStart, 0.0) && v.model.frames == 0
              && v.model.ratio * (1.0 + w.target / 1000000.0) == 1.0
  {
    hide NominalWirePosition, Extrapolation, Takes, WireGap;
    d := 0;
    TargetIsReciprocal(w.target);
    hide TargetRatio;
    if record.sourceRate > 0 {
      d := Extrapolation(Gap(record), w.target);
      ExtrapolationTakes(Gap(record), w.target);
      if record.devicePosition >= record.deviceOrigin {
        GapIsExact(record);
        hide Gap;
      } else {
        NoPosition(record);
      }
    } else {
      NoPosition(record);
    }
  }

  lemma NoPosition(record: AudioRecord)
    requires record.sourceRate == 0 || record.devicePosition < record.deviceOrigin
    ensures NominalWirePosition(record.devicePosition, record.deviceOrigin, 0, record.sourceRate).None?
  {
  }

  // ---- what a call finds stale -----------------------------------------------------------------

  /** Within 200 ms of now, and not after it. */
  predicate Waited(q: Queued, now: Nanoseconds) {
    0 <= now - q.arrival <= 200_000_000
  }

  /** Nothing of the worker's is too old: its last progress, its last anchor, and every frame in either queue. */
  ghost predicate AllFresh(w: Worker, now: Nanoseconds) {
    && (w.lastProgress.Some? ==> now - w.lastProgress.value <= 200_000_000)
    && (w.latestCapture.Some? ==> -100_000_000 <= now - w.latestCapture.value <= 250_000_000)
    && (forall i :: 0 <= i < |w.input| ==> Waited(w.input[i], now))
    && (forall i :: 0 <= i < |w.output| ==> Waited(w.output[i], now))
  }

  /** The clock reads on from the last call, and the caller reports its provider healthy. */
  predicate InTime(w: Worker, now: Nanoseconds, healthy: bool) {
    healthy && now >= 0 && (w.lastNow.Some? ==> now >= w.lastNow.value)
  }

  /** The head of a queue stands for all of it. */
  lemma HeadSpeaks(q: seq<Queued>, last: int, now: Nanoseconds)
    requires Arrived(q, last) && last <= now
    ensures q == [] || HeadFresh(q[0].arrival, now) <==> forall i :: 0 <= i < |q| ==> Waited(q[i], now)
  {
    if q != [] {
      assert Waited(q[0], now) <==> HeadFresh(q[0].arrival, now);
      forall i | 0 <= i < |q| && HeadFresh(q[0].arrival, now)
        ensures Waited(q[i], now)
      {
        assert q[0].arrival <= q[i].arrival;
      }
    }
  }

  /**
   * In every reachable state, a call is let through exactly when it is in time and nothing is too old; the
   * fault otherwise is a health fault if it is not in time, and else names the first of progress, anchor,
   * input and output that is too old.
   */
  lemma HealthExact(w: Worker, now: Nanoseconds, healthy: bool)
    requires Inv(w) && w.state != Faulted
    ensures var (well, v) := CheckHealth(w, now, healthy);
            && (well <==> InTime(w, now, healthy) && AllFresh(w, now))
            && (well ==> v == w.(lastNow := Some(now)))
            && (!well ==> v.state == Faulted && v.fault == if InTime(w, now, healthy) then Stale else Health)
            && (!well && v.fault == Stale ==>
                  v.diagnostics.staleReason ==
                    if w.lastProgress.Some? && now - w.lastProgress.value > 200_000_000 then NoProgress
                    else if w.latestCapture.Some? && !(-100_000_000 <= now - w.latestCapture.value <= 250_000_000) then AnchorAge
                    else if exists i :: 0 <= i < |w.input| && !Waited(w.input[i], now) then InputQueue
                    else OutputQueue)
  {
    hide HistoryInv, Ordered, Brackets, InOrder, Accounts, Arrived, Waited, HeadFresh;
    if w.state == Running && InTime(w, now, healthy) {
      HeadSpeaks(w.input, w.lastNow.value, now);
      HeadSpeaks(w.output, w.lastNow.value, now);
    }
  }

  // ---- what a quantum does --------------------------------------------------------------------

  /** The middle of three rates: it is one of them, and two of them lie on either side, itself included. */
  lemma MedianIsMiddle(a: real, b: real, c: real)
    ensures var m := Median(a, b, c);
            && m in {a, b, c}
            && ((a <= m && b <= m) || (a <= m && c <= m) || (b <= m && c <= m))
            && ((a >= m && b >= m) || (a >= m && c >= m) || (b >= m && c >= m))
  {
  }

  /** A command comes nearer to its target by 0.99 ppm, or all the way. */
  predicate Slews(before: real, after: real, target: real) {
    if before + 0.99 < target then after == before + 0.99
    else if before - 0.99 > target then after == before - 0.99
    else after == target
  }

  /** Grid frame n of an origin, in nanoseconds. */
  function GridNs(origin: int, n: nat): int {
    origin + n * 1_000_000_000 / 48_000
  }

  lemma GridIs(origin: Nanoseconds, n: nat)
    ensures Grid48(origin, n) == if GridNs(origin, n) <= I64_MAX then Some(GridNs(origin, n)) else None
  {
  }

  /** The anchors held put position p at a time within 10 ms of output frame n's place on the grid. */
  ghost predicate Placed(ledger: seq<Anchor>, p: Position, origin: Nanoseconds, n: nat)
    requires Ordered(ledger)
  {
    && Bracketed(ledger, p) && GridNs(origin, n) <= I64_MAX && TimeAt(ledger, p).Some?
    && -10_000_000 <= TimeAt(ledger, p).value - GridNs(origin, n) <= 10_000_000
  }

  lemma PlacedIsOnPhase(ledger: seq<Anchor>, p: Position, origin: Nanoseconds, n: nat)
    requires Ordered(ledger)
    ensures OnPhase(ledger, p, origin, n) <==> Placed(ledger, p, origin, n)
  {
    hide TimeAt, Bracketed;
    GridIs(origin, n);
    TimeAtDefined(ledger, p);
  }

  /**
   * One quantum, in every reachable state: it is made exactly when the model can advance, every one of its
   * 480 positions is placed by the anchors held, the resampler has used no more than it was offered and
   * generated 480 frames, and the grid goes on.  It then takes off the input what was used, appends what was
   * generated, and moves the command one step.
   */
  lemma QuantumExact(w: Worker, reply: Reply, now: Nanoseconds, next: real)
    requires Inv(w) && w.state == Running && |w.input| >= 2048 && Slews(w.command, next, w.target)
    ensures var (outcome, v) := Quantum(w, reply, now); var n := w.diagnostics.produced; var m := Advance(w.model, next);
            && (outcome == Progresses <==>
                  && m.Some?
                  && (forall k :: 0 <= k < 480 ==> Placed(w.ledger, Positions(w.model, next)[k], w.origin.value, n + k))
                  && reply.progress && |reply.frames| == 480 && reply.used <= 2048
                  && n + 480 <= U64_MAX && GridNs(w.origin.value, n + 480) <= I64_MAX)
            && (outcome == Progresses ==>
                  && v.command == next && v.model == m.value
                  && v.input == w.input[reply.used..] && v.output == w.output + Stamp(reply.frames, now)
                  && v.diagnostics.produced == n + 480 && v.diagnostics.consumed == w.diagnostics.consumed + reply.used
                  && v.lastProgress == Some(now) && v.target == w.target && v.state == Running)
            && (outcome == Waits ==> v == w) && (outcome == Fails <==> v.state == Faulted)
  {
    assert NextCommand(w) == next;
    hide HistoryInv, Brackets, InOrder, QueuesFresh, Accounts, Slews, NextCommand, Placed, Assess, Advance, Positions, Grid48;
    GridIs(w.origin.value, w.diagnostics.produced + 480);
    if Advance(w.model, next).Some? && w.diagnostics.produced + 480 <= U64_MAX {
      ReadyExact(w, next);
    }
  }

  lemma ReadyExact(w: Worker, next: real)
    requires Sound(w) && Advance(w.model, next).Some?
    requires w.origin.Some? && w.origin.value >= 0 && w.diagnostics.produced + 480 <= U64_MAX
    ensures Assess(w.ledger, Positions(w.model, next), w.origin.value, w.diagnostics.produced).status == Ready <==>
            forall k :: 0 <= k < 480 ==> Placed(w.ledger, Positions(w.model, next)[k], w.origin.value, w.diagnostics.produced + k)
  {
    hide Placed, OnPhase, AssessFrom, Advance, WellPlaced, Ordered;
    var ps := Positions(w.model, next);
    hide Positions;
    PositionsInOrder(w.model, next);
    ReadyMeansOnPhase(w.ledger, ps, w.origin.value, w.diagnostics.produced, 0, 0);
    forall k | 0 <= k < 480
      ensures OnPhase(w.ledger, ps[k], w.origin.value, w.diagnostics.produced + k)
              <==> Placed(w.ledger, ps[k], w.origin.value, w.diagnostics.produced + k)
    {
      PlacedIsOnPhase(w.ledger, ps[k], w.origin.value, w.diagnostics.produced + k);
    }
  }

  lemma PositionsInOrder(m: Model, ppm: real)
    requires ValidModel(m) && Advance(m, ppm).Some?
    ensures forall k :: 0 <= k < 480 ==> WellPlaced(Positions(m, ppm), k)
  {
    PositionsIncrease(m, ppm);
  }

  // ---- what a dispatch does --------------------------------------------------------------------

  /** A command after so many quanta towards an unchanging target. */
  predicate Slewed(before: real, after: real, target: real, n: nat) {
    var most := 0.99 * n as real;
    if before + most < target then after == before + most
    else if before - most > target then after == before - most
    else after == target
  }

  lemma SlewsOnce(before: real, next: real, after: real, target: real, n: nat)
    requires Slews(before, next, target) && Slewed(next, after, target, n)
    ensures Slewed(before, after, target, n + 1)
  {
    assert 0.99 * (n + 1) as real == 0.99 * n as real + 0.99;
  }

  function Slew(before: real, target: real): (after: real)
    ensures Slews(before, after, target)
  {
    if before + 0.99 < target then before + 0.99 else if before - 0.99 > target then before - 0.99 else target
  }

  /** What the resampler generated in so many calls, from one of them on. */
  function Generated(replies: seq<Reply>, from: nat, n: nat): seq<Frame>
    decreases n
  {
    if n == 0 then [] else ReplyTo(replies, from).frames + Generated(replies, from + 1, n - 1)
  }

  /** The dispatch has done all it may: eight quanta, or too little input, no room, or an anchor to wait for. */
  ghost predicate Stops(v: Worker, replies: seq<Reply>, n: nat, now: Nanoseconds)
    requires Sound(v) && v.origin.Some?
  {
    n == 8 || |v.input| < 2048 || |v.output| > 3360 || Quantum(v, ReplyTo(replies, n), now).0 == Waits
  }

  lemma RunningSound(w: Worker)
    requires Inv(w) && w.state == Running
    ensures Sound(w) && w.origin.Some?
  {
  }

  lemma StampMore(queue: seq<Queued>, a: seq<Frame>, b: seq<Frame>, now: Nanoseconds)
    ensures queue + Stamp(a, now) + Stamp(b, now) == queue + Stamp(a + b, now)
    ensures queue + Stamp([], now) == queue
  {
  }

  lemma NoSlew(before: real, target: real)
    ensures Slewed(before, before, target, 0)
  {
  }

  lemma {:induction false} QuantaExact(w: Worker, call: nat, replies: seq<Reply>, now: Nanoseconds) returns (n: nat)
    requires Inv(w) && w.state == Running && Sound(w) && w.origin.Some? && w.lastNow == Some(now) && call <= 8
    ensures call + n <= 8
    ensures var (outcome, v) := Quanta(w, call, replies, now);
            && (outcome == Fails <==> v.state == Faulted)
            && (outcome != Fails ==>
                  && Inv(v) && v.state == Running && Sound(v) && v.origin.Some?
                  && v.diagnostics.produced == w.diagnostics.produced + 480 * n
                  && v.target == w.target && Slewed(w.command, v.command, w.target, n)
                  && v.output == w.output + Stamp(Generated(replies, call, n), now)
                  && Stops(v, replies, call + n, now))
    decreases MAX_CALLS - call
  {
    hide Inv, Sound, Slewed, Slews, Advance, Positions, Placed, Stamp, GridNs, Quantum;
    n := 0;
    NoSlew(w.command, w.target);
    StampMore(w.output, [], [], now);
    if call < 8 && RoomForQuantum(|w.input|, |w.output|) {
      var reply := ReplyTo(replies, call);
      QuantumKeeps(w, reply, now);
      QuantumExact(w, reply, now, Slew(w.command, w.target));
      var (outcome, v) := Quantum(w, reply, now);
      if outcome == Progresses {
        RunningSound(v);
        var more := QuantaExact(v, call + 1, replies, now);
        n := more + 1;
        var (last, u) := Quanta(v, call + 1, replies, now);
        if last != Fails {
          SlewsOnce(w.command, v.command, u.command, w.target, more);
          StampMore(w.output, reply.frames, Generated(replies, call + 1, more), now);
        }
      }
    }
  }

  /**
   * One dispatch, in every reachable state: in time and fresh, a running worker makes quanta until it has
   * made eight, lacks input or room, or has an anchor to wait for.  What the resampler generated is queued
   * in order, and the command has come 0.99 ppm nearer to the measured rate for each quantum.
   */
  lemma DispatchExact(w: Worker, now: Nanoseconds, healthy: bool, replies: seq<Reply>) returns (n: nat)
    requires Inv(w) && w.state == Running
    ensures n <= 8
    ensures var (count, v) := Dispatch(w, now, healthy, replies);
            && (!(InTime(w, now, healthy) && AllFresh(w, now)) ==> v.state == Faulted)
            && (v.state == Faulted ==> count == 0)
            && (v.state != Faulted ==>
                  && count == 480 * n && Inv(v) && v.state == Running && Sound(v) && v.origin.Some?
                  && v.target == w.target && Slewed(w.command, v.command, w.target, n)
                  && v.output == w.output + Stamp(Generated(replies, 0, n), now)
                  && Stops(v, replies, n, now))
  {
    hide Quanta, Slewed, Stops, Sound, AllFresh, HistoryInv, Ordered;
    n := 0;
    HealthExact(w, now, healthy);
    CheckHealthKeeps(w, now, healthy);
    var (well, h) := CheckHealth(w, now, healthy);
    if well {
      RunningSound(h);
      hide Inv, CheckHealth;
      n := QuantaExact(h, 0, replies, now);
    }
  }

  // ---- what a pull hands out -------------------------------------------------------------------

  /**
   * One pull, in every reachable state: a reader with room for a whole number of frames, 3840 at most, is
   * given all that is queued or as much as fits, from the front, with its place on the grid; any other
   * reader is a fault.
   */
  lemma PullExact(w: Worker, samples: nat, now: Nanoseconds, healthy: bool)
    requires Inv(w) && w.state == Running
    ensures var (p, v) := Pull(w, samples, now, healthy);
            var well, fits := InTime(w, now, healthy) && AllFresh(w, now), 0 < samples <= 7_680 && samples % 2 == 0;
            && (p.block.Some? <==> well && fits && w.output != [])
            && (v.state == Faulted <==> !(well && fits))
            && (well && !fits ==> v.fault == Pcm)
            && (p.block.Some? ==>
                  var n := if |w.output| < samples / 2 then |w.output| else samples / 2;
                  && p.block.value == CorrectedAudio(w.epoch, w.outputIndex, GridNs(w.origin.value, w.outputIndex), n)
                  && |p.frames| == n && (forall i :: 0 <= i < n ==> p.frames[i] == w.output[i].frame)
                  && v.output == w.output[n..] && v.outputIndex == w.outputIndex + n && v.input == w.input)
            && (v.state != Faulted && p.block.None? ==> v == w.(lastNow := Some(now)))
  {
    hide AllFresh, HistoryInv, Ordered, Brackets, InOrder, Arrived, GridNs, Grid48;
    HealthExact(w, now, healthy);
    hide CheckHealth, InTime;
    GridIs(w.origin.value, w.outputIndex);
    GridIs(w.origin.value, w.diagnostics.produced);
    GridNsMonotone(w.origin.value, w.outputIndex, w.diagnostics.produced);
  }

  lemma GridNsMonotone(origin: int, i: nat, j: nat)
    requires i <= j
    ensures GridNs(origin, i) <= GridNs(origin, j)
  {
  }

  // ---- what a packet does ----------------------------------------------------------------------

  /** The exact wire position of a record's anchor, as a number. */
  function WirePlace(record: AudioRecord): real
    requires record.sourceRate > 0
  {
    (record.devicePosition - record.deviceOrigin) as real * 48000.0 / record.sourceRate as real
  }

  /** The anchor has a place, comes after the newest one by at most 100 ms, and finds room. */
  ghost predicate Attaches(ledger: seq<Anchor>, record: AudioRecord, next: Position) {
    && record.sourceRate > 0 && record.devicePosition >= record.deviceOrigin && record.capture >= 0
    && WirePlace(record) < 18446744073709551616.0
    && (ledger != [] ==>
          && Value(ledger[|ledger| - 1].source) < WirePlace(record)
          && 0 < record.capture - ledger[|ledger| - 1].time <= 100_000_000)
    && |Evict(ledger, next)| != 512
  }

  lemma PlaceIsExact(record: AudioRecord)
    requires record.sourceRate > 0 && record.devicePosition >= record.deviceOrigin
    ensures RecordPosition(record).Some? <==> WirePlace(record) < 18446744073709551616.0
    ensures RecordPosition(record).Some? ==>
              ValidPosition(RecordPosition(record).value) && Value(RecordPosition(record).value) == WirePlace(record)
  {
    var rate, scaled := record.sourceRate, (record.devicePosition - record.deviceOrigin) * 48_000;
    NominalIsExact(record.devicePosition, record.deviceOrigin, 0, rate);
    var anchor := NominalWirePosition(record.devicePosition, record.deviceOrigin, 0, rate);
    assert (record.devicePosition - record.deviceOrigin) as real * 48000.0 == scaled as real;
    if anchor.None? {
      Below(scaled, U64_MAX + 1, rate);
    } else {
      var p := anchor.value;
      Quotients(p.remainder, scaled, p.whole, rate);
      RecordPositionValid(record);
    }
  }

  lemma AttachExact(ledger: seq<Anchor>, record: AudioRecord, next: Position)
    requires Ordered(ledger) && ValidPosition(next)
    ensures var position := RecordPosition(record);
            Attaches(ledger, record, next) <==>
              position.Some? && Added(ledger, position.value, record.capture, next).0 == Ready
  {
    hide Evict;
    if record.sourceRate == 0 || record.devicePosition < record.deviceOrigin {
      NoPosition(record);
    } else {
      PlaceIsExact(record);
      hide WirePlace, RecordPosition;
      if RecordPosition(record).Some? && ledger != [] {
        LessIsNumeric(ledger[|ledger| - 1].source, RecordPosition(record).value);
      }
    }
  }

  predicate Audible(stereo: seq<Sample>) {
    0 < |stereo| <= 360 && |stereo| % 2 == 0 && forall i :: 0 <= i < |stereo| ==> stereo[i].Finite?
  }

  predicate Measures(verdict: Verdict) {
    verdict.estimate.None? || (verdict.estimate.value.withinLimit && -500.0 <= verdict.estimate.value.ppm <= 500.0)
  }

  /** This packet brings the third measurement of the acquisition, and so starts the segment. */
  predicate Completes(w: Worker, verdict: Verdict) {
    w.state == Priming && |w.acquisition| == 2 && verdict.estimate.Some?
  }

  ghost predicate Startable(record: AudioRecord, ppm: real, backendReset: bool) {
    && record.sourceRate > 0 && record.devicePosition >= record.deviceOrigin && 0.0 <= Gap(record) <= 2400.0 && backendReset
    && exists d :: Takes(Gap(record), ppm, d) && record.capture + d <= I64_MAX
  }

  /** The rate that holds after a packet: its own measurement, or the middle one if it completes the acquisition. */
  function RateAfter(w: Worker, verdict: Verdict): real {
    if verdict.estimate.None? then w.target
    else if Completes(w, verdict) then Median(w.acquisition[0], w.acquisition[1], verdict.estimate.value.ppm)
    else verdict.estimate.value.ppm
  }

  /** Everything a packet is rejected for, in the order it is looked at. */
  ghost function Objection(w: Worker, record: AudioRecord, ssrc: u32, stereo: seq<Sample>, verdict: Verdict,
                           backendReset: bool): Fault {
    if !Audible(stereo) then Pcm
    else if !verdict.accepted || ssrc == 0 then Metadata
    else if !Measures(verdict) then Rate
    else if Completes(w, verdict) && !Startable(record, RateAfter(w, verdict), backendReset) then Timeline
    else if w.state == Priming && !Completes(w, verdict) then NoFault
    else
      var next := if w.state == Priming then Position(record.packetWireStart, 0.0) else w.model.next;
      if !(w.ledger != [] && verdict.repeated) && !Attaches(w.ledger, record, next) then PhaseFault
      else if |w.input| + |stereo| / 2 > 9_600 then Overflow
      else NoFault
  }

  /** The offset a segment starts at is the one its gap takes. */
  lemma TakesOnce(gap: real, ppm: real, a: int, b: int)
    requires PpmValid(ppm) && Takes(gap, ppm, a) && Takes(gap, ppm, b)
    ensures a == b
  {
    var speed := 48000.0 * (1.0 + ppm / 1000000.0);
    assert 47976.0 <= speed <= 48024.0;
    ReachesFirst(gap * 1000000000.0, speed, a, b);
    ReachesFirst(gap * 1000000000.0, speed, b, a);
  }

  lemma ReachesFirst(x: real, speed: real, a: int, b: int)
    requires speed > 0.0 && Reaches(x, speed, a) && Reaches(x, speed, b)
    ensures a <= b
  {
    if b < a {
      NonNegativeProduct((a - b - 1) as real, speed);
    }
  }

  lemma StartsWhenStartable(w: Worker, record: AudioRecord, backendReset: bool)
    requires PpmValid(w.target)
    ensures Start(w, record, backendReset).0 <==> Startable(record, w.target, backendReset)
  {
    hide Takes, Start;
    var d := StartExact(w, record, backendReset);
    if Startable(record, w.target, backendReset) {
      var e :| Takes(Gap(record), w.target, e) && record.capture + e <= I64_MAX;
      TakesOnce(Gap(record), w.target, d, e);
    }
  }

  /** The frames of a packet, queued behind what was there, each with its left and right sample. */
  predicate Queues(before: seq<Queued>, stereo: seq<Sample>, now: Nanoseconds, after: seq<Queued>) {
    && |after| == |before| + |stereo| / 2 && before <= after
    && forall i :: 0 <= i < |stereo| / 2 ==> after[|before| + i] == Queued(Frame(stereo[2 * i], stereo[2 * i + 1]), now)
  }

  /** The record's anchor is the newest in the ledger, unless it only repeats one. */
  ghost predicate Anchored(before: seq<Anchor>, record: AudioRecord, repeated: bool, after: seq<Anchor>) {
    if before != [] && repeated then after == before
    else
      && after != [] && after[|after| - 1].time == record.capture
      && record.sourceRate > 0 && Value(after[|after| - 1].source) == WirePlace(record)
  }

  /** A segment has begun with this packet, on the grid that its distance from its anchor gives. */
  predicate Begun(record: AudioRecord, v: Worker) {
    && v.origin.Some? && record.sourceRate > 0 && Takes(Gap(record), v.target, v.origin.value - record.capture)
    && v.originWire == record.packetWireStart && v.command == v.target && v.model.next == Position(record.packetWireStart, 0.0)
  }

  /** What becomes of a packet that nothing is objected to. */
  ghost predicate Taken(w: Worker, record: AudioRecord, stereo: seq<Sample>, now: Nanoseconds, verdict: Verdict,
                        r: PushResult, v: Worker) {
    && v.target == RateAfter(w, verdict) && v.latestCapture == Some(record.capture)
    && if w.state == Priming && !Completes(w, verdict) then
         r == PrimingDiscard && v.state == Priming && v.input == w.input
       else
         && r == Accepted && v.state == Running && Queues(w.input, stereo, now, v.input)
         && Anchored(w.ledger, record, verdict.repeated, v.ledger)
         && (w.state == Priming ==> Begun(record, v))
         && (w.state == Running ==> v.origin == w.origin && v.model == w.model && v.command == w.command)
  }

  /** The verdict on a packet: rejected for the first objection, or taken. */
  ghost predicate Decided(w: Worker, record: AudioRecord, ssrc: u32, stereo: seq<Sample>, now: Nanoseconds, verdict: Verdict,
                          backendReset: bool, r: PushResult, v: Worker) {
    var objection := Objection(w, record, ssrc, stereo, verdict, backendReset);
    if objection != NoFault then r == Rejected && v.state == Faulted && v.fault == objection
    else Taken(w, record, stereo, now, verdict, r, v)
  }

  /**
   * One packet, in every reachable state that has not faulted: a packet of another generation changes
   * nothing, one out of time or found stale is rejected for that, and any other is taken exactly when
   * nothing is to be objected to it; the first objection is the fault.
   */
  lemma PushDecides(w: Worker, record: AudioRecord, ssrc: u32, stereo: seq<Sample>, now: Nanoseconds, healthy: bool,
                    verdict: Verdict, backendReset: bool)
    requires Inv(w) && w.state != Faulted
    ensures var (r, v) := Push(w, record, ssrc, stereo, now, healthy, verdict, backendReset);
            if record.epoch != w.epoch then r == WrongEpoch && v == w
            else if !(InTime(w, now, healthy) && AllFresh(w, now)) then r == Rejected && v.state == Faulted
            else Decided(w, record, ssrc, stereo, now, verdict, backendReset, r, v)
  {
    HealthExact(w, now, healthy);
    if record.epoch == w.epoch && InTime(w, now, healthy) && AllFresh(w, now) {
      hide AllFresh, InTime, CheckHealth;
      var h := w.(lastNow := Some(now));
      WaitsForPackets(w, h);
      AudibleIsValid(stereo);
      hide Inv, PcmValid, Audible, PushAccepted;
      if Audible(stereo) && verdict.accepted && ssrc != 0 {
        var v := h.(latestCapture := Some(record.capture));
        WaitsForPackets(w, v);
        AcceptedDecides(v, record, ssrc, stereo, now, verdict, backendReset);
        var (r, u) := PushAccepted(v, record, Frames(stereo), now, verdict, backendReset);
        SameDecision(w, v, record, ssrc, stereo, now, verdict, backendReset, r, u);
        hide Decided, Fail;
      } else {
        hide Taken;
      }
    }
  }

  lemma AudibleIsValid(stereo: seq<Sample>)
    ensures PcmValid(stereo) == Audible(stereo)
  {
  }

  /** Neither the clock nor the last anchor's time bears on the decision. */
  lemma SameDecision(w: Worker, v: Worker, record: AudioRecord, ssrc: u32, stereo: seq<Sample>, now: Nanoseconds, verdict: Verdict,
                     backendReset: bool, r: PushResult, u: Worker)
    requires v == w.(lastNow := v.lastNow, latestCapture := v.latestCapture)
    ensures Decided(v, record, ssrc, stereo, now, verdict, backendReset, r, u)
            == Decided(w, record, ssrc, stereo, now, verdict, backendReset, r, u)
  {
    hide Audible, Measures, Startable, Attaches, Median, Queues, Anchored, Begun;
  }

  lemma WaitsForPackets(w: Worker, v: Worker)
    requires Inv(w) && w.state != Faulted && v == w.(lastNow := v.lastNow, latestCapture := v.latestCapture)
    ensures Sound(v) && (v.state == Priming ==> v.ledger == [] && v.input == [])
    ensures v.state == Running ==> ValidPosition(v.model.next)
  {
    hide HistoryInv, Ordered;
  }

  ghost predicate Acceptable(v: Worker, record: AudioRecord, ssrc: u32, stereo: seq<Sample>, verdict: Verdict) {
    && Sound(v) && v.state != Faulted && (v.state == Priming ==> v.ledger == [] && v.input == [])
    && (v.state == Running ==> ValidPosition(v.model.next))
    && Audible(stereo) && verdict.accepted && ssrc != 0 && v.latestCapture == Some(record.capture)
  }

  lemma AcceptedDecides(v: Worker, record: AudioRecord, ssrc: u32, stereo: seq<Sample>, now: Nanoseconds, verdict: Verdict,
                        backendReset: bool)
    requires Acceptable(v, record, ssrc, stereo, verdict)
    ensures var (r, u) := PushAccepted(v, record, Frames(stereo), now, verdict, backendReset);
            Decided(v, record, ssrc, stereo, now, verdict, backendReset, r, u)
  {
    hide Decided, PushAccepted, Frames, Sound;
    if Completes(v, verdict) && Measures(verdict) {
      CompletingDecides(v, record, ssrc, stereo, now, verdict, backendReset);
    } else if v.state == Running && Measures(verdict) {
      RunningDecides(v, record, ssrc, stereo, now, verdict, backendReset);
    } else {
      WaitingDecides(v, record, ssrc, stereo, now, verdict, backendReset);
    }
  }

  lemma CompletingDecides(v: Worker, record: AudioRecord, ssrc: u32, stereo: seq<Sample>, now: Nanoseconds, verdict: Verdict,
                        backendReset: bool)
    requires Acceptable(v, record, ssrc, stereo, verdict)
    requires Completes(v, verdict) && Measures(verdict)
    ensures var (r, u) := PushAccepted(v, record, Frames(stereo), now, verdict, backendReset);
            Decided(v, record, ssrc, stereo, now, verdict, backendReset, r, u)
  {
    hide Attaches, Startable, Start, Queues, Anchored, Begun, Frames, TakeFrames;
    var w := Received(v, |stereo| / 2);
    var e := TakeEstimate(w, verdict).1;
    EstimateKeepsSound(w, verdict);
    AcquireSound(e, record, backendReset);
    BeginningDecides(e.(target := RateAfter(v, verdict)), record, stereo, now, verdict, backendReset);
  }

  lemma RunningDecides(v: Worker, record: AudioRecord, ssrc: u32, stereo: seq<Sample>, now: Nanoseconds, verdict: Verdict,
                        backendReset: bool)
    requires Acceptable(v, record, ssrc, stereo, verdict)
    requires v.state == Running && Measures(verdict)
    ensures var (r, u) := PushAccepted(v, record, Frames(stereo), now, verdict, backendReset);
            Decided(v, record, ssrc, stereo, now, verdict, backendReset, r, u)
  {
    hide Attaches, Startable, Queues, Anchored, Begun, Frames, TakeFrames, Median;
    var w := Received(v, |stereo| / 2);
    var e := TakeEstimate(w, verdict).1;
    EstimateKeepsSound(w, verdict);
    AcquireSound(e, record, backendReset);
    FramesDecide(e, record, stereo, now, verdict);
  }

  lemma WaitingDecides(v: Worker, record: AudioRecord, ssrc: u32, stereo: seq<Sample>, now: Nanoseconds, verdict: Verdict,
                        backendReset: bool)
    requires Acceptable(v, record, ssrc, stereo, verdict)
    requires !Measures(verdict) || (v.state == Priming && !Completes(v, verdict))
    ensures var (r, u) := PushAccepted(v, record, Frames(stereo), now, verdict, backendReset);
            Decided(v, record, ssrc, stereo, now, verdict, backendReset, r, u)
  {
    hide Attaches, Startable, Queues, Anchored, Begun, Frames, Median, Ordered;
  }

  /** The packet that starts a segment is the first of it. */
  lemma BeginningDecides(m: Worker, record: AudioRecord, stereo: seq<Sample>, now: Nanoseconds, verdict: Verdict, backendReset: bool)
    requires NearlySound(m) && m.state == Priming && m.ledger == [] && m.input == [] && |stereo| / 2 <= 9_600
    ensures !Start(m, record, backendReset).0 ==> Start(m, record, backendReset).1.state == Priming
    ensures Start(m, record, backendReset).0 <==> Startable(record, m.target, backendReset)
    ensures Start(m, record, backendReset).0 ==>
              var a := Start(m, record, backendReset).1;
              && Sound(a) && a.state == Running && a.ledger == []
              && var (r, u) := TakeFrames(a, record, Frames(stereo), now, verdict);
                 if !Attaches([], record, Position(record.packetWireStart, 0.0))
                 then r == Rejected && u.state == Faulted && u.fault == PhaseFault
                 else
                   && r == Accepted && u.state == Running && Queues([], stereo, now, u.input)
                   && Anchored([], record, verdict.repeated, u.ledger) && Begun(record, u)
                   && u.target == m.target && u.latestCapture == m.latestCapture
  {
    StartsWhenStartable(m, record, backendReset);
    if Startable(record, m.target, backendReset) {
      var d := StartExact(m, record, backendReset);
      StartBrackets(m, record, backendReset);
      var a := Start(m, record, backendReset).1;
      assert (a.ledger, a.input, a.target, a.latestCapture) == (m.ledger, m.input, m.target, m.latestCapture) && Sound(a);
      hide Start, TakeFrames, Takes, Startable, Attaches, Gap, Queues, Anchored;
      FramesDecide(a, record, stereo, now, verdict);
    }
  }

  lemma FramesDecide(a: Worker, record: AudioRecord, stereo: seq<Sample>, now: Nanoseconds, verdict: Verdict)
    requires Sound(a) && a.state == Running && ValidPosition(a.model.next)
    ensures var (r, u) := TakeFrames(a, record, Frames(stereo), now, verdict);
            var attached := (a.ledger != [] && verdict.repeated) || Attaches(a.ledger, record, a.model.next);
            if !attached then r == Rejected && u.state == Faulted && u.fault == PhaseFault
            else if |a.input| + |stereo| / 2 > 9_600 then r == Rejected && u.state == Faulted && u.fault == Overflow
            else
              && r == Accepted && u.state == Running && Queues(a.input, stereo, now, u.input)
              && Anchored(a.ledger, record, verdict.repeated, u.ledger)
              && (u.target, u.latestCapture, u.origin, u.originWire, u.model, u.command)
                 == (a.target, a.latestCapture, a.origin, a.originWire, a.model, a.command)
  {
    AttachExact(a.ledger, record, a.model.next);
    StampQueues(a.input, stereo, now);
    hide Attaches, RecordPosition, Stamp, Frames, Queues, WirePlace, Evict;
    if record.sourceRate > 0 && record.devicePosition >= record.deviceOrigin {
      PlaceIsExact(record);
    }
  }

  lemma StampQueues(before: seq<Queued>, stereo: seq<Sample>, now: Nanoseconds)
    ensures Queues(before, stereo, now, before + Stamp(Frames(stereo), now))
  {
  }

  // ---- a new generation -----------------------------------------------------------------------

  /**
   * One reset: only another session, or a later generation of this one, can follow; if the resampler was
   * reset for it the worker starts over as new, and otherwise it has failed, if it had not before.
   */
  lemma ResetDecides(w: Worker, next: SessionToken, backendReset: bool)
    ensures var (ok, v) := Reset(w, next, backendReset);
            var follows := next.session != 0 && next.generation != 0
                           && (next.session != w.epoch.session || next.generation > w.epoch.generation);
            && ok == (follows && backendReset)
            && if !follows || (!backendReset && w.state == Faulted) then v == w
               else if backendReset then
                 && v.epoch == next && v.state == Priming && v.fault == NoFault && v.diagnostics == NO_DIAGNOSTICS
                 && v.acquisition == [] && v.target == 0.0 && v.command == 0.0 && v.outputIndex == 0
                 && v.origin == v.lastNow == v.lastProgress == v.latestCapture == None
                 && v.ledger == [] && v.input == [] && v.output == [] && v.history == NOTHING && !v.model.initialized
               else
                 && v.epoch == w.epoch && v.state == Faulted && v.fault == Backend
                 && v.ledger == [] && v.input == [] && v.output == [] && v.history == w.history && !v.model.initialized
  {
  }
}
