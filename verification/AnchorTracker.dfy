// Original capture anchors of one generation: which are accepted, and which windows of them measure
// the source rate (include/avsync/audio_anchors.hpp, src/core/timing.cpp).
module AnchorTracker {
  import opened Timing
  import opened WirePosition

  datatype CaptureAnchor = CaptureAnchor(
    epoch: SessionToken, sequence: u64, position: u64, capture: Nanoseconds, rate: u32, discontinuity: bool)

  datatype Config = Config(
    nominalRate: u32, maxCorrection: real, minWindow: Nanoseconds, maxGap: Nanoseconds,
    deviceOrigin: u64, wireOrigin: u64, maxAge: Nanoseconds, maxFuture: int) {
    /** What the constructors of tracker and estimator accept. */
    predicate Valid() {
      && nominalRate > 0 && 0.0 < maxCorrection < 1000000.0 && minWindow > 0 && maxGap > 0
      && maxAge > 0 && 0 <= maxFuture <= I64_MAX
    }
  }

  datatype Status =
    | Priming | Waiting | Measured
    | WrongEpoch | InvalidAnchor | Stale | Future | Discontinuity | Overflow | RequiresReset

  datatype Point = Point(sample: u64, time: Nanoseconds)
  datatype Window = Window(from: Point, to: Point)
  datatype RateEstimate = RateEstimate(measured: real, ppm: real, bounded: real, ratio: real, within: bool)

  /** The estimator's memory: where the window under way started, and the newest point. */
  datatype Estimator = Estimator(anchor: Option<Point>, last: Option<Point>)

  datatype Tracker = Tracker(
    epoch: SessionToken, config: Config, estimator: Estimator, last: Option<CaptureAnchor>,
    wire: Option<ExactWirePosition>, estimate: Option<RateEstimate>, faulted: bool,
    accepted: seq<CaptureAnchor>, windows: seq<Window>)

  datatype Observation = Observation(status: Status, wire: Option<ExactWirePosition>, estimate: Option<RateEstimate>)

  function NewTracker(epoch: SessionToken, config: Config): Tracker {
    Tracker(epoch, config, Estimator(None, None), None, None, None, false, [], [])
  }

  // ---- rate measurement --------------------------------------------------------------------

  function Magnitude(x: real): real {
    if x < 0.0 then -x else x
  }

  /** Frames per second over a window, and how far that is from nominal. */
  function Rate(config: Config, w: Window): RateEstimate
    requires config.Valid() && w.to.time > w.from.time
  {
    var measured := (w.to.sample - w.from.sample) as real * 1000000000.0 / (w.to.time - w.from.time) as real;
    var ppm := (measured / config.nominalRate as real - 1.0) * 1000000.0;
    var bounded := if ppm < -config.maxCorrection then -config.maxCorrection
                   else if ppm > config.maxCorrection then config.maxCorrection else ppm;
    RateEstimate(measured, ppm, bounded, 1.0 / (1.0 + bounded / 1000000.0), Magnitude(ppm) <= config.maxCorrection + 0.000001)
  }

  /** One point: it starts the first window, moves on inside one, completes one, or starts over. */
  function Measure(config: Config, e: Estimator, p: Point): (Status, Estimator, Option<Window>) {
    if e.last.None? || e.anchor.None? then (Priming, Estimator(Some(p), Some(p)), None)
    else
      var gap, span := CheckedSub(p.time, e.last.value.time), CheckedSub(p.time, e.anchor.value.time);
      if gap.None? || gap.value <= 0 || gap.value > config.maxGap || p.sample <= e.last.value.sample || span.None?
      then (Discontinuity, Estimator(Some(p), Some(p)), None)
      else if span.value < config.minWindow then (Waiting, e.(last := Some(p)), None)
      else (Measured, Estimator(Some(p), Some(p)), Some(Window(e.anchor.value, p)))
  }

  // ---- one anchor ------------------------------------------------------------------------

  /** The first test an anchor fails on its own or against the one before it, in the program's order. */
  function Screen(t: Tracker, a: CaptureAnchor, now: Nanoseconds): Option<Status> {
    if a.rate == 0 || a.capture < 0 || now < 0 then Some(InvalidAnchor)
    else if a.discontinuity || a.rate != t.config.nominalRate then Some(Discontinuity)
    else
      var age := CheckedSub(now, a.capture);
      if age.None? then Some(Overflow)
      else if age.value > t.config.maxAge then Some(Stale)
      else if age.value < -t.config.maxFuture then Some(Future)
      else if t.last.Some? then Follows(t, t.last.value, a)
      else Placed(t, a)
  }

  function Follows(t: Tracker, last: CaptureAnchor, a: CaptureAnchor): Option<Status> {
    var gap := CheckedSub(a.capture, last.capture);
    if gap.None? then Some(Overflow)
    else if last.sequence == U64_MAX || a.sequence != last.sequence + 1 || a.position <= last.position
            || gap.value <= 0 || gap.value > t.config.maxGap then Some(Discontinuity)
    else Placed(t, a)
  }

  function WireOf(t: Tracker, a: CaptureAnchor): Option<ExactWirePosition> {
    NominalWirePosition(a.position, t.config.deviceOrigin, t.config.wireOrigin, t.config.nominalRate)
  }

  function Placed(t: Tracker, a: CaptureAnchor): Option<Status> {
    if WireOf(t, a).Some? then None
    else if a.position < t.config.deviceOrigin then Some(InvalidAnchor) else Some(Overflow)
  }

  /** A stray generation leaves no trace; any other refusal poisons the generation. */
  function Observed(t: Tracker, a: CaptureAnchor, now: Nanoseconds): (Observation, Tracker)
    requires t.config.Valid()
  {
    if a.epoch != t.epoch then (Observation(WrongEpoch, None, None), t)
    else if t.faulted then (Observation(RequiresReset, None, None), t)
    else
      var refusal := Screen(t, a, now);
      if refusal.Some? then (Observation(refusal.value, None, None), t.(faulted := true)) else Accept(t, a)
  }

  function Accept(t: Tracker, a: CaptureAnchor): (Observation, Tracker)
    requires t.config.Valid()
  {
    var (status, estimator, window) := Measure(t.config, t.estimator, Point(a.position, a.capture));
    if status == Discontinuity then (Observation(Discontinuity, None, None), t.(faulted := true, estimator := estimator))
    else
      var rate := if window.Some? && window.value.to.time > window.value.from.time
                  then Some(Rate(t.config, window.value)) else None;
      var v := t.(estimator := estimator, last := Some(a), wire := WireOf(t, a), accepted := t.accepted + [a],
                  windows := if window.Some? then t.windows + [window.value] else t.windows,
                  estimate := if rate.Some? then rate else t.estimate);
      (Observation(status, v.wire, rate), v)
  }

  predicate FreshAt(t: Tracker, now: Nanoseconds) {
    && !t.faulted && t.last.Some? && now >= 0
    && var age := CheckedSub(now, t.last.value.capture);
       age.Some? && -t.config.maxFuture <= age.value <= t.config.maxAge
  }

  /** The only estimate anyone may act on: fresh, of this generation, and within the correction limit. */
  function CurrentEstimate(t: Tracker, now: Nanoseconds): (r: Option<RateEstimate>)
    ensures r.Some? ==> !t.faulted && r == t.estimate && r.value.within && FreshAt(t, now)
  {
    if !FreshAt(t, now) || t.estimate.None? || !t.estimate.value.within then None else t.estimate
  }

  // ---- the tracker -------------------------------------------------------------------------

  class AudioAnchorTracker {
    var epoch: SessionToken
    var config: Config
    var estimator: Estimator
    var last: Option<CaptureAnchor>
    var lastWire: Option<ExactWirePosition>
    var estimate: Option<RateEstimate>
    var faulted: bool
    ghost var accepted: seq<CaptureAnchor>
    ghost var windows: seq<Window>

    ghost function Abs(): Tracker
      reads this
    {
      Tracker(epoch, config, estimator, last, lastWire, estimate, faulted, accepted, windows)
    }

    constructor (epoch: SessionToken, config: Config)
      requires config.Valid()
      ensures Abs() == NewTracker(epoch, config)
    {
      this.epoch, this.config := epoch, config;
      estimator, last, lastWire, estimate, faulted := Estimator(None, None), None, None, None, false;
      accepted, windows := [], [];
    }

    method Reject(status: Status, poison: bool) returns (r: Observation)
      modifies this`faulted
      ensures faulted == (old(faulted) || poison) && r == Observation(status, None, None)
    {
      if poison {
        faulted := true;
      }
      return Observation(status, None, None);
    }

    method Observe(a: CaptureAnchor, now: Nanoseconds) returns (r: Observation)
      requires config.Valid()
      modifies this
      ensures config == old(config) && (r, Abs()) == Observed(old(Abs()), a, now)
    {
      hide NominalWirePosition, Rate;
      if a.epoch != epoch {
        r := Reject(WrongEpoch, false);
        return;
      }
      if faulted {
        r := Reject(RequiresReset, false);
        return;
      }
      var refusal := Check(a, now);
      if refusal.Some? {
        r := Reject(refusal.value, true);
        return;
      }
      r := Admit(a);
    }

    /** The tests in order: the anchor itself, its age, the anchor before it, its wire position. */
    method Check(a: CaptureAnchor, now: Nanoseconds) returns (refusal: Option<Status>)
      ensures refusal == Screen(Abs(), a, now)
    {
      hide NominalWirePosition;
      if a.rate == 0 || a.capture < 0 || now < 0 { return Some(InvalidAnchor); }
      if a.discontinuity || a.rate != config.nominalRate { return Some(Discontinuity); }
      var age := CheckedSub(now, a.capture);
      if age.None? { return Some(Overflow); }
      if age.value > config.maxAge { return Some(Stale); }
      if age.value < -config.maxFuture { return Some(Future); }
      if last.Some? {
        var gap := CheckedSub(a.capture, last.value.capture);
        if gap.None? { return Some(Overflow); }
        if last.value.sequence == U64_MAX || a.sequence != last.value.sequence + 1 || a.position <= last.value.position
           || gap.value <= 0 || gap.value > config.maxGap {
          return Some(Discontinuity);
        }
      }
      if NominalWirePosition(a.position, config.deviceOrigin, config.wireOrigin, config.nominalRate).None? {
        return Some(if a.position < config.deviceOrigin then InvalidAnchor else Overflow);
      }
      return None;
    }

    method Admit(a: CaptureAnchor) returns (r: Observation)
      requires config.Valid()
      modifies this`estimator, this`last, this`lastWire, this`estimate, this`faulted, this`accepted, this`windows
      ensures (r, Abs()) == Accept(old(Abs()), a)
    {
      hide NominalWirePosition, Rate, Measure;
      var (status, next, window) := Measure(config, estimator, Point(a.position, a.capture));
      estimator := next;
      if status == Discontinuity {
        r := Reject(Discontinuity, true);
        return;
      }
      var wire := NominalWirePosition(a.position, config.deviceOrigin, config.wireOrigin, config.nominalRate);
      var rate: Option<RateEstimate> := None;
      last, lastWire := Some(a), wire;
      accepted := accepted + [a];
      if window.Some? {
        windows := windows + [window.value];
        if window.value.to.time > window.value.from.time {
          rate := Some(Rate(config, window.value));
          estimate := rate;
        }
      }
      return Observation(status, wire, rate);
    }

    /** A successor starts from nothing; a wrong or reused generation changes nothing. */
    method Reset(next: SessionToken, nextConfig: Config) returns (ok: bool)
      requires nextConfig.Valid()
      modifies this
      ensures ok <==> next.session != 0 && next.generation != 0
                      && (next.session != old(epoch).session || next.generation > old(epoch).generation)
      ensures Abs() == if ok then NewTracker(next, nextConfig) else old(Abs())
    {
      if !ValidSuccessor(epoch, next) {
        return false;
      }
      epoch, config, estimator := next, nextConfig, Estimator(None, None);
      last, lastWire, estimate, faulted, accepted, windows := None, None, None, false, [], [];
      return true;
    }
  }

  // ---- what a generation keeps -------------------------------------------------------------

  /** Accepted anchors are consecutive, and both clocks only move forward, never by more than the gap. */
  ghost predicate Consecutive(config: Config, accepted: seq<CaptureAnchor>) {
    && (forall i :: 0 <= i < |accepted| ==> accepted[i].capture >= 0)
    && (forall i, j :: 0 <= i < j < |accepted| ==>
          && accepted[j].sequence == accepted[i].sequence + (j - i)
          && accepted[i].position < accepted[j].position && accepted[i].capture < accepted[j].capture)
    && (forall i, j :: 0 <= i < |accepted| && j == i + 1 && j < |accepted| ==>
          accepted[j].capture - accepted[i].capture <= config.maxGap)
  }

  function PointOf(a: CaptureAnchor): Point {
    Point(a.position, a.capture)
  }

  /** The measuring windows lie end to end, from the first accepted anchor to the one now counted from. */
  ghost predicate EndToEnd(t: Tracker) {
    && (forall k :: 0 <= k < |t.windows| ==> t.windows[k].to.time - t.windows[k].from.time >= t.config.minWindow)
    && (forall k, m :: 0 <= k < |t.windows| && m == k + 1 && m < |t.windows| ==> t.windows[k].to == t.windows[m].from)
    && (t.accepted != [] ==>
          && t.estimator.anchor.Some?
          && (if t.windows == [] then t.estimator.anchor.value == PointOf(t.accepted[0])
              else t.windows[0].from == PointOf(t.accepted[0]) && t.estimator.anchor.value == t.windows[|t.windows| - 1].to))
  }

  ghost predicate Inv(t: Tracker) {
    && t.config.Valid() && Consecutive(t.config, t.accepted) && EndToEnd(t)
    && (t.accepted == [] ==> t.last.None? && t.windows == [] && t.estimator == Estimator(None, None))
    && (t.accepted != [] ==>
          && t.last == Some(t.accepted[|t.accepted| - 1]) && t.estimator.last == Some(PointOf(t.last.value))
          && 0 <= t.estimator.anchor.value.time <= t.last.value.capture && t.estimator.anchor.value.sample <= t.last.value.position)
    && (t.estimate.Some? <==> t.windows != [])
    && (t.windows != [] ==> t.estimate == Some(Rate(t.config, t.windows[|t.windows| - 1])))
  }

  lemma AcceptKeeps(t: Tracker, a: CaptureAnchor, now: Nanoseconds)
    requires Inv(t) && Screen(t, a, now).None?
    ensures Inv(Accept(t, a).1) && Accept(t, a).0.status != Discontinuity
    ensures Accept(t, a).1.accepted == t.accepted + [a]
  {
    hide NominalWirePosition, Rate;
    var v := Accept(t, a).1;
    ConsecutiveMore(t, a, now);
  }

  lemma ConsecutiveMore(t: Tracker, a: CaptureAnchor, now: Nanoseconds)
    requires Inv(t) && Screen(t, a, now).None?
    ensures Consecutive(t.config, t.accepted + [a])
  {
    hide NominalWirePosition, Rate;
  }

  /** A tracker's invariant survives any anchor, and the estimator's own discontinuity test never fires. */
  lemma ObservedKeeps(t: Tracker, a: CaptureAnchor, now: Nanoseconds)
    requires Inv(t)
    ensures Inv(Observed(t, a, now).1) && Observed(t, a, now).1.config == t.config
    ensures var (o, v) := Observed(t, a, now);
            v.accepted == if o.status in {Priming, Waiting, Measured} then t.accepted + [a] else t.accepted
  {
    hide Inv, Screen, Accept;
    InvConfig(t);
    PoisonKeeps(t);
    if a.epoch == t.epoch && !t.faulted && Screen(t, a, now).None? {
      AcceptKeeps(t, a, now);
      AcceptStatus(t, a);
    } else if Screen(t, a, now).Some? {
      RefusalStatus(t, a, now);
    }
  }

  lemma InvConfig(t: Tracker)
    requires Inv(t)
    ensures t.config.Valid()
  {
  }

  lemma PoisonKeeps(t: Tracker)
    requires Inv(t)
    ensures Inv(t.(faulted := true))
  {
    hide Rate, NominalWirePosition;
  }

  lemma AcceptStatus(t: Tracker, a: CaptureAnchor)
    requires t.config.Valid()
    ensures Accept(t, a).1.config == t.config
    ensures Accept(t, a).0.status in {Priming, Waiting, Measured, Discontinuity}
  {
    hide Rate, NominalWirePosition;
  }

  lemma RefusalStatus(t: Tracker, a: CaptureAnchor, now: Nanoseconds)
    requires Screen(t, a, now).Some?
    ensures Screen(t, a, now).value !in {Priming, Waiting, Measured}
  {
    hide NominalWirePosition;
  }

  datatype Sighting = Sighting(anchor: CaptureAnchor, now: Nanoseconds)

  ghost function Run(t: Tracker, seen: seq<Sighting>): Tracker
    requires Inv(t)
    decreases |seen|
  {
    if seen == [] then t
    else
      ObservedKeeps(t, seen[0].anchor, seen[0].now);
      Run(Observed(t, seen[0].anchor, seen[0].now).1, seen[1..])
  }

  lemma FaultedObserves(t: Tracker, a: CaptureAnchor, now: Nanoseconds)
    requires t.config.Valid()
    ensures t.faulted ==> Observed(t, a, now).1 == t
  {
  }

  lemma {:induction false} RunKeeps(t: Tracker, seen: seq<Sighting>)
    requires Inv(t)
    ensures Inv(Run(t, seen)) && t.accepted <= Run(t, seen).accepted && Run(t, seen).config == t.config
    ensures t.faulted ==> Run(t, seen) == t
    decreases |seen|
  {
    InvConfig(t);
    hide Inv, Observed;
    if seen != [] {
      FaultedObserves(t, seen[0].anchor, seen[0].now);
      ObservedKeeps(t, seen[0].anchor, seen[0].now);
      var v := Observed(t, seen[0].anchor, seen[0].now).1;
      RunKeeps(v, seen[1..]);
    }
  }

  lemma NewTrackerInv(epoch: SessionToken, config: Config)
    requires config.Valid()
    ensures Inv(NewTracker(epoch, config))
  {
  }

  /**
   * Whatever a generation is shown: the anchors it accepts are consecutive and move forward on both
   * clocks, its rate windows lie end to end, none shorter than the minimum, and the estimate it
   * holds is that of the last complete window.
   */
  lemma GenerationKeeps(epoch: SessionToken, config: Config, seen: seq<Sighting>)
    requires config.Valid()
    ensures Inv(NewTracker(epoch, config))
    ensures var t := Run(NewTracker(epoch, config), seen);
            && Inv(t) && Consecutive(t.config, t.accepted) && EndToEnd(t)
            && (t.estimate.Some? <==> t.windows != [])
            && (t.windows != [] ==> t.estimate == Some(Rate(t.config, t.windows[|t.windows| - 1])))
  {
    NewTrackerInv(epoch, config);
    RunKeeps(NewTracker(epoch, config), seen);
  }

  /**
   * What may be acted on: whatever a generation has been shown, an estimate is offered exactly when it
   * is unpoisoned, its last accepted anchor is fresh and a window is complete whose rate is within the
   * limit; and then it is the rate of the last complete window, which is no shorter than the minimum.
   */
  lemma OfferedEstimate(epoch: SessionToken, config: Config, seen: seq<Sighting>, now: Nanoseconds)
    requires config.Valid()
    ensures Inv(NewTracker(epoch, config))
    ensures var t := Run(NewTracker(epoch, config), seen); var n := |t.windows|; var r := CurrentEstimate(t, now);
            && (r.Some? <==>
                  && !t.faulted && now >= 0 && t.accepted != [] && n > 0
                  && -config.maxFuture <= now - t.accepted[|t.accepted| - 1].capture <= config.maxAge
                  && t.windows[n - 1].to.time > t.windows[n - 1].from.time
                  && Magnitude(Rate(config, t.windows[n - 1]).ppm) <= config.maxCorrection + 0.000001)
            && (r.Some? ==>
                  && r.value == Rate(config, t.windows[n - 1])
                  && t.windows[n - 1].to.time - t.windows[n - 1].from.time >= config.minWindow)
  {
    NewTrackerInv(epoch, config);
    RunKeeps(NewTracker(epoch, config), seen);
    var t := Run(NewTracker(epoch, config), seen);
    assert t.config == config;
  }

  /** Once poisoned, a generation accepts nothing and offers no estimate, whatever it is shown. */
  lemma PoisonIsFinal(t: Tracker, seen: seq<Sighting>, now: Nanoseconds)
    requires Inv(t) && t.faulted
    ensures Run(t, seen) == t && CurrentEstimate(Run(t, seen), now) == None
  {
    RunKeeps(t, seen);
  }

  // ---- what is accepted, and what is measured --------------------------------------------------

  /**
   * What a rate says: frames per second over the window; how many parts per million that is off nominal;
   * the same kept within the correction limit, with the resampling ratio that undoes it; and whether the
   * limit was kept without that.
   */
  lemma RateExact(config: Config, w: Window)
    requires config.Valid() && w.to.time > w.from.time
    ensures var r := Rate(config, w);
            var frames, time := (w.to.sample - w.from.sample) as real, (w.to.time - w.from.time) as real;
            && r.measured * time == frames * 1000000000.0
            && (1.0 + r.ppm / 1000000.0) * config.nominalRate as real == r.measured
            && -config.maxCorrection <= r.bounded <= config.maxCorrection
            && (-config.maxCorrection <= r.ppm <= config.maxCorrection ==> r.bounded == r.ppm)
            && (r.ppm > config.maxCorrection ==> r.bounded == config.maxCorrection)
            && (r.ppm < -config.maxCorrection ==> r.bounded == -config.maxCorrection)
            && r.ratio * (1.0 + r.bounded / 1000000.0) == 1.0
            && (r.within <==> -config.maxCorrection - 0.000001 <= r.ppm <= config.maxCorrection + 0.000001)
  {
    var r := Rate(config, w);
    Divides((w.to.sample - w.from.sample) as real * 1000000000.0, (w.to.time - w.from.time) as real);
    Divides(r.measured, config.nominalRate as real);
    var speed := 1.0 + r.bounded / 1000000.0;
    assert speed > 0.0;
    Divides(1.0, speed);
  }

  lemma Divides(x: real, y: real)
    requires y > 0.0
    ensures x / y * y == x
  {
  }

  /** The window under way began at the end of the last complete one, or with the first anchor. */
  function WindowStart(t: Tracker): Nanoseconds
    requires t.accepted != []
  {
    if t.windows == [] then t.accepted[0].capture else t.windows[|t.windows| - 1].to.time
  }

  /** The anchor fits: it is of this generation and rate, fresh, next to the last one on both clocks, and has a wire place. */
  ghost predicate Fits(t: Tracker, a: CaptureAnchor, now: Nanoseconds) {
    && a.epoch == t.epoch && !t.faulted && !a.discontinuity && a.rate == t.config.nominalRate
    && a.capture >= 0 && now >= 0 && -t.config.maxFuture <= now - a.capture <= t.config.maxAge
    && (t.accepted != [] ==>
          var last := t.accepted[|t.accepted| - 1];
          && a.sequence == last.sequence + 1 && a.position > last.position
          && 0 < a.capture - last.capture <= t.config.maxGap)
    && a.position >= t.config.deviceOrigin
    && t.config.wireOrigin * a.rate + (a.position - t.config.deviceOrigin) * 48_000 < (U64_MAX + 1) * a.rate
  }

  /** What is said of an anchor that does not fit: the first of these that it fails. */
  function Reproach(t: Tracker, a: CaptureAnchor, now: Nanoseconds): Status {
    if a.epoch != t.epoch then WrongEpoch
    else if t.faulted then RequiresReset
    else if a.rate == 0 || a.capture < 0 || now < 0 then InvalidAnchor
    else if a.discontinuity || a.rate != t.config.nominalRate then Discontinuity
    else if now - a.capture > t.config.maxAge then Stale
    else if a.capture - now > t.config.maxFuture then Future
    else if t.accepted != []
            && var last := t.accepted[|t.accepted| - 1];
               a.sequence != last.sequence + 1 || a.position <= last.position
               || a.capture <= last.capture || a.capture - last.capture > t.config.maxGap then Discontinuity
    else if a.position < t.config.deviceOrigin then InvalidAnchor
    else Overflow
  }

  /**
   * Which anchors are accepted, in every reachable state: exactly those that fit; and of them exactly those
   * complete a window, and bring its rate, that come at least the minimum after its start.  Any other is
   * refused for the first thing wrong with it, and of this generation poisons it.
   */
  lemma AcceptExact(t: Tracker, a: CaptureAnchor, now: Nanoseconds)
    requires Inv(t)
    ensures var (o, v) := Observed(t, a, now);
            if Fits(t, a, now) then
              && v.accepted == t.accepted + [a] && !v.faulted
              && o.status == (if t.accepted == [] then Priming
                              else if a.capture - WindowStart(t) >= t.config.minWindow then Measured else Waiting)
              && v.windows == t.windows + (if o.status == Measured
                                           then [Window(t.estimator.anchor.value, Point(a.position, a.capture))] else [])
              && (o.estimate.Some? <==> o.status == Measured) && (o.estimate.Some? ==> v.estimate == o.estimate)
            else
              && v.accepted == t.accepted && v.windows == t.windows
              && v.faulted == (t.faulted || a.epoch == t.epoch)
              && o == Observation(Reproach(t, a, now), None, None)
  {
    hide Rate;
    ScreenExact(t, a, now);
    InvConfig(t);
    hide Screen, NominalWirePosition;
    if a.epoch == t.epoch && !t.faulted && Screen(t, a, now).None? {
      hide Fits;
      AcceptKeeps(t, a, now);
    } else {
      Reproached(t, a, now);
      hide Inv, Reproach;
    }
  }

  lemma Reproached(t: Tracker, a: CaptureAnchor, now: Nanoseconds)
    requires Inv(t) && (a.epoch == t.epoch && !t.faulted ==> Screen(t, a, now).Some?)
    ensures Observed(t, a, now).0 == Observation(Reproach(t, a, now), None, None)
  {
    hide Rate, NominalWirePosition, EndToEnd, Consecutive, Accept;
  }

  lemma ScreenExact(t: Tracker, a: CaptureAnchor, now: Nanoseconds)
    requires Inv(t)
    ensures Fits(t, a, now) <==> a.epoch == t.epoch && !t.faulted && Screen(t, a, now).None?
  {
    hide Rate, NominalWirePosition, EndToEnd, Consecutive;
    if a.rate == t.config.nominalRate && a.position >= t.config.deviceOrigin {
      NominalIsExact(a.position, t.config.deviceOrigin, t.config.wireOrigin, t.config.nominalRate);
      Whole(t, a);
    }
    NoPlace(t, a);
  }

  /** A whole part of 64 bits and a remainder stay below the next power of two, scaled. */
  lemma Whole(t: Tracker, a: CaptureAnchor)
    requires t.config.nominalRate > 0
    ensures forall p: ExactWirePosition :: p.remainder < t.config.nominalRate ==>
              p.whole * t.config.nominalRate + p.remainder < (U64_MAX + 1) * t.config.nominalRate
  {
    forall p: ExactWirePosition | p.remainder < t.config.nominalRate
      ensures p.whole * t.config.nominalRate + p.remainder < (U64_MAX + 1) * t.config.nominalRate
    {
      MulLe(p.whole + 1, U64_MAX + 1, t.config.nominalRate);
    }
  }

  lemma NoPlace(t: Tracker, a: CaptureAnchor)
    ensures a.position < t.config.deviceOrigin ==> WireOf(t, a).None?
  {
  }
}
