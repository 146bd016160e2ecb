// What the correction worker does, as steps on one value: two queues, one phase model, one anchor
// ledger, one fault latch and the history of the generation
// (src/audio/audio_correction.cpp, include/avsync/audio_correction.hpp).
module CorrectionSpec {
  import opened Timing
  import opened WirePosition
  import opened PhaseModel
  import opened PhaseLedger

  const INPUT_CAPACITY: nat := 9_600
  const OUTPUT_CAPACITY: nat := 3_840
  const INPUT_OFFER: nat := 2_048
  const MAX_CALLS: nat := 8
  const MAXIMUM_PAYLOAD_FRAMES: nat := 180
  const COMMAND_STEP_PPM: real := 0.99
  const QUEUE_LIFETIME_NS: int := 200_000_000
  const MAXIMUM_ANCHOR_AGE_NS: int := 250_000_000
  const MAXIMUM_ANCHOR_FUTURE_NS: int := 100_000_000

  datatype Sample = Finite(value: real) | NonFinite
  datatype Frame = Frame(left: Sample, right: Sample)
  datatype Queued = Queued(frame: Frame, arrival: Nanoseconds)

  datatype WorkerState = Priming | Running | Faulted
  datatype Fault = NoFault | Metadata | Pcm | Rate | Overflow | Stale | Health | Backend | Timeline | PhaseFault
  datatype StaleReason = NotStale | NoProgress | AnchorAge | InputQueue | OutputQueue
  datatype PushResult = Accepted | PrimingDiscard | WrongEpoch | Rejected

  /** The fields of the original wire record that the worker reads. */
  datatype AudioRecord = AudioRecord(
    epoch: SessionToken, deviceOrigin: u64, sourceRate: u32, packetWireStart: u64,
    devicePosition: u64, capture: Nanoseconds)

  /** What the record validator answers for one packet. */
  datatype Estimate = Estimate(ppm: real, withinLimit: bool)
  datatype Verdict = Verdict(accepted: bool, repeated: bool, estimate: Option<Estimate>)

  /** What the resampler answers to one call: frames used and frames generated. */
  datatype Reply = Reply(progress: bool, used: nat, frames: seq<Frame>)

  datatype CorrectedAudio = CorrectedAudio(epoch: SessionToken, firstFrame: nat, captureGrid: Nanoseconds, frames: nat)

  /**
   * Everything this generation has seen: each anchor accepted, each input frame queued, and for
   * each output frame the source position predicted for it; what was generated and handed out.
   */
  datatype History = History(
    origin: Option<Nanoseconds>, anchors: seq<Anchor>, positions: seq<Position>,
    offered: seq<Frame>, generated: seq<Frame>, delivered: seq<Frame>, blocks: seq<CorrectedAudio>)

  const NOTHING: History := History(None, [], [], [], [], [], [])

  /** The counters the program reports, and the first freshness gate that failed. */
  datatype Diagnostics = Diagnostics(
    received: nat, discarded: nat, consumed: nat, produced: nat, delivered: nat, phaseChecks: nat, staleReason: StaleReason)

  const NO_DIAGNOSTICS: Diagnostics := Diagnostics(0, 0, 0, 0, 0, 0, NotStale)

  datatype Worker = Worker(
    epoch: SessionToken, state: WorkerState, fault: Fault, diagnostics: Diagnostics,
    acquisition: seq<real>, target: real, command: real,
    origin: Option<Nanoseconds>, lastNow: Option<Nanoseconds>, lastProgress: Option<Nanoseconds>,
    latestCapture: Option<Nanoseconds>, originWire: u64, outputIndex: nat,
    model: Model, ledger: seq<Anchor>, input: seq<Queued>, output: seq<Queued>, history: History)

  function NewWorker(epoch: SessionToken): Worker {
    Worker(epoch, Priming, NoFault, NO_DIAGNOSTICS, [], 0.0, 0.0, None, None, None, None, 0, 0,
           BLANK, [], [], [], NOTHING)
  }

  // ---- frames ----------------------------------------------------------------------------

  /** Interleaved samples as stereo frames. */
  function Frames(samples: seq<Sample>): (s: seq<Frame>)
    ensures |s| == |samples| / 2
  {
    seq(|samples| / 2, i requires 0 <= i < |samples| / 2 => Frame(samples[2 * i], samples[2 * i + 1]))
  }

  function Stamp(frames: seq<Frame>, now: Nanoseconds): (s: seq<Queued>)
    ensures |s| == |frames|
  {
    seq(|frames|, i requires 0 <= i < |frames| => Queued(frames[i], now))
  }

  function Unstamp(queue: seq<Queued>): (s: seq<Frame>)
    ensures |s| == |queue|
  {
    seq(|queue|, i requires 0 <= i < |queue| => queue[i].frame)
  }

  predicate PcmValid(samples: seq<Sample>) {
    && samples != [] && |samples| % 2 == 0 && |samples| <= 2 * MAXIMUM_PAYLOAD_FRAMES
    && forall i :: 0 <= i < |samples| ==> samples[i].Finite?
  }

  // ---- the shared gates ------------------------------------------------------------------

  /** Latch the first fault and drop everything private. */
  ghost function Fail(w: Worker, reason: Fault): Worker {
    if w.state == Faulted then w
    else w.(state := Faulted, fault := reason, input := [], output := [], ledger := [], model := BLANK)
  }

  ghost function FailStale(w: Worker, reason: StaleReason): Worker {
    Fail(w.(diagnostics := w.diagnostics.(staleReason := reason)), Stale)
  }

  predicate AgeWithin(now: Nanoseconds, then_: Nanoseconds, low: int, high: int) {
    var age := CheckedSub(now, then_);
    age.Some? && low <= age.value <= high
  }

  /** The first freshness gate that fails, tested in the program's order. */
  ghost function StaleGate(w: Worker, now: Nanoseconds): StaleReason {
    if w.lastProgress.Some? && !AgeWithin(now, w.lastProgress.value, I64_MIN, QUEUE_LIFETIME_NS) then NoProgress
    else if w.latestCapture.Some?
         && !AgeWithin(now, w.latestCapture.value, -MAXIMUM_ANCHOR_FUTURE_NS, MAXIMUM_ANCHOR_AGE_NS) then AnchorAge
    else if w.input != [] && !HeadFresh(w.input[0].arrival, now) then InputQueue
    else if w.output != [] && !HeadFresh(w.output[0].arrival, now) then OutputQueue
    else NotStale
  }

  predicate HeadFresh(arrival: Nanoseconds, now: Nanoseconds) {
    AgeWithin(now, arrival, 0, QUEUE_LIFETIME_NS)
  }

  ghost function CheckHealth(w: Worker, now: Nanoseconds, healthy: bool): (r: (bool, Worker)) {
    if w.state == Faulted then (false, w)
    else if !healthy || now < 0 || (w.lastNow.Some? && now < w.lastNow.value) then (false, Fail(w, Health))
    else
      var v := w.(lastNow := Some(now));
      var gate := StaleGate(v, now);
      if gate != NotStale then (false, FailStale(v, gate)) else (true, v)
  }

  // ---- starting a segment ----------------------------------------------------------------

  /** The part of a worker the step functions need in order to be well defined. */
  ghost predicate Sound(w: Worker) {
    && ValidModel(w.model) && Ordered(w.ledger) && PpmValid(w.target) && PpmValid(w.command)
    && |w.acquisition| <= 3 && (forall i :: 0 <= i < |w.acquisition| ==> PpmValid(w.acquisition[i]))
    && (w.state == Running ==> w.origin.Some?)
    && (w.state == Priming ==> |w.acquisition| < 3)
  }

  function WireGap(record: AudioRecord, anchor: ExactWirePosition): real
    requires anchor.denominator > 0
  {
    (record.packetWireStart - anchor.whole) as real - anchor.remainder as real / anchor.denominator as real
  }

  /** Nominal media time between anchor and packet, at the acquired rate. */
  function Extrapolation(gap: real, target: real): int
    requires PpmValid(target)
  {
    (gap * 1000000000.0 / (48000.0 * (1.0 + target / 1000000.0))).Floor
  }

  /** How long after its anchor a packet starts the segment; None if it is too far from it. */
  function StartOffset(record: AudioRecord, target: real): (r: Option<Nanoseconds>)
    requires PpmValid(target)
  {
    var anchor := NominalWirePosition(record.devicePosition, record.deviceOrigin, 0, record.sourceRate);
    if anchor.None? || anchor.value.denominator == 0 || anchor.value.whole > record.packetWireStart then None
    else
      var gap := WireGap(record, anchor.value);
      if gap < 0.0 || gap > 2400.0 then None
      else
        var ns := Extrapolation(gap, target);
        if ns < 0 || ns > 100_000_000 then None else Some(ns)
  }

  /** The origin is set and the resampler reset: the model starts at the packet's own wire frame. */
  ghost function Begin(w: Worker, wireStart: u64): (r: (bool, Worker))
    requires PpmValid(w.target)
  {
    var (ok, model) := ResetModel(w.model, wireStart, w.target);
    var u := w.(originWire := wireStart, command := w.target, lastProgress := w.lastNow);
    if !ok then (false, u)
    else (true, u.(model := model, state := Running, history := w.history.(origin := w.origin)))
  }

  ghost function Start(w: Worker, record: AudioRecord, backendReset: bool): (r: (bool, Worker))
    requires PpmValid(w.target)
  {
    var offset := StartOffset(record, w.target);
    if offset.None? then (false, w)
    else
      var v := w.(origin := CheckedAdd(record.capture, offset.value));
      if v.origin.None? || !backendReset then (false, v) else Begin(v, record.packetWireStart)
  }

  // ---- push ------------------------------------------------------------------------------

  function Median(a: real, b: real, c: real): real {
    if a <= b then (if b <= c then b else if a <= c then c else a)
    else (if a <= c then a else if b <= c then c else b)
  }

  function Received(w: Worker, count: nat): Worker {
    w.(diagnostics := w.diagnostics.(received := w.diagnostics.received + count))
  }

  function Discarded(w: Worker, count: nat): Worker {
    w.(diagnostics := w.diagnostics.(discarded := w.diagnostics.discarded + count))
  }

  /** A new rate measurement: out of range is a fault, otherwise it becomes the target. */
  ghost function TakeEstimate(w: Worker, verdict: Verdict): (r: (bool, Worker))
    requires Sound(w)
  {
    match verdict.estimate
    case None => (true, w)
    case Some(e) =>
      if !e.withinLimit || !PpmValid(e.ppm) then (false, Fail(w, Rate))
      else (true, w.(target := e.ppm, acquisition := if w.state == Priming then w.acquisition + [e.ppm] else w.acquisition))
  }

  /** Once three windows are in, their median starts the segment. */
  ghost function Acquire(w: Worker, record: AudioRecord, backendReset: bool): (r: (bool, Worker))
    requires PpmValid(w.target) && (forall i :: 0 <= i < |w.acquisition| ==> PpmValid(w.acquisition[i]))
  {
    if w.state == Priming && |w.acquisition| == 3 then
      var (ok, v) := Start(w.(target := Median(w.acquisition[0], w.acquisition[1], w.acquisition[2])), record, backendReset);
      if ok then (true, v) else (false, Fail(v, Timeline))
    else (true, w)
  }

  function RecordPosition(record: AudioRecord): Option<Position> {
    match NominalWirePosition(record.devicePosition, record.deviceOrigin, 0, record.sourceRate)
    case None => None
    case Some(p) => if p.denominator == 0 then None
                    else Some(Position(p.whole, p.remainder as real / p.denominator as real))
  }

  /** A packet that repeats its anchor adds nothing, unless the ledger is still empty. */
  ghost function TakeAnchor(w: Worker, record: AudioRecord, verdict: Verdict): (r: (bool, Worker))
    requires Sound(w)
  {
    if w.ledger != [] && verdict.repeated then (true, w)
    else
      var position := RecordPosition(record);
      if position.None? then (false, Fail(w, PhaseFault))
      else
        var (status, ledger) := Added(w.ledger, position.value, record.capture, w.model.next);
        if status != Ready then (false, Fail(w, PhaseFault))
        else (true, w.(ledger := ledger,
                       history := w.history.(anchors := w.history.anchors + [Anchor(position.value, record.capture)])))
  }

  ghost function Enqueue(w: Worker, frames: seq<Frame>, now: Nanoseconds): (r: (PushResult, Worker)) {
    if |frames| > INPUT_CAPACITY - |w.input| then (Rejected, Fail(w, Overflow))
    else (Accepted, w.(input := w.input + Stamp(frames, now), history := w.history.(offered := w.history.offered + frames)))
  }

  /** An accepted packet: measure, acquire, then discard while priming or queue while running. */
  ghost function PushAccepted(w: Worker, record: AudioRecord, frames: seq<Frame>, now: Nanoseconds,
                              verdict: Verdict, backendReset: bool): (r: (PushResult, Worker))
    requires Sound(w)
  {
    var (rated, e) := TakeEstimate(Received(w, |frames|), verdict);
    if !rated then (Rejected, e)
    else
      EstimateKeepsSound(Received(w, |frames|), verdict);
      var (acquired, a) := Acquire(e, record, backendReset);
      AcquireSound(e, record, backendReset);
      if !acquired then (Rejected, a) else TakeFrames(a, record, frames, now, verdict)
  }

  /** Priming discards the frames; running takes in the anchor, then queues them. */
  ghost function TakeFrames(a: Worker, record: AudioRecord, frames: seq<Frame>, now: Nanoseconds, verdict: Verdict)
    : (r: (PushResult, Worker))
    requires Sound(a)
  {
    if a.state == Priming then (PrimingDiscard, Discarded(a, |frames|))
    else
      var (anchored, l) := TakeAnchor(a, record, verdict);
      if !anchored then (Rejected, l) else Enqueue(l, frames, now)
  }

  /** Sound, except that a third acquisition window may just have come in. */
  ghost predicate NearlySound(w: Worker) {
    && ValidModel(w.model) && Ordered(w.ledger) && PpmValid(w.target) && PpmValid(w.command)
    && |w.acquisition| <= 3 && (forall i :: 0 <= i < |w.acquisition| ==> PpmValid(w.acquisition[i]))
    && (w.state == Running ==> w.origin.Some?)
  }

  lemma EstimateKeepsSound(w: Worker, verdict: Verdict)
    requires Sound(w)
    ensures TakeEstimate(w, verdict).0 ==> NearlySound(TakeEstimate(w, verdict).1)
  {
  }

  lemma AcquireSound(w: Worker, record: AudioRecord, backendReset: bool)
    requires NearlySound(w)
    ensures Sound(Acquire(w, record, backendReset).1)
  {
    if w.state == Priming && |w.acquisition| == 3 {
      var m := w.(target := Median(w.acquisition[0], w.acquisition[1], w.acquisition[2]));
      var (ok, v) := Start(m, record, backendReset);
      if ok {
        TargetInRange(m.target);
      }
    }
  }

  ghost function Push(w: Worker, record: AudioRecord, ssrc: u32, stereo: seq<Sample>, now: Nanoseconds, healthy: bool,
                      verdict: Verdict, backendReset: bool): (r: (PushResult, Worker))
    requires Sound(w)
  {
    if record.epoch != w.epoch then (WrongEpoch, w)
    else
      var (well, h) := CheckHealth(w, now, healthy);
      if !well then (Rejected, h)
      else if !PcmValid(stereo) then (Rejected, Fail(h, Pcm))
      else
        var v := if verdict.accepted then h.(latestCapture := Some(record.capture)) else h;
        if !verdict.accepted || ssrc == 0 then (Rejected, Fail(v, Metadata))
        else PushAccepted(v, record, Frames(stereo), now, verdict, backendReset)
  }

  // ---- dispatch --------------------------------------------------------------------------

  function Clamp(x: real, low: real, high: real): real {
    if x < low then low else if x > high then high else x
  }

  function NextCommand(w: Worker): real {
    w.command + Clamp(w.target - w.command, -COMMAND_STEP_PPM, COMMAND_STEP_PPM)
  }

  predicate ReplyUsable(reply: Reply) {
    reply.progress && |reply.frames| == QUANTUM && reply.used <= INPUT_OFFER
  }

  datatype Outcome = Waits | Fails | Progresses

  /** What the program finds before it commits a quantum: wait, fail for a reason, or go on. */
  ghost function QuantumGate(w: Worker, reply: Reply): (r: (Outcome, Fault))
    requires Sound(w) && w.origin.Some?
  {
    var next := NextCommand(w);
    if Advance(w.model, next).None? then (Fails, PhaseFault)
    else
      var status := Assess(w.ledger, Positions(w.model, next), w.origin.value, w.diagnostics.produced).status;
      if status == Waiting then (Waits, NoFault)
      else if status != Ready then (Fails, PhaseFault)
      else if !ReplyUsable(reply) then (Fails, Backend)
      else if w.diagnostics.produced > U64_MAX - QUANTUM || Grid48(w.origin.value, w.diagnostics.produced + QUANTUM).None?
      then (Fails, Timeline)
      else (Progresses, NoFault)
  }

  /** One guarded quantum: nothing is committed unless model, ledger, resampler and grid all agree. */
  ghost function Quantum(w: Worker, reply: Reply, now: Nanoseconds): (r: (Outcome, Worker))
    requires Sound(w) && w.origin.Some? && |w.input| >= INPUT_OFFER
  {
    var (outcome, reason) := QuantumGate(w, reply);
    match outcome
    case Waits => (Waits, w)
    case Fails => (Fails, Fail(w, reason))
    case Progresses =>
      var next := NextCommand(w);
      (Progresses, Commit(w, next, Advance(w.model, next).value, Positions(w.model, next), reply, now))
  }

  function CountQuantum(d: Diagnostics, used: nat): Diagnostics {
    d.(phaseChecks := d.phaseChecks + QUANTUM, consumed := d.consumed + used, produced := d.produced + QUANTUM)
  }

  ghost function Commit(w: Worker, next: real, model: Model, positions: seq<Position>, reply: Reply, now: Nanoseconds): Worker
    requires reply.used <= |w.input|
  {
    w.(command := next, model := model, diagnostics := CountQuantum(w.diagnostics, reply.used),
       input := w.input[reply.used..], output := w.output + Stamp(reply.frames, now),
       lastProgress := Some(now),
       history := w.history.(positions := w.history.positions + positions, generated := w.history.generated + reply.frames))
  }

  predicate RoomForQuantum(inputSize: nat, outputSize: nat) {
    inputSize >= INPUT_OFFER && OUTPUT_CAPACITY - outputSize >= QUANTUM
  }

  function ReplyTo(replies: seq<Reply>, call: nat): Reply {
    if call < |replies| then replies[call] else Reply(false, 0, [])
  }

  /** At most eight quanta, stopping early for lack of input, output room or a bracketing anchor. */
  ghost function Quanta(w: Worker, call: nat, replies: seq<Reply>, now: Nanoseconds): (r: (Outcome, Worker))
    requires Sound(w) && w.origin.Some? && call <= MAX_CALLS
    decreases MAX_CALLS - call
  {
    if call == MAX_CALLS || !RoomForQuantum(|w.input|, |w.output|) then (Waits, w)
    else
      var (outcome, v) := Quantum(w, ReplyTo(replies, call), now);
      if outcome != Progresses then (outcome, v)
      else
        QuantumSound(w, ReplyTo(replies, call), now);
        Quanta(v, call + 1, replies, now)
  }

  lemma NextCommandValid(w: Worker)
    requires PpmValid(w.target) && PpmValid(w.command)
    ensures PpmValid(NextCommand(w)) && Abs(NextCommand(w) - w.command) <= COMMAND_STEP_PPM
    ensures w.command <= w.target ==> w.command <= NextCommand(w) <= w.target
    ensures w.target <= w.command ==> w.target <= NextCommand(w) <= w.command
  {
  }

  lemma QuantumSound(w: Worker, reply: Reply, now: Nanoseconds)
    requires Sound(w) && w.origin.Some? && |w.input| >= INPUT_OFFER
    requires Quantum(w, reply, now).0 == Progresses
    ensures Sound(Quantum(w, reply, now).1) && Quantum(w, reply, now).1.origin == w.origin
  {
    NextCommandValid(w);
    AdvanceKeepsValid(w.model, NextCommand(w));
  }

  ghost function Dispatch(w: Worker, now: Nanoseconds, healthy: bool, replies: seq<Reply>): (r: (nat, Worker))
    requires Sound(w)
  {
    var (well, h) := CheckHealth(w, now, healthy);
    if !well || h.state != Running then (0, h)
    else
      var (outcome, v) := Quanta(h, 0, replies, now);
      (if outcome == Fails || v.diagnostics.produced < h.diagnostics.produced then 0
       else v.diagnostics.produced - h.diagnostics.produced, v)
  }

  // ---- pull and reset --------------------------------------------------------------------

  function Min(a: nat, b: nat): nat {
    if a < b then a else b
  }

  function CountDelivery(d: Diagnostics, count: nat): Diagnostics {
    d.(delivered := d.delivered + count)
  }

  datatype Pulled = Pulled(block: Option<CorrectedAudio>, frames: seq<Frame>)

  /** A block leaves the queue and enters the delivered history. */
  ghost function Delivered(h: Worker, block: CorrectedAudio): Worker
    requires block.frames <= |h.output|
  {
    h.(outputIndex := h.outputIndex + block.frames, diagnostics := CountDelivery(h.diagnostics, block.frames),
       output := h.output[block.frames..],
       history := h.history.(delivered := h.history.delivered + Unstamp(h.output[..block.frames]),
                             blocks := h.history.blocks + [block]))
  }

  /** Hand out up to half the reader's samples from the front of the queue, stamped on the grid. */
  ghost function Deliver(h: Worker, samples: nat): (r: (Pulled, Worker)) {
    if samples == 0 || samples % 2 != 0 || samples > OUTPUT_CAPACITY * 2 then (Pulled(None, []), Fail(h, Pcm))
    else if h.output == [] || h.origin.None? then (Pulled(None, []), h)
    else
      var stamp := Grid48(h.origin.value, h.outputIndex);
      if stamp.None? then (Pulled(None, []), Fail(h, Timeline))
      else
        var count := Min(|h.output|, samples / 2);
        var block := CorrectedAudio(h.epoch, h.outputIndex, stamp.value, count);
        (Pulled(Some(block), Unstamp(h.output[..count])), Delivered(h, block))
  }

  ghost function Pull(w: Worker, samples: nat, now: Nanoseconds, healthy: bool): (r: (Pulled, Worker)) {
    var (well, h) := CheckHealth(w, now, healthy);
    if !well || h.state != Running then (Pulled(None, []), h) else Deliver(h, samples)
  }

  ghost function Reset(w: Worker, next: SessionToken, backendReset: bool): (r: (bool, Worker)) {
    if !ValidSuccessor(w.epoch, next) then (false, w)
    else if !backendReset then (false, Fail(w, Backend))
    else (true, NewWorker(next))
  }
}
