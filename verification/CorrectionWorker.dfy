// The correction worker itself: two rings, a phase model, an anchor ledger and a fault latch,
// updated in place.  Each method is tied to the step of CorrectionSpec it performs.
module CorrectionWorker {
  import opened Timing
  import opened WirePosition
  import opened PhaseModel
  import opened PhaseLedger
  import opened Ring
  import opened CorrectionSpec
  import CorrectionRuns
  import D = CorrectionDecisions

  /** A worker that differs from another in exactly the fields a quantum writes is its commit. */
  lemma CommitFields(w: Worker, v: Worker, next: real, model: Model, ps: seq<Position>, reply: Reply, now: Nanoseconds)
    requires reply.used <= |w.input|
    requires v.epoch == w.epoch && v.state == w.state && v.fault == w.fault
    requires v.acquisition == w.acquisition && v.target == w.target && v.origin == w.origin && v.lastNow == w.lastNow
    requires v.latestCapture == w.latestCapture && v.originWire == w.originWire && v.outputIndex == w.outputIndex
    requires v.ledger == w.ledger && v.command == next && v.lastProgress == Some(now) && v.model == model
    requires v.diagnostics == CountQuantum(w.diagnostics, reply.used)
    requires v.history == w.history.(positions := w.history.positions + ps, generated := w.history.generated + reply.frames)
    requires v.input == w.input[reply.used..] && v.output == w.output + Stamp(reply.frames, now)
    ensures v == Commit(w, next, model, ps, reply, now)
  {
  }

  class AudioCorrectionWorker {
    const model: SincPhaseModel
    const ledger: AudioPhaseLedger
    const positions: array<Position>
    const input: Ring<Queued>
    const output: Ring<Queued>
    var acquisition: seq<real>
    var epoch: SessionToken
    var state: WorkerState
    var fault: Fault
    var diagnostics: Diagnostics
    var target: real
    var command: real
    var origin: Option<Nanoseconds>
    var lastNow: Option<Nanoseconds>
    var lastProgress: Option<Nanoseconds>
    var latestCapture: Option<Nanoseconds>
    var originWire: u64
    var outputIndex: nat
    ghost var history: History

    /** Every object the worker owns; all of them are fixed at construction. */
    ghost function Repr(): set<object> {
      {this, model, positions, input, input.slots, output, output.slots, ledger.anchors, ledger.anchors.slots}
    }

    ghost predicate Shaped()
      reads Repr()
    {
      && input != output && input.slots != output.slots
      && input.Valid() && input.slots.Length == INPUT_CAPACITY
      && output.Valid() && output.slots.Length == OUTPUT_CAPACITY
      && ledger.Valid() && positions.Length == QUANTUM
    }

    ghost function Abs(): Worker
      requires Shaped()
      reads Repr()
    {
      Worker(epoch, state, fault, diagnostics, acquisition, target, command, origin, lastNow, lastProgress, latestCapture,
             originWire, outputIndex, model.State(), ledger.Anchors(), input.Contents(), output.Contents(), history)
    }

    ghost predicate Valid()
      reads Repr()
    {
      Shaped() && CorrectionRuns.Inv(Abs())
    }

    constructor (epoch: SessionToken)
      requires epoch.Valid()
      ensures Shaped() && Abs() == NewWorker(epoch)
      ensures fresh(Repr())
    {
      model := new SincPhaseModel();
      ledger := new AudioPhaseLedger();
      positions := new Position[QUANTUM];
      input := new Ring(INPUT_CAPACITY);
      output := new Ring(OUTPUT_CAPACITY);
      acquisition := [];
      this.epoch, state, fault, diagnostics := epoch, Priming, NoFault, NO_DIAGNOSTICS;
      target, command := 0.0, 0.0;
      origin, lastNow, lastProgress, latestCapture := None, None, None, None;
      originWire, outputIndex := 0, 0;
      history := NOTHING;
      new;
      hide Ordered;
    }

    /** Latch the first fault: no media, no history of the filter, no anchors survive it. */
    method FailWith(reason: Fault)
      requires Shaped()
      modifies Repr()
      ensures Shaped() && Abs() == Fail(old(Abs()), reason)
    {
      if state == Faulted {
        return;
      }
      state, fault := Faulted, reason;
      DropPrivate();
    }

    method DropPrivate()
      requires Shaped()
      modifies input, output, ledger.anchors, model
      ensures Shaped() && input.Contents() == [] && output.Contents() == [] && ledger.Anchors() == []
      ensures model.State() == BLANK
    {
      hide Ordered, Ring.Contents;
      input.Clear();
      output.Clear();
      ledger.Clear();
      model.Assign(BLANK);
    }

    method FailStaleWith(reason: StaleReason)
      requires Shaped()
      modifies Repr()
      ensures Shaped() && Abs() == FailStale(old(Abs()), reason)
    {
      hide Ordered, Ring.Contents;
      diagnostics := diagnostics.(staleReason := reason);
      FailWith(Stale);
    }

    method CheckNow(now: Nanoseconds, healthy: bool) returns (well: bool)
      requires Shaped()
      modifies Repr()
      ensures Shaped() && (well, Abs()) == CheckHealth(old(Abs()), now, healthy)
    {
      hide Ordered, StaleGate, Ring.Contents;
      if state == Faulted {
        return false;
      }
      if !healthy || now < 0 || (lastNow.Some? && now < lastNow.value) {
        FailWith(Health);
        return false;
      }
      lastNow := Some(now);
      var gate := FindStaleGate(now);
      if gate != NotStale {
        FailStaleWith(gate);
        return false;
      }
      return true;
    }

    /** Progress, anchor age, then the head of each queue. */
    method FindStaleGate(now: Nanoseconds) returns (gate: StaleReason)
      requires Shaped()
      ensures gate == StaleGate(Abs(), now)
    {
      hide Ordered, Ring.Contents;
      if lastProgress.Some? {
        var age := CheckedSub(now, lastProgress.value);
        if age.None? || age.value > QUEUE_LIFETIME_NS {
          return NoProgress;
        }
      }
      if latestCapture.Some? {
        var age := CheckedSub(now, latestCapture.value);
        if age.None? || age.value > MAXIMUM_ANCHOR_AGE_NS || age.value < -MAXIMUM_ANCHOR_FUTURE_NS {
          return AnchorAge;
        }
      }
      var inputFresh := QueueFresh(input, now);
      if !inputFresh {
        return InputQueue;
      }
      var outputFresh := QueueFresh(output, now);
      return if outputFresh then NotStale else OutputQueue;
    }

    static method QueueFresh(queue: Ring<Queued>, now: Nanoseconds) returns (fresh_: bool)
      requires queue.Valid()
      ensures fresh_ <==> queue.Contents() == [] || HeadFresh(queue.Contents()[0].arrival, now)
    {
      if queue.size == 0 {
        return true;
      }
      var head := queue.Get(0);
      var age := CheckedSub(now, head.arrival);
      return age.Some? && age.value >= 0 && age.value <= QUEUE_LIFETIME_NS;
    }

    method StartSegment(record: AudioRecord, backendReset: bool) returns (ok: bool)
      requires Shaped() && PpmValid(target)
      modifies Repr()
      ensures Shaped() && (ok, Abs()) == Start(old(Abs()), record, backendReset)
      ensures ok ==> record.sourceRate > 0 && 0.0 <= D.Gap(record) <= 2400.0
      ensures ok ==> origin.Some? && D.Takes(D.Gap(record), old(target), origin.value - record.capture)
    {
      ghost var d := D.StartExact(Abs(), record, backendReset);
      hide Ordered, StartOffset, Ring.Contents, CheckedAdd, PpmValid, Begin, D.Gap, D.Takes;
      var offset := StartOffset(record, target);
      if offset.None? {
        return false;
      }
      origin := CheckedAdd(record.capture, offset.value);
      if origin.None? || !backendReset {
        return false;
      }
      ok := EnterRunning(record.packetWireStart);
    }

    method EnterRunning(wireStart: u64) returns (ok: bool)
      requires Shaped() && PpmValid(target)
      modifies this`originWire, this`command, this`lastProgress, this`state, this`history, model
      ensures Shaped() && (ok, Abs()) == Begin(old(Abs()), wireStart)
    {
      hide Ordered, Ring.Contents, PpmValid;
      ok := ResetClockwork(wireStart);
    }

    method ResetClockwork(wireStart: u64) returns (ok: bool)
      requires PpmValid(target)
      modifies this`originWire, this`command, this`lastProgress, this`state, this`history, model
      ensures originWire == wireStart && command == target && lastProgress == lastNow
      ensures (ok, model.State()) == ResetModel(old(model.State()), wireStart, target)
      ensures state == (if ok then Running else old(state))
      ensures history == if ok then old(history).(origin := origin) else old(history)
    {
      originWire, command, lastProgress := wireStart, target, lastNow;
      ok := model.Reset(originWire, target);
      if ok {
        state := Running;
        history := history.(origin := origin);
      }
    }

    method TakeRate(verdict: Verdict) returns (ok: bool)
      requires Shaped() && Sound(Abs())
      modifies Repr()
      ensures Shaped() && (ok, Abs()) == TakeEstimate(old(Abs()), verdict)
      ensures ok ==> state == old(state)
    {
      hide Ordered, Ring.Contents;
      if verdict.estimate.None? {
        return true;
      }
      var estimate := verdict.estimate.value;
      if !estimate.withinLimit || !PpmValid(estimate.ppm) {
        FailWith(Rate);
        return false;
      }
      target := estimate.ppm;
      if state == Priming {
        acquisition := acquisition + [estimate.ppm];
      }
      return true;
    }

    method AcquireSegment(record: AudioRecord, backendReset: bool) returns (ok: bool)
      requires Shaped() && NearlySound(Abs())
      modifies Repr()
      ensures Shaped() && (ok, Abs()) == Acquire(old(Abs()), record, backendReset)
      ensures ok && old(state) != Faulted ==> state != Faulted
    {
      hide Ordered, Ring.Contents;
      if state == Priming && |acquisition| == 3 {
        target := Median(acquisition[0], acquisition[1], acquisition[2]);
        var started := StartSegment(record, backendReset);
        if !started {
          FailWith(Timeline);
          return false;
        }
      }
      return true;
    }

    method TakeAnchorFrom(record: AudioRecord, verdict: Verdict) returns (ok: bool)
      requires Shaped() && Sound(Abs()) && state == Running
      modifies Repr()
      ensures Shaped() && (ok, Abs()) == TakeAnchor(old(Abs()), record, verdict)
    {
      hide Added, Ordered, RecordPosition, Ring.Contents;
      if ledger.anchors.size > 0 && verdict.repeated {
        return true;
      }
      var position := RecordPosition(record);
      if position.None? {
        FailWith(PhaseFault);
        return false;
      }
      var status := ledger.Add(position.value, record.capture, model.next);
      if status != Ready {
        FailWith(PhaseFault);
        return false;
      }
      history := history.(anchors := history.anchors + [Anchor(position.value, record.capture)]);
      return true;
    }

    /** The copy-in loop of both rings: every frame goes in behind the queue with the same arrival. */
    static method AppendStamped(queue: Ring<Queued>, frames: seq<Frame>, now: Nanoseconds)
      requires queue.Valid() && |frames| <= queue.slots.Length - queue.size
      modifies queue, queue.slots
      ensures queue.Valid() && queue.Contents() == old(queue.Contents()) + Stamp(frames, now)
    {
      ghost var before, stamped := queue.Contents(), Stamp(frames, now);
      for i := 0 to |frames|
        invariant queue.Valid() && queue.size == |before| + i
        invariant queue.Contents() == before + stamped[..i]
      {
        queue.PushBack(Queued(frames[i], now));
        assert stamped[..i + 1] == stamped[..i] + [stamped[i]];
      }
      assert stamped[..|frames|] == stamped;
    }

    method EnqueueFrames(frames: seq<Frame>, now: Nanoseconds) returns (result: PushResult)
      requires Shaped()
      modifies Repr()
      ensures Shaped() && (result, Abs()) == Enqueue(old(Abs()), frames, now)
    {
      hide Ordered, Ring.Contents;
      if |frames| > INPUT_CAPACITY - input.size {
        FailWith(Overflow);
        return Rejected;
      }
      AppendStamped(input, frames, now);
      history := history.(offered := history.offered + frames);
      return Accepted;
    }

    /** Push as the program orders it: identity, health, PCM, validator, rate, acquisition, anchor, room. */
    method PushPacket(record: AudioRecord, ssrc: u32, stereo: seq<Sample>, now: Nanoseconds, healthy: bool,
                      verdict: Verdict, backendReset: bool) returns (result: PushResult)
      requires Valid()
      modifies Repr()
      ensures Valid() && (result, Abs()) == Push(old(Abs()), record, ssrc, stereo, now, healthy, verdict, backendReset)
    {
      hide PushAccepted, Ordered, CorrectionRuns.HistoryInv, CorrectionRuns.RunningInv, CorrectionRuns.PrimingInv, Ring.Contents;
      CorrectionRuns.PushKeeps(Abs(), record, ssrc, stereo, now, healthy, verdict, backendReset);
      if record.epoch != epoch {
        return WrongEpoch;
      }
      var well := CheckNow(now, healthy);
      if !well {
        return Rejected;
      }
      if !PcmValid(stereo) {
        FailWith(Pcm);
        return Rejected;
      }
      if verdict.accepted {
        latestCapture := Some(record.capture);
      }
      if !verdict.accepted || ssrc == 0 {
        FailWith(Metadata);
        return Rejected;
      }
      result := TakePacket(record, Frames(stereo), now, verdict, backendReset);
    }

    method TakePacket(record: AudioRecord, frames: seq<Frame>, now: Nanoseconds, verdict: Verdict, backendReset: bool)
      returns (result: PushResult)
      requires Shaped() && Sound(Abs()) && state != Faulted
      modifies Repr()
      ensures Shaped()
      ensures (result, Abs()) == PushAccepted(old(Abs()), record, frames, now, verdict, backendReset)
    {
      hide TakeEstimate, Acquire, TakeFrames, Ordered, ValidModel, Ring.Contents;
      diagnostics := diagnostics.(received := diagnostics.received + |frames|);
      ghost var w := Abs();
      EstimateKeepsSound(w, verdict);
      var rated := TakeRate(verdict);
      if !rated {
        return Rejected;
      }
      AcquireSound(Abs(), record, backendReset);
      var acquired := AcquireSegment(record, backendReset);
      if !acquired {
        return Rejected;
      }
      result := TakeFramesFrom(record, frames, now, verdict);
    }

    method TakeFramesFrom(record: AudioRecord, frames: seq<Frame>, now: Nanoseconds, verdict: Verdict) returns (result: PushResult)
      requires Shaped() && Sound(Abs()) && state != Faulted
      modifies Repr()
      ensures Shaped() && (result, Abs()) == TakeFrames(old(Abs()), record, frames, now, verdict)
    {
      hide TakeAnchor, Enqueue, Ordered, Ring.Contents;
      if state == Priming {
        diagnostics := diagnostics.(discarded := diagnostics.discarded + |frames|);
        return PrimingDiscard;
      }
      var anchored := TakeAnchorFrom(record, verdict);
      if !anchored {
        return Rejected;
      }
      result := EnqueueFrames(frames, now);
    }

    /**
     * The tests before a quantum is committed: the prediction is made on a copy of the model and
     * assessed against the ledger; the reply is the resampler's answer to the offered frames.
     */
    method TestQuantum(next: real, prediction: SincPhaseModel, reply: Reply) returns (outcome: Outcome, reason: Fault)
      requires Shaped() && Sound(Abs()) && origin.Some? && diagnostics.produced <= U64_MAX - QUANTUM
      requires next == NextCommand(Abs()) && prediction !in Repr() && prediction.State() == model.State()
      modifies prediction, positions
      ensures (outcome, reason) == QuantumGate(Abs(), reply)
      ensures outcome == Progresses ==> ReplyUsable(reply)
      ensures outcome == Progresses ==> prediction.State() == Advance(model.State(), next).value
                                        && positions[..] == Positions(model.State(), next)
    {
      hide Ordered, Advance, Positions, Assess, Ring.Contents;
      var advanced := prediction.AdvanceInto(next, positions);
      if !advanced {
        return Fails, PhaseFault;
      }
      var phase := ledger.AssessQuantum(positions, origin.value, diagnostics.produced);
      if phase.status == Waiting {
        return Waits, NoFault;
      }
      if phase.status != Ready {
        return Fails, PhaseFault;
      }
      if !ReplyUsable(reply) {
        return Fails, Backend;
      }
      var grid := new RationalTimeline(origin.value, WIRE_RATE, 1);
      var ahead := grid.At(diagnostics.produced + QUANTUM);
      if diagnostics.produced > U64_MAX - QUANTUM || ahead.None? {
        return Fails, Timeline;
      }
      return Progresses, NoFault;
    }

    /** One guarded quantum. */
    method RunQuantum(reply: Reply, now: Nanoseconds) returns (outcome: Outcome)
      requires Shaped() && Sound(Abs()) && origin.Some? && diagnostics.produced <= U64_MAX - QUANTUM
      requires RoomForQuantum(input.size, output.size)
      modifies Repr()
      ensures Shaped() && (outcome, Abs()) == Quantum(old(Abs()), reply, now)
    {
      hide Ordered, Advance, Positions, QuantumGate, Ring.Contents, Commit, Stamp, CountQuantum;
      var next := command + Clamp(target - command, -COMMAND_STEP_PPM, COMMAND_STEP_PPM);
      var prediction := new SincPhaseModel();
      prediction.Assign(model.State());
      var reason;
      outcome, reason := TestQuantum(next, prediction, reply);
      if outcome == Fails {
        FailWith(reason);
      } else if outcome == Progresses {
        CommitQuantum(next, prediction.State(), positions[..], reply, now);
      }
    }

    method CommitQuantum(next: real, predicted: Model, ghost ps: seq<Position>, reply: Reply, now: Nanoseconds)
      requires Shaped() && reply.used <= input.size && |reply.frames| <= OUTPUT_CAPACITY - output.size && |reply.frames| == QUANTUM
      modifies Repr()
      ensures Shaped() && Abs() == Commit(old(Abs()), next, predicted, ps, reply, now)
    {
      hide Ordered, Ring.Contents, Commit, Stamp, CountQuantum;
      ghost var w := Abs();
      RecordQuantum(next, ps, reply, now);
      model.Assign(predicted);
      MoveQueues(reply, now);
      CommitFields(w, Abs(), next, predicted, ps, reply, now);
    }

    method RecordQuantum(next: real, ghost ps: seq<Position>, reply: Reply, now: Nanoseconds)
      modifies this`command, this`lastProgress, this`diagnostics, this`history
      ensures command == next && lastProgress == Some(now)
      ensures diagnostics == CountQuantum(old(diagnostics), reply.used)
      ensures history == old(history).(positions := old(history).positions + ps,
                                       generated := old(history).generated + reply.frames)
    {
      command, lastProgress, diagnostics := next, Some(now), CountQuantum(diagnostics, reply.used);
      history := history.(positions := history.positions + ps, generated := history.generated + reply.frames);
    }

    /** What the resampler used leaves the input ring; what it generated enters the output ring. */
    method MoveQueues(reply: Reply, now: Nanoseconds)
      requires Shaped() && reply.used <= input.size && |reply.frames| <= OUTPUT_CAPACITY - output.size
      modifies input, output, output.slots
      ensures Shaped()
      ensures input.Contents() == old(input.Contents())[reply.used..]
      ensures output.Contents() == old(output.Contents()) + Stamp(reply.frames, now)
    {
      hide Ordered, Ring.Contents;
      input.DropFront(reply.used);
      AppendStamped(output, reply.frames, now);
    }

    /** Up to eight quanta; `replies` are the answers the resampler gives to the successive calls. */
    method RunQuanta(now: Nanoseconds, replies: seq<Reply>) returns (outcome: Outcome)
      requires Valid() && state == Running && lastNow == Some(now)
      modifies Repr()
      ensures Shaped() && (outcome == Fails <==> Quanta(old(Abs()), 0, replies, now).0 == Fails)
      ensures Abs() == Quanta(old(Abs()), 0, replies, now).1
    {
      hide Ordered, Quantum, CorrectionRuns.HistoryInv, CorrectionRuns.Brackets, CorrectionRuns.InOrder, Ring.Contents;
      ghost var h := Abs();
      var call := 0;
      while call < MAX_CALLS && input.size >= INPUT_OFFER && OUTPUT_CAPACITY - output.size >= QUANTUM
        invariant Valid() && state == Running && lastNow == Some(now) && call <= MAX_CALLS
        invariant Quanta(Abs(), call, replies, now) == Quanta(h, 0, replies, now)
        decreases MAX_CALLS - call
      {
        CorrectionRuns.QuantumKeeps(Abs(), ReplyTo(replies, call), now);
        outcome := RunQuantum(ReplyTo(replies, call), now);
        if outcome != Progresses {
          return;
        }
        call := call + 1;
      }
      outcome := Waits;
    }

    method DispatchQuanta(now: Nanoseconds, healthy: bool, replies: seq<Reply>) returns (made: nat)
      requires Valid()
      modifies Repr()
      ensures Valid() && (made, Abs()) == Dispatch(old(Abs()), now, healthy, replies)
    {
      hide Ordered, Quanta, CheckHealth, CorrectionRuns.Inv, Ring.Contents;
      CorrectionRuns.CheckHealthKeeps(Abs(), now, healthy);
      CorrectionRuns.DispatchKeeps(Abs(), now, healthy, replies);
      var well := CheckNow(now, healthy);
      if !well || state != Running {
        return 0;
      }
      var before := diagnostics.produced;
      var outcome := RunQuanta(now, replies);
      made := if outcome == Fails || diagnostics.produced < before then 0 else diagnostics.produced - before;
    }

    /** Interleave the front of the output queue into the reader's buffer. */
    method CopyOut(stereo: array<Sample>, count: nat)
      requires output.Valid() && count <= output.size && 2 * count <= stereo.Length
      requires stereo !in {output.slots as object}
      modifies stereo
      ensures Frames(stereo[..2 * count]) == Unstamp(output.Contents()[..count])
    {
      for i := 0 to count
        invariant forall k :: 0 <= k < i ==>
          stereo[2 * k] == output.Contents()[k].frame.left && stereo[2 * k + 1] == output.Contents()[k].frame.right
      {
        var queued := output.Get(i);
        stereo[2 * i] := queued.frame.left;
        stereo[2 * i + 1] := queued.frame.right;
      }
    }

    method PullInto(stereo: array<Sample>, now: Nanoseconds, healthy: bool) returns (block: Option<CorrectedAudio>)
      requires Valid() && stereo !in Repr()
      modifies Repr(), stereo
      ensures Valid() && (block, Abs()) == (Pull(old(Abs()), stereo.Length, now, healthy).0.block,
                                            Pull(old(Abs()), stereo.Length, now, healthy).1)
      ensures block.Some? ==>
                && 2 * block.value.frames <= stereo.Length
                && Frames(stereo[..2 * block.value.frames]) == Pull(old(Abs()), stereo.Length, now, healthy).0.frames
    {
      hide Ordered, Ring.Contents;
      CorrectionRuns.CheckHealthKeeps(Abs(), now, healthy);
      CorrectionRuns.PullKeeps(Abs(), stereo.Length, now, healthy);
      var well := CheckNow(now, healthy);
      if !well || state != Running {
        return None;
      }
      if stereo.Length == 0 || stereo.Length % 2 != 0 || stereo.Length > OUTPUT_CAPACITY * 2 {
        FailWith(Pcm);
        return None;
      }
      if output.size == 0 {
        return None;
      }
      block := TakeBlock(stereo);
    }

    method TakeBlock(stereo: array<Sample>) returns (block: Option<CorrectedAudio>)
      requires Shaped() && stereo !in Repr() && origin.Some? && output.size > 0 && outputIndex <= U64_MAX
      requires 0 < stereo.Length <= OUTPUT_CAPACITY * 2 && stereo.Length % 2 == 0
      modifies Repr(), stereo
      ensures Shaped() && (block, Abs()) == (Deliver(old(Abs()), stereo.Length).0.block, Deliver(old(Abs()), stereo.Length).1)
      ensures block.Some? ==>
                && 2 * block.value.frames <= stereo.Length
                && Frames(stereo[..2 * block.value.frames]) == Deliver(old(Abs()), stereo.Length).0.frames
    {
      hide Ordered, Frames, Unstamp, Ring.Contents, ValidModel, Grid48, Delivered;
      var stamp := NextStamp();
      if stamp.None? {
        FailWith(Timeline);
        return None;
      }
      var count := Min(output.size, stereo.Length / 2);
      block := Some(CorrectedAudio(epoch, outputIndex, stamp.value, count));
      Issue(stereo, block.value);
    }

    method Issue(stereo: array<Sample>, block: CorrectedAudio)
      requires Shaped() && stereo !in Repr() && block.frames <= output.size && 2 * block.frames <= stereo.Length
      modifies this`outputIndex, this`diagnostics, this`history, output, stereo
      ensures Shaped() && Abs() == Delivered(old(Abs()), block)
      ensures Frames(stereo[..2 * block.frames]) == Unstamp(old(output.Contents())[..block.frames])
    {
      hide Ordered, Frames, Unstamp, Ring.Contents, ValidModel;
      CopyOut(stereo, block.frames);
      HandOut(block);
    }

    method NextStamp() returns (stamp: Option<Nanoseconds>)
      requires origin.Some? && outputIndex <= U64_MAX
      ensures stamp == Grid48(origin.value, outputIndex)
    {
      var grid := new RationalTimeline(origin.value, WIRE_RATE, 1);
      stamp := grid.At(outputIndex);
    }

    /** The block leaves the queue and enters the delivered history. */
    method HandOut(block: CorrectedAudio)
      requires Shaped() && block.frames <= output.size
      modifies this`outputIndex, this`diagnostics, this`history, output
      ensures Shaped()
      ensures outputIndex == old(outputIndex) + block.frames && diagnostics == CountDelivery(old(diagnostics), block.frames)
      ensures output.Contents() == old(output.Contents())[block.frames..]
      ensures history == old(history).(
                delivered := old(history).delivered + Unstamp(old(output.Contents())[..block.frames]),
                blocks := old(history).blocks + [block])
    {
      hide Ordered, Unstamp, Ring.Contents;
      ghost var frames := Unstamp(output.Contents()[..block.frames]);
      outputIndex, diagnostics := outputIndex + block.frames, CountDelivery(diagnostics, block.frames);
      output.DropFront(block.frames);
      history := history.(delivered := history.delivered + frames, blocks := history.blocks + [block]);
    }

    /** An authorised successor starts over; nothing of the old generation is drained. */
    method ResetTo(next: SessionToken, backendReset: bool) returns (ok: bool)
      requires Valid()
      modifies Repr()
      ensures Valid() && (ok, Abs()) == Reset(old(Abs()), next, backendReset)
    {
      hide Ordered, CorrectionRuns.Inv, NewWorker, Ring.Contents;
      CorrectionRuns.ResetKeeps(Abs(), next, backendReset);
      if !ValidSuccessor(epoch, next) {
        return false;
      }
      if !backendReset {
        FailWith(Backend);
        return false;
      }
      Restart(next);
      return true;
    }

    method Restart(next: SessionToken)
      requires Shaped()
      modifies Repr()
      ensures Shaped() && Abs() == NewWorker(next)
    {
      hide Ordered;
      EnterPriming(next);
      ForgetClock();
      DropPrivate();
    }

    method EnterPriming(next: SessionToken)
      modifies this`epoch, this`state, this`fault, this`diagnostics, this`originWire, this`outputIndex
      ensures epoch == next && state == Priming && fault == NoFault && diagnostics == NO_DIAGNOSTICS
      ensures originWire == outputIndex == 0
    {
      epoch, state, fault, diagnostics := next, Priming, NoFault, NO_DIAGNOSTICS;
      originWire, outputIndex := 0, 0;
    }

    method ForgetClock()
      modifies this`acquisition, this`target, this`command, this`origin, this`lastNow, this`lastProgress,
               this`latestCapture, this`history
      ensures acquisition == [] && target == command == 0.0 && history == NOTHING
      ensures origin == lastNow == lastProgress == latestCapture == None
    {
      acquisition, target, command := [], 0.0, 0.0;
      origin, lastNow, lastProgress, latestCapture := None, None, None, None;
      history := NOTHING;
    }
  }
}
