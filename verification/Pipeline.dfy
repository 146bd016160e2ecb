// One generation end to end: the worker's pulls feed a fresh handoff on the owner's tick
// (src/audio/audio_diagnostic.cpp, src/audio/audio_handoff.cpp, src/audio/audio_correction.cpp).
module Pipeline {
  import opened Timing
  import opened PhaseModel
  import opened PhaseLedger
  import opened CorrectionSpec
  import opened CorrectionRuns
  import opened AudioHandoff

  /** The reader's buffer takes the whole output queue in one pull. */
  const PULL_SAMPLES: nat := OUTPUT_CAPACITY * 2

  datatype Line = Line(worker: Worker, handoff: Handoff)

  datatype Turn =
    | Arrive(record: AudioRecord, ssrc: u32, stereo: seq<Sample>, now: Nanoseconds, healthy: bool,
             verdict: Verdict, backendReset: bool)
    | Tick(now: Nanoseconds, healthy: bool, replies: seq<Reply>, writer: Writer)
    | Beat(now: Nanoseconds, writer: Writer, beat: WriteResult)
    | Withdraw

  ghost predicate LineInv(l: Line) {
    && Inv(l.worker) && HandoffInv(l.handoff) && l.worker.epoch.Valid()
    && |l.worker.output| % QUANTUM == 0
    && l.handoff.fed <= l.worker.history.delivered
    && (l.handoff.epoch.Some? ==> l.handoff.epoch == Some(l.worker.epoch) && l.handoff.origin == l.worker.history.origin)
    && (l.handoff.open ==> l.handoff.fed == l.worker.history.delivered
                           && (l.handoff.epoch.None? ==> l.worker.history.delivered == []))
  }

  /** A full pull of whole quanta is a block whose shape and place the handoff cannot refuse. */
  ghost predicate Acceptable(h: Handoff, block: CorrectedAudio, pcm: seq<Frame>) {
    WellFormed(h.accepted, block, |pcm|) && OnHandoffGrid(Adopt(h, block), block)
  }

  lemma PulledIsAcceptable(w: Worker, h: Handoff, now: Nanoseconds, healthy: bool)
    requires LineInv(Line(w, h)) && h.open
    requires Pull(w, PULL_SAMPLES, now, healthy).0.block.Some?
    ensures var (pulled, v) := Pull(w, PULL_SAMPLES, now, healthy);
            && Acceptable(h, pulled.block.value, pulled.frames)
            && v.output == [] && v.history.delivered == w.history.delivered + pulled.frames
            && pulled.block.value.epoch == w.epoch && v.epoch == w.epoch
            && v.history.origin == w.history.origin && w.history.origin.Some?
            && (h.epoch.None? ==> Some(pulled.block.value.captureGrid) == w.history.origin)
            && |pulled.frames| == pulled.block.value.frames
  {
    hide HistoryInv, HandoffInv, Brackets, Ordered;
    CheckHealthKeeps(w, now, healthy);
    var (well, c) := CheckHealth(w, now, healthy);
    assert c.output == w.output;
    var block := Pull(w, PULL_SAMPLES, now, healthy).0.block.value;
    assert block.frames == |w.output|;
    assert h.accepted == |h.fed| by {
      AcceptedCounts(h);
    }
    GridMonotone(c.origin.value, WIRE_RATE, 1, 0, c.outputIndex);
    QuantumGridExact(c.origin.value, 0);
    assert c.outputIndex + block.frames <= MAXIMUM_FRAMES;
  }

  lemma AcceptedCounts(h: Handoff)
    requires HandoffInv(h) && h.open
    ensures h.accepted == |h.fed|
  {
  }

  ghost function TickLine(l: Line, now: Nanoseconds, healthy: bool, replies: seq<Reply>, writer: Writer): Line
    requires Sound(l.worker)
  {
    var (_, d) := Dispatch(l.worker, now, healthy, replies);
    var (pulled, v) := Pull(d, PULL_SAMPLES, now, healthy);
    var w := v;
    if w.state == Faulted then Line(w, Revoke(l.handoff))
    else
      match pulled.block
      case None => Line(w, l.handoff)
      case Some(block) => Line(w, Consume(l.handoff, block, pulled.frames, now, writer).1)
  }

  ghost function Turned(l: Line, t: Turn): Line
    requires Sound(l.worker)
  {
    match t
    case Arrive(record, ssrc, stereo, now, healthy, verdict, backendReset) =>
      var w := Push(l.worker, record, ssrc, stereo, now, healthy, verdict, backendReset).1;
      Line(w, if w.state == Faulted then Revoke(l.handoff) else l.handoff)
    case Tick(now, healthy, replies, writer) => TickLine(l, now, healthy, replies, writer)
    case Beat(now, writer, beat) => l.(handoff := Heartbeat(l.handoff, now, writer, beat).1)
    case Withdraw => l.(handoff := Revoke(l.handoff))
  }

  // ---- what the worker's other steps leave alone -------------------------------------------

  /** What one step may not take back: identity, grid, deliveries, and the order of what was generated. */
  ghost predicate Continues(w: Worker, v: Worker) {
    && v.epoch == w.epoch
    && v.history.delivered == w.history.delivered
    && (w.history.origin.Some? ==> v.history.origin == w.history.origin)
    && w.history.generated <= v.history.generated
  }

  /** Acquiring keeps what was delivered and either keeps the output or drops it. */
  lemma AcquireContinues(w: Worker, record: AudioRecord, backendReset: bool)
    requires NearlySound(w) && (w.state == Priming ==> w.history.origin.None? && w.history.generated == [])
    ensures var a := Acquire(w, record, backendReset).1; Continues(w, a) && (a.output == w.output || a.output == [])
  {
    hide Ordered, ValidModel;
    AcquireSound(w, record, backendReset);
  }

  lemma FramesContinue(a: Worker, record: AudioRecord, frames: seq<Frame>, now: Nanoseconds, verdict: Verdict)
    requires Sound(a)
    ensures var v := TakeFrames(a, record, frames, now, verdict).1; Continues(a, v) && (v.output == a.output || v.output == [])
  {
    hide Ordered, Added, RecordPosition, ValidModel;
  }

  lemma AcceptedContinues(w: Worker, record: AudioRecord, frames: seq<Frame>, now: Nanoseconds, verdict: Verdict,
                          backendReset: bool)
    requires Sound(w) && w.state != Faulted && (w.state == Priming ==> w.history == NOTHING)
    ensures var v := PushAccepted(w, record, frames, now, verdict, backendReset).1;
            Continues(w, v) && (v.output == w.output || v.output == [])
  {
    hide Ordered, ValidModel;
    EstimateKeepsSound(Received(w, |frames|), verdict);
    var (rated, e) := TakeEstimate(Received(w, |frames|), verdict);
    if rated {
      AcquireSound(e, record, backendReset);
      AcquireContinues(e, record, backendReset);
      var (acquired, a) := Acquire(e, record, backendReset);
      hide Acquire;
      FramesContinue(a, record, frames, now, verdict);
      hide TakeFrames;
    }
  }

  lemma PushContinues(w: Worker, record: AudioRecord, ssrc: u32, stereo: seq<Sample>, now: Nanoseconds, healthy: bool,
                      verdict: Verdict, backendReset: bool)
    requires Inv(w)
    ensures var v := Push(w, record, ssrc, stereo, now, healthy, verdict, backendReset).1;
            Continues(w, v) && (v.output == w.output || v.output == [])
  {
    hide HistoryInv, RunningInv, Ordered, PushAccepted;
    CheckHealthKeeps(w, now, healthy);
    var (well, h) := CheckHealth(w, now, healthy);
    if well && verdict.accepted {
      AcceptedContinues(h.(latestCapture := Some(record.capture)), record, Frames(stereo), now, verdict, backendReset);
    }
  }

  lemma {:induction false} QuantaContinue(w: Worker, call: nat, replies: seq<Reply>, now: Nanoseconds)
    requires Inv(w) && w.state == Running && w.lastNow == Some(now) && call <= MAX_CALLS
    ensures Continues(w, Quanta(w, call, replies, now).1)
    decreases MAX_CALLS - call
  {
    hide HistoryInv, Ordered, Arrived, Brackets, QuantumGate, InOrder, Accounts;
    if call < MAX_CALLS && RoomForQuantum(|w.input|, |w.output|) {
      QuantumKeeps(w, ReplyTo(replies, call), now);
      var (outcome, v) := Quantum(w, ReplyTo(replies, call), now);
      assert Continues(w, v);
      if outcome == Progresses {
        QuantumSound(w, ReplyTo(replies, call), now);
        QuantaContinue(v, call + 1, replies, now);
      }
    }
  }

  lemma HealthContinues(w: Worker, now: Nanoseconds, healthy: bool)
    requires |w.output| % QUANTUM == 0
    ensures var h := CheckHealth(w, now, healthy).1; Continues(w, h) && |h.output| % QUANTUM == 0
  {
    hide StaleGate;
  }

  lemma DispatchContinues(w: Worker, now: Nanoseconds, healthy: bool, replies: seq<Reply>)
    requires Inv(w) && |w.output| % QUANTUM == 0
    ensures var v := Dispatch(w, now, healthy, replies).1;
            Inv(v) && Continues(w, v) && |v.output| % QUANTUM == 0
  {
    InvSound(w);
    hide Inv, Sound, Quanta, CheckHealth, Continues;
    DispatchKeeps(w, now, healthy, replies);
    CheckHealthKeeps(w, now, healthy);
    HealthContinues(w, now, healthy);
    var (well, h) := CheckHealth(w, now, healthy);
    if well && h.state == Running {
      RunningSound(h);
      QuantaContinue(h, 0, replies, now);
      ContinuesFurther(w, h, Quanta(h, 0, replies, now).1);
      OutputStaysWhole(h, Quanta(h, 0, replies, now).1);
    }
  }

  lemma InvSound(w: Worker)
    requires Inv(w)
    ensures Sound(w)
  {
  }

  lemma RunningSound(w: Worker)
    requires Inv(w) && w.state == Running
    ensures Sound(w) && w.origin.Some?
  {
  }

  lemma ContinuesFurther(w: Worker, h: Worker, v: Worker)
    requires Continues(w, h) && Continues(h, v)
    ensures Continues(w, v)
  {
  }

  /** Output is made in whole quanta, so what stays queued between deliveries is whole quanta too. */
  lemma OutputStaysWhole(h: Worker, v: Worker)
    requires Inv(h) && Inv(v) && Continues(h, v) && h.state == Running && |h.output| % QUANTUM == 0
    ensures |v.output| % QUANTUM == 0
  {
    hide HistoryInv, Ordered, Brackets, InOrder, OnGrid, QueuesFresh, ValidModel;
    if v.state == Running {
      WholeLeft(h.model.frames, h.diagnostics.delivered, |h.output|);
      WholeLeft(v.model.frames, v.diagnostics.delivered, |v.output|);
    }
  }

  lemma WholeLeft(frames: nat, delivered: nat, left: nat)
    requires frames == delivered + left && frames % QUANTUM == 0
    ensures delivered % QUANTUM == 0 <==> left % QUANTUM == 0
  {
  }

  // ---- whole runs ------------------------------------------------------------------------

  /** Any step of the worker that continues its history keeps the line consistent, open or closed. */
  lemma WorkerStepKeeps(l: Line, w: Worker)
    requires LineInv(l) && Inv(w) && Continues(l.worker, w) && |w.output| % QUANTUM == 0
    ensures LineInv(Line(w, l.handoff)) && LineInv(Line(w, Revoke(l.handoff)))
  {
    hide Inv, Sound;
    CloseKeeps(l.handoff);
  }

  lemma PulledFacts(w: Worker, now: Nanoseconds, healthy: bool)
    requires Inv(w) && Pull(w, PULL_SAMPLES, now, healthy).0.block.Some?
    ensures var (pulled, v) := Pull(w, PULL_SAMPLES, now, healthy);
            && v.state != Faulted && v.output == [] && v.epoch == w.epoch && v.history.origin == w.history.origin
            && v.history.delivered == w.history.delivered + pulled.frames
  {
    hide HistoryInv, Brackets, Ordered;
    CheckHealthKeeps(w, now, healthy);
  }

  /** A handoff that is already closed refuses every block and stays as it was. */
  lemma ClosedRefuses(h: Handoff, block: CorrectedAudio, pcm: seq<Frame>, now: Nanoseconds, writer: Writer)
    requires HandoffInv(h) && !h.open
    ensures Consume(h, block, pcm, now, writer) == (false, h)
  {
  }

  lemma PulledKeeps(w: Worker, h: Handoff, now: Nanoseconds, healthy: bool, writer: Writer)
    requires LineInv(Line(w, h))
    ensures var (pulled, v) := Pull(w, PULL_SAMPLES, now, healthy);
            var l := if v.state == Faulted then Line(v, Revoke(h))
                     else if pulled.block.None? then Line(v, h)
                     else Line(v, Consume(h, pulled.block.value, pulled.frames, now, writer).1);
            LineInv(l) && l.handoff.delay == h.delay
  {
    hide HandoffInv, HistoryInv, RunningInv, Sound, WellFormed, Timely, OnHandoffGrid, RoomFor;
    PullKeeps(w, PULL_SAMPLES, now, healthy);
    var (pulled, v) := Pull(w, PULL_SAMPLES, now, healthy);
    if pulled.block.None? || v.state == Faulted {
      PullNothing(w, now, healthy);
      WorkerStepKeeps(Line(w, h), v);
    } else {
      PulledFacts(w, now, healthy);
      if h.open {
        ConsumeKeeps(h, pulled.block.value, pulled.frames, now, writer);
        PulledIsAcceptable(w, h, now, healthy);
      } else {
        ClosedRefuses(h, pulled.block.value, pulled.frames, now, writer);
      }
    }
  }

  lemma PullNothing(w: Worker, now: Nanoseconds, healthy: bool)
    requires Inv(w) && |w.output| % QUANTUM == 0
    requires Pull(w, PULL_SAMPLES, now, healthy).0.block.None? || Pull(w, PULL_SAMPLES, now, healthy).1.state == Faulted
    ensures Continues(w, Pull(w, PULL_SAMPLES, now, healthy).1)
    ensures |Pull(w, PULL_SAMPLES, now, healthy).1.output| % QUANTUM == 0
  {
    hide HistoryInv, RunningInv, Sound;
    CheckHealthKeeps(w, now, healthy);
  }

  lemma TurnKeeps(l: Line, t: Turn)
    requires LineInv(l)
    ensures LineInv(Turned(l, t)) && Turned(l, t).handoff.delay == l.handoff.delay
  {
    hide HandoffInv, HistoryInv, RunningInv, Sound;
    match t
    case Arrive(record, ssrc, stereo, now, healthy, verdict, backendReset) =>
      PushKeeps(l.worker, record, ssrc, stereo, now, healthy, verdict, backendReset);
      PushContinues(l.worker, record, ssrc, stereo, now, healthy, verdict, backendReset);
      WorkerStepKeeps(l, Push(l.worker, record, ssrc, stereo, now, healthy, verdict, backendReset).1);
    case Tick(now, healthy, replies, writer) =>
      DispatchContinues(l.worker, now, healthy, replies);
      var d := Dispatch(l.worker, now, healthy, replies).1;
      WorkerStepKeeps(l, d);
      PulledKeeps(d, l.handoff, now, healthy, writer);
    case Beat(now, writer, beat) => HeartbeatKeeps(l.handoff, now, writer, beat);
    case Withdraw => CloseKeeps(l.handoff);
  }

  ghost function RunLine(l: Line, turns: seq<Turn>): Line
    requires LineInv(l)
    decreases |turns|
  {
    if turns == [] then l
    else
      TurnKeeps(l, turns[0]);
      RunLine(Turned(l, turns[0]), turns[1..])
  }

  lemma {:induction false} RunLineKeeps(l: Line, turns: seq<Turn>)
    requires LineInv(l)
    ensures LineInv(RunLine(l, turns)) && RunLine(l, turns).handoff.delay == l.handoff.delay
    decreases |turns|
  {
    hide HandoffInv, HistoryInv, RunningInv;
    if turns != [] {
      TurnKeeps(l, turns[0]);
      RunLineKeeps(Turned(l, turns[0]), turns[1..]);
    }
  }

  /** A generation: a fresh worker in front of a fresh handoff. */
  ghost function FreshLine(epoch: SessionToken, delay: Nanoseconds): Line {
    Line(NewWorker(epoch), NewHandoff(delay))
  }

  lemma FreshLineInv(epoch: SessionToken, delay: Nanoseconds)
    requires epoch.Valid()
    ensures LineInv(FreshLine(epoch, delay))
  {
    hide HandoffInv, Inv;
    NewWorkerInv(epoch);
    NewHandoffInv(delay);
  }

  ghost function LineAfter(epoch: SessionToken, delay: Nanoseconds, turns: seq<Turn>): Line
    requires epoch.Valid()
  {
    FreshLineInv(epoch, delay);
    RunLine(FreshLine(epoch, delay), turns)
  }

  /**
   * Composition: after any turns, a pulled block is never refused for its shape, place, epoch or
   * grid by a handoff that is still open; only the moment or the room can refuse it.
   */
  lemma StructureNeverRefused(epoch: SessionToken, delay: Nanoseconds, turns: seq<Turn>, now: Nanoseconds, healthy: bool)
    requires epoch.Valid() && LineAfter(epoch, delay, turns).handoff.open
    ensures var l := LineAfter(epoch, delay, turns);
            var pulled := Pull(l.worker, PULL_SAMPLES, now, healthy).0;
            pulled.block.Some? ==> Acceptable(l.handoff, pulled.block.value, pulled.frames)
  {
    FreshLineInv(epoch, delay);
    RunLineKeeps(FreshLine(epoch, delay), turns);
    var l := LineAfter(epoch, delay, turns);
    if Pull(l.worker, PULL_SAMPLES, now, healthy).0.block.Some? {
      PulledIsAcceptable(l.worker, l.handoff, now, healthy);
    }
  }

  /**
   * End to end: whatever the arrivals, ticks, replies and busy answers, the blocks published are
   * exactly the resampler's output from its first frame on, without gap, repetition or reordering.
   * The k-th carries the capture time origin + 10 ms * k and a presentation `delay` later, and each
   * of its frames passed the 10 ms phase check; while open, accepted = published + 480 * queued.
   */
  lemma PublishedIsTheOutput(epoch: SessionToken, delay: Nanoseconds, turns: seq<Turn>)
    requires epoch.Valid()
    ensures var l := LineAfter(epoch, delay, turns); var h := l.worker.history; var published := l.handoff.published;
            && PcmOf(published) <= h.generated
            && |PcmOf(published)| == BLOCK * |published| <= |h.positions|
            && (published != [] ==> h.origin.Some? && Ordered(h.anchors))
            && (forall k :: 0 <= k < |published| ==>
                  && |published[k].pcm| == BLOCK
                  && published[k].capture == h.origin.value + 10_000_000 * k
                  && published[k].presentation == published[k].capture + delay)
            && (forall i :: 0 <= i < BLOCK * |published| ==> OnPhase(h.anchors, h.positions[i], h.origin.value, i))
            && (l.handoff.open ==> l.handoff.accepted == l.handoff.frames + BLOCK * |l.handoff.pending|)
  {
    FreshLineInv(epoch, delay);
    RunLineKeeps(FreshLine(epoch, delay), turns);
    var l := LineAfter(epoch, delay, turns);
    PublishedFacts(l);
    PrefixChain(PcmOf(l.handoff.published), l.handoff.fed, l.worker.history.delivered, l.worker.history.generated);
  }

  lemma PrefixChain(a: seq<Frame>, b: seq<Frame>, c: seq<Frame>, d: seq<Frame>)
    requires a <= b <= c && |c| <= |d| && c == d[..|c|]
    ensures a <= d
  {
  }

  lemma {:induction false} PcmLength(blocks: seq<Pending>)
    requires forall k :: 0 <= k < |blocks| ==> |blocks[k].pcm| == BLOCK
    ensures |PcmOf(blocks)| == BLOCK * |blocks|
    decreases |blocks|
  {
    if blocks != [] {
      PcmLength(blocks[..|blocks| - 1]);
    }
  }

  lemma PublishedFacts(l: Line)
    requires LineInv(l)
    ensures var h := l.worker.history; var published := l.handoff.published;
            && PcmOf(published) <= l.handoff.fed && l.handoff.fed <= h.delivered
            && |h.delivered| <= |h.generated| == |h.positions| && h.delivered == h.generated[..|h.delivered|]
            && |PcmOf(published)| == BLOCK * |published|
            && Ordered(h.anchors) && (published != [] ==> h.origin.Some?)
            && (forall k :: 0 <= k < |published| ==>
                  && |published[k].pcm| == BLOCK
                  && published[k].capture == h.origin.value + 10_000_000 * k
                  && published[k].presentation == published[k].capture + l.handoff.delay)
            && (forall i :: 0 <= i < |h.positions| ==> h.origin.Some? && OnPhase(h.anchors, h.positions[i], h.origin.value, i))
            && (l.handoff.open ==> l.handoff.accepted == l.handoff.frames + BLOCK * |l.handoff.pending|)
  {
    hide RunningInv, Sound, PrimingInv, Increasing, BlocksTile;
    var h, published := l.worker.history, l.handoff.published;
    if published != [] {
      StampedPrefix(published, l.handoff.pending, h.origin.value, l.handoff.delay);
      forall k | 0 <= k < |published|
        ensures |published[k].pcm| == BLOCK && published[k].capture == h.origin.value + 10_000_000 * k
        ensures published[k].presentation == published[k].capture + l.handoff.delay
      {
        QuantumGridExact(h.origin.value, k);
      }
    }
    PcmLength(published);
  }
}
