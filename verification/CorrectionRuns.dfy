// What every run of the correction worker keeps, for any packets, verdicts, resampler replies,
// pull sizes and clock readings.
module CorrectionRuns {
  import opened Timing
  import opened WirePosition
  import opened PhaseModel
  import opened PhaseLedger
  import opened CorrectionSpec

  datatype Event =
    | PushEvent(record: AudioRecord, ssrc: u32, stereo: seq<Sample>, now: Nanoseconds, healthy: bool,
                verdict: Verdict, backendReset: bool)
    | DispatchEvent(now: Nanoseconds, healthy: bool, replies: seq<Reply>)
    | PullEvent(samples: nat, now: Nanoseconds, healthy: bool)
    | ResetEvent(next: SessionToken, backendReset: bool)

  // ---- the invariant ---------------------------------------------------------------------

  /** Queue arrivals never run ahead of the clock and never decrease along the ring. */
  ghost predicate Arrived(q: seq<Queued>, now: int) {
    && (forall i :: 0 <= i < |q| ==> 0 <= q[i].arrival <= now)
    && (forall i, j :: 0 <= i < j < |q| ==> q[i].arrival <= q[j].arrival)
  }

  ghost predicate Increasing(ps: seq<Position>) {
    && (forall i :: 0 <= i < |ps| ==> ValidPosition(ps[i]))
    && (forall i, j :: 0 <= i < j < |ps| ==> Less(ps[i], ps[j]))
  }

  /** Blocks tile the delivered frames from zero, each stamped with its exact grid time. */
  ghost predicate BlocksTile(blocks: seq<CorrectedAudio>, origin: Nanoseconds, total: nat) {
    && (blocks == [] ==> total == 0)
    && (blocks != [] ==> blocks[0].firstFrame == 0 && blocks[|blocks| - 1].firstFrame + blocks[|blocks| - 1].frames == total)
    && (forall i :: 0 <= i < |blocks| ==>
          blocks[i].frames > 0 && Grid48(origin, blocks[i].firstFrame) == Some(blocks[i].captureGrid))
    && (forall i, j :: 0 <= i && j == i + 1 && j < |blocks| ==> blocks[j].firstFrame == blocks[i].firstFrame + blocks[i].frames)
  }

  ghost predicate AllOnPhase(anchors: seq<Anchor>, ps: seq<Position>, origin: Nanoseconds)
    requires Ordered(anchors)
  {
    forall k :: 0 <= k < |ps| ==> OnPhase(anchors, ps[k], origin, k)
  }

  ghost predicate HistoryInv(h: History) {
    && Ordered(h.anchors)
    && |h.generated| == |h.positions|
    && |h.delivered| <= |h.generated| && h.delivered == h.generated[..|h.delivered|]
    && Increasing(h.positions)
    && (h.origin.None? ==> h.positions == [] && h.blocks == [])
    && (h.origin.Some? ==> AllOnPhase(h.anchors, h.positions, h.origin.value)
                           && BlocksTile(h.blocks, h.origin.value, |h.delivered|))
  }

  ghost predicate PrimingInv(w: Worker) {
    && w.ledger == [] && w.input == [] && w.output == [] && w.model == BLANK && w.history == NOTHING
    && w.diagnostics.received == w.diagnostics.discarded
    && w.diagnostics.consumed == w.diagnostics.produced == w.diagnostics.delivered == w.diagnostics.phaseChecks == w.outputIndex == 0
    && w.lastProgress == None
  }

  /** The oldest anchor held is at or before the next source position, and after nothing processed. */
  ghost predicate Brackets(w: Worker) {
    && Holds(w.history.anchors, w.ledger) && w.ledger != []
    && AtOrBefore(w.ledger[0].source, w.model.next)
    && (forall k :: 0 <= k < |w.history.positions| ==> Less(w.history.positions[k], w.model.next))
  }

  /** Every frame that came in or went out is in exactly one place. */
  ghost predicate Accounts(w: Worker) {
    && w.diagnostics.received == w.diagnostics.discarded + w.diagnostics.consumed + |w.input|
    && OutputAccounts(w)
  }

  ghost predicate OutputAccounts(w: Worker) {
    && w.diagnostics.produced == w.diagnostics.delivered + |w.output|
    && w.diagnostics.produced == w.diagnostics.phaseChecks == w.model.frames == |w.history.positions|
    && w.diagnostics.delivered == w.outputIndex == |w.history.delivered|
    && w.diagnostics.produced % QUANTUM == 0
  }

  /** The queues are what is left of everything offered and everything generated, in order. */
  ghost predicate InOrder(w: Worker) {
    && w.history.generated == w.history.delivered + Unstamp(w.output)
    && w.diagnostics.consumed <= |w.history.offered| && Unstamp(w.input) == w.history.offered[w.diagnostics.consumed..]
  }

  ghost predicate QueuesFresh(w: Worker) {
    && w.lastNow.Some? && w.lastNow.value >= 0
    && w.lastProgress.Some? && w.lastProgress.value <= w.lastNow.value
    && Arrived(w.input, w.lastNow.value) && Arrived(w.output, w.lastNow.value)
    && |w.input| <= INPUT_CAPACITY && |w.output| <= OUTPUT_CAPACITY
  }

  ghost predicate OnGrid(w: Worker) {
    && w.model.initialized
    && w.origin.Some? && w.history.origin == w.origin && Grid48(w.origin.value, w.diagnostics.produced).Some?
  }

  ghost predicate RunningInv(w: Worker) {
    OnGrid(w) && w.origin.value >= 0 && Brackets(w) && Accounts(w) && InOrder(w) && QueuesFresh(w)
  }

  ghost predicate Inv(w: Worker) {
    && Sound(w)
    && HistoryInv(w.history)
    && (w.lastNow.Some? ==> w.lastNow.value >= 0)
    && (w.state == Priming ==> PrimingInv(w))
    && (w.state == Running ==> RunningInv(w))
    && (w.state == Faulted ==> w.input == [] && w.output == [] && w.ledger == [])
  }

  // ---- every step keeps it ---------------------------------------------------------------

  lemma FailKeeps(w: Worker, reason: Fault)
    requires NearlySound(w) && HistoryInv(w.history) && (w.lastNow.Some? ==> w.lastNow.value >= 0)
    requires w.state == Faulted ==> w.input == [] && w.output == [] && w.ledger == []
    ensures Inv(Fail(w, reason)) && Fail(w, reason).state == Faulted
  {
  }

  lemma CheckHealthKeeps(w: Worker, now: Nanoseconds, healthy: bool)
    requires Inv(w)
    ensures Inv(CheckHealth(w, now, healthy).1)
    ensures CheckHealth(w, now, healthy).0 ==>
              && w.state != Faulted && healthy && now >= 0
              && CheckHealth(w, now, healthy).1 == w.(lastNow := Some(now))
    ensures !CheckHealth(w, now, healthy).0 ==> CheckHealth(w, now, healthy).1.state == Faulted
  {
    hide HistoryInv, Ordered;
    if w.state != Faulted {
      FailKeeps(w, Health);
      if now >= 0 {
        var v := w.(lastNow := Some(now));
        FailKeeps(v.(diagnostics := v.diagnostics.(staleReason := StaleGate(v, now))), Stale);
      }
    }
  }

  /**
   * The two queues are tested at their heads only, and that is enough: after any passing check
   * every queued frame, input and output, has waited between zero and 200 ms.
   */
  lemma HeadsBoundWholeQueues(w: Worker, now: Nanoseconds, healthy: bool)
    requires Inv(w) && CheckHealth(w, now, healthy).0
    ensures forall q :: q in w.input || q in w.output ==> 0 <= now - q.arrival <= QUEUE_LIFETIME_NS
  {
    forall i | 0 <= i < |w.input|
      ensures 0 <= now - w.input[i].arrival <= QUEUE_LIFETIME_NS
    {
      assert w.input[0].arrival <= w.input[i].arrival;
    }
    forall i | 0 <= i < |w.output|
      ensures 0 <= now - w.output[i].arrival <= QUEUE_LIFETIME_NS
    {
      assert w.output[0].arrival <= w.output[i].arrival;
    }
  }

  lemma RecordPositionValid(record: AudioRecord)
    ensures RecordPosition(record).Some? ==> ValidPosition(RecordPosition(record).value)
  {
    if RecordPosition(record).Some? {
      NominalIsExact(record.devicePosition, record.deviceOrigin, 0, record.sourceRate);
      var p := NominalWirePosition(record.devicePosition, record.deviceOrigin, 0, record.sourceRate).value;
      UnitFraction(p.remainder, p.denominator);
    }
  }

  lemma UnitFraction(n: nat, d: nat)
    requires n < d
    ensures 0.0 <= n as real / d as real < 1.0
  {
  }

  /** A started segment begins at a source position no earlier than the anchor it was started from. */
  lemma StartBrackets(w: Worker, record: AudioRecord, backendReset: bool)
    requires PpmValid(w.target) && Start(w, record, backendReset).0
    ensures var v := Start(w, record, backendReset).1;
            && v.state == Running && v.origin.Some? && v.model.initialized && ValidModel(v.model)
            && v.model.frames == 0 && v.command == w.target
            && RecordPosition(record).Some? && AtOrBefore(RecordPosition(record).value, v.model.next)
            && v.origin.value >= record.capture
  {
    TargetInRange(w.target);
    RecordPositionValid(record);
    var p := RecordPosition(record).value;
    var start := Position(record.packetWireStart, 0.0);
    LessIsNumeric(start, p);
    var anchor := NominalWirePosition(record.devicePosition, record.deviceOrigin, 0, record.sourceRate).value;
    assert WireGap(record, anchor) == Value(start) - Value(p);
  }

  lemma UnstampStamp(frames: seq<Frame>, now: Nanoseconds)
    ensures Unstamp(Stamp(frames, now)) == frames
  {
  }

  lemma UnstampConcat(a: seq<Queued>, b: seq<Queued>)
    ensures Unstamp(a + b) == Unstamp(a) + Unstamp(b)
  {
  }

  lemma UnstampSlice(a: seq<Queued>, lo: nat, hi: nat)
    requires lo <= hi <= |a|
    ensures Unstamp(a[lo..hi]) == Unstamp(a)[lo..hi]
  {
  }

  lemma ArrivedAppend(q: seq<Queued>, frames: seq<Frame>, last: int, now: Nanoseconds)
    requires Arrived(q, last) && 0 <= last <= now
    ensures Arrived(q + Stamp(frames, now), now)
  {
  }

  /** Running, before the current packet's anchor and frames are taken in. */
  ghost predicate AlmostRunning(w: Worker) {
    && w.state == Running && Sound(w) && HistoryInv(w.history)
    && OnGrid(w) && OutputAccounts(w) && InOrder(w) && QueuesFresh(w)
    && if w.ledger == [] then w.history.anchors == [] && w.history.positions == []
       else Brackets(w) && w.origin.value >= 0
  }

  /** Later anchors change the time of no position already checked. */
  lemma PhaseSurvives(anchors: seq<Anchor>, a: Anchor, ps: seq<Position>, origin: Nanoseconds)
    requires Ordered(anchors) && Ordered(anchors + [a]) && AllOnPhase(anchors, ps, origin)
    ensures AllOnPhase(anchors + [a], ps, origin)
  {
    forall k | 0 <= k < |ps|
      ensures OnPhase(anchors + [a], ps[k], origin, k)
    {
      assert OnPhase(anchors, ps[k], origin, k);
      ExtensionKeeps(anchors, a, ps[k]);
    }
  }

  /** Taking in one ready anchor keeps the history on phase and the ledger bracketing. */
  lemma AnchorExtends(w: Worker, p: Position, time: Nanoseconds)
    requires HistoryInv(w.history) && OnGrid(w)
    requires if w.ledger == [] then w.history.anchors == [] && AtOrBefore(p, w.model.next) else Brackets(w)
    requires forall k :: 0 <= k < |w.history.positions| ==> Less(w.history.positions[k], w.model.next)
    requires Added(w.ledger, p, time, w.model.next).0 == Ready
    ensures var v := w.(ledger := Added(w.ledger, p, time, w.model.next).1,
                        history := w.history.(anchors := w.history.anchors + [Anchor(p, time)]));
            HistoryInv(v.history) && Brackets(v) && Ordered(v.ledger)
  {
    hide BlocksTile, Increasing, AllOnPhase;
    if w.ledger == [] {
      assert w.ledger == w.history.anchors[|w.history.anchors| - 0..];
      assert Added(w.ledger, p, time, w.model.next).1 == [Anchor(p, time)];
    }
    AddExtends(w.history.anchors, w.ledger, p, time, w.model.next);
    PhaseSurvives(w.history.anchors, Anchor(p, time), w.history.positions, w.origin.value);
    HeldOrdered(w.history.anchors + [Anchor(p, time)], Added(w.ledger, p, time, w.model.next).1);
  }

  ghost function WithAnchor(w: Worker, p: Position, time: Nanoseconds): Worker {
    w.(ledger := Added(w.ledger, p, time, w.model.next).1,
       history := w.history.(anchors := w.history.anchors + [Anchor(p, time)]))
  }

  lemma AnchorAdds(w: Worker, p: Position, time: Nanoseconds)
    requires AlmostRunning(w)
    requires w.ledger == [] ==> AtOrBefore(p, w.model.next) && w.origin.value >= time
    requires Added(w.ledger, p, time, w.model.next).0 == Ready
    ensures AlmostRunning(WithAnchor(w, p, time)) && WithAnchor(w, p, time).ledger != []
  {
    hide HistoryInv, Ordered, Added, Arrived;
    var v := WithAnchor(w, p, time);
    assert HistoryInv(v.history) && Brackets(v) && Ordered(v.ledger) by {
      AnchorExtends(w, p, time);
    }
    ReadyTime(w.ledger, p, time, w.model.next);
  }

  lemma ReadyTime(s: seq<Anchor>, p: Position, time: Nanoseconds, retain: Position)
    requires Added(s, p, time, retain).0 == Ready
    ensures time >= 0
  {
  }

  lemma AnchorKeeps(w: Worker, record: AudioRecord, verdict: Verdict)
    requires AlmostRunning(w)
    requires w.ledger == [] ==> RecordPosition(record).Some? && AtOrBefore(RecordPosition(record).value, w.model.next)
                                && w.origin.value >= record.capture
    ensures var (ok, v) := TakeAnchor(w, record, verdict);
            if ok then AlmostRunning(v) && v.ledger != []
                       && v == w.(ledger := v.ledger, history := w.history.(anchors := v.history.anchors))
            else Inv(v) && v.state == Faulted
  {
    hide HistoryInv, Added, RecordPosition, Arrived, Increasing, InOrder;
    var (ok, v) := TakeAnchor(w, record, verdict);
    if !ok {
      FailKeeps(w, PhaseFault);
    } else if !(w.ledger != [] && verdict.repeated) {
      RecordPositionValid(record);
      AnchorAdds(w, RecordPosition(record).value, record.capture);
      assert v == WithAnchor(w, RecordPosition(record).value, record.capture);
    }
  }

  lemma EnqueueKeeps(w: Worker, frames: seq<Frame>, now: Nanoseconds)
    requires AlmostRunning(w) && w.ledger != [] && w.lastNow == Some(now)
    requires w.diagnostics.received == w.diagnostics.discarded + w.diagnostics.consumed + |w.input| + |frames|
    ensures Inv(Enqueue(w, frames, now).1)
  {
    if |frames| > INPUT_CAPACITY - |w.input| {
      FailKeeps(w, Overflow);
    } else {
      var v := Enqueue(w, frames, now).1;
      UnstampConcat(w.input, Stamp(frames, now));
      UnstampStamp(frames, now);
      assert (w.history.offered + frames)[w.diagnostics.consumed..] == w.history.offered[w.diagnostics.consumed..] + frames;
      ArrivedAppend(w.input, frames, now, now);
    }
  }

  /** The packet just received is not accounted for yet. */
  ghost function Unreceived(w: Worker): Worker {
    w.(diagnostics := w.diagnostics.(received := w.diagnostics.discarded))
  }

  /** A packet of `count` frames has been received and its rate taken in; nothing else has happened yet. */
  ghost predicate Midway(e: Worker, count: nat) {
    && NearlySound(e) && HistoryInv(e.history) && e.state != Faulted && e.lastNow.Some? && e.lastNow.value >= 0
    && e.diagnostics.received == e.diagnostics.discarded + e.diagnostics.consumed + |e.input| + count
    && (e.state == Priming ==> PrimingInv(Unreceived(e)))
    && (e.state == Running ==> AlmostRunning(e) && e.ledger != [])
  }

  lemma EstimateRunning(w: Worker, count: nat, verdict: Verdict)
    requires Inv(w) && w.state == Running
    ensures var (ok, e) := TakeEstimate(Received(w, count), verdict);
            ok ==> Sound(e) && e.state == Running && OnGrid(e) && OutputAccounts(e) && InOrder(e) && QueuesFresh(e)
                   && Brackets(e) && e.diagnostics.received == e.diagnostics.discarded + e.diagnostics.consumed + |e.input| + count
  {
    hide HistoryInv, Ordered, Arrived;
  }

  lemma EstimateRefused(w: Worker, count: nat, verdict: Verdict)
    requires Inv(w) && !TakeEstimate(Received(w, count), verdict).0
    ensures Inv(TakeEstimate(Received(w, count), verdict).1)
  {
    FailKeeps(Received(w, count), Rate);
  }

  lemma EstimateMidway(w: Worker, count: nat, verdict: Verdict)
    requires Inv(w) && w.state != Faulted && w.lastNow.Some?
    requires TakeEstimate(Received(w, count), verdict).0
    ensures var e := TakeEstimate(Received(w, count), verdict).1;
            e.lastNow == w.lastNow && Midway(e, count)
  {
    hide HistoryInv, Ordered, Arrived;
    if w.state == Running {
      EstimateRunning(w, count, verdict);
    }
  }

  /** Running, with this packet's frames received but neither its anchor nor its frames taken in. */
  ghost predicate ReadyForAnchor(a: Worker, record: AudioRecord, count: nat) {
    && AlmostRunning(a)
    && a.diagnostics.received == a.diagnostics.discarded + a.diagnostics.consumed + |a.input| + count
    && (a.ledger == [] ==>
          && RecordPosition(record).Some? && AtOrBefore(RecordPosition(record).value, a.model.next)
          && a.origin.value >= record.capture)
  }

  /** After acquiring, the worker is priming, or ready for this packet's anchor, or latched. */
  lemma AcquireKeeps(e: Worker, record: AudioRecord, count: nat, backendReset: bool)
    requires Midway(e, count)
    ensures var (ok, a) := Acquire(e, record, backendReset);
            if !ok then Inv(a)
            else if a.state == Priming then Inv(Discarded(a, count))
            else ReadyForAnchor(a, record, count)
    ensures Acquire(e, record, backendReset).1.lastNow == e.lastNow
  {
    hide HistoryInv, Ordered, Arrived;
    if e.state == Priming && |e.acquisition| == 3 {
      var m := e.(target := Median(e.acquisition[0], e.acquisition[1], e.acquisition[2]));
      var (ok, s) := Start(m, record, backendReset);
      if ok {
        StartBrackets(m, record, backendReset);
        StartedAlmostRuns(m, record, backendReset, count);
      } else {
        FailKeeps(s, Timeline);
      }
    }
  }

  lemma FramesKeep(a: Worker, record: AudioRecord, frames: seq<Frame>, now: Nanoseconds, verdict: Verdict)
    requires Sound(a) && a.lastNow == Some(now)
    requires if a.state == Priming then Inv(Discarded(a, |frames|))
             else ReadyForAnchor(a, record, |frames|)
    ensures Inv(TakeFrames(a, record, frames, now, verdict).1)
  {
    if a.state != Priming {
      AnchorKeeps(a, record, verdict);
      var (anchored, l) := TakeAnchor(a, record, verdict);
      if anchored {
        EnqueueKeeps(l, frames, now);
      }
    }
  }

  /** The stages of an accepted packet, one after the other. */
  lemma AcceptedStages(w: Worker, record: AudioRecord, frames: seq<Frame>, now: Nanoseconds, verdict: Verdict, backendReset: bool)
    requires Sound(w) && TakeEstimate(Received(w, |frames|), verdict).0
    ensures var e := TakeEstimate(Received(w, |frames|), verdict).1;
            && NearlySound(e)
            && var (acquired, a) := Acquire(e, record, backendReset);
               && Sound(a)
               && PushAccepted(w, record, frames, now, verdict, backendReset) ==
                  if acquired then TakeFrames(a, record, frames, now, verdict) else (Rejected, a)
  {
    EstimateKeepsSound(Received(w, |frames|), verdict);
    AcquireSound(TakeEstimate(Received(w, |frames|), verdict).1, record, backendReset);
  }

  lemma RefusedStage(w: Worker, record: AudioRecord, frames: seq<Frame>, now: Nanoseconds, verdict: Verdict, backendReset: bool)
    requires Sound(w) && !TakeEstimate(Received(w, |frames|), verdict).0
    ensures PushAccepted(w, record, frames, now, verdict, backendReset).1 ==
            TakeEstimate(Received(w, |frames|), verdict).1
  {
  }

  lemma RatedKeeps(w: Worker, e: Worker, record: AudioRecord, frames: seq<Frame>, now: Nanoseconds, verdict: Verdict,
                   backendReset: bool)
    requires Sound(w) && TakeEstimate(Received(w, |frames|), verdict) == (true, e)
    requires Midway(e, |frames|) && e.lastNow == Some(now)
    ensures Inv(PushAccepted(w, record, frames, now, verdict, backendReset).1)
  {
    AcceptedStages(w, record, frames, now, verdict, backendReset);
    MeasuredKeeps(e, record, frames, now, verdict, backendReset);
    var (acquired, a) := Acquire(e, record, backendReset);
    var taken := if acquired then TakeFrames(a, record, frames, now, verdict) else (Rejected, a);
    assert PushAccepted(w, record, frames, now, verdict, backendReset) == taken;
    assert Inv(taken.1);
  }

  lemma RefusedKeeps(w: Worker, record: AudioRecord, frames: seq<Frame>, now: Nanoseconds, verdict: Verdict, backendReset: bool)
    requires Inv(w) && !TakeEstimate(Received(w, |frames|), verdict).0
    ensures Inv(PushAccepted(w, record, frames, now, verdict, backendReset).1)
  {
    hide HistoryInv, Ordered, Arrived;
    RefusedStage(w, record, frames, now, verdict, backendReset);
    EstimateRefused(w, |frames|, verdict);
  }

  lemma MeasureKeeps(w: Worker, record: AudioRecord, frames: seq<Frame>, now: Nanoseconds, verdict: Verdict, backendReset: bool)
    requires Inv(w) && w.state != Faulted && w.lastNow == Some(now)
    requires TakeEstimate(Received(w, |frames|), verdict).0
    ensures Inv(PushAccepted(w, record, frames, now, verdict, backendReset).1)
  {
    hide HistoryInv, Ordered, Arrived, Midway;
    EstimateMidway(w, |frames|, verdict);
    RatedKeeps(w, TakeEstimate(Received(w, |frames|), verdict).1, record, frames, now, verdict, backendReset);
  }

  lemma AcceptedKeeps(w: Worker, record: AudioRecord, frames: seq<Frame>, now: Nanoseconds, verdict: Verdict, backendReset: bool)
    requires Inv(w) && w.state != Faulted && w.lastNow == Some(now)
    ensures Inv(PushAccepted(w, record, frames, now, verdict, backendReset).1)
  {
    if TakeEstimate(Received(w, |frames|), verdict).0 {
      MeasureKeeps(w, record, frames, now, verdict, backendReset);
    } else {
      RefusedKeeps(w, record, frames, now, verdict, backendReset);
    }
  }

  lemma MeasuredKeeps(e: Worker, record: AudioRecord, frames: seq<Frame>, now: Nanoseconds, verdict: Verdict,
                      backendReset: bool)
    requires Midway(e, |frames|) && e.lastNow == Some(now)
    ensures var (acquired, a) := Acquire(e, record, backendReset);
            && Sound(a)
            && Inv(if acquired then TakeFrames(a, record, frames, now, verdict).1 else a)
  {
    var (acquired, a) := Acquire(e, record, backendReset);
    AcquireSound(e, record, backendReset);
    AcquireKeeps(e, record, |frames|, backendReset);
    if acquired {
      FramesKeep(a, record, frames, now, verdict);
    }
  }

  lemma StartedAlmostRuns(m: Worker, record: AudioRecord, backendReset: bool, count: nat)
    requires PrimingInv(Unreceived(m)) && m.state == Priming && NearlySound(m)
    requires m.diagnostics.received == m.diagnostics.discarded + count
    requires m.lastNow.Some? && m.lastNow.value >= 0
    requires Start(m, record, backendReset).0
    ensures var v := Start(m, record, backendReset).1;
            && AlmostRunning(v) && v.ledger == []
            && v.diagnostics.received == v.diagnostics.discarded + v.diagnostics.consumed + |v.input| + count
  {
    StartBrackets(m, record, backendReset);
    var v := Start(m, record, backendReset).1;
    QuantumGridExact(v.origin.value, 0);
  }

  lemma PushKeeps(w: Worker, record: AudioRecord, ssrc: u32, stereo: seq<Sample>, now: Nanoseconds, healthy: bool,
                  verdict: Verdict, backendReset: bool)
    requires Inv(w)
    ensures Inv(Push(w, record, ssrc, stereo, now, healthy, verdict, backendReset).1)
  {
    hide HistoryInv, Ordered, Arrived;
    if record.epoch == w.epoch {
      CheckHealthKeeps(w, now, healthy);
      var (well, h) := CheckHealth(w, now, healthy);
      if well {
        FailKeeps(h, Pcm);
        if PcmValid(stereo) {
          var v := if verdict.accepted then h.(latestCapture := Some(record.capture)) else h;
          FailKeeps(v, Metadata);
          if verdict.accepted && ssrc != 0 {
            AcceptedKeeps(v, record, Frames(stereo), now, verdict, backendReset);
          }
        }
      }
    }
  }

  /** On phase by the trimmed ledger is on phase by every anchor ever accepted. */
  lemma OnPhaseByAll(all: seq<Anchor>, k: nat, next: Position, p: Position, origin: Nanoseconds, frame: nat)
    requires Ordered(all) && k < |all| && ValidPosition(next) && AtOrBefore(all[k].source, next) && AtOrBefore(next, p)
    requires Ordered(all[k..]) && OnPhase(all[k..], p, origin, frame)
    ensures OnPhase(all, p, origin, frame)
  {
    hide TimeAt;
    TimeAtDefined(all[k..], p);
    LessIsNumeric(p, next);
    LessIsNumeric(next, all[k].source);
    LessIsNumeric(p, all[k].source);
    SuffixDecides(all, k, p);
  }

  /** A ready verdict on the trimmed ledger is a verdict on every anchor ever accepted. */
  lemma NewPositionsOnPhase(w: Worker, ps: seq<Position>)
    requires Sound(w) && OnGrid(w) && Brackets(w) && HistoryInv(w.history)
    requires w.diagnostics.produced == |w.history.positions|
    requires Assess(w.ledger, ps, w.origin.value, w.diagnostics.produced).status == Ready
    requires Increasing(ps) && (forall k :: 0 <= k < |ps| ==> AtOrBefore(w.model.next, ps[k]))
    ensures AllOnPhase(w.history.anchors, w.history.positions + ps, w.origin.value)
  {
    hide AssessFrom, TimeAt, AtOrBefore, OnPhase, BlocksTile, Increasing;
    var all, n := w.history.anchors, |w.history.positions|;
    var from := |all| - |w.ledger|;
    assert w.ledger == all[from..];
    ReadyMeansOnPhase(w.ledger, ps, w.origin.value, w.diagnostics.produced, 0, 0);
    forall k | 0 <= k < n + |ps|
      ensures OnPhase(all, (w.history.positions + ps)[k], w.origin.value, k)
    {
      if k >= n {
        assert WellPlaced(ps, k - n) && OnPhase(w.ledger, ps[k - n], w.origin.value, w.diagnostics.produced + (k - n));
        OnPhaseByAll(all, from, w.model.next, ps[k - n], w.origin.value, k);
      }
    }
  }

  lemma IncreasingConcat(a: seq<Position>, b: seq<Position>, middle: Position)
    requires Increasing(a) && Increasing(b) && ValidPosition(middle)
    requires forall k :: 0 <= k < |a| ==> Less(a[k], middle)
    requires forall k :: 0 <= k < |b| ==> AtOrBefore(middle, b[k])
    ensures Increasing(a + b)
  {
    forall i, j | 0 <= i < j < |a + b|
      ensures Less((a + b)[i], (a + b)[j])
    {
      if i < |a| <= j {
        LessIsNumeric(a[i], middle);
        LessIsNumeric(b[j - |a|], middle);
        LessIsNumeric(a[i], b[j - |a|]);
      }
    }
  }

  lemma QuantumKeeps(w: Worker, reply: Reply, now: Nanoseconds)
    requires Inv(w) && w.state == Running && w.lastNow == Some(now)
    requires RoomForQuantum(|w.input|, |w.output|)
    ensures Inv(Quantum(w, reply, now).1)
    ensures Quantum(w, reply, now).0 != Fails ==>
              Quantum(w, reply, now).1.state == Running && Quantum(w, reply, now).1.lastNow == Some(now)
    ensures Quantum(w, reply, now).0 == Progresses ==>
              Quantum(w, reply, now).1.diagnostics.produced == w.diagnostics.produced + QUANTUM
    ensures Quantum(w, reply, now).0 == Fails ==> Quantum(w, reply, now).1.state == Faulted
  {
    var (outcome, reason) := QuantumGate(w, reply);
    FailKeeps(w, reason);
    if outcome == Progresses {
      QuantumSound(w, reply, now);
      CommitKeeps(w, reply, now);
    }
  }

  /** The 480 new positions start at the old cursor, increase, and stay below the new one. */
  lemma QuantumPositions(m: Model, ppm: real)
    requires ValidModel(m) && Advance(m, ppm).Some?
    ensures var ps := Positions(m, ppm); var end := Advance(m, ppm).value.next;
            && Increasing(ps) && ValidPosition(m.next) && ValidPosition(end) && Less(m.next, end)
            && (forall k :: 0 <= k < |ps| ==> AtOrBefore(m.next, ps[k]) && Less(ps[k], end))
  {
    AdvanceKeepsValid(m, ppm);
    PositionsIncrease(m, ppm);
    var ps := Positions(m, ppm);
    forall k | 0 <= k < |ps|
      ensures AtOrBefore(m.next, ps[k])
    {
      LessIsNumeric(ps[k], m.next);
      if k > 0 {
        assert Less(ps[0], ps[k]);
      }
    }
  }

  /** The history with one more quantum in it is still increasing, on phase and below the cursor. */
  lemma QuantumExtendsHistory(w: Worker, ppm: real, frames: seq<Frame>)
    requires Sound(w) && OnGrid(w) && Brackets(w) && HistoryInv(w.history)
    requires w.diagnostics.produced == |w.history.positions| && |frames| == QUANTUM
    requires Advance(w.model, ppm).Some?
    requires Assess(w.ledger, Positions(w.model, ppm), w.origin.value, w.diagnostics.produced).status == Ready
    ensures var h := w.history.(positions := w.history.positions + Positions(w.model, ppm),
                                generated := w.history.generated + frames);
            && HistoryInv(h)
            && (forall k :: 0 <= k < |h.positions| ==> Less(h.positions[k], Advance(w.model, ppm).value.next))
  {
    QuantumPositions(w.model, ppm);
    var ps, end := Positions(w.model, ppm), Advance(w.model, ppm).value.next;
    NewPositionsOnPhase(w, ps);
    IncreasingConcat(w.history.positions, ps, w.model.next);
    assert w.history.delivered == (w.history.generated + frames)[..|w.history.delivered|];
    forall k | 0 <= k < |w.history.positions + ps|
      ensures Less((w.history.positions + ps)[k], end)
    {
      if k < |w.history.positions| {
        LessIsNumeric(w.history.positions[k], w.model.next);
        LessIsNumeric(w.model.next, end);
        LessIsNumeric(w.history.positions[k], end);
      }
    }
  }

  lemma CommitBrackets(w: Worker, reply: Reply, now: Nanoseconds)
    requires Inv(w) && w.state == Running && |w.input| >= INPUT_OFFER
    requires Quantum(w, reply, now).0 == Progresses
    ensures HistoryInv(Quantum(w, reply, now).1.history) && Brackets(Quantum(w, reply, now).1)
  {
    hide HistoryInv, InOrder, QueuesFresh;
    var next := NextCommand(w);
    QuantumExtendsHistory(w, next, reply.frames);
    QuantumPositions(w.model, next);
    var end := Advance(w.model, next).value.next;
    LessIsNumeric(end, w.ledger[0].source);
    LessIsNumeric(w.model.next, w.ledger[0].source);
    LessIsNumeric(w.model.next, end);
  }

  lemma CommitKeeps(w: Worker, reply: Reply, now: Nanoseconds)
    requires Inv(w) && w.state == Running && w.lastNow == Some(now)
    requires RoomForQuantum(|w.input|, |w.output|)
    requires Quantum(w, reply, now).0 == Progresses && Sound(Quantum(w, reply, now).1)
    ensures Inv(Quantum(w, reply, now).1)
  {
    hide HistoryInv, Brackets, Arrived;
    CommitBrackets(w, reply, now);
    QueuesKeep(w, reply, now);
  }

  lemma QueuesKeep(w: Worker, reply: Reply, now: Nanoseconds)
    requires InOrder(w) && QueuesFresh(w) && HistoryInv(w.history) && w.lastNow == Some(now)
    requires reply.used <= |w.input|
    ensures var input := w.input[reply.used..]; var output := w.output + Stamp(reply.frames, now);
            && Unstamp(input) == w.history.offered[w.diagnostics.consumed + reply.used..]
            && w.history.generated + reply.frames == w.history.delivered + Unstamp(output)
            && Arrived(input, now) && Arrived(output, now)
            && w.history.delivered == (w.history.generated + reply.frames)[..|w.history.delivered|]
  {
    UnstampSlice(w.input, reply.used, |w.input|);
    UnstampConcat(w.output, Stamp(reply.frames, now));
    UnstampStamp(reply.frames, now);
    ArrivedAppend(w.output, reply.frames, now, now);
    assert w.input[reply.used..] == w.input[reply.used..|w.input|];
    assert w.history.offered[w.diagnostics.consumed..][reply.used..] == w.history.offered[w.diagnostics.consumed + reply.used..];
    assert (w.history.delivered + Unstamp(w.output)) + reply.frames == w.history.delivered + (Unstamp(w.output) + reply.frames);
  }

  lemma {:induction false} QuantaKeep(w: Worker, call: nat, replies: seq<Reply>, now: Nanoseconds)
    requires Inv(w) && w.state == Running && w.lastNow == Some(now) && call <= MAX_CALLS
    ensures var (outcome, v) := Quanta(w, call, replies, now);
            && Inv(v)
            && (outcome == Fails <==> v.state == Faulted)
            && (outcome != Fails ==>
                  v.state == Running && v.diagnostics.produced >= w.diagnostics.produced && v.lastNow == Some(now))
    decreases MAX_CALLS - call
  {
    hide HistoryInv, Ordered, Brackets, Arrived, InOrder;
    if call < MAX_CALLS && RoomForQuantum(|w.input|, |w.output|) {
      QuantumKeeps(w, ReplyTo(replies, call), now);
      var (outcome, v) := Quantum(w, ReplyTo(replies, call), now);
      if outcome == Progresses {
        QuantumSound(w, ReplyTo(replies, call), now);
        QuantaKeep(v, call + 1, replies, now);
      }
    }
  }

  lemma DispatchKeeps(w: Worker, now: Nanoseconds, healthy: bool, replies: seq<Reply>)
    requires Inv(w)
    ensures Inv(Dispatch(w, now, healthy, replies).1)
  {
    CheckHealthKeeps(w, now, healthy);
    var (well, h) := CheckHealth(w, now, healthy);
    if well && h.state == Running {
      QuantaKeep(h, 0, replies, now);
    }
  }

  /** Moving the front of the output queue to the delivered history keeps the order and the tiling. */
  lemma DeliveryKeeps(w: Worker, count: nat, stamp: Nanoseconds)
    requires Inv(w) && w.state == Running
    requires 0 < count <= |w.output| && Grid48(w.origin.value, w.outputIndex) == Some(stamp)
    ensures Inv(w.(outputIndex := w.outputIndex + count, diagnostics := CountDelivery(w.diagnostics, count),
                   output := w.output[count..],
                   history := w.history.(delivered := w.history.delivered + Unstamp(w.output[..count]),
                                         blocks := w.history.blocks + [CorrectedAudio(w.epoch, w.outputIndex, stamp, count)])))
  {
    var front, rest := Unstamp(w.output[..count]), w.output[count..];
    UnstampSlice(w.output, 0, count);
    UnstampSlice(w.output, count, |w.output|);
    assert w.output[..count] == w.output[0..count] && rest == w.output[count..|w.output|];
    assert Unstamp(w.output) == front + Unstamp(rest);
    var delivered := w.history.delivered + front;
    assert w.history.generated == delivered + Unstamp(rest);
    assert delivered == w.history.generated[..|delivered|];
    TileOneMore(w.history.blocks, w.origin.value, |w.history.delivered|, CorrectedAudio(w.epoch, w.outputIndex, stamp, count));
  }

  lemma TileOneMore(blocks: seq<CorrectedAudio>, origin: Nanoseconds, total: nat, block: CorrectedAudio)
    requires BlocksTile(blocks, origin, total)
    requires block.firstFrame == total && block.frames > 0 && Grid48(origin, total) == Some(block.captureGrid)
    ensures BlocksTile(blocks + [block], origin, total + block.frames)
  {
  }

  /** A delivery never runs off the grid: what was produced has a grid time, so what is handed out has. */
  lemma DeliverKeeps(h: Worker, samples: nat)
    requires Inv(h) && h.state == Running
    ensures Inv(Deliver(h, samples).1)
    ensures Deliver(h, samples).1.fault == Timeline ==> h.fault == Timeline
  {
    if samples == 0 || samples % 2 != 0 || samples > OUTPUT_CAPACITY * 2 {
      FailKeeps(h, Pcm);
    } else if h.output != [] {
      GridMonotone(h.origin.value, WIRE_RATE, 1, h.outputIndex, h.diagnostics.produced);
      DeliveryKeeps(h, Min(|h.output|, samples / 2), Grid48(h.origin.value, h.outputIndex).value);
    }
  }

  lemma PullKeeps(w: Worker, samples: nat, now: Nanoseconds, healthy: bool)
    requires Inv(w)
    ensures Inv(Pull(w, samples, now, healthy).1)
  {
    CheckHealthKeeps(w, now, healthy);
    var (well, h) := CheckHealth(w, now, healthy);
    if well && h.state == Running {
      DeliverKeeps(h, samples);
    }
  }

  lemma NewWorkerInv(epoch: SessionToken)
    ensures Inv(NewWorker(epoch))
  {
  }

  lemma ResetKeeps(w: Worker, next: SessionToken, backendReset: bool)
    requires Inv(w)
    ensures Inv(Reset(w, next, backendReset).1)
  {
    hide AllOnPhase, BlocksTile, Increasing;
    FailKeeps(w, Backend);
    NewWorkerInv(next);
    hide Fail;
  }

  // ---- runs ------------------------------------------------------------------------------

  ghost function Step(w: Worker, e: Event): Worker
    requires Sound(w)
  {
    match e
    case PushEvent(record, ssrc, stereo, now, healthy, verdict, backendReset) =>
      Push(w, record, ssrc, stereo, now, healthy, verdict, backendReset).1
    case DispatchEvent(now, healthy, replies) => Dispatch(w, now, healthy, replies).1
    case PullEvent(samples, now, healthy) => Pull(w, samples, now, healthy).1
    case ResetEvent(next, backendReset) => Reset(w, next, backendReset).1
  }

  lemma StepKeeps(w: Worker, e: Event)
    requires Inv(w)
    ensures Inv(Step(w, e))
  {
    match e
    case PushEvent(record, ssrc, stereo, now, healthy, verdict, backendReset) =>
      PushKeeps(w, record, ssrc, stereo, now, healthy, verdict, backendReset);
    case DispatchEvent(now, healthy, replies) => DispatchKeeps(w, now, healthy, replies);
    case PullEvent(samples, now, healthy) => PullKeeps(w, samples, now, healthy);
    case ResetEvent(next, backendReset) => ResetKeeps(w, next, backendReset);
  }

  ghost function Run(w: Worker, events: seq<Event>): Worker
    requires Inv(w)
    decreases |events|
  {
    if events == [] then w
    else
      StepKeeps(w, events[0]);
      Run(Step(w, events[0]), events[1..])
  }

  lemma {:induction false} RunKeeps(w: Worker, events: seq<Event>)
    requires Inv(w)
    ensures Inv(Run(w, events))
    decreases |events|
  {
    if events != [] {
      StepKeeps(w, events[0]);
      RunKeeps(Step(w, events[0]), events[1..]);
    }
  }

  // ---- what every run of a fresh worker guarantees -----------------------------------------

  /** The worker after any events at all. */
  ghost function After(epoch: SessionToken, events: seq<Event>): (w: Worker)
    ensures Sound(w)
  {
    NewWorkerInv(epoch);
    RunKeeps(NewWorker(epoch), events);
    Run(NewWorker(epoch), events)
  }

  lemma ReachedKeeps(epoch: SessionToken, events: seq<Event>)
    ensures Inv(After(epoch, events))
  {
    NewWorkerInv(epoch);
    RunKeeps(NewWorker(epoch), events);
  }

  /**
   * Conservation: in every reachable state that has not faulted, each frame received is discarded,
   * consumed or still queued, and each frame produced is delivered or still queued, has passed its
   * phase check and has advanced the model.
   */
  lemma Conservation(epoch: SessionToken, events: seq<Event>)
    ensures var w := After(epoch, events);
            w.state != Faulted ==>
              && w.diagnostics.received == w.diagnostics.discarded + w.diagnostics.consumed + |w.input|
              && w.diagnostics.produced == w.diagnostics.delivered + |w.output|
              && w.diagnostics.produced == w.diagnostics.phaseChecks == w.model.frames
  {
    ReachedKeeps(epoch, events);
  }

  /**
   * Order: whatever the pull sizes, the frames handed out are a prefix of the resampler's output
   * and, until a fault, the rest of it is exactly the queue; the blocks they came in are contiguous
   * from zero, and each is stamped with the exact 48 kHz grid time of its first frame.
   */
  lemma DeliveryOrder(epoch: SessionToken, events: seq<Event>)
    ensures var w := After(epoch, events); var h := w.history;
            && |h.delivered| <= |h.generated| && h.delivered == h.generated[..|h.delivered|]
            && (w.state == Running ==> h.generated == h.delivered + Unstamp(w.output))
            && (w.state == Running ==>
                  w.diagnostics.consumed <= |h.offered| && Unstamp(w.input) == h.offered[w.diagnostics.consumed..])
            && (h.origin.Some? ==> BlocksTile(h.blocks, h.origin.value, |h.delivered|))
  {
    ReachedKeeps(epoch, events);
  }

  /**
   * Every frame ever handed out read, by the model, a source position whose capture time, read off
   * all the anchors ever accepted, is within 10 ms of the frame's output grid time.
   */
  lemma DeliveredOnPhase(epoch: SessionToken, events: seq<Event>, k: nat)
    requires k < |After(epoch, events).history.delivered|
    ensures var h := After(epoch, events).history;
            && h.origin.Some? && k < |h.positions| && Ordered(h.anchors)
            && TimeAt(h.anchors, h.positions[k]).Some?
            && Grid48(h.origin.value, k).Some?
            && -PHASE_LIMIT_NS <= TimeAt(h.anchors, h.positions[k]).value - Grid48(h.origin.value, k).value <= PHASE_LIMIT_NS
  {
    ReachedKeeps(epoch, events);
    var h := After(epoch, events).history;
    assert OnPhase(h.anchors, h.positions[k], h.origin.value, k);
  }

  /**
   * Bracket: a running worker always holds an anchor at or before the next source position, so a
   * quantum that waits is waiting for a newer anchor; none it needs has been evicted.
   */
  lemma WaitingIsForNewerAnchors(epoch: SessionToken, events: seq<Event>, reply: Reply)
    requires After(epoch, events).state == Running
    ensures var w := After(epoch, events);
            && w.ledger != [] && AtOrBefore(w.ledger[0].source, w.model.next)
            && (QuantumGate(w, reply).0 == Waits ==> NewestBehind(w))
  {
    ReachedKeeps(epoch, events);
    var w := After(epoch, events);
    if QuantumGate(w, reply).0 == Waits {
      var next := NextCommand(w);
      QuantumPositions(w.model, next);
      var ps := Positions(w.model, next);
      forall k | 0 <= k < |ps|
        ensures AtOrBefore(w.ledger[0].source, ps[k])
      {
        LessIsNumeric(ps[k], w.ledger[0].source);
        LessIsNumeric(ps[k], w.model.next);
        LessIsNumeric(w.model.next, w.ledger[0].source);
      }
      WaitingMeansBehind(w.ledger, ps, w.origin.value, w.diagnostics.produced, 0, 0);
    }
  }

  /** Some position of the coming quantum lies beyond the newest anchor. */
  ghost predicate NewestBehind(w: Worker)
    requires Sound(w)
  {
    && w.ledger != [] && Advance(w.model, NextCommand(w)).Some?
    && exists k :: 0 <= k < QUANTUM && Less(w.ledger[|w.ledger| - 1].source, Positions(w.model, NextCommand(w))[k])
  }

  predicate NoReset(events: seq<Event>) {
    forall e :: e in events ==> !e.ResetEvent?
  }

  /** A faulted generation is finished: until a reset, nothing changes it and no pull yields anything. */
  lemma {:induction false} FaultIsFinal(w: Worker, events: seq<Event>)
    requires Inv(w) && w.state == Faulted && NoReset(events)
    ensures Run(w, events) == w
    ensures forall samples, now, healthy :: Pull(w, samples, now, healthy).0.block == None
    decreases |events|
  {
    if events != [] {
      assert events[0] in events;
      assert Step(w, events[0]) == w;
      FaultIsFinal(w, events[1..]);
    }
  }

  /** The command moves toward the measured rate by at most 0.99 ppm a quantum and never past it. */
  lemma CommandSlew(w: Worker, reply: Reply, now: Nanoseconds)
    requires Inv(w) && w.state == Running && |w.input| >= INPUT_OFFER
    ensures var v := Quantum(w, reply, now).1;
            && Abs(v.command - w.command) <= COMMAND_STEP_PPM
            && (w.command <= w.target ==> w.command <= v.command <= w.target)
            && (w.target <= w.command ==> w.target <= v.command <= w.command)
  {
    NextCommandValid(w);
  }
}
