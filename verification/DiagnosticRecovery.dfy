// Which faults the owner survives, and what comes after one: the generation is retired, and a successor of
// the same session delivers again (src/audio/audio_diagnostic.cpp).
module DiagnosticRecovery {
  import opened Timing
  import opened DiagnosticOwner
  import opened DiagnosticRuns
  import opened DiagnosticFailure
  import C = CorrectionSpec

  // ---- what a snapshot makes of a fault ----------------------------------------------------------

  /** A provider out of order, a worker that made no progress, or anchors that stopped coming. */
  predicate Survivable(condition: Condition) {
    && condition.Broken?
    && (|| condition.fault == C.Health
        || (condition.fault == C.Stale && condition.stale == C.NoProgress)
        || (condition.fault == C.Stale && condition.stale == C.AnchorAge))
  }

  predicate InSnapshot(pc: Pc) {
    pc.Snap? || pc.SnapRetire?
  }

  /** A run through a snapshot to its end, with whatever other threads do meanwhile. */
  ghost predicate ThroughSnapshot(c: Config, s: State, steps: seq<Step>)
    requires Runs(c, s, steps)
    decreases |steps|
  {
    if steps == [] then !InSnapshot(s.pc) else InSnapshot(s.pc) && ThroughSnapshot(c, Do(c, s, steps[0]), steps[1..])
  }

  predicate SetsFlag(steps: seq<Step>) {
    exists i :: 0 <= i < |steps| && steps[i].SubmitLeave?
  }

  /** A snapshot of a broken worker, at its start or in the middle of retiring the generation. */
  ghost predicate Snapping(c: Config, s: State, worker: Worker, then_: Pc) {
    && c.hooks && s.worker == Some(worker) && worker.condition.Broken? && InSnapshot(s.pc) && s.pc.then_ == then_
    && (s.pc.SnapRetire? ==> c.recovery && Survivable(worker.condition) && s.revoked && s.pc.call.stage != Done(false))
  }

  /** The snapshot is over: the output is shut, and the generation retired or the bridge failed. */
  ghost predicate Settled(c: Config, s: State, t: State, worker: Worker, then_: Pc, submitted: bool) {
    && t.pc == then_ && t.worker == Some(worker) && t.revoked
    && if c.recovery && Survivable(worker.condition)
       then Retired(t.shared, worker.epoch) && (t.shared.failed ==> s.shared.failed || submitted)
       else t.shared.failed
  }

  lemma SnapDecides(c: Config, s: State, worker: Worker, then_: Pc)
    requires Inv(c, s) && Snapping(c, s, worker, then_) && s.pc.Snap?
    ensures var t := SnapStep(c, s, then_);
            if c.recovery && Survivable(worker.condition)
            then Snapping(c, t, worker, then_) && t.pc.SnapRetire? && t.shared.failed == s.shared.failed
            else Settled(c, s, t, worker, then_, false) && !InSnapshot(then_)
  {
    hide Protocol, Numbers, CallInv;
  }

  /** No other thread disturbs a call on the worker's own generation: it is always found retirable. */
  lemma RetireGoesOn(c: Config, s: State, worker: Worker, then_: Pc, spurious: bool)
    requires Inv(c, s) && Current(c, s) && Snapping(c, s, worker, then_) && s.pc.SnapRetire?
    ensures var t := SnapRetireStep(s, s.pc.call, then_, spurious);
            && t.shared.failed == s.shared.failed
            && if s.pc.call.stage.Done? then Settled(c, s, t, worker, then_, false) && !InSnapshot(then_)
               else Snapping(c, t, worker, then_) && t.pc.SnapRetire?
  {
    hide Outputs;
  }

  lemma OthersPass(c: Config, s: State, worker: Worker, then_: Pc, step: Step)
    requires Inv(c, s) && Snapping(c, s, worker, then_) && Enabled(c, s, step) && !step.Work?
    ensures var t := Do(c, s, step);
            Snapping(c, t, worker, then_) && (t.shared.failed ==> s.shared.failed || step.SubmitLeave?)
  {
    hide Inv, CallStep;
    CallerLeaves(c, s, step);
    if step.RetireWork? {
      OnlyRetires(s.shared, s.calls[step.id], step.spurious);
    }
  }

  lemma OnlyRetires(shared: Shared, call: Call, spurious: bool)
    ensures CallStep(shared, call, spurious).0.failed == shared.failed
  {
  }

  lemma SnapshotWorks(c: Config, s: State, worker: Worker, then_: Pc, choice: Choice)
    requires Inv(c, s) && Current(c, s) && Snapping(c, s, worker, then_)
    ensures var t := WorkStep(c, s, choice);
            if Snapping(c, t, worker, then_) then t.shared.failed == s.shared.failed
            else Settled(c, s, t, worker, then_, false) && !InSnapshot(t.pc)
  {
    hide Inv, Current, SnapStep, SnapRetireStep;
    if s.pc.Snap? {
      SnapDecides(c, s, worker, then_);
    } else {
      RetireGoesOn(c, s, worker, then_, choice.spurious);
    }
  }

  lemma SnappingIsIn(c: Config, s: State, worker: Worker, then_: Pc)
    requires Snapping(c, s, worker, then_)
    ensures InSnapshot(s.pc)
  {
  }

  lemma SettledSince(c: Config, s: State, t: State, u: State, worker: Worker, then_: Pc, steps: seq<Step>)
    requires steps != [] && Settled(c, t, u, worker, then_, SetsFlag(steps[1..]))
    requires t.shared.failed ==> s.shared.failed || steps[0].SubmitLeave?
    ensures Settled(c, s, u, worker, then_, SetsFlag(steps))
  {
    if SetsFlag(steps[1..]) {
      var i :| 0 <= i < |steps[1..]| && steps[1..][i].SubmitLeave?;
      assert steps[i + 1].SubmitLeave?;
    }
  }

  lemma AlreadySettled(c: Config, s: State, t: State, steps: seq<Step>, worker: Worker, then_: Pc)
    requires steps != [] && Settled(c, s, t, worker, then_, false) && !InSnapshot(t.pc)
    requires Runs(c, t, steps[1..]) && ThroughSnapshot(c, t, steps[1..])
    ensures After(c, t, steps[1..]) == t && Settled(c, s, t, worker, then_, SetsFlag(steps))
  {
  }

  lemma {:induction false} SnapshotSettles(c: Config, s: State, steps: seq<Step>, worker: Worker, then_: Pc)
    requires Inv(c, s) && Current(c, s) && Constructible(c) && Snapping(c, s, worker, then_)
    requires Runs(c, s, steps) && ThroughSnapshot(c, s, steps)
    ensures Settled(c, s, After(c, s, steps), worker, then_, SetsFlag(steps))
    decreases |steps|
  {
    hide Inv, Current, Enabled, Snapping, Settled, WorkStep;
    SnappingIsIn(c, s, worker, then_);
    var t := Do(c, s, steps[0]);
    StepKeeps(c, s, steps[0]);
    StepCurrent(c, s, steps[0]);
    if steps[0].Work? {
      SnapshotWorks(c, s, worker, then_, steps[0].choice);
    } else {
      OthersPass(c, s, worker, then_, steps[0]);
    }
    if Snapping(c, t, worker, then_) {
      SnapshotSettles(c, t, steps[1..], worker, then_);
      SettledSince(c, s, t, After(c, t, steps[1..]), worker, then_, steps);
    } else {
      AlreadySettled(c, s, t, steps, worker, then_);
    }
  }

  /**
   * Which faults are survived, over every interleaving: with recovery on, a snapshot of a worker broken by
   * a health fault, by a lack of progress or by anchors too old ends with the output revoked, the worker's
   * generation retired, and the bridge no more failed than other threads made it; with any other fault,
   * or without recovery, it ends with the bridge failed.
   */
  lemma FaultDecides(c: Config, s: State, steps: seq<Step>)
    requires Reached(c, s) && c.hooks && s.pc.Snap? && s.worker.Some? && s.worker.value.condition.Broken?
    requires Runs(c, s, steps) && ThroughSnapshot(c, s, steps)
    ensures var t := After(c, s, steps);
            var epoch, fault, stale := s.worker.value.epoch, s.worker.value.condition.fault, s.worker.value.condition.stale;
            && t.pc == s.pc.then_ && t.worker == s.worker && t.revoked
            && if c.recovery && (fault == C.Health || (fault == C.Stale && (stale == C.NoProgress || stale == C.AnchorAge)))
               then
                 && t.shared.session == epoch.session && t.shared.retired >= epoch.generation
                 && (t.shared.failed ==> s.shared.failed || exists i :: 0 <= i < |steps| && steps[i].SubmitLeave?)
               else t.shared.failed
  {
    ReachedCurrent(c, s);
    SnapshotSettles(c, s, steps, s.worker.value, s.pc.then_);
  }

  /** How far a snapshot still has to go, undisturbed. */
  function Remaining(s: State): nat {
    if s.pc.Snap? then 7
    else if s.pc.SnapRetire? then
      match s.pc.call.stage
      case LoadSession => 6
      case LoadGeneration => 5
      case LoadRetired => 4
      case Compare(expected) => if expected == s.shared.retired then 2 else 3
      case Done(_) => 1
    else 0
  }

  lemma SnapshotNears(c: Config, s: State, worker: Worker, then_: Pc)
    requires Inv(c, s) && Current(c, s) && Snapping(c, s, worker, then_)
    ensures Enabled(c, s, W) && Remaining(WorkStep(c, s, SMOOTH)) < Remaining(s)
  {
    hide Outputs;
  }

  /** A snapshot left alone comes to its end. */
  lemma {:induction false} SnapshotEnds(c: Config, s: State, worker: Worker, then_: Pc) returns (steps: seq<Step>)
    requires Inv(c, s) && Current(c, s) && Constructible(c) && Snapping(c, s, worker, then_)
    ensures Runs(c, s, steps) && ThroughSnapshot(c, s, steps) && |steps| <= Remaining(s)
    ensures forall i :: 0 <= i < |steps| ==> steps[i] == W
    decreases Remaining(s)
  {
    hide Inv, Current, Snapping, Settled, WorkStep, Enabled, Remaining;
    SnappingIsIn(c, s, worker, then_);
    SnapshotNears(c, s, worker, then_);
    SnapshotWorks(c, s, worker, then_, SMOOTH);
    var t := Do(c, s, W);
    StepKeeps(c, s, W);
    StepCurrent(c, s, W);
    var rest := [];
    if Snapping(c, t, worker, then_) {
      rest := SnapshotEnds(c, t, worker, then_);
    }
    steps := [W] + rest;
    assert steps[1..] == rest;
  }

  // ---- what comes after a fault that is survived ----------------------------------------------------

  /** A packet arrives, and the tick that finds it does not stop before its generation has delivered. */
  const SUCCESSION: seq<Step> := [W, W, W, W, W]

  function Arrival(id: nat, p: Packet, now: Nanoseconds): seq<Step> {
    [SubmitEnter(id, Some(p)), SubmitLeave(id), Tick(now, true), W, W]
  }

  /** Between ticks, with nothing queued, the worker broken and its generation retired. */
  ghost predicate Waits(c: Config, s: State) {
    && Inv(c, s) && c.recovery && c.hooks && c.begins && s.pc == Idle && !s.shared.failed && s.shared.queue == []
    && s.worker.Some? && Survivable(s.worker.value.condition) && s.shared.retired >= s.worker.value.epoch.generation
    && |s.sessions| < 8
  }

  /** A packet of a later generation of the same session, no more than 100 ms old at the tick. */
  ghost predicate Succeeds(s: State, p: Packet, now: Nanoseconds) {
    && s.worker.Some? && s.active.Some?
    && p.epoch.Valid() && p.epoch.session == s.worker.value.epoch.session && p.epoch.generation > s.active.value.generation
    && now >= 0 && (s.now.Some? ==> s.now.value <= now) && p.arrival <= now <= p.arrival + 100_000_000
  }

  lemma Arrives(c: Config, s: State, id: nat, p: Packet, now: Nanoseconds)
    requires Waits(c, s) && Succeeds(s, p, now) && id !in s.submits
    ensures Runs(c, s, Arrival(id, p, now))
    ensures After(c, s, Arrival(id, p, now)) == s.(now := Some(now), shared := s.shared.(queue := [p]), pc := Take(true, 0))
  {
    hide Inv;
    var a := s.(submits := s.submits[id := Some(p)]);
    var b := s.(shared := s.shared.(queue := [p]));
    var d := b.(now := Some(now), pc := Expiry(false, true));
    assert a.submits - {id} == s.submits;
    assert Do(c, a, SubmitLeave(id)) == b;
    Chain(c, [s, a, b, d, d.(pc := Provider(true)), d.(pc := Take(true, 0))], Arrival(id, p, now));
  }

  /** The tick has taken the packet, and shut the output if it was not yet shut. */
  function Shutting(c: Config, s: State, p: Packet, now: Nanoseconds, call: Call): State {
    WithRevoke(c, s).(now := Some(now), active := Some(p.epoch), pc := SnapRetire(call, Successor(true, 0, p)))
  }

  /** The packet is neither late nor retired, and of a generation the worker is not of. */
  lemma Screens(c: Config, s: State, p: Packet, now: Nanoseconds)
    requires Waits(c, s) && Succeeds(s, p, now)
    ensures var screen := s.(now := Some(now), pc := Screen(true, 0, p));
            && Enabled(c, screen, W)
            && Do(c, screen, W) == screen.(active := Some(p.epoch), pc := Snap(Successor(true, 0, p)))
    ensures s.shared.session == p.epoch.session && s.worker.value.epoch.session == p.epoch.session
    ensures s.worker.value.epoch.generation <= s.shared.generation && s.shared.retired < p.epoch.generation
  {
    hide Outputs, CallInv;
  }

  lemma Shuts(c: Config, s: State, p: Packet, now: Nanoseconds)
    requires Waits(c, s)
    ensures var snap := s.(now := Some(now), active := Some(p.epoch), pc := Snap(Successor(true, 0, p)));
            Enabled(c, snap, W) && Do(c, snap, W) == Shutting(c, s, p, now, Call(s.worker.value.epoch, LoadSession))
  {
    hide Inv;
  }

  lemma Loads(c: Config, s: State, p: Packet, now: Nanoseconds, call: Call)
    requires !call.stage.Done? && CallStep(s.shared, call, false).0 == s.shared
    ensures var t := Shutting(c, s, p, now, call);
            Enabled(c, t, W) && Do(c, t, W) == Shutting(c, s, p, now, CallStep(s.shared, call, false).1)
  {
    hide CallStep;
  }

  lemma TakesIt(c: Config, s: State, p: Packet, now: Nanoseconds)
    requires Waits(c, s) && Succeeds(s, p, now)
    ensures var t := s.(now := Some(now), shared := s.shared.(queue := [p]), pc := Take(true, 0));
            Enabled(c, t, W) && Do(c, t, W) == s.(now := Some(now), pc := Screen(true, 0, p))
  {
    hide Inv;
  }

  /** The old generation is closed once more. */
  lemma Closes(c: Config, s: State, p: Packet, now: Nanoseconds)
    requires Waits(c, s) && Succeeds(s, p, now)
    ensures var t := s.(now := Some(now), shared := s.shared.(queue := [p]), pc := Take(true, 0));
            && Runs(c, t, SUCCESSION)
            && After(c, t, SUCCESSION) == Shutting(c, s, p, now, Call(s.worker.value.epoch, LoadRetired))
  {
    var t := s.(now := Some(now), shared := s.shared.(queue := [p]), pc := Take(true, 0));
    var screen := s.(now := Some(now), pc := Screen(true, 0, p));
    var epoch := s.worker.value.epoch;
    Screens(c, s, p, now);
    Shuts(c, s, p, now);
    Loads(c, s, p, now, Call(epoch, LoadSession));
    Loads(c, s, p, now, Call(epoch, LoadGeneration));
    TakesIt(c, s, p, now);
    hide Waits, Succeeds, Enabled, Do, Shutting, CallStep;
    FiveSteps(c, t, screen, screen.(active := Some(p.epoch), pc := Snap(Successor(true, 0, p))),
              Shutting(c, s, p, now, Call(epoch, LoadSession)), Shutting(c, s, p, now, Call(epoch, LoadGeneration)),
              Shutting(c, s, p, now, Call(epoch, LoadRetired)), W, W);
  }

  /** A new output and a new worker, for the generation of the packet. */
  function Opening(c: Config, s: State, p: Packet, now: Nanoseconds): State {
    WithRevoke(c, s).(now := Some(now), active := Some(p.epoch), revoked := false,
                      log := WithRevoke(c, s).log + [Begin(p.epoch, true)],
                      worker := Some(Worker(p.epoch, Well)), sessions := s.sessions + [p.epoch],
                      shared := s.shared.(session := p.epoch.session, generation := p.epoch.generation),
                      pc := Feed(true, 0, p))
  }

  /** It is found retired already, and its successor is opened. */
  lemma Opens(c: Config, s: State, p: Packet, now: Nanoseconds)
    requires Waits(c, s) && Succeeds(s, p, now)
    ensures var t := Shutting(c, s, p, now, Call(s.worker.value.epoch, LoadRetired));
            Runs(c, t, SUCCESSION) && After(c, t, SUCCESSION) == Opening(c, s, p, now)
  {
    var epoch := s.worker.value.epoch;
    var done := Shutting(c, s, p, now, Call(epoch, Done(true)));
    var fed := Opening(c, s, p, now);
    var begun := fed.(shared := s.shared, pc := PublishSession(true, 0, p));
    var half := fed.(shared := s.shared.(session := p.epoch.session), pc := PublishGeneration(true, 0, p));
    Screens(c, s, p, now);
    Loads(c, s, p, now, Call(epoch, LoadRetired));
    Begins(c, s, p, now, epoch);
    Publishes(c, fed, s.shared, p);
    hide Waits, Succeeds, Enabled, Do, Shutting;
    FiveSteps(c, Shutting(c, s, p, now, Call(epoch, LoadRetired)), done, done.(pc := Successor(true, 0, p)), begun, half, fed, W, W);
  }

  lemma Publishes(c: Config, fed: State, shared: Shared, p: Packet)
    requires fed.pc == Feed(true, 0, p) && fed.worker.Some?
    requires fed.shared == shared.(session := p.epoch.session, generation := p.epoch.generation)
    ensures var begun := fed.(shared := shared, pc := PublishSession(true, 0, p));
            var half := fed.(shared := shared.(session := p.epoch.session), pc := PublishGeneration(true, 0, p));
            Enabled(c, begun, W) && Do(c, begun, W) == half && Enabled(c, half, W) && Do(c, half, W) == fed
  {
  }

  lemma Begins(c: Config, s: State, p: Packet, now: Nanoseconds, epoch: SessionToken)
    requires Waits(c, s)
    ensures var done := Shutting(c, s, p, now, Call(epoch, Done(true)));
            var next := done.(pc := Successor(true, 0, p));
            && Enabled(c, done, W) && Do(c, done, W) == next && Enabled(c, next, W)
            && Do(c, next, W) == Opening(c, s, p, now).(shared := s.shared, pc := PublishSession(true, 0, p))
  {
    hide Inv;
  }

  /** The tick goes on to its delivery. */
  lemma Feeds(c: Config, s: State, p: Packet, now: Nanoseconds)
    requires Waits(c, s) && Succeeds(s, p, now)
    ensures var t := Opening(c, s, p, now); Runs(c, t, SUCCESSION) && After(c, t, SUCCESSION) == t.(pc := Deliver(true))
  {
    hide Outputs, CallInv;
    var t := Opening(c, s, p, now);
    assert !Retired(t.shared, p.epoch);
    hide Inv;
    FiveSteps(c, t, t.(pc := Snap(Fed(true, 0))), t.(pc := Fed(true, 0)), t.(pc := Take(true, 1)), t.(pc := Expiry(true, true)),
              t.(pc := Deliver(true)), W, W);
  }

  lemma Delivers(c: Config, t: State, epoch: SessionToken)
    requires c.hooks && t.pc == Deliver(true) && t.worker == Some(Worker(epoch, Well))
    ensures Runs(c, t, [W, W]) && After(c, t, [W, W]) == t.(log := t.log + [Consume(epoch)], pc := Idle)
  {
    var u := t.(log := t.log + [Consume(epoch)], pc := Snap(Idle));
    Chain(c, [t, u, u.(pc := Idle)], [W, W]);
  }

  /**
   * Life after such a fault: the first packet of a later generation of the same session that the tick
   * finds in time is begun a new output, and a block of its own generation is delivered in that same tick.
   */
  lemma SuccessorDelivers(c: Config, s: State, id: nat, p: Packet, now: Nanoseconds) returns (steps: seq<Step>)
    requires Waits(c, s) && Succeeds(s, p, now) && id !in s.submits
    ensures Runs(c, s, steps)
    ensures var t := After(c, s, steps);
            && t.log == (if s.revoked then s.log else s.log + [Revoke]) + [Begin(p.epoch, true), Consume(p.epoch)]
            && t.worker == Some(Worker(p.epoch, Well)) && t.pc == Idle && !t.shared.failed
  {
    Arrives(c, s, id, p, now);
    Closes(c, s, p, now);
    Opens(c, s, p, now);
    Feeds(c, s, p, now);
    Delivers(c, Opening(c, s, p, now).(pc := Deliver(true)), p.epoch);
    hide Runs, After, Inv;
    var a := Arrival(id, p, now);
    Concatenate(c, s, a, SUCCESSION);
    Concatenate(c, s, a + SUCCESSION, SUCCESSION);
    Concatenate(c, s, a + SUCCESSION + SUCCESSION, SUCCESSION);
    steps := a + SUCCESSION + SUCCESSION + SUCCESSION + [W, W];
    Concatenate(c, s, a + SUCCESSION + SUCCESSION + SUCCESSION, [W, W]);
  }

  // ---- such a fault, and such a successor, are reached ---------------------------------------------

  const RECOVERING: Config := Config(true, true, true)

  /** The anchors of a running generation stop coming. */
  const PAUSE: Step := Work(SMOOTH.(condition := Broken(C.Stale, C.AnchorAge)))

  const PAUSING: seq<Step> := [PAUSE, W, W, W, W]

  /** The first generation is being fed. */
  function Running(): State {
    Opened().(log := [Begin(PACKET.epoch, true)])
  }

  /** Its worker has faulted, and the tick is somewhere after that. */
  function Stalled(retired: nat, pc: Pc): State {
    Running().(worker := Some(Worker(PACKET.epoch, Broken(C.Stale, C.AnchorAge))), revoked := true,
               log := [Begin(PACKET.epoch, true), Revoke], shared := Shared(false, [], 1, 1, retired), pc := pc)
  }

  function Retiring(stage: Stage, then_: Pc): Pc {
    SnapRetire(Call(PACKET.epoch, stage), then_)
  }

  lemma RunningRuns()
    ensures Runs(RECOVERING, Screening(), OPENING) && After(RECOVERING, Screening(), OPENING) == Running()
  {
    var s1 := Screening().(active := Some(PACKET.epoch), pc := Snap(Successor(true, 0, PACKET)));
    var s3 := Running().(shared := INITIAL.shared, pc := PublishSession(true, 0, PACKET));
    var s4 := Running().(shared := Shared(false, [], 1, 0, 0), pc := PublishGeneration(true, 0, PACKET));
    FiveSteps(RECOVERING, Screening(), s1, s1.(pc := Successor(true, 0, PACKET)), s3, s4, Running(), W, W);
  }

  lemma PausingRuns()
    ensures Runs(RECOVERING, Running(), PAUSING)
    ensures After(RECOVERING, Running(), PAUSING) == Stalled(0, Retiring(Compare(0), Fed(true, 0)))
  {
    var fault := Running().(worker := Some(Worker(PACKET.epoch, Broken(C.Stale, C.AnchorAge))), pc := Snap(Fed(true, 0)));
    FiveSteps(RECOVERING, Running(), fault, Stalled(0, Retiring(LoadSession, Fed(true, 0))),
              Stalled(0, Retiring(LoadGeneration, Fed(true, 0))), Stalled(0, Retiring(LoadRetired, Fed(true, 0))),
              Stalled(0, Retiring(Compare(0), Fed(true, 0))), PAUSE, W);
  }

  lemma RetiringRuns()
    ensures Runs(RECOVERING, Stalled(0, Retiring(Compare(0), Fed(true, 0))), SUCCESSION)
    ensures After(RECOVERING, Stalled(0, Retiring(Compare(0), Fed(true, 0))), SUCCESSION) == Stalled(1, Deliver(true))
  {
    FiveSteps(RECOVERING, Stalled(0, Retiring(Compare(0), Fed(true, 0))), Stalled(1, Retiring(Done(true), Fed(true, 0))),
              Stalled(1, Fed(true, 0)), Stalled(1, Take(true, 1)), Stalled(1, Expiry(true, true)), Stalled(1, Deliver(true)), W, W);
  }

  lemma RestingRuns()
    ensures Runs(RECOVERING, Stalled(1, Deliver(true)), SUCCESSION)
    ensures After(RECOVERING, Stalled(1, Deliver(true)), SUCCESSION) == Stalled(1, Retiring(Done(true), Idle))
    ensures Enabled(RECOVERING, Stalled(1, Retiring(Done(true), Idle)), W)
    ensures Do(RECOVERING, Stalled(1, Retiring(Done(true), Idle)), W) == Stalled(1, Idle)
  {
    FiveSteps(RECOVERING, Stalled(1, Deliver(true)), Stalled(1, Snap(Idle)), Stalled(1, Retiring(LoadSession, Idle)),
              Stalled(1, Retiring(LoadGeneration, Idle)), Stalled(1, Retiring(LoadRetired, Idle)),
              Stalled(1, Retiring(Done(true), Idle)), W, W);
  }

  lemma PauseReached()
    ensures Reached(RECOVERING, Stalled(1, Idle))
  {
    ArrivalRuns(RECOVERING);
    RunningRuns();
    PausingRuns();
    RetiringRuns();
    RestingRuns();
    hide Do, Enabled, Stalled;
    Chain(RECOVERING, [Stalled(1, Retiring(Done(true), Idle)), Stalled(1, Idle)], [W]);
    hide Runs, After;
    Concatenate(RECOVERING, INITIAL, ARRIVAL, OPENING);
    Concatenate(RECOVERING, INITIAL, ARRIVAL + OPENING, PAUSING);
    Concatenate(RECOVERING, INITIAL, ARRIVAL + OPENING + PAUSING, SUCCESSION);
    Concatenate(RECOVERING, INITIAL, ARRIVAL + OPENING + PAUSING + SUCCESSION, SUCCESSION);
    Concatenate(RECOVERING, INITIAL, ARRIVAL + OPENING + PAUSING + SUCCESSION + SUCCESSION, [W]);
  }

  /**
   * All this happens: in a reachable state anchors have stopped coming and the worker has faulted for it,
   * and from there a run begins the next generation of the session and delivers a block of it.
   */
  lemma PauseIsSurvived() returns (steps: seq<Step>)
    ensures Reached(RECOVERING, Stalled(1, Idle)) && Stalled(1, Idle).worker.value.condition == Broken(C.Stale, C.AnchorAge)
    ensures Runs(RECOVERING, Stalled(1, Idle), steps)
    ensures var next := SessionToken(1, 2);
            After(RECOVERING, Stalled(1, Idle), steps).log ==
            [Begin(PACKET.epoch, true), Revoke, Begin(next, true), Consume(next)]
  {
    hide Runs, After, Do, Enabled, Inv, Stalled, Reached;
    PauseReached();
    ReachedKeeps(RECOVERING, Stalled(1, Idle));
    StalledWaits();
    StalledLog();
    steps := SuccessorDelivers(RECOVERING, Stalled(1, Idle), 0, Packet(SessionToken(1, 2), 0), 0);
  }

  lemma StalledWaits()
    requires Inv(RECOVERING, Stalled(1, Idle))
    ensures Waits(RECOVERING, Stalled(1, Idle)) && Succeeds(Stalled(1, Idle), Packet(SessionToken(1, 2), 0), 0)
    ensures 0 !in Stalled(1, Idle).submits
  {
    hide Inv;
  }

  lemma StalledLog()
    ensures Stalled(1, Idle).log == [Begin(PACKET.epoch, true), Revoke] && Stalled(1, Idle).revoked
    ensures Stalled(1, Idle).worker == Some(Worker(PACKET.epoch, Broken(C.Stale, C.AnchorAge)))
  {
  }

  // ---- what the owner decides -----------------------------------------------------------------------

  /** The tick has given the bridge up: it is failed, its worker is broken, and the output is shut. */
  predicate GivenUp(c: Config, t: State) {
    t.shared.failed && !Live(t) && t.pc == Clearing && (c.hooks ==> t.revoked)
  }

  /**
   * What the tick makes of a packet: of a retired generation, or an older one of the session, it is passed
   * over; if it is more than 100 ms old, or of another session during recovery, the bridge is given up; if
   * it is not admitted it is passed over or, during recovery, the bridge is given up; otherwise it is fed to
   * the worker of its generation, or opens a successor unless an output that cannot begin again is in use.
   */
  lemma PacketDecides(c: Config, s: State, admits: bool)
    requires s.pc.Screen?
    ensures var p, passed := s.pc.packet, s.(pc := Take(s.pc.healthy, s.pc.count + 1));
            var t := ScreenStep(c, s, s.pc.healthy, s.pc.count, p, admits);
            var retired := p.epoch.Valid() && p.epoch.session == s.shared.session && p.epoch.generation <= s.shared.retired;
            var inTime := s.now.Some? && I64_MIN <= s.now.value - p.arrival <= 100_000_000;
            var sameSession := s.active.Some? && p.epoch.session == s.active.value.session;
            var admitted := admits && p.epoch.Valid()
                            && (s.active.Some? ==> p.epoch == s.active.value
                                                   || (sameSession && p.epoch.generation > s.active.value.generation));
            if retired then t == passed
            else if !inTime || (c.recovery && s.active.Some? && !sameSession) then GivenUp(c, t)
            else if sameSession && p.epoch.generation < s.active.value.generation then t == passed
            else if !admitted then if c.recovery then GivenUp(c, t) else t == passed
            else if s.worker.Some? && s.worker.value.epoch == p.epoch
                 then t == s.(active := Some(p.epoch), pc := Feed(s.pc.healthy, s.pc.count, p))
            else if s.worker.Some? && c.hooks && !c.recovery then GivenUp(c, t)
            else t.pc == Snap(Successor(s.pc.healthy, s.pc.count, p)) && t.active == Some(p.epoch) && (c.hooks ==> !Live(t))
  {
    FailGivesUp(c, s);
    AgeDecides(s, s.pc.packet);
    AdmittedDecides(c, s.(active := Some(s.pc.packet.epoch)), s.pc.healthy, s.pc.count, s.pc.packet);
    hide OwnerFail, GivenUp, AdmittedStep, CheckedSub;
  }

  lemma AgeDecides(s: State, p: Packet)
    ensures (s.now.None? || CheckedSub(s.now.value, p.arrival).None?
             || CheckedSub(s.now.value, p.arrival).value > MAXIMUM_QUEUE_AGE_NS)
            <==> !(s.now.Some? && I64_MIN <= s.now.value - p.arrival <= 100_000_000)
  {
  }

  lemma AdmittedDecides(c: Config, s: State, healthy: bool, count: nat, p: Packet)
    ensures var t := AdmittedStep(c, s, healthy, count, p);
            if s.worker.Some? && s.worker.value.epoch == p.epoch then t == s.(pc := Feed(healthy, count, p))
            else if s.worker.Some? && c.hooks && !c.recovery then GivenUp(c, t)
            else t.pc == Snap(Successor(healthy, count, p)) && t.active == s.active && (c.hooks ==> !Live(t))
  {
    FailGivesUp(c, s);
    hide OwnerFail, GivenUp;
  }

  lemma FailGivesUp(c: Config, s: State)
    ensures GivenUp(c, OwnerFail(c, s))
  {
  }

  /** A bridge given up drops what is queued, and takes no more. */
  lemma GivenUpDrops(c: Config, s: State, choice: Choice, id: nat, packet: Option<Packet>)
    requires GivenUp(c, s)
    ensures WorkStep(c, s, choice) == s.(shared := s.shared.(queue := []), pc := Snap(Idle))
    ensures !Enabled(c, s, SubmitEnter(id, packet))
  {
  }

  /** A successor is opened unless the bridge has failed, eight generations have been, or its output is refused. */
  lemma OpeningDecides(c: Config, s: State, opens: bool)
    requires Inv(c, s) && s.pc.Successor?
    ensures var p := s.pc.packet; var t := SuccessorStep(c, s, s.pc.healthy, s.pc.count, p, opens);
            if s.shared.failed then t == s.(pc := Idle)
            else if |s.sessions| == 8 || (c.begins && !opens) then GivenUp(c, t)
            else
              && t.worker == Some(Worker(p.epoch, Well)) && t.sessions == s.sessions + [p.epoch] && !t.revoked
              && t.log == s.log + if c.begins then [Begin(p.epoch, true)] else []
  {
    hide Inv;
  }

  /** A submission joins the queue, unless it is malformed or 64 packets are waiting: then the bridge has failed. */
  lemma SubmissionDecides(s: State, id: nat)
    requires id in s.submits && |s.shared.queue| <= 64
    ensures var t := SubmitStep(s, id);
            if s.submits[id].Some? && |s.shared.queue| < 64
            then t.shared == s.shared.(queue := s.shared.queue + [s.submits[id].value])
            else t.shared == s.shared.(failed := true)
  {
  }

  /** A tick goes ahead exactly when the bridge has not failed and the clock has not gone back. */
  lemma TickDecides(c: Config, s: State, now: Nanoseconds, healthy: bool)
    ensures var t := TickStep(c, s, now, healthy);
            if !s.shared.failed && now >= 0 && (s.now.Some? ==> now >= s.now.value)
            then t == s.(now := Some(now), pc := Expiry(false, healthy))
            else GivenUp(c, t)
  {
  }

  /** What the tick takes next is the oldest packet waiting, once it has arrived, and 64 of them at most. */
  lemma TakeDecides(c: Config, s: State)
    requires s.pc.Take?
    ensures var t := TakeStep(s, s.pc.healthy, s.pc.count); var q := s.shared.queue;
            if s.pc.count < 64 && q != [] && s.now.Some? && q[0].arrival <= s.now.value
            then t.pc == Screen(s.pc.healthy, s.pc.count, q[0]) && t.shared == s.shared.(queue := q[1..])
            else t == s.(pc := t.pc) && (if s.worker.Some? then t.pc == Expiry(true, s.pc.healthy) else t.pc == Idle)
  {
  }

  /** A worker that is well is broken, before it is used, as soon as its generation is retired or the provider is out of order. */
  lemma ClosingDecides(c: Config, s: State, choice: Choice)
    requires Inv(c, s) && Live(s) && (s.pc.Expiry? || s.pc.Provider?)
    ensures var t := WorkStep(c, s, choice); var epoch := s.worker.value.epoch;
            var closes := if s.pc.Expiry? then epoch.session == s.shared.session && epoch.generation <= s.shared.retired
                          else !s.pc.healthy;
            && t.log == s.log && t.shared == s.shared
            && t.worker == Some(Worker(epoch, if closes then Broken(C.Health, C.NotStale) else Well))
            && Target(t.pc) == (if s.pc.Expiry? then if s.pc.last then Deliver(s.pc.healthy) else Provider(s.pc.healthy)
                                else Take(s.pc.healthy, 0))
            && (t.pc.Snap? <==> closes) && !t.pc.SnapRetire?
  {
  }

  /** A packet of the worker's generation is offered to it, unless it has broken and the bridge recovers. */
  lemma FeedDecides(c: Config, s: State, choice: Choice)
    requires Inv(c, s) && s.pc.Feed?
    ensures var t := WorkStep(c, s, choice); var w := s.worker.value;
            && t.log == s.log && t.shared == s.shared && t.worker.Some? && t.worker.value.epoch == w.epoch
            && if w.condition.Broken? then
                 t.worker == s.worker
                 && t.pc == if c.recovery then Take(s.pc.healthy, s.pc.count + 1) else Snap(Fed(s.pc.healthy, s.pc.count))
               else
                 t.worker.value.condition == (if s.pc.healthy then choice.condition else Broken(C.Health, C.NotStale))
                 && t.pc == Snap(Fed(s.pc.healthy, s.pc.count))
  {
  }

  /**
   * The block a worker has ready after its last dispatch is handed on exactly when the worker has not broken
   * and the block is sane; if it is not, or not taken, the bridge is given up.
   */
  lemma DeliveryDecides(c: Config, s: State, choice: Choice)
    requires Inv(c, s) && s.pc.Deliver? && c.hooks
    ensures var t := WorkStep(c, s, choice); var w := s.worker.value;
            var ready := w.condition == Well && s.pc.healthy && choice.condition == Well && choice.block;
            var handed := s.log + if ready && choice.sane then [Consume(w.epoch)] else [];
            if ready && !(choice.sane && choice.taken)
            then GivenUp(c, t) && t.log == handed + [Revoke]
            else
              && t.log == handed && t.pc == Snap(Idle) && t.shared == s.shared
              && (Live(t) ==> w.condition == Well && s.pc.healthy)
  {
    hide Numbers, Protocol;
  }

  // ---- a retirement ---------------------------------------------------------------------------------

  /** What a retirement call has still to find out. */
  predicate Retirable(shared: Shared, call: Call) {
    match call.stage
    case LoadSession => call.epoch.session == shared.session && call.epoch.generation <= shared.generation
    case LoadGeneration => call.epoch.generation <= shared.generation
    case LoadRetired => true
    case Compare(expected) => true
    case Done(ok) => ok
  }

  function Rounds(stage: Stage): nat {
    match stage
    case LoadSession => 4
    case LoadGeneration => 3
    case LoadRetired => 2
    case Compare(_) => 1
    case Done(_) => 0
  }

  /** The state in which a call that nothing disturbs has returned. */
  function Returned(s: State, id: nat, call: Call): State {
    var ok := Retirable(s.shared, call);
    var raises := ok && !call.stage.Done? && s.shared.retired < call.epoch.generation;
    s.(calls := s.calls - {id},
       shared := s.shared.(retired := if raises then call.epoch.generation else s.shared.retired),
       returned := if ok then s.returned + {call.epoch} else s.returned)
  }

  lemma {:induction false} CallReturns(c: Config, s: State, id: nat) returns (steps: seq<Step>)
    requires id in s.calls
    requires s.calls[id].stage.Compare? ==>
               s.calls[id].stage.expected == s.shared.retired && s.shared.retired < s.calls[id].epoch.generation
    ensures Runs(c, s, steps) && After(c, s, steps) == Returned(s, id, s.calls[id])
    ensures forall i :: 0 <= i < |steps| ==> steps[i] == RetireWork(id, false)
    decreases Rounds(s.calls[id].stage)
  {
    var step := RetireWork(id, false);
    var t := Do(c, s, step);
    if s.calls[id].stage.Done? {
      steps := [step];
      assert Runs(c, t, steps[1..]) && After(c, t, steps[1..]) == t;
    } else {
      var rest := CallReturns(c, t, id);
      steps := [step] + rest;
      assert steps[1..] == rest && t.calls - {id} == s.calls - {id};
    }
  }

  /**
   * A retirement that nothing disturbs returns, and true exactly for a generation of the bridge's session
   * that has been admitted; then every generation up to that one is retired.  Otherwise it changes nothing.
   */
  lemma RetirementDecides(c: Config, s: State, id: nat, epoch: SessionToken) returns (steps: seq<Step>)
    requires c.recovery && epoch.Valid() && id !in s.calls
    ensures |steps| > 0 && steps[0] == RetireEnter(id, epoch)
    ensures forall i :: 0 < i < |steps| ==> steps[i] == RetireWork(id, false)
    ensures Runs(c, s, steps)
    ensures var highest := if s.shared.retired < epoch.generation then epoch.generation else s.shared.retired;
            After(c, s, steps) ==
              if epoch.session == s.shared.session && epoch.generation <= s.shared.generation
              then s.(shared := s.shared.(retired := highest), returned := s.returned + {epoch}) else s
  {
    var t := Do(c, s, RetireEnter(id, epoch));
    var rest := CallReturns(c, t, id);
    steps := [RetireEnter(id, epoch)] + rest;
    assert steps[1..] == rest && t.calls - {id} == s.calls;
  }
}
