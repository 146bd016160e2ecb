// What every interleaving of the tick, the network callback and the retirement calls keeps: the order
// of the output hooks, the finality of retirement and of faults, and what the failure flag stops.
module DiagnosticRuns {
  import opened Timing
  import opened DiagnosticOwner
  import C = CorrectionSpec
  import R = CorrectionRuns

  // ---- invariant -------------------------------------------------------------------------

  /** Where the tick goes on after a snapshot in progress. */
  function Target(pc: Pc): Pc {
    if pc.Snap? || pc.SnapRetire? then pc.then_ else pc
  }

  /** The worker is that of the last session, and generations only go up within one session. */
  ghost predicate Identity(s: State) {
    && (s.worker.Some? <==> s.sessions != []) && |s.sessions| <= SESSION_CAPACITY
    && (s.active.Some? ==> s.active.value.Valid())
    && (s.worker.Some? ==>
          var epoch := s.worker.value.epoch;
          && epoch == s.sessions[|s.sessions| - 1] && epoch.Valid() && s.active.Some?
          && epoch.session == s.active.value.session && epoch.generation <= s.active.value.generation)
  }

  /** What a retirement call has established about the shared atomics so far. */
  ghost predicate CallInv(shared: Shared, call: Call) {
    && call.epoch.Valid()
    && match call.stage
       case LoadSession => true
       case LoadGeneration => call.epoch.session == shared.session
       case LoadRetired => call.epoch.session == shared.session && call.epoch.generation <= shared.generation
       case Compare(expected) =>
         && call.epoch.session == shared.session && call.epoch.generation <= shared.generation
         && expected <= shared.retired && expected < call.epoch.generation
       case Done(ok) => ok ==> Covers(shared, call.epoch)
  }

  predicate Covers(shared: Shared, epoch: SessionToken) {
    epoch.session == shared.session && epoch.generation <= shared.retired
  }

  ghost predicate SuccessorInv(c: Config, s: State, p: Packet) {
    && s.active == Some(p.epoch)
    && (s.worker.Some? ==> s.worker.value.epoch.session == p.epoch.session && s.worker.value.epoch.generation < p.epoch.generation)
    && (s.worker.Some? && c.hooks ==> c.recovery && !Live(s) && (!s.pc.Snap? ==> s.revoked))
  }

  ghost predicate Place(c: Config, s: State) {
    var t := Target(s.pc);
    && !t.Snap? && !t.SnapRetire?
    && (NeedsWorker(t) ==> s.worker.Some?)
    && (t.Successor? ==> SuccessorInv(c, s, t.packet))
    && (t.PublishSession? || t.PublishGeneration? || t.Feed? ==> t.packet.epoch == s.worker.value.epoch)
    && (s.pc.Snap? || s.pc.SnapRetire? ==> t.Idle? || t.Provider? || t.Deliver? || t.Take? || t.Successor? || t.Fed?)
    && (s.pc.SnapRetire? ==> s.worker.Some? && s.pc.call.epoch == s.worker.value.epoch && CallInv(s.shared, s.pc.call))
  }

  /** The published generation trails the worker, the retired one trails both. */
  ghost predicate Numbers(s: State) {
    && s.shared.retired <= s.shared.generation
    && (s.shared.session == 0 ==> s.shared.generation == 0)
    && (s.shared.session != 0 ==> s.worker.Some? && s.shared.session == s.worker.value.epoch.session)
    && (s.worker.Some? ==> s.shared.generation <= s.worker.value.epoch.generation)
    && (s.worker.Some? && !s.pc.PublishSession? ==> s.shared.session == s.worker.value.epoch.session)
    && (forall id :: id in s.calls ==> CallInv(s.shared, s.calls[id]))
    && (forall epoch :: epoch in s.returned ==> epoch.Valid() && Covers(s.shared, epoch))
  }

  ghost predicate Outputs(c: Config, s: State) {
    && (!c.hooks ==> !s.revoked)
    && (c.hooks ==>
          && Protocol(c.begins, s.log) == Some(Standing(c, s))
          && (s.revoked ==> !Live(s) && (s.worker.None? ==> s.shared.failed)))
  }

  /** The state of the output, as the owner's own fields say it. */
  function Standing(c: Config, s: State): Output {
    if s.revoked then Shut
    else if c.begins && s.worker.Some? then Open(s.worker.value.epoch)
    else Fresh
  }

  ghost predicate Inv(c: Config, s: State) {
    Identity(s) && Place(c, s) && Numbers(s) && Outputs(c, s)
  }

  lemma InitialInv(c: Config)
    ensures Inv(c, INITIAL)
  {
  }

  /** A failure of the owner's own, before it revokes. */
  function Abandoned(s: State): State {
    WithFailed(s).(worker := if s.worker.Some? then Some(Unhealthy(s.worker.value)) else None, pc := Clearing)
  }

  lemma AbandonKeeps(c: Config, s: State)
    requires Inv(c, s) && !s.pc.PublishSession?
    ensures Inv(c, Abandoned(s)) && !Live(Abandoned(s))
  {
    hide Protocol;
  }

  lemma FailKeeps(c: Config, s: State)
    requires Inv(c, s) && !s.pc.PublishSession?
    ensures Inv(c, OwnerFail(c, s)) && !Live(OwnerFail(c, s)) && (c.hooks ==> OwnerFail(c, s).revoked)
  {
    hide Protocol, CallInv;
    AbandonKeeps(c, s);
    var v := Abandoned(s);
    assert OwnerFail(c, s) == WithRevoke(c, v);
    if c.hooks && !s.revoked {
      ProtocolStep(c.begins, s.log, Revoke);
    }
  }

  lemma CallStepKeeps(shared: Shared, call: Call, spurious: bool)
    requires CallInv(shared, call) && shared.retired <= shared.generation
    ensures var (after, next) := CallStep(shared, call, spurious);
            && CallInv(after, next) && next.epoch == call.epoch
            && after == shared.(retired := after.retired)
            && shared.retired <= after.retired <= shared.generation
  {
  }

  /** Raising the retired generation leaves every other call's findings true. */
  lemma RaiseKeeps(shared: Shared, raised: nat, call: Call)
    requires CallInv(shared, call) && shared.retired <= raised
    ensures CallInv(shared.(retired := raised), call)
  {
  }

  lemma RetireKeeps(c: Config, s: State, id: nat, spurious: bool)
    requires Inv(c, s) && id in s.calls
    ensures Inv(c, RetireStep(s, id, spurious))
  {
    hide Protocol;
    var call := s.calls[id];
    CallStepKeeps(s.shared, call, spurious);
    if !call.stage.Done? {
      var raised := CallStep(s.shared, call, spurious).0.retired;
      forall other | other in s.calls
        ensures CallInv(s.shared.(retired := raised), s.calls[other])
      {
        RaiseKeeps(s.shared, raised, s.calls[other]);
      }
      if s.pc.SnapRetire? {
        RaiseKeeps(s.shared, raised, s.pc.call);
      }
    }
  }

  lemma SnapRetireKeeps(c: Config, s: State, spurious: bool)
    requires Inv(c, s) && s.pc.SnapRetire?
    ensures Inv(c, SnapRetireStep(s, s.pc.call, s.pc.then_, spurious))
  {
    hide Protocol;
    if !s.pc.call.stage.Done? {
      CallStepKeeps(s.shared, s.pc.call, spurious);
      var raised := CallStep(s.shared, s.pc.call, spurious).0.retired;
      forall other | other in s.calls
        ensures CallInv(s.shared.(retired := raised), s.calls[other])
      {
        RaiseKeeps(s.shared, raised, s.calls[other]);
      }
    }
  }

  lemma RevokeKeeps(c: Config, s: State)
    requires Inv(c, s) && s.pc.Snap? && s.worker.Some? && !Live(s)
    ensures Inv(c, WithRevoke(c, s)) && (c.hooks ==> WithRevoke(c, s).revoked)
  {
    hide Protocol, CallInv;
    if c.hooks && !s.revoked {
      ProtocolStep(c.begins, s.log, Revoke);
    }
  }

  lemma RevokedMovesOn(c: Config, s: State)
    requires Inv(c, s) && s.pc.Snap? && s.worker.Some? && (c.hooks ==> s.revoked)
    ensures Inv(c, WithFailed(s).(pc := s.pc.then_))
    ensures c.recovery ==> Inv(c, s.(pc := SnapRetire(Call(s.worker.value.epoch, LoadSession), s.pc.then_)))
  {
    hide Protocol;
  }

  lemma QuietMovesOn(c: Config, s: State)
    requires Inv(c, s) && s.pc.Snap? && (s.worker.None? || Live(s) || !c.hooks)
    ensures Inv(c, s.(pc := s.pc.then_))
  {
    hide Protocol;
  }

  lemma SnapKeeps(c: Config, s: State)
    requires Inv(c, s) && s.pc.Snap?
    ensures Inv(c, SnapStep(c, s, s.pc.then_))
  {
    hide Inv;
    if s.worker.None? || Live(s) || !c.hooks {
      QuietMovesOn(c, s);
    } else {
      RevokeKeeps(c, s);
      RevokedMovesOn(c, WithRevoke(c, s));
    }
  }

  lemma SubmitKeeps(c: Config, s: State, id: nat)
    requires Inv(c, s) && id in s.submits
    ensures Inv(c, SubmitStep(s, id))
  {
    hide Protocol;
  }

  lemma TickKeeps(c: Config, s: State, now: Nanoseconds, healthy: bool)
    requires Inv(c, s) && s.pc == Idle
    ensures Inv(c, TickStep(c, s, now, healthy))
  {
    hide Protocol;
    FailKeeps(c, s);
  }

  lemma ExpiryKeeps(c: Config, s: State)
    requires Inv(c, s) && s.pc.Expiry?
    ensures Inv(c, ExpiryStep(s, s.pc.last, s.pc.healthy))
  {
    hide Protocol;
  }

  lemma TakeKeeps(c: Config, s: State)
    requires Inv(c, s) && s.pc.Take?
    ensures Inv(c, TakeStep(s, s.pc.healthy, s.pc.count))
  {
    hide Protocol;
  }

  lemma SkipKeeps(c: Config, s: State)
    requires Inv(c, s) && s.pc.Screen?
    ensures Inv(c, s.(pc := Take(s.pc.healthy, s.pc.count + 1)))
  {
    hide Protocol;
  }

  lemma ScreenKeeps(c: Config, s: State, admits: bool)
    requires Inv(c, s) && s.pc.Screen?
    ensures Inv(c, ScreenStep(c, s, s.pc.healthy, s.pc.count, s.pc.packet, admits))
  {
    hide Protocol, OwnerFail, AdmittedStep, Inv;
    var p := s.pc.packet;
    SkipKeeps(c, s);
    FailKeeps(c, s);
    if Admits(s.active, p.epoch, admits) && !(s.active.Some? && p.epoch.session == s.active.value.session
                                              && p.epoch.generation < s.active.value.generation) {
      AdmittedKeeps(c, s, p);
    }
  }

  lemma AdmittedKeeps(c: Config, s: State, p: Packet)
    requires Inv(c, s) && s.pc.Screen? && Admits(s.active, p.epoch, true)
    ensures Inv(c, AdmittedStep(c, s.(active := Some(p.epoch)), s.pc.healthy, s.pc.count, p))
  {
    hide Inv, OwnerFail;
    ActiveKeeps(c, s, p);
    FailKeeps(c, s.(active := Some(p.epoch)));
    if s.worker.Some? && s.worker.value.epoch == p.epoch {
      CurrentKeeps(c, s.(active := Some(p.epoch)), p);
    } else if !(s.worker.Some? && c.hooks && !c.recovery) {
      RetiringKeeps(c, s, p);
    }
  }

  lemma ActiveKeeps(c: Config, s: State, p: Packet)
    requires Inv(c, s) && s.pc.Screen? && Admits(s.active, p.epoch, true)
    ensures Inv(c, s.(active := Some(p.epoch)))
  {
    hide Protocol;
  }

  lemma CurrentKeeps(c: Config, s: State, p: Packet)
    requires Inv(c, s) && s.pc.Screen? && s.worker.Some? && s.worker.value.epoch == p.epoch
    ensures Inv(c, s.(pc := Feed(s.pc.healthy, s.pc.count, p)))
  {
    hide Protocol;
  }

  /** The old generation is closed for good before its successor is prepared. */
  lemma RetiringKeeps(c: Config, s: State, p: Packet)
    requires Inv(c, s) && s.pc.Screen? && Admits(s.active, p.epoch, true)
    requires s.worker.Some? ==> s.worker.value.epoch != p.epoch && (c.hooks ==> c.recovery)
    ensures Inv(c, s.(active := Some(p.epoch), pc := Snap(Successor(s.pc.healthy, s.pc.count, p)),
                      worker := if s.worker.Some? && c.hooks then Some(Unhealthy(s.worker.value)) else s.worker))
  {
    hide Protocol;
  }

  lemma SuccessorKeeps(c: Config, s: State, opens: bool)
    requires Constructible(c) && Inv(c, s) && s.pc.Successor?
    ensures Inv(c, SuccessorStep(c, s, s.pc.healthy, s.pc.count, s.pc.packet, opens))
  {
    hide OwnerFail, Protocol, Numbers, Place, Outputs;
    if s.shared.failed {
      IdleKeeps(c, s);
    } else if |s.sessions| == SESSION_CAPACITY {
      FailKeeps(c, s);
    } else if c.begins && !opens {
      RefusalKeeps(c, s);
      FailKeeps(c, s.(log := s.log + [Begin(s.pc.packet.epoch, false)]));
    } else {
      OpeningKeeps(c, s);
    }
  }

  lemma IdleKeeps(c: Config, s: State)
    requires Inv(c, s) && s.pc.Successor?
    ensures Inv(c, s.(pc := Idle))
  {
    hide Protocol;
  }

  lemma RefusalKeeps(c: Config, s: State)
    requires Inv(c, s) && s.pc.Successor? && !s.shared.failed
    ensures Inv(c, s.(log := s.log + [Begin(s.pc.packet.epoch, false)]))
  {
    hide Protocol, CallInv;
    if c.hooks {
      ProtocolStep(c.begins, s.log, Begin(s.pc.packet.epoch, false));
    }
  }

  /** The output being begun is always a fresh one or a revoked one. */
  lemma OpeningKeeps(c: Config, s: State)
    requires Constructible(c) && Inv(c, s) && s.pc.Successor? && !s.shared.failed && |s.sessions| < SESSION_CAPACITY
    ensures Inv(c, SuccessorStep(c, s, s.pc.healthy, s.pc.count, s.pc.packet, true))
  {
    hide Protocol, CallInv;
    if c.hooks && c.begins {
      ProtocolStep(c.begins, s.log, Begin(s.pc.packet.epoch, true));
    }
  }

  lemma FeedKeeps(c: Config, s: State, condition: Condition)
    requires Inv(c, s) && s.pc.Feed?
    ensures Inv(c, FeedStep(c, s, s.pc.healthy, s.pc.count, condition))
  {
    hide Protocol;
  }

  lemma ReactKeeps(c: Config, s: State, condition: Condition)
    requires Inv(c, s) && s.pc.Deliver?
    ensures Inv(c, s.(worker := Some(React(s.worker.value, s.pc.healthy, condition))))
  {
    hide Protocol;
  }

  lemma ConsumeKeeps(c: Config, s: State)
    requires Inv(c, s) && s.pc.Deliver? && Live(s)
    ensures Inv(c, s.(log := s.log + [Consume(s.worker.value.epoch)]))
  {
    hide Protocol, CallInv;
    if c.hooks {
      ProtocolStep(c.begins, s.log, Consume(s.worker.value.epoch));
    }
  }

  lemma RestKeeps(c: Config, s: State)
    requires Inv(c, s) && s.pc.Deliver?
    ensures Inv(c, s.(pc := Snap(Idle)))
  {
    hide Protocol;
  }

  lemma DeliversFromAWorker(c: Config, s: State)
    requires Inv(c, s) && s.pc.Deliver?
    ensures s.worker.Some?
  {
  }

  lemma DeliverKeeps(c: Config, s: State, choice: Choice)
    requires Inv(c, s) && s.pc.Deliver?
    ensures Inv(c, DeliverStep(c, s, s.pc.healthy, choice))
  {
    hide Inv, OwnerFail;
    DeliversFromAWorker(c, s);
    var v := s.(worker := Some(React(s.worker.value, s.pc.healthy, choice.condition)));
    ReactKeeps(c, s, choice.condition);
    RestKeeps(c, v);
    FailKeeps(c, v);
    if Live(v) {
      ConsumeKeeps(c, v);
      RestKeeps(c, v.(log := v.log + [Consume(v.worker.value.epoch)]));
      FailKeeps(c, v.(log := v.log + [Consume(v.worker.value.epoch)]));
    }
  }

  lemma WorkKeeps(c: Config, s: State, choice: Choice)
    requires Constructible(c) && Inv(c, s) && Enabled(c, s, Work(choice))
    ensures Inv(c, WorkStep(c, s, choice))
  {
    match s.pc
    case Clearing => PlainKeeps(c, s, choice);
    case Expiry(_, _) => ExpiryKeeps(c, s);
    case Provider(_) => PlainKeeps(c, s, choice);
    case Take(_, _) => TakeKeeps(c, s);
    case Screen(_, _, _) => ScreenKeeps(c, s, choice.admits);
    case Successor(_, _, _) => SuccessorKeeps(c, s, choice.opens);
    case PublishSession(_, _, _) => PublishKeeps(c, s, choice);
    case PublishGeneration(_, _, _) => PublishKeeps(c, s, choice);
    case Feed(_, _, _) => FeedKeeps(c, s, choice.condition);
    case Fed(_, _) => PlainKeeps(c, s, choice);
    case Deliver(_) => DeliverKeeps(c, s, choice);
    case Snap(_) => SnapKeeps(c, s);
    case SnapRetire(_, _) => SnapRetireKeeps(c, s, choice.spurious);
  }

  lemma PlainKeeps(c: Config, s: State, choice: Choice)
    requires Inv(c, s) && (s.pc.Clearing? || s.pc.Provider? || s.pc.Fed?)
    ensures Inv(c, WorkStep(c, s, choice))
  {
    hide Protocol;
  }

  lemma PublishKeeps(c: Config, s: State, choice: Choice)
    requires Inv(c, s) && (s.pc.PublishSession? || s.pc.PublishGeneration?)
    ensures Inv(c, WorkStep(c, s, choice))
  {
    hide Protocol;
  }

  lemma StepKeeps(c: Config, s: State, step: Step)
    requires Constructible(c) && Inv(c, s) && Enabled(c, s, step)
    ensures Inv(c, Do(c, s, step))
  {
    match step
    case SubmitEnter(id, packet) => EnterKeeps(c, s, step);
    case SubmitLeave(id) => SubmitKeeps(c, s, id);
    case RetireEnter(id, epoch) => EnterKeeps(c, s, step);
    case RetireWork(id, spurious) => RetireKeeps(c, s, id, spurious);
    case Tick(now, healthy) => TickKeeps(c, s, now, healthy);
    case Work(choice) => WorkKeeps(c, s, choice);
  }

  lemma EnterKeeps(c: Config, s: State, step: Step)
    requires Inv(c, s) && Enabled(c, s, step) && (step.SubmitEnter? || step.RetireEnter?)
    ensures Inv(c, Do(c, s, step))
  {
    hide Protocol;
  }

  lemma {:induction false} RunKeeps(c: Config, s: State, steps: seq<Step>)
    requires Constructible(c) && Inv(c, s) && Runs(c, s, steps)
    ensures Inv(c, After(c, s, steps))
    decreases |steps|
  {
    hide Inv, Do, Enabled;
    if steps != [] {
      StepKeeps(c, s, steps[0]);
      RunKeeps(c, Do(c, s, steps[0]), steps[1..]);
    }
  }

  /** A state some interleaving reaches. */
  ghost predicate Reached(c: Config, s: State) {
    Constructible(c) && exists steps :: Runs(c, INITIAL, steps) && s == After(c, INITIAL, steps)
  }

  lemma ReachedKeeps(c: Config, s: State)
    requires Reached(c, s)
    ensures Inv(c, s)
  {
    hide Inv, Do, Enabled;
    var steps :| Runs(c, INITIAL, steps) && s == After(c, INITIAL, steps);
    InitialInv(c);
    RunKeeps(c, INITIAL, steps);
  }

  // ---- the order of the output hooks ---------------------------------------------------------

  /**
   * In every run, a successful begin lies between any revoke and any later consume, and between
   * any two revokes.  Without a begin hook there is therefore one revoke at most, and nothing after it.
   */
  lemma HookOrder(c: Config, s: State, i: nat, j: nat)
    requires Reached(c, s) && c.hooks && i < j < |s.log|
    requires s.log[i] == Revoke && (s.log[j] == Revoke || s.log[j].Consume?)
    ensures exists k :: i < k < j && s.log[k].Begin? && s.log[k].ok
  {
    ReachedKeeps(c, s);
    BeginBetween(c.begins, s.log, i, j);
  }

  /** Only a begin opens an output, and only a consume of its own generation leaves it open. */
  lemma LeavesOpen(output: Output, e: Event, epoch: SessionToken)
    requires Told(true, output, e) == Some(Open(epoch))
    ensures e == Begin(epoch, true) || (e == Consume(epoch) && output == Open(epoch))
  {
  }

  /** An open output was begun for the generation it carries, and nothing has closed it since. */
  lemma {:induction false} OpenedBy(log: seq<Event>, j: nat, epoch: SessionToken) returns (k: nat)
    requires j <= |log| && Protocol(true, log).Some? && Protocol(true, log[..j]) == Some(Open(epoch))
    ensures k < j && log[k] == Begin(epoch, true) && forall m :: k < m < j ==> log[m] == Consume(epoch)
    decreases j
  {
    hide Told;
    assert j > 0;
    ProtocolPrefix(true, log, j - 1);
    assert log[..j] == log[..j - 1] + [log[j - 1]];
    ProtocolStep(true, log[..j - 1], log[j - 1]);
    hide Protocol;
    LeavesOpen(Protocol(true, log[..j - 1]).value, log[j - 1], epoch);
    if log[j - 1].Begin? {
      k := j - 1;
    } else {
      k := OpenedBy(log, j - 1, epoch);
    }
  }

  /** Every block goes to an output begun for exactly its generation and not closed since. */
  lemma ConsumedInItsOwnOutput(c: Config, s: State, j: nat) returns (k: nat)
    requires Reached(c, s) && c.hooks && c.begins && j < |s.log| && s.log[j].Consume?
    ensures k < j && s.log[k] == Begin(s.log[j].epoch, true)
    ensures forall m :: k < m < j ==> s.log[m] == Consume(s.log[j].epoch)
  {
    ReachedKeeps(c, s);
    ProtocolPrefix(true, s.log, j);
    ProtocolPrefix(true, s.log, j + 1);
    assert s.log[..j + 1] == s.log[..j] + [s.log[j]];
    ProtocolStep(true, s.log[..j], s.log[j]);
    k := OpenedBy(s.log, j, s.log[j].epoch);
  }

  // ---- what one step of the tick does to the log, the flag and the worker --------------------------

  /** The bridge has failed, and either no tick is under way or no live worker is left to it. */
  predicate Stopped(s: State) {
    s.shared.failed && (Target(s.pc).Idle? || !Live(s))
  }

  /** A step logs at most one consume, and only by delivering from the live worker it started with. */
  ghost predicate LogEffect(s: State, t: State) {
    && s.log <= t.log
    && forall i :: |s.log| <= i < |t.log| && t.log[i].Consume? ==>
         i == |s.log| && s.pc.Deliver? && Live(s) && t.log[i].epoch == s.worker.value.epoch && (Target(t.pc).Idle? || !Live(t))
  }

  /** The flag is never taken back, raising it leaves no live worker, and no new one starts under it. */
  ghost predicate FlagEffect(s: State, t: State) {
    && (s.shared.failed ==> t.shared.failed)
    && (t.shared.failed && Live(t) ==> s.shared.failed && Live(s))
    && (Stopped(s) ==> Stopped(t))
  }

  /** The worker changes only when a successor is opened, the published session only when it is published. */
  ghost predicate IdentityEffect(s: State, t: State) {
    && (s.worker.Some? ==>
          && t.worker.Some?
          && (t.worker.value.epoch == s.worker.value.epoch || (s.pc.Successor? && t.worker.value.epoch == s.pc.packet.epoch)))
    && (s.shared.session == t.shared.session || (s.pc.PublishSession? && t.shared.session == s.pc.packet.epoch.session))
  }

  ghost predicate Effect(s: State, t: State) {
    LogEffect(s, t) && FlagEffect(s, t) && IdentityEffect(s, t)
  }

  lemma FailEffect(c: Config, s: State)
    ensures Effect(s, OwnerFail(c, s))
  {
  }

  lemma ScreenEffect(c: Config, s: State, admits: bool)
    requires s.pc.Screen?
    ensures Effect(s, ScreenStep(c, s, s.pc.healthy, s.pc.count, s.pc.packet, admits))
  {
    hide OwnerFail;
    FailEffect(c, s);
    FailEffect(c, s.(active := Some(s.pc.packet.epoch)));
  }

  lemma SuccessorEffect(c: Config, s: State, opens: bool)
    requires s.pc.Successor?
    ensures Effect(s, SuccessorStep(c, s, s.pc.healthy, s.pc.count, s.pc.packet, opens))
  {
    hide OwnerFail;
    FailEffect(c, s);
    FailEffect(c, s.(log := s.log + [Begin(s.pc.packet.epoch, false)]));
  }

  lemma DeliverEffect(c: Config, s: State, choice: Choice)
    requires s.pc.Deliver? && s.worker.Some?
    ensures Effect(s, DeliverStep(c, s, s.pc.healthy, choice))
  {
  }

  lemma SnapEffect(c: Config, s: State)
    requires s.pc.Snap?
    ensures Effect(s, SnapStep(c, s, s.pc.then_))
  {
  }

  lemma WorkEffect(c: Config, s: State, choice: Choice)
    requires Inv(c, s) && Enabled(c, s, Work(choice))
    ensures Effect(s, WorkStep(c, s, choice))
  {
    hide Inv, OwnerFail, DeliverStep, SnapStep, SuccessorStep, ScreenStep, CallStep;
    match s.pc
    case Screen(h, n, p) => ScreenEffect(c, s, choice.admits);
    case Successor(h, n, p) => SuccessorEffect(c, s, choice.opens);
    case Deliver(h) => DeliverEffect(c, s, choice);
    case Snap(t) => SnapEffect(c, s);
    case SnapRetire(call, t) => SnapRetireEffect(c, s, choice.spurious);
    case _ => PlainEffect(c, s, choice);
  }

  lemma PlainEffect(c: Config, s: State, choice: Choice)
    requires Enabled(c, s, Work(choice))
    requires !s.pc.Screen? && !s.pc.Successor? && !s.pc.Deliver? && !s.pc.Snap? && !s.pc.SnapRetire?
    ensures Effect(s, WorkStep(c, s, choice))
  {
    hide DeliverStep, SnapStep, SuccessorStep, ScreenStep, SnapRetireStep;
  }

  lemma SnapRetireEffect(c: Config, s: State, spurious: bool)
    requires Inv(c, s) && s.pc.SnapRetire?
    ensures Effect(s, SnapRetireStep(s, s.pc.call, s.pc.then_, spurious))
  {
    hide Protocol;
    CallStepKeeps(s.shared, s.pc.call, spurious);
  }

  /** The same of any step, but for the callback's failure, which leaves the tick as it is. */
  lemma StepEffect(c: Config, s: State, step: Step)
    requires Inv(c, s) && Enabled(c, s, step)
    ensures LogEffect(s, Do(c, s, step)) && (s.shared.failed ==> Do(c, s, step).shared.failed)
    ensures step.Work? || step.Tick? ==> FlagEffect(s, Do(c, s, step)) && IdentityEffect(s, Do(c, s, step))
    ensures var t := Do(c, s, step);
            !step.Work? && !step.Tick? ==>
              t.pc == s.pc && t.worker == s.worker && t.log == s.log && t.shared.session == s.shared.session
  {
    match step
    case Work(choice) => WorkEffect(c, s, choice);
    case Tick(now, healthy) => TickEffect(c, s, now, healthy);
    case SubmitEnter(id, packet) =>
    case SubmitLeave(id) =>
    case RetireEnter(id, epoch) =>
    case RetireWork(id, spurious) => RetireEffect(c, s, id, spurious);
  }

  lemma TickEffect(c: Config, s: State, now: Nanoseconds, healthy: bool)
    requires s.pc == Idle
    ensures Effect(s, TickStep(c, s, now, healthy))
  {
    hide OwnerFail;
    FailEffect(c, s);
  }

  lemma RetireEffect(c: Config, s: State, id: nat, spurious: bool)
    requires Inv(c, s) && id in s.calls
    ensures RetireStep(s, id, spurious).shared.failed == s.shared.failed
    ensures RetireStep(s, id, spurious).pc == s.pc && RetireStep(s, id, spurious).worker == s.worker
    ensures RetireStep(s, id, spurious).log == s.log && RetireStep(s, id, spurious).shared.session == s.shared.session
  {
    hide Protocol;
    CallStepKeeps(s.shared, s.calls[id], spurious);
  }

  // ---- retirement and faults are final -------------------------------------------------------

  /** From a to b, every block handed on is of a generation above g. */
  ghost predicate OnlyAbove(a: State, b: State, g: nat) {
    a.log <= b.log && forall i :: |a.log| <= i < |b.log| && b.log[i].Consume? ==> b.log[i].epoch.generation > g
  }

  /** Generation g is retired, and no tick under way can still be delivering it. */
  ghost predicate Barred(s: State, g: nat) {
    && g <= s.shared.retired && s.shared.session != 0
    && (Live(s) && s.worker.value.epoch.generation <= g ==> Target(s.pc).Idle? || (s.pc.Expiry? && !s.pc.last))
    && (Target(s.pc).Successor? ==> Target(s.pc).packet.epoch.generation > g)
  }

  /** Generation g has faulted, or has been succeeded. */
  ghost predicate Dead(s: State, g: nat) {
    s.worker.Some? && s.worker.value.epoch.generation >= g && (Live(s) ==> s.worker.value.epoch.generation > g)
  }

  ghost predicate Gone(dead: bool, s: State, g: nat) {
    if dead then Dead(s, g) else Barred(s, g)
  }

  lemma GoneWork(dead: bool, c: Config, s: State, choice: Choice, g: nat)
    requires Inv(c, s) && Gone(dead, s, g) && Enabled(c, s, Work(choice))
    ensures Gone(dead, WorkStep(c, s, choice), g)
  {
    hide Inv, Gone, DeliverStep, SnapStep, SuccessorStep, ScreenStep, SnapRetireStep;
    match s.pc
    case Screen(h, n, p) => GoneScreen(dead, c, s, choice.admits, g);
    case Successor(h, n, p) => GoneSuccessor(dead, c, s, choice.opens, g);
    case Deliver(h) => GoneDeliver(dead, c, s, choice, g);
    case Snap(t) => GoneSnap(dead, c, s, g);
    case SnapRetire(call, t) => GoneSnapRetire(dead, c, s, choice.spurious, g);
    case _ =>
      if s.pc.PublishSession? || s.pc.PublishGeneration? || s.pc.Feed? || s.pc.Fed? {
        GoneFeeding(dead, c, s, choice, g);
      } else {
        GoneTaking(dead, c, s, choice, g);
      }
  }

  lemma GoneTaking(dead: bool, c: Config, s: State, choice: Choice, g: nat)
    requires Inv(c, s) && Gone(dead, s, g) && Enabled(c, s, Work(choice))
    requires s.pc.Idle? || s.pc.Clearing? || s.pc.Expiry? || s.pc.Provider? || s.pc.Take?
    ensures Gone(dead, WorkStep(c, s, choice), g)
  {
    hide Outputs, CallInv;
  }

  lemma GoneFeeding(dead: bool, c: Config, s: State, choice: Choice, g: nat)
    requires Inv(c, s) && Gone(dead, s, g) && Enabled(c, s, Work(choice))
    requires s.pc.PublishSession? || s.pc.PublishGeneration? || s.pc.Feed? || s.pc.Fed?
    ensures Gone(dead, WorkStep(c, s, choice), g)
  {
    hide Outputs, CallInv;
  }


  lemma GoneSnapRetire(dead: bool, c: Config, s: State, spurious: bool, g: nat)
    requires Inv(c, s) && Gone(dead, s, g) && s.pc.SnapRetire?
    ensures Gone(dead, SnapRetireStep(s, s.pc.call, s.pc.then_, spurious), g)
  {
    hide Protocol, CallStep;
    CallStepKeeps(s.shared, s.pc.call, spurious);
  }

  lemma GoneFail(dead: bool, c: Config, s: State, g: nat)
    requires Gone(dead, s, g)
    ensures Gone(dead, OwnerFail(c, s), g)
  {
  }

  lemma GoneSkip(dead: bool, s: State, g: nat)
    requires Gone(dead, s, g) && s.pc.Screen?
    ensures Gone(dead, s.(pc := Take(s.pc.healthy, s.pc.count + 1)), g)
  {
  }

  lemma GoneScreen(dead: bool, c: Config, s: State, admits: bool, g: nat)
    requires Inv(c, s) && Gone(dead, s, g) && s.pc.Screen?
    ensures Gone(dead, ScreenStep(c, s, s.pc.healthy, s.pc.count, s.pc.packet, admits), g)
  {
    hide Protocol, OwnerFail, AdmittedStep, Gone;
    var p := s.pc.packet;
    GoneFail(dead, c, s, g);
    GoneSkip(dead, s, g);
    if !Retired(s.shared, p.epoch) && Admits(s.active, p.epoch, admits) {
      GoneAdmitted(dead, c, s, p, g);
    }
  }

  lemma GoneAdmitted(dead: bool, c: Config, s: State, p: Packet, g: nat)
    requires Inv(c, s) && Gone(dead, s, g) && s.pc.Screen?
    requires !Retired(s.shared, p.epoch) && Admits(s.active, p.epoch, true)
    ensures Gone(dead, AdmittedStep(c, s.(active := Some(p.epoch)), s.pc.healthy, s.pc.count, p), g)
  {
    hide Protocol, OwnerFail;
    GoneFail(dead, c, s.(active := Some(p.epoch)), g);
  }

  lemma GoneSuccessor(dead: bool, c: Config, s: State, opens: bool, g: nat)
    requires Inv(c, s) && Gone(dead, s, g) && s.pc.Successor?
    ensures Gone(dead, SuccessorStep(c, s, s.pc.healthy, s.pc.count, s.pc.packet, opens), g)
  {
    hide Protocol, OwnerFail;
    GoneFail(dead, c, s, g);
    GoneFail(dead, c, s.(log := s.log + [Begin(s.pc.packet.epoch, false)]), g);
  }

  lemma GoneDeliver(dead: bool, c: Config, s: State, choice: Choice, g: nat)
    requires Inv(c, s) && Gone(dead, s, g) && s.pc.Deliver?
    ensures Gone(dead, DeliverStep(c, s, s.pc.healthy, choice), g)
  {
    hide Protocol;
  }

  lemma GoneSnap(dead: bool, c: Config, s: State, g: nat)
    requires Inv(c, s) && Gone(dead, s, g) && s.pc.Snap?
    ensures Gone(dead, SnapStep(c, s, s.pc.then_), g)
  {
    hide Protocol;
  }

  lemma GoneStep(dead: bool, c: Config, s: State, step: Step, g: nat)
    requires Inv(c, s) && Gone(dead, s, g) && Enabled(c, s, step)
    ensures Gone(dead, Do(c, s, step), g) && OnlyAbove(s, Do(c, s, step), g)
  {
    hide Protocol, WorkStep, CallStep, OwnerFail;
    StepEffect(c, s, step);
    match step
    case Work(choice) => GoneWork(dead, c, s, choice, g);
    case RetireWork(id, spurious) => CallStepKeeps(s.shared, s.calls[id], spurious);
    case Tick(now, healthy) => GoneFail(dead, c, s, g);
    case _ =>
  }

  lemma {:induction false} GoneForGood(dead: bool, c: Config, s: State, steps: seq<Step>, g: nat)
    requires Constructible(c) && Inv(c, s) && Gone(dead, s, g) && Runs(c, s, steps)
    ensures Gone(dead, After(c, s, steps), g) && OnlyAbove(s, After(c, s, steps), g)
    decreases |steps|
  {
    hide Inv, Do, Enabled, Gone;
    if steps != [] {
      var t := Do(c, s, steps[0]);
      StepKeeps(c, s, steps[0]);
      GoneStep(dead, c, s, steps[0], g);
      GoneForGood(dead, c, t, steps[1..], g);
    }
  }

  /**
   * Retirement is final: once a retirement of an epoch has returned true, every block handed on by
   * a tick that starts later is of a higher generation of the same session, whatever else runs.
   */
  lemma RetirementIsFinal(c: Config, s: State, epoch: SessionToken, steps: seq<Step>)
    requires Reached(c, s) && s.pc == Idle && epoch in s.returned && Runs(c, s, steps)
    ensures OnlyAbove(s, After(c, s, steps), epoch.generation)
    ensures Covers(After(c, s, steps).shared, epoch) && s.shared.retired <= After(c, s, steps).shared.retired
  {
    hide Do, Enabled;
    ReachedKeeps(c, s);
    GoneForGood(false, c, s, steps, epoch.generation);
    GoneForGood(false, c, s, steps, s.shared.retired);
    SessionStays(c, s, steps);
  }

  lemma {:induction false} SessionStays(c: Config, s: State, steps: seq<Step>)
    requires Constructible(c) && Inv(c, s) && Runs(c, s, steps) && s.shared.session != 0
    ensures After(c, s, steps).shared.session == s.shared.session
    decreases |steps|
  {
    if steps != [] {
      StepKeeps(c, s, steps[0]);
      SessionStep(c, s, steps[0]);
      SessionStays(c, Do(c, s, steps[0]), steps[1..]);
    }
  }

  lemma SessionStep(c: Config, s: State, step: Step)
    requires Inv(c, s) && Enabled(c, s, step) && s.shared.session != 0
    ensures Do(c, s, step).shared.session == s.shared.session
  {
    hide Protocol, Do, Enabled, Outputs;
    StepEffect(c, s, step);
  }

  /** A generation that has faulted is never revived: no run delivers from it or from an older one again. */
  lemma FaultedNeverRevived(c: Config, s: State, steps: seq<Step>)
    requires Reached(c, s) && s.worker.Some? && !Live(s) && Runs(c, s, steps)
    ensures var g := s.worker.value.epoch.generation; var t := After(c, s, steps);
            && OnlyAbove(s, t, g)
            && t.worker.Some? && t.worker.value.epoch.generation >= g
            && (Live(t) ==> t.worker.value.epoch.generation > g)
  {
    hide Do, Enabled;
    ReachedKeeps(c, s);
    GoneForGood(true, c, s, steps, s.worker.value.epoch.generation);
  }

  // ---- what the failure flag stops -----------------------------------------------------------

  ghost predicate NothingConsumed(a: State, b: State) {
    a.log <= b.log && forall i :: |a.log| <= i < |b.log| ==> !b.log[i].Consume?
  }

  lemma StoppedStep(c: Config, s: State, step: Step)
    requires Inv(c, s) && Stopped(s) && Enabled(c, s, step)
    ensures Stopped(Do(c, s, step)) && NothingConsumed(s, Do(c, s, step))
  {
    hide Inv, Do, Enabled;
    StepEffect(c, s, step);
    if Target(s.pc).Idle? {
      assert !s.pc.Deliver?;
    }
  }

  lemma {:induction false} StoppedForGood(c: Config, s: State, steps: seq<Step>)
    requires Constructible(c) && Inv(c, s) && Stopped(s) && Runs(c, s, steps)
    ensures NothingConsumed(s, After(c, s, steps))
    decreases |steps|
  {
    hide Inv, Do, Enabled, Stopped;
    if steps != [] {
      StepKeeps(c, s, steps[0]);
      StoppedStep(c, s, steps[0]);
      StoppedForGood(c, Do(c, s, steps[0]), steps[1..]);
    }
  }

  /** The owner's own failures leave no live worker, and between two ticks nothing is under way. */
  lemma OwnerStops(c: Config, s: State, step: Step)
    requires Inv(c, s) && Enabled(c, s, step) && !s.shared.failed && Do(c, s, step).shared.failed
    requires step.Tick? || step.Work? || s.pc == Idle
    ensures Stopped(Do(c, s, step))
  {
    hide Inv, Do, Enabled;
    StepEffect(c, s, step);
  }

  /** A block that slips through a failure set by the network callback is the last one. */
  lemma {:induction false} FailureLetsOneThrough(c: Config, s: State, steps: seq<Step>, i: nat, j: nat)
    requires Constructible(c) && Inv(c, s) && s.shared.failed && Runs(c, s, steps)
    requires |s.log| <= i < j < |After(c, s, steps).log|
    ensures !(After(c, s, steps).log[i].Consume? && After(c, s, steps).log[j].Consume?)
    decreases |steps|
  {
    var t := Do(c, s, steps[0]);
    StepKeeps(c, s, steps[0]);
    FailedStep(c, s, steps[0]);
    LogGrows(c, t, steps[1..]);
    if i < |t.log| && t.log[i].Consume? {
      StoppedForGood(c, t, steps[1..]);
    } else if i >= |t.log| {
      FailureLetsOneThrough(c, t, steps[1..], i, j);
    }
  }

  lemma FailedStep(c: Config, s: State, step: Step)
    requires Inv(c, s) && s.shared.failed && Enabled(c, s, step)
    ensures var t := Do(c, s, step);
            && t.shared.failed && s.log <= t.log
            && forall i :: |s.log| <= i < |t.log| && t.log[i].Consume? ==>
                 Stopped(t) && forall j :: i < j < |t.log| ==> !t.log[j].Consume?
  {
    hide Inv, Do, Enabled;
    StepEffect(c, s, step);
  }

  lemma {:induction false} LogGrows(c: Config, s: State, steps: seq<Step>)
    requires Constructible(c) && Inv(c, s) && Runs(c, s, steps)
    ensures s.log <= After(c, s, steps).log
    decreases |steps|
  {
    hide Inv, Do, Enabled;
    if steps != [] {
      StepKeeps(c, s, steps[0]);
      StepEffect(c, s, steps[0]);
      LogGrows(c, Do(c, s, steps[0]), steps[1..]);
    }
  }

  // ---- a block after the failure -------------------------------------------------------------

  const PACKET: Packet := Packet(SessionToken(1, 1), 0)

  /** Nothing goes wrong: the packet is admitted, the worker stays well, a block comes out and is taken. */
  const SMOOTH: Choice := Choice(true, true, Well, true, true, true, false)

  /** Output hooks without recovery, as the program runs them by default. */
  const DEFAULT: Config := Config(false, true, false)

  const W: Step := Work(SMOOTH)

  /** One packet arrives, the tick takes it, opens its generation, feeds it and comes to deliver. */
  const ARRIVAL: seq<Step> := [SubmitEnter(0, Some(PACKET)), SubmitLeave(0), Tick(0, true), W, W, W]
  const OPENING: seq<Step> := [W, W, W, W, W]
  const FEEDING: seq<Step> := [W, W, W, W, W]

  /** Then the callback submits a malformed packet. */
  const SPOILING: seq<Step> := [SubmitEnter(0, None), SubmitLeave(0)]

  function Screening(): State {
    INITIAL.(now := Some(0), pc := Screen(true, 0, PACKET))
  }

  function Opened(): State {
    INITIAL.(now := Some(0), active := Some(PACKET.epoch), sessions := [PACKET.epoch],
             worker := Some(Worker(PACKET.epoch, Well)), shared := Shared(false, [], 1, 1, 0), pc := Feed(true, 0, PACKET))
  }

  function Spoiled(): State {
    Opened().(pc := Deliver(true), shared := Shared(true, [], 1, 1, 0))
  }

  /** A run given by its states is a run. */
  lemma {:induction false} Chain(c: Config, states: seq<State>, steps: seq<Step>)
    requires |states| == |steps| + 1
    requires forall i :: 0 <= i < |steps| ==> Enabled(c, states[i], steps[i]) && Do(c, states[i], steps[i]) == states[i + 1]
    ensures Runs(c, states[0], steps) && After(c, states[0], steps) == states[|steps|]
    decreases |steps|
  {
    hide Do, Enabled;
    if steps != [] {
      assert Do(c, states[0], steps[0]) == states[1];
      Chain(c, states[1..], steps[1..]);
    }
  }

  lemma FiveSteps(c: Config, s: State, s1: State, s2: State, s3: State, s4: State, t: State, first: Step, other: Step)
    requires Enabled(c, s, first) && Do(c, s, first) == s1 && Enabled(c, s1, other) && Do(c, s1, other) == s2
    requires Enabled(c, s2, other) && Do(c, s2, other) == s3 && Enabled(c, s3, other) && Do(c, s3, other) == s4
    requires Enabled(c, s4, other) && Do(c, s4, other) == t
    ensures var steps := [first, other, other, other, other]; Runs(c, s, steps) && After(c, s, steps) == t
  {
    hide Do, Enabled;
    Chain(c, [s, s1, s2, s3, s4, t], [first, other, other, other, other]);
  }

  lemma {:induction false} Concatenate(c: Config, s: State, a: seq<Step>, b: seq<Step>)
    requires Runs(c, s, a) && Runs(c, After(c, s, a), b)
    ensures Runs(c, s, a + b) && After(c, s, a + b) == After(c, After(c, s, a), b)
    decreases |a|
  {
    hide Do, Enabled;
    if a == [] {
      assert a + b == b;
    } else {
      assert (a + b)[0] == a[0] && (a + b)[1..] == a[1..] + b;
      Concatenate(c, Do(c, s, a[0]), a[1..], b);
    }
  }

  lemma ArrivalRuns(c: Config)
    ensures Runs(c, INITIAL, ARRIVAL) && After(c, INITIAL, ARRIVAL) == Screening()
  {
    var s1 := INITIAL.(submits := map[0 := Some(PACKET)]);
    var s2 := INITIAL.(shared := Shared(false, [PACKET], 0, 0, 0));
    assert Do(c, s1, ARRIVAL[1]) == s2 by {
      assert s1.submits - {0} == map[];
    }
    var s3 := s2.(now := Some(0), pc := Expiry(false, true));
    var s5 := s3.(pc := Take(true, 0));
    Chain(c, [INITIAL, s1, s2, s3, s3.(pc := Provider(true)), s5, Screening()], ARRIVAL);
  }

  lemma OpeningRuns()
    ensures Runs(DEFAULT, Screening(), OPENING) && After(DEFAULT, Screening(), OPENING) == Opened()
  {
    var s1 := Screening().(active := Some(PACKET.epoch), pc := Snap(Successor(true, 0, PACKET)));
    var s3 := Opened().(shared := INITIAL.shared, pc := PublishSession(true, 0, PACKET));
    var s4 := Opened().(shared := Shared(false, [], 1, 0, 0), pc := PublishGeneration(true, 0, PACKET));
    FiveSteps(DEFAULT, Screening(), s1, s1.(pc := Successor(true, 0, PACKET)), s3, s4, Opened(), W, W);
  }

  lemma FeedingRuns()
    ensures Runs(DEFAULT, Opened(), FEEDING) && After(DEFAULT, Opened(), FEEDING) == Opened().(pc := Deliver(true))
  {
    var s := Opened();
    FiveSteps(DEFAULT, s, s.(pc := Snap(Fed(true, 0))), s.(pc := Fed(true, 0)), s.(pc := Take(true, 1)),
              s.(pc := Expiry(true, true)), s.(pc := Deliver(true)), W, W);
  }

  lemma SpoilingRuns()
    ensures Runs(DEFAULT, Opened().(pc := Deliver(true)), SPOILING)
    ensures After(DEFAULT, Opened().(pc := Deliver(true)), SPOILING) == Spoiled()
  {
    var s := Opened().(pc := Deliver(true));
    var s1 := s.(submits := map[0 := None]);
    assert s1.submits - {0} == map[];
    Chain(DEFAULT, [s, s1, Spoiled()], SPOILING);
  }

  /**
   * The flag alone does not stop the tick under way: in a reachable state it is set, nothing has
   * been handed on, and the next step of the tick hands on a block.
   */
  lemma LateFailureSlips()
    ensures Reached(DEFAULT, Spoiled()) && Spoiled().shared.failed && Spoiled().log == []
    ensures Enabled(DEFAULT, Spoiled(), W) && Do(DEFAULT, Spoiled(), W).log == [Consume(PACKET.epoch)]
  {
    ArrivalRuns(DEFAULT);
    OpeningRuns();
    FeedingRuns();
    SpoilingRuns();
    hide Runs, After;
    Concatenate(DEFAULT, INITIAL, ARRIVAL, OPENING);
    Concatenate(DEFAULT, INITIAL, ARRIVAL + OPENING, FEEDING);
    Concatenate(DEFAULT, INITIAL, ARRIVAL + OPENING + FEEDING, SPOILING);
  }

  // ---- the worker this stands for ------------------------------------------------------------

  /** What the owner sees of a correction worker. */
  function Seen(w: C.Worker): Worker {
    Worker(w.epoch,
           if w.state != C.Faulted then Well
           else Broken(w.fault, if w.fault == C.Stale then w.diagnostics.staleReason else C.NotStale))
  }

  lemma PushEpoch(w: C.Worker, record: C.AudioRecord, frames: seq<C.Frame>, now: Nanoseconds, verdict: C.Verdict,
                  backendReset: bool)
    requires C.Sound(w)
    ensures C.PushAccepted(w, record, frames, now, verdict, backendReset).1.epoch == w.epoch
  {
  }

  lemma QuantumEpoch(w: C.Worker, reply: C.Reply, now: Nanoseconds)
    requires C.Sound(w) && w.origin.Some? && |w.input| >= C.INPUT_OFFER
    ensures C.Quantum(w, reply, now).1.epoch == w.epoch
  {
    hide C.QuantumGate, C.NextCommand;
  }

  lemma {:induction false} QuantaEpoch(w: C.Worker, call: nat, replies: seq<C.Reply>, now: Nanoseconds)
    requires C.Sound(w) && w.origin.Some? && call <= C.MAX_CALLS
    ensures C.Quanta(w, call, replies, now).1.epoch == w.epoch
    decreases C.MAX_CALLS - call
  {
    hide C.Sound, C.Quantum;
    if call < C.MAX_CALLS && C.RoomForQuantum(|w.input|, |w.output|) {
      var (outcome, v) := C.Quantum(w, C.ReplyTo(replies, call), now);
      QuantumEpoch(w, C.ReplyTo(replies, call), now);
      if outcome == C.Progresses {
        C.QuantumSound(w, C.ReplyTo(replies, call), now);
        QuantaEpoch(v, call + 1, replies, now);
      }
    }
  }

  lemma HealthReacts(w: C.Worker, now: Nanoseconds, healthy: bool)
    ensures var (well, h) := C.CheckHealth(w, now, healthy);
            && h.epoch == w.epoch && (w.state == C.Faulted ==> !well && h == w)
            && (w.state != C.Faulted && !healthy ==> !well && h.state == C.Faulted && h.fault == C.Health)
            && (well ==> h.state == w.state && h.state != C.Faulted)
  {
  }

  lemma InvSound(w: C.Worker, capture: Option<Nanoseconds>)
    requires R.Inv(w)
    ensures C.Sound(w.(latestCapture := capture)) && (w.state == C.Running ==> w.origin.Some?)
  {
  }

  lemma DispatchEpoch(w: C.Worker, now: Nanoseconds, healthy: bool, replies: seq<C.Reply>)
    requires R.Inv(w)
    ensures C.Dispatch(w, now, healthy, replies).1.epoch == w.epoch
  {
    hide C.Quanta, C.CheckHealth, R.Inv, C.Sound;
    HealthReacts(w, now, healthy);
    R.CheckHealthKeeps(w, now, healthy);
    var h := C.CheckHealth(w, now, healthy).1;
    if h.state == C.Running {
      InvSound(h, h.latestCapture);
      QuantaEpoch(h, 0, replies, now);
    }
  }

  lemma PushReacts(w: C.Worker, record: C.AudioRecord, ssrc: u32, stereo: seq<C.Sample>, now: Nanoseconds, healthy: bool,
                   verdict: C.Verdict, backendReset: bool)
    requires R.Inv(w) && record.epoch == w.epoch
    ensures var v := C.Push(w, record, ssrc, stereo, now, healthy, verdict, backendReset).1;
            v.epoch == w.epoch && (!C.CheckHealth(w, now, healthy).0 ==> v == C.CheckHealth(w, now, healthy).1)
  {
    hide C.CheckHealth, C.PushAccepted, C.Sound, R.Inv;
    HealthReacts(w, now, healthy);
    R.CheckHealthKeeps(w, now, healthy);
    var (well, h) := C.CheckHealth(w, now, healthy);
    var v := if verdict.accepted then h.(latestCapture := Some(record.capture)) else h;
    if well {
      InvSound(h, v.latestCapture);
      PushEpoch(v, record, C.Frames(stereo), now, verdict, backendReset);
    }
  }

  /**
   * A correction worker answers as React says: every call leaves a latched fault alone, an unhealthy
   * call latches one, and a block comes out only of a worker without one.
   */
  lemma WorkerReacts(w: C.Worker, e: R.Event)
    requires R.Inv(w) && !e.ResetEvent? && (e.PushEvent? ==> e.record.epoch == w.epoch)
    ensures Seen(R.Step(w, e)) == React(Seen(w), e.healthy, Seen(R.Step(w, e)).condition)
    ensures e.PullEvent? && C.Pull(w, e.samples, e.now, e.healthy).0.block.Some? ==> Seen(R.Step(w, e)).condition == Well
  {
    hide C.CheckHealth, C.Push, C.Quanta, C.Sound, R.Inv;
    HealthReacts(w, e.now, e.healthy);
    match e
    case PushEvent(record, ssrc, stereo, now, healthy, verdict, backendReset) =>
      PushReacts(w, record, ssrc, stereo, now, healthy, verdict, backendReset);
    case DispatchEvent(now, healthy, replies) => DispatchEpoch(w, now, healthy, replies);
    case PullEvent(samples, now, healthy) =>
  }
}
