// Exactly when the failure flag is final: which ticks under way may still deliver one more block
// (src/audio/audio_diagnostic.cpp).
module DiagnosticFailure {
  import opened Timing
  import opened DiagnosticOwner
  import opened DiagnosticRuns

  // ---- what a live worker tells about the rest of the state ----------------------------------

  /**
   * A live worker carries the admitted epoch, its generation is published, and no snapshot of it is
   * about to go on taking packets.  Without recovery nothing is ever retired.
   */
  ghost predicate Current(c: Config, s: State) {
    && (!c.recovery ==> s.calls == map[] && s.shared.retired == 0 && !s.pc.SnapRetire?)
    && (s.worker.Some? && !s.pc.PublishSession? && !s.pc.PublishGeneration? ==>
          s.shared.generation == s.worker.value.epoch.generation)
    && (c.hooks && Live(s) ==>
          && s.active == Some(s.worker.value.epoch) && !s.pc.SnapRetire?
          && (s.pc.Snap? ==> s.pc.then_.Idle? || s.pc.then_.Fed?))
  }

  lemma InitialCurrent(c: Config)
    ensures Current(c, INITIAL)
  {
  }

  lemma FailCurrent(c: Config, s: State)
    requires Current(c, s) && !s.pc.PublishSession? && !s.pc.PublishGeneration?
    ensures Current(c, OwnerFail(c, s)) && !Live(OwnerFail(c, s))
  {
  }

  lemma ScreenCurrent(c: Config, s: State, admits: bool)
    requires Inv(c, s) && Current(c, s) && s.pc.Screen?
    ensures Current(c, ScreenStep(c, s, s.pc.healthy, s.pc.count, s.pc.packet, admits))
  {
    hide Inv, OwnerFail, AdmittedStep;
    FailCurrent(c, s);
    AdmittedCurrent(c, s, s.pc.packet);
  }

  lemma AdmittedCurrent(c: Config, s: State, p: Packet)
    requires Current(c, s) && s.pc.Screen?
    ensures Current(c, AdmittedStep(c, s.(active := Some(p.epoch)), s.pc.healthy, s.pc.count, p))
  {
  }

  lemma SuccessorCurrent(c: Config, s: State, opens: bool)
    requires Inv(c, s) && Current(c, s) && s.pc.Successor?
    ensures Current(c, SuccessorStep(c, s, s.pc.healthy, s.pc.count, s.pc.packet, opens))
  {
    hide Protocol, OwnerFail;
    FailCurrent(c, s);
    FailCurrent(c, s.(log := s.log + [Begin(s.pc.packet.epoch, false)]));
  }

  lemma DeliverCurrent(c: Config, s: State, choice: Choice)
    requires Current(c, s) && s.pc.Deliver? && s.worker.Some?
    ensures Current(c, DeliverStep(c, s, s.pc.healthy, choice))
  {
  }

  lemma SnapCurrent(c: Config, s: State)
    requires Inv(c, s) && Current(c, s) && s.pc.Snap?
    ensures Current(c, SnapStep(c, s, s.pc.then_))
  {
    hide Protocol;
  }

  lemma SnapRetireCurrent(c: Config, s: State, spurious: bool)
    requires Inv(c, s) && Current(c, s) && s.pc.SnapRetire?
    ensures Current(c, SnapRetireStep(s, s.pc.call, s.pc.then_, spurious))
  {
    hide Protocol;
    CallStepKeeps(s.shared, s.pc.call, spurious);
  }

  lemma TakingCurrent(c: Config, s: State, choice: Choice)
    requires Inv(c, s) && Current(c, s) && Enabled(c, s, Work(choice))
    requires s.pc.Idle? || s.pc.Clearing? || s.pc.Expiry? || s.pc.Provider? || s.pc.Take?
    ensures Current(c, WorkStep(c, s, choice))
  {
    hide Protocol, CallInv;
  }

  lemma FeedingCurrent(c: Config, s: State, choice: Choice)
    requires Inv(c, s) && Current(c, s) && Enabled(c, s, Work(choice))
    requires s.pc.PublishSession? || s.pc.PublishGeneration? || s.pc.Feed? || s.pc.Fed?
    ensures Current(c, WorkStep(c, s, choice))
  {
    hide Protocol, CallInv;
  }


  lemma WorkCurrent(c: Config, s: State, choice: Choice)
    requires Inv(c, s) && Current(c, s) && Enabled(c, s, Work(choice))
    ensures Current(c, WorkStep(c, s, choice))
  {
    hide Inv, Current, DeliverStep, SnapStep, SuccessorStep, ScreenStep, SnapRetireStep;
    match s.pc
    case Screen(h, n, p) => ScreenCurrent(c, s, choice.admits);
    case Successor(h, n, p) => SuccessorCurrent(c, s, choice.opens);
    case Deliver(h) => DeliverCurrent(c, s, choice);
    case Snap(t) => SnapCurrent(c, s);
    case SnapRetire(call, t) => SnapRetireCurrent(c, s, choice.spurious);
    case _ =>
      if s.pc.PublishSession? || s.pc.PublishGeneration? || s.pc.Feed? || s.pc.Fed? {
        FeedingCurrent(c, s, choice);
      } else {
        TakingCurrent(c, s, choice);
      }
  }

  lemma CallerCurrent(c: Config, s: State, step: Step)
    requires Inv(c, s) && Current(c, s) && Enabled(c, s, step) && !step.Work?
    ensures Current(c, Do(c, s, step))
  {
    hide Protocol, OwnerFail, CallStep;
    match step
    case Tick(now, healthy) => FailCurrent(c, s);
    case RetireWork(id, spurious) => CallStepKeeps(s.shared, s.calls[id], spurious);
    case _ =>
  }

  lemma StepCurrent(c: Config, s: State, step: Step)
    requires Inv(c, s) && Current(c, s) && Enabled(c, s, step)
    ensures Current(c, Do(c, s, step))
  {
    hide Inv, Current, WorkStep;
    if step.Work? {
      WorkCurrent(c, s, step.choice);
    } else {
      CallerCurrent(c, s, step);
    }
  }

  lemma {:induction false} RunCurrent(c: Config, s: State, steps: seq<Step>)
    requires Constructible(c) && Inv(c, s) && Current(c, s) && Runs(c, s, steps)
    ensures Inv(c, After(c, s, steps)) && Current(c, After(c, s, steps))
    decreases |steps|
  {
    hide Inv, Current, Do, Enabled;
    if steps != [] {
      StepKeeps(c, s, steps[0]);
      StepCurrent(c, s, steps[0]);
      RunCurrent(c, Do(c, s, steps[0]), steps[1..]);
    }
  }

  lemma ReachedCurrent(c: Config, s: State)
    requires Reached(c, s)
    ensures Inv(c, s) && Current(c, s)
  {
    hide Inv, Current, Do, Enabled;
    var steps :| Runs(c, INITIAL, steps) && s == After(c, INITIAL, steps);
    InitialInv(c);
    InitialCurrent(c);
    RunCurrent(c, INITIAL, steps);
  }

  // ---- which ticks can still deliver -----------------------------------------------------------

  predicate Due(s: State, p: Packet) {
    s.now.Some? && p.arrival <= s.now.value
  }

  /** At most 100 ms old. */
  predicate Young(s: State, p: Packet) {
    s.now.Some? && var age := CheckedSub(s.now.value, p.arrival); age.Some? && age.value <= MAXIMUM_QUEUE_AGE_NS
  }

  /**
   * A packet the tick can pass over without feeding or failing its live worker.  Without recovery it
   * may be refused by admission, unless it is too old to get that far; with recovery only an older
   * generation of the same session is passed over, whatever its age if a racing call retires it.
   */
  predicate Passable(c: Config, s: State, p: Packet)
    requires Live(s)
  {
    var epoch := s.worker.value.epoch;
    if c.recovery then
      p.epoch.session == epoch.session && p.epoch.generation < epoch.generation && (p.epoch.generation != 0 || Young(s, p))
    else Young(s, p)
  }

  /** All the packets this tick has still to take, of at most 64 in all, can be passed over. */
  predicate AllPassable(c: Config, s: State, queue: seq<Packet>, count: nat)
    requires Live(s)
    decreases |queue|
  {
    count >= QUEUE_CAPACITY || queue == [] || !Due(s, queue[0])
    || (Passable(c, s, queue[0]) && AllPassable(c, s, queue[1..], count + 1))
  }

  /** The live worker's generation has not been retired. */
  predicate Unretired(s: State)
    requires Live(s)
  {
    !Retired(s.shared, s.worker.value.epoch)
  }

  /** A healthy tick is under way with a live worker, and nothing ahead of it need stop it from delivering. */
  predicate Escapes(c: Config, s: State) {
    && c.hooks && Live(s)
    && match s.pc
       case Expiry(last, h) => h && Unretired(s) && (last || AllPassable(c, s, s.shared.queue, 0))
       case Provider(h) => h && Unretired(s) && AllPassable(c, s, s.shared.queue, 0)
       case Take(h, n) => h && Unretired(s) && AllPassable(c, s, s.shared.queue, n)
       case Screen(h, n, p) => h && Unretired(s) && Passable(c, s, p) && AllPassable(c, s, s.shared.queue, n + 1)
       case Deliver(h) => h
       case _ => false
  }

  // ---- a tick that cannot, does not --------------------------------------------------------------

  /** Passability depends on the worker's epoch and the tick's time only. */
  lemma {:induction false} SamePassable(c: Config, s: State, t: State, queue: seq<Packet>, count: nat)
    requires Live(s) && Live(t) && s.worker.value.epoch == t.worker.value.epoch && s.now == t.now
    ensures AllPassable(c, s, queue, count) == AllPassable(c, t, queue, count)
    decreases |queue|
  {
    if queue != [] {
      SamePassable(c, s, t, queue[1..], count + 1);
    }
  }

  /** A packet more at the end makes nothing ahead of it passable. */
  lemma {:induction false} AppendPassable(c: Config, s: State, queue: seq<Packet>, p: Packet, count: nat)
    requires Live(s) && AllPassable(c, s, queue + [p], count)
    ensures AllPassable(c, s, queue, count)
    decreases |queue|
  {
    if queue != [] && count < QUEUE_CAPACITY && Due(s, queue[0]) {
      assert (queue + [p])[0] == queue[0] && (queue + [p])[1..] == queue[1..] + [p];
      AppendPassable(c, s, queue[1..], p, count + 1);
    }
  }

  /** Steps of other threads leave the tick and its worker where they are: they may add a packet, or retire. */
  lemma CallerLeaves(c: Config, s: State, step: Step)
    requires Inv(c, s) && Enabled(c, s, step) && !step.Work? && !step.Tick?
    ensures var t := Do(c, s, step);
            && (t.pc, t.worker, t.now, t.shared.session) == (s.pc, s.worker, s.now, s.shared.session)
            && s.shared.retired <= t.shared.retired
            && (t.shared.queue == s.shared.queue || exists p :: t.shared.queue == s.shared.queue + [p])
  {
    hide Place, CallStep, Outputs, Identity, CallInv;
    if step.RetireWork? {
      CallStepKeeps(s.shared, s.calls[step.id], step.spurious);
    }
  }

  /** Then they open nothing up for it. */
  lemma CallerOpensNothing(c: Config, s: State, step: Step)
    requires Inv(c, s) && Current(c, s) && Enabled(c, s, step) && !step.Work? && !step.Tick?
    requires Escapes(c, Do(c, s, step))
    ensures Escapes(c, s)
  {
    var t := Do(c, s, step);
    CallerLeaves(c, s, step);
    hide Inv, Current, Enabled, Do, AllPassable;
    forall count: nat | AllPassable(c, t, t.shared.queue, count)
      ensures AllPassable(c, s, s.shared.queue, count)
    {
      SamePassable(c, s, t, s.shared.queue, count);
      if t.shared.queue != s.shared.queue {
        var p :| t.shared.queue == s.shared.queue + [p];
        AppendPassable(c, t, s.shared.queue, p, count);
      }
    }
  }


  lemma ScreenOpensNothing(c: Config, s: State, admits: bool)
    requires Inv(c, s) && Current(c, s) && s.pc.Screen?
    requires Escapes(c, ScreenStep(c, s, s.pc.healthy, s.pc.count, s.pc.packet, admits))
    ensures Escapes(c, s)
  {
    hide Protocol, AllPassable;
    var t := ScreenStep(c, s, s.pc.healthy, s.pc.count, s.pc.packet, admits);
    SamePassable(c, s, t, s.shared.queue, s.pc.count + 1);
  }

  lemma TakeOpensNothing(c: Config, s: State)
    requires Inv(c, s) && s.pc.Take?
    requires Escapes(c, TakeStep(s, s.pc.healthy, s.pc.count))
    ensures Escapes(c, s)
  {
    hide Protocol;
    var t := TakeStep(s, s.pc.healthy, s.pc.count);
    SamePassable(c, s, t, t.shared.queue, s.pc.count + 1);
  }

  lemma OtherOpensNothing(c: Config, s: State, choice: Choice)
    requires Inv(c, s) && Current(c, s) && Enabled(c, s, Work(choice)) && s.shared.failed
    requires !s.pc.Screen? && !s.pc.Take?
    requires Escapes(c, WorkStep(c, s, choice))
    ensures Escapes(c, s)
  {
    hide Protocol, AllPassable, CallStep, OwnerFail, ScreenStep, TakeStep;
    var t := WorkStep(c, s, choice);
    WorkEffect(c, s, choice);
    if s.pc.Expiry? || s.pc.Provider? {
      SamePassable(c, s, t, s.shared.queue, 0);
    }
  }

  lemma StepOpensNothing(c: Config, s: State, step: Step)
    requires Inv(c, s) && Current(c, s) && Enabled(c, s, step) && s.shared.failed
    requires Escapes(c, Do(c, s, step))
    ensures Escapes(c, s)
  {
    hide Inv, Current, Escapes, OwnerFail;
    match step
    case Work(choice) =>
      if s.pc.Screen? {
        ScreenOpensNothing(c, s, choice.admits);
      } else if s.pc.Take? {
        TakeOpensNothing(c, s);
      } else {
        OtherOpensNothing(c, s, choice);
      }
    case Tick(now, healthy) => FailedTick(c, s, now, healthy);
    case _ => CallerOpensNothing(c, s, step);
  }

  lemma FailedTick(c: Config, s: State, now: Nanoseconds, healthy: bool)
    requires s.shared.failed
    ensures !Escapes(c, TickStep(c, s, now, healthy))
  {
  }

  /** A block is consumed only by a tick that has come to its delivery. */
  lemma ConsumesOnlyEscaping(c: Config, s: State, step: Step)
    requires Inv(c, s) && Enabled(c, s, step) && !Escapes(c, s)
    ensures NothingConsumed(s, Do(c, s, step))
  {
    hide Inv, Do, Enabled;
    StepEffect(c, s, step);
    if s.pc.Deliver? {
      UnhealthyDelivery(c, s, step);
    }
  }

  lemma UnhealthyDelivery(c: Config, s: State, step: Step)
    requires Inv(c, s) && Enabled(c, s, step) && !Escapes(c, s) && s.pc.Deliver?
    ensures NothingConsumed(s, Do(c, s, step))
  {
    hide Inv;
    StepEffect(c, s, step);
  }

  lemma {:induction false} NeverConsumes(c: Config, s: State, steps: seq<Step>)
    requires Constructible(c) && Inv(c, s) && Current(c, s) && s.shared.failed && !Escapes(c, s) && Runs(c, s, steps)
    ensures NothingConsumed(s, After(c, s, steps))
    decreases |steps|
  {
    hide Inv, Current, Do, Enabled, Escapes;
    if steps != [] {
      var t := Do(c, s, steps[0]);
      StepKeeps(c, s, steps[0]);
      StepCurrent(c, s, steps[0]);
      StepEffect(c, s, steps[0]);
      ConsumesOnlyEscaping(c, s, steps[0]);
      if Escapes(c, t) {
        StepOpensNothing(c, s, steps[0]);
      }
      NeverConsumes(c, t, steps[1..]);
    }
  }

  // ---- a tick that can, may ------------------------------------------------------------------------

  lemma {:induction false} FreshId(ids: set<nat>) returns (id: nat)
    ensures forall k :: k in ids ==> k < id
    decreases ids
  {
    if ids == {} {
      id := 0;
    } else {
      var k :| k in ids;
      var above := FreshId(ids - {k});
      assert forall m :: m in ids ==> m == k || m in ids - {k};
      id := if above <= k then k + 1 else above;
    }
  }

  /** A step first, then the rest of a run that consumes. */
  lemma StepThenConsumes(c: Config, s: State, step: Step, rest: seq<Step>)
    requires Inv(c, s) && Enabled(c, s, step) && Runs(c, Do(c, s, step), rest)
    requires !NothingConsumed(Do(c, s, step), After(c, Do(c, s, step), rest))
    requires Do(c, s, step).log == s.log
    ensures Runs(c, s, [step] + rest) && !NothingConsumed(s, After(c, s, [step] + rest))
  {
    hide Inv, Do, Enabled;
    assert ([step] + rest)[0] == step && ([step] + rest)[1..] == rest;
  }

  /** What the environment decides when it wants the delivery: nothing fails, nothing more is admitted. */
  const PASS: Choice := Choice(false, false, Well, true, true, true, false)

  lemma DeliveryConsumes(c: Config, s: State)
    requires Inv(c, s) && Escapes(c, s) && s.pc.Deliver?
    ensures Runs(c, s, [Work(PASS)]) && !NothingConsumed(s, After(c, s, [Work(PASS)]))
  {
    hide Inv;
    var t := Do(c, s, Work(PASS));
    Chain(c, [s, t], [Work(PASS)]);
    assert t.log == s.log + [Consume(s.worker.value.epoch)];
    assert t.log[|s.log|].Consume?;
  }

  /** How far a tick is from its delivery. */
  function Ahead(pc: Pc): nat {
    match pc
    case Expiry(last, _) => if last then 1 else 200
    case Provider(_) => 199
    case Take(_, n) => if n >= QUEUE_CAPACITY then 2 else 2 + 2 * (QUEUE_CAPACITY - n)
    case Screen(_, n, _) => if n >= QUEUE_CAPACITY then 3 else 1 + 2 * (QUEUE_CAPACITY - n)
    case _ => 0
  }

  lemma PassesExpiry(c: Config, s: State)
    requires Inv(c, s) && Escapes(c, s) && (s.pc.Expiry? || s.pc.Provider?)
    ensures Enabled(c, s, Work(PASS))
    ensures var t := WorkStep(c, s, PASS); t.log == s.log && Escapes(c, t) && Ahead(t.pc) < Ahead(s.pc)
  {
    hide Protocol, OwnerFail, AdmittedStep;
    SamePassable(c, s, WorkStep(c, s, PASS), s.shared.queue, 0);
  }

  lemma PassesTake(c: Config, s: State)
    requires Inv(c, s) && Escapes(c, s) && s.pc.Take?
    ensures Enabled(c, s, Work(PASS))
    ensures var t := WorkStep(c, s, PASS); t.log == s.log && Escapes(c, t) && Ahead(t.pc) < Ahead(s.pc)
  {
    hide Protocol, OwnerFail, AdmittedStep;
    var t := WorkStep(c, s, PASS);
    SamePassable(c, s, t, t.shared.queue, s.pc.count + 1);
  }

  lemma PassesScreen(c: Config, s: State)
    requires Inv(c, s) && Current(c, s) && Escapes(c, s) && s.pc.Screen?
    requires Young(s, s.pc.packet) || Retired(s.shared, s.pc.packet.epoch)
    ensures Enabled(c, s, Work(PASS))
    ensures var t := WorkStep(c, s, PASS); t.log == s.log && Escapes(c, t) && Ahead(t.pc) < Ahead(s.pc)
  {
    hide Protocol, OwnerFail, AdmittedStep;
    SamePassable(c, s, WorkStep(c, s, PASS), s.shared.queue, s.pc.count + 1);
  }

  /** One step of the tick brings it nearer to its delivery, if its packet needs no racing call. */
  lemma PassesOn(c: Config, s: State)
    requires Inv(c, s) && Current(c, s) && Escapes(c, s) && !s.pc.Deliver?
    requires s.pc.Screen? ==> Young(s, s.pc.packet) || Retired(s.shared, s.pc.packet.epoch)
    ensures Enabled(c, s, Work(PASS))
    ensures var t := Do(c, s, Work(PASS));
            t.log == s.log && Escapes(c, t) && Ahead(t.pc) < Ahead(s.pc)
  {
    hide Inv, Current, WorkStep, Young, Retired;
    if s.pc.Screen? {
      PassesScreen(c, s);
    } else if s.pc.Take? {
      PassesTake(c, s);
    } else {
      PassesExpiry(c, s);
    }
  }

  /** The accesses of one retirement call that nothing interrupts. */
  function Retirement(id: nat, epoch: SessionToken): seq<Step> {
    [RetireEnter(id, epoch), RetireWork(id, false), RetireWork(id, false), RetireWork(id, false), RetireWork(id, false)]
  }

  lemma CallEnters(c: Config, s: State, id: nat, epoch: SessionToken)
    requires c.recovery && s.worker.Some? && epoch.Valid() && id !in s.calls
    ensures Enabled(c, s, RetireEnter(id, epoch)) && Do(c, s, RetireEnter(id, epoch)) == Calling(s, id, Call(epoch, LoadSession))
  {
  }

  /** An older generation can be retired by a call that nothing interrupts. */
  lemma CallRetires(c: Config, s: State, id: nat, epoch: SessionToken)
    requires Inv(c, s) && Current(c, s) && c.recovery && s.pc.Screen? && s.worker.Some? && id !in s.calls && epoch.Valid()
    requires epoch.session == s.worker.value.epoch.session
    requires s.shared.retired < epoch.generation < s.worker.value.epoch.generation
    ensures Runs(c, s, Retirement(id, epoch))
    ensures After(c, s, Retirement(id, epoch)) == RetiredBy(s, id, epoch)
  {
    var a, b := Call(epoch, LoadSession), Call(epoch, LoadGeneration);
    var d, e := Call(epoch, LoadRetired), Call(epoch, Compare(s.shared.retired));
    CallFinds(c, s, epoch);
    hide Inv, Current, CallStep;
    CallEnters(c, s, id, epoch);
    CallMoves(c, s, id, a);
    CallMoves(c, s, id, b);
    CallMoves(c, s, id, d);
    CallMoves(c, s, id, e);
    hide Do, Enabled;
    FiveSteps(c, s, Calling(s, id, a), Calling(s, id, b), Calling(s, id, d), Calling(s, id, e), RetiredBy(s, id, epoch),
              RetireEnter(id, epoch), RetireWork(id, false));
  }

  function RetiredBy(s: State, id: nat, epoch: SessionToken): State {
    Calling(s.(shared := s.shared.(retired := epoch.generation)), id, Call(epoch, Done(true)))
  }

  lemma SessionPublished(c: Config, s: State)
    requires Inv(c, s) && s.pc.Screen? && s.worker.Some?
    ensures s.shared.session == s.worker.value.epoch.session
  {
    hide Place, Outputs;
  }

  lemma RaisedEscapes(c: Config, s: State, id: nat, epoch: SessionToken)
    requires Escapes(c, s) && s.pc.Screen? && epoch.Valid() && epoch.session == s.shared.session == s.worker.value.epoch.session
    requires epoch.generation < s.worker.value.epoch.generation
    ensures var t := RetiredBy(s, id, epoch); Escapes(c, t) && Retired(t.shared, epoch)
  {
    SamePassable(c, s, RetiredBy(s, id, epoch), s.shared.queue, s.pc.count + 1);
  }

  /** A racing call retires an older generation, and the tick stands where it stood. */
  lemma RetiresOlder(c: Config, s: State, id: nat)
    requires Inv(c, s) && Current(c, s) && Escapes(c, s) && c.recovery && s.pc.Screen? && id !in s.calls
    requires var epoch := s.pc.packet.epoch;
             epoch.Valid() && epoch.session == s.worker.value.epoch.session
             && s.shared.retired < epoch.generation < s.worker.value.epoch.generation
    ensures var steps := Retirement(id, s.pc.packet.epoch);
            && Runs(c, s, steps)
            && var t := After(c, s, steps);
               t.log == s.log && t.pc == s.pc && Escapes(c, t) && Retired(t.shared, s.pc.packet.epoch)
  {
    var epoch := s.pc.packet.epoch;
    CallRetires(c, s, id, epoch);
    SessionPublished(c, s);
    RaisedEscapes(c, s, id, epoch);
    hide Inv, Current, Runs, After, Retirement, Escapes;
  }

  /** An older generation of the published session is found retirable, and is retired. */
  lemma CallFinds(c: Config, s: State, epoch: SessionToken)
    requires Inv(c, s) && Current(c, s) && s.pc.Screen? && s.worker.Some?
    requires epoch.session == s.worker.value.epoch.session
    requires s.shared.retired < epoch.generation < s.worker.value.epoch.generation
    ensures CallStep(s.shared, Call(epoch, LoadSession), false) == (s.shared, Call(epoch, LoadGeneration))
    ensures CallStep(s.shared, Call(epoch, LoadGeneration), false) == (s.shared, Call(epoch, LoadRetired))
    ensures CallStep(s.shared, Call(epoch, LoadRetired), false) == (s.shared, Call(epoch, Compare(s.shared.retired)))
    ensures CallStep(s.shared, Call(epoch, Compare(s.shared.retired)), false)
            == (s.shared.(retired := epoch.generation), Call(epoch, Done(true)))
  {
    hide Protocol;
  }

  /** The state with one more call under way. */
  function Calling(s: State, id: nat, call: Call): State {
    s.(calls := s.calls[id := call])
  }

  lemma CallMoves(c: Config, s: State, id: nat, call: Call)
    requires !call.stage.Done?
    ensures var (shared, next) := CallStep(s.shared, call, false);
            && Enabled(c, Calling(s, id, call), RetireWork(id, false))
            && Do(c, Calling(s, id, call), RetireWork(id, false)) == Calling(s.(shared := shared), id, next)
  {
    hide CallStep;
    var next := CallStep(s.shared, call, false).1;
    assert s.calls[id := call][id := next] == s.calls[id := next];
  }

  /** From a tick that can still deliver there is a run in which it does. */
  lemma {:induction false} MayConsume(c: Config, s: State) returns (steps: seq<Step>)
    requires Constructible(c) && Inv(c, s) && Current(c, s) && Escapes(c, s)
    ensures Runs(c, s, steps) && !NothingConsumed(s, After(c, s, steps))
    decreases Ahead(s.pc), 1
  {
    hide Inv, Current, Escapes, Do, Enabled;
    if s.pc.Deliver? {
      DeliveryConsumes(c, s);
      steps := [Work(PASS)];
    } else if s.pc.Screen? && !Young(s, s.pc.packet) && !Retired(s.shared, s.pc.packet.epoch) {
      AgedIsOlder(c, s);
      var id := FreshId(s.calls.Keys);
      RetiresOlder(c, s, id);
      var racing := Retirement(id, s.pc.packet.epoch);
      var t := After(c, s, racing);
      RunCurrent(c, s, racing);
      var rest := MayConsumeFrom(c, t);
      Concatenate(c, s, racing, rest);
      steps := racing + rest;
    } else {
      steps := MayConsumeFrom(c, s);
    }
  }

  lemma {:induction false} MayConsumeFrom(c: Config, s: State) returns (steps: seq<Step>)
    requires Constructible(c) && Inv(c, s) && Current(c, s) && Escapes(c, s) && !s.pc.Deliver?
    requires s.pc.Screen? ==> Young(s, s.pc.packet) || Retired(s.shared, s.pc.packet.epoch)
    ensures Runs(c, s, steps) && !NothingConsumed(s, After(c, s, steps))
    decreases Ahead(s.pc), 0
  {
    hide Inv, Current, Escapes, Do, Enabled;
    PassesOn(c, s);
    var t := Do(c, s, Work(PASS));
    StepKeeps(c, s, Work(PASS));
    StepCurrent(c, s, Work(PASS));
    var rest := MayConsume(c, t);
    StepThenConsumes(c, s, Work(PASS), rest);
    steps := [Work(PASS)] + rest;
  }

  /** A packet too old to be screened can only be passed over with recovery, as an older generation. */
  lemma AgedIsOlder(c: Config, s: State)
    requires Inv(c, s) && Current(c, s) && Escapes(c, s) && s.pc.Screen?
    requires !Young(s, s.pc.packet) && !Retired(s.shared, s.pc.packet.epoch)
    ensures c.recovery
    ensures var epoch := s.pc.packet.epoch;
            epoch.Valid() && epoch.session == s.worker.value.epoch.session
            && s.shared.retired < epoch.generation < s.worker.value.epoch.generation
  {
    hide Protocol;
  }

  // ---- the exact condition ---------------------------------------------------------------------------

  /**
   * With the flag set, wherever the tick is and whatever the other threads do: no block is ever
   * delivered again if and only if the tick under way has nothing to escape by.
   */
  lemma FailureExact(c: Config, s: State)
    requires Reached(c, s) && s.shared.failed
    ensures (forall steps :: Runs(c, s, steps) ==> NothingConsumed(s, After(c, s, steps))) <==> !Escapes(c, s)
  {
    hide Inv, Current, Escapes;
    ReachedCurrent(c, s);
    if Escapes(c, s) {
      var steps := MayConsume(c, s);
    } else {
      forall steps | Runs(c, s, steps)
        ensures NothingConsumed(s, After(c, s, steps))
      {
        NeverConsumes(c, s, steps);
      }
    }
  }

  /**
   * The moment of failure: the step that raises the flag ends all delivery if and only if it leaves
   * no tick that escapes; a failure the owner meets, or any between two ticks, never leaves one.
   */
  lemma FailureStops(c: Config, s: State, step: Step)
    requires Reached(c, s) && Enabled(c, s, step) && !s.shared.failed && Do(c, s, step).shared.failed
    ensures var t := Do(c, s, step);
            (forall steps :: Runs(c, t, steps) ==> NothingConsumed(t, After(c, t, steps))) <==> !Escapes(c, t)
    ensures step.Tick? || step.Work? || s.pc == Idle ==> !Escapes(c, Do(c, s, step))
  {
    hide Inv, Do, Enabled, Escapes;
    ReachedOnward(c, s, step);
    FailureExact(c, Do(c, s, step));
    if step.Tick? || step.Work? || s.pc == Idle {
      ReachedKeeps(c, s);
      OwnerStops(c, s, step);
      StoppedCannot(c, Do(c, s, step));
    }
  }

  lemma ReachedOnward(c: Config, s: State, step: Step)
    requires Reached(c, s) && Enabled(c, s, step)
    ensures Reached(c, Do(c, s, step))
  {
    hide Do, Enabled;
    var steps :| Runs(c, INITIAL, steps) && s == After(c, INITIAL, steps);
    Chain(c, [s, Do(c, s, step)], [step]);
    Concatenate(c, INITIAL, steps, [step]);
  }

  lemma StoppedCannot(c: Config, s: State)
    requires Stopped(s)
    ensures !Escapes(c, s)
  {
  }
}
