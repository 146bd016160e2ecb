// The owner of the correction worker: one tick thread, packets submitted from a network callback, and
// retirement calls from any thread racing on one atomic (src/audio/audio_diagnostic.cpp).
module DiagnosticOwner {
  import opened Timing
  import C = CorrectionSpec
  import R = CorrectionRuns

  const QUEUE_CAPACITY: nat := 64
  const SESSION_CAPACITY: nat := 8
  const MAXIMUM_QUEUE_AGE_NS: int := 100_000_000

  // ---- state -----------------------------------------------------------------------------

  /** The constructor's configuration: recovery mode, consume and revoke hooks, begin_generation hook. */
  datatype Config = Config(recovery: bool, hooks: bool, begins: bool)

  /** What the constructor insists on. */
  predicate Constructible(c: Config) {
    c.recovery ==> c.hooks && c.begins
  }

  datatype Packet = Packet(epoch: SessionToken, arrival: Nanoseconds)

  /** How the worker stands: in order, or with a latched fault. */
  datatype Condition = Well | Broken(fault: C.Fault, stale: C.StaleReason)
  datatype Worker = Worker(epoch: SessionToken, condition: Condition)

  /** One call of retire_stale_transport, at the load or compare-exchange it performs next. */
  datatype Stage = LoadSession | LoadGeneration | LoadRetired | Compare(expected: nat) | Done(ok: bool)
  datatype Call = Call(epoch: SessionToken, stage: Stage)

  /** What more than one thread touches: the atomics and the locked queue. */
  datatype Shared = Shared(failed: bool, queue: seq<Packet>, session: nat, generation: nat, retired: nat)

  /** Where the tick thread is. */
  datatype Pc =
    | Idle
    | Clearing
    | Expiry(last: bool, healthy: bool)
    | Provider(healthy: bool)
    | Take(healthy: bool, count: nat)
    | Screen(healthy: bool, count: nat, packet: Packet)
    | Successor(healthy: bool, count: nat, packet: Packet)
    | PublishSession(healthy: bool, count: nat, packet: Packet)
    | PublishGeneration(healthy: bool, count: nat, packet: Packet)
    | Feed(healthy: bool, count: nat, packet: Packet)
    | Fed(healthy: bool, count: nat)
    | Deliver(healthy: bool)
    | Snap(then_: Pc)
    | SnapRetire(call: Call, then_: Pc)

  /** The output hooks, in the order they are called. */
  datatype Event = Begin(epoch: SessionToken, ok: bool) | Consume(epoch: SessionToken) | Revoke

  datatype State = State(
    shared: Shared, calls: map<nat, Call>, submits: map<nat, Option<Packet>>,
    pc: Pc, now: Option<Nanoseconds>, active: Option<SessionToken>, sessions: seq<SessionToken>,
    worker: Option<Worker>, revoked: bool, log: seq<Event>, returned: set<SessionToken>)

  const INITIAL: State :=
    State(Shared(false, [], 0, 0, 0), map[], map[], Idle, None, None, [], None, false, [], {})

  // ---- steps -----------------------------------------------------------------------------

  /** What the environment decides for one step of the tick thread. */
  datatype Choice = Choice(admits: bool, opens: bool, condition: Condition, block: bool, sane: bool, taken: bool, spurious: bool)

  datatype Step =
    | SubmitEnter(id: nat, packet: Option<Packet>)
    | SubmitLeave(id: nat)
    | RetireEnter(id: nat, epoch: SessionToken)
    | RetireWork(id: nat, spurious: bool)
    | Tick(now: Nanoseconds, healthy: bool)
    | Work(choice: Choice)

  predicate DesktopFaultRecoverable(fault: C.Fault, stale: C.StaleReason) {
    fault == C.Health || (fault == C.Stale && (stale == C.NoProgress || stale == C.AnchorAge))
  }

  predicate Retired(shared: Shared, epoch: SessionToken) {
    epoch.Valid() && epoch.session == shared.session && epoch.generation <= shared.retired
  }

  function CompareNext(shared: Shared, call: Call): Call {
    if shared.retired < call.epoch.generation then call.(stage := Compare(shared.retired)) else call.(stage := Done(true))
  }

  /** One atomic access of a retirement call; a weak compare-exchange may also fail for no reason. */
  function CallStep(shared: Shared, call: Call, spurious: bool): (Shared, Call) {
    match call.stage
    case LoadSession =>
      (shared, call.(stage := if call.epoch.session != shared.session then Done(false) else LoadGeneration))
    case LoadGeneration =>
      (shared, call.(stage := if call.epoch.generation > shared.generation then Done(false) else LoadRetired))
    case LoadRetired => (shared, CompareNext(shared, call))
    case Compare(expected) =>
      if expected == shared.retired && !spurious
      then (shared.(retired := call.epoch.generation), call.(stage := Done(true)))
      else (shared, CompareNext(shared, call))
    case Done(_) => (shared, call)
  }

  /** The worker's answer to any call: a latched fault stays, and an unhealthy call always faults. */
  function React(w: Worker, healthy: bool, condition: Condition): Worker {
    if w.condition != Well then w
    else if !healthy then w.(condition := Broken(C.Health, C.NotStale))
    else w.(condition := condition)
  }

  function Unhealthy(w: Worker): Worker {
    React(w, false, Well)
  }

  predicate Live(s: State) {
    s.worker.Some? && s.worker.value.condition == Well
  }

  function WithFailed(s: State): State {
    s.(shared := s.shared.(failed := true))
  }

  function WithRevoke(c: Config, s: State): State {
    if c.hooks && !s.revoked then s.(revoked := true, log := s.log + [Revoke]) else s
  }

  function OwnerFail(c: Config, s: State): State {
    var v := WithRevoke(c, WithFailed(s));
    v.(worker := if s.worker.Some? then Some(Unhealthy(s.worker.value)) else None, pc := Clearing)
  }

  /** AudioStreamAdmission::admit, its verdict on everything but the epoch left to the environment. */
  predicate Admits(active: Option<SessionToken>, epoch: SessionToken, otherwise: bool) {
    && otherwise && epoch.Valid()
    && (active.Some? && epoch != active.value ==>
          epoch.session == active.value.session && epoch.generation > active.value.generation)
  }

  function ExpiryStep(s: State, last: bool, healthy: bool): State {
    var next := if last then Deliver(healthy) else Provider(healthy);
    if Live(s) && Retired(s.shared, s.worker.value.epoch)
    then s.(worker := Some(Unhealthy(s.worker.value)), pc := Snap(next))
    else s.(pc := next)
  }

  function TakeStep(s: State, healthy: bool, count: nat): State {
    var q := s.shared.queue;
    if count >= QUEUE_CAPACITY || q == [] || s.now.None? || q[0].arrival > s.now.value
    then s.(pc := if s.worker.None? then Idle else Expiry(true, healthy))
    else s.(shared := s.shared.(queue := q[1..]), pc := Screen(healthy, count, q[0]))
  }

  function ScreenStep(c: Config, s: State, healthy: bool, count: nat, p: Packet, admits: bool): State {
    var skip := s.(pc := Take(healthy, count + 1));
    var age := if s.now.Some? then CheckedSub(s.now.value, p.arrival) else None;
    if Retired(s.shared, p.epoch) then skip
    else if age.None? || age.value > MAXIMUM_QUEUE_AGE_NS then OwnerFail(c, s)
    else if c.recovery && s.active.Some? && p.epoch.session != s.active.value.session then OwnerFail(c, s)
    else if s.active.Some? && p.epoch.session == s.active.value.session && p.epoch.generation < s.active.value.generation then skip
    else if !Admits(s.active, p.epoch, admits) then if c.recovery then OwnerFail(c, s) else skip
    else AdmittedStep(c, s.(active := Some(p.epoch)), healthy, count, p)
  }

  /** A packet of the current generation is fed; one of a successor first retires the old generation. */
  function AdmittedStep(c: Config, s: State, healthy: bool, count: nat, p: Packet): State {
    if s.worker.Some? && s.worker.value.epoch == p.epoch then s.(pc := Feed(healthy, count, p))
    else if s.worker.Some? && c.hooks && !c.recovery then OwnerFail(c, s)
    else
      s.(worker := if s.worker.Some? && c.hooks then Some(Unhealthy(s.worker.value)) else s.worker,
         pc := Snap(Successor(healthy, count, p)))
  }

  function SuccessorStep(c: Config, s: State, healthy: bool, count: nat, p: Packet, opens: bool): State {
    if s.shared.failed then s.(pc := Idle)
    else if |s.sessions| == SESSION_CAPACITY then OwnerFail(c, s)
    else if c.begins && !opens then OwnerFail(c, s.(log := s.log + [Begin(p.epoch, false)]))
    else
      s.(log := if c.begins then s.log + [Begin(p.epoch, true)] else s.log, revoked := false,
         worker := Some(Worker(p.epoch, Well)), sessions := s.sessions + [p.epoch],
         pc := PublishSession(healthy, count, p))
  }

  function FeedStep(c: Config, s: State, healthy: bool, count: nat, condition: Condition): State
    requires s.worker.Some?
  {
    if s.worker.value.condition != Well && c.recovery then s.(pc := Take(healthy, count + 1))
    else s.(worker := Some(React(s.worker.value, healthy, condition)), pc := Snap(Fed(healthy, count)))
  }

  /** Dispatch, pull, inspect, hand on: a block comes only from a worker that is still well. */
  function DeliverStep(c: Config, s: State, healthy: bool, choice: Choice): State
    requires s.worker.Some?
  {
    var v := s.(worker := Some(React(s.worker.value, healthy, choice.condition)));
    if !Live(v) || !choice.block then v.(pc := Snap(Idle))
    else if !choice.sane then OwnerFail(c, v)
    else if !c.hooks then v.(pc := Snap(Idle))
    else
      var u := v.(log := v.log + [Consume(v.worker.value.epoch)]);
      if choice.taken then u.(pc := Snap(Idle)) else OwnerFail(c, u)
  }

  /** snapshot(): a fault revokes the output, then retires the generation or fails for good. */
  function SnapStep(c: Config, s: State, then_: Pc): State {
    if s.worker.None? || s.worker.value.condition == Well || !c.hooks then s.(pc := then_)
    else
      var v := WithRevoke(c, s);
      var condition := s.worker.value.condition;
      if c.recovery && DesktopFaultRecoverable(condition.fault, condition.stale)
      then v.(pc := SnapRetire(Call(s.worker.value.epoch, LoadSession), then_))
      else WithFailed(v).(pc := then_)
  }

  function SnapRetireStep(s: State, call: Call, then_: Pc, spurious: bool): State {
    if call.stage.Done? then s.(pc := then_)
    else
      var (shared, next) := CallStep(s.shared, call, spurious);
      s.(shared := shared, pc := SnapRetire(next, then_))
  }

  predicate NeedsWorker(pc: Pc) {
    pc.PublishSession? || pc.PublishGeneration? || pc.Feed? || pc.Fed? || pc.Deliver? || (pc.Expiry? && pc.last)
  }

  function WorkStep(c: Config, s: State, choice: Choice): State
    requires NeedsWorker(s.pc) ==> s.worker.Some?
  {
    match s.pc
    case Idle => s
    case Clearing => s.(shared := s.shared.(queue := []), pc := Snap(Idle))
    case Expiry(last, h) => ExpiryStep(s, last, h)
    case Provider(h) =>
      if s.worker.Some? && !h then s.(worker := Some(Unhealthy(s.worker.value)), pc := Snap(Take(h, 0))) else s.(pc := Take(h, 0))
    case Take(h, n) => TakeStep(s, h, n)
    case Screen(h, n, p) => ScreenStep(c, s, h, n, p, choice.admits)
    case Successor(h, n, p) => SuccessorStep(c, s, h, n, p, choice.opens)
    case PublishSession(h, n, p) => s.(shared := s.shared.(session := p.epoch.session), pc := PublishGeneration(h, n, p))
    case PublishGeneration(h, n, p) => s.(shared := s.shared.(generation := p.epoch.generation), pc := Feed(h, n, p))
    case Feed(h, n, p) => FeedStep(c, s, h, n, choice.condition)
    case Fed(h, n) => s.(pc := if s.shared.failed then Idle else Take(h, n + 1))
    case Deliver(h) => DeliverStep(c, s, h, choice)
    case Snap(t) => SnapStep(c, s, t)
    case SnapRetire(call, t) => SnapRetireStep(s, call, t, choice.spurious)
  }

  function TickStep(c: Config, s: State, now: Nanoseconds, healthy: bool): State {
    if s.shared.failed || now < 0 || (s.now.Some? && now < s.now.value) then OwnerFail(c, s)
    else s.(now := Some(now), pc := Expiry(false, healthy))
  }

  /** The locked half of submit: malformed packets and a full queue fail the whole bridge. */
  function SubmitStep(s: State, id: nat): State
    requires id in s.submits
  {
    var v := s.(submits := s.submits - {id});
    match s.submits[id]
    case None => WithFailed(v)
    case Some(p) =>
      if |s.shared.queue| == QUEUE_CAPACITY then WithFailed(v)
      else v.(shared := s.shared.(queue := s.shared.queue + [p]))
  }

  function RetireStep(s: State, id: nat, spurious: bool): State
    requires id in s.calls
  {
    var call := s.calls[id];
    if call.stage.Done? then
      s.(calls := s.calls - {id}, returned := if call.stage.ok then s.returned + {call.epoch} else s.returned)
    else
      var (shared, next) := CallStep(s.shared, call, spurious);
      s.(shared := shared, calls := s.calls[id := next])
  }

  predicate Enabled(c: Config, s: State, step: Step) {
    match step
    case SubmitEnter(id, _) => id !in s.submits && !s.shared.failed
    case SubmitLeave(id) => id in s.submits
    case RetireEnter(id, epoch) => id !in s.calls && c.recovery && epoch.Valid()
    case RetireWork(id, _) => id in s.calls
    case Tick(_, _) => s.pc == Idle
    case Work(_) => s.pc != Idle && (NeedsWorker(s.pc) ==> s.worker.Some?)
  }

  function Do(c: Config, s: State, step: Step): State
    requires Enabled(c, s, step)
  {
    match step
    case SubmitEnter(id, packet) => s.(submits := s.submits[id := packet])
    case SubmitLeave(id) => SubmitStep(s, id)
    case RetireEnter(id, epoch) => s.(calls := s.calls[id := Call(epoch, LoadSession)])
    case RetireWork(id, spurious) => RetireStep(s, id, spurious)
    case Tick(now, healthy) => TickStep(c, s, now, healthy)
    case Work(choice) => WorkStep(c, s, choice)
  }

  ghost predicate Runs(c: Config, s: State, steps: seq<Step>)
    decreases |steps|
  {
    steps == [] || (Enabled(c, s, steps[0]) && Runs(c, Do(c, s, steps[0]), steps[1..]))
  }

  ghost function After(c: Config, s: State, steps: seq<Step>): State
    requires Runs(c, s, steps)
    decreases |steps|
  {
    if steps == [] then s else After(c, Do(c, s, steps[0]), steps[1..])
  }

  // ---- the output protocol -----------------------------------------------------------------

  /** What the output hooks have been told last. */
  datatype Output = Fresh | Open(epoch: SessionToken) | Shut

  /**
   * The order the hooks promise: blocks go only to an output begun for their generation, one
   * revoke closes it, and only a successful begin opens it again.  Without a begin hook the
   * output is open from the start and never again after its one revoke.
   */
  function Told(begins: bool, output: Output, e: Event): Option<Output> {
    match e
    case Begin(epoch, ok) => if output.Open? then None else Some(if ok then Open(epoch) else output)
    case Consume(epoch) =>
      if output == Open(epoch) || (output == Fresh && !begins) then Some(output) else None
    case Revoke => if output == Shut then None else Some(Shut)
  }

  function Protocol(begins: bool, log: seq<Event>): Option<Output> {
    if log == [] then Some(Fresh)
    else
      var before := Protocol(begins, log[..|log| - 1]);
      if before.None? then None else Told(begins, before.value, log[|log| - 1])
  }

  lemma ProtocolStep(begins: bool, log: seq<Event>, e: Event)
    requires Protocol(begins, log).Some?
    ensures Protocol(begins, log + [e]) == Told(begins, Protocol(begins, log).value, e)
  {
    assert (log + [e])[..|log + [e]| - 1] == log;
  }

  lemma {:induction false} ProtocolPrefix(begins: bool, log: seq<Event>, k: nat)
    requires Protocol(begins, log).Some? && k <= |log|
    ensures Protocol(begins, log[..k]).Some?
    decreases |log|
  {
    if k < |log| {
      ProtocolPrefix(begins, log[..|log| - 1], k);
      assert log[..|log| - 1][..k] == log[..k];
    } else {
      assert log[..k] == log;
    }
  }

  /** While shut, nothing but a successful begin changes that. */
  lemma {:induction false} ShutUntilBegin(begins: bool, log: seq<Event>, i: nat, j: nat)
    requires Protocol(begins, log).Some? && i < j <= |log| && log[i] == Revoke
    requires forall k :: i < k < j ==> !(log[k].Begin? && log[k].ok)
    ensures Protocol(begins, log[..j]) == Some(Shut)
    decreases j
  {
    ProtocolPrefix(begins, log, j);
    ProtocolPrefix(begins, log, j - 1);
    assert log[..j] == log[..j - 1] + [log[j - 1]];
    ProtocolStep(begins, log[..j - 1], log[j - 1]);
    if i < j - 1 {
      ShutUntilBegin(begins, log, i, j - 1);
    }
  }

  /** Between a revoke and any later consume or revoke lies a successful begin. */
  lemma BeginBetween(begins: bool, log: seq<Event>, i: nat, j: nat)
    requires Protocol(begins, log).Some? && i < j < |log|
    requires log[i] == Revoke && (log[j] == Revoke || log[j].Consume?)
    ensures exists k :: i < k < j && log[k].Begin? && log[k].ok
  {
    ProtocolPrefix(begins, log, j);
    ProtocolPrefix(begins, log, j + 1);
    assert log[..j + 1] == log[..j] + [log[j]];
    ProtocolStep(begins, log[..j], log[j]);
    if forall k :: i < k < j ==> !(log[k].Begin? && log[k].ok) {
      ShutUntilBegin(begins, log, i, j);
    }
  }
}
