// The retirement fence of one receiver attempt: start, gate and retire are separate processes that
// share a lock and three create-once files, and may crash or lose the machine between any two file
// operations (tools/remote_receiver.py).
module RetirementFence {
  import opened Timing

  // ---- state -----------------------------------------------------------------------------

  /** The attempt directory's entry in the state directory. */
  datatype Dir = Missing | Unsynced | Synced

  /** A create-once record: its bytes may be incomplete, and its creation not yet on stable storage. */
  datatype Record = Nothing | Record(complete: bool, durable: bool, boot: nat)

  datatype Role = Start | Gate | Retire
  datatype Phase = Entering | RootSync | Waiting | Checking | Creating | Writing | Syncing | Execing | Deciding | Polling
  datatype Seen = Seen(intentBoot: Option<nat>, receipt: bool)
  datatype Process = Process(role: Role, phase: Phase, seen: Seen)

  datatype Proof = FencedPriorBoot | FencedNeverStarted | FencedEmptyCgroup

  datatype State = State(
    dir: Dir, intent: Record, receipt: Record, cancel: Record,
    lock: Option<nat>, processes: map<nat, Process>,
    boot: nat, launched: bool, alive: bool, execs: nat)

  const INITIAL: State := State(Missing, Nothing, Nothing, Nothing, None, map[], 0, false, false, 0)

  const BLIND: Seen := Seen(None, false)

  // ---- steps -----------------------------------------------------------------------------

  /** What a power loss does to a record whose creation was not yet synchronised. */
  datatype Fate = Kept | Torn | Lost

  datatype Step =
    | Spawn(p: nat, role: Role)
    | MakeDir(p: nat)
    | SyncRoot(p: nat)
    | Acquire(p: nat)
    | Check(p: nat)
    | Create(p: nat)
    | Write(p: nat)
    | Sync(p: nat)
    | Exec(p: nat)
    | Decide(p: nat)
    | Observe(p: nat)
    | Crash(p: nat)
    | ReceiverExit
    | Reboot(keepDir: bool, intentFate: Fate, receiptFate: Fate, cancelFate: Fate)

  function Survive(r: Record, fate: Fate): Record {
    if r.Nothing? || r.durable then r
    else
      match fate
      case Kept => r.(durable := true)
      case Torn => r.(complete := false, durable := true)
      case Lost => Nothing
  }

  function SetPhase(s: State, p: nat, phase: Phase): State
    requires p in s.processes
  {
    s.(processes := s.processes[p := s.processes[p].(phase := phase)])
  }

  /** A process that ends, for whatever reason, drops the lock if it holds it. */
  function Exit(s: State, p: nat): State {
    s.(processes := s.processes - {p}, lock := if s.lock == Some(p) then None else s.lock)
  }

  function Release(s: State, p: nat): State {
    s.(lock := if s.lock == Some(p) then None else s.lock)
  }

  /** The record a role creates. */
  function Target(s: State, role: Role): Record {
    match role
    case Start => s.intent
    case Gate => s.receipt
    case Retire => s.cancel
  }

  function SetTarget(s: State, role: Role, r: Record): State {
    match role
    case Start => s.(intent := r)
    case Gate => s.(receipt := r)
    case Retire => s.(cancel := r)
  }

  /** prepare_intent refuses any sign of an earlier start, gate or retirement. */
  predicate StartRefused(s: State) {
    !s.cancel.Nothing? || !s.intent.Nothing? || !s.receipt.Nothing?
  }

  /** authorize_gate refuses a cancellation, an unreadable or older-boot intent, and any receipt. */
  predicate GateRefused(s: State) {
    || !s.cancel.Nothing?
    || s.intent.Nothing? || !s.intent.complete || s.intent.boot != s.boot
    || !s.receipt.Nothing?
  }

  /** cancellation_snapshot stops on anything incomplete, or a receipt without its intent. */
  predicate SnapshotRefused(s: State) {
    || (s.intent.Record? && !s.intent.complete)
    || (s.receipt.Record? && (!s.receipt.complete || s.intent.Nothing? || s.receipt.boot != s.intent.boot))
    || (s.cancel.Record? && !s.cancel.complete)
  }

  function Snapshot(s: State): Seen {
    Seen(if s.intent.Record? then Some(s.intent.boot) else None, s.receipt.Record?)
  }

  function CheckStep(s: State, p: nat): State
    requires p in s.processes
  {
    match s.processes[p].role
    case Start => if StartRefused(s) then Exit(s, p) else SetPhase(s, p, Creating)
    case Gate => if GateRefused(s) then Exit(s, p) else SetPhase(s, p, Creating)
    case Retire =>
      if SnapshotRefused(s) then Exit(s, p)
      else
        var v := s.(processes := s.processes[p := s.processes[p].(seen := Snapshot(s))]);
        if s.cancel.Nothing? then SetPhase(v, p, Creating) else Release(SetPhase(v, p, Deciding), p)
  }

  function SyncStep(s: State, p: nat): State
    requires p in s.processes && Target(s, s.processes[p].role).Record?
  {
    var role := s.processes[p].role;
    var v := SetTarget(s, role, Target(s, role).(durable := true));
    match role
    case Start => Exit(v, p).(launched := true)
    case Gate => SetPhase(v, p, Execing)
    case Retire => Release(SetPhase(v, p, Deciding), p)
  }

  /** Prior boot first, then a missing receipt; only a receipt of this boot needs the unit watched. */
  function Verdict(s: State, seen: Seen): Option<Proof> {
    if seen.intentBoot.Some? && seen.intentBoot.value != s.boot then Some(FencedPriorBoot)
    else if !seen.receipt then Some(FencedNeverStarted)
    else None
  }

  /** Power loss: every process ends, and only what was synchronised is sure to be there afterwards. */
  function RebootStep(s: State, keepDir: bool, intentFate: Fate, receiptFate: Fate, cancelFate: Fate): State {
    var base := s.(lock := None, processes := map[], boot := s.boot + 1, launched := false, alive := false);
    if s.dir == Missing || (s.dir == Unsynced && !keepDir) then
      base.(dir := Missing, intent := Nothing, receipt := Nothing, cancel := Nothing)
    else
      base.(dir := Synced, intent := Survive(s.intent, intentFate), receipt := Survive(s.receipt, receiptFate),
            cancel := Survive(s.cancel, cancelFate))
  }

  predicate InPhase(s: State, p: nat, phase: Phase) {
    p in s.processes && s.processes[p].phase == phase
  }

  predicate Holds(s: State, p: nat, phase: Phase) {
    InPhase(s, p, phase) && s.lock == Some(p)
  }

  predicate Enabled(s: State, step: Step) {
    match step
    case Spawn(p, role) => p !in s.processes && (role == Gate ==> s.launched)
    case MakeDir(p) => InPhase(s, p, Entering)
    case SyncRoot(p) => InPhase(s, p, RootSync)
    case Acquire(p) => InPhase(s, p, Waiting) && s.lock == None
    case Check(p) => Holds(s, p, Checking)
    case Create(p) => Holds(s, p, Creating)
    case Write(p) => Holds(s, p, Writing) && Target(s, s.processes[p].role).Record?
    case Sync(p) => Holds(s, p, Syncing) && Target(s, s.processes[p].role).Record?
    case Exec(p) => Holds(s, p, Execing) && s.processes[p].role == Gate
    case Decide(p) => InPhase(s, p, Deciding)
    // A terminal unit with an empty cgroup is reported only while nothing of the receiver runs.
    case Observe(p) => InPhase(s, p, Polling) && !s.alive
    case Crash(p) => p in s.processes
    case ReceiverExit => true
    case Reboot(_, _, _, _) => true
  }

  function Do(s: State, step: Step): State
    requires Enabled(s, step)
  {
    match step
    case Spawn(p, role) => s.(processes := s.processes[p := Process(role, Entering, BLIND)])
    case MakeDir(p) => if s.dir == Missing then SetPhase(s.(dir := Unsynced), p, RootSync) else SetPhase(s, p, Waiting)
    case SyncRoot(p) => SetPhase(s.(dir := Synced), p, Waiting)
    case Acquire(p) => SetPhase(s.(lock := Some(p)), p, Checking)
    case Check(p) => CheckStep(s, p)
    case Create(p) =>
      var role := s.processes[p].role;
      if Target(s, role).Record? then Exit(s, p)
      else SetPhase(SetTarget(s, role, Record(false, false, s.boot)), p, Writing)
    case Write(p) =>
      var role := s.processes[p].role;
      SetPhase(SetTarget(s, role, Target(s, role).(complete := true)), p, Syncing)
    case Sync(p) => SyncStep(s, p)
    case Exec(p) => Exit(s, p).(alive := true, execs := s.execs + 1)
    case Decide(p) => if Verdict(s, s.processes[p].seen).Some? then Exit(s, p) else SetPhase(s, p, Polling)
    case Observe(p) => Exit(s, p)
    case Crash(p) => Exit(s, p)
    case ReceiverExit => s.(alive := false)
    case Reboot(keepDir, i, r, c) => RebootStep(s, keepDir, i, r, c)
  }

  /** The proof a retire process prints with this step, if it prints one. */
  function Printed(s: State, step: Step): Option<Proof>
    requires Enabled(s, step)
  {
    match step
    case Decide(p) => Verdict(s, s.processes[p].seen)
    case Observe(p) => Some(FencedEmptyCgroup)
    case _ => None
  }

  ghost predicate Runs(s: State, steps: seq<Step>)
    decreases |steps|
  {
    steps == [] || (Enabled(s, steps[0]) && Runs(Do(s, steps[0]), steps[1..]))
  }

  ghost function After(s: State, steps: seq<Step>): State
    requires Runs(s, steps)
    decreases |steps|
  {
    if steps == [] then s else After(Do(s, steps[0]), steps[1..])
  }

  // ---- invariant -------------------------------------------------------------------------

  predicate Locked(phase: Phase) {
    phase in {Checking, Creating, Writing, Syncing, Execing}
  }

  /** Records of an older boot, and a directory that outlived a boot, are on stable storage. */
  ghost predicate Stable(s: State, r: Record) {
    r.Record? ==> s.dir != Missing && r.boot <= s.boot && (r.boot < s.boot ==> r.durable && s.dir == Synced)
  }

  /** What each process in a critical section has established about the records. */
  ghost predicate Section(s: State, p: Process) {
    match p.role
    case Start =>
      && (p.phase == Creating ==> s.intent.Nothing? && s.receipt.Nothing? && s.cancel.Nothing?)
      && (p.phase == Writing ==> s.intent == Record(false, false, s.boot) && s.receipt.Nothing? && s.cancel.Nothing?)
      && (p.phase == Syncing ==> s.intent == Record(true, false, s.boot) && s.receipt.Nothing? && s.cancel.Nothing?)
    case Gate =>
      && s.launched
      && (p.phase in {Creating, Writing, Syncing, Execing} ==>
            s.cancel.Nothing? && s.intent.Record? && s.intent.complete && s.intent.boot == s.boot && !s.alive)
      && (p.phase == Creating ==> s.receipt.Nothing?)
      && (p.phase == Writing ==> s.receipt == Record(false, false, s.boot))
      && (p.phase == Syncing ==> s.receipt == Record(true, false, s.boot))
      && (p.phase == Execing ==> s.receipt == Record(true, true, s.boot))
    case Retire =>
      && (p.phase == Creating ==> s.cancel.Nothing?)
      && (p.phase == Writing ==> s.cancel == Record(false, false, s.boot))
      && (p.phase == Syncing ==> s.cancel == Record(true, false, s.boot))
      && (p.phase in {Creating, Writing, Syncing} ==> !SnapshotRefused(s.(cancel := Nothing)) && p.seen == Snapshot(s))
      && (p.phase in {Deciding, Polling} ==> s.cancel.Record? && s.cancel.complete && s.cancel.boot <= s.boot
                                             && !SnapshotRefused(s) && p.seen == Snapshot(s))
      && (p.phase == Polling ==> s.receipt.Record? && s.intent.Record? && s.intent.boot == s.boot)
  }

  ghost predicate ProcessInv(s: State, p: nat)
    requires p in s.processes
  {
    var process := s.processes[p];
    && (Locked(process.phase) <==> s.lock == Some(p))
    && (process.phase != Entering ==> s.dir != Missing)
    && (process.phase == Execing ==> process.role == Gate)
    && (process.phase in {Deciding, Polling} ==> process.role == Retire)
    && Section(s, process)
  }

  ghost predicate Inv(s: State) {
    && (s.lock.Some? ==> s.lock.value in s.processes)
    && (forall p :: p in s.processes ==> ProcessInv(s, p))
    && Stable(s, s.intent) && Stable(s, s.receipt) && Stable(s, s.cancel)
    && (s.launched ==> s.intent == Record(true, true, s.boot))
    && (s.receipt.Record? ==> s.intent.Record? && s.intent.complete && s.intent.durable && s.receipt.boot == s.intent.boot)
    && (s.alive ==> s.receipt == Record(true, true, s.boot))
  }

  lemma InitialInv()
    ensures Inv(INITIAL)
  {
  }

  /** What a process has established stands as long as the records, the boot and the receiver do. */
  lemma SameSection(s: State, t: State, p: Process)
    requires (t.intent, t.receipt, t.cancel, t.boot) == (s.intent, s.receipt, s.cancel, s.boot)
    requires (t.launched, t.alive) == (s.launched, s.alive)
    ensures Section(t, p) == Section(s, p)
  {
  }

  /** A process may end at any point: at its own decision, on an error, or killed. */
  lemma ExitKeeps(s: State, p: nat)
    requires Inv(s) && p in s.processes
    ensures Inv(Exit(s, p))
  {
    hide Section;
    var t := Exit(s, p);
    forall q | q in t.processes
      ensures ProcessInv(t, q)
    {
      assert ProcessInv(s, q);
      SameSection(s, t, s.processes[q]);
    }
  }

  /** Moving on without the lock changes nothing any other process relies on. */
  lemma MoveKeeps(s: State, p: nat, phase: Phase)
    requires Inv(s) && p in s.processes && s.lock != Some(p) && !Locked(phase)
    requires ProcessInv(SetPhase(s, p, phase), p)
    ensures Inv(SetPhase(s, p, phase))
  {
    hide Section;
    var t := SetPhase(s, p, phase);
    forall q | q in t.processes
      ensures ProcessInv(t, q)
    {
      assert ProcessInv(s, q);
      SameSection(s, t, s.processes[q]);
    }
  }

  lemma SpawnKeeps(s: State, p: nat, role: Role)
    requires Inv(s) && Enabled(s, Spawn(p, role))
    ensures Inv(Do(s, Spawn(p, role)))
  {
    var t := Do(s, Spawn(p, role));
    assert ProcessInv(t, p);
    hide Section;
    forall q | q in t.processes && q != p
      ensures ProcessInv(t, q)
    {
      assert ProcessInv(s, q);
      SameSection(s, t, s.processes[q]);
    }
  }

  /** A directory that appears, or is synchronised, changes nothing any process relies on. */
  lemma DirKeeps(s: State, dir: Dir)
    requires Inv(s) && dir != Missing && (s.dir == Synced ==> dir == Synced)
    ensures Inv(s.(dir := dir))
  {
  }

  lemma MakeDirKeeps(s: State, p: nat)
    requires Inv(s) && Enabled(s, MakeDir(p))
    ensures Inv(Do(s, MakeDir(p)))
  {
    if s.dir != Missing {
      MoveKeeps(s, p, Waiting);
    } else {
      DirKeeps(s, Unsynced);
      MoveKeeps(s.(dir := Unsynced), p, RootSync);
    }
  }

  lemma SyncRootKeeps(s: State, p: nat)
    requires Inv(s) && Enabled(s, SyncRoot(p))
    ensures Inv(Do(s, SyncRoot(p)))
  {
    DirKeeps(s, Synced);
    MoveKeeps(s.(dir := Synced), p, Waiting);
  }

  lemma AcquireKeeps(s: State, p: nat)
    requires Inv(s) && Enabled(s, Acquire(p))
    ensures Inv(Do(s, Acquire(p)))
  {
  }

  lemma StartCheckKeeps(s: State, p: nat)
    requires Inv(s) && Holds(s, p, Checking) && s.processes[p].role == Start
    ensures Inv(CheckStep(s, p))
  {
    ExitKeeps(s, p);
  }

  lemma GateCheckKeeps(s: State, p: nat)
    requires Inv(s) && Holds(s, p, Checking) && s.processes[p].role == Gate
    ensures Inv(CheckStep(s, p))
  {
    ExitKeeps(s, p);
  }

  lemma RetireCheckKeeps(s: State, p: nat)
    requires Inv(s) && Holds(s, p, Checking) && s.processes[p].role == Retire
    ensures Inv(CheckStep(s, p))
  {
    if SnapshotRefused(s) {
      ExitKeeps(s, p);
    } else if s.cancel.Record? {
      TombstoneReadKeeps(s, p);
    }
  }

  lemma TombstoneReadKeeps(s: State, p: nat)
    requires Inv(s) && Holds(s, p, Checking) && s.processes[p].role == Retire
    requires !SnapshotRefused(s) && s.cancel.Record?
    ensures Inv(CheckStep(s, p))
  {
  }

  lemma CreateKeeps(s: State, p: nat)
    requires Inv(s) && Enabled(s, Create(p))
    ensures Inv(Do(s, Create(p)))
  {
    ExitKeeps(s, p);
  }

  lemma WriteKeeps(s: State, p: nat)
    requires Inv(s) && Enabled(s, Write(p))
    ensures Inv(Do(s, Write(p)))
  {
  }

  lemma SyncKeeps(s: State, p: nat)
    requires Inv(s) && Enabled(s, Sync(p))
    ensures Inv(Do(s, Sync(p)))
  {
    ExitKeeps(s, p);
  }

  lemma ExecKeeps(s: State, p: nat)
    requires Inv(s) && Enabled(s, Exec(p))
    ensures Inv(Do(s, Exec(p)))
  {
    ExitKeeps(s, p);
  }

  lemma RebootKeeps(s: State, keepDir: bool, i: Fate, r: Fate, c: Fate)
    requires Inv(s)
    ensures Inv(RebootStep(s, keepDir, i, r, c))
  {
    hide ProcessInv, Section;
  }

  lemma DecideKeeps(s: State, p: nat)
    requires Inv(s) && Enabled(s, Decide(p))
    ensures Inv(Do(s, Decide(p)))
  {
    ExitKeeps(s, p);
    if Verdict(s, s.processes[p].seen).None? {
      MoveKeeps(s, p, Polling);
    }
  }

  lemma ReceiverExitKeeps(s: State)
    requires Inv(s)
    ensures Inv(Do(s, ReceiverExit))
  {
  }

  lemma StepKeeps(s: State, step: Step)
    requires Inv(s) && Enabled(s, step)
    ensures Inv(Do(s, step))
  {
    hide Inv;
    match step
    case Spawn(p, role) => SpawnKeeps(s, p, role);
    case MakeDir(p) => MakeDirKeeps(s, p);
    case SyncRoot(p) => SyncRootKeeps(s, p);
    case Acquire(p) => AcquireKeeps(s, p);
    case Check(p) =>
      match s.processes[p].role {
        case Start => StartCheckKeeps(s, p);
        case Gate => GateCheckKeeps(s, p);
        case Retire => RetireCheckKeeps(s, p);
      }
    case Create(p) => CreateKeeps(s, p);
    case Write(p) => WriteKeeps(s, p);
    case Sync(p) => SyncKeeps(s, p);
    case Exec(p) => ExecKeeps(s, p);
    case Decide(p) => DecideKeeps(s, p);
    case Observe(p) => ExitKeeps(s, p);
    case Crash(p) => ExitKeeps(s, p);
    case ReceiverExit => ReceiverExitKeeps(s);
    case Reboot(keepDir, i, r, c) => RebootKeeps(s, keepDir, i, r, c);
  }

  // ---- the fence -------------------------------------------------------------------------

  /** Some record of the attempt, and the directory that names it, are on stable storage. */
  predicate Anchored(s: State) {
    && s.dir == Synced
    && (|| (s.intent.Record? && s.intent.durable)
        || (s.receipt.Record? && s.receipt.durable)
        || (s.cancel.Record? && s.cancel.durable))
  }

  /** A reboot after which everything written is still there, synchronised or not. */
  predicate Lossless(step: Step) {
    step.Reboot? ==> step.keepDir && step.intentFate == Kept && step.receiptFate == Kept && step.cancelFate == Kept
  }

  predicate PastCheck(process: Process) {
    process.role != Retire && process.phase in {Creating, Writing, Syncing, Execing}
  }

  /** Nothing runs, nobody is on the way to an exec, and every later check will refuse. */
  ghost predicate Fenced(lossless: bool, s: State) {
    && !s.alive && StartRefused(s) && GateRefused(s)
    && (forall p :: p in s.processes ==> !PastCheck(s.processes[p]))
    && (lossless || Anchored(s))
  }

  lemma FencedStep(lossless: bool, s: State, step: Step)
    requires Inv(s) && Fenced(lossless, s) && Enabled(s, step) && (lossless ==> Lossless(step))
    ensures Fenced(lossless, Do(s, step)) && Do(s, step).execs == s.execs
  {
    hide Inv;
    match step
    case Check(p) => FencedCheck(lossless, s, p);
    case Create(p) => FencedRecord(lossless, s, step);
    case Write(p) => FencedRecord(lossless, s, step);
    case Sync(p) => FencedRecord(lossless, s, step);
    case Reboot(keepDir, i, r, c) => FencedReboot(lossless, s, keepDir, i, r, c);
    case _ => FencedMove(lossless, s, step);
  }

  lemma FencedMove(lossless: bool, s: State, step: Step)
    requires Fenced(lossless, s) && Enabled(s, step)
    requires !step.Check? && !step.Create? && !step.Write? && !step.Sync? && !step.Reboot?
    ensures Fenced(lossless, Do(s, step)) && Do(s, step).execs == s.execs
  {
    hide StartRefused, GateRefused;
    assert StartRefused(Do(s, step)) == StartRefused(s) && GateRefused(Do(s, step)) == GateRefused(s) by {
      SameRefusals(s, step);
    }
  }

  /** A step that touches no record and no boot changes no refusal. */
  lemma SameRefusals(s: State, step: Step)
    requires Enabled(s, step) && !step.Check? && !step.Create? && !step.Write? && !step.Sync? && !step.Reboot?
    ensures StartRefused(Do(s, step)) == StartRefused(s) && GateRefused(Do(s, step)) == GateRefused(s)
  {
    hide Enabled;
    var t := Do(s, step);
    assert (t.intent, t.receipt, t.cancel, t.boot) == (s.intent, s.receipt, s.cancel, s.boot);
  }

  lemma FencedCheck(lossless: bool, s: State, p: nat)
    requires Inv(s) && Fenced(lossless, s) && Enabled(s, Check(p))
    ensures Fenced(lossless, CheckStep(s, p)) && CheckStep(s, p).execs == s.execs
  {
  }

  /** Under a fence only a retire can still be writing a record, and it only adds to it. */
  lemma FencedRecord(lossless: bool, s: State, step: Step)
    requires Inv(s) && Fenced(lossless, s) && Enabled(s, step) && (step.Create? || step.Write? || step.Sync?)
    ensures Fenced(lossless, Do(s, step)) && Do(s, step).execs == s.execs
  {
  }

  /** Losing power under a fence: the new boot makes the intent stale, and one record is still there. */
  lemma FencedReboot(lossless: bool, s: State, keepDir: bool, i: Fate, r: Fate, c: Fate)
    requires Inv(s) && Fenced(lossless, s) && (lossless ==> Lossless(Reboot(keepDir, i, r, c)))
    ensures Fenced(lossless, RebootStep(s, keepDir, i, r, c))
  {
  }

  /**
   * The moment any proof is printed, the attempt is fenced as long as no reboot loses a record, and the
   * proof is the one the records and the receiver call for.
   */
  lemma PrintFences(s: State, step: Step)
    requires Inv(s) && Enabled(s, step) && Printed(s, step).Some?
    ensures Fenced(true, Do(s, step))
    ensures Printed(s, step) == Some(FencedPriorBoot) ==> Anchored(Do(s, step))
    ensures s.cancel.Record? && s.cancel.complete && (s.intent.Record? ==> s.intent.complete)
    ensures Printed(s, step).value ==
              if s.intent.Record? && s.intent.boot != s.boot then FencedPriorBoot
              else if s.receipt.Nothing? then FencedNeverStarted else FencedEmptyCgroup
    ensures Printed(s, step).value == FencedEmptyCgroup ==> !s.alive
  {
  }

  lemma {:induction false} FencedForever(lossless: bool, s: State, steps: seq<Step>)
    requires Inv(s) && Fenced(lossless, s) && Runs(s, steps)
    requires lossless ==> forall i :: 0 <= i < |steps| ==> Lossless(steps[i])
    ensures !After(s, steps).alive && After(s, steps).execs == s.execs
    decreases |steps|
  {
    hide Inv;
    if steps != [] {
      assert lossless ==> Lossless(steps[0]);
      FencedStep(lossless, s, steps[0]);
      StepKeeps(s, steps[0]);
      FencedForever(lossless, Do(s, steps[0]), steps[1..]);
    }
  }

  // ---- the fence is exactly as strong as what was synchronised -------------------------------

  lemma {:induction false} Extend(s: State, steps: seq<Step>, step: Step)
    requires Runs(s, steps) && Enabled(After(s, steps), step)
    ensures Runs(s, steps + [step]) && After(s, steps + [step]) == Do(After(s, steps), step)
    decreases |steps|
  {
    var all := steps + [step];
    if steps == [] {
      assert all[1..] == [];
    } else {
      assert all[0] == steps[0] && all[1..] == steps[1..] + [step];
      Extend(Do(s, steps[0]), steps[1..], step);
    }
  }

  lemma {:induction false} Concatenate(s: State, a: seq<Step>, b: seq<Step>)
    requires Runs(s, a) && Runs(After(s, a), b)
    ensures Runs(s, a + b) && After(s, a + b) == After(After(s, a), b)
    decreases |a|
  {
    if a == [] {
      assert a + b == b;
    } else {
      assert (a + b)[0] == a[0] && (a + b)[1..] == a[1..] + b;
      Concatenate(Do(s, a[0]), a[1..], b);
    }
  }

  /** An attempt directory with no trace of the attempt in it, or no directory at all. */
  predicate Clean(s: State) {
    && s.intent.Nothing? && s.receipt.Nothing? && s.cancel.Nothing?
    && s.lock == None && s.processes == map[]
  }

  /** A state in which one process, and nothing else, is at the given phase. */
  function Alone(s: State, role: Role, phase: Phase): State {
    s.(processes := map[0 := Process(role, phase, BLIND)], lock := if Locked(phase) then Some(0) else None)
  }

  /** An undisturbed process reaches the lock, making the directory if it has to. */
  function Approach(role: Role, dir: Dir): seq<Step> {
    [Spawn(0, role), MakeDir(0)] + (if dir == Missing then [SyncRoot(0)] else [])
  }

  /** A process that makes the directory synchronises it; one that finds it leaves it as it is. */
  function Made(dir: Dir): Dir {
    if dir == Missing then Synced else dir
  }

  lemma ApproachRuns(s: State, role: Role)
    requires s.lock == None && s.processes == map[] && (role == Gate ==> s.launched)
    ensures Runs(s, Approach(role, s.dir)) && After(s, Approach(role, s.dir)) == Alone(s.(dir := Made(s.dir)), role, Waiting)
  {
    hide Alone, Locked;
    Extend(s, [], Spawn(0, role));
    assert [] + [Spawn(0, role)] == [Spawn(0, role)];
    Extend(s, [Spawn(0, role)], MakeDir(0));
    var run := [Spawn(0, role)] + [MakeDir(0)];
    assert run == [Spawn(0, role), MakeDir(0)];
    if s.dir == Missing {
      Extend(s, run, SyncRoot(0));
    } else {
      assert run + [] == run;
    }
    AloneWaiting(s.(dir := Made(s.dir)), role);
  }

  lemma AloneWaiting(s: State, role: Role)
    requires s.lock == None
    ensures Alone(s, role, Waiting) == s.(processes := map[0 := Process(role, Waiting, BLIND)])
  {
  }

  /** From the lock to a written record, and one step more. */
  function Commit(last: Step): seq<Step> {
    [Acquire(0), Check(0), Create(0), Write(0), last]
  }

  const COMMIT: seq<Step> := Commit(Sync(0))

  lemma CommitRuns(s: State, role: Role)
    requires s.cancel.Nothing? && s.receipt.Nothing? && s.lock == None && role != Retire
    requires role == Start ==> s.intent.Nothing?
    requires role == Gate ==> s.intent == Record(true, true, s.boot)
    ensures var r := Record(true, true, s.boot);
            && Runs(Alone(s, role, Waiting), COMMIT)
            && After(Alone(s, role, Waiting), COMMIT) ==
               if role == Start then s.(intent := r, launched := true, processes := map[])
               else Alone(s.(receipt := r), Gate, Execing)
  {
    hide Enabled, Do, Alone;
    var r := Record(true, true, s.boot);
    var created, written := SetTarget(s, role, Record(false, false, s.boot)), SetTarget(s, role, Record(true, false, s.boot));
    AloneAcquires(s, role);
    AloneChecks(s, role);
    AloneCreates(s, role);
    AloneWrites(created, role);
    assert SetTarget(created, role, Record(true, false, s.boot)) == written;
    AloneSyncs(written, role);
    FiveSteps(Alone(s, role, Waiting), Alone(s, role, Checking), Alone(s, role, Creating),
              Alone(created, role, Writing), Alone(written, role, Syncing), Sync(0));
  }

  lemma AloneAcquires(s: State, role: Role)
    ensures Enabled(Alone(s, role, Waiting), Acquire(0))
    ensures Do(Alone(s, role, Waiting), Acquire(0)) == Alone(s, role, Checking)
  {
  }

  lemma AloneChecks(s: State, role: Role)
    requires role != Retire && (if role == Start then !StartRefused(s) else !GateRefused(s))
    ensures Enabled(Alone(s, role, Checking), Check(0))
    ensures Do(Alone(s, role, Checking), Check(0)) == Alone(s, role, Creating)
  {
  }

  lemma AloneCreates(s: State, role: Role)
    requires Target(s, role).Nothing?
    ensures Enabled(Alone(s, role, Creating), Create(0))
    ensures Do(Alone(s, role, Creating), Create(0)) == Alone(SetTarget(s, role, Record(false, false, s.boot)), role, Writing)
  {
  }

  lemma AloneWrites(s: State, role: Role)
    requires Target(s, role).Record?
    ensures Enabled(Alone(s, role, Writing), Write(0))
    ensures Do(Alone(s, role, Writing), Write(0)) == Alone(SetTarget(s, role, Target(s, role).(complete := true)), role, Syncing)
  {
  }

  lemma AloneSyncs(s: State, role: Role)
    requires role != Retire && Target(s, role).Record? && s.lock == None
    ensures Enabled(Alone(s, role, Syncing), Sync(0))
    ensures var v := SetTarget(s, role, Target(s, role).(durable := true));
            Do(Alone(s, role, Syncing), Sync(0)) ==
            if role == Start then v.(launched := true, processes := map[]) else Alone(v, Gate, Execing)
  {
    assert map[0 := Process(role, Syncing, BLIND)] - {0} == map[];
  }

  /** A run given by its states is a run. */
  lemma {:induction false} Chain(states: seq<State>, steps: seq<Step>)
    requires |states| == |steps| + 1
    requires forall i :: 0 <= i < |steps| ==> Enabled(states[i], steps[i]) && Do(states[i], steps[i]) == states[i + 1]
    ensures Runs(states[0], steps) && After(states[0], steps) == states[|steps|]
    decreases |steps|
  {
    hide Do, Enabled;
    if steps != [] {
      assert Do(states[0], steps[0]) == states[1];
      Chain(states[1..], steps[1..]);
    }
  }

  lemma FiveSteps(w: State, c: State, d: State, e: State, f: State, last: Step)
    requires Enabled(w, Acquire(0)) && Do(w, Acquire(0)) == c
    requires Enabled(c, Check(0)) && Do(c, Check(0)) == d
    requires Enabled(d, Create(0)) && Do(d, Create(0)) == e
    requires Enabled(e, Write(0)) && Do(e, Write(0)) == f
    requires Enabled(f, last)
    ensures Runs(w, Commit(last)) && After(w, Commit(last)) == Do(f, last)
  {
    hide Enabled, Do, Runs, After;
    Chain([w, c, d, e, f, Do(f, last)], Commit(last));
  }

  function Undisturbed(role: Role, dir: Dir): seq<Step> {
    Approach(role, dir) + COMMIT
  }

  lemma UndisturbedStart(s: State)
    requires Clean(s)
    ensures var steps := Undisturbed(Start, s.dir);
            && Runs(s, steps)
            && After(s, steps) == s.(dir := Made(s.dir), intent := Record(true, true, s.boot), launched := true)
  {
    hide Enabled, Do, Alone, Runs, After;
    ApproachRuns(s, Start);
    CommitRuns(s.(dir := Made(s.dir)), Start);
    Concatenate(s, Approach(Start, s.dir), COMMIT);
  }

  /** A gate after its start comes to the exec. */
  lemma UndisturbedGate(s: State)
    requires s.dir != Missing && s.intent == Record(true, true, s.boot) && s.receipt.Nothing? && s.cancel.Nothing?
    requires s.lock == None && s.processes == map[] && s.launched
    ensures var steps := Undisturbed(Gate, s.dir); var t := Alone(s.(receipt := Record(true, true, s.boot)), Gate, Execing);
            && Runs(s, steps) && After(s, steps) == t && Enabled(t, Exec(0))
            && Do(t, Exec(0)).alive && Do(t, Exec(0)).execs == s.execs + 1
  {
    hide Runs, After;
    ApproachRuns(s, Gate);
    CommitRuns(s, Gate);
    assert s.(dir := Made(s.dir)) == s;
    Concatenate(s, Approach(Gate, s.dir), COMMIT);
  }

  /** A run that brings the receiver up after all, when nothing of the attempt is on stable storage. */
  function Escape(s: State): seq<Step> {
    [Reboot(false, Lost, Lost, Lost)]
    + Undisturbed(Start, if s.dir == Synced then Synced else Missing) + (Undisturbed(Gate, Synced) + [Exec(0)])
  }

  lemma UnanchoredEscapes(s: State)
    requires Inv(s) && !Anchored(s)
    ensures Runs(s, Escape(s)) && After(s, Escape(s)).alive && After(s, Escape(s)).execs == s.execs + 1
  {
    var reboot := [Reboot(false, Lost, Lost, Lost)];
    Extend(s, [], Reboot(false, Lost, Lost, Lost));
    assert [] + reboot == reboot;
    var r := After(s, reboot);
    assert Clean(r);
    UndisturbedStart(r);
    var up := After(r, Undisturbed(Start, r.dir));
    UndisturbedGate(up);
    Extend(up, Undisturbed(Gate, Synced), Exec(0));
    Concatenate(s, reboot, Undisturbed(Start, r.dir));
    Concatenate(s, reboot + Undisturbed(Start, r.dir), Undisturbed(Gate, Synced) + [Exec(0)]);
  }

  /** No continuation of this state ever runs a receiver of the attempt. */
  ghost predicate NeverAgain(s: State) {
    forall steps :: Runs(s, steps) ==> !After(s, steps).alive && After(s, steps).execs == s.execs
  }

  /**
   * What a printed proof is worth, exactly: in every interleaving of starts, gates, retires, crashes
   * and power losses, no receiver of the attempt is alive or executed after a proof is printed if
   * and only if, when it is printed, some record of the attempt is on stable storage.  That is
   * always so for a proof of a prior boot.
   */
  lemma FenceExact(s: State, step: Step)
    requires Inv(s) && Enabled(s, step) && Printed(s, step).Some?
    ensures NeverAgain(Do(s, step)) <==> Anchored(Do(s, step))
    ensures Printed(s, step) == Some(FencedPriorBoot) ==> NeverAgain(Do(s, step))
  {
    var t := Do(s, step);
    StepKeeps(s, step);
    PrintFences(s, step);
    if Anchored(t) {
      forall steps | Runs(t, steps)
        ensures !After(t, steps).alive && After(t, steps).execs == t.execs
      {
        FencedForever(false, t, steps);
      }
    } else {
      UnanchoredEscapes(t);
      assert !NeverAgain(t);
    }
  }

  /** Without lost writes the fence needs no condition: every printed proof holds for good. */
  lemma FenceWithoutLoss(s: State, step: Step, steps: seq<Step>)
    requires Inv(s) && Enabled(s, step) && Printed(s, step).Some? && Runs(Do(s, step), steps)
    requires forall i :: 0 <= i < |steps| ==> Lossless(steps[i])
    ensures !After(Do(s, step), steps).alive && After(Do(s, step), steps).execs == Do(s, step).execs
  {
    StepKeeps(s, step);
    PrintFences(s, step);
    FencedForever(true, Do(s, step), steps);
  }

  // ---- where the condition comes from --------------------------------------------------------

  /** Every reachable state satisfies the invariant the results above start from. */
  lemma {:induction false} ReachableInv(s: State, steps: seq<Step>)
    requires Inv(s) && Runs(s, steps)
    ensures Inv(After(s, steps))
    decreases |steps|
  {
    if steps != [] {
      StepKeeps(s, steps[0]);
      ReachableInv(Do(s, steps[0]), steps[1..]);
    }
  }

  /** Once a record is on stable storage under a synchronised directory, the attempt stays anchored. */
  lemma AnchoredStep(s: State, step: Step)
    requires Inv(s) && Anchored(s) && Enabled(s, step)
    ensures Anchored(Do(s, step))
  {
    hide Inv;
  }

  lemma {:induction false} AnchoredStays(s: State, steps: seq<Step>)
    requires Inv(s) && Anchored(s) && Runs(s, steps)
    ensures Anchored(After(s, steps))
    decreases |steps|
  {
    hide Inv, Anchored;
    if steps != [] {
      StepKeeps(s, steps[0]);
      AnchoredStep(s, steps[0]);
      AnchoredStays(Do(s, steps[0]), steps[1..]);
    }
  }

  /** A start, gate or retire that lives to synchronise its record anchors the attempt, unless the directory is not. */
  lemma SyncAnchors(s: State, p: nat)
    requires Inv(s) && Enabled(s, Sync(p))
    ensures Anchored(Do(s, Sync(p))) <==> s.dir == Synced
  {
  }

  /** A retire killed between writing and synchronising its tombstone. */
  const INTERRUPTED: seq<Step> := Approach(Retire, Missing) + Commit(Crash(0))

  /** Another retire, which finds that tombstone and reads it. */
  const BORROWING: seq<Step> := Approach(Retire, Synced) + [Acquire(0), Check(0)]

  const UNSYNCED_TOMBSTONE: State := INITIAL.(dir := Synced, cancel := Record(true, false, 0))

  const BORROWED: State := UNSYNCED_TOMBSTONE.(processes := map[0 := Process(Retire, Deciding, BLIND)])

  /**
   * The condition is real: a reachable run prints fenced_never_started over a tombstone that no
   * one has synchronised, and a power loss then lets the attempt start after all.
   */
  lemma BorrowedTombstone()
    ensures Runs(INITIAL, INTERRUPTED + BORROWING) && After(INITIAL, INTERRUPTED + BORROWING) == BORROWED
    ensures Enabled(BORROWED, Decide(0)) && Printed(BORROWED, Decide(0)) == Some(FencedNeverStarted)
    ensures !NeverAgain(Do(BORROWED, Decide(0)))
  {
    hide Inv, NeverAgain;
    RetireUpTo();
    RetireReads();
    Concatenate(INITIAL, INTERRUPTED, BORROWING);
    InitialInv();
    ReachableInv(INITIAL, INTERRUPTED + BORROWING);
    FenceExact(BORROWED, Decide(0));
  }

  lemma AloneRetires(s: State)
    requires s.intent.Nothing? && s.receipt.Nothing? && (s.cancel.Record? ==> s.cancel.complete)
    requires s.lock == None
    ensures Enabled(Alone(s, Retire, Checking), Check(0))
    ensures Do(Alone(s, Retire, Checking), Check(0)) ==
            if s.cancel.Nothing? then Alone(s, Retire, Creating) else Alone(s, Retire, Deciding)
  {
  }

  lemma AloneCrashes(s: State)
    requires s.lock == None && s.processes == map[]
    ensures Enabled(Alone(s, Retire, Syncing), Crash(0))
    ensures Do(Alone(s, Retire, Syncing), Crash(0)) == s
  {
    assert map[0 := Process(Retire, Syncing, BLIND)] - {0} == map[];
  }

  lemma RetireUpTo()
    ensures Runs(INITIAL, INTERRUPTED) && After(INITIAL, INTERRUPTED) == UNSYNCED_TOMBSTONE
  {
    hide Enabled, Do, Alone;
    var s, created := INITIAL.(dir := Synced), INITIAL.(dir := Synced, cancel := Record(false, false, 0));
    ApproachRuns(INITIAL, Retire);
    AloneAcquires(s, Retire);
    AloneRetires(s);
    AloneCreates(s, Retire);
    AloneWrites(created, Retire);
    AloneCrashes(UNSYNCED_TOMBSTONE);
    FiveSteps(Alone(s, Retire, Waiting), Alone(s, Retire, Checking), Alone(s, Retire, Creating),
              Alone(created, Retire, Writing), Alone(UNSYNCED_TOMBSTONE, Retire, Syncing), Crash(0));
    Concatenate(INITIAL, Approach(Retire, Missing), Commit(Crash(0)));
  }

  lemma RetireReads()
    ensures Runs(UNSYNCED_TOMBSTONE, BORROWING) && After(UNSYNCED_TOMBSTONE, BORROWING) == BORROWED
  {
    hide Enabled, Do;
    var s := UNSYNCED_TOMBSTONE;
    ApproachRuns(s, Retire);
    AloneAcquires(s, Retire);
    AloneRetires(s);
    assert [Acquire(0), Check(0)][1..] == [Check(0)];
    assert [Check(0)][1..] == [];
    Concatenate(s, Approach(Retire, Synced), [Acquire(0), Check(0)]);
  }

  // ---- at most one execution -----------------------------------------------------------------

  /** The attempt's one execution is behind it: its receipt refuses every later gate. */
  ghost predicate Spent(lossless: bool, s: State) {
    && s.receipt.Record? && (lossless || (s.dir == Synced && s.receipt.durable))
    && (forall p :: p in s.processes && s.processes[p].role == Gate ==> !PastCheck(s.processes[p]))
  }

  lemma SpentStep(lossless: bool, s: State, step: Step)
    requires Inv(s) && Spent(lossless, s) && Enabled(s, step) && (lossless ==> Lossless(step))
    ensures Spent(lossless, Do(s, step)) && Do(s, step).execs == s.execs
  {
    match step
    case Check(p) => SpentCheck(lossless, s, p);
    case Create(p) => SpentRecord(lossless, s, step);
    case Write(p) => SpentRecord(lossless, s, step);
    case Sync(p) => SpentRecord(lossless, s, step);
    case _ => hide Inv;
  }

  lemma SpentCheck(lossless: bool, s: State, p: nat)
    requires Inv(s) && Spent(lossless, s) && Enabled(s, Check(p))
    ensures Spent(lossless, CheckStep(s, p)) && CheckStep(s, p).execs == s.execs
  {
  }

  lemma SpentRecord(lossless: bool, s: State, step: Step)
    requires Inv(s) && Spent(lossless, s) && Enabled(s, step) && (step.Create? || step.Write? || step.Sync?)
    ensures Spent(lossless, Do(s, step)) && Do(s, step).execs == s.execs
  {
  }

  /** Only an exec counts as one. */
  lemma OnlyExecExecutes(s: State, step: Step)
    requires Enabled(s, step) && !step.Exec?
    ensures Do(s, step).execs == s.execs
  {
  }

  lemma {:induction false} SpentForever(lossless: bool, s: State, steps: seq<Step>)
    requires Inv(s) && Spent(lossless, s) && Runs(s, steps)
    requires lossless ==> forall i :: 0 <= i < |steps| ==> Lossless(steps[i])
    ensures After(s, steps).execs == s.execs
    decreases |steps|
  {
    hide Enabled, Do, Inv, Spent;
    if steps != [] {
      assert lossless ==> Lossless(steps[0]);
      SpentStep(lossless, s, steps[0]);
      StepKeeps(s, steps[0]);
      SpentForever(lossless, Do(s, steps[0]), steps[1..]);
    }
  }

  lemma ExecSpends(s: State, p: nat)
    requires Inv(s) && Enabled(s, Exec(p))
    ensures Spent(true, Do(s, Exec(p))) && (s.dir == Synced ==> Spent(false, Do(s, Exec(p))))
    ensures Do(s, Exec(p)).execs == s.execs + 1
  {
  }

  /**
   * No second execution, exactly: after the receiver has been executed, no run whatever executes it
   * again if and only if the attempt directory itself had been synchronised.
   */
  lemma ExecOnceExact(s: State, p: nat)
    requires Inv(s) && Enabled(s, Exec(p))
    ensures var t := Do(s, Exec(p));
            (forall steps :: Runs(t, steps) ==> After(t, steps).execs == t.execs) <==> s.dir == Synced
  {
    var t := Do(s, Exec(p));
    StepKeeps(s, Exec(p));
    ExecSpends(s, p);
    if s.dir == Synced {
      forall steps | Runs(t, steps)
        ensures After(t, steps).execs == t.execs
      {
        SpentForever(false, t, steps);
      }
    } else {
      UnanchoredEscapes(t);
    }
  }

  /** A process killed between making the attempt directory and synchronising it. */
  const ABANDONED: seq<Step> := [Spawn(1, Start), MakeDir(1), Crash(1)]

  const UNSYNCED: State := INITIAL.(dir := Unsynced)

  /** Then a start and its gate, which find the directory and use it. */
  const UNSYNCED_EXEC: seq<Step> := ABANDONED + (Undisturbed(Start, Unsynced) + Undisturbed(Gate, Unsynced))

  const UP: Record := Record(true, true, 0)

  const LAUNCHED: State := UNSYNCED.(intent := UP, launched := true)

  const ABOUT_TO_EXEC: State := Alone(LAUNCHED.(receipt := UP), Gate, Execing)

  lemma AbandonedRuns()
    ensures Runs(INITIAL, ABANDONED) && After(INITIAL, ABANDONED) == UNSYNCED
  {
    var a := INITIAL.(processes := map[1 := Process(Start, Entering, BLIND)]);
    var b := UNSYNCED.(processes := map[1 := Process(Start, RootSync, BLIND)]);
    assert b.processes - {1} == map[];
    Chain([INITIAL, a, b, UNSYNCED], ABANDONED);
  }

  /**
   * That condition is real too: a reachable run comes to the exec under a directory no one has
   * synchronised, and from there a power loss lets the attempt be executed twice.
   */
  lemma UnsyncedExec()
    ensures Runs(INITIAL, UNSYNCED_EXEC) && After(INITIAL, UNSYNCED_EXEC) == ABOUT_TO_EXEC
    ensures ABOUT_TO_EXEC.dir == Unsynced && Enabled(ABOUT_TO_EXEC, Exec(0))
    ensures var t := Do(ABOUT_TO_EXEC, Exec(0));
            t.execs == 1 && Runs(t, Escape(t)) && After(t, Escape(t)).execs == 2
  {
    hide Runs, After, Inv;
    AbandonedRuns();
    UndisturbedStart(UNSYNCED);
    UndisturbedGate(LAUNCHED);
    Concatenate(UNSYNCED, Undisturbed(Start, Unsynced), Undisturbed(Gate, Unsynced));
    Concatenate(INITIAL, ABANDONED, Undisturbed(Start, Unsynced) + Undisturbed(Gate, Unsynced));
    InitialInv();
    ReachableInv(INITIAL, UNSYNCED_EXEC);
    StepKeeps(ABOUT_TO_EXEC, Exec(0));
    UnanchoredEscapes(Do(ABOUT_TO_EXEC, Exec(0)));
  }

  /** From nothing, with no write lost to a reboot, an attempt is executed at most once. */
  lemma {:induction false} AtMostOneExecution(s: State, steps: seq<Step>)
    requires Inv(s) && Runs(s, steps) && (s.execs == 0 || (s.execs == 1 && Spent(true, s)))
    requires forall i :: 0 <= i < |steps| ==> Lossless(steps[i])
    ensures After(s, steps).execs <= 1
    decreases |steps|
  {
    hide Enabled, Do, Inv;
    if s.execs == 1 {
      SpentForever(true, s, steps);
    } else if steps != [] {
      var step := steps[0];
      assert Lossless(step);
      StepKeeps(s, step);
      match step {
        case Exec(p) => ExecSpends(s, p);
        case _ => OnlyExecExecutes(s, step);
      }
      AtMostOneExecution(Do(s, step), steps[1..]);
    }
  }
}
