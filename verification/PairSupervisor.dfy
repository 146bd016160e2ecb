// The bounded restart supervisor of one sender and receiver pair: attempts, handshakes, cleanup and the
// retirement proof each attempt owes before the next may start (tools/process_pair.py).
module PairSupervisor {
  import opened Timing

  datatype Role = Receiver | Sender

  /** The configuration fields the supervisor branches on. */
  datatype Config = Config(maxAttempts: nat, retires: bool, remote: bool)

  /** Reason codes a running attempt can raise. */
  datatype PairError =
    | SessionEntropy | RetirementEntropy
    | SpawnFailed(role: Role) | Exited(role: Role) | StdoutEof(role: Role)
    | StdinWriteFailed(role: Role) | StdinBackpressure(role: Role) | OutputFailed(role: Role)
    | InvalidControl | UnexpectedControl
    | SessionMismatch | ClockMismatch | ReusedClock
    | HandshakeTimeout(role: Role) | OverallDeadline

  datatype Reason =
    | Attempt(error: PairError)
    | LockUnavailable | Interrupted
    | ExitedBeforeStop(role: Role) | ForcedStop(role: Role) | NonzeroStop(role: Role) | FinalOutput(role: Role) | FinalControl
    | NotRetired | UncleanStop | RetirementUnverified

  datatype Fault = Fault(attempt: nat, reason: Reason)
  datatype Status = Failed | Completed | CompletedWithRecovery

  /** What the outside world saw, in order. */
  datatype Event =
    | Launched(role: Role, attempt: nat, session: u64, clock: u64)
    | Ready(attempt: nat, clock: u64)
    | Acknowledged(attempt: nat)
    | Retired(attempt: nat)

  // ---- the environment -------------------------------------------------------------------

  /** One pass over the children: nothing yet, a control message, a fault, or the user's interrupt. */
  datatype Poll = Quiet | Control(session: u64, clock: u64) | Broken(error: PairError) | Interrupt

  /** How one child ends, as the cleanup observes it. */
  datatype Ending = Ending(gone: bool, stops: bool, killable: bool, reaped: bool, nonzero: bool, output: bool, control: bool)

  datatype Cleanup = Cleanup(endings: map<Role, Ending>, interruptGrace: bool, interruptProof: bool, tokens: seq<u64>, proved: bool)

  datatype Script = Script(
    late: bool, sessions: seq<u64>, tokens: seq<u64>, receiverSpawns: bool, ready: seq<Poll>, readyLate: bool,
    senderSpawns: bool, started: seq<Poll>, startedLate: bool, running: seq<Poll>, cleanup: Cleanup)

  const CLEAN_EXIT: Ending := Ending(true, true, true, true, false, false, false)

  function EndingOf(c: Cleanup, role: Role): Ending {
    if role in c.endings then c.endings[role] else CLEAN_EXIT
  }

  // ---- pure pieces -----------------------------------------------------------------------

  /** With retirement proofs, only these errors leave the source's identity beyond doubt. */
  predicate Recoverable(e: PairError) {
    match e
    case SpawnFailed(_) => true
    case Exited(_) => true
    case StdoutEof(_) => true
    case StdinWriteFailed(role) => role == Receiver
    case StdinBackpressure(role) => role == Receiver
    case HandshakeTimeout(_) => true
    case _ => false
  }

  /** Errors by which a child reports its own end or failure. */
  predicate OwnFailure(e: PairError, role: Role) {
    match e
    case Exited(r) => r == role
    case StdoutEof(r) => r == role
    case StdinWriteFailed(r) => r == role
    case StdinBackpressure(r) => r == role
    case OutputFailed(r) => r == role
    case _ => false
  }

  /** Forced kills and failed stops, as the fault list records them. */
  ghost function CountKills(faults: seq<Fault>): nat {
    if faults == [] then 0
    else CountKills(faults[..|faults| - 1]) + if faults[|faults| - 1].reason.ForcedStop? then 1 else 0
  }

  predicate IsStopFailure(r: Reason) {
    r.ExitedBeforeStop? || r.NonzeroStop? || r.FinalOutput? || r.FinalControl?
  }

  ghost function CountStops(faults: seq<Fault>): nat {
    if faults == [] then 0
    else CountStops(faults[..|faults| - 1]) + if IsStopFailure(faults[|faults| - 1].reason) then 1 else 0
  }

  /** Nothing was killed, and no stop failed, exactly when no fault says so. */
  lemma {:induction false} NoneCounted(faults: seq<Fault>)
    ensures CountKills(faults) == 0 <==> forall f :: f in faults ==> !f.reason.ForcedStop?
    ensures CountStops(faults) == 0 <==> forall f :: f in faults ==>
              !(f.reason.ExitedBeforeStop? || f.reason.NonzeroStop? || f.reason.FinalOutput? || f.reason.FinalControl?)
    decreases |faults|
  {
    if faults != [] {
      NoneCounted(faults[..|faults| - 1]);
    }
  }

  lemma NoFaultsNoKills(faults: seq<Fault>)
    ensures faults == [] ==> CountKills(faults) == 0 && CountStops(faults) == 0
  {
  }

  lemma CountOneMore(faults: seq<Fault>, f: Fault)
    ensures CountKills(faults + [f]) == CountKills(faults) + if f.reason.ForcedStop? then 1 else 0
    ensures CountStops(faults + [f]) == CountStops(faults) + if IsStopFailure(f.reason) then 1 else 0
  {
    assert (faults + [f])[..|faults + [f]| - 1] == faults;
  }

  /** With proofs on, a receiver's own ending is settled by its proof instead. */
  predicate Terminal(c: Config, role: Role) {
    !c.retires || role != Receiver
  }

  /** The faults a cleanup appends, child by child: leaving early, being killed, and ending badly. */
  ghost function AskFaults(n: nat, kids: seq<Role>, c: Cleanup, succeeded: bool): seq<Fault> {
    if kids == [] then []
    else
      var role := kids[|kids| - 1];
      AskFaults(n, kids[..|kids| - 1], c, succeeded)
      + if EndingOf(c, role).gone && succeeded then [Fault(n, ExitedBeforeStop(role))] else []
  }

  predicate Straggler(e: Ending) {
    !e.gone && !e.stops
  }

  ghost function KillFaults(n: nat, kids: seq<Role>, c: Cleanup): seq<Fault> {
    if kids == [] then []
    else
      var role := kids[|kids| - 1];
      KillFaults(n, kids[..|kids| - 1], c)
      + if Straggler(EndingOf(c, role)) && EndingOf(c, role).killable then [Fault(n, ForcedStop(role))] else []
  }

  /** Asked to stop, reaped, and with a nonzero exit status. */
  predicate BadExit(e: Ending) {
    !e.gone && e.reaped && e.nonzero
  }

  function ExitFaults(n: nat, role: Role, e: Ending): seq<Fault> {
    if BadExit(e) then [Fault(n, NonzeroStop(role))] else []
  }

  /** Output trouble is not reported twice when it already ended the attempt. */
  function OutputFaults(n: nat, role: Role, e: Ending, known: bool): seq<Fault> {
    (if e.output && !known then [Fault(n, FinalOutput(role))] else []) + (if e.control then [Fault(n, FinalControl)] else [])
  }

  ghost function ReapFaults(n: nat, kids: seq<Role>, c: Cleanup, before: seq<Fault>): seq<Fault> {
    if kids == [] then []
    else
      var role := kids[|kids| - 1];
      var e := EndingOf(c, role);
      ReapFaults(n, kids[..|kids| - 1], c, before)
      + (ExitFaults(n, role, e) + OutputFaults(n, role, e, Fault(n, Attempt(OutputFailed(role))) in before))
  }

  /** Everything one cleanup finds, in the order it is reported. */
  ghost function CleanupFaults(n: nat, kids: seq<Role>, c: Cleanup, succeeded: bool, before: seq<Fault>): seq<Fault> {
    var asked := AskFaults(n, kids, c, succeeded);
    var killed := KillFaults(n, kids, c);
    asked + killed + ReapFaults(n, kids, c, before + asked + killed)
  }

  // ---- what the log must satisfy -----------------------------------------------------------

  predicate Launch(e: Event) {
    e.Launched? && e.role == Receiver
  }

  /** Attempts are numbered in order, and their sessions are never used twice. */
  ghost predicate DistinctSessions(log: seq<Event>) {
    forall i, j :: 0 <= i < j < |log| && Launch(log[i]) && Launch(log[j]) ==>
      log[i].attempt < log[j].attempt && log[i].session != log[j].session
  }

  ghost predicate DistinctClocks(log: seq<Event>) {
    forall i, j :: 0 <= i < j < |log| && log[i].Ready? && log[j].Ready? ==> log[i].clock != log[j].clock
  }

  /** A receiver starts only after every receiver before it has been proved retired. */
  ghost predicate RetiredFirst(log: seq<Event>) {
    forall i, j :: 0 <= i < j < |log| && Launch(log[i]) && Launch(log[j]) ==>
      exists k :: i < k < j && log[k] == Retired(log[i].attempt)
  }

  /** A sender starts only on the clock its own receiver reported, in the receiver's session. */
  ghost predicate SendersMatch(log: seq<Event>) {
    forall j :: 0 <= j < |log| && log[j].Launched? && log[j].role == Sender ==>
      exists i, k :: 0 <= i < k < j && log[i].Launched? && log[i].role == Receiver
        && log[i].attempt == log[j].attempt && log[i].session == log[j].session
        && log[k] == Ready(log[j].attempt, log[j].clock)
  }

  /** Everything the log shows, tied to what the supervisor remembers. */
  ghost predicate Recorded(log: seq<Event>, retires: bool, attempts: nat, sessions: set<u64>, clocks: set<u64>) {
    && (forall i :: 0 <= i < |log| && Launch(log[i]) ==> log[i].attempt <= attempts && log[i].session in sessions)
    && (forall i :: 0 <= i < |log| && log[i].Ready? ==> log[i].clock in clocks)
    && DistinctSessions(log) && DistinctClocks(log) && SendersMatch(log) && (retires ==> RetiredFirst(log))
  }

  /** Every receiver ever started has been proved retired since. */
  ghost predicate AllRetired(log: seq<Event>) {
    forall i :: 0 <= i < |log| && Launch(log[i]) ==> exists k :: i < k < |log| && log[k] == Retired(log[i].attempt)
  }

  /** Only attempt n has been launched since the log was at this length. */
  ghost predicate OnlyLaunches(log: seq<Event>, from: nat, n: nat) {
    forall i :: from <= i < |log| && Launch(log[i]) ==> log[i].attempt == n
  }

  lemma SendersStay(log: seq<Event>, e: Event)
    requires SendersMatch(log) && !(e.Launched? && e.role == Sender)
    ensures SendersMatch(log + [e])
  {
    var all := log + [e];
    forall j | 0 <= j < |all| && all[j].Launched? && all[j].role == Sender
      ensures exists i, k :: 0 <= i < k < j && all[i].Launched? && all[i].role == Receiver
                && all[i].attempt == all[j].attempt && all[i].session == all[j].session
                && all[k] == Ready(all[j].attempt, all[j].clock)
    {
      assert all[j] == log[j];
      var i, k :| 0 <= i < k < j && log[i].Launched? && log[i].role == Receiver
                  && log[i].attempt == log[j].attempt && log[i].session == log[j].session
                  && log[k] == Ready(log[j].attempt, log[j].clock);
      assert all[i] == log[i] && all[k] == log[k];
    }
  }

  lemma LaunchRecorded(log: seq<Event>, retires: bool, n: nat, sessions: set<u64>, clocks: set<u64>, session: u64)
    requires n > 0 && Recorded(log, retires, n - 1, sessions, clocks) && session !in sessions && (retires ==> AllRetired(log))
    ensures Recorded(log + [Launched(Receiver, n, session, 0)], retires, n, sessions + {session}, clocks)
  {
    var e := Launched(Receiver, n, session, 0);
    SendersStay(log, e);
    var all := log + [e];
    if retires {
      forall i, j | 0 <= i < j < |all| && Launch(all[i]) && Launch(all[j])
        ensures exists k :: i < k < j && all[k] == Retired(all[i].attempt)
      {
        assert all[i] == log[i];
        var k :| i < k < |log| && k < j && log[k] == Retired(log[i].attempt);
        assert all[k] == log[k];
      }
    }
  }

  lemma OtherRecorded(log: seq<Event>, retires: bool, n: nat, sessions: set<u64>, clocks: set<u64>, e: Event)
    requires Recorded(log, retires, n, sessions, clocks) && !e.Launched?
    requires e.Ready? ==> e.clock !in clocks
    ensures Recorded(log + [e], retires, n, sessions, clocks + if e.Ready? then {e.clock} else {})
  {
    SendersStay(log, e);
    if retires {
      RetiredFirstStays(log, e);
    }
  }

  lemma RetiredFirstStays(log: seq<Event>, e: Event)
    requires RetiredFirst(log) && !Launch(e)
    ensures RetiredFirst(log + [e])
  {
    var all := log + [e];
    forall i, j | 0 <= i < j < |all| && Launch(all[i]) && Launch(all[j])
      ensures exists k :: i < k < j && all[k] == Retired(all[i].attempt)
    {
      assert all[i] == log[i] && all[j] == log[j];
      var k :| i < k < j && log[k] == Retired(log[i].attempt);
      assert all[k] == log[k];
    }
  }

  lemma SenderRecorded(log: seq<Event>, retires: bool, n: nat, sessions: set<u64>, clocks: set<u64>, session: u64, clock: u64)
    requires Recorded(log, retires, n, sessions, clocks) && |log| >= 2
    requires log[|log| - 2] == Launched(Receiver, n, session, 0) && log[|log| - 1] == Ready(n, clock)
    ensures Recorded(log + [Launched(Sender, n, session, clock)], retires, n, sessions, clocks)
  {
    var e := Launched(Sender, n, session, clock);
    var all := log + [e];
    forall j | 0 <= j < |all| && all[j].Launched? && all[j].role == Sender
      ensures exists i, k :: 0 <= i < k < j && all[i].Launched? && all[i].role == Receiver
                && all[i].attempt == all[j].attempt && all[i].session == all[j].session
                && all[k] == Ready(all[j].attempt, all[j].clock)
    {
      if j < |log| {
        assert all[j] == log[j];
        var i, k :| 0 <= i < k < j && log[i].Launched? && log[i].role == Receiver
                    && log[i].attempt == log[j].attempt && log[i].session == log[j].session
                    && log[k] == Ready(log[j].attempt, log[j].clock);
        assert all[i] == log[i] && all[k] == log[k];
      } else {
        assert all[|log| - 2] == log[|log| - 2] && all[|log| - 1] == log[|log| - 1];
      }
    }
    if retires {
      RetiredFirstStays(log, e);
    }
  }

  lemma RetirementCompletes(log: seq<Event>, from: nat, n: nat)
    requires from <= |log| && AllRetired(log[..from]) && OnlyLaunches(log, from, n)
    ensures AllRetired(log + [Retired(n)])
  {
    var all := log + [Retired(n)];
    forall i | 0 <= i < |all| && Launch(all[i])
      ensures exists k :: i < k < |all| && all[k] == Retired(all[i].attempt)
    {
      if i < from {
        assert log[..from][i] == all[i];
        var k :| i < k < from && log[..from][k] == Retired(all[i].attempt);
        assert all[k] == Retired(all[i].attempt);
      } else {
        assert all[i] == log[i];
        assert all[|log|] == Retired(n);
      }
    }
  }

  // ---- the supervisor ----------------------------------------------------------------------

  datatype Outcome = Done(clock: u64) | Raised(error: PairError) | Stopped

  /** Index of the first poll that is not quiet. */
  ghost function Loud(polls: seq<Poll>): (i: nat)
    ensures i <= |polls| && (forall j :: 0 <= j < i ==> polls[j].Quiet?) && (i < |polls| ==> !polls[i].Quiet?)
  {
    if polls == [] || !polls[0].Quiet? then 0 else 1 + Loud(polls[1..])
  }

  lemma {:induction false} LoudIs(polls: seq<Poll>, i: nat)
    requires i <= |polls| && (forall j :: 0 <= j < i ==> polls[j].Quiet?) && (i < |polls| ==> !polls[i].Quiet?)
    ensures Loud(polls) == i
    decreases i
  {
    if i > 0 {
      LoudIs(polls[1..], i - 1);
    }
  }

  function DrawAt(draws: seq<u64>, i: nat): u64 {
    if i < |draws| then draws[i] else 0
  }

  /** The first of sixteen draws that is a fresh nonzero session, and the first that is a fresh token. */
  ghost function FirstSession(draws: seq<u64>, used: set<u64>, i: nat): Option<u64>
    decreases 16 - i
  {
    if i >= 16 then None
    else if DrawAt(draws, i) != 0 && DrawAt(draws, i) !in used then Some(DrawAt(draws, i))
    else FirstSession(draws, used, i + 1)
  }

  ghost function FirstToken(draws: seq<u64>, used: set<u64>, i: nat): Option<u64>
    decreases 16 - i
  {
    if i >= 16 then None else if DrawAt(draws, i) !in used then Some(DrawAt(draws, i)) else FirstToken(draws, used, i + 1)
  }

  /** The first message is of this session, with the given clock or one not accepted before. */
  ghost predicate Meets(polls: seq<Poll>, session: u64, clock: Option<u64>, clocks: set<u64>) {
    var i := Loud(polls);
    && i < |polls| && polls[i].Control? && polls[i].session == session
    && (if clock.Some? then polls[i].clock == clock.value else polls[i].clock !in clocks)
  }

  /** Everything an attempt needs to succeed, in the order it needs it. */
  ghost predicate Succeeds(c: Config, script: Script, sessions: set<u64>, tokens: set<u64>, clocks: set<u64>) {
    var session := FirstSession(script.sessions, sessions, 0);
    && session.Some? && (c.retires ==> FirstToken(script.tokens, tokens, 0).Some?)
    && script.receiverSpawns && Meets(script.ready, session.value, None, clocks)
    && script.senderSpawns && Meets(script.started, session.value, Some(script.ready[Loud(script.ready)].clock), clocks)
    && Loud(script.running) == |script.running|
  }

  /** An attempt owes a proof from before it starts anything, if proofs are on and it could name itself. */
  ghost predicate Owes(c: Config, script: Script, sessions: set<u64>, tokens: set<u64>) {
    c.retires && FirstSession(script.sessions, sessions, 0).Some? && FirstToken(script.tokens, tokens, 0).Some?
  }

  /** The tokens used up by the time the proof is asked for. */
  ghost function Used(c: Config, script: Script, sessions: set<u64>, tokens: set<u64>): set<u64> {
    if Owes(c, script, sessions, tokens) then tokens + {FirstToken(script.tokens, tokens, 0).value} else tokens
  }

  /** How an attempt ends, cleanup apart, and which children it has started by then. */
  ghost function Ends(c: Config, script: Script, sessions: set<u64>, tokens: set<u64>, clocks: set<u64>): (seq<Role>, Outcome) {
    var session := FirstSession(script.sessions, sessions, 0);
    if session.None? then ([], Raised(SessionEntropy))
    else if c.retires && FirstToken(script.tokens, tokens, 0).None? then ([], Raised(RetirementEntropy))
    else if !script.receiverSpawns then ([], Raised(SpawnFailed(Receiver)))
    else if !Meets(script.ready, session.value, None, clocks) then
      ([Receiver], Unmet(Receiver, script.ready, script.readyLate, session.value, None))
    else if !script.senderSpawns then ([Receiver], Raised(SpawnFailed(Sender)))
    else
      var clock := Some(script.ready[Loud(script.ready)].clock);
      if !Meets(script.started, session.value, clock, clocks) then
        ([Receiver, Sender], Unmet(Sender, script.started, script.startedLate, session.value, clock))
      else ([Receiver, Sender], Watched(script.running))
  }

  ghost function Unmet(role: Role, polls: seq<Poll>, late: bool, session: u64, clock: Option<u64>): Outcome {
    if Loud(polls) < |polls| && polls[Loud(polls)].Interrupt? then Stopped
    else Raised(HandshakeError(role, polls, late, session, clock))
  }

  ghost function Watched(polls: seq<Poll>): Outcome {
    var i := Loud(polls);
    if i == |polls| then Done(0)
    else if polls[i].Interrupt? then Stopped
    else Raised(if polls[i].Broken? then polls[i].error else UnexpectedControl)
  }

  lemma SuccessIsAnEnd(c: Config, script: Script, sessions: set<u64>, tokens: set<u64>, clocks: set<u64>)
    ensures Succeeds(c, script, sessions, tokens, clocks) <==> Ends(c, script, sessions, tokens, clocks).1.Done?
  {
    hide FirstSession, FirstToken, HandshakeError;
  }

  /** The error a failed handshake raises. */
  ghost function HandshakeError(role: Role, polls: seq<Poll>, late: bool, session: u64, clock: Option<u64>): PairError {
    if Loud(polls) == |polls| then if late then OverallDeadline else HandshakeTimeout(role)
    else
      match polls[Loud(polls)]
      case Broken(error) => error
      case Control(s, c) => if s != session then SessionMismatch else if clock.Some? then ClockMismatch else ReusedClock
      case _ => OverallDeadline
  }

  /** A child's end that makes its attempt the last one, proofs or not: never reaped, or with output out of order. */
  predicate Spoiling(c: Config, role: Role, e: Ending, succeeded: bool) {
    || !e.reaped || e.output || e.control
    || (!(c.retires && role == Receiver)
        && ((e.gone && succeeded) || (!e.gone && !e.stops && e.killable) || (!e.gone && e.reaped && e.nonzero)))
  }

  /** Some child of the pair ends so. */
  ghost predicate PairSpoiled(c: Config, kids: seq<Role>, cleanup: Cleanup, succeeded: bool) {
    exists i :: 0 <= i < |kids| && Spoiling(c, kids[i], EndingOf(cleanup, kids[i]), succeeded)
  }

  /** A receiver that was gone before it was asked, or did not stop when asked, or not cleanly. */
  ghost predicate ReceiverInDoubt(kids: seq<Role>, cleanup: Cleanup) {
    exists i :: 0 <= i < |kids| && kids[i] == Receiver
      && var e := EndingOf(cleanup, Receiver);
         e.gone || !e.stops || !e.reaped || e.nonzero
  }

  predicate Accepted(c: Config) {
    1 <= c.maxAttempts <= 3 && (c.retires ==> c.remote)
  }

  class Supervisor {
    const config: Config

    var status: Status
    var attempts: nat
    var acknowledged: nat
    var faults: seq<Fault>
    var kills: nat
    var cleanupFailures: nat
    var stopFailures: nat
    var unverified: bool

    var children: seq<Role>
    var sessions: set<u64>
    var clocks: set<u64>
    var tokens: set<u64>
    var pending: Option<(u64, u64)>
    var terminalCleanup: bool
    var terminalProtocol: bool
    ghost var log: seq<Event>

    constructor (config: Config)
      requires Accepted(config)
      ensures this.config == config && Fresh()
    {
      this.config := config;
      status, attempts, acknowledged, faults := Failed, 0, 0, [];
      kills, cleanupFailures, stopFailures, unverified := 0, 0, 0, false;
      children, sessions, clocks, tokens, pending := [], {}, {}, {}, None;
      terminalCleanup, terminalProtocol, log := false, false, [];
    }

    ghost predicate Fresh()
      reads this
    {
      && Accepted(config) && status == Failed && attempts == 0 && acknowledged == 0 && faults == []
      && kills == 0 && cleanupFailures == 0 && stopFailures == 0 && !unverified
      && children == [] && sessions == {} && clocks == {} && tokens == {} && pending == None
      && !terminalCleanup && !terminalProtocol && log == []
    }

    /** The counters are exactly what the fault list shows. */
    ghost predicate Counted()
      reads this`faults, this`kills, this`stopFailures
    {
      kills == CountKills(faults) && stopFailures == CountStops(faults)
    }

    function ExitCode(): int
      reads this
    {
      if status == Completed && faults == [] then 0 else if status == CompletedWithRecovery then 3 else 1
    }

    method AddFault(n: nat, reason: Reason)
      requires Counted()
      modifies this`faults, this`kills, this`stopFailures
      ensures faults == old(faults) + [Fault(n, reason)] && Counted()
    {
      CountOneMore(faults, Fault(n, reason));
      hide CountKills, CountStops;
      faults := faults + [Fault(n, reason)];
      if reason.ForcedStop? {
        kills := kills + 1;
      }
      if IsStopFailure(reason) {
        stopFailures := stopFailures + 1;
      }
    }

    /** A nonzero session never used before, if sixteen draws find one. */
    method NewSession(draws: seq<u64>) returns (r: Option<u64>)
      modifies this`sessions
      ensures r == FirstSession(draws, old(sessions), 0)
      ensures r.Some? ==> r.value != 0 && r.value !in old(sessions) && sessions == old(sessions) + {r.value}
      ensures r.None? ==>
        sessions == old(sessions) && forall i :: 0 <= i < 16 ==> DrawAt(draws, i) == 0 || DrawAt(draws, i) in sessions
    {
      for i := 0 to 16
        invariant sessions == old(sessions)
        invariant FirstSession(draws, sessions, 0) == FirstSession(draws, sessions, i)
        invariant forall j :: 0 <= j < i ==> DrawAt(draws, j) == 0 || DrawAt(draws, j) in sessions
      {
        var token := DrawAt(draws, i);
        if token != 0 && token !in sessions {
          sessions := sessions + {token};
          return Some(token);
        }
      }
      return None;
    }

    method NewProofToken(draws: seq<u64>) returns (r: Option<u64>)
      modifies this`tokens
      ensures r == FirstToken(draws, old(tokens), 0)
      ensures r.Some? ==> r.value !in old(tokens) && tokens == old(tokens) + {r.value}
      ensures r.Some? ==> exists i :: 0 <= i < 16 && r.value == DrawAt(draws, i)
      ensures r.None? ==> tokens == old(tokens) && forall i :: 0 <= i < 16 ==> DrawAt(draws, i) in tokens
    {
      for i := 0 to 16
        invariant tokens == old(tokens)
        invariant FirstToken(draws, tokens, 0) == FirstToken(draws, tokens, i)
        invariant forall j :: 0 <= j < i ==> DrawAt(draws, j) in tokens
      {
        var token := DrawAt(draws, i);
        if token !in tokens {
          tokens := tokens + {token};
          return Some(token);
        }
      }
      return None;
    }

    /** A remote receiver that fails by itself leaves its retirement unverified. */
    method NoteFailure(error: PairError)
      modifies this`unverified
      ensures unverified == (old(unverified) || (config.remote && OwnFailure(error, Receiver)))
    {
      if OwnFailure(error, Receiver) && config.remote {
        unverified := true;
      }
    }

    /**
     * Wait for one child's handshake.  It succeeds exactly on a first message in this session whose
     * clock is the given one, or, for a receiver, one never accepted before.
     */
    method WaitHandshake(role: Role, polls: seq<Poll>, late: bool, session: u64, clock: Option<u64>) returns (r: Outcome)
      modifies this`unverified, this`clocks
      ensures r.Done? <==> Meets(polls, session, clock, old(clocks))
      ensures r.Done? ==> r.clock == polls[Loud(polls)].clock
      ensures clocks == if r.Done? && clock.None? then old(clocks) + {r.clock} else old(clocks)
      ensures r.Stopped? <==> Loud(polls) < |polls| && polls[Loud(polls)].Interrupt?
      ensures r.Raised? ==> r.error == HandshakeError(role, polls, late, session, clock)
      ensures unverified == (old(unverified) || (r.Raised? && config.remote && OwnFailure(r.error, Receiver)))
    {
      for i := 0 to |polls|
        invariant clocks == old(clocks) && unverified == old(unverified)
        invariant forall j :: 0 <= j < i ==> polls[j].Quiet?
      {
        match polls[i] {
          case Quiet =>
          case Broken(error) =>
            LoudIs(polls, i);
            NoteFailure(error);
            return Raised(error);
          case Interrupt =>
            LoudIs(polls, i);
            return Stopped;
          case Control(s, c) =>
            LoudIs(polls, i);
            if s != session { return Raised(SessionMismatch); }
            if clock.Some? && c != clock.value { return Raised(ClockMismatch); }
            if clock.None? {
              if c in clocks { return Raised(ReusedClock); }
              clocks := clocks + {c};
            }
            return Done(c);
        }
      }
      LoudIs(polls, |polls|);
      return Raised(if late then OverallDeadline else HandshakeTimeout(role));
    }

    /** Running lasts until the deadline; any control message by then is one too many. */
    method WatchPair(polls: seq<Poll>) returns (r: Outcome)
      modifies this`unverified
      ensures r.Done? <==> Loud(polls) == |polls|
      ensures r == Watched(polls)
      ensures r.Stopped? <==> Loud(polls) < |polls| && polls[Loud(polls)].Interrupt?
      ensures r.Raised? ==> r.error == if polls[Loud(polls)].Broken? then polls[Loud(polls)].error else UnexpectedControl
      ensures unverified == (old(unverified) || (r.Raised? && config.remote && OwnFailure(r.error, Receiver)))
    {
      for i := 0 to |polls|
        invariant unverified == old(unverified)
        invariant forall j :: 0 <= j < i ==> polls[j].Quiet?
      {
        if !polls[i].Quiet? {
          LoudIs(polls, i);
        }
        match polls[i] {
          case Quiet =>
          case Control(_, _) => return Raised(UnexpectedControl);
          case Interrupt => return Stopped;
          case Broken(error) =>
            NoteFailure(error);
            return Raised(error);
        }
      }
      LoudIs(polls, |polls|);
      return Done(0);
    }

    // ---- one attempt ---------------------------------------------------------------------

    ghost predicate Idle(n: nat)
      reads this
    {
      && Accepted(config) && children == [] && pending == None && n > 0 && attempts == n
      && Recorded(log, config.retires, n - 1, sessions, clocks) && (config.retires ==> AllRetired(log))
    }

    /** A session and, with proofs on, the retirement this attempt will owe: before anything is started. */
    method Prepare(script: Script) returns (session: u64, failed: Option<PairError>)
      requires Idle(attempts)
      modifies this`sessions, this`tokens, this`pending, this`unverified
      ensures failed.None? <==> FirstSession(script.sessions, old(sessions), 0).Some?
                                && (config.retires ==> FirstToken(script.tokens, old(tokens), 0).Some?)
      ensures failed.None? ==> Some(session) == FirstSession(script.sessions, old(sessions), 0)
      ensures failed.Some? ==>
        failed.value == if FirstSession(script.sessions, old(sessions), 0).None? then SessionEntropy else RetirementEntropy
      ensures failed.None? ==> session !in old(sessions) && session != 0 && sessions == old(sessions) + {session}
      ensures failed.None? ==> (pending.Some? <==> config.retires) && (config.retires ==> unverified && pending.value.1 == session)
      ensures failed.None? && config.retires ==> pending.value.0 !in old(tokens)
      ensures failed.None? && config.retires ==> FirstToken(script.tokens, old(tokens), 0) == Some(pending.value.0)
      ensures tokens == if failed.None? && config.retires then old(tokens) + {pending.value.0} else old(tokens)
      ensures failed.Some? ==> pending == None && !Recoverable(failed.value) && old(sessions) <= sessions
      ensures unverified == (old(unverified) || pending.Some?)
    {
      failed, session := None, 0;
      var drawn := NewSession(script.sessions);
      if drawn.None? {
        return 0, Some(SessionEntropy);
      }
      session := drawn.value;
      if config.retires {
        var run := NewProofToken(script.tokens);
        if run.None? {
          return session, Some(RetirementEntropy);
        }
        pending, unverified := Some((run.value, session)), true;
      }
    }

    method StartReceiver(script: Script, session: u64) returns (r: Outcome)
      requires Accepted(config) && attempts > 0 && children == []
      requires Recorded(log, config.retires, attempts - 1, sessions - {session}, clocks) && (config.retires ==> AllRetired(log))
      requires session in sessions
      modifies this`children, this`log, this`clocks, this`unverified
      ensures r.Done? <==> script.receiverSpawns && Meets(script.ready, session, None, old(clocks))
      ensures r.Done? ==> r.clock == script.ready[Loud(script.ready)].clock
      ensures Recorded(log, config.retires, attempts, sessions, clocks)
      ensures r.Done? ==> log == old(log) + [Launched(Receiver, attempts, session, 0), Ready(attempts, r.clock)]
      ensures r.Done? ==> children == [Receiver]
      ensures !r.Done? ==> log == old(log) + (if script.receiverSpawns then [Launched(Receiver, attempts, session, 0)] else [])
      ensures !r.Done? ==> children == if script.receiverSpawns then [Receiver] else []
      ensures !r.Done? ==> r == if script.receiverSpawns then Unmet(Receiver, script.ready, script.readyLate, session, None)
                               else Raised(SpawnFailed(Receiver))
      ensures unverified == (old(unverified) || (r.Raised? && config.remote && OwnFailure(r.error, Receiver)))
    {
      hide DistinctSessions, DistinctClocks, SendersMatch, RetiredFirst;
      if !script.receiverSpawns {
        return Raised(SpawnFailed(Receiver));
      }
      assert sessions == (sessions - {session}) + {session};
      LaunchRecorded(log, config.retires, attempts, sessions - {session}, clocks, session);
      children, log := children + [Receiver], log + [Launched(Receiver, attempts, session, 0)];
      r := WaitHandshake(Receiver, script.ready, script.readyLate, session, None);
      if r.Done? {
        OtherRecorded(log, config.retires, attempts, sessions, old(clocks), Ready(attempts, r.clock));
        log := log + [Ready(attempts, r.clock)];
      }
    }

    method StartSender(script: Script, session: u64, clock: u64) returns (r: Outcome)
      requires children == [Receiver] && |log| >= 2 && Recorded(log, config.retires, attempts, sessions, clocks)
      requires log[|log| - 2] == Launched(Receiver, attempts, session, 0) && log[|log| - 1] == Ready(attempts, clock)
      modifies this`children, this`log, this`unverified, this`acknowledged, this`clocks
      ensures r.Done? <==> script.senderSpawns && Meets(script.started, session, Some(clock), clocks)
      ensures clocks == old(clocks) && Recorded(log, config.retires, attempts, sessions, clocks)
      ensures r.Done? ==> children == [Receiver, Sender] && acknowledged == old(acknowledged) + 1
      ensures r.Done? ==> log == old(log) + [Launched(Sender, attempts, session, clock), Acknowledged(attempts)]
      ensures !r.Done? ==> acknowledged == old(acknowledged)
      ensures !r.Done? ==> log == old(log) + (if script.senderSpawns then [Launched(Sender, attempts, session, clock)] else [])
      ensures !r.Done? ==> children == if script.senderSpawns then [Receiver, Sender] else [Receiver]
      ensures !r.Done? ==> r == if script.senderSpawns then Unmet(Sender, script.started, script.startedLate, session, Some(clock))
                               else Raised(SpawnFailed(Sender))
      ensures unverified == (old(unverified) || (r.Raised? && config.remote && OwnFailure(r.error, Receiver)))
    {
      hide DistinctSessions, DistinctClocks, SendersMatch, RetiredFirst;
      if !script.senderSpawns {
        return Raised(SpawnFailed(Sender));
      }
      SenderRecorded(log, config.retires, attempts, sessions, clocks, session, clock);
      children, log := children + [Sender], log + [Launched(Sender, attempts, session, clock)];
      r := WaitHandshake(Sender, script.started, script.startedLate, session, Some(clock));
      if r.Done? {
        OtherRecorded(log, config.retires, attempts, sessions, clocks, Acknowledged(attempts));
        assert clocks + {} == clocks;
        acknowledged, log := acknowledged + 1, log + [Acknowledged(attempts)];
      }
    }

    /** The body of one attempt, up to the moment it succeeds, raises or is interrupted. */
    method RunAttempt(script: Script) returns (r: Outcome)
      requires Idle(attempts)
      modifies this`children, this`log, this`clocks, this`unverified, this`acknowledged, this`sessions, this`tokens, this`pending
      ensures r.Done? <==> Succeeds(config, script, old(sessions), old(tokens), old(clocks))
      ensures (children, r) == Ends(config, script, old(sessions), old(tokens), old(clocks))
      ensures unverified == (old(unverified) || pending.Some? || (r.Raised? && config.remote && OwnFailure(r.error, Receiver)))
      ensures pending.Some? == Owes(config, script, old(sessions), old(tokens))
      ensures tokens == Used(config, script, old(sessions), old(tokens))
      ensures Recorded(log, config.retires, attempts, sessions, clocks)
      ensures old(log) <= log && OnlyLaunches(log, |old(log)|, attempts)
      ensures pending.None? && config.retires ==> log == old(log) && (r.Raised? && !Recoverable(r.error))
      ensures pending.Some? ==> config.retires && unverified
      ensures r.Done? ==> acknowledged == old(acknowledged) + 1 && children == [Receiver, Sender]
      ensures old(acknowledged) <= acknowledged <= old(acknowledged) + 1
      ensures children == [] || children == [Receiver] || children == [Receiver, Sender]
      ensures old(unverified) ==> unverified
    {
      hide Recorded, AllRetired, Accepted, FirstSession, FirstToken, Loud, HandshakeError, Succeeds;
      SuccessIsAnEnd(config, script, sessions, tokens, clocks);
      var session, failed := Prepare(script);
      if failed.Some? {
        RecordedGrows(log, config.retires, attempts, old(sessions), sessions, clocks);
        return Raised(failed.value);
      }
      assert sessions - {session} == old(sessions);
      r := StartReceiver(script, session);
      if !r.Done? { return; }
      var clock := r.clock;
      r := StartSender(script, session, clock);
      if !r.Done? { return; }
      r := WatchPair(script.running);
    }

    // ---- cleanup -------------------------------------------------------------------------

    predicate Succeeded()
      reads this
    {
      status == Completed || status == CompletedWithRecovery
    }

    /** A child that already left is noted, and if a success was already claimed it spoils it. */
    method NoteGone(role: Role)
      requires Counted()
      modifies this`faults, this`kills, this`stopFailures, this`unverified, this`terminalCleanup
      ensures Counted() && faults == old(faults) + if Succeeded() then [Fault(attempts, ExitedBeforeStop(role))] else []
      ensures unverified == (old(unverified) || (config.remote && role == Receiver))
      ensures terminalCleanup == (old(terminalCleanup) || (Succeeded() && Terminal(config, role)))
    {
      hide CountKills, CountStops, Counted;
      if role == Receiver && config.remote {
        unverified := true;
      }
      if Succeeded() {
        AddFault(attempts, ExitedBeforeStop(role));
        if Terminal(config, role) {
          terminalCleanup := true;
        }
      }
    }

    method AskToStop(kids: seq<Role>, c: Cleanup)
      requires Counted()
      modifies this`faults, this`kills, this`stopFailures, this`unverified, this`terminalCleanup
      ensures Counted() && faults == old(faults) + AskFaults(attempts, kids, c, Succeeded())
      ensures unverified == (old(unverified) ||
        (config.remote && exists i :: 0 <= i < |kids| && kids[i] == Receiver && EndingOf(c, kids[i]).gone))
      ensures terminalCleanup == (old(terminalCleanup) ||
        (Succeeded() && exists i :: 0 <= i < |kids| && EndingOf(c, kids[i]).gone && Terminal(config, kids[i])))
    {
      hide CountKills, CountStops, Counted, EndingOf, Terminal;
      for i := 0 to |kids|
        invariant Counted() && faults == old(faults) + AskFaults(attempts, kids[..i], c, Succeeded())
        invariant unverified == (old(unverified) ||
          (config.remote && exists j :: 0 <= j < i && kids[j] == Receiver && EndingOf(c, kids[j]).gone))
        invariant terminalCleanup == (old(terminalCleanup) ||
          (Succeeded() && exists j :: 0 <= j < i && EndingOf(c, kids[j]).gone && Terminal(config, kids[j])))
      {
        assert kids[..i + 1][..i] == kids[..i];
        if EndingOf(c, kids[i]).gone {
          NoteGone(kids[i]);
        }
      }
      assert kids[..|kids|] == kids;
    }

    method KillOne(role: Role, killable: bool)
      requires Counted()
      modifies this`faults, this`kills, this`stopFailures, this`unverified, this`terminalCleanup
      ensures Counted() && faults == old(faults) + if killable then [Fault(attempts, ForcedStop(role))] else []
      ensures unverified == (old(unverified) || (config.remote && role == Receiver))
      ensures terminalCleanup == (old(terminalCleanup) || (killable && Terminal(config, role)))
    {
      hide Counted, Terminal;
      if role == Receiver && config.remote {
        unverified := true;
      }
      if killable {
        AddFault(attempts, ForcedStop(role));
        if Terminal(config, role) {
          terminalCleanup := true;
        }
      }
    }

    /** Whoever still runs after the grace period is killed. */
    method KillStragglers(kids: seq<Role>, c: Cleanup)
      requires Counted()
      modifies this`faults, this`kills, this`stopFailures, this`unverified, this`terminalCleanup
      ensures Counted() && faults == old(faults) + KillFaults(attempts, kids, c)
      ensures unverified == (old(unverified) ||
        (config.remote && exists i :: 0 <= i < |kids| && kids[i] == Receiver && Straggler(EndingOf(c, kids[i]))))
      ensures terminalCleanup == (old(terminalCleanup) || exists i ::
        0 <= i < |kids| && Straggler(EndingOf(c, kids[i])) && EndingOf(c, kids[i]).killable && Terminal(config, kids[i]))
    {
      hide CountKills, CountStops, Counted, EndingOf, Terminal, Straggler;
      for i := 0 to |kids|
        invariant Counted() && faults == old(faults) + KillFaults(attempts, kids[..i], c)
        invariant unverified == (old(unverified) ||
          (config.remote && exists j :: 0 <= j < i && kids[j] == Receiver && Straggler(EndingOf(c, kids[j]))))
        invariant terminalCleanup == (old(terminalCleanup) || exists j ::
          0 <= j < i && Straggler(EndingOf(c, kids[j])) && EndingOf(c, kids[j]).killable && Terminal(config, kids[j]))
      {
        assert kids[..i + 1][..i] == kids[..i];
        var e := EndingOf(c, kids[i]);
        if Straggler(e) {
          KillOne(kids[i], e.killable);
        }
      }
      assert kids[..|kids|] == kids;
    }

    /** One child's exit: unreaped, or ended with a bad status. */
    method TakeExit(role: Role, e: Ending)
      requires Counted()
      modifies this`faults, this`kills, this`stopFailures, this`unverified, this`terminalCleanup, this`cleanupFailures
      ensures Counted() && faults == old(faults) + ExitFaults(attempts, role, e)
      ensures unverified == (old(unverified) || (config.remote && role == Receiver && (!e.reaped || BadExit(e))))
      ensures cleanupFailures == old(cleanupFailures) + if e.reaped then 0 else 1
      ensures terminalCleanup == (old(terminalCleanup) || !e.reaped || (BadExit(e) && Terminal(config, role)))
    {
      hide CountKills, CountStops, Counted;
      if !e.reaped {
        cleanupFailures, terminalCleanup := cleanupFailures + 1, true;
        if role == Receiver && config.remote {
          unverified := true;
        }
      }
      if BadExit(e) {
        AddFault(attempts, NonzeroStop(role));
        if role == Receiver && config.remote {
          unverified := true;
        }
        if Terminal(config, role) {
          terminalCleanup := true;
        }
      }
    }

    /** One child's last output: broken, or with control lines nobody asked for. */
    method TakeOutput(role: Role, e: Ending)
      requires Counted()
      modifies this`faults, this`kills, this`stopFailures, this`terminalCleanup
      ensures Counted()
      ensures faults == old(faults) + OutputFaults(attempts, role, e, Fault(attempts, Attempt(OutputFailed(role))) in old(faults))
      ensures terminalCleanup == (old(terminalCleanup) || e.output || e.control)
    {
      hide CountKills, CountStops, Counted;
      var known := Fault(attempts, Attempt(OutputFailed(role))) in faults;
      if e.output {
        terminalCleanup := true;
        if !known {
          AddFault(attempts, FinalOutput(role));
        }
      }
      if e.control {
        terminalCleanup := true;
        AddFault(attempts, FinalControl);
      }
    }

    method Reap(kids: seq<Role>, c: Cleanup)
      requires Counted()
      modifies this`faults, this`kills, this`stopFailures, this`unverified, this`terminalCleanup, this`cleanupFailures
      ensures Counted() && faults == old(faults) + ReapFaults(attempts, kids, c, old(faults))
      ensures unverified == (old(unverified) ||
        (config.remote && exists i :: 0 <= i < |kids| && kids[i] == Receiver && Doubtful(EndingOf(c, kids[i]))))
      ensures terminalCleanup == (old(terminalCleanup) ||
        exists i :: 0 <= i < |kids| && Spoils(config, kids[i], EndingOf(c, kids[i])))
      ensures cleanupFailures >= old(cleanupFailures) && (cleanupFailures > old(cleanupFailures) ==> terminalCleanup)
      ensures kids == [] ==> cleanupFailures == old(cleanupFailures)
    {
      hide CountKills, CountStops, Counted, EndingOf, ExitFaults, OutputFaults;
      for i := 0 to |kids|
        invariant Counted() && faults == old(faults) + ReapFaults(attempts, kids[..i], c, old(faults))
        invariant unverified == (old(unverified) ||
          (config.remote && exists j :: 0 <= j < i && kids[j] == Receiver && Doubtful(EndingOf(c, kids[j]))))
        invariant terminalCleanup == (old(terminalCleanup) ||
          exists j :: 0 <= j < i && Spoils(config, kids[j], EndingOf(c, kids[j])))
        invariant cleanupFailures >= old(cleanupFailures) && (cleanupFailures > old(cleanupFailures) ==> terminalCleanup)
        invariant i == 0 ==> cleanupFailures == old(cleanupFailures)
      {
        assert kids[..i + 1][..i] == kids[..i];
        var e := EndingOf(c, kids[i]);
        TakeExit(kids[i], e);
        ReapKnown(attempts, kids[..i], c, old(faults), kids[i]);
        TakeOutput(kids[i], e);
      }
      assert kids[..|kids|] == kids;
    }

    /** The proof an attempt owes: verified against a fresh challenge, or the attempt is the last one. */
    method Retire(c: Cleanup) returns (interrupted: bool)
      requires Counted()
      modifies this`faults, this`kills, this`stopFailures, this`unverified, this`terminalCleanup, this`tokens, this`log
      ensures Counted() && old(tokens) <= tokens
      ensures interrupted <==> c.interruptProof && Challenges(c, old(tokens))
      ensures interrupted ==> unverified && log == old(log) && faults == old(faults) && terminalCleanup == old(terminalCleanup)
      ensures !interrupted ==> unverified == !Proves(c, old(tokens)) && terminalCleanup == (old(terminalCleanup) || unverified)
      ensures !interrupted ==> log == if unverified then old(log) else old(log) + [Retired(attempts)]
      ensures !interrupted ==> faults == old(faults) + if unverified then [Fault(attempts, NotRetired)] else []
    {
      unverified := true;
      var challenge := NewProofToken(c.tokens);
      assert challenge.Some? <==> Challenges(c, old(tokens)) by {
        if challenge.Some? {
          assert tokens != old(tokens);
        }
      }
      if challenge.Some? && c.interruptProof {
        return true;
      }
      if challenge.Some? && c.proved {
        unverified, log := false, log + [Retired(attempts)];
      } else {
        AddFault(attempts, NotRetired);
        terminalCleanup := true;
      }
      return false;
    }

    /** With proofs on, the final status is what cleanup and proof leave of the attempt's own. */
    method Settle()
      modifies this`status
      ensures status == Settled(config, old(status), faults, terminalCleanup || terminalProtocol)
    {
      if config.retires && (terminalCleanup || terminalProtocol) {
        status := Failed;
      } else if config.retires && status == Completed && faults != [] {
        status := CompletedWithRecovery;
      }
    }

    /**
     * End whatever the attempt started, in whatever state it is, and settle the proof it owes.
     * Interrupted, it leaves the status to the caller, and the proof unverified.
     */
    method StopPair(c: Cleanup) returns (interrupted: bool)
      requires Counted() && Remembered()
      modifies this`faults, this`kills, this`stopFailures, this`unverified, this`terminalCleanup, this`cleanupFailures,
               this`tokens, this`log, this`children, this`pending, this`status
      ensures children == [] && pending == None && Counted() && Remembered() && old(faults) <= faults
      ensures interrupted ==> log == old(log)
      ensures interrupted <==> c.interruptGrace || (old(pending).Some? && c.interruptProof && Challenges(c, old(tokens)))
      ensures old(children) == [] && old(pending).None? ==>
        && faults == old(faults) && terminalCleanup == old(terminalCleanup) && unverified == old(unverified)
        && cleanupFailures == old(cleanupFailures)
      ensures !interrupted ==> log == if old(pending).Some? && !unverified then old(log) + [Retired(attempts)] else old(log)
      ensures !interrupted && old(pending).Some? ==> unverified == !Proves(c, old(tokens)) && (unverified ==> terminalCleanup)
      ensures old(terminalCleanup) ==> terminalCleanup
      ensures !interrupted && old(pending).None? ==>
        unverified == (old(unverified) || (config.remote && ReceiverInDoubt(old(children), c)))
      ensures !interrupted ==>
        terminalCleanup == (old(terminalCleanup) || PairSpoiled(config, old(children), c, old(Succeeded()))
                            || (old(pending).Some? && unverified))
      ensures !interrupted ==> status == Settled(config, old(status), faults, terminalCleanup || terminalProtocol)
      ensures !interrupted ==>
        faults == old(faults) + CleanupFaults(attempts, old(children), c, old(Succeeded()), old(faults))
                  + if old(pending).Some? && unverified then [Fault(attempts, NotRetired)] else []
    {
      hide CountKills, CountStops, Counted, CleanupFaults, Proves, Settled, Challenges, PairSpoiled, ReceiverInDoubt;
      var kids, owed := children, pending;
      children, pending := [], None;
      interrupted := EndChildren(kids, c);
      if interrupted { return true; }
      if owed.Some? {
        interrupted := Retire(c);
        if interrupted { return true; }
      }
      Settle();
      return false;
    }

    /** Ask, wait, kill, reap. */
    method EndChildren(kids: seq<Role>, c: Cleanup) returns (interrupted: bool)
      requires Counted() && Remembered()
      modifies this`faults, this`kills, this`stopFailures, this`unverified, this`terminalCleanup, this`cleanupFailures
      ensures Counted() && Remembered() && old(faults) <= faults && interrupted == c.interruptGrace
      ensures (old(terminalCleanup) ==> terminalCleanup) && (old(unverified) ==> unverified)
      ensures !interrupted ==>
        faults == old(faults) + CleanupFaults(attempts, kids, c, Succeeded(), old(faults))
      ensures !interrupted ==>
        && terminalCleanup == (old(terminalCleanup) || PairSpoiled(config, kids, c, Succeeded()))
        && unverified == (old(unverified) || (config.remote && ReceiverInDoubt(kids, c)))
      ensures kids == [] ==>
        && faults == old(faults) && terminalCleanup == old(terminalCleanup) && unverified == old(unverified)
        && cleanupFailures == old(cleanupFailures)
    {
      hide CountKills, CountStops, Counted, AskFaults, KillFaults, ReapFaults;
      if kids == [] {
        NobodyFails(attempts, kids, c);
      }
      AskToStop(kids, c);
      if c.interruptGrace { return true; }
      KillStragglers(kids, c);
      Reap(kids, c);
      EndsSpoil(config, kids, c, Succeeded());
      EndsDoubt(kids, c);
      return false;
    }

    /** A child that was never reaped is never forgotten. */
    ghost predicate Remembered()
      reads this`cleanupFailures, this`terminalCleanup
    {
      cleanupFailures > 0 ==> terminalCleanup
    }

    // ---- the bounded run -----------------------------------------------------------------

    /** Whether another pair may follow this attempt at all. */
    predicate Unsafe()
      reads this
    {
      if config.retires then terminalCleanup || terminalProtocol else kills > 0 || cleanupFailures > 0 || stopFailures > 0
    }

    /** What a success that is still standing has behind it. */
    ghost predicate Earned()
      reads this
    {
      status != Failed ==>
        acknowledged >= 1 && (config.retires ==> AllRetired(log) && !unverified && !terminalCleanup && !terminalProtocol)
    }

    /** A completed run with faults is not simply completed, and one said to have recovered has had some. */
    ghost predicate Honest()
      reads this
    {
      (status == Completed && !Unsafe() ==> faults == []) && (status == CompletedWithRecovery ==> faults != [])
    }

    method TakeOutcome(r: Outcome)
      requires Counted() && status == Failed && !terminalProtocol
      modifies this`status, this`faults, this`kills, this`stopFailures, this`terminalProtocol
      ensures Counted() && old(faults) <= faults
      ensures r.Done? ==> status == (if faults == [] then Completed else CompletedWithRecovery) && faults == old(faults)
      ensures !r.Done? ==> status == Failed
      ensures faults == old(faults) + if r.Raised? then [Fault(attempts, Attempt(r.error))] else []
      ensures terminalProtocol == (r.Raised? && config.retires && !Recoverable(r.error))
    {
      match r
      case Done(_) => status := if faults != [] then CompletedWithRecovery else Completed;
      case Raised(error) =>
        AddFault(attempts, Attempt(error));
        if config.retires && !Recoverable(error) {
          terminalProtocol := true;
        }
      case Stopped =>
    }

    method Try(script: Script) returns (r: Outcome)
      requires Idle(attempts) && Counted() && status == Failed && !unverified && !terminalProtocol
      modifies this`children, this`log, this`clocks, this`unverified, this`acknowledged, this`sessions, this`tokens, this`pending,
               this`status, this`faults, this`kills, this`stopFailures, this`terminalProtocol
      ensures Counted() && Recorded(log, config.retires, attempts, sessions, clocks)
      ensures (children, r) == Ends(config, script, old(sessions), old(tokens), old(clocks))
      ensures pending.Some? == Owes(config, script, old(sessions), old(tokens))
      ensures tokens == Used(config, script, old(sessions), old(tokens))
      ensures unverified == (pending.Some? || (r.Raised? && config.remote && OwnFailure(r.error, Receiver)))
      ensures terminalProtocol == (r.Raised? && config.retires && !Recoverable(r.error))
      ensures faults == old(faults) + if r.Raised? then [Fault(attempts, Attempt(r.error))] else []
      ensures old(log) <= log && OnlyLaunches(log, |old(log)|, attempts) && old(faults) <= faults
      ensures pending.None? && config.retires ==> log == old(log) && terminalProtocol
      ensures pending.Some? ==> config.retires
      ensures acknowledged == old(acknowledged) + 1 || (acknowledged == old(acknowledged) && !r.Done?)
      ensures (status != Failed <==> r.Done?) && (r.Raised? ==> faults != []) && (terminalProtocol ==> config.retires)
      ensures r.Done? ==> status == if old(faults) == [] then Completed else CompletedWithRecovery
    {
      hide CountKills, CountStops, Recorded, Ends, Owes, Used, Succeeds, OwnFailure;
      r := RunAttempt(script);
      TakeOutcome(r);
    }

    /** One whole attempt, cleanup and proof included. */
    method OneAttempt(script: Script) returns (over: bool, interrupted: bool)
      requires Idle(attempts) && Counted() && Remembered()
      requires status == Failed && !unverified && !terminalProtocol && (config.retires ==> !terminalCleanup)
      modifies this
      ensures attempts == old(attempts) && children == [] && pending == None && Counted() && Remembered()
      ensures Recorded(log, config.retires, attempts, sessions, clocks)
      ensures old(acknowledged) <= acknowledged <= old(acknowledged) + 1
      ensures old(faults) <= faults
      ensures !interrupted ==> Earned() && Honest()
      ensures !interrupted && !over ==> status == Failed && faults != [] && !unverified && !Unsafe() && !terminalProtocol
      ensures !interrupted && !over && config.retires ==> AllRetired(log)
      // What ends the supervision, and what lets another attempt follow.
      ensures interrupted <==> Interrupts(config, script, old(sessions), old(tokens), old(clocks))
      ensures !interrupted ==>
        over == (Ends(config, script, old(sessions), old(tokens), old(clocks)).1.Done? || unverified || Unsafe())
      ensures !interrupted && over ==> status != Failed || unverified || Unsafe()
      ensures !interrupted ==> unverified == Unproved(config, script, old(sessions), old(tokens), old(clocks))
      ensures !interrupted && config.retires ==>
        var (kids, r) := Ends(config, script, old(sessions), old(tokens), old(clocks));
        && terminalProtocol == (r.Raised? && !Recoverable(r.error))
        && terminalCleanup == (PairSpoiled(config, kids, script.cleanup, r.Done?)
                               || (Owes(config, script, old(sessions), old(tokens)) && unverified))
      ensures !interrupted ==>
        var (kids, r) := Ends(config, script, old(sessions), old(tokens), old(clocks));
        var raised := old(faults) + if r.Raised? then [Fault(attempts, Attempt(r.error))] else [];
        faults == raised + CleanupFaults(attempts, kids, script.cleanup, r.Done?, raised)
                  + if Owes(config, script, old(sessions), old(tokens)) && unverified then [Fault(attempts, NotRetired)] else []
    {
      hide CountKills, CountStops, Proves, CleanupFaults, Ends, Owes, Used, Challenges, PairSpoiled, ReceiverInDoubt;
      hide DistinctSessions, DistinctClocks, SendersMatch, RetiredFirst, AllRetired, OnlyLaunches, OwnFailure, Recoverable;
      ghost var before := log;
      var r := Try(script);
      ghost var middle, owed, kids, raised := log, pending.Some?, children, faults;
      var cut := StopPair(script.cleanup);
      interrupted := r.Stopped? || cut;
      over := r.Done? || Unsafe() || unverified;
      if !interrupted && r.Done? {
        HonestEnd(config, attempts, kids, script.cleanup, raised, faults,
                  if owed && unverified then [Fault(attempts, NotRetired)] else [], terminalCleanup || terminalProtocol);
      }
      AttemptRecorded(before, middle, config.retires, attempts, sessions, clocks);
      if !interrupted && !owed && config.retires {
        assert terminalProtocol;
      }
    }

    /**
     * The whole run.  In every environment: attempts stay within the bound, sessions and clocks are
     * never reused, a sender starts only on its own receiver's clock, with proofs on no receiver
     * starts before all earlier ones are proved retired, and nothing is left behind.
     */
    method Run(lockHeld: bool, scripts: seq<Script>)
      requires Fresh() && |scripts| == config.maxAttempts
      modifies this
      ensures attempts <= config.maxAttempts && acknowledged <= attempts && children == [] && pending == None
      ensures Recorded(log, config.retires, attempts, sessions, clocks)
      ensures Counted()
      // A success stands only on an acknowledged pair, and with proofs on on every retirement proved.
      ensures status != Failed ==> acknowledged >= 1 && !unverified
      ensures status != Failed && config.retires ==> AllRetired(log)
      ensures status != Failed && !config.retires ==> kills == 0 && cleanupFailures == 0 && stopFailures == 0
      // The exit code tells success without fault, success with faults, and failure.
      ensures ExitCode() == if status == Failed then 1 else if faults == [] then 0 else 3
      ensures status != Failed && !config.retires ==> forall f :: f in faults ==>
        !(f.reason.ForcedStop? || f.reason.ExitedBeforeStop? || f.reason.NonzeroStop? || f.reason.FinalOutput? || f.reason.FinalControl?)
      // Exit code zero: one attempt, one acknowledged pair, and nothing went wrong anywhere.
      ensures ExitCode() == 0 ==> attempts == 1 && acknowledged == 1 && faults == []
      ensures ExitCode() == 0 ==> kills == 0 && cleanupFailures == 0 && stopFailures == 0
      // It gives up before its last attempt only for a reason, and the reason is reported.
      ensures attempts < config.maxAttempts && status == Failed ==>
        exists f :: f in faults
          && (f.reason in {LockUnavailable, Reason.Interrupted, UncleanStop, RetirementUnverified}
              || f == Fault(attempts + 1, Attempt(OverallDeadline)))
    {
      hide Recorded, AllRetired, CountKills, CountStops, CleanupFaults;
      StartsEmpty(config.retires);
      NoFaultsNoKills(faults);
      if !lockHeld {
        AddFault(0, LockUnavailable);
      } else {
        var interrupted := Attempts(scripts);
        Conclude(interrupted);
      }
      var cut := StopPair(Cleanup(map[], false, false, [], false));
      NoFaultsNoKills(faults);
      NoneCounted(faults);
      assert !cut;
    }

    /** After the last attempt: an interrupt, an unclean stop or an unverified retirement is a failure. */
    method Conclude(interrupted: bool)
      requires Counted()
      modifies this`faults, this`kills, this`stopFailures, this`status
      ensures Counted() && old(faults) <= faults
      ensures status != Failed <==> old(status) != Failed && !interrupted && !unverified && !old(Unsafe())
      ensures status != Failed ==> status == old(status) && faults == old(faults)
      ensures interrupted ==> Fault(attempts, Reason.Interrupted) in faults
      ensures !interrupted && old(Unsafe()) ==> Fault(attempts, UncleanStop) in faults
      ensures !interrupted && unverified ==> Fault(attempts, RetirementUnverified) in faults
    {
      hide CountKills, CountStops;
      if interrupted {
        AddFault(attempts, Reason.Interrupted);
        status := Failed;
        return;
      }
      if Unsafe() {
        AddFault(attempts, UncleanStop);
        status := Failed;
      }
      if unverified {
        AddFault(attempts, RetirementUnverified);
        status := Failed;
      }
    }

    /** Why no further attempt is made: a success, a cleanup or a proof that failed, or no time left for one. */
    ghost predicate Reasoned()
      reads this
    {
      status != Failed || Unsafe() || unverified || Fault(attempts + 1, Attempt(OverallDeadline)) in faults
    }

    method Attempts(scripts: seq<Script>) returns (interrupted: bool)
      requires Fresh() && |scripts| == config.maxAttempts
      modifies this
      ensures attempts <= config.maxAttempts && acknowledged <= attempts && children == [] && pending == None
      ensures Recorded(log, config.retires, attempts, sessions, clocks) && Counted() && Remembered()
      ensures attempts > 1 ==> faults != []
      ensures !interrupted ==> Earned() && Honest()
      ensures attempts == config.maxAttempts || interrupted || Reasoned()
    {
      hide DistinctSessions, DistinctClocks, SendersMatch, RetiredFirst;
      hide Ends, Owes, Interrupts, Unproved, PairSpoiled, CleanupFaults, Recoverable, Recorded, AllRetired, CountKills, CountStops;
      interrupted := false;
      var over := false;
      StartsEmpty(config.retires);
      NoFaultsNoKills(faults);
      for n := 1 to config.maxAttempts + 1
        invariant attempts < n && acknowledged <= attempts && children == [] && pending == None
        invariant Recorded(log, config.retires, attempts, sessions, clocks) && Counted() && Remembered()
        invariant attempts > 1 ==> faults != []
        invariant !interrupted ==> Earned() && Honest()
        invariant !over && !interrupted ==> attempts == n - 1 && (attempts > 0 ==> faults != [])
        invariant !over && !interrupted ==>
          status == Failed && !unverified && !terminalProtocol && (config.retires ==> !terminalCleanup)
        invariant !over && !interrupted && config.retires ==> AllRetired(log)
        invariant over && !interrupted ==> attempts == config.maxAttempts || Reasoned()
      {
        if over || interrupted {
          break;
        }
        if scripts[n - 1].late {
          AddFault(n, Attempt(OverallDeadline));
          over := true;
        } else {
          attempts := n;
          over, interrupted := OneAttempt(scripts[n - 1]);
        }
      }
    }
  }

  lemma NobodyFails(n: nat, kids: seq<Role>, c: Cleanup)
    requires kids == []
    ensures forall succeeded :: AskFaults(n, kids, c, succeeded) == []
    ensures KillFaults(n, kids, c) == [] && forall s :: ReapFaults(n, kids, c, s) == []
  {
  }

  lemma StartsEmpty(retires: bool)
    ensures Recorded([], retires, 0, {}, {}) && AllRetired([])
  {
  }

  /** After its cleanup, an attempt's log is what it was or one retirement longer, and then all are retired. */
  lemma AttemptRecorded(before: seq<Event>, middle: seq<Event>, retires: bool, n: nat, sessions: set<u64>, clocks: set<u64>)
    requires Recorded(middle, retires, n, sessions, clocks) && before <= middle && OnlyLaunches(middle, |before|, n)
    requires retires ==> AllRetired(before)
    ensures Recorded(middle + [Retired(n)], retires, n, sessions, clocks)
    ensures retires ==> AllRetired(middle + [Retired(n)])
  {
    OtherRecorded(middle, retires, n, sessions, clocks, Retired(n));
    assert clocks + {} == clocks;
    if retires {
      assert middle[..|before|] == before;
      RetirementCompletes(middle, |before|, n);
    }
  }

  function Settled(c: Config, status: Status, faults: seq<Fault>, spoiled: bool): Status {
    if c.retires && spoiled then Failed
    else if c.retires && status == Completed && faults != [] then CompletedWithRecovery
    else status
  }

  /** A fresh challenge can be drawn, and it is answered with a proof. */
  predicate Challenges(c: Cleanup, tokens: set<u64>) {
    exists i :: 0 <= i < 16 && DrawAt(c.tokens, i) !in tokens
  }

  predicate Proves(c: Cleanup, tokens: set<u64>) {
    c.proved && Challenges(c, tokens)
  }

  predicate Doubtful(e: Ending) {
    !e.reaped || BadExit(e)
  }

  /** Cleanup itself never looks like an attempt's own fault. */
  lemma {:induction false} ReapKnown(n: nat, kids: seq<Role>, c: Cleanup, before: seq<Fault>, role: Role)
    ensures var f := Fault(n, Attempt(OutputFailed(role)));
            forall e :: f in before + ReapFaults(n, kids, c, before) + ExitFaults(n, role, e) <==> f in before
  {
    if kids != [] {
      ReapKnown(n, kids[..|kids| - 1], c, before, role);
    }
  }

  /** The user's interrupt: while the attempt runs, in the grace period, or while its proof is asked for. */
  ghost predicate Interrupts(c: Config, script: Script, sessions: set<u64>, tokens: set<u64>, clocks: set<u64>) {
    || Ends(c, script, sessions, tokens, clocks).1.Stopped? || script.cleanup.interruptGrace
    || (Owes(c, script, sessions, tokens) && script.cleanup.interruptProof
        && Challenges(script.cleanup, Used(c, script, sessions, tokens)))
  }

  /** The retirement is left unverified: the proof owed was not given, or, with none owed, a remote receiver is in doubt. */
  ghost predicate Unproved(c: Config, script: Script, sessions: set<u64>, tokens: set<u64>, clocks: set<u64>) {
    var (kids, r) := Ends(c, script, sessions, tokens, clocks);
    if Owes(c, script, sessions, tokens) then !Proves(script.cleanup, Used(c, script, sessions, tokens))
    else c.remote && (ReceiverInDoubt(kids, script.cleanup) || (r.Raised? && OwnFailure(r.error, Receiver)))
  }

  /**
   * What a child's first word, poll i, decides: the handshake is met by a control message of this session
   * with the clock asked for, or, if none is, with one never accepted before; anything else is an error of
   * its own kind, silence a time-out, and an interrupt neither.  While running, any word ends the attempt.
   */
  lemma FirstWordDecides(role: Role, polls: seq<Poll>, i: nat, late: bool, session: u64, clock: Option<u64>, clocks: set<u64>)
    requires i <= |polls| && (forall j :: 0 <= j < i ==> polls[j].Quiet?) && (i < |polls| ==> !polls[i].Quiet?)
    ensures Meets(polls, session, clock, clocks) <==>
              && i < |polls| && polls[i].Control? && polls[i].session == session
              && (clock.Some? ==> polls[i].clock == clock.value) && (clock.None? ==> polls[i].clock !in clocks)
    ensures !Meets(polls, session, clock, clocks) ==>
              Unmet(role, polls, late, session, clock) ==
                if i == |polls| then Raised(if late then OverallDeadline else HandshakeTimeout(role))
                else if polls[i].Interrupt? then Stopped
                else if polls[i].Broken? then Raised(polls[i].error)
                else if polls[i].session != session then Raised(SessionMismatch)
                else Raised(if clock.Some? then ClockMismatch else ReusedClock)
    ensures Watched(polls) ==
              if i == |polls| then Done(0)
              else if polls[i].Interrupt? then Stopped
              else Raised(if polls[i].Broken? then polls[i].error else UnexpectedControl)
  {
    LoudIs(polls, i);
    hide Loud;
  }

  /** How a child's end makes this cleanup the last thing the supervisor does. */
  predicate Spoils(c: Config, role: Role, e: Ending) {
    !e.reaped || (BadExit(e) && Terminal(c, role)) || e.output || e.control
  }

  /** The three passes over the children together look for exactly what spoils the pair, */
  lemma EndsSpoil(c: Config, kids: seq<Role>, cleanup: Cleanup, succeeded: bool)
    ensures PairSpoiled(c, kids, cleanup, succeeded) <==>
      || (succeeded && exists i :: 0 <= i < |kids| && EndingOf(cleanup, kids[i]).gone && Terminal(c, kids[i]))
      || (exists i :: 0 <= i < |kids| && Straggler(EndingOf(cleanup, kids[i])) && EndingOf(cleanup, kids[i]).killable
                      && Terminal(c, kids[i]))
      || (exists i :: 0 <= i < |kids| && Spoils(c, kids[i], EndingOf(cleanup, kids[i])))
  {
    hide EndingOf;
    forall i | 0 <= i < |kids|
      ensures var e := EndingOf(cleanup, kids[i]);
              Spoiling(c, kids[i], e, succeeded) <==>
              (succeeded && e.gone && Terminal(c, kids[i])) || (Straggler(e) && e.killable && Terminal(c, kids[i]))
              || Spoils(c, kids[i], e)
    {
    }
    hide Spoiling, Terminal, Straggler, Spoils;
  }

  /** and for exactly what leaves a receiver in doubt. */
  lemma EndsDoubt(kids: seq<Role>, cleanup: Cleanup)
    ensures ReceiverInDoubt(kids, cleanup) <==>
      || (exists i :: 0 <= i < |kids| && kids[i] == Receiver && EndingOf(cleanup, kids[i]).gone)
      || (exists i :: 0 <= i < |kids| && kids[i] == Receiver && Straggler(EndingOf(cleanup, kids[i])))
      || (exists i :: 0 <= i < |kids| && kids[i] == Receiver && Doubtful(EndingOf(cleanup, kids[i])))
  {
    hide EndingOf;
  }

  /** A cleanup reports, for each child: gone too early, killed, ended badly, or with bad output or control lines. */
  ghost predicate Reports(n: nat, role: Role, e: Ending, succeeded: bool, before: seq<Fault>, f: Fault) {
    || (f == Fault(n, ExitedBeforeStop(role)) && e.gone && succeeded)
    || (f == Fault(n, ForcedStop(role)) && !e.gone && !e.stops && e.killable)
    || (f == Fault(n, NonzeroStop(role)) && !e.gone && e.reaped && e.nonzero)
    || (f == Fault(n, FinalOutput(role)) && e.output && Fault(n, Attempt(OutputFailed(role))) !in before)
    || (f == Fault(n, FinalControl) && e.control)
  }

  ghost predicate SomeReports(n: nat, kids: seq<Role>, c: Cleanup, succeeded: bool, before: seq<Fault>, f: Fault) {
    exists i :: 0 <= i < |kids| && Reports(n, kids[i], EndingOf(c, kids[i]), succeeded, before, f)
  }

  /** A cleanup finds exactly these faults. */
  lemma FaultsFound(n: nat, kids: seq<Role>, c: Cleanup, succeeded: bool, before: seq<Fault>, f: Fault)
    ensures f in CleanupFaults(n, kids, c, succeeded, before) <==> SomeReports(n, kids, c, succeeded, before, f)
  {
    hide EndingOf;
    var asked, killed := AskFaults(n, kids, c, succeeded), KillFaults(n, kids, c);
    AskFound(n, kids, c, succeeded, f);
    KillFound(n, kids, c, f);
    ReapFound(n, kids, c, before + asked + killed, f);
    forall role
      ensures Fault(n, Attempt(OutputFailed(role))) in before + asked + killed <==> Fault(n, Attempt(OutputFailed(role))) in before
    {
      AskFound(n, kids, c, succeeded, Fault(n, Attempt(OutputFailed(role))));
      KillFound(n, kids, c, Fault(n, Attempt(OutputFailed(role))));
    }
    hide AskFaults, KillFaults, ReapFaults;
  }

  /** Whatever a cleanup reports is a kill or a stop that failed. */
  lemma CleanupCounts(n: nat, kids: seq<Role>, c: Cleanup, succeeded: bool)
    ensures var found := CleanupFaults(n, kids, c, succeeded, []);
            found != [] ==> CountKills(found) > 0 || CountStops(found) > 0
  {
    var found := CleanupFaults(n, kids, c, succeeded, []);
    if found != [] {
      FaultsFound(n, kids, c, succeeded, [], found[0]);
      NoneCounted(found);
      hide CleanupFaults, EndingOf;
      assert found[0] in found;
    }
  }

  /** A success settled after its cleanup: with faults it is not simply completed, or something was killed or failed to stop. */
  lemma HonestEnd(c: Config, n: nat, kids: seq<Role>, cleanup: Cleanup, before: seq<Fault>, after: seq<Fault>, rest: seq<Fault>,
                  spoiled: bool)
    requires after == before + CleanupFaults(n, kids, cleanup, true, before) + rest && (!c.retires ==> rest == [])
    ensures var status := Settled(c, if before == [] then Completed else CompletedWithRecovery, after, spoiled);
            && (status == CompletedWithRecovery ==> after != [])
            && (status == Completed && after != [] ==> !c.retires && (CountKills(after) > 0 || CountStops(after) > 0))
  {
    CleanupCounts(n, kids, cleanup, true);
    hide CleanupFaults, CountKills, CountStops;
    if before == [] && rest == [] {
      assert after == CleanupFaults(n, kids, cleanup, true, []);
    }
  }

  lemma {:induction false} AskFound(n: nat, kids: seq<Role>, c: Cleanup, succeeded: bool, f: Fault)
    ensures f in AskFaults(n, kids, c, succeeded) <==>
            exists i :: 0 <= i < |kids| && f == Fault(n, ExitedBeforeStop(kids[i])) && EndingOf(c, kids[i]).gone && succeeded
    decreases |kids|
  {
    hide EndingOf;
    if kids != [] {
      AskFound(n, kids[..|kids| - 1], c, succeeded, f);
    }
  }

  lemma {:induction false} KillFound(n: nat, kids: seq<Role>, c: Cleanup, f: Fault)
    ensures f in KillFaults(n, kids, c) <==>
            exists i :: 0 <= i < |kids| && f == Fault(n, ForcedStop(kids[i]))
                        && !EndingOf(c, kids[i]).gone && !EndingOf(c, kids[i]).stops && EndingOf(c, kids[i]).killable
    decreases |kids|
  {
    hide EndingOf;
    if kids != [] {
      KillFound(n, kids[..|kids| - 1], c, f);
    }
  }

  lemma {:induction false} ReapFound(n: nat, kids: seq<Role>, c: Cleanup, before: seq<Fault>, f: Fault)
    ensures f in ReapFaults(n, kids, c, before) <==>
            exists i :: 0 <= i < |kids|
              && (f in ExitFaults(n, kids[i], EndingOf(c, kids[i]))
                  || f in OutputFaults(n, kids[i], EndingOf(c, kids[i]), Fault(n, Attempt(OutputFailed(kids[i]))) in before))
    decreases |kids|
  {
    hide EndingOf, ExitFaults, OutputFaults;
    if kids != [] {
      ReapFound(n, kids[..|kids| - 1], c, before, f);
    }
  }

  /** Which errors a proof of retirement can make good: those that say no more than that a child has gone. */
  lemma RecoverableExactly(e: PairError)
    ensures Recoverable(e) <==>
      || e.SpawnFailed? || e.Exited? || e.StdoutEof? || e.HandshakeTimeout?
      || e == StdinWriteFailed(Receiver) || e == StdinBackpressure(Receiver)
  {
  }

  /** Which errors are a receiver's own, and so leave its retirement in doubt if it is remote. */
  lemma OwnExactly(e: PairError, role: Role)
    ensures OwnFailure(e, role) <==>
      e == Exited(role) || e == StdoutEof(role) || e == StdinWriteFailed(role) || e == StdinBackpressure(role) || e == OutputFailed(role)
  {
  }

  lemma RecordedGrows(log: seq<Event>, retires: bool, n: nat, sessions: set<u64>, more: set<u64>, clocks: set<u64>)
    requires n > 0 && Recorded(log, retires, n - 1, sessions, clocks) && sessions <= more
    ensures Recorded(log, retires, n, more, clocks)
  {
  }
}
