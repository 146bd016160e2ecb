// What a start, a gate and a retire come to when nothing disturbs them, from any records whatever: which
// are refused, what they leave behind, and which proof a retire prints (tools/remote_receiver.py).
module RetirementRuns {
  import opened Timing
  import opened RetirementFence

  /** No process of the attempt is under way. */
  predicate Quiet(s: State) {
    s.processes == map[] && s.lock == None
  }

  /** Every proof printed in the course of a run. */
  ghost function Printout(s: State, steps: seq<Step>): seq<Proof>
    requires Runs(s, steps)
    decreases |steps|
  {
    if steps == [] then []
    else
      (match Printed(s, steps[0])
       case None => []
       case Some(proof) => [proof]) + Printout(Do(s, steps[0]), steps[1..])
  }

  predicate Says(step: Step) {
    step.Decide? || step.Observe?
  }

  lemma {:induction false} SilentRun(s: State, steps: seq<Step>)
    requires Runs(s, steps) && forall i :: 0 <= i < |steps| ==> !Says(steps[i])
    ensures Printout(s, steps) == []
    decreases |steps|
  {
    hide Do, Enabled;
    if steps != [] {
      assert !Says(steps[0]);
      SilentRun(Do(s, steps[0]), steps[1..]);
    }
  }

  lemma {:induction false} PrintoutJoins(s: State, a: seq<Step>, b: seq<Step>)
    requires Runs(s, a) && Runs(After(s, a), b)
    ensures Runs(s, a + b) && After(s, a + b) == After(After(s, a), b)
    ensures Printout(s, a + b) == Printout(s, a) + Printout(After(s, a), b)
    decreases |a|
  {
    hide Do, Enabled, Printed;
    Concatenate(s, a, b);
    if a == [] {
      assert a + b == b;
    } else {
      assert (a + b)[0] == a[0] && (a + b)[1..] == a[1..] + b;
      PrintoutJoins(Do(s, a[0]), a[1..], b);
    }
  }

  /** Going on from a run by one step. */
  lemma Then(s: State, a: seq<Step>, t: State, step: Step)
    requires Runs(s, a) && After(s, a) == t && Enabled(t, step)
    ensures Runs(s, a + [step]) && After(s, a + [step]) == Do(t, step)
    ensures Printout(s, a + [step]) == Printout(s, a) + match Printed(t, step) case None => [] case Some(proof) => [proof]
  {
    hide Do, Enabled, Printed;
    assert Runs(t, [step]) && After(t, [step]) == Do(t, step) by {
      assert [step][1..] == [];
    }
    assert Printout(t, [step]) == match Printed(t, step) case None => [] case Some(proof) => [proof] by {
      assert [step][1..] == [];
    }
    PrintoutJoins(s, a, [step]);
  }

  // ---- the lock ------------------------------------------------------------------------------

  /** The one process there is, at a phase. */
  function Only(s: State, role: Role, phase: Phase, seen: Seen): State {
    s.(processes := map[0 := Process(role, phase, seen)], lock := if Locked(phase) then Some(0) else None)
  }

  /** Up to the moment before its check every process does the same. */
  lemma Enters(s: State, role: Role)
    requires Quiet(s) && (role == Gate ==> s.launched)
    ensures var run := Approach(role, s.dir) + [Acquire(0)];
            && Runs(s, run) && After(s, run) == Only(s.(dir := Made(s.dir)), role, Checking, BLIND)
            && Enabled(After(s, run), Check(0)) && Printout(s, run) == []
  {
    hide Runs, After, Printout;
    ApproachRuns(s, role);
    var t := s.(dir := Made(s.dir));
    AloneAcquires(t, role);
    SilentRun(s, Approach(role, s.dir));
    Then(s, Approach(role, s.dir), Alone(t, role, Waiting), Acquire(0));
  }

  // ---- a retire --------------------------------------------------------------------------------

  /** A record is incomplete, or there is a receipt without its intent or at odds with it. */
  predicate Unreadable(s: State) {
    || (s.intent.Record? && !s.intent.complete)
    || (s.receipt.Record? && !s.receipt.complete)
    || (s.cancel.Record? && !s.cancel.complete)
    || (s.receipt.Record? && (s.intent.Nothing? || s.intent.boot != s.receipt.boot))
  }

  /** The tombstone there will be: the one there is, or a new one on stable storage. */
  function Tombstone(s: State): Record {
    if s.cancel.Nothing? then Record(true, true, s.boot) else s.cancel
  }

  predicate PriorBoot(s: State) {
    s.intent.Record? && s.intent.boot != s.boot
  }

  /** What an undisturbed retire does, from its spawn to its end; the receiver goes when it is stopped. */
  function RetireRun(s: State): seq<Step> {
    Approach(Retire, s.dir) + [Acquire(0)] + [Check(0)]
    + if Unreadable(s) then []
      else
        (if s.cancel.Nothing? then [Create(0)] + [Write(0)] + [Sync(0)] else [])
        + [Decide(0)] + (if PriorBoot(s) || s.receipt.Nothing? then [] else [ReceiverExit] + [Observe(0)])
  }

  /** The check of a retire alone. */
  lemma RetireChecks(s: State)
    requires s.lock == None
    ensures var c := Only(s, Retire, Checking, BLIND);
            && Enabled(c, Check(0)) && Printed(c, Check(0)) == None
            && Do(c, Check(0)) ==
               if Unreadable(s) then s.(processes := map[])
               else Only(s, Retire, if s.cancel.Nothing? then Creating else Deciding, Snapshot(s))
  {
    assert map[0 := Process(Retire, Checking, BLIND)] - {0} == map[];
  }

  /** The three file operations of a process that creates its record. */
  lemma Creates(s: State, role: Role, seen: Seen)
    requires Target(s, role).Nothing?
    ensures var c := Only(s, role, Creating, seen);
            Enabled(c, Create(0)) && Do(c, Create(0)) == Only(SetTarget(s, role, Record(false, false, s.boot)), role, Writing, seen)
  {
  }

  lemma Writes(s: State, role: Role, seen: Seen)
    requires Target(s, role).Record?
    ensures var c := Only(s, role, Writing, seen);
            Enabled(c, Write(0)) && Do(c, Write(0)) == Only(SetTarget(s, role, Target(s, role).(complete := true)), role, Syncing, seen)
  {
  }

  lemma RetireSyncs(s: State, seen: Seen)
    requires s.lock == None && s.cancel.Record?
    ensures var c := Only(s, Retire, Syncing, seen);
            Enabled(c, Sync(0)) && Do(c, Sync(0)) == Only(s.(cancel := s.cancel.(durable := true)), Retire, Deciding, seen)
  {
  }

  lemma RetireDecides(s: State, t: State)
    requires s.lock == None && t == s.(cancel := Tombstone(s))
    ensures var d := Only(t, Retire, Deciding, Snapshot(s));
            && Enabled(d, Decide(0))
            && Printed(d, Decide(0)) == (if PriorBoot(s) then Some(FencedPriorBoot)
                                         else if s.receipt.Nothing? then Some(FencedNeverStarted) else None)
            && Do(d, Decide(0)) == if PriorBoot(s) || s.receipt.Nothing? then t.(processes := map[])
                                   else Only(t, Retire, Polling, Snapshot(s))
  {
    assert map[0 := Process(Retire, Deciding, Snapshot(s))] - {0} == map[];
  }

  /** A retire that polls can say no more while the receiver lives, and says so once it has gone. */
  lemma RetirePolls(t: State, seen: Seen)
    requires t.lock == None
    ensures var p, gone := Only(t, Retire, Polling, seen), Only(t.(alive := false), Retire, Polling, seen);
            && (Enabled(p, Observe(0)) <==> !t.alive)
            && Enabled(p, ReceiverExit) && Printed(p, ReceiverExit) == None && Do(p, ReceiverExit) == gone
            && Enabled(gone, Observe(0)) && Printed(gone, Observe(0)) == Some(FencedEmptyCgroup)
            && Do(gone, Observe(0)) == t.(alive := false, processes := map[])
  {
    assert map[0 := Process(Retire, Polling, seen)] - {0} == map[];
  }

  /** Up to its decision a retire prints nothing. */
  lemma RetireComesToDecide(s: State)
    requires Quiet(s) && !Unreadable(s)
    ensures var run := Approach(Retire, s.dir) + [Acquire(0)] + [Check(0)]
                       + if s.cancel.Nothing? then [Create(0)] + [Write(0)] + [Sync(0)] else [];
            && Runs(s, run) && Printout(s, run) == []
            && After(s, run) == Only(s.(dir := Made(s.dir), cancel := Tombstone(s)), Retire, Deciding, Snapshot(s))
  {
    hide Runs, After, Printout, Do, Enabled, Only, Snapshot;
    var m := s.(dir := Made(s.dir));
    Enters(s, Retire);
    var run := Approach(Retire, s.dir) + [Acquire(0)];
    RetireChecks(m);
    SnapshotOf(s, m);
    Then(s, run, Only(m, Retire, Checking, BLIND), Check(0));
    if s.cancel.Nothing? {
      var seen := Snapshot(s);
      var created, written := m.(cancel := Record(false, false, s.boot)), m.(cancel := Record(true, false, s.boot));
      Creates(m, Retire, seen);
      Writes(created, Retire, seen);
      RetireSyncs(written, seen);
      Then(s, run + [Check(0)], Only(m, Retire, Creating, seen), Create(0));
      Then(s, run + [Check(0)] + [Create(0)], Only(created, Retire, Writing, seen), Write(0));
      Then(s, run + [Check(0)] + [Create(0)] + [Write(0)], Only(written, Retire, Syncing, seen), Sync(0));
      assert run + [Check(0)] + [Create(0)] + [Write(0)] + [Sync(0)] == run + [Check(0)] + ([Create(0)] + [Write(0)] + [Sync(0)]);
    } else {
      assert run + [Check(0)] + [] == run + [Check(0)];
      assert m == s.(dir := Made(s.dir), cancel := Tombstone(s));
    }
  }

  lemma SnapshotOf(s: State, t: State)
    requires t.intent == s.intent && t.receipt == s.receipt
    ensures Snapshot(t) == Snapshot(s)
  {
  }

  /**
   * A retire that nothing disturbs, from any records and whatever receiver is running: it is refused
   * exactly when a record is incomplete or a receipt is without or at odds with its intent, and then
   * changes no record and prints nothing.  Otherwise it leaves a tombstone and prints exactly one proof:
   * of a prior boot if the intent names another boot, else of never having started if there is no
   * receipt, else, once the receiver is gone, of an empty cgroup.
   */
  lemma RetireExact(s: State)
    requires Quiet(s)
    ensures Runs(s, RetireRun(s)) && Quiet(After(s, RetireRun(s)))
    ensures Printout(s, RetireRun(s)) ==
            if Unreadable(s) then []
            else if s.intent.Record? && s.intent.boot != s.boot then [FencedPriorBoot]
            else if s.receipt.Nothing? then [FencedNeverStarted]
            else [FencedEmptyCgroup]
    ensures var t := After(s, RetireRun(s));
            && (t.intent, t.receipt, t.boot, t.launched, t.execs) == (s.intent, s.receipt, s.boot, s.launched, s.execs)
            && t.cancel == (if Unreadable(s) then s.cancel else if s.cancel.Record? then s.cancel else Record(true, true, s.boot))
  {
    hide Runs, After, Printout, Do, Enabled, Snapshot;
    var m := s.(dir := Made(s.dir));
    var entered := Approach(Retire, s.dir) + [Acquire(0)];
    if Unreadable(s) {
      Enters(s, Retire);
      RetireChecks(m);
      Then(s, entered, Only(m, Retire, Checking, BLIND), Check(0));
      assert RetireRun(s) == entered + [Check(0)];
    } else {
      RetireComesToDecide(s);
      var t := m.(cancel := Tombstone(s));
      SnapshotOf(s, m);
      RetireDecides(m, t);
      var run := entered + [Check(0)] + if s.cancel.Nothing? then [Create(0)] + [Write(0)] + [Sync(0)] else [];
      var d, p := Only(t, Retire, Deciding, Snapshot(s)), Only(t, Retire, Polling, Snapshot(s));
      Then(s, run, d, Decide(0));
      if PriorBoot(s) || s.receipt.Nothing? {
        assert RetireRun(s) == run + [Decide(0)];
      } else {
        RetirePolls(t, Snapshot(s));
        Then(s, run + [Decide(0)], p, ReceiverExit);
        Then(s, run + [Decide(0)] + [ReceiverExit], Do(p, ReceiverExit), Observe(0));
        assert RetireRun(s) == run + [Decide(0)] + [ReceiverExit] + [Observe(0)];
      }
    }
  }

  // ---- a start and its gate ----------------------------------------------------------------------

  /** What an undisturbed start or gate does, from its spawn to its end, refused or not. */
  function CommitRun(s: State, role: Role, refused: bool): seq<Step> {
    Approach(role, s.dir) + [Acquire(0)] + [Check(0)] + if refused then [] else [Create(0)] + [Write(0)] + [Sync(0)]
  }

  lemma StartChecks(s: State)
    requires s.lock == None
    ensures var c := Only(s, Start, Checking, BLIND);
            && Enabled(c, Check(0))
            && Do(c, Check(0)) == if s.intent.Nothing? && s.receipt.Nothing? && s.cancel.Nothing?
                                  then Only(s, Start, Creating, BLIND) else s.(processes := map[])
  {
    assert map[0 := Process(Start, Checking, BLIND)] - {0} == map[];
  }

  lemma StartSyncs(s: State)
    requires s.lock == None && s.intent.Record?
    ensures var c := Only(s, Start, Syncing, BLIND);
            && Enabled(c, Sync(0))
            && Do(c, Sync(0)) == s.(intent := s.intent.(durable := true), processes := map[], launched := true)
  {
    assert map[0 := Process(Start, Syncing, BLIND)] - {0} == map[];
  }

  /**
   * A start that nothing disturbs launches the unit exactly when there is no record of the attempt at all,
   * with its intent on stable storage; otherwise it changes no record.
   */
  lemma StartExact(s: State)
    requires Quiet(s)
    ensures var first := s.intent.Nothing? && s.receipt.Nothing? && s.cancel.Nothing?;
            var run := CommitRun(s, Start, !first);
            && Runs(s, run)
            && After(s, run) == if first then s.(dir := Made(s.dir), intent := Record(true, true, s.boot), launched := true)
                                else s.(dir := Made(s.dir))
  {
    hide Runs, After, Printout, Do, Enabled;
    var m := s.(dir := Made(s.dir));
    var run := Approach(Start, s.dir) + [Acquire(0)];
    Enters(s, Start);
    StartChecks(m);
    Then(s, run, Only(m, Start, Checking, BLIND), Check(0));
    if s.intent.Nothing? && s.receipt.Nothing? && s.cancel.Nothing? {
      var created, written := m.(intent := Record(false, false, s.boot)), m.(intent := Record(true, false, s.boot));
      Creates(m, Start, BLIND);
      Writes(created, Start, BLIND);
      StartSyncs(written);
      Then(s, run + [Check(0)], Only(m, Start, Creating, BLIND), Create(0));
      Then(s, run + [Check(0)] + [Create(0)], Only(created, Start, Writing, BLIND), Write(0));
      Then(s, run + [Check(0)] + [Create(0)] + [Write(0)], Only(written, Start, Syncing, BLIND), Sync(0));
      assert run + [Check(0)] + [Create(0)] + [Write(0)] + [Sync(0)] == CommitRun(s, Start, false);
    } else {
      assert run + [Check(0)] == CommitRun(s, Start, true);
    }
  }

  lemma GateChecks(s: State)
    requires s.lock == None
    ensures var c := Only(s, Gate, Checking, BLIND);
            && Enabled(c, Check(0))
            && Do(c, Check(0)) ==
               if s.cancel.Nothing? && s.receipt.Nothing? && s.intent.Record? && s.intent.complete && s.intent.boot == s.boot
               then Only(s, Gate, Creating, BLIND) else s.(processes := map[])
  {
    assert map[0 := Process(Gate, Checking, BLIND)] - {0} == map[];
  }

  lemma GateSyncs(s: State)
    requires s.receipt.Record?
    ensures var c, e := Only(s, Gate, Syncing, BLIND), Only(s.(receipt := s.receipt.(durable := true)), Gate, Execing, BLIND);
            && Enabled(c, Sync(0)) && Do(c, Sync(0)) == e && Enabled(e, Exec(0))
  {
  }

  lemma GateExecs(s: State)
    requires s.lock == None
    ensures var e := Only(s, Gate, Execing, BLIND);
            Enabled(e, Exec(0)) && Do(e, Exec(0)) == s.(processes := map[], alive := true, execs := s.execs + 1)
  {
    assert map[0 := Process(Gate, Execing, BLIND)] - {0} == map[];
  }

  /**
   * A gate that nothing disturbs executes the receiver exactly when nothing has been cancelled, no receipt
   * has been written, and there is a complete intent of this very boot; its receipt is then on stable
   * storage before the receiver runs.  Otherwise it changes no record.
   */
  lemma GateExact(s: State)
    requires Quiet(s) && s.launched
    ensures var allowed := s.cancel.Nothing? && s.receipt.Nothing? && s.intent.Record? && s.intent.complete && s.intent.boot == s.boot;
            var run := CommitRun(s, Gate, !allowed) + if allowed then [Exec(0)] else [];
            && Runs(s, run)
            && After(s, run) == if allowed then s.(dir := Made(s.dir), receipt := Record(true, true, s.boot), alive := true,
                                                execs := s.execs + 1)
                                else s.(dir := Made(s.dir))
  {
    hide Runs, After, Printout, Do, Enabled;
    var m := s.(dir := Made(s.dir));
    var run := Approach(Gate, s.dir) + [Acquire(0)];
    Enters(s, Gate);
    GateChecks(m);
    Then(s, run, Only(m, Gate, Checking, BLIND), Check(0));
    if s.cancel.Nothing? && s.receipt.Nothing? && s.intent.Record? && s.intent.complete && s.intent.boot == s.boot {
      var created, written := m.(receipt := Record(false, false, s.boot)), m.(receipt := Record(true, false, s.boot));
      var synced := m.(receipt := Record(true, true, s.boot));
      Creates(m, Gate, BLIND);
      Writes(created, Gate, BLIND);
      GateSyncs(written);
      GateExecs(synced);
      Then(s, run + [Check(0)], Only(m, Gate, Creating, BLIND), Create(0));
      Then(s, run + [Check(0)] + [Create(0)], Only(created, Gate, Writing, BLIND), Write(0));
      Then(s, run + [Check(0)] + [Create(0)] + [Write(0)], Only(written, Gate, Syncing, BLIND), Sync(0));
      Then(s, run + [Check(0)] + [Create(0)] + [Write(0)] + [Sync(0)], Only(synced, Gate, Execing, BLIND), Exec(0));
      assert run + [Check(0)] + [Create(0)] + [Write(0)] + [Sync(0)] + [Exec(0)] == CommitRun(s, Gate, false) + [Exec(0)];
    } else {
      assert run + [Check(0)] == CommitRun(s, Gate, true) + [];
    }
  }
}
