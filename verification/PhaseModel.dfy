// The timing recurrence of the resampler: which source position each output frame reads
// (src/core/audio_phase.cpp, SincPhaseModel).  Doubles are modelled as reals.
module PhaseModel {
  import opened Timing

  const QUANTUM: nat := 480
  const MAXIMUM_FRAMES: nat := 48_000 * 60 * 60 * 24
  const MAX_PPM: real := 500.0
  const DEADBAND: real := 0.0000000001

  /** A predicted source position: an integer part kept apart from its fraction. */
  datatype Position = Position(whole: nat, fraction: real)

  predicate ValidPosition(p: Position) {
    p.whole <= U64_MAX && 0.0 <= p.fraction < 1.0
  }

  predicate Less(a: Position, b: Position) {
    a.whole < b.whole || (a.whole == b.whole && a.fraction < b.fraction)
  }

  function Value(p: Position): real {
    p.whole as real + p.fraction
  }

  /** The program's distance: integers are subtracted before the conversion. */
  function Distance(a: Position, b: Position): real {
    (a.whole - b.whole) as real + a.fraction - b.fraction
  }

  /** The lexicographic comparison orders valid positions by the number they stand for. */
  lemma LessIsNumeric(a: Position, b: Position)
    requires ValidPosition(a) && ValidPosition(b)
    ensures Less(a, b) <==> Value(a) < Value(b)
    ensures a == b <==> Value(a) == Value(b)
    ensures Distance(a, b) == Value(a) - Value(b)
  {
    if a.whole < b.whole {
      assert a.whole + 1 <= b.whole;
    } else if b.whole < a.whole {
      assert b.whole + 1 <= a.whole;
    }
  }

  function Abs(x: real): (r: real) {
    if x < 0.0 then -x else x
  }

  predicate PpmValid(ppm: real) {
    Abs(ppm) <= MAX_PPM
  }

  /** Output frames per input frame for a source running ppm fast. */
  function TargetRatio(ppm: real): real
    requires PpmValid(ppm)
  {
    1.0 / (1.0 + ppm / 1000000.0)
  }

  datatype Model = Model(next: Position, ratio: real, frames: nat, initialized: bool)

  const BLANK: Model := Model(Position(0, 0.0), 1.0, 0, false)

  /** A ratio the +/-500 ppm limit allows: its reciprocal is within 500 ppm of one. */
  predicate RatioInRange(ratio: real) {
    ratio > 0.0 && 0.9995 * ratio <= 1.0 <= 1.0005 * ratio
  }

  /** What every reachable model satisfies. */
  predicate ValidModel(m: Model) {
    m.initialized ==> ValidPosition(m.next) && RatioInRange(m.ratio) && m.frames <= MAXIMUM_FRAMES
  }

  function ResetModel(m: Model, origin: nat, ppm: real): (r: (bool, Model)) {
    if !PpmValid(ppm) then (false, m)
    else (true, Model(Position(origin, 0.0), TargetRatio(ppm), 0, true))
  }

  /** The interpolated ratio in force at sample i of a quantum heading for `target`. */
  function Reached(ratio: real, target: real, i: nat): real {
    if Abs(target - ratio) > DEADBAND then ratio + (target - ratio) * (i as real / 480.0) else ratio
  }

  function StepPosition(p: Position, ratio: real): Position
    requires ratio > 0.0 && p.fraction >= 0.0
  {
    var advance := p.fraction + 1.0 / ratio;
    assert advance >= 0.0;
    Position(p.whole + advance.Floor, advance - advance.Floor as real)
  }

  /** The source position of sample i of the quantum, before any width check. */
  function Cursor(start: Position, ratio: real, target: real, i: nat): (p: Position)
    requires RatioInRange(ratio) && RatioInRange(target) && i <= QUANTUM
    requires 0.0 <= start.fraction < 1.0
    ensures 0.0 <= p.fraction < 1.0
    decreases i, start
  {
    if i == 0 then start
    else
      ReachedInRange(ratio, target, i - 1);
      StepPosition(Cursor(start, ratio, target, i - 1), Reached(ratio, target, i - 1))
  }

  predicate AdvanceAllowed(m: Model, ppm: real) {
    m.initialized && PpmValid(ppm) && m.frames <= MAXIMUM_FRAMES - QUANTUM
  }

  function EndCursor(m: Model, ppm: real): Position
    requires ValidModel(m) && AdvanceAllowed(m, ppm)
  {
    TargetInRange(ppm);
    Cursor(m.next, m.ratio, TargetRatio(ppm), QUANTUM)
  }

  /** One full quantum: the model afterwards, or None when the program refuses to advance. */
  function Advance(m: Model, ppm: real): (r: Option<Model>)
    requires ValidModel(m)
    ensures r.Some? ==> AdvanceAllowed(m, ppm)
  {
    if !AdvanceAllowed(m, ppm) || EndCursor(m, ppm).whole > U64_MAX then None
    else Some(Model(EndCursor(m, ppm), Reached(m.ratio, TargetRatio(ppm), QUANTUM - 1), m.frames + QUANTUM, true))
  }

  /** The positions the quantum's 480 output frames read from. */
  function Positions(m: Model, ppm: real): (s: seq<Position>)
    requires ValidModel(m) && AdvanceAllowed(m, ppm)
    ensures |s| == QUANTUM
  {
    TargetInRange(ppm);
    seq(QUANTUM, i requires 0 <= i < QUANTUM => Cursor(m.next, m.ratio, TargetRatio(ppm), i))
  }

  // ---- ratios stay in range --------------------------------------------------------------

  lemma NonNegativeProduct(a: real, b: real)
    requires a >= 0.0 && b >= 0.0
    ensures a * b >= 0.0
  {
  }

  lemma TargetInRange(ppm: real)
    requires PpmValid(ppm)
    ensures RatioInRange(TargetRatio(ppm))
  {
    var speed := 1.0 + ppm / 1000000.0;
    assert 0.9995 <= speed <= 1.0005;
    var r := TargetRatio(ppm);
    assert r * speed == 1.0;
    assert r > 0.0;
    NonNegativeProduct(speed - 0.9995, r);
    NonNegativeProduct(1.0005 - speed, r);
  }

  /** A source that runs ppm fast is read faster by just that: output per input is the reciprocal. */
  lemma TargetIsReciprocal(ppm: real)
    requires PpmValid(ppm)
    ensures TargetRatio(ppm) * (1.0 + ppm / 1000000.0) == 1.0 && 1.0 / TargetRatio(ppm) == 1.0 + ppm / 1000000.0
  {
    var speed := 1.0 + ppm / 1000000.0;
    assert 0.9995 <= speed <= 1.0005;
    Reciprocal(TargetRatio(ppm), speed);
  }

  lemma Reciprocal(ratio: real, speed: real)
    requires speed > 0.0 && ratio == 1.0 / speed
    ensures ratio * speed == 1.0 && ratio > 0.0 && 1.0 / ratio == speed
  {
  }

  /** Every interpolated ratio lies between the old ratio and the commanded one. */
  lemma ReachedBetween(ratio: real, target: real, i: nat)
    requires i <= QUANTUM
    ensures ratio <= target ==> ratio <= Reached(ratio, target, i) <= target
    ensures target <= ratio ==> target <= Reached(ratio, target, i) <= ratio
  {
    var t := i as real / 480.0;
    assert 0.0 <= t <= 1.0;
    var moved := ScaledBetween(target - ratio, t);
    var reached := if Abs(target - ratio) > DEADBAND then ratio + moved else ratio;
    assert reached == Reached(ratio, target, i);
    hide Reached;
  }

  lemma ScaledBetween(d: real, t: real) returns (part: real)
    requires 0.0 <= t <= 1.0
    ensures part == d * t && (d >= 0.0 ==> 0.0 <= part <= d) && (d <= 0.0 ==> d <= part <= 0.0)
  {
    part := d * t;
    var size := Abs(d);
    NonNegativeProduct(size, t);
    NonNegativeProduct(size, 1.0 - t);
    assert size * (1.0 - t) == size - size * t;
    assert (-d) * t == -part;
  }

  lemma ReachedInRange(ratio: real, target: real, i: nat)
    requires RatioInRange(ratio) && RatioInRange(target) && i <= QUANTUM
    ensures RatioInRange(Reached(ratio, target, i))
  {
    ReachedBetween(ratio, target, i);
  }

  /** One step moves the source by the reciprocal ratio: one frame, give or take 500 ppm. */
  lemma StepValue(p: Position, ratio: real)
    requires RatioInRange(ratio) && 0.0 <= p.fraction < 1.0
    ensures var s := StepPosition(p, ratio);
            && 0.0 <= s.fraction < 1.0
            && Value(s) == Value(p) + 1.0 / ratio
            && 0.9995 <= Value(s) - Value(p) <= 1.0005
  {
    var inverse := 1.0 / ratio;
    assert inverse * ratio == 1.0;
    assert 0.9995 <= inverse <= 1.0005;
  }

  lemma CursorStart(start: Position, ratio: real, target: real)
    requires RatioInRange(ratio) && RatioInRange(target) && 0.0 <= start.fraction < 1.0
    ensures Cursor(start, ratio, target, 0) == start
  {
  }

  lemma CursorStep(start: Position, ratio: real, target: real, i: nat)
    requires RatioInRange(ratio) && RatioInRange(target) && i < QUANTUM && 0.0 <= start.fraction < 1.0
    ensures Reached(ratio, target, i) > 0.0
    ensures Cursor(start, ratio, target, i + 1) == StepPosition(Cursor(start, ratio, target, i), Reached(ratio, target, i))
  {
    ReachedInRange(ratio, target, i);
  }

  /** Within a quantum, positions are spaced by one frame give or take 500 ppm. */
  lemma {:induction false} CursorSpacing(start: Position, ratio: real, target: real, i: nat, j: nat)
    requires RatioInRange(ratio) && RatioInRange(target) && i <= j <= QUANTUM
    requires 0.0 <= start.fraction < 1.0
    ensures var a := Cursor(start, ratio, target, i); var b := Cursor(start, ratio, target, j);
            && 0.9995 * (j - i) as real <= Value(b) - Value(a) <= 1.0005 * (j - i) as real
            && a.whole <= b.whole
    decreases j - i
  {
    if i < j {
      CursorSpacing(start, ratio, target, i, j - 1);
      ReachedInRange(ratio, target, j - 1);
      StepValue(Cursor(start, ratio, target, j - 1), Reached(ratio, target, j - 1));
    }
  }

  /** A quantum that ends inside 64 bits has all its positions inside 64 bits, in strict order. */
  lemma PositionsIncrease(m: Model, ppm: real)
    requires ValidModel(m) && Advance(m, ppm).Some?
    ensures var ps := Positions(m, ppm); var end := Advance(m, ppm).value.next;
            && ps[0] == m.next
            && (forall i :: 0 <= i < QUANTUM ==> ValidPosition(ps[i]) && Less(ps[i], end))
            && (forall i, j :: 0 <= i < j < QUANTUM ==> Less(ps[i], ps[j]))
            && ValidPosition(end)
  {
    var ps, end := Positions(m, ppm), Advance(m, ppm).value.next;
    TargetInRange(ppm);
    var target := TargetRatio(ppm);
    forall i, j | 0 <= i <= j <= QUANTUM
      ensures ValidPosition(Cursor(m.next, m.ratio, target, i))
      ensures i < j ==> Less(Cursor(m.next, m.ratio, target, i), Cursor(m.next, m.ratio, target, j))
    {
      CursorSpacing(m.next, m.ratio, target, i, j);
      CursorSpacing(m.next, m.ratio, target, i, QUANTUM);
      CursorSpacing(m.next, m.ratio, target, j, QUANTUM);
      LessIsNumeric(Cursor(m.next, m.ratio, target, i), Cursor(m.next, m.ratio, target, j));
    }
  }

  /** A successful advance keeps the model valid and never moves the source backwards. */
  lemma AdvanceKeepsValid(m: Model, ppm: real)
    requires ValidModel(m) && Advance(m, ppm).Some?
    ensures var n := Advance(m, ppm).value;
            && ValidModel(n)
            && Less(m.next, n.next)
            && n.frames == m.frames + QUANTUM
            && 0.9995 * QUANTUM as real <= Value(n.next) - Value(m.next) <= 1.0005 * QUANTUM as real
            && (m.ratio <= TargetRatio(ppm) ==> m.ratio <= n.ratio <= TargetRatio(ppm))
            && (TargetRatio(ppm) <= m.ratio ==> TargetRatio(ppm) <= n.ratio <= m.ratio)
    ensures TargetRatio(ppm) * (1.0 + ppm / 1000000.0) == 1.0
  {
    PositionsIncrease(m, ppm);
    TargetInRange(ppm);
    TargetIsReciprocal(ppm);
    ReachedInRange(m.ratio, TargetRatio(ppm), QUANTUM - 1);
    ReachedBetween(m.ratio, TargetRatio(ppm), QUANTUM - 1);
    CursorSpacing(m.next, m.ratio, TargetRatio(ppm), 0, QUANTUM);
  }

  // ---- whole runs ------------------------------------------------------------------------

  /** Any sequence of commands; a refused command leaves the model as it was. */
  function RunModel(m: Model, commands: seq<real>): Model
    requires ValidModel(m)
    decreases |commands|
  {
    if commands == [] then m
    else
      var next := Advance(m, commands[0]);
      if next.Some? then
        AdvanceKeepsValid(m, commands[0]);
        RunModel(next.value, commands[1..])
      else RunModel(m, commands[1..])
  }

  /**
   * Drift bound over whole runs: after any commands, accepted or refused, the source has moved by
   * the output frames produced, within 500 parts per million of them.
   */
  lemma {:induction false} DriftBounded(m: Model, commands: seq<real>)
    requires ValidModel(m) && m.initialized
    ensures var n := RunModel(m, commands);
            && ValidModel(n) && n.initialized && n.frames >= m.frames
            && Abs(Value(n.next) - Value(m.next) - (n.frames - m.frames) as real)
               <= 0.0005 * (n.frames - m.frames) as real
    decreases |commands|
  {
    if commands != [] {
      var next := Advance(m, commands[0]);
      if next.Some? {
        AdvanceKeepsValid(m, commands[0]);
        DriftBounded(next.value, commands[1..]);
      } else {
        DriftBounded(m, commands[1..]);
      }
    }
  }

  /** x multiplied by 480, k times. */
  function Grown(k: nat, x: real): real {
    if k == 0 then x else 480.0 * Grown(k - 1, x)
  }

  function Constant(ppm: real, k: nat): seq<real> {
    seq(k, i => ppm)
  }

  function Lag(m: Model, ppm: real): real
    requires PpmValid(ppm)
  {
    TargetRatio(ppm) - m.ratio
  }

  /** The last interpolated ratio of a quantum stops a 480th of the way short of the command. */
  lemma EndpointLag(ratio: real, target: real)
    ensures target - ratio == if Abs(target - ratio) > DEADBAND
                              then 480.0 * (target - Reached(ratio, target, 479))
                              else target - Reached(ratio, target, 479)
  {
    var d := target - ratio;
    var t := 479 as real / 480.0;
    assert 480.0 * t == 479.0;
    assert 480.0 * (d - d * t) == d * (480.0 - 480.0 * t);
  }

  lemma OneCallLag(m: Model, ppm: real)
    requires ValidModel(m) && Advance(m, ppm).Some?
    ensures var n := Advance(m, ppm).value;
            Lag(m, ppm) == if Abs(Lag(m, ppm)) > DEADBAND then 480.0 * Lag(n, ppm) else Lag(n, ppm)
  {
    EndpointLag(m.ratio, TargetRatio(ppm));
  }

  lemma FirstConstantCall(m: Model, ppm: real, k: nat)
    requires ValidModel(m) && PpmValid(ppm) && k > 0
    requires RunModel(m, Constant(ppm, k)).frames == m.frames + QUANTUM * k
    ensures Advance(m, ppm).Some?
    ensures var n := Advance(m, ppm).value;
            && ValidModel(n) && n.frames == m.frames + QUANTUM
            && RunModel(m, Constant(ppm, k)) == RunModel(n, Constant(ppm, k - 1))
  {
    assert Constant(ppm, k)[1..] == Constant(ppm, k - 1);
    FramesBounded(m, Constant(ppm, k - 1));
    if Advance(m, ppm).Some? {
      AdvanceKeepsValid(m, ppm);
    }
  }

  /** `before` has been divided by 480 up to k times, giving `last`; fewer only inside the deadband. */
  ghost predicate LagDivided(before: real, last: real, k: nat) {
    exists j: nat :: j <= k && before == Grown(j, last) && (j < k ==> Abs(last) <= DEADBAND)
  }

  /** What a model lags behind is the ratio of a source that is ppm fast. */
  lemma Heading(m: Model, ppm: real)
    requires PpmValid(ppm)
    ensures (m.ratio + Lag(m, ppm)) * (1.0 + ppm / 1000000.0) == 1.0
  {
    TargetIsReciprocal(ppm);
  }

  /**
   * Under a constant command every accepted quantum divides the lag by 480 until it enters the
   * deadband, where the ratio then stays for good.
   */
  lemma {:induction false} LagAfter(m: Model, ppm: real, k: nat)
    requires ValidModel(m) && PpmValid(ppm)
    requires RunModel(m, Constant(ppm, k)).frames == m.frames + QUANTUM * k
    ensures LagDivided(Lag(m, ppm), Lag(RunModel(m, Constant(ppm, k)), ppm), k)
    ensures (m.ratio + Lag(m, ppm)) * (1.0 + ppm / 1000000.0) == 1.0
    decreases k
  {
    Heading(m, ppm);
    if k == 0 {
      NoDivision(Lag(m, ppm));
    } else {
      FirstConstantCall(m, ppm, k);
      var next := Advance(m, ppm).value;
      LagAfter(next, ppm, k - 1);
      OneCallLag(m, ppm);
      LagStep(Lag(m, ppm), Lag(next, ppm), Lag(RunModel(m, Constant(ppm, k)), ppm), k);
    }
  }

  lemma NoDivision(x: real)
    ensures LagDivided(x, x, 0)
  {
    assert x == Grown(0, x);
  }

  /** Adding one call in front of k - 1 others. */
  lemma LagStep(before: real, after: real, last: real, k: nat)
    requires k > 0
    requires before == if Abs(before) > DEADBAND then 480.0 * after else after
    requires LagDivided(after, last, k - 1)
    ensures LagDivided(before, last, k)
  {
    var j: nat :| j <= k - 1 && after == Grown(j, last) && (j < k - 1 ==> Abs(last) <= DEADBAND);
    if Abs(before) > DEADBAND {
      assert before == Grown(j + 1, last);
    } else {
      GrownIsLarger(j, last);
      assert before == Grown(j, last);
    }
  }

  lemma {:induction false} FramesBounded(m: Model, commands: seq<real>)
    requires ValidModel(m)
    ensures m.frames <= RunModel(m, commands).frames <= m.frames + QUANTUM * |commands|
    decreases |commands|
  {
    if commands != [] {
      var next := Advance(m, commands[0]);
      if next.Some? {
        AdvanceKeepsValid(m, commands[0]);
        FramesBounded(next.value, commands[1..]);
      } else {
        FramesBounded(m, commands[1..]);
      }
    }
  }

  lemma {:induction false} GrownIsLarger(j: nat, x: real)
    ensures Abs(x) <= Abs(Grown(j, x))
  {
    if j > 0 {
      GrownIsLarger(j - 1, x);
    }
  }

  // ---- where the source is -----------------------------------------------------------------

  /** With 64 bits left ahead, a quantum is refused exactly before a reset, beyond 500 ppm, or past a day of output. */
  lemma AdvanceRefused(m: Model, ppm: real)
    requires ValidModel(m) && m.next.whole + 482 <= U64_MAX
    ensures Advance(m, ppm).None? <==> !m.initialized || ppm < -500.0 || ppm > 500.0 || m.frames + 480 > 48_000 * 86_400
  {
    if AdvanceAllowed(m, ppm) {
      TargetInRange(ppm);
      CursorSpacing(m.next, m.ratio, TargetRatio(ppm), 0, QUANTUM);
    }
  }

  /** One output frame at so many outputs per input takes the source from a to b. */
  predicate Moves(a: real, b: real, ratio: real) {
    (b - a) * ratio == 1.0
  }

  lemma MovesBy(a: real, inverse: real, ratio: real)
    requires inverse * ratio == 1.0
    ensures Moves(a, a + inverse, ratio)
  {
  }

  /**
   * From sample i of a quantum to the next the source moves by the reciprocal of the ratio there, which
   * goes from the old one towards that of a source ppm fast in equal parts of a 480th.
   */
  lemma SampleStep(m: Model, ppm: real, target: real, i: nat)
    requires ValidModel(m) && Advance(m, ppm).Some? && i < QUANTUM && target * (1.0 + ppm / 1000000.0) == 1.0
    ensures var a := Positions(m, ppm)[i];
            var b := if i + 1 < QUANTUM then Positions(m, ppm)[i + 1] else Advance(m, ppm).value.next;
            var part := (target - m.ratio) * (i as real / 480.0);
            Moves(Value(a), Value(b), if Abs(target - m.ratio) > 0.0000000001 then m.ratio + part else m.ratio)
  {
    hide Value, Moves, Cursor;
    SameRatio(target, ppm);
    PositionAt(m, ppm, i);
    CursorMove(m.next, m.ratio, target, i);
    ReachedPart(m.ratio, target, i);
    var a := Positions(m, ppm)[i];
    var b := if i + 1 < QUANTUM then Positions(m, ppm)[i + 1] else Advance(m, ppm).value.next;
    var part := (target - m.ratio) * (i as real / 480.0);
    hide Reached, TargetRatio, RatioInRange, Abs, Positions, Advance;
    assert a == Cursor(m.next, m.ratio, target, i) && b == Cursor(m.next, m.ratio, target, i + 1);
    var here := if Abs(target - m.ratio) > 0.0000000001 then m.ratio + part else m.ratio;
    assert here == Reached(m.ratio, target, i);
    assert Moves(Value(a), Value(b), here);
  }

  lemma ReachedPart(ratio: real, target: real, i: nat)
    ensures var part := (target - ratio) * (i as real / 480.0);
            Reached(ratio, target, i) == if Abs(target - ratio) > 0.0000000001 then ratio + part else ratio
  {
  }

  lemma PositionAt(m: Model, ppm: real, i: nat)
    requires ValidModel(m) && Advance(m, ppm).Some? && i < QUANTUM
    ensures RatioInRange(TargetRatio(ppm)) && Positions(m, ppm)[i] == Cursor(m.next, m.ratio, TargetRatio(ppm), i)
    ensures (if i + 1 < QUANTUM then Positions(m, ppm)[i + 1] else Advance(m, ppm).value.next)
            == Cursor(m.next, m.ratio, TargetRatio(ppm), i + 1)
  {
    TargetInRange(ppm);
    hide TargetRatio, Cursor;
  }

  lemma CursorMove(start: Position, ratio: real, target: real, i: nat)
    requires RatioInRange(ratio) && RatioInRange(target) && i < QUANTUM && 0.0 <= start.fraction < 1.0
    ensures Moves(Value(Cursor(start, ratio, target, i)), Value(Cursor(start, ratio, target, i + 1)), Reached(ratio, target, i))
  {
    hide Reached, Moves, Cursor, Value, RatioInRange;
    ReachedInRange(ratio, target, i);
    CursorStep(start, ratio, target, i);
    StepMove(Cursor(start, ratio, target, i), Reached(ratio, target, i));
  }

  lemma StepMove(p: Position, ratio: real)
    requires RatioInRange(ratio) && 0.0 <= p.fraction < 1.0
    ensures Moves(Value(p), Value(StepPosition(p, ratio)), ratio)
  {
    StepValue(p, ratio);
    InverseOf(ratio);
    hide StepPosition, RatioInRange, Value;
    MovesBy(Value(p), 1.0 / ratio, ratio);
  }

  lemma InverseOf(x: real)
    requires x > 0.0
    ensures 1.0 / x * x == 1.0
  {
  }

  lemma {:induction false} SteadyCursor(start: Position, ratio: real, step: real, i: nat)
    requires RatioInRange(ratio) && i <= QUANTUM && 0.0 <= start.fraction < 1.0 && step == 1.0 / ratio
    ensures Value(Cursor(start, ratio, ratio, i)) == Value(start) + i as real * step
    decreases i
  {
    hide RatioInRange, StepPosition, Value;
    if i > 0 {
      SteadyCursor(start, ratio, step, i - 1);
      SteadyReached(ratio, i - 1);
      StepValue(Cursor(start, ratio, ratio, i - 1), ratio);
      OneMore(Value(start), step, i);
    }
  }

  lemma SteadyReached(ratio: real, i: nat)
    ensures Reached(ratio, ratio, i) == ratio
  {
  }

  lemma OneMore(x: real, step: real, i: nat)
    requires i > 0
    ensures x + (i - 1) as real * step + step == x + i as real * step
  {
    assert i as real == (i - 1) as real + 1.0;
  }

  /** A quantum at the rate already in force moves the source by 480 frames of a source that fast. */
  lemma SteadyQuantum(m: Model, ppm: real)
    requires ValidModel(m) && Advance(m, ppm).Some? && m.ratio == TargetRatio(ppm)
    ensures var n := Advance(m, ppm).value;
            n.ratio == m.ratio && Value(n.next) == Value(m.next) + 480.0 * (1.0 + ppm / 1000000.0)
  {
    TargetInRange(ppm);
    TargetIsReciprocal(ppm);
    SteadyCursor(m.next, m.ratio, 1.0 + ppm / 1000000.0, QUANTUM);
    SteadyReached(m.ratio, QUANTUM - 1);
  }

  lemma {:induction false} SteadySource(m: Model, ppm: real, step: real, k: nat)
    requires ValidModel(m) && PpmValid(ppm) && m.ratio == TargetRatio(ppm) && step == 480.0 * (1.0 + ppm / 1000000.0)
    requires RunModel(m, Constant(ppm, k)).frames == m.frames + QUANTUM * k
    ensures var n := RunModel(m, Constant(ppm, k));
            n.ratio == m.ratio && Value(n.next) == Value(m.next) + k as real * step
    decreases k
  {
    hide TargetRatio, Value;
    if k > 0 {
      FirstConstantCall(m, ppm, k);
      SteadyQuantum(m, ppm);
      SteadySource(Advance(m, ppm).value, ppm, step, k - 1);
      OneMore(Value(m.next), step, k);
    }
  }

  lemma SameRatio(ratio: real, ppm: real)
    requires PpmValid(ppm) && ratio * (1.0 + ppm / 1000000.0) == 1.0
    ensures ratio == TargetRatio(ppm)
  {
    var speed := 1.0 + ppm / 1000000.0;
    assert 0.9995 <= speed <= 1.0005;
    assert ratio == (ratio * speed) / speed;
  }

  lemma ResetStarts(m: Model, origin: u64, ppm: real)
    ensures ResetModel(m, origin, ppm).0 <==> -500.0 <= ppm <= 500.0
    ensures var (ok, started) := ResetModel(m, origin, ppm);
            if ok then ValidModel(started) && Value(started.next) == origin as real && started.frames == 0
                       && PpmValid(ppm) && started.ratio == TargetRatio(ppm)
            else started == m
  {
    if PpmValid(ppm) {
      TargetInRange(ppm);
    }
    hide TargetRatio, RatioInRange;
  }

  /**
   * The source's place: a model reset at an origin for a source running ppm fast has, after any number
   * of quanta at that rate, advanced by exactly 480 * (1 + ppm / 1e6) frames for each.
   */
  lemma SourceAfter(m: Model, origin: u64, ppm: real, step: real, k: nat)
    requires ValidModel(m) && step == 480.0 * (1.0 + ppm / 1000000.0)
    ensures ResetModel(m, origin, ppm).0 <==> -500.0 <= ppm <= 500.0
    ensures var (ok, started) := ResetModel(m, origin, ppm);
            if !ok then started == m
            else
              && ValidModel(started)
              && var n := RunModel(started, Constant(ppm, k));
                 n.frames <= 480 * k && (n.frames == 480 * k ==> Value(n.next) == origin as real + k as real * step)
  {
    ResetStarts(m, origin, ppm);
    hide TargetRatio, RatioInRange, RunModel, ResetModel, PpmValid, Value, ValidModel;
    var (ok, started) := ResetModel(m, origin, ppm);
    if ok {
      FramesBounded(started, Constant(ppm, k));
      if RunModel(started, Constant(ppm, k)).frames == 480 * k {
        SteadySource(started, ppm, step, k);
      }
    }
  }

  // ---- the object ------------------------------------------------------------------------

  class SincPhaseModel {
    var next: Position
    var ratio: real
    var frames: nat
    var initialized: bool

    function State(): Model
      reads this
    {
      Model(next, ratio, frames, initialized)
    }

    constructor ()
      ensures State() == BLANK
    {
      next, ratio, frames, initialized := Position(0, 0.0), 1.0, 0, false;
    }

    /** Value assignment between models, as the worker commits a prediction. */
    method Assign(m: Model)
      modifies this
      ensures State() == m
    {
      next, ratio, frames, initialized := m.next, m.ratio, m.frames, m.initialized;
    }

    method Reset(origin: u64, ppm: real) returns (ok: bool)
      modifies this
      ensures (ok, State()) == ResetModel(old(State()), origin, ppm)
      ensures ok ==> ratio * (1.0 + ppm / 1000000.0) == 1.0
    {
      if !PpmValid(ppm) {
        return false;
      }
      TargetIsReciprocal(ppm);
      next := Position(origin, 0.0);
      ratio := 1.0 / (1.0 + ppm / 1000000.0);
      frames := 0;
      initialized := true;
      return true;
    }

    /** Transactional: a refused call leaves the model unchanged; the output buffer is scratch. */
    method AdvanceInto(ppm: real, positions: array<Position>) returns (ok: bool)
      requires ValidModel(State()) && positions.Length == QUANTUM
      modifies this, positions
      ensures ok <==> Advance(old(State()), ppm).Some?
      ensures State() == if ok then Advance(old(State()), ppm).value else old(State())
      ensures ok ==> positions[..] == Positions(old(State()), ppm)
      ensures ok && old(ratio) * (1.0 + ppm / 1000000.0) == 1.0 ==>
        ratio == old(ratio) && Value(next) == Value(old(next)) + 480.0 * (1.0 + ppm / 1000000.0)
    {
      if !initialized || !PpmValid(ppm) || frames > MAXIMUM_FRAMES - QUANTUM {
        return false;
      }
      TargetInRange(ppm);
      var target := 1.0 / (1.0 + ppm / 1000000.0);
      var inside, cursor, reached := Fill(next, ratio, target, positions);
      if !inside {
        return false;
      }
      if ratio * (1.0 + ppm / 1000000.0) == 1.0 {
        SameRatio(ratio, ppm);
        SteadyQuantum(State(), ppm);
      }
      next, ratio, frames := cursor, reached, frames + QUANTUM;
      return true;
    }

    /** The sample loop: positions as the library steps them, stopping at the 64-bit edge. */
    method Fill(start: Position, ratio: real, target: real, positions: array<Position>)
      returns (inside: bool, cursor: Position, reached: real)
      requires ValidPosition(start) && RatioInRange(ratio) && RatioInRange(target)
      requires positions.Length == QUANTUM
      modifies positions
      ensures inside <==> Cursor(start, ratio, target, QUANTUM).whole <= U64_MAX
      ensures inside ==> cursor == Cursor(start, ratio, target, QUANTUM)
                         && reached == Reached(ratio, target, QUANTUM - 1)
                         && forall k :: 0 <= k < QUANTUM ==> positions[k] == Cursor(start, ratio, target, k)
    {
      hide Cursor, StepPosition, Reached, RatioInRange;
      cursor, reached := start, ratio;
      CursorStart(start, ratio, target);
      for i := 0 to QUANTUM
        invariant cursor == Cursor(start, ratio, target, i) && cursor.whole <= U64_MAX
        invariant i > 0 ==> reached == Reached(ratio, target, i - 1)
        invariant forall k :: 0 <= k < i ==> positions[k] == Cursor(start, ratio, target, k)
      {
        positions[i] := cursor;
        reached := Reached(ratio, target, i);
        CursorStep(start, ratio, target, i);
        var stepped := StepPosition(cursor, reached);
        if stepped.whole > U64_MAX {
          CursorSpacing(start, ratio, target, i + 1, QUANTUM);
          return false, cursor, reached;
        }
        cursor := stepped;
      }
      return true, cursor, reached;
    }
  }
}
