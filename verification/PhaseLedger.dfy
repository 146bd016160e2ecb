// The interpolation ledger of original capture anchors that gates every output quantum
// (src/core/audio_phase.cpp, AudioPhaseLedger).
module PhaseLedger {
  import opened Timing
  import opened PhaseModel
  import opened Ring

  const CAPACITY: nat := 512
  const MAXIMUM_ANCHOR_GAP_NS: int := 100_000_000
  const PHASE_LIMIT_NS: int := 10_000_000

  datatype Anchor = Anchor(source: Position, time: int)

  datatype PhaseStatus = Ready | Waiting | Invalid | Capacity | Gap | Mismatch

  predicate AtOrBefore(a: Position, b: Position) {
    !Less(b, a)
  }

  predicate ValidAnchor(a: Anchor) {
    ValidPosition(a.source) && 0 <= a.time <= I64_MAX
  }

  /** Anchors strictly increase in source and time, with gaps of at most 100 ms. */
  ghost predicate Ordered(s: seq<Anchor>) {
    && (forall i :: 0 <= i < |s| ==> ValidAnchor(s[i]))
    && (forall i, j :: 0 <= i < j < |s| ==> Less(s[i].source, s[j].source) && s[i].time < s[j].time)
    && (forall i, j :: 0 <= i && j == i + 1 && j < |s| ==> s[j].time - s[i].time <= MAXIMUM_ANCHOR_GAP_NS)
  }

  lemma OrderedSlice(s: seq<Anchor>, lo: nat, hi: nat)
    requires Ordered(s) && lo <= hi <= |s|
    ensures Ordered(s[lo..hi])
  {
  }

  // ---- interpolation ---------------------------------------------------------------------

  /** The capture time a straight line between two anchors gives to p, rounded down. */
  function Between(a: Anchor, b: Anchor, p: Position): int
    requires ValidAnchor(a) && ValidAnchor(b) && ValidPosition(p) && Less(a.source, b.source)
  {
    LessIsNumeric(a.source, b.source);
    a.time + Share(Value(p) - Value(a.source), Value(b.source) - Value(a.source), b.time - a.time)
  }

  /** The time the anchors give to position p, found by walking them in order. */
  ghost function TimeAt(s: seq<Anchor>, p: Position): Option<int>
    requires Ordered(s)
  {
    if !ValidPosition(p) || s == [] || Less(p, s[0].source) then None
    else if |s| == 1 then if p == s[0].source then Some(s[0].time) else None
    else if Less(p, s[1].source) then Some(Between(s[0], s[1], p))
    else TimeAt(s[1..], p)
  }

  ghost predicate Bracketed(s: seq<Anchor>, p: Position) {
    ValidPosition(p) && s != [] && AtOrBefore(s[0].source, p) && AtOrBefore(p, s[|s| - 1].source)
  }

  lemma PositiveProduct(a: real, b: real)
    requires a > 0.0 && b > 0.0
    ensures a * b > 0.0
  {
  }

  /** x / total of a span. */
  function Portion(x: real, total: real, span: real): real
    requires total > 0.0
  {
    x / total * span
  }

  lemma PortionOrder(x: real, y: real, total: real, span: real)
    requires 0.0 <= x <= y < total && span > 0.0
    ensures 0.0 <= Portion(x, total, span) <= Portion(y, total, span) < span
    ensures x == 0.0 ==> Portion(x, total, span) == 0.0
  {
    var u, v := x / total, y / total;
    assert u * total == x && v * total == y;
    DivideOrder(0.0, x, total);
    DivideOrder(x, y, total);
    DivideBelowOne(y, total);
    NonNegativeProduct(u, span);
    NonNegativeProduct(v - u, span);
    PositiveProduct(1.0 - v, span);
    assert (v - u) * span == v * span - u * span;
    assert (1.0 - v) * span == span - v * span;
  }

  lemma DivideOrder(x: real, y: real, total: real)
    requires x <= y && total > 0.0
    ensures x / total <= y / total
  {
  }

  lemma DivideBelowOne(y: real, total: real)
    requires y < total && total > 0.0
    ensures y / total < 1.0
  {
  }

  /** The whole part of x / total of a span. */
  function Share(x: real, total: real, span: int): int
    requires total > 0.0
  {
    Portion(x, total, span as real).Floor
  }

  lemma ShareOrder(x: real, y: real, total: real, span: int)
    requires 0.0 <= x <= y < total && span > 0
    ensures 0 <= Share(x, total, span) <= Share(y, total, span) < span
    ensures x == 0.0 ==> Share(x, total, span) == 0
  {
    hide Portion;
    PortionOrder(x, y, total, span as real);
  }

  /** Interpolation stays inside its segment and never decreases along it. */
  lemma BetweenOrder(a: Anchor, b: Anchor, p: Position, q: Position)
    requires ValidAnchor(a) && ValidAnchor(b) && ValidPosition(p) && ValidPosition(q)
    requires Less(a.source, b.source) && a.time < b.time
    requires AtOrBefore(a.source, p) && AtOrBefore(p, q) && Less(q, b.source)
    ensures a.time <= Between(a, b, p) <= Between(a, b, q) < b.time
    ensures p == a.source ==> Between(a, b, p) == a.time
  {
    LessIsNumeric(a.source, b.source);
    LessIsNumeric(p, a.source);
    LessIsNumeric(q, p);
    LessIsNumeric(q, b.source);
    var x, y := Value(p) - Value(a.source), Value(q) - Value(a.source);
    ShareOrder(x, y, Value(b.source) - Value(a.source), b.time - a.time);
  }

  /** The program's interpolation between two neighbours, with all the tests it makes on the way. */
  function Interpolate(a: Anchor, b: Anchor, p: Position): Option<Nanoseconds>
    requires ValidAnchor(a) && ValidAnchor(b)
  {
    var total, elapsed := Distance(b.source, a.source), Distance(p, a.source);
    var span := CheckedSub(b.time, a.time);
    if span.None? || total <= 0.0 || elapsed < 0.0 || elapsed > total then None
    else
      var ns := Share(elapsed, total, span.value);
      if ns < 0 || ns > span.value then None else CheckedAdd(a.time, ns)
  }

  /** Between ordered neighbours none of those tests can fail. */
  lemma InterpolateSucceeds(a: Anchor, b: Anchor, p: Position)
    requires ValidAnchor(a) && ValidAnchor(b) && ValidPosition(p)
    requires Less(a.source, b.source) && a.time < b.time
    requires AtOrBefore(a.source, p) && Less(p, b.source)
    ensures Interpolate(a, b, p) == Some(Between(a, b, p))
  {
    LessIsNumeric(a.source, b.source);
    LessIsNumeric(p, a.source);
    LessIsNumeric(p, b.source);
    BetweenOrder(a, b, p, p);
  }

  /** A time exists exactly for the bracketed positions. */
  lemma {:induction false} TimeAtDefined(s: seq<Anchor>, p: Position)
    requires Ordered(s)
    ensures TimeAt(s, p).Some? <==> Bracketed(s, p)
    decreases |s|
  {
    if ValidPosition(p) && s != [] {
      LessIsNumeric(p, s[0].source);
      LessIsNumeric(s[|s| - 1].source, p);
      if |s| > 1 {
        LessIsNumeric(p, s[1].source);
        LessIsNumeric(s[0].source, s[1].source);
        LessIsNumeric(s[1].source, s[|s| - 1].source);
        OrderedSlice(s, 1, |s|);
        TimeAtDefined(s[1..], p);
      }
    }
  }

  /** Whatever anchors p lies between, the walk interpolates between exactly those two. */
  lemma {:induction false} TimeAtNeighbours(s: seq<Anchor>, p: Position, i: nat)
    requires Ordered(s) && ValidPosition(p) && i < |s| && AtOrBefore(s[i].source, p)
    requires i + 1 < |s| ==> Less(p, s[i + 1].source)
    requires i + 1 == |s| ==> p == s[i].source
    ensures TimeAt(s, p) == Some(if i + 1 < |s| then Between(s[i], s[i + 1], p) else s[i].time)
    decreases i
  {
    LessIsNumeric(p, s[i].source);
    LessIsNumeric(p, s[0].source);
    if i > 0 {
      LessIsNumeric(s[0].source, s[i].source);
      LessIsNumeric(p, s[1].source);
      LessIsNumeric(s[1].source, s[i].source);
      OrderedSlice(s, 1, |s|);
      TimeAtNeighbours(s[1..], p, i - 1);
    }
  }

  /** Anchors before the one at or before p never matter. */
  lemma {:induction false} SuffixDecides(s: seq<Anchor>, k: nat, p: Position)
    requires Ordered(s) && k < |s| && ValidPosition(p) && AtOrBefore(s[k].source, p)
    ensures Ordered(s[k..]) && TimeAt(s, p) == TimeAt(s[k..], p)
    decreases k
  {
    OrderedSlice(s, k, |s|);
    if k > 0 {
      OrderedSlice(s, 1, |s|);
      LessIsNumeric(p, s[k].source);
      LessIsNumeric(s[0].source, s[k].source);
      LessIsNumeric(p, s[0].source);
      LessIsNumeric(p, s[1].source);
      LessIsNumeric(s[1].source, s[k].source);
      assert s[1..][k - 1..] == s[k..];
      SuffixDecides(s[1..], k - 1, p);
    } else {
      assert s[0..] == s;
    }
  }

  /** A time once known is never revised by later anchors. */
  lemma {:induction false} ExtensionKeeps(s: seq<Anchor>, a: Anchor, p: Position)
    requires Ordered(s) && Ordered(s + [a]) && TimeAt(s, p).Some?
    ensures TimeAt(s + [a], p) == TimeAt(s, p)
    decreases |s|
  {
    var t := s + [a];
    assert t[0] == s[0];
    if |s| == 1 {
      assert t[1] == a && Less(s[0].source, a.source);
      BetweenOrder(s[0], a, p, p);
    } else {
      assert t[1] == s[1];
      if !Less(p, s[1].source) {
        OrderedSlice(s, 1, |s|);
        OrderedSlice(t, 1, |t|);
        assert t[1..] == s[1..] + [a];
        ExtensionKeeps(s[1..], a, p);
      }
    }
  }

  /** Interpolated time never decreases with source position. */
  lemma {:induction false} TimeAtMonotone(s: seq<Anchor>, p: Position, q: Position)
    requires Ordered(s) && TimeAt(s, p).Some? && TimeAt(s, q).Some? && AtOrBefore(p, q)
    ensures s[0].time <= TimeAt(s, p).value <= TimeAt(s, q).value <= s[|s| - 1].time
    decreases |s|
  {
    if |s| > 1 {
      LessIsNumeric(p, q);
      LessIsNumeric(q, s[1].source);
      LessIsNumeric(p, s[1].source);
      OrderedSlice(s, 1, |s|);
      if Less(q, s[1].source) {
        BetweenOrder(s[0], s[1], p, q);
      } else {
        if Less(p, s[1].source) {
          BetweenOrder(s[0], s[1], p, p);
          TimeAtMonotone(s[1..], q, q);
        } else {
          TimeAtMonotone(s[1..], p, q);
        }
      }
    }
  }

  lemma TimeInRange(s: seq<Anchor>, p: Position)
    requires Ordered(s) && TimeAt(s, p).Some?
    ensures 0 <= TimeAt(s, p).value <= I64_MAX
  {
    TimeAtDefined(s, p);
    TimeAtMonotone(s, p, p);
  }

  // ---- adding and evicting ---------------------------------------------------------------

  /** Drop anchors while the second one still covers everything not yet processed. */
  ghost function Evict(s: seq<Anchor>, retain: Position): seq<Anchor> {
    if |s| >= 2 && AtOrBefore(s[1].source, retain) then Evict(s[1..], retain) else s
  }

  /** Eviction keeps a nonempty suffix, and the anchor at or before `retain` with it. */
  lemma {:induction false} EvictSuffix(s: seq<Anchor>, retain: Position)
    ensures var e := Evict(s, retain);
            && |e| <= |s| && e == s[|s| - |e|..] && (s != [] ==> e != [])
            && (s != [] && AtOrBefore(s[0].source, retain) ==> AtOrBefore(e[0].source, retain))
    decreases |s|
  {
    if |s| >= 2 && AtOrBefore(s[1].source, retain) {
      EvictSuffix(s[1..], retain);
      var e := Evict(s, retain);
      assert s[1..][|s| - 1 - |e|..] == s[|s| - |e|..];
    }
  }

  /** Eviction forgets no time at or after `retain`. */
  lemma {:induction false} EvictAgrees(s: seq<Anchor>, retain: Position, p: Position)
    requires Ordered(s) && ValidPosition(retain) && TimeAt(s, p).Some? && AtOrBefore(retain, p)
    ensures Ordered(Evict(s, retain)) && TimeAt(Evict(s, retain), p) == TimeAt(s, p)
    decreases |s|
  {
    if |s| >= 2 && AtOrBefore(s[1].source, retain) {
      OrderedSlice(s, 1, |s|);
      LessIsNumeric(p, retain);
      LessIsNumeric(retain, s[1].source);
      LessIsNumeric(p, s[1].source);
      EvictAgrees(s[1..], retain, p);
    }
  }

  function AddStatus(s: seq<Anchor>, position: Position, time: Nanoseconds, retain: Position): PhaseStatus {
    if !ValidPosition(position) || !ValidPosition(retain) || time < 0 then Invalid
    else if s != [] && (!Less(s[|s| - 1].source, position) || time <= s[|s| - 1].time) then Invalid
    else if s != [] && time - s[|s| - 1].time > MAXIMUM_ANCHOR_GAP_NS then Gap
    else Ready
  }

  /** The ledger after offering an anchor: refusals keep it, a full ledger has still been trimmed. */
  ghost function Added(s: seq<Anchor>, position: Position, time: Nanoseconds, retain: Position)
    : (r: (PhaseStatus, seq<Anchor>))
  {
    var status := AddStatus(s, position, time, retain);
    if status != Ready then (status, s)
    else if |Evict(s, retain)| == CAPACITY then (Capacity, Evict(s, retain))
    else (Ready, Evict(s, retain) + [Anchor(position, time)])
  }

  lemma AddKeepsOrder(s: seq<Anchor>, position: Position, time: Nanoseconds, retain: Position)
    requires Ordered(s) && AddStatus(s, position, time, retain) == Ready
    ensures Ordered(Evict(s, retain)) && Ordered(Evict(s, retain) + [Anchor(position, time)])
  {
    EvictSuffix(s, retain);
    var e := Evict(s, retain);
    OrderedSlice(s, |s| - |e|, |s|);
    if s != [] {
      assert e[|e| - 1] == s[|s| - 1];
      OrderedAppend(e, Anchor(position, time));
    }
  }

  /**
   * What becomes of an anchor: it is invalid if its numbers are, or if it does not lie strictly after the
   * newest one in position and in time; too far, if more than 100 ms after it; one too many, if 512 are left
   * after trimming; and otherwise the newest.
   */
  lemma AddDecides(s: seq<Anchor>, position: Position, time: Nanoseconds, retain: Position)
    requires Ordered(s)
    ensures var (status, t) := Added(s, position, time, retain); var n := |s|;
            var numbers := position.whole <= U64_MAX && 0.0 <= position.fraction < 1.0 && time >= 0
                           && retain.whole <= U64_MAX && 0.0 <= retain.fraction < 1.0;
            if !numbers || (n > 0 && (Value(position) <= Value(s[n - 1].source) || time <= s[n - 1].time)) then
              status == Invalid && t == s
            else if n > 0 && time - s[n - 1].time > 100_000_000 then status == Gap && t == s
            else
              (status == Ready || status == Capacity)
              && if |Evict(s, retain)| == 512 then status == Capacity && t == Evict(s, retain)
                 else status == Ready && t == Evict(s, retain) + [Anchor(position, time)]
  {
    hide Evict;
    if s != [] && ValidPosition(position) {
      LessIsNumeric(s[|s| - 1].source, position);
    }
    hide Value, Less;
  }

  /** What is held of the list `all` of every anchor ever accepted: a suffix, empty only with it. */
  ghost predicate Holds(all: seq<Anchor>, s: seq<Anchor>) {
    Ordered(all) && |s| <= |all| && s == all[|all| - |s|..] && (all != [] ==> s != [])
  }

  /** Accepting an anchor extends the whole list in order and keeps what is held a suffix of it. */
  lemma AddExtends(all: seq<Anchor>, s: seq<Anchor>, position: Position, time: Nanoseconds, retain: Position)
    requires Holds(all, s)
    requires Added(s, position, time, retain).0 == Ready
    ensures var all' := all + [Anchor(position, time)]; var s' := Added(s, position, time, retain).1;
            && Holds(all', s') && Ordered(s)
            && (s != [] && AtOrBefore(s[0].source, retain) ==> AtOrBefore(s'[0].source, retain))
  {
    hide Ordered, Evict;
    var a := Anchor(position, time);
    var e := Evict(s, retain);
    EvictSuffix(s, retain);
    HeldOrdered(all, s);
    if all == [] {
      OrderedSingle(a);
      assert all + [a] == [a];
    } else {
      AppendToAll(all, s, a);
    }
    assert e == all[|all| - |e|..];
    assert e + [a] == (all + [a])[|all| - |e|..];
  }

  lemma HeldOrdered(all: seq<Anchor>, held: seq<Anchor>)
    requires Holds(all, held)
    ensures Ordered(held)
  {
    OrderedSlice(all, |all| - |held|, |all|);
  }

  lemma OrderedSingle(a: Anchor)
    requires ValidAnchor(a)
    ensures Ordered([a])
  {
  }

  lemma AppendToAll(all: seq<Anchor>, s: seq<Anchor>, a: Anchor)
    requires Holds(all, s) && all != [] && ValidAnchor(a)
    requires Less(s[|s| - 1].source, a.source) && s[|s| - 1].time < a.time <= s[|s| - 1].time + MAXIMUM_ANCHOR_GAP_NS
    ensures Ordered(all + [a])
  {
    assert all[|all| - 1] == s[|s| - 1];
    OrderedAppend(all, a);
  }

  /**
   * The trimmed ledger answers for the whole list: adding changes no known time at or after
   * `retain`, neither of the ledger nor of the untrimmed list.
   */
  lemma AddRefines(all: seq<Anchor>, s: seq<Anchor>, position: Position, time: Nanoseconds, retain: Position, p: Position)
    requires Holds(all, s) && Ordered(s)
    requires Added(s, position, time, retain).0 == Ready
    requires TimeAt(s, p).Some? && AtOrBefore(retain, p)
    ensures var all' := all + [Anchor(position, time)]; var s' := Added(s, position, time, retain).1;
            && Ordered(all') && Ordered(s')
            && TimeAt(s', p) == TimeAt(s, p) == TimeAt(all, p) == TimeAt(all', p)
  {
    hide Ordered, TimeAt, Evict;
    var a := Anchor(position, time);
    var e := Evict(s, retain);
    AddExtends(all, s, position, time, retain);
    AddKeepsOrder(s, position, time, retain);
    TimeAtDefined(s, p);
    SuffixDecides(all, |all| - |s|, p);
    EvictAgrees(s, retain, p);
    ExtensionKeeps(e, a, p);
    ExtensionKeeps(all, a, p);
  }

  lemma OrderedAppend(s: seq<Anchor>, a: Anchor)
    requires Ordered(s) && s != [] && ValidAnchor(a)
    requires Less(s[|s| - 1].source, a.source) && s[|s| - 1].time < a.time
    requires a.time - s[|s| - 1].time <= MAXIMUM_ANCHOR_GAP_NS
    ensures Ordered(s + [a])
  {
    forall i | 0 <= i < |s|
      ensures Less(s[i].source, a.source) && s[i].time < a.time
    {
      if i < |s| - 1 {
        LessIsNumeric(s[i].source, s[|s| - 1].source);
        LessIsNumeric(s[|s| - 1].source, a.source);
        LessIsNumeric(s[i].source, a.source);
      }
    }
  }

  // ---- assessing a quantum ---------------------------------------------------------------

  datatype Assessment = Assessment(status: PhaseStatus, maximum: nat)

  function Magnitude(x: int): nat {
    if x < 0 then -x else x
  }

  /** Predicted source time minus output grid time, where both exist. */
  ghost function Phase(s: seq<Anchor>, p: Position, origin: Nanoseconds, frame: nat): Option<int>
    requires Ordered(s)
  {
    match (TimeAt(s, p), Grid48(origin, frame))
    case (Some(predicted), Some(expected)) => Some(predicted - expected)
    case _ => None
  }

  predicate WellPlaced(ps: seq<Position>, i: nat)
    requires i < |ps|
  {
    ValidPosition(ps[i]) && (i > 0 ==> Less(ps[i - 1], ps[i]))
  }

  /** The verdict on positions i.. given the worst phase seen before them. */
  ghost function AssessFrom(s: seq<Anchor>, ps: seq<Position>, origin: Nanoseconds, first: nat, i: nat, worst: nat): Assessment
    requires Ordered(s) && i <= |ps|
    decreases |ps| - i
  {
    if i == |ps| then Assessment(if worst > PHASE_LIMIT_NS then Mismatch else Ready, worst)
    else if !WellPlaced(ps, i) then Assessment(Invalid, 0)
    else if TimeAt(s, ps[i]).None? then Assessment(Waiting, 0)
    else
      var phase := Phase(s, ps[i], origin, first + i);
      if phase.None? then Assessment(Invalid, 0)
      else AssessFrom(s, ps, origin, first, i + 1, if Magnitude(phase.value) > worst then Magnitude(phase.value) else worst)
  }

  ghost function Assess(s: seq<Anchor>, ps: seq<Position>, origin: Nanoseconds, first: nat): Assessment
    requires Ordered(s)
  {
    if |ps| == 0 || |ps| > QUANTUM || origin < 0 || first > U64_MAX - |ps| then Assessment(Invalid, 0)
    else AssessFrom(s, ps, origin, first, 0, 0)
  }

  ghost predicate OnPhase(s: seq<Anchor>, p: Position, origin: Nanoseconds, frame: nat)
    requires Ordered(s)
  {
    var phase := Phase(s, p, origin, frame);
    phase.Some? && -PHASE_LIMIT_NS <= phase.value <= PHASE_LIMIT_NS
  }

  /** Ready means every single position is bracketed and within 10 ms, and nothing else does. */
  lemma {:induction false} ReadyMeansOnPhase(s: seq<Anchor>, ps: seq<Position>, origin: Nanoseconds, first: nat, i: nat, worst: nat)
    requires Ordered(s) && i <= |ps|
    ensures AssessFrom(s, ps, origin, first, i, worst).status == Ready <==>
            worst <= PHASE_LIMIT_NS &&
            forall k :: i <= k < |ps| ==> WellPlaced(ps, k) && OnPhase(s, ps[k], origin, first + k)
    decreases |ps| - i
  {
    if i < |ps| {
      var phase := Phase(s, ps[i], origin, first + i);
      if WellPlaced(ps, i) && phase.Some? {
        var m := Magnitude(phase.value);
        ReadyMeansOnPhase(s, ps, origin, first, i + 1, if m > worst then m else worst);
        assert m <= PHASE_LIMIT_NS <==> OnPhase(s, ps[i], origin, first + i);
      } else {
        assert !(WellPlaced(ps, i) && OnPhase(s, ps[i], origin, first + i));
      }
    }
  }

  /** Waiting for increasing positions that start inside the ledger: only the newest anchor is short. */
  lemma {:induction false} WaitingMeansBehind(s: seq<Anchor>, ps: seq<Position>, origin: Nanoseconds, first: nat,
                                              i: nat, worst: nat)
    requires Ordered(s) && s != [] && i < |ps|
    requires forall k :: 0 <= k < |ps| ==> ValidPosition(ps[k]) && AtOrBefore(s[0].source, ps[k])
    requires AssessFrom(s, ps, origin, first, i, worst).status == Waiting
    ensures exists k :: i <= k < |ps| && Less(s[|s| - 1].source, ps[k])
    decreases |ps| - i
  {
    if TimeAt(s, ps[i]).None? {
      TimeAtDefined(s, ps[i]);
    } else {
      var m := Magnitude(Phase(s, ps[i], origin, first + i).value);
      WaitingMeansBehind(s, ps, origin, first, i + 1, if m > worst then m else worst);
    }
  }

  // ---- the object ------------------------------------------------------------------------

  class AudioPhaseLedger {
    const anchors: Ring<Anchor>

    ghost function Anchors(): seq<Anchor>
      requires anchors.Valid()
      reads anchors, anchors.slots
    {
      anchors.Contents()
    }

    ghost predicate Valid()
      reads anchors, anchors.slots
    {
      anchors.Valid() && anchors.slots.Length == CAPACITY && Ordered(Anchors())
    }

    constructor ()
      ensures Valid() && Anchors() == [] && fresh(anchors) && fresh(anchors.slots)
    {
      anchors := new Ring(CAPACITY);
    }

    method Clear()
      requires Valid()
      modifies anchors
      ensures Valid() && Anchors() == []
    {
      anchors.Clear();
    }

    method Add(position: Position, time: Nanoseconds, retain: Position) returns (status: PhaseStatus)
      requires Valid()
      modifies anchors, anchors.slots
      ensures Valid()
      ensures (status, Anchors()) == Added(old(Anchors()), position, time, retain)
    {
      hide Evict, Ordered;
      status := Check(position, time, retain);
      if status != Ready {
        return;
      }
      ghost var before := Anchors();
      Trim(retain);
      if anchors.size == CAPACITY {
        return Capacity;
      }
      AddKeepsOrder(before, position, time, retain);
      anchors.PushBack(Anchor(position, time));
    }

    /** The tests made before the ring is touched. */
    method Check(position: Position, time: Nanoseconds, retain: Position) returns (status: PhaseStatus)
      requires Valid()
      ensures status == AddStatus(Anchors(), position, time, retain)
    {
      if !ValidPosition(position) || !ValidPosition(retain) || time < 0 {
        return Invalid;
      }
      if anchors.size > 0 {
        var previous := anchors.Get(anchors.size - 1);
        if !Less(previous.source, position) || time <= previous.time {
          return Invalid;
        }
        var gap := CheckedSub(time, previous.time);
        if gap.None? || gap.value > MAXIMUM_ANCHOR_GAP_NS {
          return Gap;
        }
      }
      return Ready;
    }

    /** Keep the anchor at or before the earliest source position not yet processed. */
    method Trim(retain: Position)
      requires Valid()
      modifies anchors
      ensures Valid() && Anchors() == Evict(old(Anchors()), retain)
    {
      ghost var before := Anchors();
      while anchors.size >= 2
        invariant anchors.Valid() && Ordered(Anchors())
        invariant Evict(Anchors(), retain) == Evict(before, retain)
        invariant unchanged(anchors.slots)
        decreases anchors.size
      {
        var second := anchors.Get(1);
        if Less(retain, second.source) {
          break;
        }
        OrderedSlice(Anchors(), 1, |Anchors()|);
        anchors.DropFront(1);
      }
    }

    /** Binary search for the last anchor at or before p. */
    method Locate(p: Position) returns (left: nat)
      requires Valid() && anchors.size > 0 && ValidPosition(p)
      requires AtOrBefore(Anchors()[0].source, p)
      ensures left < |Anchors()| && AtOrBefore(Anchors()[left].source, p)
      ensures left + 1 < |Anchors()| ==> Less(p, Anchors()[left + 1].source)
    {
      ghost var s := Anchors();
      var right := anchors.size - 1;
      left := 0;
      while left < right
        invariant 0 <= left <= right < anchors.size
        invariant AtOrBefore(s[left].source, p)
        invariant right + 1 < |s| ==> Less(p, s[right + 1].source)
      {
        var middle := left + (right - left + 1) / 2;
        var m := anchors.Get(middle);
        if !Less(p, m.source) {
          left := middle;
        } else {
          right := middle - 1;
        }
      }
    }

    /** The anchor at or before p, then interpolation to the next one. */
    method FindTime(p: Position) returns (time: Option<Nanoseconds>)
      requires Valid()
      ensures time == TimeAt(Anchors(), p)
    {
      hide Interpolate, TimeAt;
      ghost var s := Anchors();
      TimeAtDefined(s, p);
      if !ValidPosition(p) || anchors.size == 0 {
        return None;
      }
      var oldest := anchors.Get(0);
      var newest := anchors.Get(anchors.size - 1);
      if Less(p, oldest.source) || Less(newest.source, p) {
        return None;
      }
      var left := Locate(p);
      var a := anchors.Get(left);
      LessIsNumeric(a.source, p);
      TimeAtNeighbours(s, p, left);
      if !Less(a.source, p) {
        if left + 1 < |s| {
          BetweenOrder(s[left], s[left + 1], p, p);
        }
        return Some(a.time);
      }
      LessIsNumeric(newest.source, p);
      var b := anchors.Get(left + 1);
      InterpolateSucceeds(a, b, p);
      return Interpolate(a, b, p);
    }

    /** Every predicted position of a quantum against the output grid it will be stamped with. */
    method AssessQuantum(positions: array<Position>, origin: Nanoseconds, first: u64) returns (result: Assessment)
      requires Valid()
      ensures result == Assess(Anchors(), positions[..], origin, first)
    {
      hide Ordered, TimeAt;
      ghost var s, ps := Anchors(), positions[..];
      if positions.Length == 0 || positions.Length > QUANTUM || origin < 0 || first > U64_MAX - positions.Length {
        return Assessment(Invalid, 0);
      }
      var worst: nat := 0;
      var grid := new RationalTimeline(origin, WIRE_RATE, 1);
      for i := 0 to positions.Length
        invariant AssessFrom(s, ps, origin, first, i, worst) == AssessFrom(s, ps, origin, first, 0, 0)
      {
        if !ValidPosition(positions[i]) || (i > 0 && !Less(positions[i - 1], positions[i])) {
          return Assessment(Invalid, 0);
        }
        var predicted := FindTime(positions[i]);
        if predicted.None? {
          return Assessment(Waiting, 0);
        }
        TimeInRange(s, positions[i]);
        var expected := grid.At(first + i);
        GridMonotone(origin, WIRE_RATE, 1, 0, first + i);
        var phase := if expected.Some? then CheckedSub(predicted.value, expected.value) else None;
        if phase.None? || phase.value == I64_MIN {
          return Assessment(Invalid, 0);
        }
        var magnitude := Magnitude(phase.value);
        worst := if magnitude > worst then magnitude else worst;
      }
      return Assessment(if worst > PHASE_LIMIT_NS then Mismatch else Ready, worst);
    }
  }
}
