// The two-slot video handoff between one capture thread and one publishing thread, every store of
// either a step of its own (include/avsync/video_handoff.hpp, include/avsync/video_publication.hpp).
module VideoHandoff {
  import opened Timing

  const MAXIMUM_PAYLOAD_BYTES: nat := 33_554_432
  const MAXIMUM_AGE_NS: int := 200_000_000
  const MAXIMUM_FUTURE_NS: int := 1_000_000

  type Byte = x: int | 0 <= x < 256

  // ---- pixels ----------------------------------------------------------------------------

  /** Y rows followed by interleaved UV rows, width bytes of each stride worth keeping. */
  datatype Geometry = Geometry(width: nat, height: nat, stride: nat) {
    function Rows(): nat {
      height + height / 2
    }

    /** What the constructor accepts. */
    predicate Valid() {
      && 0 < width <= 3840 && 0 < height <= 2160 && width % 2 == 0 && height % 2 == 0
      && stride >= width && stride % 2 == 0 && Rows() * stride <= MAXIMUM_PAYLOAD_BYTES
    }
  }

  /** The first rows of a source, without the padding at the end of each. */
  function Packed(source: seq<Byte>, rows: nat, width: nat, stride: nat): (p: seq<Byte>)
    requires width <= stride && rows * stride <= |source|
    ensures |p| == rows * width
    decreases rows
  {
    if rows == 0 then []
    else
      RowFits(rows - 1, rows, stride);
      Packed(source, rows - 1, width, stride) + source[(rows - 1) * stride..(rows - 1) * stride + width]
  }

  lemma RowFits(row: nat, rows: nat, stride: nat)
    requires row < rows
    ensures row * stride + stride == (row + 1) * stride <= rows * stride
  {
    var after := rows - row - 1;
    assert after * stride >= 0;
    assert rows * stride == (row + 1 + after) * stride == (row + 1) * stride + after * stride;
  }

  /** Packed means what it should: byte c of row r comes from byte c of row r. */
  lemma {:induction false} PixelAt(source: seq<Byte>, rows: nat, width: nat, stride: nat, r: nat, c: nat)
    requires width <= stride && rows * stride <= |source| && r < rows && c < width
    ensures r * width + c < rows * width && r * stride + c < |source|
    ensures Packed(source, rows, width, stride)[r * width + c] == source[r * stride + c]
    decreases rows
  {
    RowFits(rows - 1, rows, stride);
    RowFits(r, rows, stride);
    RowFits(r, rows, width);
    if r < rows - 1 {
      PixelAt(source, rows - 1, width, stride, r, c);
    }
  }

  /** Without padding there is nothing to leave out. */
  lemma {:induction false} PackedIsPrefix(source: seq<Byte>, rows: nat, width: nat)
    requires rows * width <= |source|
    ensures Packed(source, rows, width, width) == source[..rows * width]
    decreases rows
  {
    if rows > 0 {
      RowFits(rows - 1, rows, width);
      PackedIsPrefix(source, rows - 1, width);
      assert source[..rows * width] == source[..(rows - 1) * width] + source[(rows - 1) * width..(rows - 1) * width + width];
    }
  }

  /** One memcpy: a stretch of bytes, and nothing before or after it. */
  method CopyBytes(destination: array<Byte>, to: nat, source: seq<Byte>, from: nat, count: nat)
    requires to + count <= destination.Length && from + count <= |source|
    modifies destination
    ensures destination[..to] == old(destination[..to]) && destination[to + count..] == old(destination[to + count..])
    ensures destination[to..to + count] == source[from..from + count]
  {
    forall i | 0 <= i < count {
      destination[to + i] := source[from + i];
    }
  }

  lemma PackedStep(source: seq<Byte>, row: nat, rows: nat, width: nat, stride: nat)
    requires row < rows && width <= stride && rows * stride <= |source|
    ensures row * stride + stride <= |source| && (row + 1) * stride <= |source|
    ensures row * width + width == (row + 1) * width <= rows * width
    ensures Packed(source, row + 1, width, stride)
            == Packed(source, row, width, stride) + source[row * stride..row * stride + width]
  {
    RowFits(row, rows, stride);
    RowFits(row, rows, width);
  }

  /** The copy the capture thread makes into a slot it owns: one block, or row by row. */
  method CopyPixels(destination: array<Byte>, source: seq<Byte>, g: Geometry)
    requires g.Valid() && destination.Length == g.Rows() * g.width && g.Rows() * g.stride <= |source|
    modifies destination
    ensures destination[..] == Packed(source, g.Rows(), g.width, g.stride)
  {
    hide Packed;
    var rows, width, stride := g.Rows(), g.width, g.stride;
    if stride == width {
      PackedIsPrefix(source, rows, width);
      CopyBytes(destination, 0, source, 0, destination.Length);
      assert destination[0..0 + destination.Length] == destination[..];
    } else {
      var row := 0;
      var to, from := 0, 0;
      PackedNothing(source, width, stride);
      while row < rows
        invariant row <= rows && to == row * width <= destination.Length && from == row * stride <= |source|
        invariant destination[..to] == Packed(source, row, width, stride)
      {
        PackedStep(source, row, rows, width, stride);
        CopyBytes(destination, to, source, from, width);
        assert destination[..to + width] == destination[..to] + destination[to..to + width];
        row, to, from := row + 1, to + width, from + stride;
      }
    }
  }

  lemma PackedNothing(source: seq<Byte>, width: nat, stride: nat)
    requires width <= stride
    ensures Packed(source, 0, width, stride) == []
  {
  }

  // ---- the two threads ---------------------------------------------------------------------

  datatype Packet = Packet(pixels: seq<Byte>, capture: Nanoseconds)
  datatype Slot = Slot(pixels: seq<Byte>, capture: Nanoseconds, ready: bool)

  /** Where the capture thread is in try_copy. */
  datatype Producer =
    | Free
    | Copying(source: seq<Byte>, capture: Nanoseconds, row: nat)
    | Publishing(source: seq<Byte>, capture: Nanoseconds)

  /** Where the publishing thread is in try_publish_oldest_video. */
  datatype Consumer =
    | Resting
    | Holding(now: Nanoseconds, delay: Nanoseconds)
    | Offering(now: Nanoseconds, delay: Nanoseconds, presentation: Nanoseconds)
    | Releasing(published: bool, now: Nanoseconds)
    | Ended

  datatype Event =
    | Published(packet: Packet, now: Nanoseconds, delay: Nanoseconds, presentation: Nanoseconds)
    | Expired(packet: Packet, now: Nanoseconds)

  datatype State = State(
    slots: seq<Slot>, p: nat, c: nat, producer: Producer, consumer: Consumer,
    accepted: seq<Packet>, released: nat, log: seq<Event>)

  datatype Answer = Taken | Busy | Failed

  datatype Step =
    | TryCopy(source: seq<Byte>, capture: Nanoseconds)
    | CopyRow
    | Stamp
    | Publish
    | Attempt(now: Nanoseconds, delay: Nanoseconds)
    | Judge
    | Offer(answer: Answer)
    | Release

  function Required(g: Geometry): nat {
    g.Rows() * g.stride
  }

  function PackedBytes(g: Geometry): nat {
    g.Rows() * g.width
  }

  function Initial(g: Geometry, blank: seq<Byte>): State
    requires |blank| == PackedBytes(g)
  {
    State([Slot(blank, 0, false), Slot(blank, 0, false)], 0, 0, Free, Resting, [], 0, [])
  }

  predicate Usable(g: Geometry, source: seq<Byte>, capture: Nanoseconds) {
    capture >= 0 && Required(g) <= |source| <= MAXIMUM_PAYLOAD_BYTES
  }

  /** One row of a slot overwritten with one row of the source. */
  function WriteRow(g: Geometry, pixels: seq<Byte>, source: seq<Byte>, row: nat): (r: seq<Byte>)
    requires g.Valid() && row < g.Rows() && Required(g) <= |source| && |pixels| == PackedBytes(g)
    ensures |r| == |pixels|
  {
    RowFits(row, g.Rows(), g.width);
    RowFits(row, g.Rows(), g.stride);
    var to, from := row * g.width, row * g.stride;
    pixels[..to] + source[from..from + g.width] + pixels[to + g.width..]
  }

  /** The packet a frame is meant to become. */
  function Destrided(g: Geometry, source: seq<Byte>, capture: Nanoseconds): Packet
    requires g.Valid() && Required(g) <= |source|
  {
    Packet(Packed(source, g.Rows(), g.width, g.stride), capture)
  }

  function WithSlot(s: State, i: nat, slot: Slot): State
    requires i < |s.slots|
  {
    s.(slots := s.slots[i := slot])
  }

  predicate WellFormed(g: Geometry, s: State) {
    && g.Valid() && |s.slots| == 2 && s.p < 2 && s.c < 2
    && |s.slots[0].pixels| == PackedBytes(g) && |s.slots[1].pixels| == PackedBytes(g)
    && (s.producer.Copying? ==> Usable(g, s.producer.source, s.producer.capture) && s.producer.row <= g.Rows())
    && (s.producer.Publishing? ==> Usable(g, s.producer.source, s.producer.capture))
  }

  predicate Enabled(g: Geometry, s: State, step: Step) {
    && WellFormed(g, s)
    && match step
       case TryCopy(_, _) => s.producer.Free?
       case CopyRow => s.producer.Copying? && s.producer.row < g.Rows()
       case Stamp => s.producer.Copying? && s.producer.row == g.Rows()
       case Publish => s.producer.Publishing?
       case Attempt(_, _) => s.consumer.Resting?
       case Judge => s.consumer.Holding?
       case Offer(_) => s.consumer.Offering?
       case Release => s.consumer.Releasing?
  }

  function JudgeStep(s: State): State
    requires s.consumer.Holding? && s.c < |s.slots|
  {
    var capture := s.slots[s.c].capture;
    var presentation, age := CheckedAdd(capture, s.consumer.delay), CheckedSub(s.consumer.now, capture);
    if presentation.None? || age.None? || age.value < -MAXIMUM_FUTURE_NS then s.(consumer := Ended)
    else if age.value > MAXIMUM_AGE_NS then s.(consumer := Releasing(false, s.consumer.now))
    else s.(consumer := Offering(s.consumer.now, s.consumer.delay, presentation.value))
  }

  function OfferStep(s: State, answer: Answer): State
    requires s.consumer.Offering? && s.c < |s.slots|
  {
    match answer
    case Busy => s.(consumer := Resting)
    case Failed => s.(consumer := Ended)
    case Taken =>
      var k := s.consumer;
      var packet := Packet(s.slots[s.c].pixels, s.slots[s.c].capture);
      s.(consumer := Releasing(true, k.now), log := s.log + [Published(packet, k.now, k.delay, k.presentation)])
  }

  function ReleaseStep(s: State): State
    requires s.consumer.Releasing? && s.c < |s.slots| == 2
  {
    var slot := s.slots[s.c];
    if !slot.ready then s.(consumer := Ended)
    else
      WithSlot(s, s.c, slot.(ready := false)).(
        c := 1 - s.c, released := s.released + 1, consumer := Resting,
        log := if s.consumer.published then s.log else s.log + [Expired(Packet(slot.pixels, slot.capture), s.consumer.now)])
  }

  function Do(g: Geometry, s: State, step: Step): State
    requires Enabled(g, s, step)
  {
    match step
    case TryCopy(source, capture) =>
      if !Usable(g, source, capture) || s.slots[s.p].ready then s else s.(producer := Copying(source, capture, 0))
    case CopyRow =>
      var k := s.producer;
      WithSlot(s, s.p, s.slots[s.p].(pixels := WriteRow(g, s.slots[s.p].pixels, k.source, k.row))).(
        producer := k.(row := k.row + 1))
    case Stamp =>
      var k := s.producer;
      WithSlot(s, s.p, s.slots[s.p].(capture := k.capture)).(producer := Publishing(k.source, k.capture))
    case Publish =>
      var k := s.producer;
      WithSlot(s, s.p, s.slots[s.p].(ready := true)).(
        producer := Free, p := 1 - s.p, accepted := s.accepted + [Destrided(g, k.source, k.capture)])
    case Attempt(now, delay) =>
      if now < 0 || delay < 0 || !s.slots[s.c].ready then s else s.(consumer := Holding(now, delay))
    case Judge => JudgeStep(s)
    case Offer(answer) => OfferStep(s, answer)
    case Release => ReleaseStep(s)
  }

  ghost predicate Runs(g: Geometry, s: State, steps: seq<Step>)
    decreases |steps|
  {
    steps == [] || (Enabled(g, s, steps[0]) && Runs(g, Do(g, s, steps[0]), steps[1..]))
  }

  ghost function After(g: Geometry, s: State, steps: seq<Step>): State
    requires Runs(g, s, steps)
    decreases |steps|
  {
    if steps == [] then s else After(g, Do(g, s, steps[0]), steps[1..])
  }

  // ---- invariant -------------------------------------------------------------------------

  function Full(packet: Packet): Slot {
    Slot(packet.pixels, packet.capture, true)
  }

  /** The ready slots hold exactly the frames accepted and not yet released, oldest at the consumer. */
  ghost predicate SlotsInv(s: State)
    requires |s.slots| == 2 && s.p < 2 && s.c < 2
  {
    && s.released <= |s.accepted| <= s.released + 2
    && s.p == |s.accepted| % 2 && s.c == s.released % 2
    && (if |s.accepted| > s.released then s.slots[s.c] == Full(s.accepted[s.released]) else !s.slots[s.c].ready)
    && (if |s.accepted| == s.released + 2 then s.slots[1 - s.c] == Full(s.accepted[s.released + 1]) else !s.slots[1 - s.c].ready)
  }

  /** A copy under way is into a slot that is not ready, and is right as far as it has come. */
  ghost predicate ProducerInv(g: Geometry, s: State)
    requires WellFormed(g, s)
  {
    match s.producer
    case Free => true
    case Copying(source, _, row) => |s.accepted| < s.released + 2 && RowsCopied(g, s.slots[s.p].pixels, source, row)
    case Publishing(source, capture) =>
      |s.accepted| < s.released + 2 && Packet(s.slots[s.p].pixels, s.slots[s.p].capture) == Destrided(g, source, capture)
  }

  ghost predicate RowsCopied(g: Geometry, pixels: seq<Byte>, source: seq<Byte>, row: nat)
    requires g.Valid() && row <= g.Rows() && Required(g) <= |source| && |pixels| == PackedBytes(g)
  {
    UpTo(row, g.Rows(), g.width);
    UpTo(row, g.Rows(), g.stride);
    pixels[..row * g.width] == Packed(source, row, g.width, g.stride)
  }

  lemma UpTo(row: nat, rows: nat, stride: nat)
    requires row <= rows
    ensures row * stride <= rows * stride
  {
    assert (rows - row) * stride >= 0;
  }

  predicate Timely(packet: Packet, now: Nanoseconds) {
    -MAXIMUM_FUTURE_NS <= now - packet.capture <= MAXIMUM_AGE_NS
  }

  ghost predicate ConsumerInv(s: State)
    requires s.released <= |s.accepted|
  {
    match s.consumer
    case Resting => true
    case Ended => true
    case Holding(now, delay) => s.released < |s.accepted|
    case Offering(now, delay, presentation) =>
      s.released < |s.accepted| && Timely(s.accepted[s.released], now) && presentation == s.accepted[s.released].capture + delay
    case Releasing(published, now) =>
      s.released < |s.accepted| && (!published ==> now - s.accepted[s.released].capture > MAXIMUM_AGE_NS)
  }

  /** A frame is resolved for what it is: shown in time at its capture time plus the delay, or too old. */
  ghost predicate Resolves(e: Event, packet: Packet) {
    && e.packet == packet
    && match e
       case Published(_, now, delay, presentation) => Timely(packet, now) && presentation == packet.capture + delay
       case Expired(_, now) => now - packet.capture > MAXIMUM_AGE_NS
  }

  /** Every frame resolved so far is the next one accepted, and none is resolved twice. */
  ghost predicate LogInv(s: State) {
    && |s.log| <= |s.accepted|
    && (forall k :: 0 <= k < |s.log| ==> Resolves(s.log[k], s.accepted[k]))
    && (forall k :: 0 <= k < |s.accepted| ==> s.accepted[k].capture >= 0)
  }

  ghost predicate Inv(g: Geometry, s: State) {
    && WellFormed(g, s) && SlotsInv(s) && ProducerInv(g, s) && ConsumerInv(s) && LogInv(s)
    && (!s.consumer.Ended? ==> |s.log| == s.released + if s.consumer.Releasing? && s.consumer.published then 1 else 0)
  }

  lemma InitialInv(g: Geometry, blank: seq<Byte>)
    requires g.Valid() && |blank| == PackedBytes(g)
    ensures Inv(g, Initial(g, blank))
  {
  }

  lemma RowKeeps(g: Geometry, pixels: seq<Byte>, source: seq<Byte>, row: nat)
    requires g.Valid() && row < g.Rows() && Required(g) <= |source| && |pixels| == PackedBytes(g)
    requires RowsCopied(g, pixels, source, row)
    ensures RowsCopied(g, WriteRow(g, pixels, source, row), source, row + 1)
  {
    hide Packed;
    PackedStep(source, row, g.Rows(), g.width, g.stride);
    var to, from := row * g.width, row * g.stride;
    Overwrites(pixels, to, source[from..from + g.width]);
  }

  lemma Overwrites(pixels: seq<Byte>, to: nat, bytes: seq<Byte>)
    requires to + |bytes| <= |pixels|
    ensures (pixels[..to] + bytes + pixels[to + |bytes|..])[..to + |bytes|] == pixels[..to] + bytes
  {
  }

  lemma CopyRowKeeps(g: Geometry, s: State)
    requires Inv(g, s) && Enabled(g, s, CopyRow)
    ensures Inv(g, Do(g, s, CopyRow))
  {
    hide WriteRow, RowsCopied;
    RowKeeps(g, s.slots[s.p].pixels, s.producer.source, s.producer.row);
  }

  lemma StampKeeps(g: Geometry, s: State)
    requires Inv(g, s) && Enabled(g, s, Stamp)
    ensures Inv(g, Do(g, s, Stamp))
  {
    var pixels := s.slots[s.p].pixels;
    assert pixels[..g.Rows() * g.width] == pixels;
  }

  lemma Alternates(n: nat)
    ensures (n + 1) % 2 == 1 - n % 2
  {
  }

  lemma PublishKeeps(g: Geometry, s: State)
    requires Inv(g, s) && Enabled(g, s, Publish)
    ensures Inv(g, Do(g, s, Publish))
  {
    hide Packed, Required, Resolves;
    Alternates(|s.accepted|);
  }

  lemma TryCopyKeeps(g: Geometry, s: State, source: seq<Byte>, capture: Nanoseconds)
    requires Inv(g, s) && Enabled(g, s, TryCopy(source, capture))
    ensures Inv(g, Do(g, s, TryCopy(source, capture)))
  {
    if Usable(g, source, capture) {
      PackedNothing(source, g.width, g.stride);
    }
  }

  lemma AttemptKeeps(g: Geometry, s: State, now: Nanoseconds, delay: Nanoseconds)
    requires Inv(g, s) && Enabled(g, s, Attempt(now, delay))
    ensures Inv(g, Do(g, s, Attempt(now, delay)))
  {
    hide RowsCopied, Packed, Required, PackedBytes, Destrided, Usable, Resolves;
  }

  lemma JudgeKeeps(g: Geometry, s: State)
    requires Inv(g, s) && Enabled(g, s, Judge)
    ensures Inv(g, Do(g, s, Judge))
  {
    hide RowsCopied, Packed, Required, PackedBytes, Destrided, Usable, Resolves;
  }

  lemma OfferKeeps(g: Geometry, s: State, answer: Answer)
    requires Inv(g, s) && Enabled(g, s, Offer(answer))
    ensures Inv(g, Do(g, s, Offer(answer)))
  {
    hide RowsCopied, Packed, Required, PackedBytes, Destrided, Usable;
  }

  lemma ReleaseKeeps(g: Geometry, s: State)
    requires Inv(g, s) && Enabled(g, s, Release)
    ensures Inv(g, Do(g, s, Release)) && s.slots[s.c].ready
  {
    hide RowsCopied, Packed, Required, PackedBytes, Destrided, Usable;
    var t := ReleaseStep(s);
    Alternates(s.released);
    assert WellFormed(g, t) && LogInv(t) && ConsumerInv(t);
    assert SlotsInv(t) by { hide LogInv, Resolves; }
    assert ProducerInv(g, t) by { hide LogInv, Resolves; }
  }

  lemma StepKeeps(g: Geometry, s: State, step: Step)
    requires Inv(g, s) && Enabled(g, s, step)
    ensures Inv(g, Do(g, s, step))
  {
    hide Inv;
    match step
    case TryCopy(source, capture) => TryCopyKeeps(g, s, source, capture);
    case CopyRow => CopyRowKeeps(g, s);
    case Stamp => StampKeeps(g, s);
    case Publish => PublishKeeps(g, s);
    case Release => ReleaseKeeps(g, s);
    case Attempt(now, delay) => AttemptKeeps(g, s, now, delay);
    case Judge => JudgeKeeps(g, s);
    case Offer(answer) => OfferKeeps(g, s, answer);
  }

  lemma {:induction false} RunKeeps(g: Geometry, s: State, steps: seq<Step>)
    requires Inv(g, s) && Runs(g, s, steps)
    ensures Inv(g, After(g, s, steps))
    decreases |steps|
  {
    hide Inv, Do, Enabled;
    if steps != [] {
      StepKeeps(g, s, steps[0]);
      RunKeeps(g, Do(g, s, steps[0]), steps[1..]);
    }
  }

  // ---- what every interleaving gives ---------------------------------------------------------

  ghost predicate Reached(g: Geometry, s: State) {
    g.Valid() && exists blank, steps ::
      |blank| == PackedBytes(g) && Runs(g, Initial(g, blank), steps) && s == After(g, Initial(g, blank), steps)
  }

  lemma ReachedKeeps(g: Geometry, s: State)
    requires Reached(g, s)
    ensures Inv(g, s)
  {
    hide Inv, Do, Enabled;
    var blank, steps :| |blank| == PackedBytes(g) && Runs(g, Initial(g, blank), steps) && s == After(g, Initial(g, blank), steps);
    InitialInv(g, blank);
    RunKeeps(g, Initial(g, blank), steps);
  }

  function ReadyCount(s: State): nat
    requires |s.slots| == 2
  {
    (if s.slots[0].ready then 1 else 0) + if s.slots[1].ready then 1 else 0
  }

  /** Frames accepted and not released are exactly the ready slots, and a copy is refused exactly at two. */
  lemma Accounting(g: Geometry, s: State)
    requires Reached(g, s)
    ensures |s.slots| == 2 && ReadyCount(s) + s.released == |s.accepted|
    ensures s.p < 2 && (s.slots[s.p].ready <==> ReadyCount(s) == 2)
  {
    ReachedKeeps(g, s);
  }

  /** A slot that is ready is never written: no step of the producer touches what the consumer may be reading. */
  lemma ReadyIsNeverWritten(g: Geometry, s: State, step: Step, i: nat)
    requires Reached(g, s) && Enabled(g, s, step) && i < 2 && s.slots[i].ready
    requires step.TryCopy? || step.CopyRow? || step.Stamp? || step.Publish?
    ensures Do(g, s, step).slots[i] == s.slots[i]
  {
    hide WriteRow, Packed;
    ReachedKeeps(g, s);
  }

  /**
   * In every interleaving, and however often publishing is put off: the k-th frame resolved is the
   * k-th accepted, with its own time and correctly packed pixels, shown in time at capture plus
   * delay or dropped as too old; so none is resolved twice or out of order.
   */
  lemma ResolvedInOrder(g: Geometry, s: State, k: nat)
    requires Reached(g, s) && k < |s.log|
    ensures k < |s.accepted| && Resolves(s.log[k], s.accepted[k])
  {
    ReachedKeeps(g, s);
  }

  /** The release that follows a publication or an expiry always finds its slot. */
  lemma ReleaseNeverFails(g: Geometry, s: State)
    requires Reached(g, s) && Enabled(g, s, Release)
    ensures Do(g, s, Release).consumer == Resting && Do(g, s, Release).released == s.released + 1
  {
    ReachedKeeps(g, s);
    ReleaseKeeps(g, s);
  }

  // ---- what one copy and one publication decide ----------------------------------------------

  lemma RunsOn(g: Geometry, s: State, step: Step, rest: seq<Step>)
    requires Enabled(g, s, step) && Runs(g, Do(g, s, step), rest)
    ensures Runs(g, s, [step] + rest) && After(g, s, [step] + rest) == After(g, Do(g, s, step), rest)
  {
    assert ([step] + rest)[1..] == rest;
  }

  /** The oldest frame has been released, and nothing else has happened to the slots. */
  predicate Gone(s: State, t: State, e: Event)
    requires s.c < |s.slots| == 2
  {
    t == s.(slots := s.slots[s.c := s.slots[s.c].(ready := false)], c := 1 - s.c, released := s.released + 1,
            log := s.log + [e])
  }

  lemma ReleaseDecides(g: Geometry, s: State, published: bool, now: Nanoseconds)
    requires Inv(g, s) && s.released < |s.accepted| && s.consumer.Resting?
    ensures var r := s.(consumer := Releasing(published, now));
            Enabled(g, r, Release) && Do(g, r, Release) ==
              s.(slots := s.slots[s.c := s.slots[s.c].(ready := false)], c := 1 - s.c, released := s.released + 1,
                 log := if published then s.log else s.log + [Expired(s.accepted[s.released], now)])
  {
    hide RowsCopied, Packed, Destrided, Usable;
  }

  /**
   * One attempt to publish: with a clock or a delay before zero, or nothing ready, nothing happens.  The
   * oldest frame ends the publication if it has no presentation time or lies more than 1 ms ahead; it is
   * dropped if it is more than 200 ms old; otherwise it is offered, at its capture time plus the delay, and
   * leaves the queue when taken, stays the oldest when the output is busy, and ends the publication else.
   */
  lemma PublicationDecides(g: Geometry, s: State, now: Nanoseconds, delay: Nanoseconds, answer: Answer) returns (steps: seq<Step>)
    requires Reached(g, s) && s.consumer.Resting?
    ensures steps != [] && steps[0] == Attempt(now, delay)
    ensures forall i :: 0 < i < |steps| ==> steps[i] == Judge || steps[i] == Offer(answer) || steps[i] == Release
    ensures Runs(g, s, steps) && s.released <= |s.accepted| && s.c < |s.slots| == 2
    ensures var t := After(g, s, steps);
            if now < 0 || delay < 0 || s.released == |s.accepted| then t == s
            else
              var packet := s.accepted[s.released];
              if packet.capture + delay > I64_MAX || packet.capture - now > 1_000_000 then t == s.(consumer := Ended)
              else if now - packet.capture > 200_000_000 then Gone(s, t, Expired(packet, now))
              else match answer
                case Taken => Gone(s, t, Published(packet, now, delay, packet.capture + delay))
                case Busy => t == s
                case Failed => t == s.(consumer := Ended)
  {
    ReachedKeeps(g, s);
    hide RowsCopied, Packed, Destrided, Usable, Gone;
    steps := [Attempt(now, delay)];
    if now >= 0 && delay >= 0 && s.released < |s.accepted| {
      var rest := JudgementDecides(g, s, now, delay, answer);
      steps := [Attempt(now, delay)] + rest;
      RunsOn(g, s, Attempt(now, delay), rest);
    }
  }

  lemma JudgementDecides(g: Geometry, s: State, now: Nanoseconds, delay: Nanoseconds, answer: Answer) returns (steps: seq<Step>)
    requires Inv(g, s) && s.consumer.Resting? && now >= 0 && delay >= 0 && s.released < |s.accepted|
    ensures forall i :: 0 <= i < |steps| ==> steps[i] == Judge || steps[i] == Offer(answer) || steps[i] == Release
    ensures var h := s.(consumer := Holding(now, delay)); var packet := s.accepted[s.released];
            && Runs(g, h, steps)
            && var t := After(g, h, steps);
               if packet.capture + delay > I64_MAX || packet.capture - now > 1_000_000 then t == s.(consumer := Ended)
               else if now - packet.capture > 200_000_000 then Gone(s, t, Expired(packet, now))
               else match answer
                 case Taken => Gone(s, t, Published(packet, now, delay, packet.capture + delay))
                 case Busy => t == s
                 case Failed => t == s.(consumer := Ended)
  {
    hide RowsCopied, Packed, Destrided, Usable;
    var packet, h := s.accepted[s.released], s.(consumer := Holding(now, delay));
    var rest := [];
    if packet.capture + delay > I64_MAX || packet.capture - now > 1_000_000 {
    } else if now - packet.capture > 200_000_000 {
      ReleaseDecides(g, s, false, now);
      rest := [Release];
      RunsOn(g, s.(consumer := Releasing(false, now)), Release, []);
    } else {
      rest := OfferDecides(g, s, now, delay, answer);
    }
    steps := [Judge] + rest;
    RunsOn(g, h, Judge, rest);
  }

  lemma OfferDecides(g: Geometry, s: State, now: Nanoseconds, delay: Nanoseconds, answer: Answer) returns (steps: seq<Step>)
    requires Inv(g, s) && s.consumer.Resting? && s.released < |s.accepted|
    requires I64_MIN <= s.accepted[s.released].capture + delay <= I64_MAX
    ensures forall i :: 0 <= i < |steps| ==> steps[i] == Offer(answer) || steps[i] == Release
    ensures var packet := s.accepted[s.released];
            var o := s.(consumer := Offering(now, delay, packet.capture + delay));
            && Runs(g, o, steps)
            && match answer
               case Taken => Gone(s, After(g, o, steps), Published(packet, now, delay, packet.capture + delay))
               case Busy => After(g, o, steps) == s
               case Failed => After(g, o, steps) == s.(consumer := Ended)
  {
    hide RowsCopied, Packed, Destrided, Usable;
    var packet := s.accepted[s.released];
    var o := s.(consumer := Offering(now, delay, packet.capture + delay));
    var rest := [];
    if answer.Taken? {
      rest := [Release];
      var r := Do(g, o, Offer(answer));
      RunsOn(g, r, Release, []);
    }
    steps := [Offer(answer)] + rest;
    RunsOn(g, o, Offer(answer), rest);
  }

  /** The rows left to copy are copied, and nothing else happens. */
  lemma {:induction false} RowsDecide(g: Geometry, s: State, last: seq<Step>) returns (steps: seq<Step>, copied: State)
    requires WellFormed(g, s) && s.producer.Copying?
    requires forall t :: WellFormed(g, t) && t.producer == s.producer.(row := g.Rows()) ==> Runs(g, t, last)
    ensures forall i :: 0 <= i < |steps| ==> steps[i] == CopyRow
    ensures Runs(g, s, steps + last) && WellFormed(g, copied)
    ensures copied == s.(slots := copied.slots, producer := s.producer.(row := g.Rows()))
    ensures |copied.slots| == 2 && copied.slots[1 - s.p] == s.slots[1 - s.p]
    ensures After(g, s, steps + last) == After(g, copied, last)
    decreases g.Rows() - s.producer.row
  {
    hide WriteRow, Required, PackedBytes, Usable;
    steps, copied := [], s;
    if s.producer.row < g.Rows() {
      var rest;
      rest, copied := RowsDecide(g, Do(g, s, CopyRow), last);
      steps := [CopyRow] + rest;
      RunsOn(g, s, CopyRow, rest + last);
      assert [CopyRow] + (rest + last) == steps + last;
    } else {
      assert steps + last == last;
    }
  }

  lemma ClosingRuns(g: Geometry, t: State)
    requires WellFormed(g, t) && t.producer.Copying? && t.producer.row == g.Rows()
    ensures Runs(g, t, [Stamp, Publish])
    ensures var u := After(g, t, [Stamp, Publish]); var k := t.producer;
            u == t.(slots := u.slots, producer := Free, p := 1 - t.p, accepted := t.accepted + [Destrided(g, k.source, k.capture)])
  {
    hide Required, PackedBytes;
    var stamped := Do(g, t, Stamp);
    RunsOn(g, stamped, Publish, []);
    RunsOn(g, t, Stamp, [Publish]);
    assert [Stamp] + [Publish] == [Stamp, Publish];
  }

  /** Byte c of row r of the packed pixels is byte c of row r of the source. */
  predicate SamePixel(pixels: seq<Byte>, source: seq<Byte>, width: nat, stride: nat, r: nat, c: nat) {
    var to, from := r * width + c, r * stride + c;
    to < |pixels| && from < |source| && pixels[to] == source[from]
  }

  lemma PackedPixels(g: Geometry, source: seq<Byte>)
    requires g.Valid() && Required(g) <= |source|
    ensures forall r: nat, c: nat :: r < g.Rows() && c < g.width ==>
              SamePixel(Packed(source, g.Rows(), g.width, g.stride), source, g.width, g.stride, r, c)
  {
    forall r: nat, c: nat | r < g.Rows() && c < g.width
      ensures SamePixel(Packed(source, g.Rows(), g.width, g.stride), source, g.width, g.stride, r, c)
    {
      PixelAt(source, g.Rows(), g.width, g.stride, r, c);
    }
  }

  /** A copy that is not refused, from its first row to its publication. */
  lemma CopyRuns(g: Geometry, s: State, source: seq<Byte>, capture: Nanoseconds) returns (steps: seq<Step>)
    requires WellFormed(g, s) && s.producer == Copying(source, capture, 0)
    ensures forall i :: 0 <= i < |steps| ==> steps[i] == CopyRow || steps[i] == Stamp || steps[i] == Publish
    ensures Runs(g, s, steps)
    ensures var t := After(g, s, steps);
            t == s.(slots := t.slots, producer := Free, p := 1 - s.p, accepted := s.accepted + [Destrided(g, source, capture)])
  {
    hide Required, PackedBytes, Destrided;
    forall t | WellFormed(g, t) && t.producer == Copying(source, capture, g.Rows()) ensures Runs(g, t, [Stamp, Publish]) {
      ClosingRuns(g, t);
    }
    hide WellFormed, Do, Enabled;
    var rows, copied := RowsDecide(g, s, [Stamp, Publish]);
    ClosingRuns(g, copied);
    steps := rows + [Stamp, Publish];
  }

  /**
   * One copy: refused, changing nothing, exactly for a time before zero, a source of the wrong size, or two
   * frames waiting; otherwise it makes the newest frame, with that time and the source's own pixels.
   */
  lemma CopyDecides(g: Geometry, s: State, source: seq<Byte>, capture: Nanoseconds) returns (steps: seq<Step>)
    requires Reached(g, s) && s.producer.Free?
    ensures steps != [] && steps[0] == TryCopy(source, capture)
    ensures forall i :: 0 < i < |steps| ==> steps[i] == CopyRow || steps[i] == Stamp || steps[i] == Publish
    ensures Runs(g, s, steps) && s.p < 2
    ensures var t := After(g, s, steps); var rows := g.height + g.height / 2;
            if capture < 0 || |source| < rows * g.stride || |source| > 33_554_432 || |s.accepted| == s.released + 2 then t == s
            else
              && |t.accepted| == |s.accepted| + 1 && t == s.(slots := t.slots, p := 1 - s.p, accepted := t.accepted)
              && t.accepted[..|s.accepted|] == s.accepted && t.accepted[|s.accepted|].capture == capture
              && forall r: nat, c: nat :: r < rows && c < g.width ==>
                   SamePixel(t.accepted[|s.accepted|].pixels, source, g.width, g.stride, r, c)
  {
    ReachedKeeps(g, s);
    Accounting(g, s);
    var rest := [];
    var started := Do(g, s, TryCopy(source, capture));
    if Usable(g, source, capture) && !s.slots[s.p].ready {
      PackedPixels(g, source);
      rest := CopyRuns(g, started, source, capture);
    }
    hide RowsCopied, PackedBytes, Packed, SamePixel, LogInv, ConsumerInv, ProducerInv;
    steps := [TryCopy(source, capture)] + rest;
    RunsOn(g, s, TryCopy(source, capture), rest);
  }
}
