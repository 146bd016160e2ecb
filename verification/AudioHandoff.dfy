// Republishing corrected audio in 480-frame blocks on the exact 48 kHz grid
// (src/audio/audio_handoff.cpp, include/avsync/audio_handoff.hpp).
module AudioHandoff {
  import opened Timing
  import opened Ring
  import opened CorrectionSpec

  const BLOCK: nat := 480
  const PENDING_CAPACITY: nat := 16
  const FLUSH_LIMIT: nat := 8
  const MAX_AGE_NS: int := 200_000_000
  const MAX_FUTURE_NS: int := 100_000_000

  datatype Pending = Pending(pcm: seq<Frame>, capture: Nanoseconds, presentation: Nanoseconds)

  datatype WriteResult = Written | Busy | Refused

  /** The shared-memory writer during one call: whether it is still valid, and its answers in turn. */
  datatype Writer = Writer(alive: bool, answers: seq<WriteResult>)

  function Answer(writer: Writer, i: nat): WriteResult {
    if i < |writer.answers| then writer.answers[i] else Refused
  }

  /** `published` and `fed` are the history: every block written, every frame ever taken in. */
  datatype Handoff = Handoff(
    open: bool, delay: Nanoseconds, epoch: Option<SessionToken>, origin: Option<Nanoseconds>,
    accepted: nat, frames: nat, pending: seq<Pending>, published: seq<Pending>, fed: seq<Frame>)

  predicate DelayAllowed(delay: Nanoseconds) {
    30_000_000 <= delay <= 2_000_000_000 && delay % 10_000_000 == 0
  }

  function NewHandoff(delay: Nanoseconds): Handoff {
    Handoff(true, delay, None, None, 0, 0, [], [], [])
  }

  function Revoke(h: Handoff): Handoff {
    h.(open := false, pending := [])
  }

  predicate Fresh(capture: Nanoseconds, now: Nanoseconds) {
    var age := CheckedSub(now, capture);
    age.Some? && -MAX_FUTURE_NS <= age.value <= MAX_AGE_NS
  }

  /** Write the oldest blocks in order, at most eight; busy keeps the block, anything else closes. */
  function FlushFrom(h: Handoff, count: nat, now: Nanoseconds, writer: Writer): (r: (bool, Handoff))
    decreases FLUSH_LIMIT - count
  {
    if count >= FLUSH_LIMIT || h.pending == [] then (true, h)
    else
      var p := h.pending[0];
      if !Fresh(p.capture, now) || now > p.presentation then (false, Revoke(h))
      else
        match Answer(writer, count)
        case Busy => (true, h)
        case Refused => (false, Revoke(h))
        case Written =>
          FlushFrom(h.(pending := h.pending[1..], frames := h.frames + BLOCK, published := h.published + [p]),
                    count + 1, now, writer)
  }

  function Flush(h: Handoff, now: Nanoseconds, writer: Writer): (r: (bool, Handoff)) {
    if !h.open || !writer.alive then (false, h) else FlushFrom(h, 0, now, writer)
  }

  function Heartbeat(h: Handoff, now: Nanoseconds, writer: Writer, beat: WriteResult): (r: (bool, Handoff)) {
    if now < 0 then (false, Revoke(h))
    else
      var (ok, f) := Flush(h, now, writer);
      if !ok then (false, f)
      else if beat == Refused then (false, Revoke(f)) else (true, f)
  }

  predicate AllFinite(pcm: seq<Frame>) {
    forall i :: 0 <= i < |pcm| ==> pcm[i].left.Finite? && pcm[i].right.Finite?
  }

  /** The handoff once its first block has fixed the epoch and the grid. */
  function Adopt(h: Handoff, block: CorrectedAudio): Handoff {
    if h.epoch.None? then h.(epoch := Some(block.epoch), origin := Some(block.captureGrid)) else h
  }

  /** The checks of a block's shape and place, which depend on the sender of blocks alone. */
  predicate WellFormed(accepted: nat, block: CorrectedAudio, size: nat) {
    && block.epoch.Valid() && 0 < block.frames <= OUTPUT_CAPACITY && block.frames % BLOCK == 0 && size == block.frames
    && block.firstFrame == accepted && block.captureGrid >= 0
  }

  predicate OnHandoffGrid(h: Handoff, block: CorrectedAudio) {
    && h.epoch == Some(block.epoch) && h.origin.Some?
    && Grid48(h.origin.value, h.accepted) == Some(block.captureGrid)
    && h.accepted <= U64_MAX - block.frames
  }

  /** The checks of the moment: writer, clock, samples, freshness, and room in the queue. */
  predicate Timely(h: Handoff, block: CorrectedAudio, pcm: seq<Frame>, now: Nanoseconds, writer: Writer) {
    h.open && writer.alive && now >= 0 && AllFinite(pcm) && Fresh(block.captureGrid, now)
  }

  predicate RoomFor(h: Handoff, block: CorrectedAudio) {
    block.frames / BLOCK <= PENDING_CAPACITY - |h.pending|
  }

  /** The block that covers frames offset .. offset + 480, or None if its instants do not exist or have passed. */
  function SliceAt(h: Handoff, pcm: seq<Frame>, offset: nat, now: Nanoseconds): Option<Pending>
    requires offset + BLOCK <= |pcm| && h.origin.Some?
  {
    match Grid48(h.origin.value, h.accepted + offset)
    case None => None
    case Some(capture) =>
      var presentation := CheckedAdd(capture, h.delay);
      if presentation.None? || presentation.value < now then None
      else Some(Pending(pcm[offset..offset + BLOCK], capture, presentation.value))
  }

  function EnqueueFrom(h: Handoff, pcm: seq<Frame>, offset: nat, now: Nanoseconds): (r: (bool, Handoff))
    requires |pcm| % BLOCK == 0 && offset % BLOCK == 0 && offset <= |pcm| && h.origin.Some?
    decreases |pcm| - offset
  {
    if offset >= |pcm| then (true, h)
    else
      var slice := SliceAt(h, pcm, offset, now);
      if slice.None? then (false, Revoke(h))
      else EnqueueFrom(h.(pending := h.pending + [slice.value]), pcm, offset + BLOCK, now)
  }

  function Consume(h: Handoff, block: CorrectedAudio, pcm: seq<Frame>, now: Nanoseconds, writer: Writer): (r: (bool, Handoff)) {
    if !WellFormed(h.accepted, block, |pcm|) || !Timely(h, block, pcm, now, writer) then (false, Revoke(h))
    else
      var a := Adopt(h, block);
      if !OnHandoffGrid(a, block) || !RoomFor(a, block) then (false, Revoke(a))
      else
        var (ok, q) := EnqueueFrom(a, pcm, 0, now);
        if !ok then (false, q)
        else Flush(q.(accepted := q.accepted + block.frames, fed := q.fed + pcm), now, writer)
  }

  // ---- invariant -------------------------------------------------------------------------

  /** The frames of a list of blocks, in order. */
  ghost function PcmOf(blocks: seq<Pending>): seq<Frame> {
    if blocks == [] then [] else PcmOf(blocks[..|blocks| - 1]) + blocks[|blocks| - 1].pcm
  }

  /** The k-th block ever made carries the exact grid time of frame 480k and a presentation `delay` later. */
  ghost predicate Stamped(blocks: seq<Pending>, origin: Nanoseconds, delay: Nanoseconds) {
    forall k :: 0 <= k < |blocks| ==>
      && |blocks[k].pcm| == BLOCK
      && Grid48(origin, BLOCK * k) == Some(blocks[k].capture)
      && blocks[k].presentation == blocks[k].capture + delay
  }

  ghost predicate HandoffInv(h: Handoff) {
    && h.frames == BLOCK * |h.published|
    && |h.pending| <= PENDING_CAPACITY
    && (h.open ==> h.accepted == h.frames + BLOCK * |h.pending| && |h.fed| == h.accepted)
    && (!h.open ==> h.pending == [])
    && (h.epoch.None? <==> h.origin.None?)
    && (h.origin.None? ==> h.published == [] && h.pending == [])
    && (h.origin.Some? ==> Stamped(h.published + h.pending, h.origin.value, h.delay))
    && (h.open ==> PcmOf(h.published + h.pending) == h.fed)
    && PcmOf(h.published) <= h.fed
  }

  lemma PcmAppend(blocks: seq<Pending>, p: Pending)
    ensures PcmOf(blocks + [p]) == PcmOf(blocks) + p.pcm
  {
    assert (blocks + [p])[..|blocks|] == blocks;
  }

  lemma {:induction false} PcmPrefix(a: seq<Pending>, b: seq<Pending>)
    ensures PcmOf(a) <= PcmOf(a + b)
    decreases |b|
  {
    if b == [] {
      assert a + b == a;
    } else {
      PcmPrefix(a, b[..|b| - 1]);
      assert (a + b)[..|a + b| - 1] == a + b[..|b| - 1];
    }
  }

  lemma NewHandoffInv(delay: Nanoseconds)
    ensures HandoffInv(NewHandoff(delay))
  {
  }

  lemma RevokeKeeps(h: Handoff)
    requires h.frames == BLOCK * |h.published| && PcmOf(h.published) <= h.fed
    requires (h.epoch.None? <==> h.origin.None?) && (h.origin.None? ==> h.published == [])
    requires h.origin.Some? ==> Stamped(h.published, h.origin.value, h.delay)
    ensures HandoffInv(Revoke(h))
  {
    assert h.published + [] == h.published;
  }

  /** Writing the oldest block moves it from the queue to the published list. */
  function WriteOldest(h: Handoff): Handoff
    requires h.pending != []
  {
    h.(pending := h.pending[1..], frames := h.frames + BLOCK, published := h.published + [h.pending[0]])
  }

  lemma WriteKeeps(h: Handoff)
    requires HandoffInv(h) && h.open && h.pending != []
    ensures HandoffInv(WriteOldest(h))
  {
    hide Stamped;
    var n := WriteOldest(h);
    assert n.published + n.pending == h.published + h.pending;
    PcmPrefix(n.published, n.pending);
  }

  lemma CloseKeeps(h: Handoff)
    requires HandoffInv(h)
    ensures HandoffInv(Revoke(h))
  {
    if h.origin.Some? {
      StampedPrefix(h.published, h.pending, h.origin.value, h.delay);
    }
    RevokeKeeps(h);
  }

  lemma {:induction false} FlushKeeps(h: Handoff, count: nat, now: Nanoseconds, writer: Writer)
    requires HandoffInv(h) && h.open
    ensures var (ok, f) := FlushFrom(h, count, now, writer);
            && HandoffInv(f) && f.open == ok
            && f.accepted == h.accepted && f.fed == h.fed && f.epoch == h.epoch && f.origin == h.origin && f.delay == h.delay
    decreases FLUSH_LIMIT - count
  {
    hide HandoffInv;
    CloseKeeps(h);
    if h.pending != [] && count < FLUSH_LIMIT {
      WriteKeeps(h);
      FlushKeeps(WriteOldest(h), count + 1, now, writer);
    }
  }

  lemma StampedPrefix(a: seq<Pending>, b: seq<Pending>, origin: Nanoseconds, delay: Nanoseconds)
    requires Stamped(a + b, origin, delay)
    ensures Stamped(a, origin, delay)
  {
    forall k | 0 <= k < |a|
      ensures |a[k].pcm| == BLOCK && Grid48(origin, BLOCK * k) == Some(a[k].capture) && a[k].presentation == a[k].capture + delay
    {
      assert (a + b)[k] == a[k];
    }
  }

  /** Half-way through a block: the slices queued so far continue the history exactly. */
  ghost predicate Filling(h: Handoff, pcm: seq<Frame>, offset: nat) {
    && offset % BLOCK == 0 && offset <= |pcm| && |pcm| % BLOCK == 0
    && h.open && h.origin.Some? && h.epoch.Some?
    && h.frames == BLOCK * |h.published|
    && h.accepted + offset == h.frames + BLOCK * |h.pending|
    && |h.pending| + (|pcm| - offset) / BLOCK <= PENDING_CAPACITY
    && Stamped(h.published + h.pending, h.origin.value, h.delay)
    && PcmOf(h.published + h.pending) == h.fed + pcm[..offset]
    && PcmOf(h.published) <= h.fed && |h.fed| == h.accepted
  }

  lemma StampOne(all: seq<Pending>, p: Pending, origin: Nanoseconds, delay: Nanoseconds)
    requires Stamped(all, origin, delay)
    requires |p.pcm| == BLOCK && Grid48(origin, BLOCK * |all|) == Some(p.capture) && p.presentation == p.capture + delay
    ensures Stamped(all + [p], origin, delay)
  {
  }

  lemma FillOne(h: Handoff, pcm: seq<Frame>, offset: nat, now: Nanoseconds)
    requires Filling(h, pcm, offset) && offset < |pcm| && SliceAt(h, pcm, offset, now).Some?
    ensures Filling(h.(pending := h.pending + [SliceAt(h, pcm, offset, now).value]), pcm, offset + BLOCK)
  {
    hide Stamped, PcmOf, Grid48;
    var p := SliceAt(h, pcm, offset, now).value;
    var all := h.published + h.pending;
    assert h.published + (h.pending + [p]) == all + [p];
    PcmAppend(all, p);
    assert h.fed + pcm[..offset] + pcm[offset..offset + BLOCK] == h.fed + pcm[..offset + BLOCK];
    StampOne(all, p, h.origin.value, h.delay);
  }

  lemma {:induction false} EnqueueKeeps(h: Handoff, pcm: seq<Frame>, offset: nat, now: Nanoseconds)
    requires Filling(h, pcm, offset)
    ensures var (ok, q) := EnqueueFrom(h, pcm, offset, now);
            && (if ok then Filling(q, pcm, |pcm|) else HandoffInv(q) && !q.open)
            && q.accepted == h.accepted && q.fed == h.fed && q.epoch == h.epoch && q.origin == h.origin && q.delay == h.delay
    decreases |pcm| - offset
  {
    if offset < |pcm| {
      var slice := SliceAt(h, pcm, offset, now);
      if slice.Some? {
        FillOne(h, pcm, offset, now);
        EnqueueKeeps(h.(pending := h.pending + [slice.value]), pcm, offset + BLOCK, now);
      } else {
        StampedPrefix(h.published, h.pending, h.origin.value, h.delay);
        RevokeKeeps(h);
      }
    }
  }

  /**
   * Taking in a block: the history grows by exactly its frames or the handoff is closed, and an
   * accepted block leaves every queued and published block on its grid time.
   */
  lemma ConsumeKeeps(h: Handoff, block: CorrectedAudio, pcm: seq<Frame>, now: Nanoseconds, writer: Writer)
    requires HandoffInv(h)
    ensures var (ok, c) := Consume(h, block, pcm, now, writer);
            && HandoffInv(c) && c.delay == h.delay && (ok ==> c.open)
            && (c.open ==> h.open && c.fed == h.fed + pcm && c.accepted == h.accepted + |pcm|
                           && c.epoch == Adopt(h, block).epoch && c.origin == Adopt(h, block).origin)
            && c.fed <= h.fed + pcm
            && ((c.epoch == h.epoch && c.origin == h.origin)
                || (c.epoch == Adopt(h, block).epoch && c.origin == Adopt(h, block).origin))
  {
    hide HandoffInv, OnHandoffGrid, RoomFor, FlushFrom, EnqueueFrom, AllFinite, Fresh;
    CloseKeeps(h);
    AdoptKeeps(h, block);
    var a := Adopt(h, block);
    CloseKeeps(a);
    if WellFormed(h.accepted, block, |pcm|) && Timely(h, block, pcm, now, writer) && OnHandoffGrid(a, block) && RoomFor(a, block) {
      TakeKeeps(a, block, pcm, now);
      var (ok, q) := EnqueueFrom(a, pcm, 0, now);
      if ok {
        FlushKeeps(q.(accepted := q.accepted + block.frames, fed := q.fed + pcm), 0, now, writer);
      }
    }
  }

  lemma AdoptKeeps(h: Handoff, block: CorrectedAudio)
    requires HandoffInv(h)
    ensures HandoffInv(Adopt(h, block))
  {
  }

  lemma TakeKeeps(a: Handoff, block: CorrectedAudio, pcm: seq<Frame>, now: Nanoseconds)
    requires HandoffInv(a) && a.open && WellFormed(a.accepted, block, |pcm|) && OnHandoffGrid(a, block) && RoomFor(a, block)
    ensures var (ok, q) := EnqueueFrom(a, pcm, 0, now);
            && q.accepted == a.accepted && q.fed == a.fed && q.epoch == a.epoch && q.origin == a.origin && q.delay == a.delay
            && (ok ==> q.open && HandoffInv(q.(accepted := q.accepted + block.frames, fed := q.fed + pcm)))
            && (!ok ==> HandoffInv(q) && !q.open)
  {
    hide Stamped, Grid48;
    assert pcm[..0] == [] && a.fed + [] == a.fed;
    assert Filling(a, pcm, 0);
    EnqueueKeeps(a, pcm, 0, now);
    assert pcm[..|pcm|] == pcm;
  }

  lemma HeartbeatKeeps(h: Handoff, now: Nanoseconds, writer: Writer, beat: WriteResult)
    requires HandoffInv(h)
    ensures var (ok, c) := Heartbeat(h, now, writer, beat);
            && HandoffInv(c) && c.delay == h.delay && c.fed == h.fed && c.accepted == h.accepted
            && c.epoch == h.epoch && c.origin == h.origin && (c.open ==> h.open)
  {
    hide HandoffInv;
    CloseKeeps(h);
    if h.open && writer.alive {
      FlushKeeps(h, 0, now, writer);
      CloseKeeps(FlushFrom(h, 0, now, writer).1);
    }
  }

  // ---- the object ------------------------------------------------------------------------

  /** The owner-thread object: a ring of sixteen pending blocks in front of the shared-memory writer. */
  class CorrectedAudioHandoff {
    const pending: Ring<Pending>
    var open: bool
    var delay: Nanoseconds
    var epoch: Option<SessionToken>
    var origin: Option<Nanoseconds>
    var accepted: nat
    var frames: nat
    ghost var published: seq<Pending>
    ghost var fed: seq<Frame>

    ghost function Repr(): set<object> {
      {this, pending, pending.slots}
    }

    ghost predicate Shaped()
      reads Repr()
    {
      pending.Valid() && pending.slots.Length == PENDING_CAPACITY
    }

    ghost function Abs(): Handoff
      requires Shaped()
      reads Repr()
    {
      Handoff(open, delay, epoch, origin, accepted, frames, pending.Contents(), published, fed)
    }

    ghost predicate Valid()
      reads Repr()
    {
      Shaped() && HandoffInv(Abs())
    }

    constructor (delay: Nanoseconds)
      requires DelayAllowed(delay)
      ensures Valid() && fresh(Repr()) && Abs() == NewHandoff(delay)
    {
      pending := new Ring(PENDING_CAPACITY);
      open, this.delay, epoch, origin, accepted, frames := true, delay, None, None, 0, 0;
      published, fed := [], [];
    }

    method Close()
      requires Shaped()
      modifies Repr()
      ensures Shaped() && Abs() == Revoke(old(Abs()))
    {
      open := false;
      pending.Clear();
    }

    /** The oldest block has been written. */
    method TakeWritten(p: Pending)
      requires Shaped() && pending.size > 0 && p == pending.Contents()[0]
      modifies Repr()
      ensures Shaped()
      ensures var h := old(Abs());
              Abs() == h.(pending := h.pending[1..], frames := h.frames + BLOCK, published := h.published + [p])
    {
      hide Ring.Contents;
      pending.DropFront(1);
      frames := frames + BLOCK;
      published := published + [p];
    }

    method FlushPending(now: Nanoseconds, writer: Writer) returns (ok: bool)
      requires Shaped()
      modifies Repr()
      ensures Shaped() && (ok, Abs()) == Flush(old(Abs()), now, writer)
    {
      hide Ring.Contents, Fresh;
      if !open || !writer.alive {
        return false;
      }
      var count := 0;
      while count < FLUSH_LIMIT && pending.size > 0
        invariant Shaped() && count <= FLUSH_LIMIT
        invariant FlushFrom(Abs(), count, now, writer) == FlushFrom(old(Abs()), 0, now, writer)
        decreases FLUSH_LIMIT - count
      {
        var p := pending.Get(0);
        if !Fresh(p.capture, now) || now > p.presentation {
          Close();
          return false;
        }
        var answer := Answer(writer, count);
        if answer == Busy {
          return true;
        }
        if answer == Refused {
          Close();
          return false;
        }
        TakeWritten(p);
        count := count + 1;
      }
      return true;
    }

    method Beat(now: Nanoseconds, writer: Writer, beat: WriteResult) returns (ok: bool)
      requires Valid()
      modifies Repr()
      ensures Valid() && (ok, Abs()) == Heartbeat(old(Abs()), now, writer, beat)
    {
      HeartbeatKeeps(Abs(), now, writer, beat);
      if now < 0 {
        Close();
        return false;
      }
      ok := FlushPending(now, writer);
      if ok && beat == Refused {
        Close();
        return false;
      }
    }

    method EnqueueSlices(pcm: seq<Frame>, now: Nanoseconds) returns (ok: bool)
      requires Shaped() && |pcm| % BLOCK == 0 && origin.Some? && |pcm| / BLOCK <= PENDING_CAPACITY - pending.size
      requires accepted + |pcm| <= U64_MAX
      modifies Repr()
      ensures Shaped() && (ok, Abs()) == EnqueueFrom(old(Abs()), pcm, 0, now)
    {
      hide Ring.Contents, SliceAt;
      var offset := 0;
      while offset < |pcm|
        invariant Shaped() && 0 <= offset <= |pcm| && offset % BLOCK == 0 && origin == old(origin) && accepted == old(accepted)
        invariant BLOCK * pending.size + |pcm| - offset <= BLOCK * PENDING_CAPACITY
        invariant EnqueueFrom(Abs(), pcm, offset, now) == EnqueueFrom(old(Abs()), pcm, 0, now)
      {
        var slice := MakeSlice(pcm, offset, now);
        if slice.None? {
          Close();
          return false;
        }
        pending.PushBack(slice.value);
        offset := offset + BLOCK;
      }
      return true;
    }

    method MakeSlice(pcm: seq<Frame>, offset: nat, now: Nanoseconds) returns (slice: Option<Pending>)
      requires Shaped() && offset + BLOCK <= |pcm| && origin.Some? && accepted + |pcm| <= U64_MAX
      ensures slice == SliceAt(Abs(), pcm, offset, now)
    {
      var grid := new RationalTimeline(origin.value, WIRE_RATE, 1);
      var capture := grid.At(accepted + offset);
      var presentation := if capture.Some? then CheckedAdd(capture.value, delay) else None;
      if presentation.None? || presentation.value < now {
        return None;
      }
      return Some(Pending(pcm[offset..offset + BLOCK], capture.value, presentation.value));
    }

    method ConsumeBlock(block: CorrectedAudio, pcm: seq<Frame>, now: Nanoseconds, writer: Writer) returns (ok: bool)
      requires Valid() && |pcm| <= U64_MAX
      modifies Repr()
      ensures Valid() && (ok, Abs()) == Consume(old(Abs()), block, pcm, now, writer)
    {
      hide HandoffInv, Fresh, AllFinite, EnqueueFrom, FlushFrom, Ring.Contents, Grid48;
      ConsumeKeeps(Abs(), block, pcm, now, writer);
      if !WellFormed(accepted, block, |pcm|) || !open || !writer.alive || now < 0
         || !AllFinite(pcm) || !Fresh(block.captureGrid, now) {
        Close();
        return false;
      }
      if epoch.None? {
        epoch, origin := Some(block.epoch), Some(block.captureGrid);
      }
      var onGrid := CheckGrid(block);
      if !onGrid || block.frames / BLOCK > PENDING_CAPACITY - pending.size {
        Close();
        return false;
      }
      ok := EnqueueSlices(pcm, now);
      if ok {
        accepted := accepted + block.frames;
        fed := fed + pcm;
        ok := FlushPending(now, writer);
      }
    }

    method CheckGrid(block: CorrectedAudio) returns (onGrid: bool)
      requires Shaped()
      ensures onGrid == OnHandoffGrid(Abs(), block)
    {
      if epoch != Some(block.epoch) || origin.None? || accepted > U64_MAX - block.frames {
        return false;
      }
      var grid := new RationalTimeline(origin.value, WIRE_RATE, 1);
      var expected := grid.At(accepted);
      return expected == Some(block.captureGrid);
    }
  }
}
