// What the handoff takes in and what it writes, in terms of the block, the clock and the writer alone
// (src/audio/audio_handoff.cpp).
module HandoffDecisions {
  import opened Timing
  import opened CorrectionSpec
  import opened AudioHandoff

  // ---- writing ---------------------------------------------------------------------------------

  /** A queued block that may still be written: captured at most 200 ms ago, and not past its presentation. */
  predicate Presentable(p: Pending, now: Nanoseconds) {
    -100_000_000 <= now - p.capture <= 200_000_000 && now <= p.presentation
  }

  lemma PresentableIsFresh(p: Pending, now: Nanoseconds)
    ensures Presentable(p, now) <==> Fresh(p.capture, now) && now <= p.presentation
  {
  }

  /**
   * n blocks have been written, the oldest, each while presentable and with the writer's consent.  Writing
   * went on until the call's eight answers were used, nothing was queued, or the writer was busy; or else it
   * ended with a block past its time or refused, and then the output is shut and what was queued is dropped.
   */
  ghost predicate Wrote(h: Handoff, from: nat, now: Nanoseconds, writer: Writer, n: nat, ok: bool, f: Handoff) {
    && n <= |h.pending| && from + n <= 8
    && (forall i {:trigger h.pending[i]} :: 0 <= i < n ==>
          Presentable(h.pending[i], now) && Answer(writer, from + i) == Written)
    && f.published == h.published + h.pending[..n] && f.frames == h.frames + 480 * n
    && (f.accepted, f.fed, f.epoch, f.origin, f.delay) == (h.accepted, h.fed, h.epoch, h.origin, h.delay)
    && f.open == ok
    && if ok then
         && f.pending == h.pending[n..]
         && (from + n == 8 || n == |h.pending| || (Presentable(h.pending[n], now) && Answer(writer, from + n) == Busy))
       else
         && f.pending == [] && from + n < 8 && n < |h.pending|
         && (!Presentable(h.pending[n], now) || Answer(writer, from + n) == Refused)
  }

  lemma {:induction false} FlushFromExact(h: Handoff, from: nat, now: Nanoseconds, writer: Writer) returns (n: nat)
    requires h.open && from <= 8
    ensures Wrote(h, from, now, writer, n, FlushFrom(h, from, now, writer).0, FlushFrom(h, from, now, writer).1)
    decreases FLUSH_LIMIT - from
  {
    n := 0;
    hide Presentable, Fresh;
    if from < 8 && h.pending != [] {
      var p := h.pending[0];
      PresentableIsFresh(p, now);
      if Fresh(p.capture, now) && now <= p.presentation && Answer(writer, from) == Written {
        var rest := h.(pending := h.pending[1..], frames := h.frames + BLOCK, published := h.published + [p]);
        var more := FlushFromExact(rest, from + 1, now, writer);
        n := more + 1;
        WroteOneMore(h, rest, from, now, writer, more, FlushFrom(h, from, now, writer).0, FlushFrom(h, from, now, writer).1);
      }
    }
  }

  lemma WroteOneMore(h: Handoff, rest: Handoff, from: nat, now: Nanoseconds, writer: Writer, more: nat, ok: bool, f: Handoff)
    requires h.pending != [] && Presentable(h.pending[0], now) && Answer(writer, from) == Written
    requires rest == h.(pending := h.pending[1..], frames := h.frames + 480, published := h.published + [h.pending[0]])
    requires Wrote(rest, from + 1, now, writer, more, ok, f)
    ensures Wrote(h, from, now, writer, more + 1, ok, f)
  {
    hide Presentable;
    var n := more + 1;
    assert |h.pending| == |rest.pending| + 1 && from + 1 + more == from + n;
    assert h.pending[..n] == [h.pending[0]] + rest.pending[..more] && h.pending[n..] == rest.pending[more..];
    assert rest.published + rest.pending[..more] == h.published + ([h.pending[0]] + rest.pending[..more]);
    assert f.frames == h.frames + 480 * n;
    forall i {:trigger h.pending[i]} | 0 <= i < n
      ensures Presentable(h.pending[i], now) && Answer(writer, from + i) == Written
    {
      if i > 0 {
        var next := rest.pending[i - 1];
        assert Presentable(next, now) && Answer(writer, from + 1 + (i - 1)) == Written;
        assert next == h.pending[i] && from + 1 + (i - 1) == from + i;
      }
    }
    if more < |rest.pending| {
      assert rest.pending[more] == h.pending[n];
    }
  }

  /** A heartbeat writes what it can, and then beats; a clock before zero, or a beat refused, shuts the output. */
  lemma HeartbeatExact(h: Handoff, now: Nanoseconds, writer: Writer, beat: WriteResult) returns (n: nat)
    requires h.open
    ensures var (ok, f) := Heartbeat(h, now, writer, beat);
            if now < 0 then !ok && f == h.(open := false, pending := [])
            else if !writer.alive then !ok && f == h
            else
              exists written, g :: Wrote(h, 0, now, writer, n, written, g)
                && ok == (written && beat != Refused)
                && f == if written && beat == Refused then g.(open := false, pending := []) else g
  {
    n := FlushFromExact(h, 0, now, writer);
    assert now >= 0 && writer.alive ==>
        Wrote(h, 0, now, writer, n, FlushFrom(h, 0, now, writer).0, FlushFrom(h, 0, now, writer).1);
  }

  // ---- taking in -------------------------------------------------------------------------------

  /** The j-th 480 frames of a block: 10 ms further on for each before it, and presented the delay later. */
  function Slice(block: CorrectedAudio, pcm: seq<Frame>, delay: Nanoseconds, j: nat): (int, int, seq<Frame>)
    requires 480 * (j + 1) <= |pcm|
  {
    (block.captureGrid + 10_000_000 * j, block.captureGrid + 10_000_000 * j + delay, pcm[480 * j..480 * (j + 1)])
  }

  /** A slice whose times exist, and whose presentation has not passed. */
  predicate Punctual(block: CorrectedAudio, delay: Nanoseconds, now: Nanoseconds, j: nat) {
    var capture := block.captureGrid + 10_000_000 * j;
    capture <= I64_MAX && now <= capture + delay <= I64_MAX
  }

  predicate AllPunctual(block: CorrectedAudio, delay: Nanoseconds, now: Nanoseconds) {
    forall j :: 0 <= j < block.frames / 480 ==> Punctual(block, delay, now, j)
  }

  /** Everything a block must be to be taken in. */
  ghost predicate Admissible(h: Handoff, block: CorrectedAudio, pcm: seq<Frame>, now: Nanoseconds, writer: Writer) {
    && h.open && writer.alive && now >= 0
    && block.epoch.Valid() && 0 < block.frames <= 3_840 && block.frames % 480 == 0 && |pcm| == block.frames
    && block.firstFrame == h.accepted && h.accepted + block.frames <= U64_MAX
    && (forall i :: 0 <= i < |pcm| ==> pcm[i].left.Finite? && pcm[i].right.Finite?)
    && block.captureGrid >= 0 && -100_000_000 <= now - block.captureGrid <= 200_000_000
    && (h.epoch.Some? ==> block.epoch == h.epoch.value)
    && (h.origin.Some? ==> block.captureGrid == h.origin.value + h.accepted * 1_000_000_000 / 48_000)
    && |h.pending| + block.frames / 480 <= 16
    && AllPunctual(block, h.delay, now)
  }

  /** The queue with a block's slices behind it, and the account of what was taken in with the block's frames. */
  ghost predicate TookIn(h: Handoff, block: CorrectedAudio, pcm: seq<Frame>, q: Handoff) {
    && q.open && q.accepted == h.accepted + block.frames && q.fed == h.fed + pcm
    && (q.published, q.frames, q.delay) == (h.published, h.frames, h.delay)
    && q.epoch == Some(block.epoch) && q.origin == (if h.origin.Some? then h.origin else Some(block.captureGrid))
    && |q.pending| == |h.pending| + block.frames / 480 && h.pending <= q.pending && |pcm| == block.frames
    && forall j :: 0 <= j < block.frames / 480 ==>
         var p := q.pending[|h.pending| + j];
         (p.capture, p.presentation, p.pcm) == Slice(block, pcm, h.delay, j)
  }

  /** On the grid, frame accepted + 480 j of the output lies 10 ms * j after the block. */
  lemma SliceGrid(origin: Nanoseconds, accepted: nat, capture: Nanoseconds, j: nat)
    requires accepted % 480 == 0 && Grid48(origin, accepted) == Some(capture)
    ensures Grid48(origin, accepted + 480 * j) ==
            if capture + 10_000_000 * j <= I64_MAX then Some(capture + 10_000_000 * j) else None
  {
    var k := accepted / 480;
    assert accepted == 480 * k && accepted + 480 * j == 480 * (k + j);
    QuantumGridExact(origin, k);
    QuantumGridExact(origin, k + j);
  }

  /** A handoff on the grid of a block of whole slices. */
  ghost predicate OnGridOf(a: Handoff, block: CorrectedAudio, pcm: seq<Frame>) {
    && a.origin.Some? && a.accepted % 480 == 0 && Grid48(a.origin.value, a.accepted) == Some(block.captureGrid)
    && |pcm| == block.frames && block.frames % 480 == 0
  }

  lemma SliceExact(a: Handoff, block: CorrectedAudio, pcm: seq<Frame>, now: Nanoseconds, j: nat)
    requires OnGridOf(a, block, pcm) && j < block.frames / 480
    ensures 480 * (j + 1) <= |pcm|
    ensures SliceAt(a, pcm, 480 * j, now).Some? <==> Punctual(block, a.delay, now, j)
    ensures SliceAt(a, pcm, 480 * j, now).Some? ==>
              var p := SliceAt(a, pcm, 480 * j, now).value;
              (p.capture, p.presentation, p.pcm) == Slice(block, pcm, a.delay, j)
  {
    SliceGrid(a.origin.value, a.accepted, block.captureGrid, j);
    hide Grid48;
  }

  lemma {:induction false} EnqueueExact(a: Handoff, block: CorrectedAudio, pcm: seq<Frame>, now: Nanoseconds, j: nat)
    requires OnGridOf(a, block, pcm) && j <= block.frames / 480 && a.open
    ensures 480 * j <= |pcm|
    ensures var (ok, q) := EnqueueFrom(a, pcm, 480 * j, now); var n := block.frames / 480;
            && (ok <==> forall i :: j <= i < n ==> Punctual(block, a.delay, now, i))
            && (ok ==>
                  && q == a.(pending := q.pending) && a.pending <= q.pending && |q.pending| == |a.pending| + n - j
                  && forall i :: j <= i < n ==>
                       var p := q.pending[|a.pending| + i - j];
                       480 * (i + 1) <= |pcm| && (p.capture, p.presentation, p.pcm) == Slice(block, pcm, a.delay, i))
            && (!ok ==> q == a.(open := false, pending := []))
    decreases block.frames / 480 - j
  {
    hide Punctual, Slice, SliceAt;
    var n := block.frames / 480;
    if j < n {
      SliceExact(a, block, pcm, now, j);
      var slice := SliceAt(a, pcm, 480 * j, now);
      if slice.Some? {
        var b := a.(pending := a.pending + [slice.value]);
        assert OnGridOf(b, block, pcm);
        EnqueueExact(b, block, pcm, now, j + 1);
        var (ok, q) := EnqueueFrom(b, pcm, 480 * (j + 1), now);
        assert EnqueueFrom(a, pcm, 480 * j, now) == (ok, q);
        if ok {
          forall i | j <= i < n
            ensures var p := q.pending[|a.pending| + i - j];
                    480 * (i + 1) <= |pcm| && (p.capture, p.presentation, p.pcm) == Slice(block, pcm, a.delay, i)
          {
            if i > j {
              assert |a.pending| + i - j == |b.pending| + i - (j + 1);
            }
          }
        }
      }
    }
  }

  /** The program's tests before it cuts a block into slices. */
  predicate Checked(h: Handoff, block: CorrectedAudio, pcm: seq<Frame>, now: Nanoseconds, writer: Writer) {
    && WellFormed(h.accepted, block, |pcm|) && Timely(h, block, pcm, now, writer)
    && OnHandoffGrid(Adopt(h, block), block) && RoomFor(Adopt(h, block), block)
  }

  lemma TakesIn(h: Handoff, block: CorrectedAudio, pcm: seq<Frame>, now: Nanoseconds)
    requires OnGridOf(Adopt(h, block), block, pcm) && h.open && Adopt(h, block).epoch == Some(block.epoch)
    requires h.epoch.None? ==> h.origin.None?
    requires h.epoch.Some? ==> h.origin.Some?
    ensures var (ok, e) := EnqueueFrom(Adopt(h, block), pcm, 0, now);
            && (ok <==> AllPunctual(block, h.delay, now))
            && if ok then e.open && TookIn(h, block, pcm, e.(accepted := e.accepted + block.frames, fed := e.fed + pcm))
               else
                 && !e.open && e.pending == []
                 && (e.published, e.accepted, e.fed, e.frames) == (h.published, h.accepted, h.fed, h.frames)
  {
    EnqueueExact(Adopt(h, block), block, pcm, now, 0);
    hide EnqueueFrom, Punctual, Slice, Grid48;
  }

  lemma AdoptedTogether(h: Handoff)
    requires HandoffInv(h)
    ensures h.epoch.None? <==> h.origin.None?
  {
  }

  lemma AdmissibleQueued(h: Handoff, block: CorrectedAudio, pcm: seq<Frame>, now: Nanoseconds, writer: Writer)
    returns (q: Handoff)
    requires HandoffInv(h) && Checked(h, block, pcm, now, writer) && AllPunctual(block, h.delay, now)
    ensures TookIn(h, block, pcm, q) && q.open && writer.alive && Consume(h, block, pcm, now, writer) == Flush(q, now, writer)
  {
    hide EnqueueFrom, Flush, HandoffInv, TookIn, Checked, Admissible, Consume, OnGridOf, AllPunctual;
    Admits(h, block, pcm, now, writer);
    ConsumeSteps(h, block, pcm, now, writer);
    AdoptedTogether(h);
    TakesIn(h, block, pcm, now);
    hide Adopt;
    var e := EnqueueFrom(Adopt(h, block), pcm, 0, now).1;
    q := e.(accepted := e.accepted + block.frames, fed := e.fed + pcm);
  }

  lemma AdmissibleTaken(h: Handoff, block: CorrectedAudio, pcm: seq<Frame>, now: Nanoseconds, writer: Writer)
    returns (q: Handoff, n: nat)
    requires HandoffInv(h) && Checked(h, block, pcm, now, writer) && AllPunctual(block, h.delay, now)
    ensures var (ok, c) := Consume(h, block, pcm, now, writer);
            TookIn(h, block, pcm, q) && Wrote(q, 0, now, writer, n, ok, c)
  {
    hide FlushFrom, HandoffInv, TookIn, Wrote, Checked, Consume, AllPunctual;
    q := AdmissibleQueued(h, block, pcm, now, writer);
    n := FlushFromExact(q, 0, now, writer);
  }

  lemma OthersRefused(h: Handoff, block: CorrectedAudio, pcm: seq<Frame>, now: Nanoseconds, writer: Writer)
    requires HandoffInv(h) && !(Checked(h, block, pcm, now, writer) && AllPunctual(block, h.delay, now))
    ensures var (ok, c) := Consume(h, block, pcm, now, writer);
            && !ok && !c.open && c.pending == []
            && (c.published, c.accepted, c.fed, c.frames) == (h.published, h.accepted, h.fed, h.frames)
  {
    hide EnqueueFrom, Flush, HandoffInv, TookIn, Checked, Admissible, Consume, OnGridOf, AllPunctual, Adopt;
    Admits(h, block, pcm, now, writer);
    ConsumeSteps(h, block, pcm, now, writer);
    AdoptedTogether(h);
    if Checked(h, block, pcm, now, writer) {
      TakesIn(h, block, pcm, now);
    }
  }

  /**
   * One block: it is taken in exactly when it is admissible, and then as its slices behind what is queued, in
   * order, on the grid, with nothing of it lost; then as much is written as can be.  Any other block shuts the
   * output: nothing of it is taken in, and what was queued is dropped.
   */
  lemma ConsumeExact(h: Handoff, block: CorrectedAudio, pcm: seq<Frame>, now: Nanoseconds, writer: Writer)
    returns (q: Handoff, n: nat)
    requires HandoffInv(h)
    ensures var (ok, c) := Consume(h, block, pcm, now, writer);
            if Admissible(h, block, pcm, now, writer) then TookIn(h, block, pcm, q) && Wrote(q, 0, now, writer, n, ok, c)
            else
              && !ok && !c.open && c.pending == []
              && (c.published, c.accepted, c.fed, c.frames) == (h.published, h.accepted, h.fed, h.frames)
  {
    hide *;
    q, n := h, 0;
    Admits(h, block, pcm, now, writer);
    if Admissible(h, block, pcm, now, writer) {
      q, n := AdmissibleTaken(h, block, pcm, now, writer);
    } else {
      OthersRefused(h, block, pcm, now, writer);
    }
  }

  lemma ConsumeSteps(h: Handoff, block: CorrectedAudio, pcm: seq<Frame>, now: Nanoseconds, writer: Writer)
    ensures Checked(h, block, pcm, now, writer) ==>
              && |pcm| % 480 == 0 && Adopt(h, block).origin.Some? && Adopt(h, block).epoch == Some(block.epoch)
              && |pcm| == block.frames && writer.alive
              && var (ok, q) := EnqueueFrom(Adopt(h, block), pcm, 0, now);
                 Consume(h, block, pcm, now, writer) ==
                 if !ok then (false, q)
                 else Flush(q.(accepted := q.accepted + block.frames, fed := q.fed + pcm), now, writer)
    ensures !Checked(h, block, pcm, now, writer) ==>
              var (ok, c) := Consume(h, block, pcm, now, writer);
              && !ok && !c.open && c.pending == []
              && (c.published, c.accepted, c.fed, c.frames) == (h.published, h.accepted, h.fed, h.frames)
  {
    hide EnqueueFrom, FlushFrom, AllFinite, Fresh, Grid48;
  }

  lemma Admits(h: Handoff, block: CorrectedAudio, pcm: seq<Frame>, now: Nanoseconds, writer: Writer)
    requires HandoffInv(h)
    ensures Checked(h, block, pcm, now, writer) ==> OnGridOf(Adopt(h, block), block, pcm) && h.open
    ensures Admissible(h, block, pcm, now, writer) <==>
              Checked(h, block, pcm, now, writer) && AllPunctual(block, h.delay, now)
  {
    hide Stamped, PcmOf, Punctual;
  }
}
