// The OBS audio source: presentation times to sample indices and back, and the cursor that fills, trims
// and jumps so that every emitted block sits on one sample grid (plugins/obs/adapter.cpp).
module ObsGrid {
  import opened Timing

  const RATE: nat := 48_000
  const BLOCK_FRAMES: nat := 480
  const BLOCK_NS: int := 10_000_000
  const MAX_FILL_FRAMES: nat := 4_800
  const SAMPLE_CEILING_NS: int := 20_834
  const MAX_LEAD_NS: int := 100_000_000
  const RESYNC_NS: int := 100_000_000
  const MAX_STARVATION_FILLS: nat := 8

  // ---- the grid --------------------------------------------------------------------------

  /** The nearest sample to a distance from the epoch, ties up. */
  function Nearest(delta: nat): nat {
    (delta * RATE + NS_PER_SECOND / 2) / NS_PER_SECOND
  }

  /** When sample number index starts, rounded down to a nanosecond. */
  function Starts(index: nat): nat {
    index * NS_PER_SECOND / RATE
  }

  /**
   * The overflow guards of the conversion never reject anything: every time at or after the epoch
   * has an index, and it is the nearest one.
   */
  function SampleIndex(epoch: Nanoseconds, timestamp: Nanoseconds): (r: Option<int>)
    ensures r == if epoch < 0 || timestamp < epoch then None else Some(Nearest(timestamp - epoch))
    ensures r.Some? ==> 0 <= r.value <= U64_MAX
  {
    if epoch < 0 || timestamp < epoch then None
    else
      var delta := timestamp - epoch;
      var seconds, remainder := delta / NS_PER_SECOND, delta % NS_PER_SECOND;
      if seconds > U64_MAX / RATE then None
      else
        var whole := seconds * RATE;
        var part := (remainder * RATE + NS_PER_SECOND / 2) / NS_PER_SECOND;
        if whole > U64_MAX - part then None else Some(whole + part)
  }

  /** Here the guards reject exactly the instants that are not representable. */
  function GridTimestamp(epoch: Nanoseconds, index: u64): (r: Option<Nanoseconds>)
    ensures r == if epoch < 0 || epoch + Starts(index) > I64_MAX then None else Some(epoch + Starts(index))
  {
    if epoch < 0 then None
    else
      var seconds, remainder := index / RATE, index % RATE;
      if seconds > I64_MAX / NS_PER_SECOND then None
      else
        var whole := seconds * NS_PER_SECOND;
        var part := remainder * NS_PER_SECOND / RATE;
        if whole > I64_MAX - part then None
        else if epoch > I64_MAX - (whole + part) then None
        else Some(epoch + whole + part)
  }

  /** Rounding down to a nanosecond and then to the nearest sample gives the sample back. */
  lemma RoundTrip(epoch: Nanoseconds, index: u64)
    requires GridTimestamp(epoch, index).Some?
    ensures SampleIndex(epoch, GridTimestamp(epoch, index).value) == Some(index)
  {
  }

  /** The other way round, a time moves by at most half a sample and the nanosecond rounded off. */
  lemma RoundTripNear(epoch: Nanoseconds, timestamp: Nanoseconds)
    requires SampleIndex(epoch, timestamp).Some? && GridTimestamp(epoch, SampleIndex(epoch, timestamp).value).Some?
    ensures -10_417 <= GridTimestamp(epoch, SampleIndex(epoch, timestamp).value).value - timestamp <= 10_416
  {
  }

  lemma Monotone(a: nat, b: nat)
    requires a <= b
    ensures Nearest(a) <= Nearest(b) && Starts(a) <= Starts(b)
  {
  }

  /** Distinct samples start at least 20833 ns apart. */
  lemma Spread(a: nat, b: nat)
    requires a < b
    ensures Starts(b) - Starts(a) >= 20_833 * (b - a)
  {
  }

  function BoundedAdd(base: int, increment: int): (r: int)
    ensures r == if base + increment > I64_MAX then I64_MAX else base + increment
  {
    if base > I64_MAX - increment then I64_MAX else base + increment
  }

  // ---- emitted audio ---------------------------------------------------------------------

  datatype Sample = Finite(value: real) | NonFinite

  /** What OBS is handed: where on the grid it starts, for how many frames, when, what, and whether it is from a block. */
  datatype Emission = Emission(start: nat, frames: nat, timestamp: Nanoseconds, samples: seq<Sample>, media: bool)

  /** The frame header the source receives with a block. */
  datatype FrameInfo = FrameInfo(presentation: Nanoseconds, capture: Nanoseconds, frames: u32, bytes: u32)

  /** A source: its grid, the next sample it will emit, its two counters, and what it has emitted so far. */
  datatype Player = Player(channels: nat, epoch: Nanoseconds, cursor: u64, output: nat, fill: nat, log: seq<Emission>)

  /**
   * The two calls of the source's thread, with what they find: a block, the mute switch, and the clock at
   * each submission; or the clock at a starvation check and at each block of silence it may submit.
   */
  datatype Call =
    | Block(pcm: seq<Sample>, frame: FrameInfo, muted: bool, cutoff: Nanoseconds,
            fillNow: Nanoseconds, playNow: Nanoseconds, lead: nat)
    | Starve(now: Nanoseconds, nows: seq<Nanoseconds>, lead: nat)

  const SILENT: Sample := Finite(0.0)

  function Start(channels: nat): Player {
    Player(channels, -1, 0, 0, 0, [])
  }

  /** A call as the thread makes it: a lead of at most 100 ms, whole blocks, eight tries at most. */
  predicate Made(channels: nat, c: Call) {
    && c.lead <= MAX_LEAD_NS
    && match c
       case Block(pcm, _, _, _, _, _, _) => |pcm| == BLOCK_FRAMES * channels
       case Starve(_, nows, _) => |nows| == MAX_STARVATION_FILLS
  }

  function Sanitized(s: Sample): Sample {
    match s
    case NonFinite => SILENT
    case Finite(x) => Finite(if x < -1.0 then -1.0 else if x > 1.0 then 1.0 else x)
  }

  function Silence(n: nat): seq<Sample> {
    seq(n, i => SILENT)
  }

  function Clean(pcm: seq<Sample>): (r: seq<Sample>)
    ensures |r| == |pcm| && forall i :: 0 <= i < |r| ==> r[i].Finite? && -1.0 <= r[i].value <= 1.0
  {
    seq(|pcm|, i requires 0 <= i < |pcm| => Sanitized(pcm[i]))
  }

  /** Muted, or captured before the last mute change: only the microphone, the mono source, is private. */
  predicate Private(channels: nat, muted: bool, capture: Nanoseconds, cutoff: Nanoseconds) {
    channels == 1 && (muted || capture < cutoff)
  }

  /** The block as it may be heard. */
  function Prepared(channels: nat, b: Call): (r: seq<Sample>)
    requires b.Block?
    ensures |r| == |b.pcm|
  {
    if Private(channels, b.muted, b.frame.capture, b.cutoff) then Silence(|b.pcm|) else Clean(b.pcm)
  }

  lemma Times(a: nat, b: nat, c: nat)
    ensures (a + b) * c == a * c + b * c && a * c >= 0 && b * c >= 0
  {
  }

  /** A block without its first frames. */
  function Rest(pcm: seq<Sample>, channels: nat, skip: nat): (r: seq<Sample>)
    requires |pcm| == BLOCK_FRAMES * channels && skip <= BLOCK_FRAMES
    ensures |r| == (BLOCK_FRAMES - skip) * channels
  {
    Times(skip, BLOCK_FRAMES - skip, channels);
    pcm[skip * channels..]
  }

  /** One frame of interleaved samples. */
  function Frame(pcm: seq<Sample>, channels: nat, frames: nat, k: nat): (r: seq<Sample>)
    requires |pcm| == frames * channels && k < frames
    ensures |r| == channels
  {
    Times(k, frames - k, channels);
    Times(1, frames - k - 1, channels);
    var at := k * channels;
    pcm[at..at + channels]
  }

  // ---- one call, as a step -----------------------------------------------------------------

  /** What the source can hand over now: a start that is representable and not too far ahead. */
  predicate CanSubmit(p: Player, frames: int, now: Nanoseconds, lead: int) {
    && frames > 0 && p.epoch >= 0
    && p.epoch + Starts(p.cursor) <= I64_MAX && p.cursor <= U64_MAX - frames
    && p.epoch + Starts(p.cursor) <= BoundedAdd(now, lead + SAMPLE_CEILING_NS)
  }

  function Submitted(p: Player, samples: seq<Sample>, frames: nat, now: Nanoseconds, lead: nat, media: bool): Player {
    if !CanSubmit(p, frames, now, lead) then p
    else p.(cursor := p.cursor + frames, output := p.output + frames,
            log := p.log + [Emission(p.cursor, frames, p.epoch + Starts(p.cursor), samples, media)])
  }

  function Silenced(p: Player, frames: nat, now: Nanoseconds, lead: nat): Player {
    if !CanSubmit(p, frames, now, lead) then p
    else Submitted(p, Silence(frames * p.channels), frames, now, lead, false).(fill := p.fill + frames)
  }

  function Later(a: nat, b: nat): nat {
    if a < b then b else a
  }

  /** Short of its target the cursor is filled up to it with silence, or jumps there if that is over 100 ms away. */
  function Closed(p: Player, target: u64, now: Nanoseconds, lead: nat): Player {
    if p.cursor < target <= p.cursor + MAX_FILL_FRAMES then Silenced(p, target - p.cursor, now, lead)
    else p.(cursor := Later(p.cursor, target))
  }

  /** From a cursor at or after its first sample, what is left of a block is emitted. */
  function Played(p: Player, b: Call, target: u64): Player
    requires b.Block? && Made(p.channels, b) && target <= p.cursor
  {
    if p.cursor >= target + BLOCK_FRAMES then p
    else Submitted(p, Rest(Prepared(p.channels, b), p.channels, p.cursor - target),
                   target + BLOCK_FRAMES - p.cursor, b.playNow, b.lead, true)
  }

  /** A header the source accepts for a block of this many samples. */
  predicate Usable(frame: FrameInfo, samples: nat) {
    frame.presentation >= 0 && frame.capture >= 0 && frame.frames == BLOCK_FRAMES && frame.bytes == 4 * samples
  }

  /** The first block that is usable fixes the grid. */
  function Anchored(p: Player, b: Call): Player
    requires b.Block?
  {
    if Usable(b.frame, |b.pcm|) && p.epoch < 0 then p.(epoch := b.frame.presentation) else p
  }

  function Placed(p: Player, b: Call, target: u64): Player
    requires b.Block? && Made(p.channels, b)
  {
    var q := Closed(p, target, b.fillNow, b.lead);
    if q.cursor < target then p else Played(q, b, target)
  }

  function Processed(p: Player, b: Call): Player
    requires b.Block? && Made(p.channels, b)
  {
    var q := Anchored(p, b);
    if !Usable(b.frame, |b.pcm|) then q
    else match SampleIndex(q.epoch, b.frame.presentation)
      case None => q
      case Some(target) => Placed(q, b, target)
  }

  /** Over 100 ms behind the present, the source gives up the gap and resumes there. */
  function Resumed(p: Player, now: Nanoseconds): Player
    requires p.epoch >= 0
  {
    if p.epoch + Starts(p.cursor) < now - RESYNC_NS then p.(cursor := SampleIndex(p.epoch, now).value) else p
  }

  predicate Low(p: Player, now: Nanoseconds, lead: nat)
    requires lead <= MAX_LEAD_NS
  {
    && p.epoch + Starts(p.cursor) <= I64_MAX
    && p.epoch + Starts(p.cursor) <= BoundedAdd(now, if lead > BLOCK_NS then lead - BLOCK_NS else 0)
  }

  /** Silence block by block, while the cursor is at or below the low-water mark and tries are left. */
  function Filled(p: Player, now: Nanoseconds, nows: seq<Nanoseconds>, lead: nat): Player
    requires lead <= MAX_LEAD_NS
    decreases |nows|
  {
    if nows == [] || !Low(p, now, lead) || !CanSubmit(p, BLOCK_FRAMES, nows[0], lead) then p
    else Filled(Silenced(p, BLOCK_FRAMES, nows[0], lead), now, nows[1..], lead)
  }

  function Starved(p: Player, s: Call): Player
    requires s.Starve? && Made(p.channels, s)
  {
    if p.epoch < 0 || p.epoch + Starts(p.cursor) > I64_MAX then p
    else Filled(Resumed(p, s.now), s.now, s.nows, s.lead)
  }

  function After(p: Player, c: Call): (q: Player)
    requires Made(p.channels, c)
    ensures q.channels == p.channels
  {
    FillsKeepChannels(p, c);
    if c.Block? then Processed(p, c) else Starved(p, c)
  }

  lemma FilledKeepsChannels(p: Player, now: Nanoseconds, nows: seq<Nanoseconds>, lead: nat)
    requires lead <= MAX_LEAD_NS
    ensures Filled(p, now, nows, lead).channels == p.channels
    decreases |nows|
  {
    if nows != [] {
      FilledKeepsChannels(Silenced(p, BLOCK_FRAMES, nows[0], lead), now, nows[1..], lead);
    }
  }

  lemma FillsKeepChannels(p: Player, c: Call)
    requires Made(p.channels, c)
    ensures c.Starve? ==> Starved(p, c).channels == p.channels
  {
    if c.Starve? && p.epoch >= 0 {
      FilledKeepsChannels(Resumed(p, c.now), c.now, c.nows, c.lead);
    }
  }

  ghost predicate AllMade(channels: nat, calls: seq<Call>) {
    forall i :: 0 <= i < |calls| ==> Made(channels, calls[i])
  }

  /** A run of the source's thread. */
  ghost function Run(p: Player, calls: seq<Call>): (q: Player)
    requires AllMade(p.channels, calls)
    ensures q.channels == p.channels
    decreases |calls|
  {
    if calls == [] then p else After(Run(p, calls[..|calls| - 1]), calls[|calls| - 1])
  }

  // ---- the source itself -------------------------------------------------------------------

  class AudioSource {
    const channels: nat
    var epoch: Nanoseconds
    var cursor: u64
    var outputSamples: nat
    var fillSamples: nat
    ghost var log: seq<Emission>

    constructor (channels: nat)
      ensures Abs() == Start(channels)
    {
      this.channels := channels;
      epoch, cursor, outputSamples, fillSamples := -1, 0, 0, 0;
      log := [];
    }

    ghost function Abs(): Player
      reads this
    {
      Player(channels, epoch, cursor, outputSamples, fillSamples, log)
    }

    /** Hand over samples at the cursor, if it is time to: all of them or nothing at all. */
    method Submit(pcm: array<Sample>, offset: nat, frames: nat, now: Nanoseconds, lead: nat, ghost media: bool)
      returns (ok: bool)
      requires lead <= MAX_LEAD_NS && offset + frames * channels <= pcm.Length && frames <= U32_MAX
      modifies this`cursor, this`outputSamples, this`log
      ensures ok == CanSubmit(old(Abs()), frames, now, lead)
      ensures Abs() == Submitted(old(Abs()), pcm[offset..offset + frames * channels], frames, now, lead, media)
    {
      var timestamp := GridTimestamp(epoch, cursor);
      if frames == 0 || timestamp.None? || cursor > U64_MAX - frames {
        return false;
      }
      if timestamp.value > BoundedAdd(now, lead + SAMPLE_CEILING_NS) {
        return false;
      }
      log := log + [Emission(cursor, frames, timestamp.value, pcm[offset..offset + frames * channels], media)];
      cursor, outputSamples := cursor + frames, outputSamples + frames;
      return true;
    }

    /** Hand over silence and count it. */
    method Fill(silence: array<Sample>, frames: nat, now: Nanoseconds, lead: nat) returns (ok: bool)
      requires lead <= MAX_LEAD_NS && frames <= MAX_FILL_FRAMES
      requires silence.Length == MAX_FILL_FRAMES * channels && silence[..] == Silence(silence.Length)
      modifies this`cursor, this`outputSamples, this`fillSamples, this`log
      ensures ok == CanSubmit(old(Abs()), frames, now, lead)
      ensures Abs() == Silenced(old(Abs()), frames, now, lead) && (!ok ==> Abs() == old(Abs()))
    {
      hide Starts, CanSubmit;
      Times(frames, MAX_FILL_FRAMES - frames, channels);
      ghost var samples := frames * channels;
      assert silence[0..samples] == silence[..][..samples] == Silence(samples);
      ok := Submit(silence, 0, frames, now, lead, false);
      if ok {
        fillSamples := fillSamples + frames;
      }
    }

    method Mute(pcm: array<Sample>)
      modifies pcm
      ensures pcm[..] == Silence(pcm.Length)
    {
      for i := 0 to pcm.Length
        invariant forall j :: 0 <= j < i ==> pcm[j] == SILENT
      {
        pcm[i] := SILENT;
      }
    }

    method Clamp(pcm: array<Sample>)
      modifies pcm
      ensures pcm[..] == Clean(old(pcm[..]))
    {
      for i := 0 to pcm.Length
        invariant forall j :: 0 <= j < i ==> pcm[j] == Sanitized(old(pcm[j]))
        invariant forall j :: i <= j < pcm.Length ==> pcm[j] == old(pcm[j])
      {
        pcm[i] := Sanitized(pcm[i]);
      }
    }

    /** Silence on the microphone while muted, or for audio captured before the last mute change. */
    method Protect(pcm: array<Sample>, private_: bool)
      modifies pcm
      ensures pcm[..] == if private_ then Silence(pcm.Length) else Clean(old(pcm[..]))
    {
      if private_ {
        Mute(pcm);
      } else {
        Clamp(pcm);
      }
    }

    /** Bring the cursor to the block's own index: fill, jump, or stay for a trim. */
    method CloseGap(silence: array<Sample>, target: u64, now: Nanoseconds, lead: nat) returns (ready: bool)
      requires lead <= MAX_LEAD_NS
      requires silence.Length == MAX_FILL_FRAMES * channels && silence[..] == Silence(silence.Length)
      modifies this`cursor, this`outputSamples, this`fillSamples, this`log
      ensures Abs() == Closed(old(Abs()), target, now, lead)
      ensures ready <==> cursor >= target
      ensures !ready ==> Abs() == old(Abs())
    {
      if target > cursor {
        var gap := target - cursor;
        if gap <= MAX_FILL_FRAMES {
          var ok := Fill(silence, gap, now, lead);
          return ok;
        }
        cursor := target;
      }
      return true;
    }

    /** Emit what of a block lies at or after the cursor. */
    method PlayBlock(pcm: array<Sample>, target: u64, ghost b: Call, frame: FrameInfo, muted: bool, cutoff: Nanoseconds,
                     now: Nanoseconds, lead: nat)
      requires b.Block? && Made(channels, b) && target <= cursor
      requires b.pcm == pcm[..] && (b.frame, b.muted, b.cutoff, b.playNow, b.lead) == (frame, muted, cutoff, now, lead)
      modifies this`cursor, this`outputSamples, this`log, pcm
      ensures Abs() == Played(old(Abs()), b, target)
    {
      hide Starts, CanSubmit;
      var skip := if cursor - target < BLOCK_FRAMES then cursor - target else BLOCK_FRAMES;
      if skip == BLOCK_FRAMES {
        return;
      }
      Protect(pcm, channels == 1 && (muted || frame.capture < cutoff));
      assert pcm[..] == Prepared(channels, b);
      var offset, frames := skip * channels, BLOCK_FRAMES - skip;
      assert offset + frames * channels == pcm.Length by { Times(skip, frames, channels); }
      assert pcm[offset..offset + frames * channels] == pcm[..][offset..];
      var ok := Submit(pcm, offset, frames, now, lead, true);
    }

    /** One block: fix the grid if none is fixed, close the gap before the block, and play what is left of it. */
    method ProcessFrame(pcm: array<Sample>, silence: array<Sample>, frame: FrameInfo, muted: bool, cutoff: Nanoseconds,
                        fillNow: Nanoseconds, playNow: Nanoseconds, lead: nat)
      requires lead <= MAX_LEAD_NS && pcm.Length == BLOCK_FRAMES * channels && pcm != silence
      requires silence.Length == MAX_FILL_FRAMES * channels && silence[..] == Silence(silence.Length)
      modifies this, pcm
      ensures Abs() == After(old(Abs()), Block(old(pcm[..]), frame, muted, cutoff, fillNow, playNow, lead))
    {
      hide Starts, CanSubmit, Nearest, Played, Silenced;
      ghost var b := Block(pcm[..], frame, muted, cutoff, fillNow, playNow, lead);
      if !Usable(frame, pcm.Length) {
        return;
      }
      if epoch < 0 {
        epoch := frame.presentation;
      }
      var target := SampleIndex(epoch, frame.presentation);
      if target.None? {
        return;
      }
      var ready := CloseGap(silence, target.value, fillNow, lead);
      if ready {
        PlayBlock(pcm, target.value, b, frame, muted, cutoff, playNow, lead);
      }
    }

    /** If the cursor is more than 100 ms behind, it moves to the present. */
    method Resync(now: Nanoseconds) returns (ready: bool)
      modifies this`cursor
      ensures ready <==> epoch >= 0 && epoch + Starts(old(cursor)) <= I64_MAX
      ensures Abs() == if ready then Resumed(old(Abs()), now) else old(Abs())
    {
      if epoch < 0 {
        return false;
      }
      var timestamp := GridTimestamp(epoch, cursor);
      if timestamp.None? {
        return false;
      }
      if timestamp.value < now && now - timestamp.value > RESYNC_NS {
        var present := SampleIndex(epoch, now);
        cursor := present.value;
      }
      return true;
    }

    /** Silence ahead of starvation. */
    method FillStarvation(silence: array<Sample>, now: Nanoseconds, nows: seq<Nanoseconds>, lead: nat)
      requires lead <= MAX_LEAD_NS && |nows| == MAX_STARVATION_FILLS
      requires silence.Length == MAX_FILL_FRAMES * channels && silence[..] == Silence(silence.Length)
      modifies this`cursor, this`outputSamples, this`fillSamples, this`log
      ensures Abs() == After(old(Abs()), Starve(now, nows, lead))
    {
      hide CanSubmit, Silenced, Resumed;
      var ready := Resync(now);
      if !ready {
        return;
      }
      ghost var result := Filled(Abs(), now, nows, lead);
      for i := 0 to MAX_STARVATION_FILLS
        invariant epoch == old(epoch) && epoch >= 0
        invariant Filled(Abs(), now, nows[i..], lead) == result
      {
        var timestamp := GridTimestamp(epoch, cursor);
        if timestamp.None? || timestamp.value > BoundedAdd(now, if lead > BLOCK_NS then lead - BLOCK_NS else 0) {
          break;
        }
        assert nows[i..][0] == nows[i] && nows[i..][1..] == nows[i + 1..];
        var ok := Fill(silence, BLOCK_FRAMES, nows[i], lead);
        if !ok {
          break;
        }
      }
    }
  }

  // ---- what every run of the source keeps --------------------------------------------------

  /** The frames emitted from blocks, or as silence between them. */
  function Total(log: seq<Emission>, media: bool): nat
    decreases |log|
  {
    if log == [] then 0
    else
      var last := log[|log| - 1];
      Total(log[..|log| - 1], media) + if last.media == media then last.frames else 0
  }

  /** Where the first i emissions end; before any, where the grid starts. */
  function EndAt(log: seq<Emission>, i: nat): nat
    requires i <= |log|
  {
    if i == 0 then 0 else log[i - 1].start + log[i - 1].frames
  }

  /** From an end, no hole or one of at least 100 ms: shorter gaps are filled. */
  predicate Joins(end: nat, start: nat) {
    start == end || start >= end + MAX_FILL_FRAMES
  }

  /** No hole of less than 100 ms between emissions, nor before the cursor. */
  ghost predicate Tight(cursor: nat, log: seq<Emission>) {
    && (forall i {:trigger EndAt(log, i)} :: 0 <= i < |log| ==> Joins(EndAt(log, i), log[i].start))
    && Joins(EndAt(log, |log|), cursor)
  }

  /** Emissions lie on the grid of one epoch, one after the other and never over one another. */
  ghost predicate Laid(channels: nat, epoch: Nanoseconds, cursor: nat, log: seq<Emission>) {
    && (forall i :: 0 <= i < |log| ==>
          && log[i].frames > 0 && log[i].start + log[i].frames <= cursor && |log[i].samples| == log[i].frames * channels
          && log[i].timestamp == epoch + Starts(log[i].start))
    && (forall i, j :: 0 <= i < j < |log| ==> log[i].start + log[i].frames <= log[j].start)
  }

  ghost predicate Inv(p: Player) {
    && Laid(p.channels, p.epoch, p.cursor, p.log) && Tight(p.cursor, p.log) && (p.log != [] ==> p.epoch >= 0)
    && p.fill == Total(p.log, false) && p.output - p.fill == Total(p.log, true)
  }

  /** The later of two states: the cursor has not gone back, nothing emitted is taken back, a fixed grid stays. */
  ghost predicate Extends(p: Player, q: Player) {
    q.channels == p.channels && p.cursor <= q.cursor && p.log <= q.log && (p.epoch >= 0 ==> q.epoch == p.epoch)
  }

  ghost predicate Silent(e: Emission) {
    !e.media && e.samples == Silence(|e.samples|)
  }

  /**
   * The end of a block, from one of its frames on: every sample of it at its own index on the grid,
   * counted from the nearest index to the block's presentation.
   */
  ghost predicate InPlace(e: Emission, channels: nat, b: Call, epoch: Nanoseconds) {
    && b.Block? && Made(channels, b) && Usable(b.frame, |b.pcm|) && 0 <= epoch <= b.frame.presentation
    && var target := Nearest(b.frame.presentation - epoch);
       && target <= e.start < target + BLOCK_FRAMES && e.frames == target + BLOCK_FRAMES - e.start
       && e.samples == Rest(Prepared(channels, b), channels, e.start - target)
  }

  /** What one call adds: silence, and at most once, last, the part of its own block that the cursor has not passed. */
  ghost predicate Adds(p: Player, c: Call, q: Player) {
    forall i :: |p.log| <= i < |q.log| ==>
      && (q.log[i].media ==> i == |q.log| - 1 && InPlace(q.log[i], q.channels, c, q.epoch)
                             && q.log[i].start == Later(p.cursor, Nearest(c.frame.presentation - q.epoch)))
      && (!q.log[i].media ==> Silent(q.log[i]))
  }

  lemma LaidMore(p: Player, e: Emission)
    requires Laid(p.channels, p.epoch, p.cursor, p.log)
    requires e.start == p.cursor && e.frames > 0 && |e.samples| == e.frames * p.channels
    requires e.timestamp == p.epoch + Starts(p.cursor)
    ensures Laid(p.channels, p.epoch, p.cursor + e.frames, p.log + [e])
  {
    hide Starts;
    assert forall i :: 0 <= i < |p.log| ==> (p.log + [e])[i] == p.log[i];
  }

  lemma TightMore(cursor: nat, log: seq<Emission>, e: Emission)
    requires Tight(cursor, log) && e.start == cursor
    ensures Tight(cursor + e.frames, log + [e])
  {
    assert forall i :: 0 <= i <= |log| ==> EndAt(log + [e], i) == EndAt(log, i);
  }

  lemma TotalMore(log: seq<Emission>, e: Emission, media: bool)
    ensures Total(log + [e], media) == Total(log, media) + if e.media == media then e.frames else 0
  {
    assert (log + [e])[..|log|] == log;
  }

  lemma SubmitKeeps(p: Player, samples: seq<Sample>, frames: nat, now: Nanoseconds, lead: nat, media: bool)
    requires Inv(p) && |samples| == frames * p.channels && CanSubmit(p, frames, now, lead)
    ensures var q := Submitted(p, samples, frames, now, lead, media);
            Inv(q.(fill := q.fill + if media then 0 else frames)) && Extends(p, q)
  {
    hide Starts, Laid, Tight, Total;
    var e := Emission(p.cursor, frames, p.epoch + Starts(p.cursor), samples, media);
    LaidMore(p, e);
    TightMore(p.cursor, p.log, e);
    TotalMore(p.log, e, true);
    TotalMore(p.log, e, false);
  }

  lemma SilenceKeeps(p: Player, frames: nat, now: Nanoseconds, lead: nat)
    requires Inv(p)
    ensures var q := Silenced(p, frames, now, lead);
            Inv(q) && Extends(p, q) && forall i :: |p.log| <= i < |q.log| ==> Silent(q.log[i])
  {
    hide Starts, Laid, Tight, Total, Silence;
    if CanSubmit(p, frames, now, lead) {
      hide CanSubmit;
      SilenceLength(frames * p.channels);
      SubmitKeeps(p, Silence(frames * p.channels), frames, now, lead, false);
    }
  }

  lemma SilenceLength(n: nat)
    ensures |Silence(n)| == n
  {
  }

  lemma ClosedKeeps(p: Player, target: u64, now: Nanoseconds, lead: nat)
    requires Inv(p)
    ensures var q := Closed(p, target, now, lead);
            && Inv(q) && Extends(p, q) && (q.cursor == Later(p.cursor, target) || q == p)
            && q.epoch == p.epoch && forall i :: |p.log| <= i < |q.log| ==> Silent(q.log[i])
  {
    hide Starts, Total, Silent;
    if p.cursor < target <= p.cursor + MAX_FILL_FRAMES {
      hide Laid, Tight, CanSubmit;
      SilenceKeeps(p, target - p.cursor, now, lead);
    }
  }

  lemma PlayedKeeps(p: Player, b: Call, target: u64)
    requires b.Block? && Made(p.channels, b) && Usable(b.frame, |b.pcm|) && 0 <= p.epoch <= b.frame.presentation
    requires Inv(p) && target <= p.cursor && target == Nearest(b.frame.presentation - p.epoch)
    ensures var q := Played(p, b, target);
            && Inv(q) && Extends(p, q) && |q.log| <= |p.log| + 1
            && (q.log != p.log ==>
                  var e := q.log[|p.log|];
                  |q.log| == |p.log| + 1 && e.media && e.start == p.cursor && InPlace(e, p.channels, b, q.epoch))
  {
    hide Starts, Nearest, Laid, Tight, Total, Prepared, Rest;
    if p.cursor < target + BLOCK_FRAMES {
      var skip := p.cursor - target;
      if CanSubmit(p, BLOCK_FRAMES - skip, b.playNow, b.lead) {
        hide CanSubmit;
        SubmitKeeps(p, Rest(Prepared(p.channels, b), p.channels, skip), BLOCK_FRAMES - skip, b.playNow, b.lead, true);
      }
    }
  }

  lemma AnchoredKeeps(p: Player, b: Call)
    requires b.Block? && Inv(p)
    ensures Inv(Anchored(p, b)) && Extends(p, Anchored(p, b))
  {
    hide Starts, Total, Usable;
  }

  lemma BlockKeeps(p: Player, b: Call)
    requires b.Block? && Made(p.channels, b) && Inv(p)
    ensures var q := Processed(p, b); Inv(q) && Extends(p, q) && Adds(p, b, q)
  {
    hide Starts, Nearest, Laid, Tight, Total, InPlace, Closed, Played, Silence, Made;
    var a := Anchored(p, b);
    if Usable(b.frame, |b.pcm|) && b.frame.presentation >= a.epoch {
      AnchoredKeeps(p, b);
      var target := SampleIndex(a.epoch, b.frame.presentation).value;
      ClosedKeeps(a, target, b.fillNow, b.lead);
      var c := Closed(a, target, b.fillNow, b.lead);
      if target <= c.cursor {
        PlayedKeeps(c, b, target);
      }
    }
  }

  /**
   * The blocks of silence a starvation check adds: from where it starts one after the other, each due at or
   * before the low-water mark, until the mark is passed, it is too early, or eight are out.
   */
  lemma {:induction false} FilledShape(p: Player, now: Nanoseconds, nows: seq<Nanoseconds>, lead: nat) returns (count: nat)
    requires Inv(p) && lead <= MAX_LEAD_NS
    ensures var q := Filled(p, now, nows, lead);
            && Inv(q) && Extends(p, q) && q.epoch == p.epoch
            && count <= |nows| && q.cursor == p.cursor + BLOCK_FRAMES * count && |q.log| == |p.log| + count
            && (forall i :: |p.log| <= i < |q.log| ==>
                  && Silent(q.log[i]) && q.log[i].start == p.cursor + BLOCK_FRAMES * (i - |p.log|)
                  && q.log[i].timestamp <= BoundedAdd(now, if lead > BLOCK_NS then lead - BLOCK_NS else 0))
            && (count < |nows| ==> !Low(q, now, lead) || !CanSubmit(q, BLOCK_FRAMES, nows[count], lead))
    decreases |nows|
  {
    hide Starts, Laid, Tight, Total, Silence;
    count := 0;
    if nows != [] && Low(p, now, lead) && CanSubmit(p, BLOCK_FRAMES, nows[0], lead) {
      SilenceKeeps(p, BLOCK_FRAMES, nows[0], lead);
      hide Inv;
      var rest := FilledShape(Silenced(p, BLOCK_FRAMES, nows[0], lead), now, nows[1..], lead);
      count := rest + 1;
    }
  }

  /** A source over 100 ms behind jumps ahead, never back. */
  lemma ResumedAhead(p: Player, now: Nanoseconds)
    requires Inv(p) && p.epoch >= 0 && p.epoch + Starts(p.cursor) <= I64_MAX
    ensures var q := Resumed(p, now); Inv(q) && Extends(p, q) && q.epoch == p.epoch && q.log == p.log
  {
    if p.epoch + Starts(p.cursor) < now - RESYNC_NS {
      RoundTrip(p.epoch, p.cursor);
      Monotone(Starts(p.cursor), now - p.epoch);
    }
  }

  lemma StepKeeps(p: Player, c: Call)
    requires Made(p.channels, c) && Inv(p)
    ensures var q := After(p, c); Inv(q) && Extends(p, q) && Adds(p, c, q)
  {
    hide Starts, Laid, Tight, Resumed, Filled;
    if c.Block? {
      BlockKeeps(p, c);
    } else if p.epoch >= 0 && p.epoch + Starts(p.cursor) <= I64_MAX {
      ResumedAhead(p, c.now);
      var count := FilledShape(Resumed(p, c.now), c.now, c.nows, c.lead);
    }
  }

  /** For every emission of a run, the call that made it. */
  ghost function Origins(p: Player, calls: seq<Call>): seq<nat>
    requires AllMade(p.channels, calls)
    decreases |calls|
  {
    if calls == [] then []
    else
      var n := |calls| - 1;
      var more := |Run(p, calls).log| - |Run(p, calls[..n]).log|;
      Origins(p, calls[..n]) + if more > 0 then seq(more, i => n) else []
  }

  /**
   * Over every run of blocks and starvation checks, in any order and at any times: emissions lie on one grid
   * and never overlap, the counters balance with them, and each is silence or, once for a block and in the
   * order of the blocks, the end of that block with every sample at its own index.
   */
  lemma {:induction false} RunKeeps(p: Player, calls: seq<Call>)
    requires AllMade(p.channels, calls) && p == Start(p.channels)
    ensures var q, from := Run(p, calls), Origins(p, calls);
            && Inv(q) && |from| == |q.log|
            && (forall i :: 0 <= i < |from| ==> from[i] < |calls|)
            && (forall i, j :: 0 <= i < j < |from| ==> from[i] <= from[j])
            && (forall i, j :: 0 <= i < j < |from| && q.log[i].media ==> from[i] < from[j])
            && (forall i :: 0 <= i < |from| ==>
                  if q.log[i].media then InPlace(q.log[i], q.channels, calls[from[i]], q.epoch) else Silent(q.log[i]))
    decreases |calls|
  {
    hide Laid, Tight, Silent, Total, Later, After, InPlace, Made;
    if calls != [] {
      var n := |calls| - 1;
      RunKeeps(p, calls[..n]);
      StepKeeps(Run(p, calls[..n]), calls[n]);
    } else {
      NothingYet(p.channels);
    }
  }

  lemma NothingYet(channels: nat)
    ensures Inv(Start(channels))
  {
  }

  /** At any two moments of a run the cursor has not gone back, nothing emitted is taken back and the grid stays. */
  lemma {:induction false} RunExtends(p: Player, calls: seq<Call>, k: nat)
    requires AllMade(p.channels, calls) && Inv(p) && k <= |calls|
    ensures Inv(Run(p, calls)) && Extends(Run(p, calls[..k]), Run(p, calls))
    decreases |calls|
  {
    hide Inv, After;
    if k < |calls| {
      var n := |calls| - 1;
      RunExtends(p, calls[..n], k);
      assert calls[..n][..k] == calls[..k];
      StepKeeps(Run(p, calls[..n]), calls[n]);
    } else {
      assert calls[..k] == calls;
      if k > 0 {
        RunExtends(p, calls[..k - 1], k - 1);
        assert calls[..k - 1][..k - 1] == calls[..k - 1];
        StepKeeps(Run(p, calls[..k - 1]), calls[k - 1]);
      }
    }
  }

  /** Emissions of a run never overlap in time either: each ends, to the nanosecond, before the next starts. */
  lemma NeverOverlaps(channels: nat, calls: seq<Call>, i: nat, j: nat)
    requires AllMade(channels, calls) && i < j < |Run(Start(channels), calls).log|
    ensures var q := Run(Start(channels), calls);
            && q.epoch + Starts(q.log[i].start + q.log[i].frames) <= q.log[j].timestamp
            && q.log[j].timestamp - q.log[i].timestamp >= 20_833 * q.log[i].frames
  {
    hide Laid, Tight, Starts, Run, Origins, Total, InPlace, Silent;
    var q := Run(Start(channels), calls);
    assert Laid(channels, q.epoch, q.cursor, q.log) by { RunKeeps(Start(channels), calls); }
    Apart(channels, q.epoch, q.cursor, q.log, i, j);
  }

  lemma Apart(channels: nat, epoch: Nanoseconds, cursor: nat, log: seq<Emission>, i: nat, j: nat)
    requires Laid(channels, epoch, cursor, log) && i < j < |log|
    ensures epoch + Starts(log[i].start + log[i].frames) <= log[j].timestamp
    ensures log[j].timestamp - log[i].timestamp >= 20_833 * log[i].frames
  {
    Monotone(log[i].start + log[i].frames, log[j].start);
    Spread(log[i].start, log[i].start + log[i].frames);
    hide Starts;
  }

  /**
   * What is heard of a block is heard in place: its frame k, emitted at sample start + k of the grid, starts
   * within half a sample and a nanosecond or so of where the block's presentation puts it.
   */
  lemma HeardInPlace(e: Emission, channels: nat, b: Call, epoch: Nanoseconds, k: nat)
    requires InPlace(e, channels, b, epoch) && k < e.frames
    ensures var n := e.start + k - Nearest(b.frame.presentation - epoch);
            && n < BLOCK_FRAMES
            && -10_418 <= epoch + Starts(e.start + k) - (b.frame.presentation + Starts(n)) <= 10_418
            && |e.samples| == e.frames * channels
            && Frame(e.samples, channels, e.frames, k) == Frame(Prepared(channels, b), channels, BLOCK_FRAMES, n)
  {
    hide Starts, Nearest, Prepared, Rest, Frame;
    var target := Nearest(b.frame.presentation - epoch);
    InGrid(b.frame.presentation - epoch, e.start + k - target);
    FrameOf(Prepared(channels, b), channels, e.start - target, k);
  }

  /** Dropping whole frames leaves frame a + k of a block as frame k. */
  lemma FrameOf(pcm: seq<Sample>, channels: nat, a: nat, k: nat)
    requires a + k < BLOCK_FRAMES && |pcm| == BLOCK_FRAMES * channels
    ensures Frame(Rest(pcm, channels, a), channels, BLOCK_FRAMES - a, k) == Frame(pcm, channels, BLOCK_FRAMES, a + k)
  {
    Times(a, k, channels);
    Times(a + k, BLOCK_FRAMES - a - k, channels);
    Times(a + k + 1, BLOCK_FRAMES - a - k - 1, channels);
    Times(a + k, 1, channels);
    DropTwice(pcm, a * channels, k * channels, channels);
  }

  lemma DropTwice(s: seq<Sample>, x: nat, y: nat, w: nat)
    requires x + y + w <= |s|
    ensures s[x..][y..y + w] == s[x + y..x + y + w]
  {
  }

  /** Sample k of the rest of a block is the block's own sample so many frames on. */
  lemma RestAt(pcm: seq<Sample>, channels: nat, skip: nat, k: nat)
    requires |pcm| == BLOCK_FRAMES * channels && skip <= BLOCK_FRAMES && k < |Rest(pcm, channels, skip)|
    ensures 0 <= skip * channels + k < |pcm| && Rest(pcm, channels, skip)[k] == pcm[skip * channels + k]
  {
    Times(skip, BLOCK_FRAMES - skip, channels);
  }

  /** A sample as it may be heard: of a muted microphone, or one whose block is older than its last mute change, nothing. */
  predicate MayBeHeard(channels: nat, b: Call, from: Sample, heard: Sample)
    requires b.Block?
  {
    if channels == 1 && (b.muted || b.frame.capture < b.cutoff) then heard == Finite(0.0)
    else
      match from
      case NonFinite => heard == Finite(0.0)
      case Finite(x) => heard == Finite(if x < -1.0 then -1.0 else if x > 1.0 then 1.0 else x)
  }

  /** Sample k of an emission is the block's own sample at that place of the grid, as far as it may be heard. */
  ghost predicate HeardFrom(e: Emission, channels: nat, b: Call, epoch: Nanoseconds, k: nat)
    requires k < |e.samples|
  {
    && b.Block? && 0 <= epoch <= b.frame.presentation
    && var j := (e.start - Nearest(b.frame.presentation - epoch)) * channels + k;
       0 <= j < |b.pcm| && MayBeHeard(channels, b, b.pcm[j], e.samples[k])
  }

  /**
   * What is heard, over every run: of a muted microphone, or of one whose block was captured before its
   * last mute change, every sample is silence; of anything else each sample is the block's own where that is
   * finite and between -1 and 1, the nearer of the two where it is finite, and silence where it is not.
   */
  lemma HeardSample(channels: nat, calls: seq<Call>, i: nat, k: nat)
    requires AllMade(channels, calls) && i < |Run(Start(channels), calls).log|
    requires Run(Start(channels), calls).log[i].media && k < |Run(Start(channels), calls).log[i].samples|
    ensures var q, from := Run(Start(channels), calls), Origins(Start(channels), calls);
            i < |from| && from[i] < |calls| && HeardFrom(q.log[i], channels, calls[from[i]], q.epoch, k)
  {
    hide Run, Origins, Inv, InPlace, Silent, HeardFrom;
    RunKeeps(Start(channels), calls);
    var q, from := Run(Start(channels), calls), Origins(Start(channels), calls);
    SampleInPlace(q.log[i], channels, calls[from[i]], q.epoch, k);
  }

  lemma PreparedAt(channels: nat, b: Call, j: nat)
    requires b.Block? && j < |b.pcm|
    ensures MayBeHeard(channels, b, b.pcm[j], Prepared(channels, b)[j])
  {
  }

  lemma SampleInPlace(e: Emission, channels: nat, b: Call, epoch: Nanoseconds, k: nat)
    requires InPlace(e, channels, b, epoch) && k < |e.samples|
    ensures HeardFrom(e, channels, b, epoch, k)
  {
    hide Nearest, Prepared, MayBeHeard;
    var skip := e.start - Nearest(b.frame.presentation - epoch);
    RestAt(Prepared(channels, b), channels, skip, k);
    hide Rest;
    PreparedAt(channels, b, skip * channels + k);
  }

  // ---- what the source decides -----------------------------------------------------------------

  /** When grid sample n starts is a representable time, and not later than the lead and one sample allow. */
  predicate Due(epoch: int, n: nat, now: Nanoseconds, lead: nat) {
    epoch + n * 1_000_000_000 / 48_000 <= I64_MAX && epoch + n * 1_000_000_000 / 48_000 <= now + lead + 20_834
  }

  lemma SubmitsWhenDue(p: Player, frames: int, now: Nanoseconds, lead: nat)
    ensures CanSubmit(p, frames, now, lead) <==>
            frames > 0 && p.epoch >= 0 && p.cursor + frames <= U64_MAX && Due(p.epoch, p.cursor, now, lead)
  {
  }

  /** A header with times, for a block of 480 whole frames. */
  predicate Sensible(b: Call)
    requires b.Block?
  {
    b.frame.presentation >= 0 && b.frame.capture >= 0 && b.frame.frames == 480 && b.frame.bytes == 4 * |b.pcm|
  }

  /** The block ends inside 64 bits, its gap can be closed in time, and its rest is not past, nor too early. */
  predicate Timely(epoch: int, cursor: nat, target: nat, b: Call)
    requires b.Block?
  {
    && (cursor < target <= cursor + 4_800 ==> Due(epoch, cursor, b.fillNow, b.lead))
    && var at := if cursor < target then target else cursor;
       at < target + 480 <= U64_MAX && Due(epoch, at, b.playNow, b.lead)
  }

  /**
   * One block, at any moment of a run: something of it is heard exactly when its header is sensible, it is
   * not from before the grid, and it is timely, and then all of it from the cursor on; otherwise the cursor
   * moves at most up to the block, by silence over a gap of at most 100 ms if there is time for it, by a
   * jump over a longer one.
   */
  lemma BlockDecides(p: Player, b: Call)
    requires b.Block? && Made(p.channels, b) && Inv(p)
    ensures var q := After(p, b);
            var epoch := if p.epoch < 0 then b.frame.presentation else p.epoch;
            && q.epoch == (if Sensible(b) then epoch else p.epoch)
            && if !Sensible(b) || b.frame.presentation < epoch then q.cursor == p.cursor && q.log == p.log
               else
                 var target := Nearest(b.frame.presentation - epoch);
                 if Timely(epoch, p.cursor, target, b)
                 then q.cursor == target + 480 && q.log != p.log && q.log[|q.log| - 1].media
                 else
                   && (forall i :: |p.log| <= i < |q.log| ==> !q.log[i].media)
                   && q.cursor == if target <= p.cursor then p.cursor
                                  else if target <= p.cursor + 4_800 && !Due(epoch, p.cursor, b.fillNow, b.lead) then p.cursor
                                  else target
  {
    hide Starts, Nearest, Inv, Silence, Prepared, Rest, Due;
    var a := Anchored(p, b);
    if Usable(b.frame, |b.pcm|) && b.frame.presentation >= a.epoch {
      var target := SampleIndex(a.epoch, b.frame.presentation).value;
      SubmitsWhenDue(a, target - a.cursor, b.fillNow, b.lead);
      var c := Closed(a, target, b.fillNow, b.lead);
      SubmitsWhenDue(c, target + 480 - c.cursor, b.playNow, b.lead);
      hide CanSubmit, Due;
    }
  }

  /** When grid sample n starts is a representable time, and at or below the low-water mark. */
  predicate Needed(epoch: int, n: nat, now: Nanoseconds, lead: nat) {
    && epoch + n * 1_000_000_000 / 48_000 <= I64_MAX
    && epoch + n * 1_000_000_000 / 48_000 <= now + if lead > 10_000_000 then lead - 10_000_000 else 0
  }

  lemma LowWhenNeeded(p: Player, now: Nanoseconds, lead: nat)
    requires lead <= MAX_LEAD_NS
    ensures Low(p, now, lead) <==> Needed(p.epoch, p.cursor, now, lead)
  {
  }

  /**
   * One starvation check, at any moment of a run: from the cursor, or from the present if the cursor is more
   * than 100 ms behind it, blocks of silence follow one another while one is needed and due, eight at most.
   */
  lemma StarveDecides(p: Player, s: Call) returns (count: nat)
    requires s.Starve? && Made(p.channels, s) && Inv(p)
    ensures var q := After(p, s);
            if p.epoch < 0 || p.epoch + p.cursor * 1_000_000_000 / 48_000 > I64_MAX then q == p
            else
              var behind := s.now - (p.epoch + p.cursor * 1_000_000_000 / 48_000);
              var start := if behind > 100_000_000 then Nearest(s.now - p.epoch) else p.cursor;
              && count <= 8 && q.epoch == p.epoch && q.cursor == start + 480 * count && |q.log| == |p.log| + count
              && (forall i :: |p.log| <= i < |q.log| ==> Silent(q.log[i]) && q.log[i].start == start + 480 * (i - |p.log|))
              && (count < 8 ==>
                    !(Needed(q.epoch, q.cursor, s.now, s.lead) && Due(q.epoch, q.cursor, s.nows[count], s.lead)
                      && q.cursor + 480 <= U64_MAX))
  {
    hide Laid, Tight, Total, Silence, CanSubmit, Low, Due, Needed, Nearest;
    count := 0;
    if p.epoch >= 0 && p.epoch + Starts(p.cursor) <= I64_MAX {
      ResumedAhead(p, s.now);
      var r := Resumed(p, s.now);
      hide Starts, Inv;
      count := FilledShape(r, s.now, s.nows, s.lead);
      var q := Filled(r, s.now, s.nows, s.lead);
      LowWhenNeeded(q, s.now, s.lead);
      if count < 8 {
        SubmitsWhenDue(q, 480, s.nows[count], s.lead);
      }
    }
  }

  lemma InGrid(delta: nat, n: nat)
    ensures -10_418 <= Starts(Nearest(delta) + n) - (delta + Starts(n)) <= 10_418
  {
  }
}
