// How a sender attaches capture anchors to RTP packets: a 32-record ledger filled as audio is pushed and
// drained as packets go out (apps/windows_sender.cpp; apps/network_fixture_sender.cpp is the same with
// a source already at the wire rate and one anchor for every 480 frames).
module SenderAnchors {
  import opened Timing
  import opened Ring
  import opened WirePosition
  import NominalConverter

  const LEDGER_CAPACITY: nat := 32
  const MAXIMUM_PAYLOAD_FRAMES: nat := 180
  const BYTES_PER_FRAME: nat := 6
  const STAMPS: int := 0x1_0000_0000

  datatype Anchor = Anchor(sequence: nat, position: u64, capture: Nanoseconds)

  /** What a packet carries: an anchor, the packet's own first frame, and the stamp of frame zero. */
  datatype Extension = Extension(anchor: Anchor, wireStart: nat, rtpZero: u32)

  /** Wire frames, scaled by the source rate so that they stay whole. */
  function Scale(frame: nat, rate: u32): nat {
    frame * rate
  }

  function Nominal(position: u64, origin: u64): int {
    (position - origin) * WIRE_RATE
  }

  function Ahead(anchor: Anchor, origin: u64): int {
    Nominal(anchor.position, origin)
  }

  /** Anchors are numbered, start at the origin, and lie at least 480 wire frames apart. */
  ghost predicate Spaced(all: seq<Anchor>, origin: u64, rate: u32) {
    && (all != [] ==> all[0].position == origin)
    && (forall i :: 0 <= i < |all| ==> all[i].sequence == i && all[i].position >= origin
                                       && NominalWirePosition(all[i].position, origin, 0, rate).Some?)
    && (forall i, j :: 0 <= i < j < |all| ==> Ahead(all[j], origin) >= Ahead(all[i], origin) + 480 * rate)
  }

  /** Anchor k is the newest whose exact wire position is at or before a frame. */
  ghost predicate Newest(all: seq<Anchor>, origin: u64, rate: u32, frame: nat, k: nat) {
    && k < |all| && Ahead(all[k], origin) <= Scale(frame, rate)
    && forall i :: k < i < |all| ==> Ahead(all[i], origin) > Scale(frame, rate)
  }

  lemma ScaleStep(frame: nat, count: nat, rate: u32)
    requires count <= MAXIMUM_PAYLOAD_FRAMES
    ensures Scale(frame + count, rate) == Scale(frame, rate) + Scale(count, rate)
    ensures 0 <= Scale(count, rate) <= MAXIMUM_PAYLOAD_FRAMES * rate
  {
    MulLe(count, MAXIMUM_PAYLOAD_FRAMES, rate);
  }

  lemma ScaleMonotone(a: nat, b: nat, rate: u32)
    requires a <= b
    ensures 0 == Scale(0, rate) <= Scale(a, rate) <= Scale(b, rate)
  {
    MulLe(a, b, rate);
  }

  /** The program's comparison of an anchor with a frame is the comparison of the exact positions. */
  lemma ComparesExactly(anchor: Anchor, origin: u64, rate: u32, frame: nat)
    requires rate > 0 && anchor.position >= origin && NominalWirePosition(anchor.position, origin, 0, rate).Some?
    ensures AtOrBeforeFrame(NominalWirePosition(anchor.position, origin, 0, rate).value, frame)
            <==> Ahead(anchor, origin) <= Scale(frame, rate)
  {
    AtOrBeforeIsNumeric(anchor.position, origin, 0, rate, frame);
  }

  /** A spacing of device frames worth at least 480 wire frames. */
  predicate Wide(rate: u32, spacing: nat) {
    rate > 0 && spacing * WIRE_RATE >= 480 * rate
  }

  /** The fixture's source: every 480-frame quantum brings an anchor, and frames are compared as they are. */
  lemma FixtureIsAnInstance(position: u64, frame: nat)
    ensures Wide(WIRE_RATE, 480)
    ensures NominalWirePosition(position, 0, 0, WIRE_RATE).Some?
    ensures AtOrBeforeFrame(NominalWirePosition(position, 0, 0, WIRE_RATE).value, frame) <==> position <= frame
  {
    NominalAtWireRate(position, 0);
  }

  /** The head is the anchor last advertised, at or before the packet that did. */
  ghost predicate Following(all: seq<Anchor>, origin: u64, rate: u32, head: nat, extension: nat, advertised: Option<nat>) {
    && (advertised.None? ==> extension == 0 && head == 0)
    && (advertised.Some? ==> advertised.value == head && extension > 0 && head < |all|)
    && (head < |all| ==> Ahead(all[head], origin) <= Scale(extension, rate))
  }

  /** The next anchor, if any, is ahead of the packet last sent. */
  ghost predicate NextAhead(all: seq<Anchor>, origin: u64, rate: u32, head: nat, extension: nat) {
    head + 1 < |all| ==> Ahead(all[head + 1], origin) > Scale(extension, rate) - MAXIMUM_PAYLOAD_FRAMES * rate
  }

  lemma FollowingMore(all: seq<Anchor>, anchor: Anchor, origin: u64, rate: u32, head: nat, extension: nat, advertised: Option<nat>)
    requires Following(all, origin, rate, head, extension, advertised)
    requires head <= |all| && (head == |all| ==> anchor.position == origin)
    ensures Following(all + [anchor], origin, rate, head, extension, advertised)
  {
    ScaleMonotone(0, extension, rate);
  }

  lemma NextAheadMore(all: seq<Anchor>, anchor: Anchor, origin: u64, rate: u32, spacing: nat, head: nat, extension: nat, pushed: nat)
    requires Wide(rate, spacing) && NextAhead(all, origin, rate, head, extension)
    requires extension <= pushed && Scale(pushed, rate) <= Nominal(anchor.position, origin)
    ensures NextAhead(all + [anchor], origin, rate, head, extension)
  {
    ScaleMonotone(extension, pushed, rate);
  }

  class AnchoredSender {
    const rate: u32
    const spacing: nat
    const ledger: Ring<Anchor>
    var origin: u64
    var lastPosition: Option<u64>
    var lastSelected: Option<u64>
    var selectedSequence: nat
    var pushed: nat
    var extension: nat
    var rtpZero: u32
    var advertised: Option<nat>
    var fault: bool
    ghost var all: seq<Anchor>
    // The anchors up to here have left the ledger.
    ghost var head: nat
    // No anchor has come in behind what was already pushed, and no packet has covered more than that.
    ghost var steady: bool

    constructor (rate: u32, spacing: nat)
      requires Wide(rate, spacing)
      ensures Valid() && fresh(ledger) && fresh(ledger.slots) && this.rate == rate && this.spacing == spacing
      ensures !fault && all == [] && pushed == 0 && extension == 0 && steady
    {
      this.rate, this.spacing := rate, spacing;
      ledger := new Ring(LEDGER_CAPACITY);
      origin, lastPosition, lastSelected, selectedSequence, pushed, extension := 0, None, None, 0, 0, 0;
      rtpZero, advertised, fault, all, head, steady := 0, None, false, [], 0, true;
    }

    ghost predicate Valid()
      reads this, ledger, ledger.slots
    {
      Sound() && (!fault ==> InStep() && (steady ==> KeptUp()))
    }

    ghost predicate Sound()
      reads this, ledger, ledger.slots
    {
      && Wide(rate, spacing)
      && ledger.Valid() && ledger.slots.Length == LEDGER_CAPACITY
      && Spaced(all, origin, rate) && head <= |all| && ledger.Contents() == all[head..]
      && selectedSequence == |all| && (lastSelected.Some? <==> all != [])
      && (lastSelected.Some? ==> all[|all| - 1].position == lastSelected.value)
      && (lastPosition.None? <==> all == []) && (all != [] ==> all[|all| - 1].position <= lastPosition.value)
      && (pushed > 0 ==> all != []) && (all != [] ==> head < |all|)
    }

    ghost predicate InStep()
      reads this
    {
      Following(all, origin, rate, head, extension, advertised)
    }

    ghost predicate KeptUp()
      reads this
    {
      extension <= pushed && NextAhead(all, origin, rate, head, extension)
    }

    /** Append one anchor, spaced from the last; note whether it is behind what was pushed before it. */
    method Append(position: u64, capture: Nanoseconds)
      requires Valid() && ledger.size < LEDGER_CAPACITY && position >= origin
      requires NominalWirePosition(position, origin, 0, rate).Some?
      requires if lastSelected.None? then position == origin
               else position > lastPosition.value && position - lastSelected.value >= spacing
      modifies this`all, this`lastSelected, this`selectedSequence, this`lastPosition, this`steady, ledger`size, ledger.slots
      ensures steady == (old(steady) && Scale(pushed, rate) <= Nominal(position, origin))
      ensures Valid() && lastPosition == Some(position) && lastSelected == Some(position)
      ensures all == old(all) + [Anchor(|old(all)|, position, capture)]
    {
      hide NominalWirePosition, Scale, Spaced, Ring.Contents, Nominal, Wide, Following, NextAhead, Ring.Valid;
      ghost var before := all;
      Store(position, capture);
      SpacedMore(before, all[|before|], origin, rate, spacing);
      assert Sound();
      hide Sound;
      steady := steady && Scale(pushed, rate) <= Nominal(position, origin);
      if !fault {
        FollowingMore(before, all[|before|], origin, rate, head, extension, advertised);
        if steady {
          NextAheadMore(before, all[|before|], origin, rate, spacing, head, extension, pushed);
        }
      }
    }

    method Store(position: u64, capture: Nanoseconds)
      requires ledger.Valid() && ledger.size < ledger.slots.Length && selectedSequence == |all|
      requires head <= |all| && ledger.Contents() == all[head..]
      modifies this`all, this`lastSelected, this`selectedSequence, this`lastPosition, ledger`size, ledger.slots
      ensures all == old(all) + [Anchor(|old(all)|, position, capture)]
      ensures ledger.Valid() && ledger.Contents() == all[head..] && selectedSequence == |all|
      ensures lastSelected == Some(position) && lastPosition == Some(position)
    {
      hide Ring.Contents;
      ghost var anchor := Anchor(|all|, position, capture);
      ledger.PushBack(Anchor(selectedSequence, position, capture));
      assert (all + [anchor])[head..] == all[head..] + [anchor];
      all, selectedSequence, lastSelected, lastPosition := all + [anchor], selectedSequence + 1, Some(position), Some(position);
    }

    /** The first packet is where the device count starts. */
    method StartAt(position: u64)
      requires Valid() && lastPosition.None?
      modifies this`origin
      ensures Valid() && origin == position
    {
      hide NominalWirePosition, Scale, Ring.Contents, Wide;
      origin := position;
    }

    method Advance(position: u64, produced: nat)
      requires Valid() && lastPosition.Some? && position >= lastPosition.value
      modifies this`lastPosition, this`pushed
      ensures Valid() && lastPosition == Some(position) && pushed == old(pushed) + produced
    {
      hide Spaced, NominalWirePosition, Scale, Ring.Contents;
      lastPosition, pushed := Some(position), pushed + produced;
    }

    /** A position far enough from the last selected one, or the first. */
    predicate Selects(position: u64)
      reads this
    {
      lastSelected.None? || position - lastSelected.value >= spacing
    }

    /**
     * One captured packet: its anchor, if far enough from the last one, then the wire frames made of
     * it.  It is refused exactly for a failed observation, a position that does not go forward or has
     * no wire position, or a ledger without room for the anchor it needs.
     */
    method Push(position: u64, capture: Nanoseconds, observed: bool, produced: nat) returns (ok: bool)
      requires Valid()
      modifies this`origin, this`lastPosition, this`all, this`lastSelected, this`selectedSequence, this`pushed,
               this`steady, ledger`size, ledger.slots
      ensures Valid() && origin == if old(lastPosition).Some? then old(origin) else position
      ensures ok <==>
        && observed && (old(lastPosition).Some? ==> position > old(lastPosition).value) && position >= origin
        && NominalWirePosition(position, origin, 0, rate).Some?
        && (old(Selects(position)) ==> old(ledger.size) < 32)
      ensures ok ==> pushed == old(pushed) + produced && lastPosition == Some(position)
      ensures ok ==> all == old(all) + if old(Selects(position)) then [Anchor(|old(all)|, position, capture)] else []
      ensures !ok ==> pushed == old(pushed) && all == old(all)
      ensures steady == (old(steady) && (all != old(all) ==> Scale(old(pushed), rate) <= Nominal(position, origin)))
    {
      hide NominalWirePosition, Scale, Spaced, Ring.Contents, InStep;
      ScaleMonotone(0, pushed, rate);
      if lastPosition.None? {
        StartAt(position);
      }
      if !observed || (lastPosition.Some? && position <= lastPosition.value) || position < origin
         || NominalWirePosition(position, origin, 0, rate).None? {
        return false;
      }
      if lastSelected.None? || position - lastSelected.value >= spacing {
        if ledger.size == LEDGER_CAPACITY {
          return false;
        }
        Append(position, capture);
      }
      Advance(position, produced);
      return true;
    }

    /** Drop every anchor that a later one, at or before the packet's first frame, supersedes. */
    method PassAnchors()
      requires Sound() && InStep() && all != []
      modifies this`head, ledger`head, ledger`size
      ensures Sound() && head < |all|
      ensures old(head) <= head && Newest(all, origin, rate, extension, head)
    {
      hide NominalWirePosition, Scale, Ring.Contents, AtOrBeforeFrame, Spaced, Newest, Ahead;
      while ledger.size > 1
        invariant ledger.Valid() && old(head) <= head < |all| && ledger.Contents() == all[head..]
        invariant Ahead(all[head], origin) <= Scale(extension, rate)
        decreases ledger.size
      {
        var next := ledger.Get(1);
        Numbered(all, origin, rate, head + 1);
        var position := NominalWirePosition(next.position, origin, 0, rate);
        ComparesExactly(next, origin, rate, extension);
        if !AtOrBeforeFrame(position.value, extension) {
          break;
        }
        ledger.DropFront(1);
        head := head + 1;
      }
      NewestIs(all, origin, rate, extension, head);
    }

    /** The packet is on its way: its anchor is advertised, its frames are counted. */
    method Send(frames: nat, newest: nat)
      requires Sound() && newest == head < |all| && Newest(all, origin, rate, extension, head)
      requires 0 < frames <= MAXIMUM_PAYLOAD_FRAMES
      modifies this`extension, this`advertised, this`steady
      ensures steady == (old(steady) && extension <= pushed)
      ensures Valid() && extension == old(extension) + frames && advertised == Some(newest)
    {
      hide NominalWirePosition, Ring.Contents, Scale, Spaced;
      ScaleStep(extension, frames, rate);
      extension, advertised := extension + frames, Some(newest);
      steady := steady && extension <= pushed;
    }

    method Refuse()
      requires Sound()
      modifies this`fault
      ensures Valid() && fault
    {
      fault := true;
    }

    /** The packet would pass two anchors at once: the second after the one advertised is not ahead of it. */
    ghost predicate Skips()
      reads this
    {
      advertised.Some? && advertised.value + 2 < |all| && Ahead(all[advertised.value + 2], origin) <= Scale(extension, rate)
    }

    /** While pushes keep up, no packet does. */
    lemma SteadyNeverSkips()
      requires Valid() && !fault && steady
      ensures !Skips()
    {
      if advertised.Some? && advertised.value + 2 < |all| {
        assert Ahead(all[head + 2], origin) >= Ahead(all[head + 1], origin) + 480 * rate;
      }
    }

    /**
     * One outgoing packet.  It is refused exactly for its payload, its stamp modulo 2^32, its timing,
     * an empty ledger, or for passing two anchors at once; and it carries the newest anchor at or
     * before its first frame.  Covering only frames already pushed, and with no anchor ever behind
     * them, the ledger is not empty and no two anchors are passed.
     */
    method Decorate(payload: nat, stamp: u32, timely: bool) returns (r: Option<Extension>)
      requires Valid() && !fault
      modifies this`head, this`rtpZero, this`extension, this`advertised, this`fault, this`steady, ledger`head, ledger`size
      ensures Valid() && fault == r.None?
      ensures rtpZero == if 0 < payload <= 6 * 180 && payload % 6 == 0 && old(extension) == 0 then stamp else old(rtpZero)
      ensures r.Some? <==>
        && 0 < payload <= 6 * 180 && payload % 6 == 0 && stamp == (rtpZero + old(extension)) % 0x1_0000_0000
        && all != [] && !old(Skips()) && timely
      ensures old(steady) && old(extension) < pushed ==> all != [] && !old(Skips())
      ensures r.Some? ==> head < |all| && r.value == Extension(all[head], old(extension), rtpZero)
                          && Newest(all, origin, rate, old(extension), head)
      ensures r.Some? ==> extension == old(extension) + payload / 6 && advertised == Some(head)
      ensures steady == (old(steady) && (r.Some? ==> extension <= pushed))
    {
      hide NominalWirePosition, Ring.Contents, Scale, Newest, Spaced, Ahead;
      if steady {
        SteadyNeverSkips();
      }
      if !Payload(payload) {
        Refuse();
        return None;
      }
      if extension == 0 {
        rtpZero := stamp;
      }
      if stamp != (rtpZero + extension) % STAMPS || ledger.size == 0 {
        Refuse();
        return None;
      }
      r := Attach(payload / BYTES_PER_FRAME, timely);
    }

    /** Select the anchor and send, unless two anchors would be passed at once. */
    method Attach(frames: nat, timely: bool) returns (r: Option<Extension>)
      requires Valid() && !fault && all != [] && 0 < frames <= MAXIMUM_PAYLOAD_FRAMES
      modifies this`head, this`extension, this`advertised, this`fault, this`steady, ledger`head, ledger`size
      ensures Valid() && fault == r.None?
      ensures r.Some? <==> !old(Skips()) && timely
      ensures r.Some? ==> head < |all| && r.value == Extension(all[head], old(extension), rtpZero)
                          && Newest(all, origin, rate, old(extension), head)
      ensures r.Some? ==> extension == old(extension) + frames && advertised == Some(head)
      ensures steady == (old(steady) && (r.Some? ==> extension <= pushed))
    {
      hide NominalWirePosition, Ring.Contents, Scale, Newest, Spaced, Ahead;
      PassAnchors();
      PassesTwo(all, origin, rate, extension, old(head), advertised, head);
      var record := ledger.Get(0);
      Numbered(all, origin, rate, head);
      var skipped := if advertised.None? then record.sequence != 0
                     else record.sequence != advertised.value && record.sequence != advertised.value + 1;
      if skipped || !timely {
        Refuse();
        return None;
      }
      r := Some(Extension(record, extension, rtpZero));
      Send(frames, record.sequence);
    }
  }

  lemma Numbered(all: seq<Anchor>, origin: u64, rate: u32, k: nat)
    requires Spaced(all, origin, rate) && k < |all|
    ensures all[k].sequence == k && all[k].position >= origin && NominalWirePosition(all[k].position, origin, 0, rate).Some?
  {
  }

  /** Since anchors only get further ahead, looking one anchor further is enough. */
  lemma NewestIs(all: seq<Anchor>, origin: u64, rate: u32, frame: nat, k: nat)
    requires Spaced(all, origin, rate) && k < |all| && Ahead(all[k], origin) <= Scale(frame, rate)
    requires k + 1 < |all| ==> Ahead(all[k + 1], origin) > Scale(frame, rate)
    ensures Newest(all, origin, rate, frame, k)
  {
    hide Scale, NominalWirePosition;
  }

  /** The newest anchor is the first, the advertised one or the next, unless the one after that is not ahead. */
  lemma PassesTwo(all: seq<Anchor>, origin: u64, rate: u32, frame: nat, head: nat, advertised: Option<nat>, newest: nat)
    requires rate > 0 && Spaced(all, origin, rate) && Newest(all, origin, rate, frame, newest) && head <= newest < |all|
    requires if advertised.None? then frame == 0 && head == 0 else advertised.value == head
    ensures if advertised.None? then newest == 0
            else newest <= head + 1 <==> !(head + 2 < |all| && Ahead(all[head + 2], origin) <= Scale(frame, rate))
  {
    ScaleMonotone(0, frame, rate);
    assert newest > head ==> Ahead(all[newest], origin) >= Ahead(all[head], origin) + 480 * rate;
    assert newest > head + 2 ==> Ahead(all[newest], origin) >= Ahead(all[head + 2], origin) + 480 * rate;
  }

  /**
   * What keeps the pushes up: for a device whose positions count the converter's input, frames pushed
   * are not ahead of the next packet exactly when the converter's output is not ahead of the exact
   * duration of its input, which is what its finish insists on.
   */
  lemma ConverterKeepsUp(origin: u64, position: u64, output: nat, rate: u32)
    requires rate > 0 && position >= origin
    ensures Scale(output, rate) <= Nominal(position, origin) <==> output <= NominalConverter.Exact(position - origin, rate)
  {
    var value: int := (position - origin) * WIRE_RATE;
    DivisionIdentity(value, rate);
    if Scale(output, rate) <= value {
      FloorAtLeast(value, rate, output);
    } else if output <= value / rate {
      MulLe(output, value / rate, rate);
    }
  }

  /** A whole number of stereo 24-bit frames, from one to 180. */
  predicate Payload(bytes: nat) {
    bytes > 0 && bytes % BYTES_PER_FRAME == 0 && bytes / BYTES_PER_FRAME <= MAXIMUM_PAYLOAD_FRAMES
  }

  lemma SpacedMore(all: seq<Anchor>, anchor: Anchor, origin: u64, rate: u32, spacing: nat)
    requires Spaced(all, origin, rate) && Wide(rate, spacing)
    requires anchor.sequence == |all| && anchor.position >= origin && NominalWirePosition(anchor.position, origin, 0, rate).Some?
    requires if all == [] then anchor.position == origin else anchor.position - all[|all| - 1].position >= spacing
    ensures Spaced(all + [anchor], origin, rate)
  {
    if all != [] {
      assert forall i :: 0 <= i < |all| ==> Ahead(all[|all| - 1], origin) >= Ahead(all[i], origin);
      assert (anchor.position - all[|all| - 1].position) * WIRE_RATE >= spacing * WIRE_RATE;
    }
  }
}
