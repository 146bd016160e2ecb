// The finite control lease on standard input: keepalive lines renew it, everything else ends it
// (include/avsync/process_control.hpp).
module ControlLease {

  /** Steady-clock nanoseconds. */
  type Time = int

  const TIMEOUT_NS: int := 12_000_000_000
  const MAXIMUM_LINE: nat := 32
  const STOP: string := "AVSYNC_STOP"
  const KEEPALIVE: string := "AVSYNC_KEEPALIVE"

  datatype ControlState = Active | Stopped | Eof | Expired | Invalid | ReadError

  datatype Lease = Lease(heartbeat: Time, lastPoll: Time, line: string, state: ControlState)

  function NewLease(now: Time): Lease {
    Lease(now, now, "", Active)
  }

  predicate Printable(c: char) {
    ' ' <= c <= '~'
  }

  // ---- the steps -------------------------------------------------------------------------

  function Ticked(l: Lease, now: Time): Lease {
    if l.state != Active then l
    else if now < l.lastPoll then l.(state := Invalid)
    else if now - l.heartbeat >= TIMEOUT_NS then l.(lastPoll := now, state := Expired)
    else l.(lastPoll := now)
  }

  function Byte(l: Lease, c: char, now: Time): Lease {
    if c == '\n' then
      if l.line == STOP then l.(line := "", state := Stopped)
      else if l.line != KEEPALIVE then l.(line := "", state := Invalid)
      else l.(line := "", heartbeat := now)
    else if !Printable(c) || |l.line| == MAXIMUM_LINE then l.(state := Invalid)
    else l.(line := l.line + [c])
  }

  function Bytes(l: Lease, text: string, now: Time): Lease
    decreases |text|
  {
    if text == "" || l.state != Active then l else Bytes(Byte(l, text[0], now), text[1..], now)
  }

  function Consumed(l: Lease, text: string, now: Time): Lease {
    var t := Ticked(l, now);
    if t.state != Active then t else Bytes(t, text, now)
  }

  function Failed(l: Lease, state: ControlState): Lease {
    if l.state == Active && state != Active then l.(state := state) else l
  }

  // ---- the lease itself --------------------------------------------------------------------

  class ControlLease {
    var heartbeat: Time
    var lastPoll: Time
    const buffer: array<char>
    var size: nat
    var state: ControlState

    ghost predicate Valid()
      reads this
    {
      buffer.Length == MAXIMUM_LINE && size <= MAXIMUM_LINE
    }

    ghost function Abs(): Lease
      requires Valid()
      reads this, buffer
    {
      Lease(heartbeat, lastPoll, buffer[..size], state)
    }

    constructor (now: Time)
      ensures Valid() && fresh(buffer) && Abs() == NewLease(now)
    {
      buffer := new char[MAXIMUM_LINE];
      heartbeat, lastPoll, size, state := now, now, 0, Active;
    }

    method Tick(now: Time)
      requires Valid()
      modifies this`lastPoll, this`state
      ensures Valid() && Abs() == Ticked(old(Abs()), now)
    {
      if state != Active {
        return;
      }
      if now < lastPoll {
        state := Invalid;
        return;
      }
      lastPoll := now;
      if now - heartbeat >= TIMEOUT_NS {
        state := Expired;
      }
    }

    /** The stored line is one of the two the peer may send, or it is not. */
    method LineIs(text: string) returns (same: bool)
      requires Valid()
      ensures same <==> buffer[..size] == text
    {
      if |text| != size {
        return false;
      }
      for i := 0 to size
        invariant buffer[..i] == text[..i]
      {
        if buffer[i] != text[i] {
          return false;
        }
      }
      return true;
    }

    /** One byte; false when it ends the lease. */
    method Take(c: char, now: Time) returns (more: bool)
      requires Valid() && state == Active
      modifies this`heartbeat, this`size, this`state, buffer
      ensures Valid() && Abs() == Byte(old(Abs()), c, now) && more == (state == Active)
    {
      if c == '\n' {
        var stop := LineIs(STOP);
        var alive := LineIs(KEEPALIVE);
        size := 0;
        if stop {
          state := Stopped;
          return false;
        }
        if !alive {
          state := Invalid;
          return false;
        }
        heartbeat := now;
      } else {
        if c < ' ' || c > '~' || size == buffer.Length {
          state := Invalid;
          return false;
        }
        buffer[size] := c;
        size := size + 1;
      }
      return true;
    }

    method Consume(text: string, now: Time)
      requires Valid()
      modifies this, buffer
      ensures Valid() && Abs() == Consumed(old(Abs()), text, now)
    {
      Tick(now);
      if state != Active {
        return;
      }
      ghost var start := Abs();
      for i := 0 to |text|
        invariant Valid() && state == Active && Bytes(start, text, now) == Bytes(Abs(), text[i..], now)
      {
        ghost var before := Abs();
        assert text[i..][0] == text[i] && text[i..][1..] == text[i + 1..];
        var more := Take(text[i], now);
        if !more {
          return;
        }
      }
    }

    method Fail(reason: ControlState)
      requires Valid()
      modifies this`state
      ensures Valid() && Abs() == Failed(old(Abs()), reason)
      ensures state == if old(state) == Active then reason else old(state)
    {
      if state == Active && reason != Active {
        state := reason;
      }
    }
  }

  // ---- chunking --------------------------------------------------------------------------

  lemma {:induction false} BytesConcatenate(l: Lease, a: string, b: string, now: Time)
    ensures Bytes(l, a + b, now) == Bytes(Bytes(l, a, now), b, now)
    decreases |a|
  {
    if a == "" {
      assert a + b == b;
    } else if l.state == Active {
      assert (a + b)[0] == a[0] && (a + b)[1..] == a[1..] + b;
      BytesConcatenate(Byte(l, a[0], now), a[1..], b, now);
    }
  }

  /** Consuming only moves the heartbeat to now, so a second look at the same instant changes nothing. */
  lemma {:induction false} BytesKeepFresh(l: Lease, text: string, now: Time)
    requires l.lastPoll == now && now - l.heartbeat < TIMEOUT_NS
    ensures var v := Bytes(l, text, now); v.lastPoll == now && now - v.heartbeat < TIMEOUT_NS
    decreases |text|
  {
    if text != "" && l.state == Active {
      BytesKeepFresh(Byte(l, text[0], now), text[1..], now);
    }
  }

  function ConsumedAll(l: Lease, chunks: seq<string>, now: Time): Lease
    decreases |chunks|
  {
    if chunks == [] then l else ConsumedAll(Consumed(l, chunks[0], now), chunks[1..], now)
  }

  function Joined(chunks: seq<string>): string {
    if chunks == [] then "" else chunks[0] + Joined(chunks[1..])
  }

  lemma ConsumedTwice(l: Lease, a: string, b: string, now: Time)
    ensures Consumed(Consumed(l, a, now), b, now) == Consumed(l, a + b, now)
  {
    var t := Ticked(l, now);
    if t.state == Active {
      BytesKeepFresh(t, a, now);
      BytesConcatenate(t, a, b, now);
    }
  }

  /** However the bytes of one instant are cut up, the lease ends up the same. */
  lemma {:induction false} ChunkingInvariant(l: Lease, chunks: seq<string>, now: Time)
    requires chunks != []
    ensures ConsumedAll(l, chunks, now) == Consumed(l, Joined(chunks), now)
    decreases |chunks|
  {
    if |chunks| == 1 {
      assert chunks[1..] == [];
      assert Joined(chunks) == chunks[0] + "" == chunks[0];
    } else {
      var both := [chunks[0] + chunks[1]] + chunks[2..];
      ConsumedTwice(l, chunks[0], chunks[1], now);
      assert chunks[1..][0] == chunks[1] && chunks[1..][1..] == chunks[2..] && both[1..] == chunks[2..];
      assert Joined(both) == Joined(chunks) by {
        assert (chunks[0] + chunks[1]) + Joined(chunks[2..]) == chunks[0] + (chunks[1] + Joined(chunks[2..]));
      }
      ChunkingInvariant(l, both, now);
    }
  }

  // ---- what the bytes mean -----------------------------------------------------------------

  /** What a text says, read line by line: the state it leaves, what is left over, and whether it renews. */
  datatype Reading = Reading(state: ControlState, rest: string, renews: bool)

  function LineEnd(text: string): (i: nat)
    ensures i <= |text| && '\n' !in text[..i] && (i < |text| ==> text[i] == '\n')
  {
    if text == "" || text[0] == '\n' then 0 else 1 + LineEnd(text[1..])
  }

  predicate Acceptable(line: string) {
    |line| <= 32 && forall i :: 0 <= i < |line| ==> ' ' <= line[i] <= '~'
  }

  function Read(text: string): Reading
    decreases |text|
  {
    var i := LineEnd(text);
    if !Acceptable(text[..i]) then Reading(Invalid, "", false)
    else if i == |text| then Reading(Active, text, false)
    else if text[..i] == STOP then Reading(Stopped, "", false)
    else if text[..i] == KEEPALIVE then Read(text[i + 1..]).(renews := true)
    else Reading(Invalid, "", false)
  }

  lemma {:induction false} LineEndIs(text: string, i: nat)
    requires i <= |text| && '\n' !in text[..i] && (i < |text| ==> text[i] == '\n')
    ensures LineEnd(text) == i
    decreases i
  {
    if i > 0 {
      assert text[0] == text[..i][0];
      assert text[1..][..i - 1] == text[..i][1..];
      LineEndIs(text[1..], i - 1);
    }
  }

  /** Printable bytes that fit are taken as they come. */
  lemma {:induction false} TakesLine(l: Lease, line: string, rest: string, now: Time)
    requires l.state == Active && Acceptable(l.line + line)
    ensures Bytes(l, line + rest, now) == Bytes(l.(line := l.line + line), rest, now)
    decreases |line|
  {
    if line == "" {
      assert line + rest == rest && l.line + line == l.line;
    } else {
      assert (line + rest)[0] == line[0] && (line + rest)[1..] == line[1..] + rest;
      assert (l.line + line)[|l.line|] == line[0];
      assert l.line + line == l.line + [line[0]] + line[1..];
      assert line[0] != '\n';
      TakesLine(Byte(l, line[0], now), line[1..], rest, now);
    }
  }

  /** The first byte too many, or not printable, ends the lease. */
  lemma {:induction false} RefusesLine(l: Lease, line: string, rest: string, now: Time)
    requires l.state == Active && Acceptable(l.line) && '\n' !in line && !Acceptable(l.line + line)
    ensures Bytes(l, line + rest, now).state == Invalid && Bytes(l, line + rest, now).heartbeat == l.heartbeat
    decreases |line|
  {
    assert l.line + "" == l.line;
    assert (line + rest)[0] == line[0] && (line + rest)[1..] == line[1..] + rest;
    var b := Byte(l, line[0], now);
    if b.state == Active {
      assert l.line + line == b.line + line[1..];
      RefusesLine(b, line[1..], rest, now);
    }
  }

  lemma BytesStep(l: Lease, text: string, now: Time)
    ensures Bytes(l, text, now) ==
            if text == "" || l.state != Active then l else Bytes(Byte(l, text[0], now), text[1..], now)
  {
  }

  /**
   * Byte by byte is line by line: the state, the text left in the buffer and the renewal are those
   * of the whole text, the part already buffered included.
   */
  lemma {:induction false} ReadsLines(l: Lease, text: string, now: Time)
    requires l.state == Active && Acceptable(l.line) && '\n' !in l.line
    ensures var v := Bytes(l, text, now); var r := Read(l.line + text);
            && v.state == r.state
            && (r.state == Active ==> v.line == r.rest)
            && (r.state == Active ==> v.heartbeat == if r.renews then now else l.heartbeat)
    decreases |text|
  {
    hide Read, Acceptable, Bytes;
    var whole, i := l.line + text, LineEnd(text);
    assert whole[..|l.line| + i] == l.line + text[..i];
    LineEndIs(whole, |l.line| + i);
    assert text == text[..i] + text[i..];
    ReadStep(whole, |l.line| + i);
    if !Acceptable(l.line + text[..i]) {
      RefusesLine(l, text[..i], text[i..], now);
    } else {
      TakesLine(l, text[..i], text[i..], now);
      var full := l.(line := l.line + text[..i]);
      BytesStep(full, text[i..], now);
      if i < |text| {
        assert text[i..][0] == '\n' && text[i..][1..] == text[i + 1..];
        BytesStep(Byte(full, '\n', now), text[i + 1..], now);
        assert whole[|l.line| + i + 1..] == text[i + 1..];
        var next := Byte(full, '\n', now);
        if next.state == Active {
          NothingAcceptable();
          assert "" + text[i + 1..] == text[i + 1..];
          ReadsLines(next, text[i + 1..], now);
        }
      } else {
        assert text[i..] == "";
      }
    }
  }

  /** A whole line stops the lease, renews it, or ends it as invalid. */
  lemma LineDecides(l: Lease, line: string, now: Time)
    requires l.state == Active && l.line == "" && Acceptable(line)
    ensures Bytes(l, line + "\n", now) ==
            if line == STOP then l.(state := Stopped)
            else if line == KEEPALIVE then l.(heartbeat := now)
            else l.(state := Invalid)
  {
    assert l.line + line == line;
    TakesLine(l, line, "\n", now);
    hide Acceptable, STOP, KEEPALIVE;
    var full := l.(line := line);
    assert "\n"[1..] == "";
    assert Bytes(full, "\n", now) == Bytes(Byte(full, '\n', now), "", now);
  }

  lemma WordsAcceptable()
    ensures Acceptable("AVSYNC_STOP") && Acceptable("AVSYNC_KEEPALIVE") && "AVSYNC_STOP" != "AVSYNC_KEEPALIVE"
  {
    assert |"AVSYNC_STOP"| != |"AVSYNC_KEEPALIVE"|;
  }

  /** The two words the peer may send. */
  lemma WordsDecide(l: Lease, now: Time)
    requires l.state == Active && l.line == ""
    ensures Bytes(l, "AVSYNC_STOP" + "\n", now) == l.(state := Stopped)
    ensures Bytes(l, "AVSYNC_KEEPALIVE" + "\n", now) == l.(heartbeat := now)
  {
    hide Acceptable, Bytes;
    WordsAcceptable();
    LineDecides(l, "AVSYNC_STOP", now);
    LineDecides(l, "AVSYNC_KEEPALIVE", now);
  }

  lemma NothingAcceptable()
    ensures Acceptable("")
  {
  }

  lemma ReadStep(text: string, i: nat)
    requires i == LineEnd(text)
    ensures Read(text) ==
            if !Acceptable(text[..i]) then Reading(Invalid, "", false)
            else if i == |text| then Reading(Active, text, false)
            else if text[..i] == STOP then Reading(Stopped, "", false)
            else if text[..i] == KEEPALIVE then Read(text[i + 1..]).(renews := true)
            else Reading(Invalid, "", false)
  {
  }

  // ---- whole runs ------------------------------------------------------------------------

  datatype Event = TickEvent(now: Time) | ConsumeEvent(text: string, now: Time) | FailEvent(reason: ControlState)

  function After(l: Lease, e: Event): Lease {
    match e
    case TickEvent(now) => Ticked(l, now)
    case ConsumeEvent(text, now) => Consumed(l, text, now)
    case FailEvent(reason) => Failed(l, reason)
  }

  function Run(l: Lease, events: seq<Event>): Lease {
    if events == [] then l else After(Run(l, events[..|events| - 1]), events[|events| - 1])
  }

  /** A terminal state is never left. */
  lemma {:induction false} TerminalStays(l: Lease, events: seq<Event>)
    requires l.state != Active
    ensures Run(l, events) == l
    decreases |events|
  {
    if events != [] {
      TerminalStays(l, events[..|events| - 1]);
    }
  }

  /** Everything received so far. */
  function Stream(events: seq<Event>): string {
    if events == [] then ""
    else
      var e := events[|events| - 1];
      Stream(events[..|events| - 1]) + if e.ConsumeEvent? then e.text else ""
  }

  /** n complete keepalive lines. */
  function Keepalives(n: nat): string {
    if n == 0 then "" else KEEPALIVE + "\n" + Keepalives(n - 1)
  }

  lemma {:induction false} KeepalivesAdd(a: nat, b: nat)
    ensures Keepalives(a + b) == Keepalives(a) + Keepalives(b)
    decreases a
  {
    if a == 0 {
      assert "" + Keepalives(b) == Keepalives(b);
    } else {
      KeepalivesAdd(a - 1, b);
      assert KEEPALIVE + "\n" + (Keepalives(a - 1) + Keepalives(b)) == (KEEPALIVE + "\n" + Keepalives(a - 1)) + Keepalives(b);
    }
  }

  /** A text that leaves the lease active is some keepalive lines and an unfinished one, and nothing else. */
  lemma {:induction false} ActiveText(text: string) returns (n: nat)
    requires Read(text).state == Active
    ensures text == Keepalives(n) + Read(text).rest && (Read(text).renews <==> n > 0)
    ensures Acceptable(Read(text).rest) && '\n' !in Read(text).rest
    decreases |text|
  {
    hide Read, Acceptable, LineEnd, KEEPALIVE, STOP;
    var i := LineEnd(text);
    ReadStep(text, i);
    if i == |text| {
      n := 0;
      assert text[..i] == text;
      assert Keepalives(0) + text == text;
    } else {
      hide Keepalives;
      var m := ActiveText(text[i + 1..]);
      n := m + 1;
      OneMore(text, i, m, Read(text[i + 1..]).rest);
    }
  }

  lemma OneMore(text: string, i: nat, m: nat, rest: string)
    requires i < |text| && text[i] == '\n' && text[..i] == KEEPALIVE && text[i + 1..] == Keepalives(m) + rest
    ensures text == Keepalives(m + 1) + rest
  {
    assert text == text[..i] + [text[i]] + text[i + 1..];
    assert KEEPALIVE + "\n" + (Keepalives(m) + rest) == (KEEPALIVE + "\n" + Keepalives(m)) + rest;
  }

  /** With this event, the peer's bytes complete one more keepalive line. */
  ghost predicate Completes(events: seq<Event>, i: nat)
    requires i < |events|
  {
    LineCompleted(Stream(events[..i]), Stream(events[..i + 1]))
  }

  ghost predicate LineCompleted(before: string, after: string) {
    exists n: nat :: n > 0 && |before| < |Keepalives(n)| && Keepalives(n) <= after
  }

  /** A moment the lease counts from: its construction, or an event that completed a keepalive line. */
  ghost predicate Renewal(start: Time, events: seq<Event>, time: Time) {
    time == start || exists i :: 0 <= i < |events| && events[i].ConsumeEvent? && events[i].now == time && Completes(events, i)
  }

  lemma RenewalStays(start: Time, events: seq<Event>, e: Event, time: Time)
    requires Renewal(start, events, time)
    ensures Renewal(start, events + [e], time)
  {
    var all := events + [e];
    if time != start {
      var i :| 0 <= i < |events| && events[i].ConsumeEvent? && events[i].now == time && Completes(events, i);
      assert all[..i] == events[..i] && all[..i + 1] == events[..i + 1] && all[i] == events[i];
      assert Completes(all, i);
    }
  }

  /** While it is active, the lease has been sent nothing but keepalive lines and a part of one more. */
  ghost predicate ActiveInv(start: Time, events: seq<Event>, l: Lease, n: nat) {
    && Stream(events) == Keepalives(n) + l.line && Acceptable(l.line) && '\n' !in l.line
    && l.heartbeat <= l.lastPoll && Renewal(start, events, l.heartbeat) && Latest(start, events, l.heartbeat)
  }

  /** No renewal is later than this one. */
  ghost predicate Latest(start: Time, events: seq<Event>, heartbeat: Time) {
    forall time :: Renewal(start, events, time) ==> time <= heartbeat
  }

  /** A renewal is an earlier one, or the last event has just completed a line. */
  lemma RenewalCases(start: Time, events: seq<Event>, e: Event, time: Time)
    requires Renewal(start, events + [e], time)
    ensures Renewal(start, events, time) || (e.ConsumeEvent? && e.now == time && Completes(events + [e], |events|))
  {
    var all := events + [e];
    if time != start {
      var i :| 0 <= i < |all| && all[i].ConsumeEvent? && all[i].now == time && Completes(all, i);
      if i < |events| {
        assert all[..i] == events[..i] && all[..i + 1] == events[..i + 1] && all[i] == events[i];
        assert Completes(events, i);
      }
    }
  }

  /** Bytes that leave the same number of complete lines complete none. */
  lemma CompletesNothing(before: string, after: string, n: nat, line: string, rest: string)
    requires before == Keepalives(n) + line && after == Keepalives(n) + rest && '\n' !in rest
    ensures !LineCompleted(before, after)
  {
    KeepalivesLength(n);
    forall m: nat | |before| < |Keepalives(m)|
      ensures !(Keepalives(m) <= after)
    {
      KeepalivesLength(m);
      NotYet(after, n, m, rest);
    }
  }

  lemma NotYet(after: string, n: nat, m: nat, rest: string)
    requires n < m && after == Keepalives(n) + rest && '\n' !in rest
    ensures !(Keepalives(m) <= after)
  {
    KeepalivesLength(n);
    KeepalivesAdd(n, m - n);
    EndsLine(m - n);
    assert Keepalives(m)[17 * n + 16] == '\n';
    assert forall k :: 0 <= k < |rest| ==> after[17 * n + k] == rest[k];
    assert |after| > 17 * n + 16 ==> after[17 * n + 16] == rest[16];
  }

  lemma EndsLine(k: nat)
    requires k > 0
    ensures |Keepalives(k)| >= 17 && Keepalives(k)[16] == '\n'
  {
    assert (KEEPALIVE + "\n")[16] == '\n';
  }

  lemma LatestStays(start: Time, events: seq<Event>, e: Event, heartbeat: Time)
    requires Latest(start, events, heartbeat) && (e.ConsumeEvent? ==> !Completes(events + [e], |events|))
    ensures Latest(start, events + [e], heartbeat)
  {
    forall time | Renewal(start, events + [e], time)
      ensures time <= heartbeat
    {
      RenewalCases(start, events, e, time);
    }
  }

  lemma LatestMoves(start: Time, events: seq<Event>, text: string, now: Time, heartbeat: Time)
    requires Latest(start, events, heartbeat) && heartbeat <= now
    ensures Latest(start, events + [ConsumeEvent(text, now)], now)
  {
    forall time | Renewal(start, events + [ConsumeEvent(text, now)], time)
      ensures time <= now
    {
      RenewalCases(start, events, ConsumeEvent(text, now), time);
    }
  }

  lemma ConsumeKeeps(start: Time, events: seq<Event>, l: Lease, n: nat, text: string, now: Time) returns (m: nat)
    requires l.state == Active && ActiveInv(start, events, l, n) && Consumed(l, text, now).state == Active
    ensures ActiveInv(start, events + [ConsumeEvent(text, now)], Consumed(l, text, now), m)
  {
    hide Keepalives, Read, Bytes, Renewal, Acceptable, Latest, LineCompleted;
    var t, v, all := Ticked(l, now), Consumed(l, text, now), events + [ConsumeEvent(text, now)];
    ReadsLines(t, text, now);
    BytesKeepFresh(t, text, now);
    var k := ActiveText(l.line + text);
    m := n + k;
    KeepalivesAdd(n, k);
    assert all[..|all| - 1] == events && all[|all| - 1] == ConsumeEvent(text, now);
    assert Keepalives(n) + l.line + text == Keepalives(n) + (l.line + text);
    assert Stream(all) == Keepalives(m) + v.line;
    if k == 0 {
      RenewalStays(start, events, ConsumeEvent(text, now), l.heartbeat);
      assert all[..|events|] == events && all[..|events| + 1] == all;
      CompletesNothing(Stream(events), Stream(all), n, l.line, v.line);
      LatestStays(start, events, ConsumeEvent(text, now), l.heartbeat);
    } else {
      CompletesHere(events, l.line, text, now, n, k, v.line);
      RenewedHere(start, events, text, now);
      LatestMoves(start, events, text, now, l.heartbeat);
    }
  }

  lemma RenewedHere(start: Time, events: seq<Event>, text: string, now: Time)
    requires Completes(events + [ConsumeEvent(text, now)], |events|)
    ensures Renewal(start, events + [ConsumeEvent(text, now)], now)
  {
    assert (events + [ConsumeEvent(text, now)])[|events|] == ConsumeEvent(text, now);
  }

  lemma {:induction false} KeepalivesLength(n: nat)
    ensures |Keepalives(n)| == 17 * n
  {
    if n > 0 {
      KeepalivesLength(n - 1);
    }
  }

  /** An unfinished line that a text turns into keepalive lines is shorter than one of them. */
  lemma ShortLine(line: string, text: string, k: nat, rest: string)
    requires k > 0 && '\n' !in line && line + text == Keepalives(k) + rest
    ensures |line| <= 16
  {
    KeepalivesLength(k);
    assert Keepalives(k)[16] == '\n' by {
      assert (KEEPALIVE + "\n")[16] == '\n';
    }
    assert (line + text)[16] == '\n';
    assert forall i :: 0 <= i < |line| ==> (line + text)[i] == line[i];
  }

  lemma CompletesHere(events: seq<Event>, line: string, text: string, now: Time, n: nat, k: nat, rest: string)
    requires k > 0 && Stream(events) == Keepalives(n) + line && '\n' !in line && line + text == Keepalives(k) + rest
    ensures Completes(events + [ConsumeEvent(text, now)], |events|)
  {
    hide LineCompleted, Keepalives;
    var all := events + [ConsumeEvent(text, now)];
    assert all[..|events|] == events && all[..|events| + 1] == all;
    StreamGrows(events, text, now);
    LongerPrefix(Stream(events), text, n, k, line, rest);
  }

  lemma StreamGrows(events: seq<Event>, text: string, now: Time)
    ensures Stream(events + [ConsumeEvent(text, now)]) == Stream(events) + text
  {
    var all := events + [ConsumeEvent(text, now)];
    assert all[..|all| - 1] == events;
  }

  lemma LongerPrefix(before: string, text: string, n: nat, k: nat, line: string, rest: string)
    requires k > 0 && before == Keepalives(n) + line && '\n' !in line && line + text == Keepalives(k) + rest
    ensures LineCompleted(before, before + text)
  {
    hide Keepalives;
    ShortLine(line, text, k, rest);
    KeepalivesLength(n);
    KeepalivesLength(n + k);
    KeepalivesAdd(n, k);
    assert before + text == Keepalives(n) + (line + text) == Keepalives(n + k) + rest;
  }

  lemma {:induction false} RunKeeps(start: Time, events: seq<Event>) returns (n: nat)
    requires Run(NewLease(start), events).state == Active
    ensures ActiveInv(start, events, Run(NewLease(start), events), n)
    decreases |events|
  {
    if events == [] {
      n := 0;
      assert Keepalives(0) + "" == "";
    } else {
      var before, e := events[..|events| - 1], events[|events| - 1];
      var l := Run(NewLease(start), before);
      if l.state != Active {
        TerminalStays(l, [e]);
      }
      n := RunKeeps(start, before);
      assert before + [e] == events;
      if e.ConsumeEvent? {
        n := ConsumeKeeps(start, before, l, n, e.text, e.now);
      } else {
        RenewalStays(start, before, e, l.heartbeat);
        LatestStays(start, before, e, l.heartbeat);
        assert Stream(before) + "" == Stream(before);
      }
    }
  }

  /**
   * Whenever a tick finds the lease active, its construction or the completion of a keepalive line
   * lies less than twelve seconds back.  Unfinished lines never count.
   */
  lemma ActiveMeansRecent(start: Time, events: seq<Event>, now: Time)
    requires Ticked(Run(NewLease(start), events), now).state == Active
    ensures exists time :: Renewal(start, events, time) && now - 12_000_000_000 < time <= now
  {
    var n := RunKeeps(start, events);
    assert Renewal(start, events, Run(NewLease(start), events).heartbeat);
  }

  /** When the lease was last polled, by a tick or with bytes to consume. */
  function LastTime(start: Time, events: seq<Event>): Time {
    if events == [] then start
    else
      match events[|events| - 1]
      case TickEvent(now) => now
      case ConsumeEvent(_, now) => now
      case FailEvent(_) => LastTime(start, events[..|events| - 1])
  }

  lemma BytesKeepPoll(l: Lease, text: string, now: Time)
    ensures Bytes(l, text, now).lastPoll == l.lastPoll
    decreases |text|
  {
  }

  lemma {:induction false} LastPolled(start: Time, events: seq<Event>)
    requires Run(NewLease(start), events).state == Active
    ensures Run(NewLease(start), events).lastPoll == LastTime(start, events)
    decreases |events|
  {
    if events != [] {
      var before, e := events[..|events| - 1], events[|events| - 1];
      var l := Run(NewLease(start), before);
      if e.ConsumeEvent? {
        BytesKeepPoll(Ticked(l, e.now), e.text, e.now);
      }
      if e.FailEvent? {
        LastPolled(start, before);
      }
    }
  }

  /**
   * Exactly: a tick of a lease that is still active finds the clock gone back, and the lease invalid; or
   * finds it active, if and only if some renewal lies less than twelve seconds back; or else expired.
   */
  lemma SilenceExpires(start: Time, events: seq<Event>, now: Time)
    requires Run(NewLease(start), events).state == Active
    ensures Ticked(Run(NewLease(start), events), now).state ==
              if now < LastTime(start, events) then Invalid
              else if exists time :: Renewal(start, events, time) && now - 12_000_000_000 < time then Active
              else Expired
  {
    var n := RunKeeps(start, events);
    LastPolled(start, events);
    assert Renewal(start, events, Run(NewLease(start), events).heartbeat);
  }
}
