// The exact rational association of device frames with 48 kHz wire frames
// (include/avsync/audio_anchors.hpp).
module WirePosition {
  import opened Timing

  /** whole + remainder / denominator wire frames. */
  datatype ExactWirePosition = ExactWirePosition(whole: u64, remainder: u32, denominator: u32)

  /** The program's split arithmetic, with each of its overflow tests. */
  function NominalWirePosition(devicePosition: u64, deviceOrigin: u64, wireOrigin: u64, sourceRate: u32)
    : (r: Option<ExactWirePosition>)
  {
    if sourceRate == 0 || devicePosition < deviceOrigin then None
    else
      var delta := devicePosition - deviceOrigin;
      var quotient := delta / sourceRate;
      DivisionIdentity(delta, sourceRate);
      FloorAtLeast(delta, sourceRate, 0);
      var numerator := (delta % sourceRate) * WIRE_RATE;
      if quotient > U64_MAX / WIRE_RATE then None
      else
        var whole := quotient * WIRE_RATE;
        var carry := numerator / sourceRate;
        DivisionIdentity(numerator, sourceRate);
        FloorAtLeast(numerator, sourceRate, 0);
        if carry > U64_MAX - whole then None
        else if wireOrigin > U64_MAX - (whole + carry) then None
        else Some(ExactWirePosition(whole + carry + wireOrigin, numerator % sourceRate, sourceRate))
  }

  /** The wire frames, scaled by the source rate, that a device position stands for. */
  function ScaledPosition(devicePosition: u64, deviceOrigin: u64, wireOrigin: u64, sourceRate: u32): int {
    wireOrigin * sourceRate + (devicePosition - deviceOrigin) * WIRE_RATE
  }

  /**
   * Exactness: whole + remainder / rate is wireOrigin + delta * 48000 / rate, and a position is
   * refused only for a zero rate, a position before the origin, or a whole part that truly does
   * not fit 64 bits.
   */
  lemma NominalIsExact(devicePosition: u64, deviceOrigin: u64, wireOrigin: u64, sourceRate: u32)
    requires sourceRate > 0 && devicePosition >= deviceOrigin
    ensures var exact := ScaledPosition(devicePosition, deviceOrigin, wireOrigin, sourceRate);
            match NominalWirePosition(devicePosition, deviceOrigin, wireOrigin, sourceRate)
            case Some(p) => p.denominator == sourceRate && p.remainder < sourceRate && p.whole * sourceRate + p.remainder == exact
            case None => exact >= (U64_MAX + 1) * sourceRate
  {
    var delta, rate: int := devicePosition - deviceOrigin, sourceRate;
    var q, m := delta / rate, delta % rate;
    DivisionIdentity(delta, rate);
    FloorAtLeast(delta, rate, 0);
    var numerator := m * WIRE_RATE;
    var carry, rest := numerator / rate, numerator % rate;
    DivisionIdentity(numerator, rate);
    FloorAtLeast(numerator, rate, 0);
    SplitScale(wireOrigin, q, m, carry, rest, rate);
    var total := wireOrigin + q * WIRE_RATE + carry;
    if total > U64_MAX {
      MulLe(U64_MAX + 1, total, rate);
    }
  }

  /** Splitting delta into quotient and remainder before scaling loses nothing. */
  lemma SplitScale(origin: int, q: int, m: int, carry: int, rest: int, rate: int)
    requires m * WIRE_RATE == carry * rate + rest
    ensures (origin + q * WIRE_RATE + carry) * rate + rest == origin * rate + (q * rate + m) * WIRE_RATE
  {
    assert (origin + q * WIRE_RATE + carry) * rate == origin * rate + q * WIRE_RATE * rate + carry * rate;
    assert q * WIRE_RATE * rate == q * rate * WIRE_RATE;
  }

  lemma MulLe(a: int, b: int, rate: int)
    requires a <= b && rate >= 0
    ensures a * rate <= b * rate
  {
    assert (b - a) * rate >= 0;
  }

  /** At the wire rate itself device frames and wire frames coincide. */
  lemma NominalAtWireRate(devicePosition: u64, deviceOrigin: u64)
    requires devicePosition >= deviceOrigin
    ensures NominalWirePosition(devicePosition, deviceOrigin, 0, WIRE_RATE) ==
            Some(ExactWirePosition(devicePosition - deviceOrigin, 0, WIRE_RATE))
  {
    NominalIsExact(devicePosition, deviceOrigin, 0, WIRE_RATE);
  }

  /** A wire position is at or before a frame when its rational value is. */
  predicate AtOrBeforeFrame(p: ExactWirePosition, frame: nat) {
    !(p.whole > frame || (p.whole == frame && p.remainder != 0))
  }

  lemma AtOrBeforeIsNumeric(devicePosition: u64, deviceOrigin: u64, wireOrigin: u64, sourceRate: u32, frame: nat)
    requires sourceRate > 0 && devicePosition >= deviceOrigin
    requires NominalWirePosition(devicePosition, deviceOrigin, wireOrigin, sourceRate).Some?
    ensures AtOrBeforeFrame(NominalWirePosition(devicePosition, deviceOrigin, wireOrigin, sourceRate).value, frame)
            <==> ScaledPosition(devicePosition, deviceOrigin, wireOrigin, sourceRate) <= frame * sourceRate
  {
    NominalIsExact(devicePosition, deviceOrigin, wireOrigin, sourceRate);
    var p := NominalWirePosition(devicePosition, deviceOrigin, wireOrigin, sourceRate).value;
    if p.whole < frame {
      MulLe(p.whole + 1, frame, sourceRate);
    } else if p.whole > frame {
      MulLe(frame + 1, p.whole, sourceRate);
    }
  }
}
