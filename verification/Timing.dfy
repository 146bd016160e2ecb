// The shared time base: checked 64-bit arithmetic and the exact rational sample grid
// (src/core/timing.cpp, include/avsync/timing.hpp).
module Timing {
  const U64_MAX: int := 0xFFFF_FFFF_FFFF_FFFF
  const U32_MAX: int := 0xFFFF_FFFF
  const I64_MAX: int := 0x7FFF_FFFF_FFFF_FFFF
  const I64_MIN: int := -0x8000_0000_0000_0000

  type u64 = x: int | 0 <= x <= U64_MAX
  type u32 = x: int | 0 <= x <= U32_MAX
  type Nanoseconds = x: int | I64_MIN <= x <= I64_MAX

  const NS_PER_SECOND: int := 1_000_000_000
  const WIRE_RATE: int := 48_000

  datatype Option<+T> = None | Some(value: T)

  /** A sender session and its media generation. */
  datatype SessionToken = SessionToken(session: u64, generation: u64) {
    predicate Valid() {
      session != 0 && generation != 0
    }
  }

  /** Generations strictly increase within a session; a new session starts over. */
  predicate ValidSuccessor(current: SessionToken, next: SessionToken) {
    next.Valid() && (next.session != current.session || next.generation > current.generation)
  }

  /** The overflow guards are the ones the program tests before it adds. */
  function CheckedAdd(a: Nanoseconds, b: Nanoseconds): (r: Option<Nanoseconds>)
    ensures r == if I64_MIN <= a + b <= I64_MAX then Some(a + b) else None
  {
    if (b > 0 && a > I64_MAX - b) || (b < 0 && a < I64_MIN - b) then None else Some(a + b)
  }

  function CheckedSub(a: Nanoseconds, b: Nanoseconds): (r: Option<Nanoseconds>)
    ensures r == if I64_MIN <= a - b <= I64_MAX then Some(a - b) else None
  {
    if (b > 0 && a < I64_MIN + b) || (b < 0 && a > I64_MAX + b) then None else Some(a - b)
  }

  /** floor(n * units / denominator): the value MulDiv must reach without ever forming the product. */
  function Scaled(n: nat, units: nat, denominator: nat): nat
    requires denominator > 0
  {
    n * units / denominator
  }

  lemma ProductBelow(k: int, divisor: int)
    requires divisor > 0 && k * divisor < divisor
    ensures k <= 0
  {
  }

  /** A quotient and remainder pair is the floor division it claims to be. */
  lemma QuotientUnique(value: int, divisor: int, quotient: int, remainder: int)
    requires divisor > 0 && 0 <= remainder < divisor
    requires value == quotient * divisor + remainder
    ensures value / divisor == quotient && value % divisor == remainder
  {
    var q, r := value / divisor, value % divisor;
    DivisionIdentity(value, divisor);
    assert (q - quotient) * divisor == q * divisor - quotient * divisor;
    assert (quotient - q) * divisor == quotient * divisor - q * divisor;
    ProductBelow(q - quotient, divisor);
    ProductBelow(quotient - q, divisor);
  }

  lemma DivisionIdentity(value: int, divisor: int)
    requires divisor > 0
    ensures value == (value / divisor) * divisor + value % divisor
    ensures 0 <= value % divisor < divisor
  {
  }

  /** Any lower bound on a scaled quotient that leaves room for it carries over to the floor. */
  lemma FloorAtLeast(value: int, divisor: int, bound: int)
    requires divisor > 0
    requires value >= bound * divisor
    ensures value / divisor >= bound
  {
    var q := value / divisor;
    DivisionIdentity(value, divisor);
    assert (bound - q) * divisor == bound * divisor - q * divisor;
    ProductBelow(bound - q, divisor);
  }

  /** The amount a double-and-add state (n, q + r/d, outQ + outR/d) still stands for. */
  ghost function Held(n: int, q: int, r: int, outQ: int, outR: int, d: int): int {
    n * (q * d + r) + outQ * d + outR
  }

  function Quotient(a: int, d: int): int
    requires d > 0
  {
    a / d
  }

  function Remainder(a: int, d: int): int
    requires d > 0
  {
    a % d
  }

  lemma OneUnit(n: int, unit: int)
    requires n >= 1 && unit >= 0
    ensures n * unit == (n - 1) * unit + unit && (n - 1) * unit >= 0
  {
  }

  lemma Distribute(a: int, b: int, c: int, d: int)
    ensures (a + b + c) * d == a * d + b * d + c * d
  {
  }

  /** Moving one odd unit of n into the output, with a carry out of the remainders. */
  lemma TakeOdd(n: int, q: int, r: int, outQ: int, outR: int, d: int)
    requires d > 0 && n >= 1 && q >= 0 && 0 <= r < d && 0 <= outR < d
    ensures var carry := Quotient(outR + r, d); var rest := Remainder(outR + r, d);
            && carry >= 0
            && 0 <= rest < d
            && Held(n, q, r, outQ, outR, d) == Held(n - 1, q, r, outQ + q + carry, rest, d)
            && Quotient(Held(n, q, r, outQ, outR, d), d) >= outQ + q + carry
  {
    var carry, rest := (outR + r) / d, (outR + r) % d;
    DivisionIdentity(outR + r, d);
    FloorAtLeast(outR + r, d, 0);
    assert q * d >= 0;
    OneUnit(n, q * d + r);
    Distribute(outQ, q, carry, d);
    FloorAtLeast(Held(n, q, r, outQ, outR, d), d, outQ + q + carry);
  }

  /** Halving an even n while doubling the unit it counts. */
  lemma DoubleUnit(n: int, q: int, r: int, outQ: int, outR: int, d: int)
    requires d > 0 && n >= 0 && q >= 0 && 0 <= r < d && outQ >= 0 && outR >= 0
    ensures var carry := Quotient(r + r, d); var rest := Remainder(r + r, d);
            && carry >= 0
            && 0 <= rest < d
            && Held(2 * n, q, r, outQ, outR, d) == Held(n, q * 2 + carry, rest, outQ, outR, d)
            && (n >= 1 ==> Quotient(Held(2 * n, q, r, outQ, outR, d), d) >= q * 2 + carry)
  {
    var carry, rest := (r + r) / d, (r + r) % d;
    DivisionIdentity(r + r, d);
    FloorAtLeast(r + r, d, 0);
    var unit := (q * 2 + carry) * d + rest;
    assert unit == 2 * (q * d + r) by {
      assert (q * 2 + carry) * d == 2 * (q * d) + carry * d;
    }
    assert (2 * n) * (q * d + r) == n * unit;
    if n >= 1 {
      assert (q * 2 + carry) * d >= 0 && outQ * d >= 0;
      assert n * unit == (n - 1) * unit + unit;
      assert (n - 1) * unit >= 0;
      FloorAtLeast(Held(2 * n, q, r, outQ, outR, d), d, q * 2 + carry);
    }
  }

  lemma HeldAtStart(n: int, units: int, d: int)
    requires d > 0 && units >= 0
    ensures Held(n, Quotient(units, d), Remainder(units, d), 0, 0, d) == n * units
    ensures 0 <= Remainder(units, d) < d && 0 <= Quotient(units, d) <= units
  {
    hide Held;
    DivisionIdentity(units, d);
    FloorAtLeast(units, d, 0);
    var q, r := Quotient(units, d), Remainder(units, d);
    NothingOut(n, q, r, d, units);
    GrowsBy(q, d);
  }

  lemma NothingOut(n: int, q: int, r: int, d: int, units: int)
    requires q * d + r == units
    ensures Held(n, q, r, 0, 0, d) == n * units
  {
  }

  lemma GrowsBy(q: int, d: int)
    requires q >= 0 && d > 0
    ensures q <= q * d
  {
    assert q * (d - 1) >= 0;
  }

  lemma HeldAtEnd(q: int, r: int, outQ: int, outR: int, d: int)
    requires d > 0 && 0 <= outR < d
    ensures Quotient(Held(0, q, r, outQ, outR, d), d) == outQ
  {
    QuotientUnique(outQ * d + outR, d, outQ, outR);
  }

  lemma ScaledIsQuotient(n: nat, units: nat, d: nat)
    requires d > 0
    ensures Scaled(n, units, d) == Quotient(n * units, d)
  {
  }

  /**
   * Double-and-add multiplication over quotient and remainder pairs.  The result is the exact
   * floor, and it is missing exactly when that floor does not fit 64 bits: no intermediate
   * overflow test rejects a representable answer.
   */
  method MulDiv(n0: u64, units: u64, denominator: u32) returns (result: Option<u64>)
    requires denominator > 0
    ensures result == if Scaled(n0, units, denominator) <= U64_MAX
                      then Some(Scaled(n0, units, denominator)) else None
  {
    hide Held, Quotient, Remainder;
    var d: int := denominator;
    var n: int := n0;
    HeldAtStart(n, units, d);
    var q: int, r: int := Quotient(units, d), Remainder(units, d);
    var outQ: int, outR: int := 0, 0;
    ghost var total := Held(n, q, r, 0, 0, d);
    ScaledIsQuotient(n0, units, d);
    while n != 0
      invariant 0 <= n <= U64_MAX && 0 <= q <= U64_MAX && 0 <= outQ <= U64_MAX
      invariant 0 <= r < d && 0 <= outR < d
      invariant Held(n, q, r, outQ, outR, d) == total
      decreases n
    {
      if n % 2 == 1 {
        TakeOdd(n, q, r, outQ, outR, d);
        var carry := Quotient(outR + r, d);
        outR := Remainder(outR + r, d);
        if q > U64_MAX - outQ {
          return None;
        }
        outQ := outQ + q;
        if carry > U64_MAX - outQ {
          return None;
        }
        outQ := outQ + carry;
        n := n - 1;
      }
      assert Held(n, q, r, outQ, outR, d) == total;
      n := n / 2;
      DoubleUnit(n, q, r, outQ, outR, d);
      if n != 0 {
        var carry := Quotient(r + r, d);
        r := Remainder(r + r, d);
        if q > (U64_MAX - carry) / 2 {
          return None;
        }
        q := q * 2 + carry;
      }
    }
    HeldAtEnd(q, r, outQ, outR, d);
    return Some(outQ);
  }

  /** A signed origin plus an unsigned distance, computed without leaving either width. */
  function AddUnsigned(origin: Nanoseconds, delta: u64): (r: Option<Nanoseconds>)
    ensures r == if origin + delta <= I64_MAX then Some(origin + delta) else None
  {
    if origin >= 0 then
      if delta > I64_MAX - origin then None else Some(origin + delta)
    else
      var magnitude := -(origin + 1) + 1;
      if delta >= magnitude then
        var positive := delta - magnitude;
        if positive > I64_MAX then None else Some(positive)
      else
        var negative := magnitude - delta;
        if negative == I64_MAX + 1 then Some(I64_MIN) else Some(-negative)
  }

  /** The grid a timeline promises: origin + floor(index * 1e9 * denominator / numerator). */
  function GridTime(origin: int, numerator: nat, denominator: nat, index: nat): int
    requires numerator > 0
  {
    origin + Scaled(index, NS_PER_SECOND * denominator, numerator)
  }

  class RationalTimeline {
    const origin: Nanoseconds
    const numerator: u32
    const denominator: u32

    ghost predicate Valid() {
      numerator > 0 && denominator > 0
    }

    constructor (origin: Nanoseconds, numerator: u32, denominator: u32)
      requires numerator > 0 && denominator > 0
      ensures Valid() && this.origin == origin && this.numerator == numerator && this.denominator == denominator
    {
      this.origin := origin;
      this.numerator := numerator;
      this.denominator := denominator;
    }

    /** Exact, and missing exactly when the instant is not a representable time. */
    method At(index: u64) returns (time: Option<Nanoseconds>)
      requires Valid()
      ensures var exact := GridTime(origin, numerator, denominator, index);
              time == if exact <= I64_MAX then Some(exact) else None
    {
      var delta := MulDiv(index, NS_PER_SECOND * denominator, numerator);
      match delta
      case None => time := None;
      case Some(ns) => time := AddUnsigned(origin, ns);
    }
  }

  /** The 48 kHz grid used by every audio stage; None where the instant is not representable. */
  function Grid48(origin: Nanoseconds, index: nat): (r: Option<Nanoseconds>)
  {
    var t := GridTime(origin, WIRE_RATE, 1, index);
    if t <= I64_MAX then Some(t) else None
  }

  lemma FloorMonotone(a: int, b: int, divisor: int)
    requires divisor > 0 && a <= b
    ensures a / divisor <= b / divisor
  {
    assert a == (a / divisor) * divisor + a % divisor;
    FloorAtLeast(b, divisor, a / divisor);
  }

  lemma GridMonotone(origin: int, numerator: nat, denominator: nat, i: nat, j: nat)
    requires numerator > 0 && i <= j
    ensures GridTime(origin, numerator, denominator, i) <= GridTime(origin, numerator, denominator, j)
  {
    var unit := NS_PER_SECOND * denominator;
    assert (j - i) * unit >= 0;
    assert j * unit == i * unit + (j - i) * unit;
    FloorMonotone(i * unit, j * unit, numerator);
  }

  /** Ten milliseconds per 480-frame quantum, exactly: quantum boundaries carry no rounding. */
  lemma QuantumGridExact(origin: int, k: nat)
    ensures GridTime(origin, WIRE_RATE, 1, 480 * k) == origin + 10_000_000 * k
  {
    QuotientUnique(480 * k * NS_PER_SECOND, WIRE_RATE, 10_000_000 * k, 0);
  }
}
