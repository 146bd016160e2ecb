// The fixed-rate converter's frame accounting: what goes in, what comes out, and the padding that makes
// the total exact at the end of a stream (src/audio/nominal_audio.cpp).
module NominalConverter {
  import opened Timing

  const OUTPUT_RATE: nat := 48_000
  const MAXIMUM_TOTAL: int := U64_MAX / OUTPUT_RATE

  /** How many frames the converter would put out for so many more frames of input. */
  type OutFrames = nat -> nat

  ghost predicate Increasing(out: OutFrames) {
    forall a: nat, b: nat :: a <= b ==> out(a) <= out(b)
  }

  /** The exact duration in output frames, rounded down. */
  function Exact(inputFrames: nat, rate: nat): nat
    requires rate > 0
  {
    inputFrames * OUTPUT_RATE / rate
  }

  /** The program's split form, and what it needs to stay within 64 bits. */
  function DurationFrames(inputFrames: u64, rate: u32): int
    requires rate > 0
  {
    (inputFrames / rate) * OUTPUT_RATE + ((inputFrames % rate) * OUTPUT_RATE) / rate
  }

  lemma DurationIsExact(inputFrames: u64, rate: u32)
    requires rate > 0 && inputFrames <= MAXIMUM_TOTAL
    ensures DurationFrames(inputFrames, rate) == Exact(inputFrames, rate)
    ensures 0 <= DurationFrames(inputFrames, rate) <= inputFrames * OUTPUT_RATE <= U64_MAX
    ensures (inputFrames % rate) * OUTPUT_RATE <= U64_MAX
  {
    var q, m := inputFrames / rate, inputFrames % rate;
    DivisionIdentity(inputFrames, rate);
    var c, r := (m * OUTPUT_RATE) / rate, (m * OUTPUT_RATE) % rate;
    DivisionIdentity(m * OUTPUT_RATE, rate);
    FloorAtLeast(m * OUTPUT_RATE, rate, 0);
    FloorAtLeast(inputFrames, rate, 0);
    Regroup(q, m, c, r, rate, inputFrames);
    QuotientUnique(inputFrames * OUTPUT_RATE, rate, q * OUTPUT_RATE + c, r);
    GrowsBy(q, rate);
    GrowsBy(c, rate);
  }

  lemma Regroup(q: int, m: int, c: int, r: int, rate: int, n: int)
    requires n == q * rate + m && m * OUTPUT_RATE == c * rate + r
    ensures n * OUTPUT_RATE == (q * OUTPUT_RATE + c) * rate + r
  {
    assert n * OUTPUT_RATE == q * rate * OUTPUT_RATE + m * OUTPUT_RATE;
    assert (q * OUTPUT_RATE + c) * rate == q * OUTPUT_RATE * rate + c * rate;
  }

  datatype Status = Progress | NoProgress | Finished | Invalid | Failed
  datatype Result = Result(status: Status, used: nat, generated: nat)

  /** What one call of the backend does: it succeeds, and its output is finite, or it does not. */
  datatype Conversion = Conversion(succeeds: bool, finite: bool)

  class Converter {
    const rate: u32
    const maximumInput: nat
    const maximumFinishInput: nat
    var inputTotal: u64
    var outputTotal: nat
    var finished: bool
    var failed: bool

    constructor (rate: u32, maximumInput: nat, latency: nat)
      requires 8_000 <= rate <= 384_000 && 0 < maximumInput <= rate / 2 && latency <= 2048
      ensures Valid() && this.rate == rate && this.maximumInput == maximumInput
      ensures inputTotal == 0 && outputTotal == 0 && !finished && !failed
    {
      this.rate, this.maximumInput := rate, maximumInput;
      maximumFinishInput := latency + (rate + OUTPUT_RATE - 1) / OUTPUT_RATE + 2;
      inputTotal, outputTotal, finished, failed := 0, 0, false, false;
    }

    ghost predicate Valid()
      reads this
    {
      && 8_000 <= rate <= 384_000 && maximumFinishInput > 0 && inputTotal <= MAXIMUM_TOTAL
      && (finished && !failed ==> outputTotal == Exact(inputTotal, rate))
    }

    /**
     * One block of input.  The guard on the total admits exactly what keeps the final duration
     * representable; input and output counts go up together or not at all.
     */
    method Process(bytes: nat, inputFrames: nat, bytesPerFrame: nat, overlapping: bool, outputFrames: nat, finiteInput: bool,
                   out: OutFrames, conversion: Conversion) returns (r: Result)
      requires Valid()
      modifies this`inputTotal, this`outputTotal, this`failed
      ensures Valid() && (old(failed) ==> failed)
      ensures r.status == Progress <==>
        && !old(failed) && !finished && 0 < inputFrames <= maximumInput
        && bytes == inputFrames * bytesPerFrame && !overlapping && old(inputTotal) + inputFrames <= MAXIMUM_TOTAL
        && out(inputFrames) <= outputFrames && finiteInput && conversion.succeeds && conversion.finite
      ensures r.status == Progress ==>
        && r.used == inputFrames && r.generated == out(inputFrames)
        && inputTotal == old(inputTotal) + inputFrames && outputTotal == old(outputTotal) + out(inputFrames) && !failed
      ensures r.status != Progress ==> inputTotal == old(inputTotal) && outputTotal == old(outputTotal)
      ensures failed <==> r.status == Status.Failed
    {
      if failed {
        return Result(Status.Failed, 0, 0);
      }
      if finished {
        return Result(if bytes == 0 && inputFrames == 0 then Finished else Invalid, 0, 0);
      }
      if inputFrames > maximumInput || bytes != inputFrames * bytesPerFrame || overlapping {
        return Result(Invalid, 0, 0);
      }
      if inputFrames == 0 {
        return Result(NoProgress, 0, 0);
      }
      if inputFrames > MAXIMUM_TOTAL - inputTotal {
        return Result(Invalid, 0, 0);
      }
      var count := out(inputFrames);
      if count > outputFrames || !finiteInput {
        return Result(Invalid, 0, 0);
      }
      if !conversion.succeeds || !conversion.finite {
        failed := true;
        return Result(Status.Failed, 0, 0);
      }
      inputTotal, outputTotal := inputTotal + inputFrames, outputTotal + count;
      return Result(Progress, inputFrames, count);
    }

    /** What is still missing from the exact duration. */
    method RequiredFinishOutputFrames() returns (count: nat)
      requires Valid()
      ensures count == if failed || finished || Exact(inputTotal, rate) < outputTotal then 0
                       else Exact(inputTotal, rate) - outputTotal
    {
      DurationIsExact(inputTotal, rate);
      if failed || finished {
        return 0;
      }
      var target := DurationFrames(inputTotal, rate);
      return if target >= outputTotal then target - outputTotal else 0;
    }

    /** The least positive padding that brings out enough, for any backend whose counts only grow. */
    method LeastPadding(out: OutFrames, count: nat) returns (padding: nat)
      requires Valid() && Increasing(out) && out(maximumFinishInput) >= count
      ensures 1 <= padding <= maximumFinishInput && out(padding) >= count
      ensures forall p: nat :: 1 <= p < padding ==> out(p) < count
    {
      padding := maximumFinishInput;
      var low := 1;
      while low < padding
        invariant 1 <= low <= padding <= maximumFinishInput && out(padding) >= count
        invariant forall p: nat :: 1 <= p < low ==> out(p) < count
        decreases padding - low
      {
        var middle := low + (padding - low) / 2;
        if out(middle) >= count {
          padding := middle;
        } else {
          assert forall p: nat :: p <= middle ==> out(p) <= out(middle);
          low := middle + 1;
        }
      }
    }

    /** What a finish needs: output not ahead, room for the rest, a backend that can bring it out, and does. */
    ghost predicate CanFinish(outputFrames: nat, out: OutFrames, conversion: Conversion)
      requires rate > 0
      reads this
    {
      && !failed && outputTotal <= Exact(inputTotal, rate)
      && var missing := Exact(inputTotal, rate) - outputTotal;
         && missing <= outputFrames
         && (missing > 0 ==> out(maximumFinishInput) >= missing && conversion.succeeds && conversion.finite)
    }

    /**
     * End of stream.  However the input was cut into blocks, a finish that succeeds brings the total
     * output to exactly floor(input * 48000 / rate), by the least padding that does.
     */
    method Finish(outputFrames: nat, out: OutFrames, conversion: Conversion) returns (r: Result, ghost padding: nat)
      requires Valid() && Increasing(out)
      modifies this`outputTotal, this`finished, this`failed
      ensures Valid()
      ensures r.status == Finished <==> !failed && finished
      ensures r.status == Finished <==> !old(failed) && (old(finished) || old(CanFinish(outputFrames, out, conversion)))
      ensures r.status == Finished && !old(finished) ==>
        && r.generated == Exact(inputTotal, rate) - old(outputTotal) && outputTotal == Exact(inputTotal, rate)
        && (r.generated > 0 ==> 1 <= padding <= maximumFinishInput && out(padding) >= r.generated
                                && forall p: nat :: 1 <= p < padding ==> out(p) < r.generated)
      ensures r.status != Finished || old(finished) ==> outputTotal == old(outputTotal)
      ensures r.status == Invalid <==>
        !old(failed) && !old(finished) && old(outputTotal) <= Exact(inputTotal, rate)
        && Exact(inputTotal, rate) - old(outputTotal) > outputFrames
      ensures r.status in {Finished, Invalid, Status.Failed} && (failed <==> r.status == Status.Failed)
    {
      padding := 0;
      if failed {
        return Result(Status.Failed, 0, 0), padding;
      }
      if finished {
        return Result(Finished, 0, 0), padding;
      }
      DurationIsExact(inputTotal, rate);
      var target := DurationFrames(inputTotal, rate);
      if target < outputTotal {
        failed := true;
        return Result(Status.Failed, 0, 0), padding;
      }
      var count := RequiredFinishOutputFrames();
      if count > outputFrames {
        return Result(Invalid, 0, 0), padding;
      }
      if count > 0 {
        if out(maximumFinishInput) < count {
          failed := true;
          return Result(Status.Failed, 0, 0), padding;
        }
        var found := LeastPadding(out, count);
        padding := found;
        if !conversion.succeeds || !conversion.finite {
          failed := true;
          return Result(Status.Failed, 0, 0), padding;
        }
        outputTotal := outputTotal + count;
      }
      finished := true;
      return Result(Finished, 0, count), padding;
    }

    /** A new stream needs a new backend, because the old one keeps its fractional phase. */
    method Reset(created: bool) returns (ok: bool)
      requires Valid()
      modifies this`inputTotal, this`outputTotal, this`finished, this`failed
      ensures Valid() && ok == created
      ensures ok ==> inputTotal == 0 && outputTotal == 0 && !finished && !failed
      ensures !ok ==> failed && inputTotal == old(inputTotal) && outputTotal == old(outputTotal)
    {
      if !created {
        failed := true;
        return false;
      }
      inputTotal, outputTotal, finished, failed := 0, 0, false, false;
      return true;
    }
  }
}
