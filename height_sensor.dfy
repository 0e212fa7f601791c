/**
 * logic/heightSensor.py: the later height filter. A calibrated value outside
 * [0, maxValid] is dropped; the buffer holds ten values by default.
 */
module HeightSensor {
  import opened Wrappers
  import opened Numbers
  import opened HeightFilter

  const DefaultMaxSize: nat := 10
  const DefaultScale: real := -1.305
  const DefaultOffset: real := 382.4
  const DefaultMaxValid: real := 100.0

  class HeightBuffer {
    var buffer: seq<real>
    const maxSize: nat
    const scale: real
    const offset: real
    const maxValid: real
    var average: Option<real>

    function Cfg(): Config {
      Config(maxSize, scale, offset, maxValid, Reject)
    }

    ghost predicate Valid()
      reads this
    {
      maxSize >= 1 && Buffered(Cfg(), buffer) && average == Smoothed(buffer)
    }

    constructor (maxSize: nat, scale: real, offset: real, maxValid: real)
      requires maxSize >= 1
      ensures Valid()
      ensures this.maxSize == maxSize && this.scale == scale
      ensures this.offset == offset && this.maxValid == maxValid
      ensures buffer == [] && average == None
    {
      this.buffer := [];
      this.maxSize := maxSize;
      this.scale := scale;
      this.offset := offset;
      this.maxValid := maxValid;
      this.average := None;
    }

    /**
     * `update(raw)`: a calibrated value in [0, maxValid] is appended (the oldest
     * evicted beyond maxSize) and the average recomputed; any other value is
     * dropped. Returns the average, None until the first value is admitted.
     */
    method Update(rawHeight: int) returns (r: Option<real>)
      requires Valid()
      modifies this
      ensures Valid()
      ensures buffer == Step(Cfg(), old(buffer), rawHeight)
      ensures r == average
      ensures !(0.0 <= Calibrate(scale, offset, rawHeight) <= maxValid) ==>
                buffer == old(buffer) && average == old(average)
    {
      var height := scale * rawHeight as real + offset;
      StepRejecting(Cfg(), buffer, rawHeight, height);
      if 0.0 <= height <= maxValid {
        Append(height);
      }
      StepKeepsBuffered(Cfg(), old(buffer), rawHeight);
      r := average;
    }

    /** The admitting branch of `update`: append, evict the oldest beyond maxSize, recompute the average. */
    method Append(height: real)
      requires maxSize >= 1
      modifies this`buffer, this`average
      ensures buffer == Push(old(buffer), maxSize, height)
      ensures average == Smoothed(buffer)
    {
      buffer := buffer + [height];
      if |buffer| > maxSize {
        buffer := buffer[1..];
      }
      average := Some(RoundTenth(Sum(buffer) / |buffer| as real));
    }

    /** `get_latest()`: the current average, unchanged. */
    method GetLatest() returns (r: Option<real>)
      requires Valid()
      ensures r == Smoothed(buffer)
    {
      r := average;
    }
  }
}
