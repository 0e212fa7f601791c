/**
 * helpers/heightBuffer.py: the height filter the serial gateway owns. A negative
 * calibrated value is clamped to 0; the buffer holds one value by default.
 */
module HeightBuffer {
  import opened Wrappers
  import opened Numbers
  import opened HeightFilter

  const DefaultMaxSize: nat := 1
  const DefaultScale: real := -0.9722
  const DefaultOffset: real := 342.22
  const DefaultMaxValid: real := 100.0

  class HeightBuffer {
    var buffer: seq<real>
    const maxSize: nat
    const scale: real
    const offset: real
    const maxValid: real
    var average: Option<real>

    function Cfg(): Config {
      Config(maxSize, scale, offset, maxValid, Clamp)
    }

    /** The buffer is bounded and in range, and `average` is its rounded mean. */
    ghost predicate Valid()
      reads this
    {
      maxSize >= 1 && Buffered(Cfg(), buffer) && average == Smoothed(buffer)
    }

    /** A size of 0 would make `update` divide by an empty buffer's length. */
    constructor (maxSize: nat, scale: real, offset: real, maxValid: real)
      requires maxSize >= 1
      ensures Valid()
      ensures this.maxSize == maxSize && this.scale == scale
      ensures this.offset == offset && this.maxValid == maxValid
      ensures buffer == [] && average == None
    {
      this.buffer := [];
      this.maxSize := maxSize;
      this.scale := scale;
      this.offset := offset;
      this.maxValid := maxValid;
      this.average := None;
    }

    /**
     * `update(raw)`: calibrate; a value above maxValid is dropped, a negative one
     * is clamped to 0; an admitted value is appended (the oldest evicted beyond
     * maxSize) and the average recomputed. Returns the average, None until the
     * first value is admitted.
     */
    method Update(rawHeight: int) returns (r: Option<real>)
      requires Valid()
      modifies this
      ensures Valid()
      ensures buffer == Step(Cfg(), old(buffer), rawHeight)
      ensures r == average
      ensures r == None ==> average == old(average)
      ensures Calibrate(scale, offset, rawHeight) > maxValid ==> average == old(average)
    {
      var height := scale * rawHeight as real + offset;
      if height <= maxValid {
        if height < 0.0 {
          height := 0.0;
        }
        Append(height);
      }
      StepKeepsBuffered(Cfg(), old(buffer), rawHeight);
      r := average;
    }

    /** The admitting branch of `update`: append, evict the oldest beyond maxSize, recompute the average. */
    method Append(height: real)
      requires maxSize >= 1
      modifies this`buffer, this`average
      ensures buffer == Push(old(buffer), maxSize, height)
      ensures average == Smoothed(buffer)
    {
      buffer := buffer + [height];
      if |buffer| > maxSize {
        buffer := buffer[1..];
      }
      average := Some(RoundTenth(Sum(buffer) / |buffer| as real));
    }

    /** `get_latest()`: the current average, unchanged. */
    method GetLatest() returns (r: Option<real>)
      requires Valid()
      ensures r == Smoothed(buffer)
    {
      r := average;
    }
  }
}
