/**
 * logic/newHeightSensor.py: the same filter as logic/heightSensor.py, kept in two
 * module-level globals (`average_height`, `_raw_height_buffer`) with fixed
 * constants. The globals are the fields of one shared object here.
 */
module NewHeightSensor {
  import opened Wrappers
  import opened Numbers
  import opened HeightFilter

  const MaxBufferSize: nat := 10
  const HeightScale: real := -1.305
  const HeightOffset: real := 382.4
  const HeightMaxValid: real := 100.0

  function Cfg(): Config {
    Config(MaxBufferSize, HeightScale, HeightOffset, HeightMaxValid, Reject)
  }

  /** A raw sample is admitted when its calibrated height lies in [0, 100]. */
  predicate Admits(rawHeight: int) {
    0.0 <= Calibrate(HeightScale, HeightOffset, rawHeight) <= HeightMaxValid
  }

  /** The module's globals. */
  class HeightGlobals {
    var averageHeight: Option<real>
    var rawHeightBuffer: seq<real>

    ghost predicate Valid()
      reads this
    {
      Buffered(Cfg(), rawHeightBuffer) && averageHeight == Smoothed(rawHeightBuffer)
    }

    /** The state at import: no average, empty buffer. */
    constructor ()
      ensures Valid() && averageHeight == None && rawHeightBuffer == []
    {
      averageHeight := None;
      rawHeightBuffer := [];
    }

    /** `get_latest_height()`: the current average, unchanged. */
    method GetLatestHeight() returns (r: Option<real>)
      requires Valid()
      ensures r == Smoothed(rawHeightBuffer)
    {
      r := averageHeight;
    }

    /**
     * `update_height(raw)`: an admitted sample (calibrated into [0, 100]) is
     * appended, the oldest evicted beyond ten, and the new average returned; a
     * dropped sample returns None (the function falls off its end) and changes
     * neither global.
     */
    method UpdateHeight(rawHeight: int) returns (r: Option<real>)
      requires Valid()
      modifies this
      ensures Valid()
      ensures rawHeightBuffer == Step(Cfg(), old(rawHeightBuffer), rawHeight)
      ensures r.Some? <==> Admits(rawHeight)
      ensures Admits(rawHeight) ==> r == averageHeight
      ensures !Admits(rawHeight) ==> averageHeight == old(averageHeight) && rawHeightBuffer == old(rawHeightBuffer)
    {
      var height := HeightScale * rawHeight as real + HeightOffset;
      StepRejecting(Cfg(), rawHeightBuffer, rawHeight, height);
      if 0.0 <= height <= HeightMaxValid {
        Append(height);
        r := averageHeight;
      } else {
        r := None;
      }
      StepKeepsBuffered(Cfg(), old(rawHeightBuffer), rawHeight);
    }

    /** The admitting branch of `update_height`: append, evict the oldest beyond ten, recompute the average. */
    method Append(height: real)
      modifies this
      ensures rawHeightBuffer == Push(old(rawHeightBuffer), MaxBufferSize, height)
      ensures averageHeight == Smoothed(rawHeightBuffer)
    {
      rawHeightBuffer := rawHeightBuffer + [height];
      if |rawHeightBuffer| > MaxBufferSize {
        rawHeightBuffer := rawHeightBuffer[1..];
      }
      averageHeight := Some(RoundTenth(Sum(rawHeightBuffer) / |rawHeightBuffer| as real));
    }
  }
}
