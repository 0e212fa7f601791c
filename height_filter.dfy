/**
 * The calibrate / admit / buffer / average pipeline shared by the three revisions
 * of the height filter (helpers/heightBuffer.py, logic/heightSensor.py and
 * logic/newHeightSensor.py). The revisions differ in what happens to a negative
 * calibrated value (clamped to 0 or dropped), in the buffer size and in where the
 * state lives; this module holds what they have in common, as values.
 */
module HeightFilter {
  import opened Wrappers
  import opened Numbers

  /** What the filter does with a calibrated value below zero. */
  datatype Policy = Clamp | Reject

  datatype Config = Config(maxSize: nat, scale: real, offset: real, maxValid: real, policy: Policy)

  /** The linear calibration `scale * raw + offset`. */
  function Calibrate(scale: real, offset: real, raw: int): real
  {
    scale * raw as real + offset
  }

  /** The largest value any revision admits (a clamped sample is 0 even when maxValid < 0). */
  function Ceiling(maxValid: real): real
  {
    Max(maxValid, 0.0)
  }

  /**
   * The value that enters the buffer for calibrated height `h`, or None when the
   * sample is dropped. A value above maxValid is always dropped; a negative one is
   * clamped to 0 or dropped according to the policy.
   */
  function Admit(policy: Policy, maxValid: real, h: real): (r: Option<real>)
    ensures r.Some? ==> 0.0 <= r.value <= Ceiling(maxValid)
    ensures r.Some? ==> r.value == h || (policy == Clamp && h < 0.0 && r.value == 0.0)
    ensures h > maxValid ==> r == None
    ensures 0.0 <= h <= maxValid ==> r == Some(h)
    ensures h < 0.0 ==> (r == None <==> policy == Reject || h > maxValid)
  {
    match policy
    case Clamp => if h <= maxValid then Some(if h < 0.0 then 0.0 else h) else None
    case Reject => if 0.0 <= h <= maxValid then Some(h) else None
  }

  /** Append `v`; when the buffer then holds more than maxSize values, drop the oldest. */
  function Push(buffer: seq<real>, maxSize: nat, v: real): (r: seq<real>)
    requires maxSize >= 1
    ensures |buffer| <= maxSize ==> |r| <= maxSize
    ensures 1 <= |r| <= |buffer| + 1 && r == (buffer + [v])[|buffer| + 1 - |r|..]
    ensures |buffer| < maxSize ==> r == buffer + [v]
  {
    var appended := buffer + [v];
    if |appended| > maxSize then appended[1..] else appended
  }

  /** The buffer after one raw sample. */
  function Step(cfg: Config, buffer: seq<real>, raw: int): seq<real>
    requires cfg.maxSize >= 1
  {
    match Admit(cfg.policy, cfg.maxValid, Calibrate(cfg.scale, cfg.offset, raw))
    case None => buffer
    case Some(v) => Push(buffer, cfg.maxSize, v)
  }

  /** Under the reject policy a sample enters the buffer exactly when its calibrated height lies in [0, maxValid]. */
  lemma StepRejecting(cfg: Config, buffer: seq<real>, raw: int, h: real)
    requires cfg.maxSize >= 1 && cfg.policy == Reject
    requires h == Calibrate(cfg.scale, cfg.offset, raw)
    ensures 0.0 <= h <= cfg.maxValid ==> Step(cfg, buffer, raw) == Push(buffer, cfg.maxSize, h)
    ensures !(0.0 <= h <= cfg.maxValid) ==> Step(cfg, buffer, raw) == buffer
  {
  }

  /** The rolling average: the buffer's mean rounded to one decimal, None while empty. */
  function Smoothed(buffer: seq<real>): (r: Option<real>)
    ensures r.Some? <==> buffer != []
  {
    if buffer == [] then None else Some(RoundTenth(Mean(buffer)))
  }

  /** The average has one decimal and is within 0.05 of the buffer's mean. */
  lemma SmoothedRoundsMean(buffer: seq<real>)
    requires buffer != []
    ensures OneDecimal(Smoothed(buffer).value) && Abs(Smoothed(buffer).value - Mean(buffer)) <= 0.05
  {
    RoundTenthProperties(Mean(buffer));
  }

  /** What every revision keeps true of its buffer. */
  ghost predicate Buffered(cfg: Config, buffer: seq<real>) {
    |buffer| <= cfg.maxSize &&
    forall i :: 0 <= i < |buffer| ==> 0.0 <= buffer[i] <= Ceiling(cfg.maxValid)
  }

  /** One sample keeps the buffer bounded and in range. */
  lemma StepKeepsBuffered(cfg: Config, buffer: seq<real>, raw: int)
    requires cfg.maxSize >= 1 && Buffered(cfg, buffer)
    ensures Buffered(cfg, Step(cfg, buffer, raw))
  {
    var a := Admit(cfg.policy, cfg.maxValid, Calibrate(cfg.scale, cfg.offset, raw));
    if a.Some? {
      var r := Push(buffer, cfg.maxSize, a.value);
      var all := buffer + [a.value];
      forall i | 0 <= i < |r| ensures 0.0 <= r[i] <= Ceiling(cfg.maxValid) {
        assert r[i] == all[|buffer| + 1 - |r| + i];
      }
    }
  }

  /**
   * The average of a bounded, in-range buffer lies in [0, maxValid] when maxValid
   * has at most one decimal (the deployed value is 100).
   */
  lemma SmoothedInRange(cfg: Config, buffer: seq<real>)
    requires Buffered(cfg, buffer) && buffer != []
    requires OneDecimal(cfg.maxValid) && cfg.maxValid >= 0.0
    ensures 0.0 <= Smoothed(buffer).value <= cfg.maxValid
  {
    MeanBounds(buffer, 0.0, cfg.maxValid);
    RoundTenthWithin(Mean(buffer), 0.0, cfg.maxValid);
  }

  /** The buffer after feeding `raws` in order to an empty filter. */
  function Run(cfg: Config, raws: seq<int>): seq<real>
    requires cfg.maxSize >= 1
  {
    if raws == [] then [] else Step(cfg, Run(cfg, raws[..|raws| - 1]), raws[|raws| - 1])
  }

  /** Every value admitted while feeding `raws`, in order. */
  function Admitted(cfg: Config, raws: seq<int>): seq<real>
  {
    if raws == [] then []
    else
      Admitted(cfg, raws[..|raws| - 1]) +
      ToSeq(Admit(cfg.policy, cfg.maxValid, Calibrate(cfg.scale, cfg.offset, raws[|raws| - 1])))
  }

  /** The last n values of s (all of s when it is shorter). */
  function LastN(s: seq<real>, n: nat): (r: seq<real>)
    ensures |r| == if |s| <= n then |s| else n
    ensures r == s[|s| - |r|..]
  {
    if |s| <= n then s else s[|s| - n..]
  }

  lemma PushLastN(s: seq<real>, n: nat, v: real)
    requires n >= 1
    ensures Push(LastN(s, n), n, v) == LastN(s + [v], n)
  {
    var l := LastN(s, n);
    var r := Push(l, n, v);
    var t := LastN(s + [v], n);
    assert |r| == |t|;
    forall i | 0 <= i < |r| ensures r[i] == t[i] {
      assert r[i] == (l + [v])[|l| + 1 - |r| + i];
      assert t[i] == (s + [v])[|s| + 1 - |t| + i];
    }
  }

  /**
   * The buffer holds exactly the last min(n, maxSize) admitted values, so the
   * average is the rounded mean of those.
   */
  lemma {:induction false} RunKeepsLastAdmitted(cfg: Config, raws: seq<int>)
    requires cfg.maxSize >= 1
    ensures Run(cfg, raws) == LastN(Admitted(cfg, raws), cfg.maxSize)
    ensures Buffered(cfg, Run(cfg, raws))
  {
    if raws != [] {
      var init := raws[..|raws| - 1];
      var x := raws[|raws| - 1];
      RunKeepsLastAdmitted(cfg, init);
      StepKeepsBuffered(cfg, Run(cfg, init), x);
      var a := Admit(cfg.policy, cfg.maxValid, Calibrate(cfg.scale, cfg.offset, x));
      if a.Some? {
        PushLastN(Admitted(cfg, init), cfg.maxSize, a.value);
      } else {
        assert Admitted(cfg, raws) == Admitted(cfg, init) + [];
      }
    }
  }

  /**
   * With the calibration of logic/heightSensor.py and logic/newHeightSensor.py,
   * raw 120 calibrates to 225.8, above 100, and is dropped.
   */
  lemma ExampleRaw120Dropped()
    ensures Calibrate(-1.305, 382.4, 120) == 225.8
    ensures Admit(Reject, 100.0, Calibrate(-1.305, 382.4, 120)) == None
  {
  }
}
