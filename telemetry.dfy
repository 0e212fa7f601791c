/**
 * The inbound half of the serial protocol, shared by interfaces/serialCommunicator.py
 * and logic/communicator.py: one stripped line is one event.
 *
 *   b10 / b11      beam 1 clear / broken
 *   b20 / b21      beam 2 clear / broken
 *   STOP2 / GO2    limit switch 1 pressed / released
 *   STOP6 / GO6    limit switch 2 pressed / released
 *   HT <n>         raw height sample n
 *
 * Every other line is ignored.
 */
module Telemetry {
  import opened Wrappers
  import opened Text

  datatype Event =
    | Beam1(broken: bool)
    | Beam2(broken: bool)
    | Limit1(pressed: bool)
    | Limit2(pressed: bool)
    | HeightSample(raw: int)
    | BadHeight             // `HT` followed by something `int()` rejects
    | Ignored

  const HeightPrefix: string := "HT "

  /** The eight fixed beam and limit-switch lines and what each reports. */
  function SwitchEvent(line: string): (e: Option<Event>)
    ensures e.Some? ==> |line| > 0 && line[0] != HeightPrefix[0]
    ensures e.Some? ==> !(e.value.HeightSample? || e.value.BadHeight? || e.value.Ignored?)
  {
    if line == "b10" then Some(Beam1(false))
    else if line == "b11" then Some(Beam1(true))
    else if line == "b20" then Some(Beam2(false))
    else if line == "b21" then Some(Beam2(true))
    else if line == "STOP2" then Some(Limit1(true))
    else if line == "STOP6" then Some(Limit2(true))
    else if line == "GO2" then Some(Limit1(false))
    else if line == "GO6" then Some(Limit2(false))
    else None
  }

  /**
   * The dispatch of `update_from_serial` on one line after `strip()`: a switch
   * line, then an `HT ` line whose second white-space separated word is the raw
   * sample, and nothing for anything else.
   */
  function Decode(line: string): (e: Event)
    requires IsStripped(line)
    ensures e.Ignored? <==> SwitchEvent(line).None? && !StartsWith(line, HeightPrefix)
    ensures (e.HeightSample? || e.BadHeight?) <==> StartsWith(line, HeightPrefix)
    ensures SwitchEvent(line).Some? ==> e == SwitchEvent(line).value
  {
    match SwitchEvent(line)
    case Some(ev) => ev
    case None =>
      if StartsWith(line, HeightPrefix) then
        // An `HT ` line that survived strip() always has a second word, so the
        // source's `split()[1]` cannot raise IndexError.
        WordsAfterPrefix(line, "HT");
        match ParseInt(Words(line)[1])
        case Some(n) => HeightSample(n)
        case None => BadHeight
      else Ignored
  }

  /** `HT <n>` with n printed in decimal decodes to the sample n. */
  lemma DecodeHeightLine(n: int)
    ensures IsStripped(HeightPrefix + IntToString(n))
    ensures Decode(HeightPrefix + IntToString(n)) == HeightSample(n)
  {
    var d := IntToString(n);
    forall k | 0 <= k < |d| ensures !IsSpace(d[k]) {
      if !AllDigits(d) && k > 0 {
        assert d[k] == d[1..][k - 1];
      }
    }
    HeightLineShape(d);
    HeightLineWords(d);
    ParseIntOfString(n);
  }

  /** `HT ` followed by one word is a stripped height line whose words are `HT` and that word. */
  lemma HeightLineWords(d: string)
    requires d != []
    requires forall k :: 0 <= k < |d| ==> !IsSpace(d[k])
    ensures Words(HeightPrefix + d) == ["HT", d]
  {
    HTIsWord();
    PrefixSplit(d);
    WordsOfTwo(HeightPrefix + d, "HT", d);
  }

  lemma HeightLineShape(d: string)
    requires d != []
    ensures IsStripped(HeightPrefix + d) == !IsSpace(d[|d| - 1])
    ensures StartsWith(HeightPrefix + d, HeightPrefix)
  {
    var line := HeightPrefix + d;
    assert line[|line| - 1] == d[|d| - 1];
    assert line[..3] == HeightPrefix;
  }

  lemma HTIsWord()
    ensures forall k :: 0 <= k < |"HT"| ==> !IsSpace("HT"[k])
  {
  }

  lemma PrefixSplit(d: string)
    ensures HeightPrefix + d == "HT" + (" " + d)
  {
    var x := HeightPrefix + d;
    var y := "HT" + (" " + d);
    assert |x| == |y|;
    forall k | 0 <= k < |x| ensures x[k] == y[k] {
      if k >= 3 {
        assert x[k] == d[k - 3];
        assert y[k] == (" " + d)[k - 2] == d[k - 3];
      }
    }
  }
}
