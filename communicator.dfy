/**
 * logic/communicator.py: the earlier revision of the gateway. It decodes the same
 * telemetry lines as interfaces/serialCommunicator.py but feeds height samples to
 * the module-level filter of logic/newHeightSensor.py, writes commands as text,
 * caches the last `POS 4` setpoint as the pusher-2 position, and builds
 * `ROTATE <servo> <direction> <degrees>` with the directions `FW` and `REV`.
 *
 * The serial port is the sequence of stripped command lines written so far.
 */
module Communicator {
  import opened Wrappers
  import opened Text
  import opened Telemetry
  import opened HeightFilter
  import opened Gateway
  import NHS = NewHeightSensor

  /** The command prefix whose third word is cached as the pusher-2 position. */
  const Pos4Prefix: string := "POS 4"

  /**
   * `send_command` raises IndexError before writing anything when a command
   * starting with `POS 4` has no third word.
   */
  predicate Pos4Raises(cmd: string) {
    StartsWith(cmd, Pos4Prefix) && |Words(cmd)| < 3
  }

  /**
   * The cached pusher-2 position after `send_command(cmd)`: the integer third
   * word of a command starting with `POS 4`; a third word `int()` rejects, a
   * missing one or any other command keeps the old value.
   */
  function CachedPusher2(cmd: string, pos: Option<int>): (r: Option<int>)
    ensures !StartsWith(cmd, Pos4Prefix) || |Words(cmd)| < 3 ==> r == pos
    ensures r != pos ==> |Words(cmd)| >= 3 && ParseInt(Words(cmd)[2]) == r
  {
    if StartsWith(cmd, Pos4Prefix) && |Words(cmd)| >= 3 && ParseInt(Words(cmd)[2]).Some? then
      ParseInt(Words(cmd)[2])
    else pos
  }

  /** A `POS 4` command with a third word does not raise and caches that word when it is an integer. */
  lemma CachedFromWords(cmd: string, ws: seq<string>, pos: Option<int>)
    requires StartsWith(cmd, Pos4Prefix) && Words(cmd) == ws && |ws| >= 3
    ensures !Pos4Raises(cmd)
    ensures CachedPusher2(cmd, pos) == if ParseInt(ws[2]).Some? then ParseInt(ws[2]) else pos
  {
  }

  /** The words of `POS <servoWord> <n>`. */
  function PosWords(servoWord: string, n: int): seq<string> {
    ["POS", servoWord, IntToString(n)]
  }

  lemma PosWordsAreWords(servoWord: string, n: int)
    requires IsWord(servoWord)
    ensures forall i :: 0 <= i < |PosWords(servoWord, n)| ==> IsWord(PosWords(servoWord, n)[i])
  {
    IntStringIsWord(n);
    assert IsWord("POS");
  }

  lemma PosLine(servoWord: string, n: int)
    ensures Join(PosWords(servoWord, n)) == "POS" + (" " + (servoWord + (" " + IntToString(n))))
  {
    var ws := PosWords(servoWord, n);
    var d := IntToString(n);
    assert ws[1..] == [servoWord, d];
    assert ws[1..][1..] == [d];
    assert Join([d]) == d;
    assert Join([servoWord, d]) == servoWord + (" " + d);
  }

  lemma PosLineStartsWithPrefix(line: string, servoWord: string, d: string)
    requires servoWord != [] && servoWord[0] == '4'
    requires line == "POS" + (" " + (servoWord + (" " + d)))
    ensures StartsWith(line, Pos4Prefix)
  {
    assert line[..5] == Pos4Prefix;
  }

  /**
   * `POS <servo> <n>` with n written by `str` caches n whenever the servo word
   * starts with 4: `POS 4 <n>` as intended, and also `POS 40 <n>` or `POS 42 <n>`,
   * since only the text prefix `POS 4` is tested. The command is written stripped.
   */
  lemma CachesPrintedSetpoint(servoWord: string, n: int, pos: Option<int>)
    requires IsWord(servoWord) && servoWord[0] == '4'
    ensures !Pos4Raises(Join(PosWords(servoWord, n)))
    ensures CachedPusher2(Join(PosWords(servoWord, n)), pos) == Some(n)
    ensures Strip(Join(PosWords(servoWord, n))) == Join(PosWords(servoWord, n))
  {
    var ws := PosWords(servoWord, n);
    var line := Join(ws);
    PosWordsAreWords(servoWord, n);
    PosLine(servoWord, n);
    PosLineStartsWithPrefix(line, servoWord, IntToString(n));
    WordsOfJoin(ws);
    JoinStripped(ws);
    ParseIntOfString(n);
    CachedFromWords(line, ws, pos);
  }

  /** `POS 4` alone raises before anything is written. */
  lemma ExampleMissingSetpoint()
    ensures Pos4Raises("POS 4")
  {
    var ws := ["POS", "4"];
    assert IsWord("POS") && IsWord("4");
    assert Join(ws) == "POS 4";
    WordsOfJoin(ws);
  }

  /**
   * `rotateRotator`: rotator 1 or 2 (servo 1 or 7), direction `FW` or `REV`
   * (so `FWD` is rejected) and 0 to 360 degrees give the line
   * `ROTATE <servo> <direction> <degrees>`; anything else gives nothing.
   */
  function RotateLine(rotatorNumber: int, direction: string, degrees: int): (r: Option<string>)
    ensures r.Some? <==> RotatorServo(rotatorNumber).Some? &&
                         (direction == "FW" || direction == "REV") && 0 <= degrees <= 360
  {
    match RotatorServo(rotatorNumber)
    case None => None
    case Some(servo) =>
      if (direction == "FW" || direction == "REV") && 0 <= degrees <= 360 then
        Some(Join(RotateWords(servo, direction, degrees)))
      else None
  }

  /**
   * An accepted rotation line reads back as its four fields, servo and degrees
   * parsing to the numbers that were sent; it is already stripped and does not
   * touch the pusher-2 cache.
   */
  lemma RotateLineFields(rotatorNumber: int, direction: string, degrees: int)
    requires RotateLine(rotatorNumber, direction, degrees).Some?
    ensures var line := RotateLine(rotatorNumber, direction, degrees).value;
            var servo := RotatorServo(rotatorNumber).value;
            |Words(line)| == 4 && Words(line)[0] == "ROTATE" && Words(line)[2] == direction &&
            ParseInt(Words(line)[1]) == Some(servo) && ParseInt(Words(line)[3]) == Some(degrees) &&
            Strip(line) == line && !Pos4Raises(line) && CachedPusher2(line, None) == None
  {
    var servo := RotatorServo(rotatorNumber).value;
    RotateLineRead(RotateLine(rotatorNumber, direction, degrees).value, servo, direction, degrees);
  }

  lemma RotateLineRead(line: string, servo: int, direction: string, degrees: int)
    requires direction == "FW" || direction == "REV"
    requires line == Join(RotateWords(servo, direction, degrees))
    ensures |Words(line)| == 4 && Words(line)[0] == "ROTATE" && Words(line)[2] == direction
    ensures ParseInt(Words(line)[1]) == Some(servo) && ParseInt(Words(line)[3]) == Some(degrees)
    ensures Strip(line) == line && !Pos4Raises(line) && CachedPusher2(line, None) == None
  {
    var ws := RotateWords(servo, direction, degrees);
    RotateWordsAreWords(servo, direction, degrees);
    RotateLineWords(line, ws, servo, degrees);
    JoinStripped(ws);
    NotPos4(line);
  }

  lemma RotateLineWords(line: string, ws: seq<string>, servo: int, degrees: int)
    requires |ws| == 4 && ws[1] == IntToString(servo) && ws[3] == IntToString(degrees)
    requires line == Join(ws) && forall i :: 0 <= i < |ws| ==> IsWord(ws[i])
    ensures Words(line) == ws
    ensures ParseInt(Words(line)[1]) == Some(servo) && ParseInt(Words(line)[3]) == Some(degrees)
  {
    WordsOfJoin(ws);
    ParseIntOfString(servo);
    ParseIntOfString(degrees);
  }

  /** The words of `ROTATE <servo> <direction> <degrees>`. */
  function RotateWords(servo: int, direction: string, degrees: int): seq<string> {
    ["ROTATE", IntToString(servo), direction, IntToString(degrees)]
  }

  lemma RotateWordsAreWords(servo: int, direction: string, degrees: int)
    requires direction == "FW" || direction == "REV"
    ensures forall i :: 0 <= i < |RotateWords(servo, direction, degrees)| ==>
              IsWord(RotateWords(servo, direction, degrees)[i])
  {
    assert IsWord("FW") && IsWord("REV") && IsWord("ROTATE");
    IntStringIsWord(servo);
    IntStringIsWord(degrees);
  }

  /** A line starting with `ROTATE` is not a `POS 4` command. */
  lemma NotPos4(line: string)
    requires StartsWith(line, "ROTATE")
    ensures !StartsWith(line, Pos4Prefix)
  {
    assert line[0] == "ROTATE"[0];
  }

  class Communicator {
    var beam1State: Option<bool>
    var beam2State: Option<bool>
    var limit1State: Option<bool>
    var limit2State: Option<bool>
    var height: Option<real>
    var pusher2Pos: Option<int>
    var port: seq<string>
    /** The globals of logic/newHeightSensor.py, shared with every other importer. */
    const heights: NHS.HeightGlobals

    function Sensors(): SensorView
      reads this, heights
    {
      SensorView(beam1State, beam2State, limit1State, limit2State, heights.rawHeightBuffer)
    }

    /** The height filter is consistent and a cached height is its current average. */
    ghost predicate Valid()
      reads this, heights
    {
      heights.Valid() && (height.Some? ==> height == heights.averageHeight)
    }

    /** Serial-port opening is not modelled; every cached field starts as None. */
    constructor (heights: NHS.HeightGlobals)
      requires heights.Valid()
      ensures Valid() && this.heights == heights
      ensures Sensors() == SensorView(None, None, None, None, heights.rawHeightBuffer)
      ensures height == None && pusher2Pos == None && port == []
    {
      beam1State := None;
      beam2State := None;
      limit1State := None;
      limit2State := None;
      height := None;
      pusher2Pos := None;
      port := [];
      this.heights := heights;
    }

    /**
     * `send_command`: a `POS 4` command updates the pusher-2 cache first; the
     * stripped command is then written, unless the missing third word raised.
     */
    method SendCommand(cmd: string) returns (raised: bool)
      modifies this`pusher2Pos, this`port
      ensures raised == Pos4Raises(cmd)
      ensures pusher2Pos == CachedPusher2(cmd, old(pusher2Pos))
      ensures port == old(port) + (if raised then [] else [Strip(cmd)])
    {
      if StartsWith(cmd, Pos4Prefix) {
        var parts := Words(cmd);
        if |parts| < 3 {
          return true;
        }
        var value := ParseInt(parts[2]);
        if value.Some? {
          pusher2Pos := value;
        }
      }
      port := port + [Strip(cmd)];
      raised := false;
    }

    /** The branch of `update_from_serial` that one decoded line takes. */
    method HandleEvent(event: Event)
      requires Valid()
      modifies this, heights
      ensures Valid()
      ensures Sensors() == ApplyEvent(NHS.Cfg(), old(Sensors()), event)
      ensures pusher2Pos == old(pusher2Pos) && port == old(port)
    {
      match event {
        case Beam1(broken) => beam1State := Some(broken);
        case Beam2(broken) => beam2State := Some(broken);
        case Limit1(pressed) => limit1State := Some(pressed);
        case Limit2(pressed) => limit2State := Some(pressed);
        case HeightSample(raw) => FeedHeight(raw);
        case BadHeight =>
        case Ignored =>
      }
    }

    /** An `HT` sample goes to `update_height`; `height` changes only when it returns a value. */
    method FeedHeight(raw: int)
      requires Valid()
      modifies this`height, heights
      ensures Valid()
      ensures Sensors() == old(Sensors()).(heightBuffer := Step(NHS.Cfg(), old(heights.rawHeightBuffer), raw))
      ensures height == if NHS.Admits(raw) then heights.averageHeight else old(height)
    {
      assert heights as object != this;
      ghost var before := Sensors();
      var newHeight := heights.UpdateHeight(raw);
      assert Sensors() == before.(heightBuffer := heights.rawHeightBuffer);
      if newHeight.Some? {
        height := newHeight;
      }
      assert Sensors() == before.(heightBuffer := heights.rawHeightBuffer);
    }

    /** `update_from_serial`: every waiting line, stripped, in order. */
    method UpdateFromSerial(lines: seq<string>)
      requires Valid()
      modifies this, heights
      ensures Valid()
      ensures Sensors() == Drain(NHS.Cfg(), old(Sensors()), lines)
      ensures pusher2Pos == old(pusher2Pos) && port == old(port)
    {
      var i := 0;
      while i < |lines|
        invariant 0 <= i <= |lines|
        invariant Valid()
        invariant Sensors() == Drain(NHS.Cfg(), old(Sensors()), lines[..i])
        invariant pusher2Pos == old(pusher2Pos) && port == old(port)
      {
        var line := Strip(lines[i]);
        HandleEvent(Decode(line));
        assert lines[..i + 1][..i] == lines[..i];
        i := i + 1;
      }
      assert lines[..i] == lines;
    }

    /** `rotateRotator`: at most one `ROTATE` line is written; the pusher-2 cache is untouched. */
    method RotateRotator(rotatorNumber: int, direction: string, degrees: int)
      modifies this`pusher2Pos, this`port
      ensures port == old(port) + ToSeq(RotateLine(rotatorNumber, direction, degrees))
      ensures pusher2Pos == old(pusher2Pos)
    {
      var servoNumber: int;
      match rotatorNumber {
        case 1 => servoNumber := 1;
        case 2 => servoNumber := 7;
        case _ => return;
      }
      if direction != "FW" && direction != "REV" {
        return;
      }
      if !(0 <= degrees <= 360) {
        return;
      }
      var cmd := Join(RotateWords(servoNumber, direction, degrees));
      RotateLineFields(rotatorNumber, direction, degrees);
      assert RotateLine(rotatorNumber, direction, degrees) == Some(cmd);
      var raised := SendCommand(cmd);
    }
  }
}
