/**
 * interfaces/serialCommunicator.py: the actuator and telemetry gateway of the cell.
 * Inbound telemetry lines update the cached sensor fields; the actuator calls
 * validate their arguments, keep open-loop pusher position estimates and append
 * one command to the serial port when they accept. Pusher 2 is interlocked: it
 * may only be driven while the last setpoint sent to flipper 2 is the clear
 * position 200.
 *
 * The serial port is the sequence `port` of commands written so far; the inbound
 * side is the list of lines waiting to be read.
 */
module Gateway {
  import opened Wrappers
  import opened Numbers
  import opened Text
  import opened Telemetry
  import opened HeightFilter
  import HB = HeightBuffer

  /** The outbound grammar: `SET <servo> <dir> [<ms>]`, `ROTATE <servo> <degrees> <dir>`, `POS <servo> <setpoint>`. */
  datatype Command =
    | Set(servo: int, direction: string, durationMs: Option<int>)
    | Rotate(servo: int, degrees: real, direction: string)
    | Pos(servo: int, setpoint: int)

  /** The flipper-2 setpoint that lets pusher 2 move (the dashboard revision uses 210). */
  const Flipper2Clear: int := 200

  /** Deployment constants the source imports from its configuration. */
  datatype Limits = Limits(maxDistance: real, speed1: real, speed2: real)

  predicate ValidLimits(lim: Limits) {
    lim.maxDistance >= 0.0 && lim.speed1 > 0.0 && lim.speed2 > 0.0
  }

  // ---------------------------------------------------------------------------
  // Which servo serves which logical actuator

  function ConveyorServo(conveyorNumber: int): (r: Option<int>)
    ensures r.Some? <==> conveyorNumber == 1 || conveyorNumber == 2
  {
    if conveyorNumber == 1 then Some(0) else if conveyorNumber == 2 then Some(5) else None
  }

  function RotatorServo(rotatorNumber: int): (r: Option<int>)
    ensures r.Some? <==> rotatorNumber == 1 || rotatorNumber == 2
  {
    if rotatorNumber == 1 then Some(1) else if rotatorNumber == 2 then Some(7) else None
  }

  function PusherServo(pusherNumber: int): (r: Option<int>)
    ensures r.Some? <==> pusherNumber == 1 || pusherNumber == 2
  {
    if pusherNumber == 1 then Some(2) else if pusherNumber == 2 then Some(6) else None
  }

  /** The calibrated pusher speed in mm/s. */
  function PusherSpeed(lim: Limits, pusherNumber: int): real
  {
    if pusherNumber == 1 then lim.speed1 else lim.speed2
  }

  /**
   * The (servo, setpoint) of a named flipper position: flipper 1 is servo 3 with
   * CLEAR/ENTER/EXIT at 0/110/185, flipper 2 is servo 4 at 200/10/100.
   */
  function FlipperTarget(flipperNumber: int, position: string): (r: Option<(int, int)>)
    ensures r.Some? <==> (flipperNumber == 1 || flipperNumber == 2) &&
                         (position == "CLEAR" || position == "ENTER" || position == "EXIT")
    ensures r.Some? && flipperNumber == 1 ==> r.value.0 == 3 && r.value.1 in {0, 110, 185}
    ensures r.Some? && flipperNumber == 2 ==> r.value.0 == 4 && r.value.1 in {200, 10, 100}
    ensures r.Some? && flipperNumber == 2 ==> (r.value.1 == Flipper2Clear <==> position == "CLEAR")
    ensures flipperNumber == 1 && position == "CLEAR" ==> r == Some((3, 0))
    ensures flipperNumber == 1 && position == "ENTER" ==> r == Some((3, 110))
    ensures flipperNumber == 1 && position == "EXIT" ==> r == Some((3, 185))
    ensures flipperNumber == 2 && position == "CLEAR" ==> r == Some((4, 200))
    ensures flipperNumber == 2 && position == "ENTER" ==> r == Some((4, 10))
    ensures flipperNumber == 2 && position == "EXIT" ==> r == Some((4, 100))
  {
    if flipperNumber == 1 && position == "CLEAR" then Some((3, 0))
    else if flipperNumber == 1 && position == "ENTER" then Some((3, 110))
    else if flipperNumber == 1 && position == "EXIT" then Some((3, 185))
    else if flipperNumber == 2 && position == "CLEAR" then Some((4, 200))
    else if flipperNumber == 2 && position == "ENTER" then Some((4, 10))
    else if flipperNumber == 2 && position == "EXIT" then Some((4, 100))
    else None
  }

  // ---------------------------------------------------------------------------
  // The command each actuator call sends, or None when it rejects the call

  function ConveyorCommand(conveyorNumber: int, direction: string): (r: Option<Command>)
    ensures r.Some? <==> ConveyorServo(conveyorNumber).Some? &&
                         (direction == "FWD" || direction == "REV" || direction == "STOP")
    ensures r.Some? ==> r.value == Set(ConveyorServo(conveyorNumber).value, direction, None)
  {
    match ConveyorServo(conveyorNumber)
    case None => None
    case Some(servo) =>
      if direction == "FWD" || direction == "REV" || direction == "STOP" then Some(Set(servo, direction, None))
      else None
  }

  function RotateCommand(rotatorNumber: int, degrees: real, direction: string): (r: Option<Command>)
    ensures r.Some? <==> RotatorServo(rotatorNumber).Some? &&
                         (direction == "FWD" || direction == "REV") && 0.0 <= degrees <= 360.0
    ensures r.Some? ==> r.value == Rotate(RotatorServo(rotatorNumber).value, degrees, direction)
  {
    match RotatorServo(rotatorNumber)
    case None => None
    case Some(servo) =>
      if direction != "FWD" && direction != "REV" then None
      else if !(0.0 <= degrees <= 360.0) then None
      else Some(Rotate(servo, degrees, direction))
  }

  /** A forward distance the pusher accepts. */
  predicate DistanceOk(lim: Limits, distance: Option<real>) {
    distance.Some? && 0.0 <= distance.value <= lim.maxDistance
  }

  /**
   * `movePusher`: pusher 2 is refused outright unless flipper 2 was last set to
   * its clear position; FWD needs a distance in [0, maxDistance] and is sent with
   * the drive time `int(distance / speed * 1000)`; REV and STOP are sent without a
   * time; any other direction is refused.
   */
  function PusherCommand(lim: Limits, flipper2Pos: Option<int>, pusherNumber: int,
                         direction: string, distance: Option<real>): (r: Option<Command>)
    requires ValidLimits(lim)
    ensures pusherNumber == 2 && flipper2Pos != Some(Flipper2Clear) ==> r == None
    ensures r.Some? <==> PusherServo(pusherNumber).Some? &&
                         (pusherNumber == 2 ==> flipper2Pos == Some(Flipper2Clear)) &&
                         ((direction == "FWD" && DistanceOk(lim, distance)) ||
                          direction == "REV" || direction == "STOP")
    ensures r.Some? ==> r.value.Set? && r.value.servo == PusherServo(pusherNumber).value &&
                        r.value.direction == direction
    ensures r.Some? && direction == "FWD" ==>
              r.value.durationMs == Some(Trunc(distance.value / PusherSpeed(lim, pusherNumber) * 1000.0)) &&
              r.value.durationMs.value >= 0
    ensures r.Some? && direction != "FWD" ==> r.value.durationMs == None
  {
    match PusherServo(pusherNumber)
    case None => None
    case Some(servo) =>
      if pusherNumber == 2 && flipper2Pos != Some(Flipper2Clear) then None
      else if direction == "FWD" then
        if !DistanceOk(lim, distance) then None
        else Some(Set(servo, direction, Some(Trunc(distance.value / PusherSpeed(lim, pusherNumber) * 1000.0))))
      else if direction == "REV" || direction == "STOP" then Some(Set(servo, direction, None))
      else None
  }

  /**
   * The open-loop position estimate after an accepted pusher move: a forward move
   * adds its distance (an unknown estimate counts as 0), REV and STOP reset it.
   */
  function EstimateAfter(pos: Option<real>, direction: string, distance: Option<real>): (r: Option<real>)
    requires direction == "FWD" ==> distance.Some?
    ensures r.Some?
    ensures direction == "FWD" ==> r.value == (if pos.Some? then pos.value else 0.0) + distance.value
    ensures direction != "FWD" ==> r.value == 0.0
  {
    if direction == "FWD" then
      if pos.Some? then Some(pos.value + distance.value) else Some(distance.value)
    else Some(0.0)
  }

  // ---------------------------------------------------------------------------
  // The interlock as a property of the command trace

  /** The setpoint of the last `POS 4` command in the trace, None when there is none. */
  function LastFlipper2(trace: seq<Command>): Option<int>
  {
    if trace == [] then None
    else
      var c := trace[|trace| - 1];
      if c.Pos? && c.servo == 4 then Some(c.setpoint) else LastFlipper2(trace[..|trace| - 1])
  }

  /** Every command to pusher 2's servo was sent while flipper 2's last setpoint was clear. */
  predicate InterlockRespected(trace: seq<Command>) {
    trace == [] ||
    (var c := trace[|trace| - 1];
     var before := trace[..|trace| - 1];
     InterlockRespected(before) &&
     (c.Set? && c.servo == 6 ==> LastFlipper2(before) == Some(Flipper2Clear)))
  }

  /** The interlock, stated position by position over the whole trace. */
  lemma {:induction false} InterlockAtEveryPosition(trace: seq<Command>)
    ensures InterlockRespected(trace) <==>
              forall i :: 0 <= i < |trace| && trace[i].Set? && trace[i].servo == 6 ==>
                LastFlipper2(trace[..i]) == Some(Flipper2Clear)
  {
    if trace != [] {
      var n := |trace| - 1;
      var before := trace[..n];
      InterlockAtEveryPosition(before);
      forall i | 0 <= i < n ensures before[..i] == trace[..i] && before[i] == trace[i] {
      }
    }
  }

  /** What the gateway changes when it drives actuators. */
  datatype Actuation = Actuation(pusher1Pos: Option<real>, pusher2Pos: Option<real>,
                                 flipper2Pos: Option<int>, port: seq<Command>)

  /** The state after `__init__`: nothing known, nothing sent. */
  const Initial: Actuation := Actuation(None, None, None, [])

  /** The cached flipper-2 setpoint is the last one sent, and the interlock has held throughout. */
  predicate Safe(a: Actuation) {
    a.flipper2Pos == LastFlipper2(a.port) && InterlockRespected(a.port)
  }

  /**
   * Appending one command: the last flipper-2 setpoint moves only on a `POS 4`,
   * and the interlock survives as long as a pusher-2 command is sent only while
   * flipper 2 is clear.
   */
  lemma AppendKeepsInterlock(trace: seq<Command>, c: Command)
    ensures LastFlipper2(trace + [c]) ==
              if c.Pos? && c.servo == 4 then Some(c.setpoint) else LastFlipper2(trace)
    ensures InterlockRespected(trace + [c]) <==>
              InterlockRespected(trace) &&
              (c.Set? && c.servo == 6 ==> LastFlipper2(trace) == Some(Flipper2Clear))
  {
    assert (trace + [c])[..|trace|] == trace;
  }

  /**
   * `send_command` on the value view: the command is appended to the port and no
   * field changes. In particular a `POS 4` sent this way leaves the cached
   * flipper-2 setpoint alone; only `moveFlipper` writes that field.
   */
  function Send(a: Actuation, c: Command): (r: Actuation)
    ensures (Safe(a) && !(c.Pos? && c.servo == 4) &&
             (c.Set? && c.servo == 6 ==> a.flipper2Pos == Some(Flipper2Clear))) ==> Safe(r)
    ensures LastFlipper2(r.port) == if c.Pos? && c.servo == 4 then Some(c.setpoint) else LastFlipper2(a.port)
    ensures InterlockRespected(r.port) <==>
              InterlockRespected(a.port) && (c.Set? && c.servo == 6 ==> LastFlipper2(a.port) == Some(Flipper2Clear))
    ensures r.port == a.port + [c]
    ensures r.pusher1Pos == a.pusher1Pos && r.pusher2Pos == a.pusher2Pos && r.flipper2Pos == a.flipper2Pos
  {
    AppendKeepsInterlock(a.port, c);
    a.(port := a.port + [c])
  }

  // ---------------------------------------------------------------------------
  // Each actuator call on the value view; each one keeps the interlock

  function ConveyorSpec(a: Actuation, conveyorNumber: int, direction: string): (r: Actuation)
    ensures Safe(a) ==> Safe(r)
    ensures r.port == a.port + ToSeq(ConveyorCommand(conveyorNumber, direction))
    ensures r.pusher1Pos == a.pusher1Pos && r.pusher2Pos == a.pusher2Pos && r.flipper2Pos == a.flipper2Pos
  {
    match ConveyorCommand(conveyorNumber, direction)
    case None => a
    case Some(c) => Send(a, c)
  }

  function RotateSpec(a: Actuation, rotatorNumber: int, degrees: real, direction: string): (r: Actuation)
    ensures Safe(a) ==> Safe(r)
    ensures r.port == a.port + ToSeq(RotateCommand(rotatorNumber, degrees, direction))
    ensures r.pusher1Pos == a.pusher1Pos && r.pusher2Pos == a.pusher2Pos && r.flipper2Pos == a.flipper2Pos
  {
    match RotateCommand(rotatorNumber, degrees, direction)
    case None => a
    case Some(c) => Send(a, c)
  }

  /**
   * `moveFlipper`: a valid (flipper, position) pair caches a flipper-2 setpoint
   * first and then sends its POS command; an invalid pair changes nothing.
   */
  function FlipperSpec(a: Actuation, flipperNumber: int, position: string): (r: Actuation)
    ensures Safe(a) ==> Safe(r)
    ensures FlipperTarget(flipperNumber, position).None? ==> r == a
    ensures FlipperTarget(flipperNumber, position).Some? ==>
              r.port == a.port + [Pos(FlipperTarget(flipperNumber, position).value.0,
                                      FlipperTarget(flipperNumber, position).value.1)]
    ensures flipperNumber == 2 && position == "CLEAR" ==> r.flipper2Pos == Some(Flipper2Clear)
    ensures flipperNumber == 2 && position == "ENTER" ==> r.flipper2Pos == Some(10)
    ensures flipperNumber == 2 && position == "EXIT" ==> r.flipper2Pos == Some(100)
    ensures flipperNumber != 2 ==> r.flipper2Pos == a.flipper2Pos
    ensures r.pusher1Pos == a.pusher1Pos && r.pusher2Pos == a.pusher2Pos
  {
    match FlipperTarget(flipperNumber, position)
    case None => a
    case Some((servo, setpoint)) =>
      Send(a.(flipper2Pos := if servo == 4 then Some(setpoint) else a.flipper2Pos), Pos(servo, setpoint))
  }

  /** The estimates after an accepted move of pusher `pusherNumber`, before the command is sent. */
  function Moved(a: Actuation, pusherNumber: int, direction: string, distance: Option<real>): Actuation
    requires direction == "FWD" ==> distance.Some?
  {
    if pusherNumber == 1 then a.(pusher1Pos := EstimateAfter(a.pusher1Pos, direction, distance))
    else a.(pusher2Pos := EstimateAfter(a.pusher2Pos, direction, distance))
  }

  function PusherSpec(lim: Limits, a: Actuation, pusherNumber: int, direction: string,
                      distance: Option<real>): (r: Actuation)
    requires ValidLimits(lim)
    ensures Safe(a) ==> Safe(r)
    ensures r.port == a.port + ToSeq(PusherCommand(lim, a.flipper2Pos, pusherNumber, direction, distance))
    ensures PusherCommand(lim, a.flipper2Pos, pusherNumber, direction, distance).None? ==> r == a
    ensures r.flipper2Pos == a.flipper2Pos
    ensures PusherCommand(lim, a.flipper2Pos, pusherNumber, direction, distance).Some? ==>
              (pusherNumber == 1 ==> r.pusher1Pos == EstimateAfter(a.pusher1Pos, direction, distance)) &&
              (pusherNumber == 2 ==> r.pusher2Pos == EstimateAfter(a.pusher2Pos, direction, distance))
    ensures pusherNumber != 1 ==> r.pusher1Pos == a.pusher1Pos
    ensures pusherNumber != 2 ==> r.pusher2Pos == a.pusher2Pos
  {
    match PusherCommand(lim, a.flipper2Pos, pusherNumber, direction, distance)
    case None => a
    case Some(c) => Send(Moved(a, pusherNumber, direction, distance), c)
  }

  lemma PusherSpecSends(lim: Limits, a: Actuation, pusherNumber: int, direction: string,
                        distance: Option<real>, c: Command)
    requires ValidLimits(lim) && PusherCommand(lim, a.flipper2Pos, pusherNumber, direction, distance) == Some(c)
    ensures PusherSpec(lim, a, pusherNumber, direction, distance) ==
              Send(Moved(a, pusherNumber, direction, distance), c)
  {
  }

  /** A gateway call, for stating what any sequence of calls does. */
  datatype Op =
    | MoveConveyor(conveyorNumber: int, direction: string)
    | RotateRotator(rotatorNumber: int, degrees: real, direction: string)
    | MovePusher(pusherNumber: int, direction: string, distance: Option<real>)
    | MoveFlipper(flipperNumber: int, position: string)

  function Apply(lim: Limits, a: Actuation, op: Op): Actuation
    requires ValidLimits(lim)
  {
    match op
    case MoveConveyor(n, d) => ConveyorSpec(a, n, d)
    case RotateRotator(n, deg, d) => RotateSpec(a, n, deg, d)
    case MovePusher(n, d, dist) => PusherSpec(lim, a, n, d, dist)
    case MoveFlipper(n, p) => FlipperSpec(a, n, p)
  }

  function ApplyAll(lim: Limits, a: Actuation, ops: seq<Op>): Actuation
    requires ValidLimits(lim)
    decreases |ops|
  {
    if ops == [] then a else ApplyAll(lim, Apply(lim, a, ops[0]), ops[1..])
  }

  /**
   * Whatever sequence of calls the gateway receives after start-up, no command
   * has reached pusher 2 except while flipper 2's last commanded setpoint was the
   * clear position.
   */
  lemma {:induction false} InterlockAlwaysHolds(lim: Limits, a: Actuation, ops: seq<Op>)
    requires ValidLimits(lim) && Safe(a)
    ensures Safe(ApplyAll(lim, a, ops))
    ensures InterlockRespected(ApplyAll(lim, a, ops).port)
    decreases |ops|
  {
    if ops != [] {
      var next := Apply(lim, a, ops[0]);
      assert Safe(next);
      InterlockAlwaysHolds(lim, next, ops[1..]);
    }
  }

  lemma InitialIsSafe()
    ensures Safe(Initial)
  {
  }

  /**
   * `moveFlipper(2, "CLEAR")` unblocks pusher 2: afterwards a forward move of
   * 100 mm (within the travel limit) sends exactly one SET command whose time is
   * `int(100 / speed2 * 1000)`.
   */
  lemma ClearingFlipper2UnblocksPusher2(lim: Limits, a: Actuation)
    requires ValidLimits(lim) && lim.maxDistance >= 100.0
    ensures var cleared := FlipperSpec(a, 2, "CLEAR");
            PusherSpec(lim, cleared, 2, "FWD", Some(100.0)).port ==
              cleared.port + [Set(6, "FWD", Some(Trunc(100.0 / lim.speed2 * 1000.0)))]
  {
  }

  // ---------------------------------------------------------------------------
  // Inbound telemetry on the value view

  /** The cached sensor fields, with the height filter's buffer. */
  datatype SensorView = SensorView(beam1: Option<bool>, beam2: Option<bool>,
                                   limit1: Option<bool>, limit2: Option<bool>,
                                   heightBuffer: seq<real>)

  function ApplyEvent(cfg: Config, v: SensorView, e: Event): SensorView
    requires cfg.maxSize >= 1
  {
    match e
    case Beam1(b) => v.(beam1 := Some(b))
    case Beam2(b) => v.(beam2 := Some(b))
    case Limit1(b) => v.(limit1 := Some(b))
    case Limit2(b) => v.(limit2 := Some(b))
    case HeightSample(raw) => v.(heightBuffer := Step(cfg, v.heightBuffer, raw))
    case BadHeight => v
    case Ignored => v
  }

  /** The sensor view after reading one line, stripped first. */
  function ReadLine(cfg: Config, v: SensorView, line: string): SensorView
    requires cfg.maxSize >= 1
  {
    ApplyEvent(cfg, v, Decode(Strip(line)))
  }

  /** The sensor view after reading `lines` in order. */
  function Drain(cfg: Config, v: SensorView, lines: seq<string>): SensorView
    requires cfg.maxSize >= 1
  {
    if lines == [] then v
    else ReadLine(cfg, Drain(cfg, v, lines[..|lines| - 1]), lines[|lines| - 1])
  }

  lemma DrainStep(cfg: Config, v: SensorView, lines: seq<string>, init: seq<string>, last: string)
    requires cfg.maxSize >= 1 && lines == init + [last]
    ensures Drain(cfg, v, lines) == ReadLine(cfg, Drain(cfg, v, init), last)
  {
    assert lines[..|lines| - 1] == init;
  }

  /** Reading lines in two batches is the same as reading them in one. */
  lemma {:induction false} DrainConcat(cfg: Config, v: SensorView, xs: seq<string>, ys: seq<string>)
    requires cfg.maxSize >= 1
    ensures Drain(cfg, v, xs + ys) == Drain(cfg, Drain(cfg, v, xs), ys)
  {
    if ys == [] {
      assert xs + ys == xs;
    } else {
      var init, last := ys[..|ys| - 1], ys[|ys| - 1];
      assert ys == init + [last];
      assert xs + ys == (xs + init) + [last];
      DrainConcat(cfg, v, xs, init);
      DrainStep(cfg, v, xs + ys, xs + init, last);
      DrainStep(cfg, Drain(cfg, v, xs), ys, init, last);
    }
  }

  lemma DrainOne(cfg: Config, v: SensorView, line: string)
    requires cfg.maxSize >= 1
    ensures Drain(cfg, v, [line]) == ReadLine(cfg, v, line)
  {
    assert [line][..0] == [];
  }

  lemma DrainOneDecoded(cfg: Config, v: SensorView, line: string, e: Event)
    requires cfg.maxSize >= 1 && Decode(Strip(line)) == e
    ensures Drain(cfg, v, [line]) == ApplyEvent(cfg, v, e)
  {
    DrainOne(cfg, v, line);
  }

  /** Each light-barrier line sets exactly its one field to its listed value. */
  lemma BeamLineSetsOneField(cfg: Config, v: SensorView, line: string)
    requires cfg.maxSize >= 1
    ensures line == "b10" ==> Drain(cfg, v, [line]) == v.(beam1 := Some(false))
    ensures line == "b11" ==> Drain(cfg, v, [line]) == v.(beam1 := Some(true))
    ensures line == "b20" ==> Drain(cfg, v, [line]) == v.(beam2 := Some(false))
    ensures line == "b21" ==> Drain(cfg, v, [line]) == v.(beam2 := Some(true))
  {
    if SwitchEvent(line).Some? {
      SwitchLineApplies(cfg, v, line);
    }
  }

  /** Each limit-switch line sets exactly its one field to its listed value. */
  lemma LimitLineSetsOneField(cfg: Config, v: SensorView, line: string)
    requires cfg.maxSize >= 1
    ensures line == "STOP2" ==> Drain(cfg, v, [line]) == v.(limit1 := Some(true))
    ensures line == "GO2" ==> Drain(cfg, v, [line]) == v.(limit1 := Some(false))
    ensures line == "STOP6" ==> Drain(cfg, v, [line]) == v.(limit2 := Some(true))
    ensures line == "GO6" ==> Drain(cfg, v, [line]) == v.(limit2 := Some(false))
  {
    if line == "STOP2" {
      assert SwitchEvent(line) == Some(Limit1(true));
      SwitchLineApplies(cfg, v, line);
    } else if line == "GO2" {
      assert SwitchEvent(line) == Some(Limit1(false));
      SwitchLineApplies(cfg, v, line);
    } else if line == "STOP6" {
      assert SwitchEvent(line) == Some(Limit2(true));
      SwitchLineApplies(cfg, v, line);
    } else if line == "GO6" {
      assert SwitchEvent(line) == Some(Limit2(false));
      SwitchLineApplies(cfg, v, line);
    }
  }

  /** A switch line is already stripped, so reading it applies its event. */
  lemma SwitchLineApplies(cfg: Config, v: SensorView, line: string)
    requires cfg.maxSize >= 1 && SwitchEvent(line).Some?
    ensures Drain(cfg, v, [line]) == ApplyEvent(cfg, v, SwitchEvent(line).value)
  {
    assert IsStripped(line);
    assert Strip(line) == line;
    DrainOneDecoded(cfg, v, line, SwitchEvent(line).value);
  }

  /** A line that is neither a switch line nor an `HT ` line changes nothing. */
  lemma OtherLineChangesNothing(cfg: Config, v: SensorView, line: string)
    requires cfg.maxSize >= 1
    requires SwitchEvent(Strip(line)).None? && !StartsWith(Strip(line), HeightPrefix)
    ensures Drain(cfg, v, [line]) == v
  {
    DrainOne(cfg, v, line);
  }

  /** An `HT n` line feeds n to the height filter and changes nothing else. */
  lemma HeightLineFeedsFilter(cfg: Config, v: SensorView, n: int)
    requires cfg.maxSize >= 1
    ensures Drain(cfg, v, [HeightPrefix + IntToString(n)]) ==
              v.(heightBuffer := Step(cfg, v.heightBuffer, n))
  {
    var line := HeightPrefix + IntToString(n);
    DecodeHeightLine(n);
    assert Strip(line) == line;
    DrainOneDecoded(cfg, v, line, HeightSample(n));
    ApplyHeightSample(cfg, v, n);
  }

  lemma ApplyHeightSample(cfg: Config, v: SensorView, n: int)
    requires cfg.maxSize >= 1
    ensures ApplyEvent(cfg, v, HeightSample(n)) == v.(heightBuffer := Step(cfg, v.heightBuffer, n))
  {
  }

  /** An `HT` line whose payload is not an integer changes nothing. */
  lemma BadHeightLineChangesNothing(cfg: Config, v: SensorView, line: string)
    requires cfg.maxSize >= 1
    requires Decode(Strip(line)).BadHeight?
    ensures Drain(cfg, v, [line]) == v
  {
    var e := Decode(Strip(line));
    DrainOneDecoded(cfg, v, line, e);
    BadHeightKeeps(cfg, v, e);
  }

  lemma BadHeightKeeps(cfg: Config, v: SensorView, e: Event)
    requires cfg.maxSize >= 1 && e.BadHeight?
    ensures ApplyEvent(cfg, v, e) == v
  {
  }

  // ---------------------------------------------------------------------------
  // The gateway object

  class SerialCommunicator {
    var beam1State: Option<bool>
    var beam2State: Option<bool>
    var limit1State: Option<bool>
    var limit2State: Option<bool>
    var height: Option<real>
    var pusher1Pos: Option<real>
    var pusher2Pos: Option<real>
    var flipper2Pos: Option<int>
    var port: seq<Command>
    const heightSensor: HB.HeightBuffer
    const limits: Limits

    function Act(): Actuation
      reads this
    {
      Actuation(pusher1Pos, pusher2Pos, flipper2Pos, port)
    }

    function Sensors(): SensorView
      reads this, heightSensor
    {
      SensorView(beam1State, beam2State, limit1State, limit2State, heightSensor.buffer)
    }

    /** The height filter is consistent, `height` mirrors its average, and the interlock holds. */
    ghost predicate Valid()
      reads this, heightSensor
    {
      ValidLimits(limits) && heightSensor.Valid() &&
      height == heightSensor.average && Safe(Act())
    }

    /** Serial-port opening is not modelled; the height filter has its defaults. */
    constructor (limits: Limits)
      requires ValidLimits(limits)
      ensures Valid() && fresh(heightSensor)
      ensures this.limits == limits && Act() == Initial
      ensures Sensors() == SensorView(None, None, None, None, []) && height == None
      ensures heightSensor.Cfg() ==
                Config(HB.DefaultMaxSize, HB.DefaultScale, HB.DefaultOffset, HB.DefaultMaxValid, Clamp)
    {
      beam1State := None;
      beam2State := None;
      limit1State := None;
      limit2State := None;
      height := None;
      pusher1Pos := None;
      pusher2Pos := None;
      flipper2Pos := None;
      port := [];
      heightSensor := new HB.HeightBuffer(HB.DefaultMaxSize, HB.DefaultScale, HB.DefaultOffset, HB.DefaultMaxValid);
      this.limits := limits;
    }

    /** `send_command`: one line written to the port. */
    method SendCommand(cmd: Command)
      modifies this`port
      ensures port == old(port) + [cmd]
    {
      port := port + [cmd];
    }

    /** The branch of `update_from_serial` that one decoded line takes. */
    method HandleEvent(event: Event)
      requires Valid()
      modifies this, heightSensor
      ensures Valid()
      ensures Sensors() == ApplyEvent(heightSensor.Cfg(), old(Sensors()), event)
      ensures Act() == old(Act())
    {
      match event {
        case Beam1(broken) => beam1State := Some(broken);
        case Beam2(broken) => beam2State := Some(broken);
        case Limit1(pressed) => limit1State := Some(pressed);
        case Limit2(pressed) => limit2State := Some(pressed);
        case HeightSample(raw) => FeedHeight(raw);
        case BadHeight =>
        case Ignored =>
      }
    }

    /** An `HT` sample: the filter is updated and `height` follows its average when there is one. */
    method FeedHeight(raw: int)
      requires Valid()
      modifies this, heightSensor
      ensures Valid()
      ensures Sensors() == old(Sensors()).(heightBuffer := Step(heightSensor.Cfg(), old(heightSensor.buffer), raw))
      ensures Act() == old(Act())
    {
      ghost var before, act := Sensors(), Act();
      var newHeight := heightSensor.Update(raw);
      if newHeight.Some? {
        height := newHeight;
      }
      assert Act() == act;
      assert Sensors() == before.(heightBuffer := heightSensor.buffer);
    }

    /** `update_from_serial`: every waiting line, in order. */
    method UpdateFromSerial(lines: seq<string>)
      requires Valid()
      modifies this, heightSensor
      ensures Valid()
      ensures Sensors() == Drain(heightSensor.Cfg(), old(Sensors()), lines)
      ensures Act() == old(Act())
    {
      var i := 0;
      while i < |lines|
        invariant 0 <= i <= |lines|
        invariant Valid()
        invariant Sensors() == Drain(heightSensor.Cfg(), old(Sensors()), lines[..i])
        invariant Act() == old(Act())
      {
        var line := Strip(lines[i]);
        HandleEvent(Decode(line));
        assert lines[..i + 1][..i] == lines[..i];
        i := i + 1;
      }
      assert lines[..i] == lines;
    }

    /** `rotateRotator`: rotator 1 or 2, FWD or REV, 0 to 360 degrees; otherwise nothing is sent. */
    method RotateRotator(rotatorNumber: int, degrees: real, direction: string)
      requires Valid()
      modifies this
      ensures Valid()
      ensures Act() == RotateSpec(old(Act()), rotatorNumber, degrees, direction)
      ensures Sensors() == old(Sensors()) && height == old(height)
    {
      ghost var sensors := Sensors();
      var servoNumber: int;
      if rotatorNumber == 1 {
        servoNumber := 1;
      } else if rotatorNumber == 2 {
        servoNumber := 7;
      } else {
        return;
      }
      if direction != "FWD" && direction != "REV" {
        return;
      }
      if !(0.0 <= degrees <= 360.0) {
        return;
      }
      ghost var beforeSend := Act();
      assert RotateCommand(rotatorNumber, degrees, direction) == Some(Rotate(servoNumber, degrees, direction));
      SendCommand(Rotate(servoNumber, degrees, direction));
      assert Act() == Send(beforeSend, Rotate(servoNumber, degrees, direction));
      assert Sensors() == sensors && heightSensor.Valid();
    }

    /**
     * `movePusher`: refused unless pusher 2's interlock is satisfied and the
     * direction and distance are valid; an accepted move updates the position
     * estimate of its pusher and sends one SET command.
     */
    method MovePusher(pusherNumber: int, direction: string, distance: Option<real>)
      requires Valid()
      modifies this
      ensures Valid()
      ensures Act() == PusherSpec(limits, old(Act()), pusherNumber, direction, distance)
      ensures Sensors() == old(Sensors()) && height == old(height)
    {
      var servoNumber: int;
      var mmPerSecond: real;
      if pusherNumber == 1 {
        servoNumber, mmPerSecond := 2, limits.speed1;
      } else if pusherNumber == 2 {
        servoNumber, mmPerSecond := 6, limits.speed2;
      } else {
        return;
      }

      if pusherNumber == 2 && flipper2Pos != Some(Flipper2Clear) {
        return;
      }

      DrivePusher(pusherNumber, servoNumber, mmPerSecond, direction, distance);
    }

    /** The direction-dependent half of `movePusher`, once the pusher and the interlock are settled. */
    method DrivePusher(pusherNumber: int, servoNumber: int, mmPerSecond: real,
                       direction: string, distance: Option<real>)
      requires Valid()
      requires PusherServo(pusherNumber) == Some(servoNumber)
      requires mmPerSecond == PusherSpeed(limits, pusherNumber)
      requires pusherNumber == 2 ==> flipper2Pos == Some(Flipper2Clear)
      modifies this
      ensures Valid()
      ensures Act() == PusherSpec(limits, old(Act()), pusherNumber, direction, distance)
      ensures Sensors() == old(Sensors()) && height == old(height)
    {
      ghost var sensors := Sensors();
      var cmd := PusherCommandFor(pusherNumber, servoNumber, mmPerSecond, direction, distance);
      if cmd.None? {
        return;
      }
      MoveEstimate(pusherNumber, direction, distance);
      ghost var beforeSend := Act();
      SendCommand(cmd.value);
      assert Act() == Send(beforeSend, cmd.value);
      assert Sensors() == sensors && heightSensor.Valid();
      PusherSpecSends(limits, old(Act()), pusherNumber, direction, distance, cmd.value);
    }

    /** The SET command of an accepted move: a run time for FWD within the travel limit, none for REV and STOP. */
    method PusherCommandFor(pusherNumber: int, servoNumber: int, mmPerSecond: real,
                            direction: string, distance: Option<real>) returns (cmd: Option<Command>)
      requires ValidLimits(limits)
      requires PusherServo(pusherNumber) == Some(servoNumber)
      requires mmPerSecond == PusherSpeed(limits, pusherNumber)
      requires pusherNumber == 2 ==> flipper2Pos == Some(Flipper2Clear)
      ensures cmd == PusherCommand(limits, flipper2Pos, pusherNumber, direction, distance)
    {
      if direction == "FWD" {
        if distance.None? || distance.value < 0.0 || distance.value > limits.maxDistance {
          return None;
        }
        var timeMillis := Trunc(distance.value / mmPerSecond * 1000.0);
        cmd := Some(Set(servoNumber, direction, Some(timeMillis)));
      } else if direction == "REV" || direction == "STOP" {
        cmd := Some(Set(servoNumber, direction, None));
      } else {
        cmd := None;
      }
    }

    /** The position estimate after an accepted move: advanced by the distance on FWD, 0 on REV and STOP. */
    method MoveEstimate(pusherNumber: int, direction: string, distance: Option<real>)
      requires pusherNumber == 1 || pusherNumber == 2
      requires direction == "FWD" ==> distance.Some?
      modifies this`pusher1Pos, this`pusher2Pos
      ensures Act() == Moved(old(Act()), pusherNumber, direction, distance)
    {
      if direction == "FWD" {
        if pusherNumber == 1 {
          pusher1Pos := if pusher1Pos.Some? then Some(pusher1Pos.value + distance.value) else Some(distance.value);
        } else {
          pusher2Pos := if pusher2Pos.Some? then Some(pusher2Pos.value + distance.value) else Some(distance.value);
        }
      } else {
        if pusherNumber == 1 {
          pusher1Pos := Some(0.0);
        } else {
          pusher2Pos := Some(0.0);
        }
      }
    }

    /** `moveConveyor`: conveyor 1 or 2, FWD, REV or STOP; otherwise nothing is sent. */
    method MoveConveyor(conveyorNumber: int, direction: string)
      requires Valid()
      modifies this
      ensures Valid()
      ensures Act() == ConveyorSpec(old(Act()), conveyorNumber, direction)
      ensures Sensors() == old(Sensors()) && height == old(height)
    {
      ghost var sensors := Sensors();
      var servoNumber: int;
      if conveyorNumber == 1 {
        servoNumber := 0;
      } else if conveyorNumber == 2 {
        servoNumber := 5;
      } else {
        return;
      }
      if direction != "FWD" && direction != "REV" && direction != "STOP" {
        return;
      }
      ghost var beforeSend := Act();
      SendCommand(Set(servoNumber, direction, None));
      assert Act() == Send(beforeSend, Set(servoNumber, direction, None));
      assert Sensors() == sensors && heightSensor.Valid();
    }

    /**
     * `moveFlipper`: one of the six (flipper, position) pairs sends its POS
     * command; a flipper-2 position is also cached for the pusher-2 interlock.
     */
    method MoveFlipper(flipperNumber: int, position: string)
      requires Valid()
      modifies this
      ensures Valid()
      ensures Act() == FlipperSpec(old(Act()), flipperNumber, position)
      ensures Sensors() == old(Sensors()) && height == old(height)
    {
      ghost var sensors := Sensors();
      // the match over (flipperNumber, position)
      var target := FlipperTarget(flipperNumber, position);
      if target.None? {
        return;
      }
      var servoNumber, servoPosition := target.value.0, target.value.1;
      ghost var beforeSend := Act().(flipper2Pos := if servoNumber == 4 then Some(servoPosition) else flipper2Pos);
      if servoNumber == 4 {
        flipper2Pos := Some(servoPosition);
      }
      SendCommand(Pos(servoNumber, servoPosition));
      assert Act() == Send(beforeSend, Pos(servoNumber, servoPosition));
      assert Sensors() == sensors && heightSensor.Valid();
    }
  }
}
