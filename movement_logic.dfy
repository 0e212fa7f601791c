/**
 * logic/movementLogic.py: the tick-driven sequencer of one sorting cycle. Every
 * call of `handle_movement` looks at the current state, may issue gateway
 * commands, and may move one state further along
 *
 *   IDLE, LOADING, PUSHING1, WAIT_FOR_PUSHING1, WAIT_FOR_CLEARANCE, ROTATING,
 *   WAIT_FOR_ROTATION, PUSHING2, WAIT_FOR_PUSHING2, WAIT_FOR_PUSHING3, DONE.
 *
 * The clock (`time.time_ns() // 1_000_000`) is the tick's `now` in milliseconds,
 * and `sqrt` of the half-diagonal is supplied by the caller as `halfDiagonal`.
 */
module MovementLogic {
  import opened Wrappers
  import opened Numbers
  import opened Gateway

  datatype Phase =
    | Idle | Loading | Pushing1 | WaitForPushing1 | WaitForClearance | Rotating
    | WaitForRotation | Pushing2 | WaitForPushing2 | WaitForPushing3 | Done

  /** The position of a phase along the fixed chain. */
  function Index(p: Phase): (i: nat)
    ensures i <= 10
    ensures i == 10 <==> p == Done
    ensures i == 0 <==> p == Idle
  {
    match p
    case Idle => 0
    case Loading => 1
    case Pushing1 => 2
    case WaitForPushing1 => 3
    case WaitForClearance => 4
    case Rotating => 5
    case WaitForRotation => 6
    case Pushing2 => 7
    case WaitForPushing2 => 8
    case WaitForPushing3 => 9
    case Done => 10
  }

  /** The machine's own fields: state and the three timers. */
  datatype Machine = Machine(phase: Phase, rotatorWaitStart: int, pusher1WaitStart: int, pusher1WaitTime: real)

  /** The state after `__init__`. */
  const StartState: Machine := Machine(Idle, 0, 0, 0.0)

  /** What one tick observes: the clock, the vision results and the cached sensor fields. */
  datatype Tick = Tick(now: int, angle: real, centerY: real, halfDiagonal: real,
                       beam2: Option<bool>, limit1: Option<bool>)

  /** Python truthiness of a cached sensor field: None reads as false. */
  predicate Truthy(o: Option<bool>) {
    o == Some(true)
  }

  /** Strictly more than `wait` milliseconds have passed since `start`. */
  predicate Elapsed(now: int, start: int, wait: real) {
    (now - start) as real > wait
  }

  /**
   * The clearance wait set when pusher 1 is reversed. By operator precedence
   * `distance + 5 / speed * 1000` adds the half-diagonal in millimetres to the
   * time in milliseconds that pusher 1 needs for 5 mm; the sum is used as a wait
   * in milliseconds.
   */
  function ClearanceWait(halfDiagonal: real, speed1: real): real
    requires speed1 > 0.0
  {
    halfDiagonal + 5.0 / speed1 * 1000.0
  }

  /** The wait after the second push: 250 mm at pusher-1 speed, in milliseconds. */
  function SecondPushWait(speed1: real): real
    requires speed1 > 0.0
  {
    250.0 / speed1 * 1000.0
  }

  /** The machine's fields after one tick. */
  function Next(m: Machine, t: Tick, frameHeight: real, speed1: real): (r: Machine)
    requires speed1 > 0.0
    ensures Index(r.phase) == Index(m.phase) || Index(r.phase) == Index(m.phase) + 1
    ensures m.phase == Done ==> r == m
    ensures r.phase == m.phase ==> r == m
  {
    match m.phase
    case Idle =>
      if Truthy(t.beam2) then m.(phase := Loading) else m
    case Loading =>
      if !Truthy(t.beam2) then m.(phase := Pushing1) else m
    case Pushing1 =>
      m.(phase := WaitForPushing1)
    case WaitForPushing1 =>
      if t.centerY > frameHeight / 2.0 then
        m.(pusher1WaitTime := ClearanceWait(t.halfDiagonal, speed1), pusher1WaitStart := t.now,
           phase := WaitForClearance)
      else m
    case WaitForClearance =>
      if Elapsed(t.now, m.pusher1WaitStart, m.pusher1WaitTime) then m.(phase := Rotating) else m
    case Rotating =>
      m.(rotatorWaitStart := t.now, phase := WaitForRotation)
    case WaitForRotation =>
      if Elapsed(t.now, m.rotatorWaitStart, 1000.0) && Truthy(t.limit1) then m.(phase := Pushing2) else m
    case Pushing2 =>
      m.(pusher1WaitTime := SecondPushWait(speed1), pusher1WaitStart := t.now, phase := WaitForPushing2)
    case WaitForPushing2 =>
      if Elapsed(t.now, m.pusher1WaitStart, m.pusher1WaitTime) then
        m.(pusher1WaitStart := t.now, phase := WaitForPushing3)
      else m
    case WaitForPushing3 =>
      if Elapsed(t.now, m.pusher1WaitStart, m.pusher1WaitTime) then m.(phase := Done) else m
    case Done =>
      m
  }

  /** The gateway calls one tick makes, on the gateway's value view. */
  function TickActuation(lim: Limits, m: Machine, t: Tick, frameHeight: real, a: Actuation): (r: Actuation)
    requires ValidLimits(lim)
    ensures Safe(a) ==> Safe(r)
    ensures r.pusher2Pos == a.pusher2Pos && r.flipper2Pos == a.flipper2Pos
    ensures a.port <= r.port && |r.port| <= |a.port| + 1
    ensures |r.port| > |a.port| ==> r.port[|a.port|].servo in {0, 1, 2}
    ensures m.phase in {WaitForClearance, WaitForRotation, WaitForPushing3, Done} ==> r == a
  {
    match m.phase
    case Idle =>
      ConveyorSpec(a, 1, "FWD")
    case Loading =>
      if !Truthy(t.beam2) then ConveyorSpec(a, 1, "STOP") else a
    case Pushing1 =>
      PusherSpec(lim, a, 1, "FWD", Some(250.0))
    case WaitForPushing1 =>
      if t.centerY > frameHeight / 2.0 then PusherSpec(lim, a, 1, "REV", None) else a
    case Rotating =>
      if t.angle < 0.0 then RotateSpec(a, 1, t.angle, "REV")
      else if t.angle > 0.0 then RotateSpec(a, 1, t.angle, "FWD")
      else a
    case Pushing2 =>
      PusherSpec(lim, a, 1, "FWD", Some(250.0))
    case WaitForPushing2 =>
      if Elapsed(t.now, m.pusher1WaitStart, m.pusher1WaitTime) then PusherSpec(lim, a, 1, "REV", None) else a
    case _ =>
      a
  }

  /** The machine's fields after the ticks in order. */
  function Run(m: Machine, ticks: seq<Tick>, frameHeight: real, speed1: real): Machine
    requires speed1 > 0.0
    decreases |ticks|
  {
    if ticks == [] then m else Run(Next(m, ticks[0], frameHeight, speed1), ticks[1..], frameHeight, speed1)
  }

  /** Over any run the machine never goes back, and advances at most one state per tick. */
  lemma {:induction false} RunMovesForward(m: Machine, ticks: seq<Tick>, frameHeight: real, speed1: real)
    requires speed1 > 0.0
    ensures Index(m.phase) <= Index(Run(m, ticks, frameHeight, speed1).phase) <= Index(m.phase) + |ticks|
    decreases |ticks|
  {
    if ticks != [] {
      RunMovesForward(Next(m, ticks[0], frameHeight, speed1), ticks[1..], frameHeight, speed1);
    }
  }

  /** Once DONE, no run leaves it or changes a timer. */
  lemma {:induction false} DoneIsAbsorbing(m: Machine, ticks: seq<Tick>, frameHeight: real, speed1: real)
    requires speed1 > 0.0 && m.phase == Done
    ensures Run(m, ticks, frameHeight, speed1) == m
    decreases |ticks|
  {
    if ticks != [] {
      DoneIsAbsorbing(Next(m, ticks[0], frameHeight, speed1), ticks[1..], frameHeight, speed1);
    }
  }

  /** A cycle from the initial state needs at least ten ticks to reach DONE. */
  lemma DoneNeedsTenTicks(ticks: seq<Tick>, frameHeight: real, speed1: real)
    requires speed1 > 0.0 && Run(StartState, ticks, frameHeight, speed1).phase == Done
    ensures |ticks| >= 10
  {
    RunMovesForward(StartState, ticks, frameHeight, speed1);
  }

  /**
   * The guard of every state: IDLE and LOADING follow beam 2, WAIT_FOR_PUSHING1
   * the object's centre line, the timed waits a strictly longer elapsed time,
   * WAIT_FOR_ROTATION also limit switch 1; PUSHING1, ROTATING and PUSHING2 always
   * advance.
   */
  lemma GuardsOfNext(m: Machine, t: Tick, frameHeight: real, speed1: real)
    requires speed1 > 0.0
    ensures var r := Next(m, t, frameHeight, speed1);
            var advances := Index(r.phase) == Index(m.phase) + 1;
            (m.phase == Idle ==> (advances <==> Truthy(t.beam2))) &&
            (m.phase == Loading ==> (advances <==> !Truthy(t.beam2))) &&
            (m.phase in {Pushing1, Rotating, Pushing2} ==> advances) &&
            (m.phase == WaitForPushing1 ==> (advances <==> t.centerY > frameHeight / 2.0)) &&
            (m.phase in {WaitForClearance, WaitForPushing2, WaitForPushing3} ==>
               (advances <==> Elapsed(t.now, m.pusher1WaitStart, m.pusher1WaitTime))) &&
            (m.phase == WaitForRotation ==>
               (advances <==> Elapsed(t.now, m.rotatorWaitStart, 1000.0) && Truthy(t.limit1)))
  {
  }

  /** Every IDLE tick sends conveyor 1 forward, whatever beam 2 reads. */
  lemma IdleDrivesConveyor(lim: Limits, m: Machine, t: Tick, frameHeight: real, a: Actuation)
    requires ValidLimits(lim) && m.phase == Idle
    ensures TickActuation(lim, m, t, frameHeight, a).port == a.port + [Set(0, "FWD", None)]
  {
  }

  /**
   * ROTATING sends nothing for angle 0 and, since the gateway refuses negative
   * degrees, nothing either for a negative angle passed with REV; a positive
   * angle up to 360 sends `ROTATE 1 <angle> FWD`, and one above 360 is refused.
   */
  lemma RotatingSends(lim: Limits, m: Machine, t: Tick, frameHeight: real, a: Actuation)
    requires ValidLimits(lim) && m.phase == Rotating
    ensures t.angle <= 0.0 ==> TickActuation(lim, m, t, frameHeight, a) == a
    ensures 0.0 < t.angle <= 360.0 ==>
              TickActuation(lim, m, t, frameHeight, a).port == a.port + [Rotate(1, t.angle, "FWD")]
    ensures t.angle > 360.0 ==> TickActuation(lim, m, t, frameHeight, a) == a
  {
    var r := TickActuation(lim, m, t, frameHeight, a);
    if t.angle < 0.0 {
      assert RotateCommand(1, t.angle, "REV") == None;
      assert r == RotateSpec(a, 1, t.angle, "REV");
    }
  }

  /** LOADING stops conveyor 1 once beam 2 reads clear, and sends nothing while it reads broken. */
  lemma LoadingStopsConveyor(lim: Limits, m: Machine, t: Tick, frameHeight: real, a: Actuation)
    requires ValidLimits(lim) && m.phase == Loading
    ensures !Truthy(t.beam2) ==> TickActuation(lim, m, t, frameHeight, a).port == a.port + [Set(0, "STOP", None)]
    ensures Truthy(t.beam2) ==> TickActuation(lim, m, t, frameHeight, a) == a
  {
  }

  /**
   * PUSHING1 and PUSHING2 drive pusher 1 forward 250 mm: when the travel limit
   * allows it, `SET 2 FWD <int(250 / speed1 * 1000)>` is sent and the estimate
   * grows by 250 mm; otherwise nothing happens.
   */
  lemma PushingDrivesPusher1(lim: Limits, m: Machine, t: Tick, frameHeight: real, a: Actuation)
    requires ValidLimits(lim) && (m.phase == Pushing1 || m.phase == Pushing2)
    ensures var r := TickActuation(lim, m, t, frameHeight, a);
            lim.maxDistance >= 250.0 ==>
              r.port == a.port + [Set(2, "FWD", Some(Trunc(250.0 / lim.speed1 * 1000.0)))] &&
              r.pusher1Pos == Some((if a.pusher1Pos.Some? then a.pusher1Pos.value else 0.0) + 250.0)
    ensures lim.maxDistance < 250.0 ==> TickActuation(lim, m, t, frameHeight, a) == a
  {
  }

  /**
   * WAIT_FOR_PUSHING1 past the centre line and WAIT_FOR_PUSHING2 once its wait
   * has elapsed send `SET 2 REV` and reset pusher 1's estimate to 0; before
   * that they send nothing.
   */
  lemma WaitsRetractPusher1(lim: Limits, m: Machine, t: Tick, frameHeight: real, a: Actuation)
    requires ValidLimits(lim) && (m.phase == WaitForPushing1 || m.phase == WaitForPushing2)
    ensures var fires := if m.phase == WaitForPushing1 then t.centerY > frameHeight / 2.0
                         else Elapsed(t.now, m.pusher1WaitStart, m.pusher1WaitTime);
            var r := TickActuation(lim, m, t, frameHeight, a);
            (fires ==> r.port == a.port + [Set(2, "REV", None)] && r.pusher1Pos == Some(0.0)) &&
            (!fires ==> r == a)
  {
  }

  /**
   * The timers one tick sets: WAIT_FOR_PUSHING1 past the centre line starts the
   * clearance wait, ROTATING starts the rotation timer, PUSHING2 starts the
   * second-push wait, and WAIT_FOR_PUSHING2 restarts the timer with the same
   * wait; no other tick touches a timer.
   */
  lemma TimersOfNext(m: Machine, t: Tick, frameHeight: real, speed1: real)
    requires speed1 > 0.0
    ensures var r := Next(m, t, frameHeight, speed1);
            (m.phase == WaitForPushing1 && t.centerY > frameHeight / 2.0 ==>
               r.pusher1WaitStart == t.now && r.pusher1WaitTime == ClearanceWait(t.halfDiagonal, speed1)) &&
            (m.phase == Rotating ==> r.rotatorWaitStart == t.now) &&
            (m.phase == Pushing2 ==>
               r.pusher1WaitStart == t.now && r.pusher1WaitTime == SecondPushWait(speed1)) &&
            (m.phase == WaitForPushing2 && Elapsed(t.now, m.pusher1WaitStart, m.pusher1WaitTime) ==>
               r.pusher1WaitStart == t.now && r.pusher1WaitTime == m.pusher1WaitTime) &&
            (m.phase !in {WaitForPushing1, Rotating, Pushing2, WaitForPushing2} ==>
               r.rotatorWaitStart == m.rotatorWaitStart && r.pusher1WaitStart == m.pusher1WaitStart &&
               r.pusher1WaitTime == m.pusher1WaitTime) &&
            (r.rotatorWaitStart == m.rotatorWaitStart || m.phase == Rotating) &&
            (r.phase == m.phase ==> r == m)
  {
  }

  /** The sequencer object; it drives the gateway it was constructed with. */
  class MovementLogic {
    const communicator: SerialCommunicator
    /** The camera frame height the centre line is compared against. */
    const frameHeight: real
    var state: Phase
    var rotatorWaitStartTime: int
    var pusher1WaitStartTime: int
    var pusher1WaitTime: real

    function Fields(): Machine
      reads this
    {
      Machine(state, rotatorWaitStartTime, pusher1WaitStartTime, pusher1WaitTime)
    }

    /** `__init__`: IDLE with every timer zero. */
    constructor (communicator: SerialCommunicator, frameHeight: real)
      ensures this.communicator == communicator && this.frameHeight == frameHeight
      ensures Fields() == StartState
    {
      this.communicator := communicator;
      this.frameHeight := frameHeight;
      state := Idle;
      rotatorWaitStartTime := 0;
      pusher1WaitStartTime := 0;
      pusher1WaitTime := 0.0;
    }

    /**
     * `handle_movement`: one tick. The new fields are `Next` of the old ones and
     * the gateway's actuation is `TickActuation` of its old one; the sensor
     * fields are only read. The target dimensions, the centre X and the object
     * height are accepted and ignored, as in the source.
     */
    method HandleMovement(angle: real, objectCenterX: real, objectCenterY: real,
                          objectLength: real, objectWidth: real, objectHeight: real,
                          targetLength: real, targetWidth: real, targetHeight: real,
                          now: int, halfDiagonal: real)
      requires communicator.Valid()
      requires halfDiagonal >= 0.0
      requires halfDiagonal * halfDiagonal ==
                 (objectWidth / 2.0) * (objectWidth / 2.0) + (objectLength / 2.0) * (objectLength / 2.0)
      modifies this, communicator
      ensures communicator.Valid()
      ensures var t := Tick(now, angle, objectCenterY, halfDiagonal,
                            old(communicator.beam2State), old(communicator.limit1State));
              Fields() == Next(old(Fields()), t, frameHeight, communicator.limits.speed1) &&
              communicator.Act() == TickActuation(communicator.limits, old(Fields()), t, frameHeight,
                                                  old(communicator.Act()))
      ensures communicator.Sensors() == old(communicator.Sensors()) && communicator.height == old(communicator.height)
    {
      assert communicator as object != this;
      match state {
        case Idle =>
          communicator.MoveConveyor(1, "FWD");
          if Truthy(communicator.beam2State) {
            state := Loading;
          }
        case Loading =>
          if !Truthy(communicator.beam2State) {
            communicator.MoveConveyor(1, "STOP");
            state := Pushing1;
          }
        case Pushing1 =>
          communicator.MovePusher(1, "FWD", Some(250.0));
          state := WaitForPushing1;
        case WaitForPushing1 =>
          if objectCenterY > frameHeight / 2.0 {
            pusher1WaitTime := ClearanceWait(halfDiagonal, communicator.limits.speed1);
            communicator.MovePusher(1, "REV", None);
            pusher1WaitStartTime := now;
            state := WaitForClearance;
          }
        case WaitForClearance =>
          if Elapsed(now, pusher1WaitStartTime, pusher1WaitTime) {
            state := Rotating;
          }
        case Rotating =>
          if angle < 0.0 {
            communicator.RotateRotator(1, angle, "REV");
          } else if angle > 0.0 {
            communicator.RotateRotator(1, angle, "FWD");
          }
          rotatorWaitStartTime := now;
          state := WaitForRotation;
        case WaitForRotation =>
          if Elapsed(now, rotatorWaitStartTime, 1000.0) && Truthy(communicator.limit1State) {
            state := Pushing2;
          }
        case Pushing2 =>
          communicator.MovePusher(1, "FWD", Some(250.0));
          pusher1WaitTime := SecondPushWait(communicator.limits.speed1);
          pusher1WaitStartTime := now;
          state := WaitForPushing2;
        case WaitForPushing2 =>
          if Elapsed(now, pusher1WaitStartTime, pusher1WaitTime) {
            pusher1WaitStartTime := now;
            communicator.MovePusher(1, "REV", None);
            state := WaitForPushing3;
          }
        case WaitForPushing3 =>
          if Elapsed(now, pusher1WaitStartTime, pusher1WaitTime) {
            state := Done;
          }
        case Done =>
      }
    }
  }
}
