# Box-sorting cell: control core in Dafny

This project models the control core of a box-sorting work cell. A camera
measures a box, a catalog lookup finds the product it is, and conveyors,
pushers, a rotator and flippers turn the box and route it. The modelled
pieces are:

- **The actuator and telemetry gateway** (`interfaces/serialCommunicator.py`,
  module `Gateway`). It reads telemetry lines from a serial link into cached
  sensor fields: beams 1 and 2, limit switches 1 and 2, and a filtered height.
  It also checks the arguments of actuator calls and builds the `SET`,
  `ROTATE` and `POS` commands. It keeps an open-loop position estimate for
  each pusher. It enforces the safety interlock: pusher 2 may only move
  while the last setpoint sent to flipper 2 is its clear position, 200.
- **The earlier gateway revision** (`logic/communicator.py`, module
  `Communicator`). It writes commands as text and caches the setpoint of the
  last `POS 4` command as the pusher-2 position. It sends rotations as
  `ROTATE <servo> <direction> <degrees>` and accepts only the directions `FW`
  and `REV`.
- **The sequencer** (`logic/movementLogic.py`, module `MovementLogic`). It is
  a state machine driven by ticks: IDLE, LOADING, PUSHING1,
  WAIT_FOR_PUSHING1, WAIT_FOR_CLEARANCE, ROTATING, WAIT_FOR_ROTATION,
  PUSHING2, WAIT_FOR_PUSHING2, WAIT_FOR_PUSHING3, DONE. It drives the gateway.
- **The height filter, in three revisions.** All three calibrate a raw
  sample linearly, drop samples out of range, keep a bounded FIFO buffer and
  report its mean rounded to one decimal. The revisions are:
  - `helpers/heightBuffer.py` (module `HeightBuffer`): clamps negative
    values to 0 and keeps one value;
  - `logic/heightSensor.py` (module `HeightSensor`): rejects negative
    values and keeps ten;
  - `logic/newHeightSensor.py` (module `NewHeightSensor`): the same filter
    in module globals.

  Module `HeightFilter` holds the pipeline the three share, as values.
- **The catalog matchers, in three revisions.** The catalog is passed in as
  a sequence of records. The revisions are:
  - `interfaces/dbConnector.py` (module `SortedMatcher`): sorts the
    dimensions and does not gate on the height's position;
  - `logic/db_connector.py` (module `PairingMatcher`): tries both
    length/width pairings and does not gate on height;
  - `WorkingDetection/logic/json_parser.py` (module `JsonMatcher`): compares
    dimensions by relative tolerance and returns the first match.

  The two database matchers share the argmin scan (`ArgMin`) and the
  tolerance test (`Catalog`).
- **Small helpers**: the `Shape` enum and its catalog strings
  (`helpers/shape.py`, module `Shapes`), and the `HEIGHT:` line parser
  (`logic/height_sensor.py`, module `HeightLine`).

`Numbers` and `Text` model the Python built-ins this code relies on:
`abs`, `int()` of a float, `round(x, 1)`, `sorted`, `str.strip`,
`str.split`, `int(str)` and `str(int)`.

The safety property is a property of the whole trace of sent commands. Every
command to pusher 2's servo (6) was sent while the last `POS 4` setpoint
before it was 200. Every gateway call preserves this (`Gateway.Safe`), and
`Gateway.InterlockAlwaysHolds` proves it for any sequence of calls made after
start-up. The sequencer's ticks preserve it as well.

The code stops in DONE, which is absorbing (`MovementLogic.DoneIsAbsorbing`).

## Model

| member | source | states |
|---|---|---|
| Numbers.Trunc | interfaces/serialCommunicator.py:158 | `int()` of a float truncates toward zero: the result is the integer next to x on the side of 0 |
| Numbers.RoundTenthProperties | helpers/heightBuffer.py:18 | `round(x, 1)` has at most one decimal and is within 0.05 of x |
| Numbers.RoundTenthWithin | logic/heightSensor.py:16 | rounding to one decimal never leaves an interval whose ends have at most one decimal, so a rounded mean of values in [0, 100] stays in [0, 100] |
| Numbers.MeanBounds | logic/heightSensor.py:16 | `sum(b) / len(b)` of values that all lie in [lo, hi] lies in [lo, hi] |
| Numbers.SortDesc3 | interfaces/dbConnector.py:43 | `sorted([a, b, c], reverse=True)` has three elements, largest first |
| Numbers.SortAsc3 | WorkingDetection/logic/json_parser.py:8 | `sorted([a, b, c])` has three elements, smallest first |
| Numbers.SortPermutes | interfaces/dbConnector.py:43 | both sorts only reorder: the result holds a, b and c with their multiplicities |
| Numbers.SortDesc3Symmetric | interfaces/dbConnector.py:43 | the sorted list does not depend on the order the three values are given in |
| ArgMin.Winner | interfaces/dbConnector.py:84-93 | the scan with a best score starting at infinity and replaced only on a strictly smaller score ends on a scored candidate, or on none |
| ArgMin.WinnerIsEarliestMinimum | interfaces/dbConnector.py:84-93 | the scan finds a candidate iff some candidate has a score; the one found has the smallest score, and every earlier scored candidate has a strictly larger one (ties go to the earliest) |
| ArgMin.Consider | logic/db_connector.py:64-66 | one loop step (`if deviation < best_score`) turns the winner of the first e candidates into the winner of the first e + 1, and keeps the best score equal to the winner's score |
| ArgMin.Present | interfaces/dbConnector.py:79-81 | the list of potential matches holds only indices of scored candidates, in order |
| ArgMin.PickPresentIsWinner | interfaces/dbConnector.py:79-93 | collecting the potential matches first and scanning only them picks the same winner as one scan over all candidates |
| Catalog.WithinToleranceMeaning | interfaces/dbConnector.py:97-99 | `is_within_tolerance` is the relative-error bound \|m - r\| <= r * tol for a non-negative reference; for a negative reference and a positive tolerance it never holds |
| Shapes.Value | helpers/shape.py:7-9 | each member's enum value maps back to that member |
| Shapes.FromValue | helpers/shape.py:7-9 | `Shape(v)` exists exactly for v in 0..2 (INVALID = 0, BOX = 1, CYLINDER = 2) |
| Shapes.ShapeToString | helpers/shape.py:11-20 | the catalog parse of `shapeToString(s)` gives back s for all three shapes |
| Shapes.ParseShape | interfaces/dbConnector.py:61-66 | the catalog's shape column reads as a real shape exactly for `box` and `cylinder`; anything else reads as INVALID |
| Shapes.ShapeToStringInjective | helpers/shape.py:15-20 | distinct shapes have distinct strings |
| Text.Strip | interfaces/serialCommunicator.py:69 | `str.strip()` leaves no white space at either end and returns an already stripped string unchanged |
| Text.StripEmptyIffAllSpace | interfaces/serialCommunicator.py:69-70 | a stripped line is empty (the `if line:` test fails) exactly when the raw line is all white space |
| Text.WordsOfJoin | logic/communicator.py:125 | splitting a command built from words joined by single spaces gives those words back |
| Text.ParseInt | interfaces/serialCommunicator.py:96 | `int(text)` succeeds only on text that holds a decimal digit; anything else is the ValueError |
| Text.ParseIntOfString | interfaces/serialCommunicator.py:96 | `int(str(n)) == n` for every integer n |
| HeightLine.StrippedKeepsPrefix | logic/height_sensor.py:3-4 | a line starting with `HEIGHT:` still starts with it after `strip()`, so `split(":")[1]` cannot raise IndexError |
| HeightLine.ParseHeightFromLine | logic/height_sensor.py:1-7 | a line that does not start with `HEIGHT:` gives None |
| HeightLine.ParsesLeadingField | logic/height_sensor.py:4 | `HEIGHT:<n>` gives n, and so does `HEIGHT:<n>:<anything>` |
| HeightLine.ExampleTwoColons | logic/height_sensor.py:4 | `HEIGHT:12:7` gives 12 |
| HeightLine.ParsePayload | logic/height_sensor.py:4-6 | `HEIGHT:<d>`, with no colon in d, gives exactly what `int(d)` gives, None for a ValueError |
| HeightLine.ExampleEmptyPayload | logic/height_sensor.py:5-6 | `HEIGHT:` gives None, with no exception |
| HeightLine.ExampleNotANumber | logic/height_sensor.py:5-6 | `HEIGHT:1.5` gives None, with no exception |
| HeightFilter.Admit | helpers/heightBuffer.py:12-15 | a calibrated value above max_valid is dropped; one in [0, max_valid] enters unchanged; a negative one enters as 0 under clamping and is dropped under rejection; whatever enters lies in [0, max_valid] |
| HeightFilter.Push | helpers/heightBuffer.py:15-17 | appending then evicting the oldest keeps at most max_size values, and they are the last ones of buffer + [v] |
| HeightFilter.Smoothed | helpers/heightBuffer.py:18 | there is an average exactly when the buffer is non-empty |
| HeightFilter.SmoothedRoundsMean | helpers/heightBuffer.py:18 | the average has one decimal and is within 0.05 of the buffer's mean |
| HeightFilter.StepRejecting | logic/heightSensor.py:12-15 | under rejection a sample enters the buffer iff its calibrated value lies in [0, max_valid]; otherwise the buffer is unchanged |
| HeightFilter.StepKeepsBuffered | logic/heightSensor.py:12-15 | every sample keeps the buffer at most max_size long with every value in [0, max_valid] |
| HeightFilter.SmoothedInRange | logic/heightSensor.py:12-16 | the average of such a buffer lies in [0, max_valid] when max_valid has one decimal (100 does) |
| HeightFilter.RunKeepsLastAdmitted | logic/heightSensor.py:12-16 | after any sequence of samples the buffer is exactly the last max_size admitted values, oldest first |
| HeightFilter.ExampleRaw120Dropped | logic/heightSensor.py:11-12 | raw 120 calibrates to 225.8 and is dropped |
| HeightBuffer.HeightBuffer.constructor | helpers/heightBuffer.py:2-8 | a new filter has an empty buffer and no average |
| HeightBuffer.HeightBuffer.Update | helpers/heightBuffer.py:10-19 | the buffer becomes the filter step (clamping) of the old one; the average stays the rounded mean of the buffer; a value above max_valid changes no average; the returned value is the average |
| HeightBuffer.HeightBuffer.Append | helpers/heightBuffer.py:15-18 | an admitted value is pushed with eviction and the average recomputed from the new buffer |
| HeightBuffer.HeightBuffer.GetLatest | helpers/heightBuffer.py:21-22 | `get_latest` returns the rounded mean of the buffer and changes nothing |
| HeightSensor.HeightBuffer.constructor | logic/heightSensor.py:2-8 | a new filter has an empty buffer and no average |
| HeightSensor.HeightBuffer.Update | logic/heightSensor.py:10-17 | the buffer becomes the filter step (rejecting) of the old one; a sample outside [0, max_valid] leaves buffer and average unchanged; the returned value is the average |
| HeightSensor.HeightBuffer.Append | logic/heightSensor.py:13-16 | an admitted value is pushed with eviction and the average recomputed from the new buffer |
| HeightSensor.HeightBuffer.GetLatest | logic/heightSensor.py:19-20 | `get_latest` returns the rounded mean of the buffer and changes nothing |
| NewHeightSensor.HeightGlobals.constructor | logic/newHeightSensor.py:1-2 | at import the average is None and the buffer empty |
| NewHeightSensor.HeightGlobals.GetLatestHeight | logic/newHeightSensor.py:10-11 | `get_latest_height` returns the rounded mean of the buffer and changes nothing |
| NewHeightSensor.HeightGlobals.UpdateHeight | logic/newHeightSensor.py:13-23 | a value is returned iff the calibrated sample lies in [0, 100], and it is the new average; a dropped sample returns None and changes neither global; the buffer stays at most ten values in [0, 100] |
| NewHeightSensor.HeightGlobals.Append | logic/newHeightSensor.py:17-22 | an admitted value is pushed with eviction beyond ten and the average recomputed |
| Telemetry.SwitchEvent | interfaces/serialCommunicator.py:74-91 | the eight beam and limit lines are the only switch events, and none of them is a height line |
| Telemetry.Decode | interfaces/serialCommunicator.py:69-101 | a stripped line is a switch event, a height line iff it starts with `HT `, and ignored otherwise |
| Telemetry.DecodeHeightLine | interfaces/serialCommunicator.py:94-96 | `HT <n>` is already stripped and decodes to the raw sample n |
| Gateway.ConveyorServo | interfaces/serialCommunicator.py:180-188 | only conveyors 1 and 2 have a servo |
| Gateway.RotatorServo | interfaces/serialCommunicator.py:109-117 | only rotators 1 and 2 have a servo |
| Gateway.PusherServo | interfaces/serialCommunicator.py:136-148 | only pushers 1 and 2 have a servo |
| Gateway.FlipperTarget | interfaces/serialCommunicator.py:203-227 | exactly the six (flipper, CLEAR/ENTER/EXIT) pairs are accepted, each with its own (servo, setpoint): flipper 1 CLEAR (3, 0), ENTER (3, 110), EXIT (3, 185); flipper 2 CLEAR (4, 200), ENTER (4, 10), EXIT (4, 100) |
| Gateway.ConveyorCommand | interfaces/serialCommunicator.py:180-194 | a conveyor call is accepted iff the conveyor is 1 or 2 and the direction FWD, REV or STOP, and then it is `SET <0\|5> <dir>` |
| Gateway.RotateCommand | interfaces/serialCommunicator.py:109-127 | a rotation is accepted iff the rotator is 1 or 2, the direction FWD or REV and 0 <= degrees <= 360, and then it is `ROTATE <1\|7> <degrees> <dir>` |
| Gateway.PusherCommand | interfaces/serialCommunicator.py:136-172 | pusher 2 is refused unless flipper 2 was last set to 200; otherwise a call is accepted iff it is FWD with a distance in [0, max] or it is REV or STOP; FWD carries the time `int(distance / speed * 1000)` and the others no time |
| Gateway.EstimateAfter | interfaces/serialCommunicator.py:160-169 | an accepted FWD adds its distance to the estimate, with None counting as 0; REV and STOP reset it to 0 |
| Gateway.InterlockAtEveryPosition | interfaces/serialCommunicator.py:150-152 | the interlock on a trace means that at each command to servo 6, the last `POS 4` setpoint before it is 200 |
| Gateway.AppendKeepsInterlock | interfaces/serialCommunicator.py:150-152 | one more command moves the last flipper-2 setpoint only if it is a `POS 4`, and keeps the interlock iff it is not a pusher-2 command sent while flipper 2 is not clear |
| Gateway.Send | interfaces/serialCommunicator.py:58-64 | `send_command` appends the command to the port and writes no field: the estimates and the cached flipper-2 setpoint stay as they were; the last `POS 4` setpoint on the port follows a `POS 4`; the interlock on the port is kept iff the command is not a pusher-2 command sent while flipper 2 is not clear |
| Gateway.ConveyorSpec | interfaces/serialCommunicator.py:177-196 | `moveConveyor` sends at most its one command, changes no estimate and keeps the interlock |
| Gateway.RotateSpec | interfaces/serialCommunicator.py:106-129 | `rotateRotator` sends at most its one command, changes no estimate and keeps the interlock |
| Gateway.FlipperSpec | interfaces/serialCommunicator.py:198-231 | `moveFlipper` sends nothing for an invalid pair; a valid pair sends exactly its `POS` command; only flipper 2 writes the cached setpoint, before sending: CLEAR makes it 200, ENTER 10 and EXIT 100; the interlock is kept |
| Gateway.PusherSpec | interfaces/serialCommunicator.py:131-175 | `movePusher` sends exactly its pusher command, if any; a refused call changes nothing; an accepted one sets its own pusher's estimate to `EstimateAfter` of the old one and changes no other; the interlock is kept |
| Gateway.InterlockAlwaysHolds | interfaces/serialCommunicator.py:150-152 | after any sequence of gateway calls from a safe state, including the start-up state, no command has reached pusher 2 except while flipper 2's last setpoint was 200 |
| Gateway.InitialIsSafe | interfaces/serialCommunicator.py:11-21 | the state after `__init__` satisfies the interlock |
| Gateway.ClearingFlipper2UnblocksPusher2 | interfaces/serialCommunicator.py:150-159 | after `moveFlipper(2, "CLEAR")` a 100 mm forward move of pusher 2 sends exactly `SET 6 FWD int(100 / speed2 * 1000)` |
| Gateway.DrainConcat | interfaces/serialCommunicator.py:68-69 | reading the waiting lines in two batches gives the same sensor fields as reading them in one |
| Gateway.BeamLineSetsOneField | interfaces/serialCommunicator.py:74-81 | each of b10, b11, b20 and b21 sets exactly its beam field to its listed value |
| Gateway.LimitLineSetsOneField | interfaces/serialCommunicator.py:84-91 | each of STOP2, GO2, STOP6 and GO6 sets exactly its limit field to its listed value |
| Gateway.SwitchLineApplies | interfaces/serialCommunicator.py:69-91 | a switch line survives `strip()` unchanged and applies its event |
| Gateway.OtherLineChangesNothing | interfaces/serialCommunicator.py:73-94 | a line that is neither a switch line nor an `HT ` line changes no field |
| Gateway.HeightLineFeedsFilter | interfaces/serialCommunicator.py:94-99 | `HT <n>` feeds n to the height filter and changes nothing else |
| Gateway.BadHeightLineChangesNothing | interfaces/serialCommunicator.py:95-101 | an `HT` line whose payload `int()` rejects changes no field |
| Gateway.SerialCommunicator.constructor | interfaces/serialCommunicator.py:11-21 | every sensor field and estimate is None, nothing has been sent, and the height filter has its defaults |
| Gateway.SerialCommunicator.SendCommand | interfaces/serialCommunicator.py:58-64 | one command is appended to the port |
| Gateway.SerialCommunicator.HandleEvent | interfaces/serialCommunicator.py:73-101 | one decoded line updates the sensor fields as `ApplyEvent` says, and sends nothing |
| Gateway.SerialCommunicator.FeedHeight | interfaces/serialCommunicator.py:96-99 | the filter takes one step and `height` stays equal to the filter's average, which a dropped sample leaves alone; nothing is sent |
| Gateway.SerialCommunicator.UpdateFromSerial | interfaces/serialCommunicator.py:66-104 | after reading the waiting lines the sensor fields are `Drain` of the old ones over those lines, and nothing is sent |
| Gateway.SerialCommunicator.RotateRotator | interfaces/serialCommunicator.py:106-129 | the actuation becomes `RotateSpec` of the old one, and the sensor fields are untouched |
| Gateway.SerialCommunicator.MovePusher | interfaces/serialCommunicator.py:131-175 | the actuation becomes `PusherSpec` of the old one, so the interlock and the estimates follow that function's guarantees |
| Gateway.SerialCommunicator.DrivePusher | interfaces/serialCommunicator.py:154-175 | once the pusher and the interlock are settled, the direction and distance checks and the send give `PusherSpec` |
| Gateway.SerialCommunicator.PusherCommandFor | interfaces/serialCommunicator.py:154-172 | the command built is the pusher command of the call: a timed SET for FWD within the travel limit, an untimed SET for REV and STOP, and none otherwise |
| Gateway.SerialCommunicator.MoveEstimate | interfaces/serialCommunicator.py:160-169 | only the moved pusher's estimate changes, by `EstimateAfter` |
| Gateway.SerialCommunicator.MoveConveyor | interfaces/serialCommunicator.py:177-196 | the actuation becomes `ConveyorSpec` of the old one |
| Gateway.SerialCommunicator.MoveFlipper | interfaces/serialCommunicator.py:198-231 | the actuation becomes `FlipperSpec` of the old one |
| Communicator.CachedPusher2 | logic/communicator.py:48-53 | the pusher-2 cache changes only for a command starting with `POS 4` that has a third word, and then to `int()` of that word |
| Communicator.CachesPrintedSetpoint | logic/communicator.py:48-55 | `POS <s> <n>` caches n whenever the servo word s starts with 4, so `POS 40 <n>` does too |
| Communicator.ExampleMissingSetpoint | logic/communicator.py:48-50 | `POS 4` alone raises IndexError, which no handler catches |
| Communicator.RotateLine | logic/communicator.py:104-125 | a rotation line exists iff the rotator is 1 or 2, the direction is `FW` or `REV` and 0 <= degrees <= 360 |
| Communicator.RotateLineFields | logic/communicator.py:125 | an accepted rotation line splits into `ROTATE`, the servo, the direction and the degrees, with servo and degrees reading back as sent; it is stripped and leaves the pusher-2 cache alone |
| Communicator.NotPos4 | logic/communicator.py:48 | a `ROTATE` line is never taken for a `POS 4` command |
| Communicator.Communicator.constructor | logic/communicator.py:10-18 | every cached field is None and nothing has been written; the height buffer is the shared global one |
| Communicator.Communicator.SendCommand | logic/communicator.py:46-59 | the pusher-2 cache becomes `CachedPusher2`; the stripped command is written unless the missing third word raised |
| Communicator.Communicator.HandleEvent | logic/communicator.py:68-96 | one decoded line updates the sensor fields as `ApplyEvent` says, with the filter of `logic/newHeightSensor.py`, and writes nothing |
| Communicator.Communicator.FeedHeight | logic/communicator.py:89-94 | the global filter takes one step; `height` takes the new average iff the sample is admitted |
| Communicator.Communicator.UpdateFromSerial | logic/communicator.py:61-102 | after reading the waiting lines the sensor fields are `Drain` of the old ones over those lines |
| Communicator.Communicator.RotateRotator | logic/communicator.py:104-127 | at most the one line `RotateLine` gives is written, and the pusher-2 cache is untouched |
| MovementLogic.Next | logic/movementLogic.py:16-68 | one tick moves the state at most one step forward along the chain; a tick that leaves the state where it is changes no timer either, and DONE changes nothing |
| MovementLogic.TickActuation | logic/movementLogic.py:16-68 | one tick sends at most one command, and only to conveyor 1, rotator 1 or pusher 1; WAIT_FOR_CLEARANCE, WAIT_FOR_ROTATION, WAIT_FOR_PUSHING3 and DONE send nothing; it keeps the interlock and never touches pusher 2 or flipper 2 |
| MovementLogic.GuardsOfNext | logic/movementLogic.py:19-66 | IDLE advances iff beam 2 reads broken, LOADING iff it reads clear; PUSHING1, ROTATING and PUSHING2 always advance; WAIT_FOR_PUSHING1 advances iff centerY > FRAME_HEIGHT / 2; the timed waits advance iff strictly more than the wait has passed; WAIT_FOR_ROTATION also needs limit 1 |
| MovementLogic.RunMovesForward | logic/movementLogic.py:16-68 | over any run the state never goes back and advances at most one step per tick |
| MovementLogic.DoneIsAbsorbing | logic/movementLogic.py:67-68 | once DONE, no run changes the state or a timer |
| MovementLogic.DoneNeedsTenTicks | logic/movementLogic.py:16-68 | reaching DONE from the initial state takes at least ten ticks |
| MovementLogic.IdleDrivesConveyor | logic/movementLogic.py:19-23 | every IDLE tick sends `SET 0 FWD`, whatever beam 2 reads |
| MovementLogic.LoadingStopsConveyor | logic/movementLogic.py:24-28 | LOADING sends `SET 0 STOP` once beam 2 reads clear, and nothing while it reads broken |
| MovementLogic.PushingDrivesPusher1 | logic/movementLogic.py:29-31 | PUSHING1 (and PUSHING2) sends `SET 2 FWD int(250 / speed1 * 1000)` and grows pusher 1's estimate by 250 mm when the travel limit allows 250 mm, and sends nothing otherwise |
| MovementLogic.WaitsRetractPusher1 | logic/movementLogic.py:32-39 | WAIT_FOR_PUSHING1 past the centre line (and WAIT_FOR_PUSHING2 once its wait has passed) sends `SET 2 REV` and resets pusher 1's estimate to 0; before that it sends nothing |
| MovementLogic.TimersOfNext | logic/movementLogic.py:32-63 | WAIT_FOR_PUSHING1 starts the clearance wait at now, ROTATING starts the rotation timer, PUSHING2 starts the 250 mm wait, WAIT_FOR_PUSHING2 restarts the timer with the same wait; a tick that keeps its state (WAIT_FOR_PUSHING1 before the centre line, WAIT_FOR_PUSHING2 before its wait has passed, and the others) changes no timer, and no other tick touches one |
| MovementLogic.RotatingSends | logic/movementLogic.py:43-47 | ROTATING sends nothing for angle 0, nothing for a negative angle, which the gateway rejects, and nothing for an angle above 360; a positive angle up to 360 sends `ROTATE 1 <angle> FWD` |
| MovementLogic.MovementLogic.constructor | logic/movementLogic.py:9-14 | the machine starts in IDLE with every timer 0 |
| MovementLogic.MovementLogic.HandleMovement | logic/movementLogic.py:16-68 | one call makes the machine's fields `Next` of the old ones and the gateway's actuation `TickActuation` of its old one; the sensor fields are only read |
| SortedMatcher.HIndex | interfaces/dbConnector.py:45 | `list.index` gives the first position holding the value |
| SortedMatcher.HeightSlot | interfaces/dbConnector.py:43-49 | the detected height's sorted position is always one of 0..2, so the `h_index == -1` branch cannot run |
| SortedMatcher.Deviation | interfaces/dbConnector.py:86-89 | the summed deviation is non-negative and is 0 exactly when the sorted dimensions agree |
| SortedMatcher.BestMatchIsEarliestBest | interfaces/dbConnector.py:37-95 | a row is found iff some row passes the gate and the shape test; the row found passes, has the smallest deviation of all passing rows, and every earlier passing row has a strictly larger one |
| SortedMatcher.SwapLengthWidth | interfaces/dbConnector.py:43 | swapping the detected length and width never changes the result |
| SortedMatcher.ExampleHeightNotGated | interfaces/dbConnector.py:73-78 | the height's position is not gated: 300 x 200 x 100 passes against a 300 x 200 x 5 catalog box |
| SortedMatcher.PassesGate | interfaces/dbConnector.py:73-78 | the inner loop accepts iff every position other than the height's is within tolerance |
| SortedMatcher.CollectPotential | interfaces/dbConnector.py:54-81 | the first loop collects exactly the passing rows, in order |
| SortedMatcher.PickBest | interfaces/dbConnector.py:84-93 | the second loop ends on the argmin winner over all rows |
| SortedMatcher.FindBestMatch | interfaces/dbConnector.py:37-95 | the row returned is `BestMatch`, and the flag is true iff a row was returned |
| PairingMatcher.PairingDeviation | logic/db_connector.py:63 | a pairing's deviation always includes the height's \|h - H\| |
| PairingMatcher.BestMatchIsEarliestBest | logic/db_connector.py:41-68 | a row is found iff some pairing of some row passes; the row found has a passing pairing whose deviation is the smallest over all passing pairings, and every passing pairing visited before it is strictly worse |
| PairingMatcher.SwapLengthBreadth | logic/db_connector.py:56 | swapping the detected length and breadth never changes the row found |
| PairingMatcher.ExampleStraight | logic/db_connector.py:56-66 | 595 x 405 x 205 against a 600 x 400 x 200 box at 10% passes straight with score 15, fails swapped, and is found |
| PairingMatcher.ExampleSwapped | logic/db_connector.py:56-66 | 400 x 600 x 205 fails straight and passes through the swapped pairing with score 5 |
| PairingMatcher.ExampleNoMatch | logic/db_connector.py:56-66 | 500 x 500 x 205 matches neither way |
| PairingMatcher.ExampleHeightNotGated | logic/db_connector.py:60-62 | a detected height far out of tolerance still passes |
| PairingMatcher.ScorePairing | logic/db_connector.py:57-63 | one pairing gets its deviation as score iff length, breadth and shape pass |
| PairingMatcher.VisitPairing | logic/db_connector.py:62-66 | one pairing turns the argmin over the pairings visited so far into the argmin including it |
| PairingMatcher.VisitRow | logic/db_connector.py:56-66 | the inner loop over both pairings of row i extends the argmin by both pairings |
| PairingMatcher.FindBestMatch | logic/db_connector.py:36-68 | the row returned is `BestMatch`, and the flag is true iff a row was returned |
| JsonMatcher.Dims | WorkingDetection/logic/json_parser.py:12-20 | an item has sorted dimensions, ascending, iff all three are present |
| JsonMatcher.FirstFromIsFirst | WorkingDetection/logic/json_parser.py:10-24 | the search from i finds an item iff one at or after i qualifies; the one found qualifies and none between i and it does |
| JsonMatcher.MatchIsFirstQualifying | WorkingDetection/logic/json_parser.py:7-28 | the result is (product id, True) for the first qualifying item iff some item qualifies, and (None, False) otherwise |
| JsonMatcher.MatchIgnoresOrder | WorkingDetection/logic/json_parser.py:8 | any permutation of length, width and height gives the same result |
| JsonMatcher.ZeroDimensionNeverMatches | WorkingDetection/logic/json_parser.py:22-26 | an item with a zero dimension never qualifies, because its division by zero is caught |
| JsonMatcher.SkippedItemIrrelevant | WorkingDetection/logic/json_parser.py:19-26 | removing a skipped item from the stack data never changes the result |
| JsonMatcher.NegativeReferencePasses | WorkingDetection/logic/json_parser.py:22-23 | an item with negative dimensions qualifies whatever was measured, since its relative differences are negative |
| JsonMatcher.ExampleFirstNotBest | WorkingDetection/logic/json_parser.py:10-24 | an item within 10% listed before an exact one is returned: the first match wins, not the best |
| JsonMatcher.ExampleZeroSkipped | WorkingDetection/logic/json_parser.py:22-26 | an item with a zero dimension ahead of a match is passed over |
| JsonMatcher.MatchDimensions | WorkingDetection/logic/json_parser.py:7-28 | the loop returns `Match`: the first qualifying item's product id with True, or (None, False) |

## Left out

- Serial I/O is not modelled: opening the port, `sys.exit` on failure, `time.sleep`, byte encoding and decoding, and the `SerialException` handlers. The port is the list of commands sent, and the inbound side is the list of waiting lines.
- Printed messages are not modelled.
- The MySQL connection, `get_unprocessed_boxes`, `get_unplaced_boxes`, `mark_as_processed`, `mark_as_placed` and `close` are not modelled. The unprocessed rows are the parameter `candidates`, with numeric dimensions.
- Getters and `dobotState` are not modelled. The getters read one field each, and `dobotState` is never written.
- The stack-data file that `json_parser.py` loads at import is the parameter `stackData`.
- Floating point is exact real arithmetic. IEEE rounding of `scale * raw + offset`, of the mean and of `round(x, 1)` on binary floats is not modelled.
- `sqrt` in WAIT_FOR_PUSHING1 is not computed. The caller supplies the half-diagonal, and a precondition ties it to the object's width and length.
- The clock is the tick's `now`. The source reads the clock twice in WAIT_FOR_PUSHING2, and the model uses one reading per tick.
- Configuration constants are parameters: the pusher speeds, the pusher travel limit, the match tolerance and the frame height. The configuration file does not define them.
- The dashboards, launchers and UI are not modelled. The dashboard revision's interlock setpoint is 210 instead of 200.
- The vision code, the camera interface and the rotation planner are not modelled. The rotation planner returns a constant.
- `logic/shapeDetector.py` unpacks five values from a matcher that returns two. That caller is not part of this model.
- Python's `isspace` and `int()` accept non-ASCII white space and digits, and `int()` also accepts underscores between digits. The model covers ASCII text only.
- JsonMatcher.Item: JSON values are modelled as present numbers or absent (None). A non-numeric value, a list or a nested object is not represented. `sorted` raising on a None dimension is modelled as skipping the item.
- SortedMatcher.CollectPotential: potential matches are stored as row indices rather than as `(sorted_db_dims, sorted_detected_dims, box)` tuples.
- SortedMatcher.HeightSlot: the `h_index == -1` branch is not modelled. It cannot run, and it would raise NameError on its own message if it did.
- Communicator.Communicator.RotateRotator: degrees are integers. The source compares any number.
- Communicator.Communicator.SendCommand: the class has no `log` method, so the source raises AttributeError at each `self.log` call. A `POS 4` command would therefore never be written, and every other command raises after being written. The model treats logging as doing nothing.
- Communicator.Communicator.UpdateFromSerial: for the same reason, in the source the first non-empty line raises AttributeError, and the outer handler ends the drain. The model treats logging as doing nothing and dispatches every line.
- HeightLine.ParseHeightFromLine: its own contract covers only lines without the prefix. The prefix case is stated by ParsesLeadingField and ParsePayload, for lines whose payload has no colon and no trailing white space, and by the examples.
- HeightBuffer.HeightBuffer.constructor: requires a buffer size of at least 1. With size 0 the source evicts the only value and divides by zero.
- HeightSensor.HeightBuffer.constructor: requires a buffer size of at least 1, for the same reason.
- Gateway.InterlockAlwaysHolds: covers the four actuator calls. A raw `send_command` of a `POS 4` line does not update `flipper2Pos` in the source, and it is not among those calls.
