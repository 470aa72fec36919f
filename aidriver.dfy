/**
 * The AIDriver robot: two L298N motor channels, the classroom speed bands
 * and event-log sentences, and the ultrasonic reading with its failure
 * counter.
 *
 * Pins, PWM duty cycles and the HC-SR04 sensor are hardware: a motor keeps
 * only the state the library tracks (duty value, moving flag, direction), a
 * sensor reading arrives as an `Echo` value, and the sentences the library
 * hands to the event logger are collected in `events`.
 */
module AiDriver {
  import opened Text

  // ---------------------------------------------------------------------
  // Classroom speed bands and event-log sentences
  // ---------------------------------------------------------------------

  datatype Band = Stopped | VerySlow | Slow | Normal | VeryFast

  /** The upper limits of the bands below "very fast", in increasing order. */
  const BandLimits: seq<int> := [80, 120, 180, 220]

  /** Arc messages need the two wheel speeds to differ by more than this. */
  const ArcThreshold := 20

  function Rank(b: Band): nat
  {
    match b
    case Stopped => 0
    case VerySlow => 1
    case Slow => 2
    case Normal => 3
    case VeryFast => 4
  }

  function BandLabel(b: Band): string
  {
    match b
    case Stopped => "stopped"
    case VerySlow => "very slow"
    case Slow => "slow"
    case Normal => "normal"
    case VeryFast => "very fast"
  }

  /** Each band has its own label, so a logged sentence names the band unambiguously. */
  lemma BandLabelsDistinct(a: Band, b: Band)
    requires a != b
    ensures BandLabel(a) != BandLabel(b)
  {
  }

  /** How many of the given limits the speed is above. */
  function LimitsExceeded(limits: seq<int>, speed: int): (n: nat)
    ensures n <= |limits|
  {
    if limits == [] then 0
    else (if speed > limits[0] then 1 else 0) + LimitsExceeded(limits[1..], speed)
  }

  lemma LimitsExceededBands(speed: int)
    ensures LimitsExceeded(BandLimits, speed)
      == (if speed > 80 then 1 else 0) + (if speed > 120 then 1 else 0)
       + (if speed > 180 then 1 else 0) + (if speed > 220 then 1 else 0)
  {
    var l1, l2, l3: seq<int> := [120, 180, 220], [180, 220], [220];
    assert BandLimits[1..] == l1 && l1[1..] == l2 && l2[1..] == l3 && l3[1..] == [];
    assert LimitsExceeded(l3, speed) == (if speed > 220 then 1 else 0);
    assert LimitsExceeded(l2, speed) == (if speed > 180 then 1 else 0) + LimitsExceeded(l3, speed);
    assert LimitsExceeded(l1, speed) == (if speed > 120 then 1 else 0) + LimitsExceeded(l2, speed);
  }

  /** The band of a speed is the number of band limits it exceeds. */
  function SpeedBand(speed: int): (b: Band)
    ensures Rank(b) == LimitsExceeded(BandLimits, speed)
  {
    LimitsExceededBands(speed);
    if speed <= 80 then Stopped
    else if speed <= 120 then VerySlow
    else if speed <= 180 then Slow
    else if speed <= 220 then Normal
    else VeryFast
  }

  /** A faster speed never falls in a lower band. */
  lemma SpeedBandMonotone(slower: int, faster: int)
    requires slower <= faster
    ensures Rank(SpeedBand(slower)) <= Rank(SpeedBand(faster))
  {
  }

  function Max(a: int, b: int): int
  {
    if a >= b then a else b
  }

  const EnDash := "\U{2013}"

  /** What follows the direction in a drive sentence. */
  function DriveTail(rightSpeed: int, leftSpeed: int): string
  {
    var top := Max(rightSpeed, leftSpeed);
    var r, l := IntToString(rightSpeed), IntToString(leftSpeed);
    if top <= 80 then
      " requested with R=" + r + ", L=" + l
      + " " + EnDash + " speeds are in the stopped range so the robot may not move"
    else
      var message := " at " + BandLabel(SpeedBand(top)) + " speed" + " (R=" + r + ", L=" + l + ")";
      var diff := rightSpeed - leftSpeed;
      if diff > ArcThreshold || diff < -ArcThreshold then
        message + "; expect an arc toward the " + (if diff > 0 then "right" else "left")
      else
        message
  }

  /** The sentence logged for a forward or backward drive command. */
  function DescribeDrive(direction: string, rightSpeed: int, leftSpeed: int): (s: string)
    ensures StartsWith(s, direction)
  {
    StartsWithAppend(direction, DriveTail(rightSpeed, leftSpeed));
    direction + DriveTail(rightSpeed, leftSpeed)
  }

  /** The four ways a drive sentence can end. */
  lemma DriveTailEnding(rightSpeed: int, leftSpeed: int)
    ensures var m := DriveTail(rightSpeed, leftSpeed);
      var top := Max(rightSpeed, leftSpeed);
      var diff := rightSpeed - leftSpeed;
      (top <= 80 ==> EndsWith(m, "may not move")) &&
      (top > 80 && diff > ArcThreshold ==> EndsWith(m, "toward the right")) &&
      (top > 80 && diff < -ArcThreshold ==> EndsWith(m, "toward the left")) &&
      (top > 80 && -ArcThreshold <= diff <= ArcThreshold ==> EndsWith(m, ")"))
  {
    var m := DriveTail(rightSpeed, leftSpeed);
    var top := Max(rightSpeed, leftSpeed);
    var diff := rightSpeed - leftSpeed;
    var r, l := IntToString(rightSpeed), IntToString(leftSpeed);
    if top <= 80 {
      var pre := " requested with R=" + r + ", L=" + l
        + " " + EnDash + " speeds are in the stopped range so the robot ";
      assert m == pre + "may not move";
      EndsWithAppend(pre, "may not move");
    } else {
      var message := " at " + BandLabel(SpeedBand(top)) + " speed" + " (R=" + r + ", L=" + l + ")";
      if diff > ArcThreshold {
        assert m == message + "; expect an arc " + "toward the right";
        EndsWithAppend(message + "; expect an arc ", "toward the right");
      } else if diff < -ArcThreshold {
        assert m == message + "; expect an arc " + "toward the left";
        EndsWithAppend(message + "; expect an arc ", "toward the left");
      } else {
        assert m == (" at " + BandLabel(SpeedBand(top)) + " speed" + " (R=" + r + ", L=" + l) + ")";
        EndsWithAppend(" at " + BandLabel(SpeedBand(top)) + " speed" + " (R=" + r + ", L=" + l, ")");
      }
    }
  }

  lemma DescribeDriveEnding(direction: string, rightSpeed: int, leftSpeed: int)
    ensures var m := DescribeDrive(direction, rightSpeed, leftSpeed);
      var top := Max(rightSpeed, leftSpeed);
      var diff := rightSpeed - leftSpeed;
      (top <= 80 ==> EndsWith(m, "may not move")) &&
      (top > 80 && diff > ArcThreshold ==> EndsWith(m, "toward the right")) &&
      (top > 80 && diff < -ArcThreshold ==> EndsWith(m, "toward the left")) &&
      (top > 80 && -ArcThreshold <= diff <= ArcThreshold ==> EndsWith(m, ")"))
  {
    var tail := DriveTail(rightSpeed, leftSpeed);
    DriveTailEnding(rightSpeed, leftSpeed);
    EndsWithPrepend(direction, tail, "may not move");
    EndsWithPrepend(direction, tail, "toward the right");
    EndsWithPrepend(direction, tail, "toward the left");
    EndsWithPrepend(direction, tail, ")");
  }

  /** No sentence ends in two of those ways. */
  lemma DriveEndingsExclusive(m: string)
    ensures !(EndsWith(m, "may not move") && EndsWith(m, "toward the right"))
    ensures !(EndsWith(m, "may not move") && EndsWith(m, "toward the left"))
    ensures !(EndsWith(m, "may not move") && EndsWith(m, ")"))
    ensures !(EndsWith(m, "toward the right") && EndsWith(m, "toward the left"))
    ensures !(EndsWith(m, "toward the right") && EndsWith(m, ")"))
    ensures !(EndsWith(m, "toward the left") && EndsWith(m, ")"))
  {
    if EndsWith(m, "may not move") {
      EndsWithAt(m, "may not move", 1);
    }
    if EndsWith(m, "toward the right") {
      EndsWithAt(m, "toward the right", 1);
      EndsWithAt(m, "toward the right", 4);
    }
    if EndsWith(m, "toward the left") {
      EndsWithAt(m, "toward the left", 1);
      EndsWithAt(m, "toward the left", 4);
    }
    if EndsWith(m, ")") {
      EndsWithAt(m, ")", 1);
    }
  }

  /** Which sentence DescribeDrive picks: the "may not move" warning exactly
      when the faster wheel is in the stopped band; otherwise an arc toward
      the faster side exactly when the wheels differ by more than the arc
      threshold, and a plain sentence, closed by the speeds, when they do not. */
  lemma DescribeDriveShape(direction: string, rightSpeed: int, leftSpeed: int)
    ensures var m := DescribeDrive(direction, rightSpeed, leftSpeed);
      var top := Max(rightSpeed, leftSpeed);
      (EndsWith(m, "may not move") <==> top <= 80) &&
      (EndsWith(m, "toward the right") <==> top > 80 && rightSpeed - leftSpeed > ArcThreshold) &&
      (EndsWith(m, "toward the left") <==> top > 80 && leftSpeed - rightSpeed > ArcThreshold) &&
      (EndsWith(m, ")") <==> top > 80 && -ArcThreshold <= rightSpeed - leftSpeed <= ArcThreshold)
  {
    DescribeDriveEnding(direction, rightSpeed, leftSpeed);
    DriveEndingsExclusive(DescribeDrive(direction, rightSpeed, leftSpeed));
  }

  /** Once the robot can move, the sentence names the band of the faster wheel. */
  lemma DescribeDriveNamesBand(direction: string, rightSpeed: int, leftSpeed: int)
    requires Max(rightSpeed, leftSpeed) > 80
    ensures StartsWith(DescribeDrive(direction, rightSpeed, leftSpeed),
                       direction + (" at " + BandLabel(SpeedBand(Max(rightSpeed, leftSpeed))) + " speed"))
  {
    var m := DriveTail(rightSpeed, leftSpeed);
    var head := " at " + BandLabel(SpeedBand(Max(rightSpeed, leftSpeed))) + " speed";
    var r, l := IntToString(rightSpeed), IntToString(leftSpeed);
    var tail := " (R=" + r + ", L=" + l + ")";
    var arc := m[|head + tail|..];
    assert m == head + tail + arc;
    assert m == head + (tail + arc);
    StartsWithAppend(head, tail + arc);
    StartsWithPrepend(direction, m, head);
  }

  /** The sentence logged for a rotate-on-the-spot command. */
  function DescribeRotation(direction: string, turnSpeed: int): (s: string)
    ensures StartsWith(s, "Rotate " + direction)
  {
    if turnSpeed <= 80 then
      "Rotate " + direction + " requested with speed " + IntToString(turnSpeed) + " " + EnDash
      + " speed is in the stopped range so the robot may not turn"
    else
      "Rotate " + direction + " on the spot at " + BandLabel(SpeedBand(turnSpeed)) + " speed ("
      + IntToString(turnSpeed) + ")"
  }

  /** The "may not turn" warning exactly in the stopped band, otherwise the band is named. */
  lemma DescribeRotationShape(direction: string, turnSpeed: int)
    ensures var m := DescribeRotation(direction, turnSpeed);
      (EndsWith(m, "may not turn") <==> turnSpeed <= 80) &&
      (turnSpeed > 80 ==> StartsWith(m, "Rotate " + direction + " on the spot at " + BandLabel(SpeedBand(turnSpeed))))
  {
    var m := DescribeRotation(direction, turnSpeed);
    if turnSpeed <= 80 {
      var pre := "Rotate " + direction + " requested with speed " + IntToString(turnSpeed) + " " + EnDash
        + " speed is in the stopped range so the robot ";
      assert m == pre + "may not turn";
      EndsWithAppend(pre, "may not turn");
    } else {
      var head := "Rotate " + direction + " on the spot at " + BandLabel(SpeedBand(turnSpeed));
      assert m == head + " speed (" + IntToString(turnSpeed) + ")";
      StartsWithAppend(head, m[|head|..]);
      assert m == head + m[|head|..];
      assert m[|m| - 1] == ')';
    }
  }

  // ---------------------------------------------------------------------
  // One L298N motor channel
  // ---------------------------------------------------------------------

  /** FORWARD = 0, BACKWARD = 1, STOP = -1 in the library. */
  datatype Direction = Forward | Backward | Stop

  const FullDuty := 65535

  /** The duty value for a requested speed: 0..255 is the Arduino range,
      scaled by 257 so that 255 is full duty; larger values are raw 16-bit
      duty values, capped at full duty. */
  function PwmFor(speed: int): (pwm: int)
    ensures pwm <= FullDuty
    ensures speed <= 255 ==> pwm % 257 == 0 && pwm / 257 == speed
    ensures 0 <= speed <= 255 ==> 0 <= pwm
    ensures speed > 255 ==> 255 < pwm <= speed && (pwm < speed ==> pwm == FullDuty)
  {
    if speed <= 255 then speed * 257
    else if speed < FullDuty then speed
    else FullDuty
  }

  /** Within the Arduino range a faster speed never gets a smaller duty value. */
  lemma {:induction false} PwmForMonotone(slower: int, faster: int)
    requires slower <= faster <= 255
    ensures PwmFor(slower) <= PwmFor(faster)
  {
    assert PwmFor(faster) - PwmFor(slower) == (faster - slower) * 257;
  }

  class Motor {
    var pwm: int
    var moving: bool
    var direction: Direction

    /** The motor is moving exactly when its direction is not STOP. */
    ghost predicate Valid()
      reads this
    {
      moving <==> direction != Direction.Stop
    }

    /** The speed the library reports: 0 when stopped, the duty value otherwise. */
    function Speed(): (speed: int)
      reads this
      ensures Valid() && direction == Direction.Stop ==> speed == 0
      ensures direction != Direction.Stop && Valid() ==> speed == pwm
    {
      if moving then pwm else 0
    }

    constructor ()
      ensures Valid()
      ensures pwm == FullDuty && direction == Direction.Stop && !moving && Speed() == 0
    {
      pwm := FullDuty;
      moving := false;
      direction := Direction.Stop;
    }

    method SetSpeed(speed: int)
      modifies this`pwm
      ensures pwm == PwmFor(speed)
    {
      if speed <= 255 {
        pwm := speed * 257;
      } else {
        pwm := if speed < FullDuty then speed else FullDuty;
      }
    }

    method Forward()
      modifies this`direction, this`moving
      ensures Valid()
      ensures direction == Direction.Forward && moving && Speed() == pwm
    {
      direction := Direction.Forward;
      moving := true;
    }

    method Backward()
      modifies this`direction, this`moving
      ensures Valid()
      ensures direction == Direction.Backward && moving && Speed() == pwm
    {
      direction := Direction.Backward;
      moving := true;
    }

    method Stop()
      modifies this`direction, this`moving
      ensures Valid()
      ensures direction == Direction.Stop && !moving && Speed() == 0
    {
      direction := Direction.Stop;
      moving := false;
    }
  }

  // ---------------------------------------------------------------------
  // The ultrasonic reading and its failure counter
  // ---------------------------------------------------------------------

  /** What the sensor gives: no sensor module, an out-of-range error, or a reading in mm. */
  datatype Echo = NoSensor | OutOfRange | Measured(mm: int)

  predicate Failed(e: Echo)
  {
    e.OutOfRange? || (e.Measured? && e.mm < 0)
  }

  /** Consecutive failed readings are counted; a good reading resets the count. */
  function NextFailCount(count: nat, e: Echo): nat
  {
    if e.NoSensor? then count else if Failed(e) then count + 1 else 0
  }

  /** A failed reading is logged only while the count is at most three. */
  predicate Warns(count: nat, e: Echo)
  {
    Failed(e) && count + 1 <= 3
  }

  /** The counter after a run of readings, oldest first. */
  function FailCountAfter(count: nat, echoes: seq<Echo>): nat
    decreases |echoes|
  {
    if echoes == [] then count else FailCountAfter(NextFailCount(count, echoes[0]), echoes[1..])
  }

  /** The failed readings since the last good one, read from the newest back;
      readings without a sensor neither count nor interrupt the run. */
  function TrailingFailures(echoes: seq<Echo>): nat
    decreases |echoes|
  {
    if echoes == [] then 0
    else
      var last := echoes[|echoes| - 1];
      if last.NoSensor? then TrailingFailures(echoes[..|echoes| - 1])
      else if Failed(last) then TrailingFailures(echoes[..|echoes| - 1]) + 1
      else 0
  }

  lemma {:induction false} FailCountAfterSnoc(count: nat, echoes: seq<Echo>, e: Echo)
    ensures FailCountAfter(count, echoes + [e]) == NextFailCount(FailCountAfter(count, echoes), e)
    decreases |echoes|
  {
    if echoes != [] {
      assert (echoes + [e])[1..] == echoes[1..] + [e];
      FailCountAfterSnoc(NextFailCount(count, echoes[0]), echoes[1..], e);
    }
  }

  /** Starting from zero, the counter is the number of failed readings since
      the last good reading. */
  lemma {:induction false} FailCountIsTrailingFailures(echoes: seq<Echo>)
    ensures FailCountAfter(0, echoes) == TrailingFailures(echoes)
    decreases |echoes|
  {
    if echoes != [] {
      var init := echoes[..|echoes| - 1];
      assert echoes == init + [echoes[|echoes| - 1]];
      FailCountAfterSnoc(0, init, echoes[|echoes| - 1]);
      FailCountIsTrailingFailures(init);
    }
  }

  /** The number of out-of-range warnings a run of readings logs. */
  function Warnings(count: nat, echoes: seq<Echo>): nat
    decreases |echoes|
  {
    if echoes == [] then 0
    else (if Warns(count, echoes[0]) then 1 else 0) + Warnings(NextFailCount(count, echoes[0]), echoes[1..])
  }

  /** Without a good reading in between, at most three warnings are logged in all. */
  lemma {:induction false} WarningsThrottled(count: nat, echoes: seq<Echo>)
    requires forall i :: 0 <= i < |echoes| ==> !(echoes[i].Measured? && echoes[i].mm >= 0)
    ensures Warnings(count, echoes) <= if count >= 3 then 0 else 3 - count
    decreases |echoes|
  {
    if echoes != [] {
      WarningsThrottled(NextFailCount(count, echoes[0]), echoes[1..]);
    }
  }

  // ---------------------------------------------------------------------
  // The robot: two motors driven together
  // ---------------------------------------------------------------------

  const BrakeMessage := "Brake applied; motors stopping"
  const OutOfRangeMessage := "ultrasonic: out of range"

  function DistanceMessage(mm: int): string
  {
    "distance reading: " + IntToString(mm) + " mm"
  }

  class Driver {
    const right: Motor
    const left: Motor
    /** Consecutive failed ultrasonic readings (a module global in the library). */
    var failCount: nat
    /** Every sentence handed to the event logger, oldest first. */
    var events: seq<string>

    ghost predicate Valid()
      reads this, right, left
    {
      right != left && right.Valid() && left.Valid()
    }

    /** True if either motor is moving. */
    function IsMoving(): (moving: bool)
      reads this, right, left
      ensures Valid() ==> (moving <==> right.direction != Direction.Stop || left.direction != Direction.Stop)
    {
      right.moving || left.moving
    }

    /** The reported (right, left) speeds. */
    function MotorSpeeds(): (speeds: (int, int))
      reads this, right, left
      ensures Valid() && !IsMoving() ==> speeds == (0, 0)
      ensures Valid() && right.direction != Direction.Stop ==> speeds.0 == right.pwm
      ensures Valid() && left.direction != Direction.Stop ==> speeds.1 == left.pwm
      ensures Valid() && right.direction == Direction.Stop ==> speeds.0 == 0
      ensures Valid() && left.direction == Direction.Stop ==> speeds.1 == 0
    {
      (right.Speed(), left.Speed())
    }

    constructor ()
      ensures Valid() && fresh(right) && fresh(left)
      ensures right.direction == Direction.Stop && left.direction == Direction.Stop
      ensures right.pwm == FullDuty && left.pwm == FullDuty
      ensures !IsMoving() && failCount == 0 && events == []
    {
      right := new Motor();
      left := new Motor();
      failCount := 0;
      events := [];
    }

    /** Reads the sensor, counting consecutive failures and logging as the library does. */
    method ReadDistance(echo: Echo) returns (distance: int)
      modifies this`failCount, this`events
      ensures failCount == NextFailCount(old(failCount), echo)
      ensures echo.NoSensor? ==> distance == -1 && events == old(events)
      ensures Failed(echo) ==>
        distance == -1 && events == old(events) + (if Warns(old(failCount), echo) then [OutOfRangeMessage] else [])
      ensures echo.Measured? && echo.mm >= 0 ==>
        distance == echo.mm && events == old(events) + [DistanceMessage(echo.mm)]
    {
      if echo.NoSensor? {
        return -1;
      }
      var mm := if echo.OutOfRange? then -1 else echo.mm;
      if mm < 0 {
        failCount := failCount + 1;
        if failCount <= 3 {
          events := events + [OutOfRangeMessage];
        }
        return -1;
      }
      failCount := 0;
      events := events + [DistanceMessage(mm)];
      distance := mm;
    }

    /** Stops both motors; their duty values are kept. */
    method Brake()
      requires Valid()
      modifies this`events, right, left
      ensures Valid()
      ensures right.direction == Direction.Stop && left.direction == Direction.Stop
      ensures right.pwm == old(right.pwm) && left.pwm == old(left.pwm)
      ensures !IsMoving() && MotorSpeeds() == (0, 0)
      ensures events == old(events) + [BrakeMessage]
      ensures failCount == old(failCount)
    {
      events := events + [BrakeMessage];
      right.Stop();
      left.Stop();
    }

    /** Straight ahead: the right motor is wired the other way round, so it runs BACKWARD. */
    method DriveForward(rightSpeed: int, leftSpeed: int)
      requires Valid()
      modifies this`events, right, left
      ensures Valid()
      ensures right.pwm == PwmFor(rightSpeed) && left.pwm == PwmFor(leftSpeed)
      ensures right.direction == Direction.Backward && left.direction == Direction.Forward
      ensures IsMoving() && MotorSpeeds() == (PwmFor(rightSpeed), PwmFor(leftSpeed))
      ensures events == old(events) + [DescribeDrive("Drive forward", rightSpeed, leftSpeed)]
      ensures failCount == old(failCount)
    {
      events := events + [DescribeDrive("Drive forward", rightSpeed, leftSpeed)];
      right.SetSpeed(rightSpeed);
      left.SetSpeed(leftSpeed);
      right.Backward();
      left.Forward();
    }

    /** Straight back: the mirror of DriveForward. */
    method DriveBackward(rightSpeed: int, leftSpeed: int)
      requires Valid()
      modifies this`events, right, left
      ensures Valid()
      ensures right.pwm == PwmFor(rightSpeed) && left.pwm == PwmFor(leftSpeed)
      ensures right.direction == Direction.Forward && left.direction == Direction.Backward
      ensures IsMoving() && MotorSpeeds() == (PwmFor(rightSpeed), PwmFor(leftSpeed))
      ensures events == old(events) + [DescribeDrive("Drive backward", rightSpeed, leftSpeed)]
      ensures failCount == old(failCount)
    {
      events := events + [DescribeDrive("Drive backward", rightSpeed, leftSpeed)];
      right.SetSpeed(rightSpeed);
      left.SetSpeed(leftSpeed);
      right.Forward();
      left.Backward();
    }

    /** Clockwise on the spot: both motors FORWARD at the turn speed. */
    method RotateRight(turnSpeed: int)
      requires Valid()
      modifies this`events, right, left
      ensures Valid()
      ensures right.pwm == PwmFor(turnSpeed) && left.pwm == PwmFor(turnSpeed)
      ensures right.direction == Direction.Forward && left.direction == Direction.Forward
      ensures IsMoving()
      ensures events == old(events) + [DescribeRotation("right", turnSpeed)]
      ensures failCount == old(failCount)
    {
      events := events + [DescribeRotation("right", turnSpeed)];
      right.SetSpeed(turnSpeed);
      left.SetSpeed(turnSpeed);
      right.Forward();
      left.Forward();
    }

    /** Anticlockwise on the spot: both motors BACKWARD at the turn speed. */
    method RotateLeft(turnSpeed: int)
      requires Valid()
      modifies this`events, right, left
      ensures Valid()
      ensures right.pwm == PwmFor(turnSpeed) && left.pwm == PwmFor(turnSpeed)
      ensures right.direction == Direction.Backward && left.direction == Direction.Backward
      ensures IsMoving()
      ensures events == old(events) + [DescribeRotation("left", turnSpeed)]
      ensures failCount == old(failCount)
    {
      events := events + [DescribeRotation("left", turnSpeed)];
      right.SetSpeed(turnSpeed);
      left.SetSpeed(turnSpeed);
      right.Backward();
      left.Backward();
    }

    /** Changes both duty values and nothing else: directions and moving flags stay. */
    method SetMotorSpeeds(rightSpeed: int, leftSpeed: int)
      requires Valid()
      modifies right`pwm, left`pwm
      ensures Valid()
      ensures right.pwm == PwmFor(rightSpeed) && left.pwm == PwmFor(leftSpeed)
    {
      right.SetSpeed(rightSpeed);
      left.SetSpeed(leftSpeed);
    }
  }
}
