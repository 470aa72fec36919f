/**
 * The gamepad-to-AIDriver controller: each update turns one gamepad
 * snapshot into exactly one driver call, by a fixed priority: START brakes,
 * then the D-pad (up, down, left, right), then the analog stick, and with no
 * input at all the robot brakes.
 *
 * The analog branch converts the stick angle to a vector with sine and
 * cosine; that floating-point step is not modelled. Its outcome arrives as a
 * `Stick`: which side of +-0.5 each component falls on, and the two wheel
 * magnitudes it computed.
 */
module GamepadDriverController {
  import opened AiDriver

  datatype Config = Config(maxSpeed: int, minSpeed: int, turnSpeed: int)

  const DefaultConfig := Config(255, 60, 180)

  /** Where a stick component lies: below -0.5, between -0.5 and 0.5, or above 0.5. */
  datatype Zone = Negative | Centre | Positive

  /** What the trigonometric step made of the stick angle: the forward (y) and
      sideways (x) zones and the absolute wheel speeds it scaled. */
  datatype Stick = Stick(y: Zone, x: Zone, rightMagnitude: nat, leftMagnitude: nat)

  /** One poll of the gamepad. `mode` is non-zero when the app sends analog data;
      `radius` is the stick magnitude 0..7. */
  datatype Pad = Pad(start: bool, up: bool, down: bool, left: bool, right: bool,
                     mode: int, radius: int, stick: Stick)

  /** The driver methods the controller calls, with their arguments. */
  datatype DriverCall =
    | Brake
    | DriveForward(rightSpeed: int, leftSpeed: int)
    | DriveBackward(rightSpeed: int, leftSpeed: int)
    | RotateLeft(turnSpeed: int)
    | RotateRight(turnSpeed: int)

  /** Python's int() of a quotient by 7: division truncating toward zero. */
  function TruncDiv7(a: int): (q: int)
    ensures a >= 0 ==> 0 <= a - 7 * q < 7
    ensures a < 0 ==> -7 < a - 7 * q <= 0
  {
    if a >= 0 then a / 7 else -((-a) / 7)
  }

  lemma MulMonotone(k: int, a: int, b: int)
    requires k >= 0 && a <= b
    ensures k * a <= k * b
  {
    assert k * b - k * a == k * (b - a);
  }

  /** For a radius in 1..7 the scaled numerator lies between 7·min_speed and 7·max_speed. */
  lemma ScaledBetween(cfg: Config, radius: int)
    ensures cfg.minSpeed <= cfg.maxSpeed && 1 <= radius <= 7 ==>
      7 * cfg.minSpeed <= 7 * cfg.minSpeed + (cfg.maxSpeed - cfg.minSpeed) * radius <= 7 * cfg.maxSpeed
  {
    if cfg.minSpeed <= cfg.maxSpeed && 1 <= radius <= 7 {
      MulMonotone(cfg.maxSpeed - cfg.minSpeed, 0, radius);
      MulMonotone(cfg.maxSpeed - cfg.minSpeed, radius, 7);
    }
  }

  /** Stick radius 0..7 scaled into min_speed..max_speed; radius 0 means no speed. */
  function AnalogToSpeed(cfg: Config, radius: int): (speed: int)
    ensures radius == 0 ==> speed == 0
    ensures radius == 7 ==> speed == cfg.maxSpeed
    ensures cfg.minSpeed <= cfg.maxSpeed && 1 <= radius <= 7 ==> cfg.minSpeed <= speed <= cfg.maxSpeed
  {
    ScaledBetween(cfg, radius);
    if radius == 0 then 0 else TruncDiv7(7 * cfg.minSpeed + (cfg.maxSpeed - cfg.minSpeed) * radius)
  }

  /** A larger stick radius never gives a smaller speed. */
  lemma {:induction false} AnalogToSpeedMonotone(cfg: Config, smaller: int, larger: int)
    requires cfg.minSpeed <= cfg.maxSpeed && 1 <= smaller <= larger
    ensures AnalogToSpeed(cfg, smaller) <= AnalogToSpeed(cfg, larger)
  {
    MulMonotone(cfg.maxSpeed - cfg.minSpeed, smaller, larger);
  }

  /** With the default configuration (255, 60, 180) the stick's slowest
      speed is 87, so an analog drive is never in the stopped band. */
  lemma DefaultAnalogSpeeds(radius: int)
    requires 1 <= radius <= 7
    ensures AnalogToSpeed(DefaultConfig, 1) == 87 && AnalogToSpeed(DefaultConfig, 7) == 255
    ensures 87 <= AnalogToSpeed(DefaultConfig, radius) <= 255
    ensures SpeedBand(AnalogToSpeed(DefaultConfig, radius)) != Stopped
  {
    AnalogToSpeedMonotone(DefaultConfig, 1, radius);
  }

  /** The sine and cosine of one angle are never both within +-0.5
      (sin² + cos² = 1), so a stick never lies in the centre of both zones. */
  predicate Realisable(stick: Stick)
  {
    !(stick.y == Centre && stick.x == Centre)
  }

  /** The tank-drive decision for a stick past the dead zone. */
  function AnalogCall(cfg: Config, stick: Stick): (call: DriverCall)
    ensures call == Brake <==> !Realisable(stick)
    ensures call.DriveForward? <==> stick.y == Positive
    ensures call.DriveBackward? <==> stick.y == Negative
    ensures call.RotateLeft? <==> stick.y == Centre && stick.x == Negative
    ensures call.RotateRight? <==> stick.y == Centre && stick.x == Positive
    ensures call.RotateLeft? || call.RotateRight? ==> call.turnSpeed == cfg.turnSpeed
    ensures call.DriveForward? || call.DriveBackward? ==>
      call.rightSpeed == stick.rightMagnitude && call.leftSpeed == stick.leftMagnitude
  {
    if stick.y == Negative then DriveBackward(stick.rightMagnitude, stick.leftMagnitude)
    else if stick.y == Positive then DriveForward(stick.rightMagnitude, stick.leftMagnitude)
    else if stick.x == Negative then RotateLeft(cfg.turnSpeed)
    else if stick.x == Positive then RotateRight(cfg.turnSpeed)
    else Brake
  }

  /** The one driver call an update makes for a gamepad snapshot. */
  function Decide(cfg: Config, pad: Pad): (call: DriverCall)
    ensures pad.start ==> call == Brake
    ensures call.RotateLeft? || call.RotateRight? ==> call.turnSpeed == cfg.turnSpeed
    ensures (call.DriveForward? || call.DriveBackward?) && DpadPressed(pad) ==>
      call.rightSpeed == cfg.maxSpeed && call.leftSpeed == cfg.maxSpeed
  {
    if pad.start then Brake
    else if pad.up then DriveForward(cfg.maxSpeed, cfg.maxSpeed)
    else if pad.down then DriveBackward(cfg.maxSpeed, cfg.maxSpeed)
    else if pad.left then RotateLeft(cfg.turnSpeed)
    else if pad.right then RotateRight(cfg.turnSpeed)
    else if pad.mode != 0 then
      if AnalogToSpeed(cfg, pad.radius) < cfg.minSpeed then Brake else AnalogCall(cfg, pad.stick)
    else Brake
  }

  predicate DpadPressed(pad: Pad)
  {
    pad.up || pad.down || pad.left || pad.right
  }

  /** START brakes, whatever else is pressed. */
  lemma StartOverrides(cfg: Config, pad: Pad)
    requires pad.start
    ensures Decide(cfg, pad) == Brake
  {
  }

  /** The D-pad goes by up, then down, then left, then right, each with its fixed manoeuvre:
      a pressed button decides alone, whatever the buttons after it and the stick say. */
  lemma DpadPriority(cfg: Config, pad: Pad, other: Pad)
    requires !pad.start && !other.start
    requires pad.up == other.up && (pad.up || pad.down == other.down)
    requires pad.up || pad.down || pad.left == other.left
    requires pad.up || pad.down || pad.left || pad.right == other.right
    requires DpadPressed(pad)
    ensures Decide(cfg, pad) == Decide(cfg, other)
    ensures pad.up ==> Decide(cfg, pad) == DriveForward(cfg.maxSpeed, cfg.maxSpeed)
    ensures !pad.up && pad.down ==> Decide(cfg, pad) == DriveBackward(cfg.maxSpeed, cfg.maxSpeed)
    ensures !pad.up && !pad.down && pad.left ==> Decide(cfg, pad) == RotateLeft(cfg.turnSpeed)
    ensures !pad.up && !pad.down && !pad.left ==> Decide(cfg, pad) == RotateRight(cfg.turnSpeed)
  {
  }

  /** With no button pressed and analog mode off, the robot brakes. */
  lemma NoInputBrakes(cfg: Config, pad: Pad)
    requires !pad.start && !DpadPressed(pad) && pad.mode == 0
    ensures Decide(cfg, pad) == Brake
  {
  }

  /** In analog mode (no button pressed) the robot brakes exactly when the
      stick is at rest (radius 0, below a positive min_speed) or when it points
      into neither the forward/backward nor the sideways zone. */
  lemma {:induction false} AnalogBrakes(cfg: Config, pad: Pad)
    requires !pad.start && !DpadPressed(pad) && pad.mode != 0
    requires cfg.minSpeed <= cfg.maxSpeed && 0 <= pad.radius <= 7
    ensures Decide(cfg, pad) == Brake <==>
      (pad.radius == 0 && cfg.minSpeed > 0) || (pad.stick.y == Centre && pad.stick.x == Centre)
  {
    if pad.radius == 0 {
      assert AnalogToSpeed(cfg, pad.radius) == 0;
    } else {
      assert cfg.minSpeed <= AnalogToSpeed(cfg, pad.radius);
    }
  }

  /** In analog mode with no button pressed, a stick pushed past radius 0
      always moves the robot: the final brake of the zone chain cannot be
      reached by a realisable stick. */
  lemma AnalogNeverBrakes(cfg: Config, pad: Pad)
    requires !pad.start && !DpadPressed(pad) && pad.mode != 0
    requires cfg.minSpeed <= cfg.maxSpeed && 1 <= pad.radius <= 7
    requires Realisable(pad.stick)
    ensures Decide(cfg, pad) != Brake
    ensures Decide(cfg, pad) == AnalogCall(cfg, pad.stick)
  {
    assert cfg.minSpeed <= AnalogToSpeed(cfg, pad.radius);
  }

  /** The sentence the driver logs for a call. */
  function CallMessage(call: DriverCall): string
  {
    match call
    case Brake => BrakeMessage
    case DriveForward(r, l) => DescribeDrive("Drive forward", r, l)
    case DriveBackward(r, l) => DescribeDrive("Drive backward", r, l)
    case RotateLeft(t) => DescribeRotation("left", t)
    case RotateRight(t) => DescribeRotation("right", t)
  }

  /** The motors are set as the call leaves them. */
  ghost predicate Shows(driver: Driver, call: DriverCall)
    reads driver, driver.right, driver.left
  {
    match call
    case Brake =>
      driver.right.direction == Direction.Stop && driver.left.direction == Direction.Stop
    case DriveForward(r, l) =>
      driver.right.pwm == PwmFor(r) && driver.left.pwm == PwmFor(l) &&
      driver.right.direction == Direction.Backward && driver.left.direction == Direction.Forward
    case DriveBackward(r, l) =>
      driver.right.pwm == PwmFor(r) && driver.left.pwm == PwmFor(l) &&
      driver.right.direction == Direction.Forward && driver.left.direction == Direction.Backward
    case RotateLeft(t) =>
      driver.right.pwm == PwmFor(t) && driver.left.pwm == PwmFor(t) &&
      driver.right.direction == Direction.Backward && driver.left.direction == Direction.Backward
    case RotateRight(t) =>
      driver.right.pwm == PwmFor(t) && driver.left.pwm == PwmFor(t) &&
      driver.right.direction == Direction.Forward && driver.left.direction == Direction.Forward
  }

  /** One update: exactly one driver call, the one Decide picks. */
  method Update(cfg: Config, pad: Pad, driver: Driver)
    requires driver.Valid()
    modifies driver`events, driver.right, driver.left
    ensures driver.Valid()
    ensures Shows(driver, Decide(cfg, pad))
    ensures Decide(cfg, pad) == Brake ==>
      driver.right.pwm == old(driver.right.pwm) && driver.left.pwm == old(driver.left.pwm)
    ensures driver.events == old(driver.events) + [CallMessage(Decide(cfg, pad))]
  {
    var call := Decide(cfg, pad);
    match call
    case Brake => driver.Brake();
    case DriveForward(r, l) => driver.DriveForward(r, l);
    case DriveBackward(r, l) => driver.DriveBackward(r, l);
    case RotateLeft(t) => driver.RotateLeft(t);
    case RotateRight(t) => driver.RotateRight(t);
  }
}
