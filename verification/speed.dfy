/** The speed policy: `check_speed`, the RPM clamp used without an encoder, and `go_for_math`. */
module SpeedPolicy {
  import opened Numeric
  import opened RoboclawConfig

  /** The advisory `check_speed` returns; it is logged and never stops an operation. */
  datatype SpeedWarning = NoWarning | NearlyZero | NearlyMax

  /** `check_speed(rpm, max)`. The near-zero case returns a (message, error) pair in the source;
      here it is just the `NearlyZero` warning, since the pair is only logged. */
  function CheckSpeed(rpm: real, max: real): (w: SpeedWarning)
    ensures w == NearlyZero <==> Abs(rpm) < 0.1
    ensures w == NearlyMax <==> 0.1 <= Abs(rpm) && 0.0 < max && max - 0.1 < Abs(rpm)
    ensures w == NoWarning ==> 0.1 <= Abs(rpm) && (0.0 < max ==> Abs(rpm) <= max - 0.1)
  {
    var speed := Abs(rpm);
    if speed < 0.1 then NearlyZero
    else if max > 0.0 && speed > max - 0.1 then NearlyMax
    else NoWarning
  }

  /** The clamp `go_for` and `set_rpm` apply to the speed when no encoder is fitted. */
  function ClampRpm(rpm: real): (r: real)
    ensures -MaxRpm <= r <= MaxRpm
    ensures Abs(rpm) <= MaxRpm ==> r == rpm
    ensures MaxRpm < Abs(rpm) ==> Abs(r) == MaxRpm && (r < 0.0 <==> rpm < 0.0)
  {
    if Abs(rpm) > MaxRpm then
      var capped := if rpm < MaxRpm then rpm else MaxRpm;
      if capped < -MaxRpm then -MaxRpm else capped
    else rpm
  }

  /** A time-estimated move: the power fraction to apply and how long to apply it. */
  datatype TimedMove = TimedMove(power: real, waitMs: real)

  /** `go_for_math(rpm, revolutions)`: power proportional to speed, signed by the direction of
      travel, for the time the distance takes at that speed. Python divides by `rpm`, so a
      zero speed raises; callers must not pass one. */
  function GoForMath(rpm: real, revolutions: real): (mv: TimedMove)
    requires rpm != 0.0
    ensures mv.power < 0.0 <==> rpm * revolutions < 0.0
    ensures Abs(mv.power) == Abs(rpm) / MaxRpm
    ensures 0.0 <= mv.waitMs && mv.waitMs * Abs(rpm) == Abs(revolutions) * MinutesToMs
  {
    var dir := if rpm * revolutions < 0.0 then -1.0 else 1.0;
    var waitMs := Abs(revolutions / rpm) * MinutesToMs;
    AbsQuotient(revolutions, rpm);
    TimedMove(Abs(rpm) / MaxRpm * dir, waitMs)
  }
}
