/** The motor operations of the adapter. Each is a pure function of the adapter's state, its
    arguments and whatever the device reports, returning the trace of commands it sends. */
module RoboclawMotor {
  import opened Outcomes
  import opened Numeric
  import opened RoboclawConfig
  import opened Commands
  import opened SpeedPolicy

  /** Encoder ticks covered by a number of revolutions. */
  function TicksFor(revolutions: real, tpr: real): real {
    revolutions * tpr
  }

  /** Encoder ticks per second at a speed in revolutions per minute. */
  function TicksPerSecond(rpm: real, tpr: real): real {
    rpm * tpr / 60.0
  }

  /** The power fraction `set_power` actually applies. */
  function ClampPower(power: real): (q: real)
    ensures -1.0 <= q <= 1.0
    ensures -1.0 <= power <= 1.0 ==> q == power
    ensures 1.0 < power ==> q == 1.0
    ensures power < -1.0 ==> q == -1.0
  {
    if power > 1.0 then 1.0
    else if power < -1.0 then -1.0
    else power
  }

  /** `d` is the duty `int(q * 32767)` that a power fraction `q` in [-1, 1] converts to:
      in range, of the same sign as `q`, and `q * 32767` truncated toward zero. */
  predicate DutyOf(d: int, q: real) {
    && -32767 <= d <= 32767
    && (d as real) * q >= 0.0
    && Abs(d as real) <= Abs(q * PwmScale) < Abs(d as real) + 1.0
  }

  /** `set_power`: clamp to [-1, 1], scale to duty units, and send one duty command. */
  function SetPower(m: Motor, power: real): (t: Trace)
    ensures ChannelOf(m.channel).None? ==> t == []
    ensures ChannelOf(m.channel).Some? ==>
      |t| == 1 && t[0].Duty? && t[0].motor == ChannelOf(m.channel).value
      && DutyOf(t[0].duty, ClampPower(power))
  {
    var duty := Trunc(ClampPower(power) * PwmScale);
    Dispatch(m.channel, c => Duty(c, duty))
  }

  /** `stop`: `set_power(0)`. */
  function Stop(m: Motor): (t: Trace)
    ensures ChannelOf(m.channel).None? ==> t == []
    ensures ChannelOf(m.channel).Some? ==> t == [Duty(ChannelOf(m.channel).value, 0)]
  {
    SetPower(m, 0.0)
  }

  /** The open-ended distance `set_rpm` sends with an encoder: forward unless the speed is negative. */
  function EndlessIn(rpm: real): (d: Distance)
    ensures d == PosInf <==> 0.0 <= rpm
    ensures d == NegInf <==> rpm < 0.0
  {
    if rpm < 0.0 then NegInf else PosInf
  }

  /** `set_rpm`. Without an encoder, the clamped speed becomes a power fraction; with one, the
      speed goes to the controller in ticks per second, unclamped and not truncated. */
  function SetRpm(m: Motor, rpm: real): (t: Trace)
    ensures ChannelOf(m.channel).None? ==> t == []
    ensures !m.HasEncoder() && ChannelOf(m.channel).Some? ==>
      |t| == 1 && t[0].Duty? && t[0].motor == ChannelOf(m.channel).value
      && DutyOf(t[0].duty, ClampRpm(rpm) / MaxRpm)
    ensures m.HasEncoder() && ChannelOf(m.channel).Some? ==>
      |t| == 1 && t[0].SpeedDistance? && t[0].motor == ChannelOf(m.channel).value
      && t[0].speed * 60.0 == rpm * m.ticksPerRotation
      && t[0].distance == EndlessIn(rpm) && t[0].buffer == 1
  {
    if !m.HasEncoder() then
      SetPower(m, ClampRpm(rpm) / MaxRpm)
    else
      var ticksPerSecond := TicksPerSecond(rpm, m.ticksPerRotation);
      Dispatch(m.channel, c => SpeedDistance(c, ticksPerSecond, EndlessIn(rpm), 1))
  }

  /** What `is_powered` returns: whether the channel has a nonzero duty, and that duty as a fraction. */
  datatype PowerState = PowerState(powered: bool, fraction: real)

  /** `is_powered`, given the controller's answer to `ReadPWMs`. */
  function IsPowered(m: Motor, reading: PwmReading): (s: PowerState)
    ensures s.powered <==> s.fraction != 0.0
    ensures ChannelOf(m.channel).None? ==> s == PowerState(false, 0.0)
    ensures ChannelOf(m.channel).Some? ==>
      s.fraction * PwmScale == PwmOf(reading, ChannelOf(m.channel).value) as real
  {
    match ChannelOf(m.channel)
    case None => PowerState(false, 0.0)
    case Some(c) =>
      var pwm := PwmOf(reading, c);
      PowerState(pwm != 0, pwm as real / PwmScale)
  }

  /** `is_moving`: the powered flag of `is_powered`. */
  function IsMoving(m: Motor, reading: PwmReading): (moving: bool)
    ensures moving <==> ChannelOf(m.channel).Some? && PwmOf(reading, ChannelOf(m.channel).value) != 0
  {
    IsPowered(m, reading).powered
  }

  /** The `while await self.is_moving()` loop of `go_for`: the index of the first reading at which
      the motor is no longer moving, or `None` when every reading shows it still moving. */
  function FirstIdle(m: Motor, readings: seq<PwmReading>): (k: Option<nat>)
    ensures k.Some? ==>
      k.value < |readings| && !IsMoving(m, readings[k.value])
      && forall j :: 0 <= j < k.value ==> IsMoving(m, readings[j])
    ensures k.None? ==> forall j :: 0 <= j < |readings| ==> IsMoving(m, readings[j])
    decreases |readings|
  {
    if |readings| == 0 then None
    else if !IsMoving(m, readings[0]) then Some(0)
    else
      match FirstIdle(m, readings[1..])
      case None => None
      case Some(i) => Some(i + 1)
  }

  /** No motor command at all: what a trace looks like when the channel does not dispatch. */
  predicate NoMotorCommand(t: Trace) {
    forall i :: 0 <= i < |t| ==> t[i].Sleep? || t[i].ReadPwms?
  }

  /** `go_for(rpm, revolutions)`. Zero revolutions is refused before any command. Without an
      encoder: clamp the speed, apply the estimated power, sleep the estimated time, stop. With
      one: a bounded speed-and-distance move, then poll until the duty returns to zero, then stop.
      A device that never reports idle would make the source spin forever; here the readings
      run out and `NeverIdle` is returned. */
  function GoFor(m: Motor, rpm: real, revolutions: real, readings: seq<PwmReading>): (r: Result<Trace, MotorError>)
    ensures revolutions == 0.0 ==> r == Err(ZeroRevolutions)
    ensures revolutions != 0.0 && !m.HasEncoder() ==> (r.Err? <==> rpm == 0.0)
    ensures r.Err? && revolutions != 0.0 && !m.HasEncoder() ==> r.error == RpmDivisionByZero
    ensures revolutions != 0.0 && m.HasEncoder() ==>
      (r.Ok? <==> exists i :: 0 <= i < |readings| && !IsMoving(m, readings[i]))
    ensures r.Err? && revolutions != 0.0 && m.HasEncoder() ==> r.error == NeverIdle
    ensures r.Ok? && ChannelOf(m.channel).Some? ==>
      |r.value| >= 2 && r.value[|r.value| - 1] == Duty(ChannelOf(m.channel).value, 0)
    ensures r.Ok? && ChannelOf(m.channel).None? ==> NoMotorCommand(r.value)
    ensures r.Ok? && m.HasEncoder() && ChannelOf(m.channel).Some? ==>
      r.value[0] == SpeedDistance(ChannelOf(m.channel).value,
                                  Trunc(TicksPerSecond(rpm, m.ticksPerRotation)) as real,
                                  Finite(Trunc(TicksFor(revolutions, m.ticksPerRotation))), 1)
  {
    if revolutions == 0.0 then Err(ZeroRevolutions)
    else if !m.HasEncoder() then
      var capped := ClampRpm(rpm);
      if capped == 0.0 then Err(RpmDivisionByZero)
      else
        var move := GoForMath(capped, revolutions);
        Ok(SetPower(m, move.power) + [Sleep(move.waitMs)] + Stop(m))
    else
      var ticks := TicksFor(revolutions, m.ticksPerRotation);
      var ticksPerSecond := TicksPerSecond(rpm, m.ticksPerRotation);
      match FirstIdle(m, readings)
      case None => Err(NeverIdle)
      case Some(k) =>
        Ok(Dispatch(m.channel, c => SpeedDistance(c, Trunc(ticksPerSecond) as real, Finite(Trunc(ticks)), 1))
           + Polls(k + 1) + Stop(m))
  }

  /** `get_position`, given the encoder count the controller reports: revolutions from the
      configured zero. Python divides by ticks-per-rotation unguarded, so it must be nonzero. */
  function GetPosition(m: Motor, encoderTicks: int): (position: real)
    requires m.HasEncoder()
    ensures ChannelOf(m.channel).Some? ==> position * m.ticksPerRotation == encoderTicks as real
    ensures ChannelOf(m.channel).None? ==> position == 0.0
  {
    var ticks := if ChannelOf(m.channel).Some? then encoderTicks else 0;
    ticks as real / m.ticksPerRotation
  }

  /** `go_to` as evidently intended: refuse without an encoder, otherwise move by the difference
      between the target and the current position at the absolute speed. */
  function GoTo(m: Motor, rpm: real, target: real, encoderTicks: int, readings: seq<PwmReading>)
    : (r: Result<Trace, MotorError>)
    ensures !m.HasEncoder() ==> r == Err(GoToNeedsEncoder)
    ensures m.HasEncoder() && ChannelOf(m.channel).Some? && TicksFor(target, m.ticksPerRotation) == encoderTicks as real
      ==> r == Err(ZeroRevolutions)
    ensures m.HasEncoder() && ChannelOf(m.channel).Some? && TicksFor(target, m.ticksPerRotation) != encoderTicks as real
      ==> (r.Ok? <==> exists i :: 0 <= i < |readings| && !IsMoving(m, readings[i]))
    ensures r.Ok? && ChannelOf(m.channel).Some? ==>
      |r.value| >= 2 && r.value[|r.value| - 1] == Duty(ChannelOf(m.channel).value, 0)
    ensures r.Ok? && ChannelOf(m.channel).Some? ==>
      |r.value| >= 2 &&
      r.value[0] == SpeedDistance(ChannelOf(m.channel).value,
                                  Trunc(TicksPerSecond(Abs(rpm), m.ticksPerRotation)) as real,
                                  Finite(Trunc(TicksFor(target, m.ticksPerRotation) - encoderTicks as real)), 1)
  {
    if !m.HasEncoder() then Err(GoToNeedsEncoder)
    else
      var position := GetPosition(m, encoderTicks);
      var remaining := target - position;
      RemainingTicks(target, position, m.ticksPerRotation);
      var r := GoFor(m, Abs(rpm), remaining, readings);
      assert ChannelOf(m.channel).Some? ==>
        TicksFor(remaining, m.ticksPerRotation) == TicksFor(target, m.ticksPerRotation) - encoderTicks as real;
      r
  }

  /** The distance left to a target, scaled to ticks, is the target in ticks minus the current count. */
  lemma RemainingTicks(target: real, position: real, tpr: real)
    ensures TicksFor(target - position, tpr) == TicksFor(target, tpr) - position * tpr
  {
  }

  /** `go_to` as written: after the encoder guard and the position read, it passes `extra` as a
      third positional argument to `go_for`, which accepts only two, so the call always raises. */
  function GoToAsWritten(m: Motor, rpm: real, target: real, encoderTicks: int, readings: seq<PwmReading>)
    : (r: Result<Trace, MotorError>)
    ensures !m.HasEncoder() ==> r == Err(GoToNeedsEncoder)
    ensures m.HasEncoder() ==> r == Err(GoForArgumentError)
  {
    if !m.HasEncoder() then Err(GoToNeedsEncoder)
    else
      var _ := GetPosition(m, encoderTicks);
      Err(GoForArgumentError)
  }

  /** `reset_zero_position(offset)`: without an encoder it is not supported; with one the encoder
      is set so that the current physical position reads as `-offset` revolutions. */
  function ResetZeroPosition(m: Motor, offset: real): (r: Result<Trace, MotorError>)
    ensures !m.HasEncoder() <==> r == Err(ResetNeedsEncoder)
    ensures m.HasEncoder() && ChannelOf(m.channel).None? ==> r == Ok([])
    ensures m.HasEncoder() && ChannelOf(m.channel).Some? ==>
      r.Ok? && |r.value| == 1 && r.value[0].SetEnc? && r.value[0].motor == ChannelOf(m.channel).value
      && r.value[0].value / m.ticksPerRotation == -offset
  {
    if !m.HasEncoder() then Err(ResetNeedsEncoder)
    else
      var newTicks := -1.0 * offset * m.ticksPerRotation;
      Ok(Dispatch(m.channel, c => SetEnc(c, newTicks)))
  }

  /** `get_properties`: sets the shared `position_reporting` flag when an encoder is fitted and
      otherwise leaves it as it was (`prior`), since the flag lives on a shared class. */
  function GetProperties(m: Motor, prior: bool): (positionReporting: bool)
    ensures m.HasEncoder() ==> positionReporting
    ensures !m.HasEncoder() ==> positionReporting == prior
  {
    if m.HasEncoder() then true else prior
  }
}
