/** Properties relating the adapter's operations to each other and to their reference
    definitions, plus worked examples. */
module RoboclawProperties {
  import opened Outcomes
  import opened Numeric
  import opened RoboclawConfig
  import opened Commands
  import opened SpeedPolicy
  import opened RoboclawMotor

  // ---------------------------------------------------------------- configuration

  /** 38400 baud is supported, 31250 (a common MIDI rate) is not. */
  lemma BaudRateExamples()
    ensures SupportedBaud(38400.0)
    ensures !SupportedBaud(31250.0)
  {
    assert 38400 in ValidBaudRates;
  }

  /** Address 0 stands for 128; 136 is refused. */
  lemma AddressExamples(path: string, baud: real)
    requires path != "" && SupportedBaud(baud)
    ensures New(Config(1.0, path, 0.0, 0.0, baud)) == Ok(Motor(path, 0.0, baud, 1.0, 128))
    ensures New(Config(1.0, path, 136.0, 0.0, baud)) == Err(AddressOutOfRange)
  {
  }

  /** A fractional channel passes validation, yet no operation ever drives the motor: every
      command is dispatched on `channel == 1` or `channel == 2` only. */
  lemma FractionalChannelIsSilent(power: real, rpm: real, revolutions: real, readings: seq<PwmReading>)
    ensures New(Config(1.5, "/dev/ttyACM0", 128.0, 0.0, 38400.0)).Ok?
    ensures var m := New(Config(1.5, "/dev/ttyACM0", 128.0, 0.0, 38400.0)).value;
      && SetPower(m, power) == []
      && SetRpm(m, rpm) == []
      && (GoFor(m, rpm, revolutions, readings).Ok? ==> NoMotorCommand(GoFor(m, rpm, revolutions, readings).value))
  {
    assert 38400 in ValidBaudRates;
  }

  // ---------------------------------------------------------------- speed policy

  /** Clamping twice is clamping once. */
  lemma ClampRpmIdempotent(rpm: real)
    ensures ClampRpm(ClampRpm(rpm)) == ClampRpm(rpm)
  {
  }

  /** A speed `check_speed` has nothing to say about is never changed by the clamp. */
  lemma UnwarnedSpeedIsNotClamped(rpm: real)
    requires CheckSpeed(rpm, MaxRpm) == NoWarning
    ensures ClampRpm(rpm) == rpm
  {
  }

  /** After the clamp, the estimated power fraction lies in [-1, 1]. */
  lemma ClampedMovePowerInRange(rpm: real, revolutions: real)
    requires rpm != 0.0
    ensures ClampRpm(rpm) != 0.0
    ensures -1.0 <= GoForMath(ClampRpm(rpm), revolutions).power <= 1.0
  {
    var capped := ClampRpm(rpm);
    assert Abs(GoForMath(capped, revolutions).power) == Abs(capped) / MaxRpm;
  }

  /** 100 rpm for 10 revolutions: 40% power for six seconds. */
  lemma GoForMathExample()
    ensures GoForMath(100.0, 10.0) == TimedMove(0.4, 6000.0)
  {
  }

  // ---------------------------------------------------------------- power

  /** Any power above 1 behaves as 1, any below -1 as -1. */
  lemma SetPowerSaturates(m: Motor, power: real)
    ensures 1.0 < power ==> SetPower(m, power) == SetPower(m, 1.0)
    ensures power < -1.0 ==> SetPower(m, power) == SetPower(m, -1.0)
  {
  }

  /** Full power is the full duty scale, in either direction. */
  lemma FullPowerIsFullScale(m: Motor)
    requires ChannelOf(m.channel).Some?
    ensures SetPower(m, 1.0) == [Duty(ChannelOf(m.channel).value, 32767)]
    ensures SetPower(m, -1.0) == [Duty(ChannelOf(m.channel).value, -32767)]
  {
  }

  /** Reading back what `set_power` commanded: `is_powered` reports the clamped power to within
      one duty step, and reports the motor powered exactly when the duty is nonzero. */
  lemma PowerReadBack(m: Motor, power: real, reading: PwmReading)
    requires ChannelOf(m.channel).Some?
    requires PwmOf(reading, ChannelOf(m.channel).value) == SetPower(m, power)[0].duty
    ensures Abs(IsPowered(m, reading).fraction - ClampPower(power)) < 1.0 / PwmScale
    ensures IsPowered(m, reading).powered <==> SetPower(m, power)[0].duty != 0
  {
    var d := SetPower(m, power)[0].duty;
    var q := ClampPower(power);
    assert DutyOf(d, q);
    var f := IsPowered(m, reading).fraction;
    assert f * PwmScale == d as real;
    assert Abs(f * PwmScale - q * PwmScale) < 1.0;
    assert f * PwmScale - q * PwmScale == (f - q) * PwmScale;
  }

  /** After `stop` the device reports the motor as not moving. */
  lemma StoppedMotorIsIdle(m: Motor, reading: PwmReading)
    requires ChannelOf(m.channel).Some?
    requires PwmOf(reading, ChannelOf(m.channel).value) == Stop(m)[0].duty
    ensures !IsMoving(m, reading)
  {
  }

  // ---------------------------------------------------------------- set_rpm

  /** Without an encoder, speeds past the ceiling are full power. */
  lemma SetRpmSaturates(m: Motor, rpm: real)
    requires !m.HasEncoder()
    ensures MaxRpm <= rpm ==> SetRpm(m, rpm) == SetPower(m, 1.0)
    ensures rpm <= -MaxRpm ==> SetRpm(m, rpm) == SetPower(m, -1.0)
  {
  }

  /** With an encoder the speed is not clamped: any speed past the ceiling is sent as a tick
      rate past the ceiling's. */
  lemma SetRpmEncoderUnclamped(m: Motor, rpm: real)
    requires m.ticksPerRotation > 0.0 && ChannelOf(m.channel).Some?
    requires MaxRpm < rpm
    ensures SetRpm(m, rpm)[0].speed > TicksPerSecond(MaxRpm, m.ticksPerRotation)
  {
  }

  /** With an encoder, the open-ended target lies in the direction the tick rate drives. */
  lemma SetRpmDirectionAgrees(m: Motor, rpm: real)
    requires m.ticksPerRotation > 0.0 && ChannelOf(m.channel).Some?
    ensures 0.0 <= SetRpm(m, rpm)[0].speed <==> SetRpm(m, rpm)[0].distance == PosInf
    ensures SetRpm(m, rpm)[0].speed < 0.0 <==> SetRpm(m, rpm)[0].distance == NegInf
  {
    var s := SetRpm(m, rpm)[0].speed;
    assert s == rpm * m.ticksPerRotation / 60.0;
    assert 0.0 <= rpm ==> 0.0 <= rpm * m.ticksPerRotation;
    assert rpm < 0.0 ==> rpm * m.ticksPerRotation < 0.0;
  }

  // ---------------------------------------------------------------- go_for

  /** Readings after the first idle one are never consumed. */
  lemma {:induction false} FirstIdleIgnoresLaterReadings(m: Motor, readings: seq<PwmReading>, later: seq<PwmReading>)
    requires FirstIdle(m, readings).Some?
    ensures FirstIdle(m, readings + later) == FirstIdle(m, readings)
    decreases |readings|
  {
    if IsMoving(m, readings[0]) {
      assert (readings + later)[1..] == readings[1..] + later;
      FirstIdleIgnoresLaterReadings(m, readings[1..], later);
    }
  }

  /** The poll stops at exactly the first idle reading. */
  lemma {:induction false} FirstIdleIsFirst(m: Motor, readings: seq<PwmReading>, k: nat)
    requires k < |readings| && !IsMoving(m, readings[k])
    requires forall j :: 0 <= j < k ==> IsMoving(m, readings[j])
    ensures FirstIdle(m, readings) == Some(k)
    decreases k
  {
    if k > 0 {
      assert IsMoving(m, readings[0]);
      FirstIdleIsFirst(m, readings[1..], k - 1);
    }
  }

  /** The estimated power points the way the motor must turn: forward exactly when speed and
      distance have the same sign. */
  lemma TimedPowerDirection(rpm: real, revolutions: real)
    requires rpm != 0.0 && revolutions != 0.0
    ensures var p := GoForMath(ClampRpm(rpm), revolutions).power;
      && -1.0 <= p <= 1.0
      && (0.0 < p <==> 0.0 < rpm * revolutions)
      && (p < 0.0 <==> rpm * revolutions < 0.0)
  {
    var capped := ClampRpm(rpm);
    ClampedMovePowerInRange(rpm, revolutions);
    if 0.0 < rpm {
      assert 0.0 < capped;
    } else {
      assert capped < 0.0;
    }
    if 0.0 < revolutions {
      assert 0.0 < rpm ==> 0.0 < rpm * revolutions && 0.0 < capped * revolutions;
      assert rpm < 0.0 ==> rpm * revolutions < 0.0 && capped * revolutions < 0.0;
    } else {
      assert 0.0 < rpm ==> rpm * revolutions < 0.0 && capped * revolutions < 0.0;
      assert rpm < 0.0 ==> 0.0 < rpm * revolutions && 0.0 < capped * revolutions;
    }
    assert GoForMath(capped, revolutions).power != 0.0;
  }

  /** Without an encoder: the estimated power in the direction of travel, the estimated wait,
      then a stop. No reading of the device is needed. */
  lemma GoForTimedTrace(m: Motor, rpm: real, revolutions: real, readings: seq<PwmReading>)
    requires !m.HasEncoder() && ChannelOf(m.channel).Some?
    requires revolutions != 0.0 && rpm != 0.0
    ensures var r := GoFor(m, rpm, revolutions, readings);
      && r.Ok? && |r.value| == 3
      && r.value[0].Duty? && r.value[0].motor == ChannelOf(m.channel).value
      && DutyOf(r.value[0].duty, GoForMath(ClampRpm(rpm), revolutions).power)
      && (r.value[0].duty > 0 ==> rpm * revolutions > 0.0)
      && (r.value[0].duty < 0 ==> rpm * revolutions < 0.0)
      && r.value[1].Sleep?
      && r.value[1].ms == Abs(revolutions / ClampRpm(rpm)) * MinutesToMs
      && r.value[2] == Duty(ChannelOf(m.channel).value, 0)
  {
    var capped := ClampRpm(rpm);
    var move := GoForMath(capped, revolutions);
    TimedPowerDirection(rpm, revolutions);
    var cmd := SetPower(m, move.power)[0];
    assert GoFor(m, rpm, revolutions, readings) == Ok([cmd] + [Sleep(move.waitMs)] + Stop(m));
    DutySign(cmd.duty, move.power);
  }

  /** A duty has the sign of the power fraction it was converted from. */
  lemma DutySign(d: int, q: real)
    requires DutyOf(d, q)
    ensures 0 < d ==> 0.0 < q
    ensures d < 0 ==> q < 0.0
  {
    if q == 0.0 {
      assert Abs(d as real) <= 0.0;
    }
  }

  /** With an encoder: one bounded move, one poll per reading up to and including the first idle
      one, then a stop. */
  lemma GoForEncoderTrace(m: Motor, rpm: real, revolutions: real, readings: seq<PwmReading>, k: nat)
    requires m.HasEncoder() && ChannelOf(m.channel).Some?
    requires revolutions != 0.0
    requires k < |readings| && !IsMoving(m, readings[k])
    requires forall j :: 0 <= j < k ==> IsMoving(m, readings[j])
    ensures var c := ChannelOf(m.channel).value;
      GoFor(m, rpm, revolutions, readings)
      == Ok([SpeedDistance(c, Trunc(TicksPerSecond(rpm, m.ticksPerRotation)) as real,
                           Finite(Trunc(TicksFor(revolutions, m.ticksPerRotation))), 1)]
            + Polls(k + 1) + [Duty(c, 0)])
  {
    FirstIdleIsFirst(m, readings, k);
  }

  /** The worked example: 490 ticks per rotation, 100 rpm, 10 revolutions. The tick rate
      100 * 490 / 60 = 816.67 is truncated to 816; the distance is 4900 ticks. */
  lemma GoForEncoderExample()
    ensures var m := Motor("/dev/ttyACM0", 490.0, 38400.0, 1.0, 128);
      GoFor(m, 100.0, 10.0, [PwmReading(9000, 0), PwmReading(0, 0), PwmReading(5, 0)])
      == Ok([SpeedDistance(M1, 816.0, Finite(4900), 1), ReadPwms, ReadPwms, Duty(M1, 0)])
  {
    var m := Motor("/dev/ttyACM0", 490.0, 38400.0, 1.0, 128);
    var readings := [PwmReading(9000, 0), PwmReading(0, 0), PwmReading(5, 0)];
    assert Trunc(TicksPerSecond(100.0, 490.0)) == 816;
    assert Trunc(TicksFor(10.0, 490.0)) == 4900;
    GoForEncoderTrace(m, 100.0, 10.0, readings, 1);
    assert Polls(2) == [ReadPwms, ReadPwms];
    assert [SpeedDistance(M1, 816.0, Finite(4900), 1)] + Polls(2) + [Duty(M1, 0)]
        == [SpeedDistance(M1, 816.0, Finite(4900), 1), ReadPwms, ReadPwms, Duty(M1, 0)];
  }

  /** The worked example without an encoder: 40% power (duty 13106) for 6000 ms, then a stop. */
  lemma GoForTimedExample(readings: seq<PwmReading>)
    ensures GoFor(Motor("/dev/ttyACM0", 0.0, 38400.0, 1.0, 128), 100.0, 10.0, readings)
      == Ok([Duty(M1, 13106), Sleep(6000.0), Duty(M1, 0)])
  {
    var m := Motor("/dev/ttyACM0", 0.0, 38400.0, 1.0, 128);
    GoForMathExample();
    assert ClampRpm(100.0) == 100.0;
    assert Trunc(0.4 * PwmScale) == 13106;
    assert SetPower(m, 0.4) == [Duty(M1, 13106)];
    assert Stop(m) == [Duty(M1, 0)];
    assert GoFor(m, 100.0, 10.0, readings) == Ok(SetPower(m, 0.4) + [Sleep(6000.0)] + Stop(m));
    assert [Duty(M1, 13106)] + [Sleep(6000.0)] + [Duty(M1, 0)] == [Duty(M1, 13106), Sleep(6000.0), Duty(M1, 0)];
  }

  /** The near-zero speed warning is advisory: a move at 0.05 rpm still runs. Only exactly zero
      fails without an encoder, because the wait time divides by the speed. */
  lemma NearZeroSpeedStillMoves(m: Motor, revolutions: real, readings: seq<PwmReading>)
    requires !m.HasEncoder() && revolutions != 0.0
    ensures CheckSpeed(0.05, MaxRpm) == NearlyZero
    ensures GoFor(m, 0.05, revolutions, readings).Ok?
    ensures GoFor(m, 0.0, revolutions, readings) == Err(RpmDivisionByZero)
  {
  }

  // ---------------------------------------------------------------- position

  /** Reading back a tick count that is a whole number of `r` revolutions gives `r`. */
  lemma PositionRoundTrip(m: Motor, r: real, ticks: int)
    requires m.HasEncoder() && ChannelOf(m.channel).Some?
    requires ticks as real == TicksFor(r, m.ticksPerRotation)
    ensures GetPosition(m, ticks) == r
  {
  }

  /** After `reset_zero_position(offset)`, the position reads as `-offset` revolutions. */
  lemma ResetThenReadPosition(m: Motor, offset: real, ticks: int)
    requires m.HasEncoder() && ChannelOf(m.channel).Some?
    requires ticks as real == ResetZeroPosition(m, offset).value[0].value
    ensures GetPosition(m, ticks) == -offset
  {
  }

  /** Starting from an unset flag, position reporting is advertised exactly when the position
      operations (`go_to`, `reset_zero_position`) are supported. */
  lemma PositionReportingMatchesSupport(m: Motor, rpm: real, target: real, ticks: int, readings: seq<PwmReading>, offset: real)
    ensures GetProperties(m, false) <==> GoTo(m, rpm, target, ticks, readings) != Err(GoToNeedsEncoder)
    ensures GetProperties(m, false) <==> ResetZeroPosition(m, offset).Ok?
  {
  }

  /** `go_to` the position the motor is already at is a zero-revolution move, which is refused. */
  lemma GoToCurrentPositionFails(m: Motor, rpm: real, r: real, ticks: int, readings: seq<PwmReading>)
    requires m.HasEncoder() && ChannelOf(m.channel).Some?
    requires ticks as real == TicksFor(r, m.ticksPerRotation)
    ensures GoTo(m, rpm, r, ticks, readings) == Err(ZeroRevolutions)
  {
  }

  /** `go_to` as written never moves the motor, whereas the intended delegation does: from
      position 0 to 10 revolutions at -100 rpm it moves 4900 ticks forward at 816 ticks/s. */
  lemma GoToAsWrittenDiscrepancy()
    ensures var m := Motor("/dev/ttyACM0", 490.0, 38400.0, 1.0, 128);
      var readings := [PwmReading(0, 0)];
      && GoToAsWritten(m, -100.0, 10.0, 0, readings) == Err(GoForArgumentError)
      && GoTo(m, -100.0, 10.0, 0, readings)
         == Ok([SpeedDistance(M1, 816.0, Finite(4900), 1), ReadPwms, Duty(M1, 0)])
  {
    var m := Motor("/dev/ttyACM0", 490.0, 38400.0, 1.0, 128);
    var readings := [PwmReading(0, 0)];
    assert GetPosition(m, 0) == 0.0;
    assert Trunc(TicksPerSecond(100.0, 490.0)) == 816;
    assert Trunc(TicksFor(10.0, 490.0)) == 4900;
    GoForEncoderTrace(m, 100.0, 10.0, readings, 0);
    assert Polls(1) == [ReadPwms];
    assert [SpeedDistance(M1, 816.0, Finite(4900), 1)] + Polls(1) + [Duty(M1, 0)]
        == [SpeedDistance(M1, 816.0, Finite(4900), 1), ReadPwms, Duty(M1, 0)];
  }
}
