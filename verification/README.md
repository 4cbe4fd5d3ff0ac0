# Roboclaw motor adapter — Dafny model

This project models the control core of a motor adapter for a Basicmicro Roboclaw
controller (`src/roboclaw.py`). The adapter turns generic motor requests into controller
commands. The requests are a power fraction, a speed in RPM, a number of revolutions and
a target position. The commands are duty values, speed-and-distance pairs in encoder
ticks, and encoder resets.

A `ticks_per_rotation` of 0 means that no encoder is fitted. The adapter then switches to
a time-estimated strategy. In that strategy the speed is clamped to ±250 rpm and power is
taken as proportional to speed.

Every operation is a pure function. It takes the adapter state (`RoboclawConfig.Motor`),
its arguments and whatever the controller reports. It returns the trace of commands it
sends (`Commands.Command`): `Duty`, `SpeedDistance`, `SetEnc`, `Sleep` and `ReadPwms`.
`ReadPwms` records one poll of the duty readings. Operations that can raise return
`Err(...)`. Every error the source raises (zero revolutions, zero speed without an encoder,
no encoder for `go_to` or `reset_zero_position`) is raised before any command is sent.
The one error the model adds, `NeverIdle`, stands for the source's endless poll. The encoder-mode
`go_for` wait loop consumes a finite sequence of PWM readings. It stops at the first
reading that shows zero duty on the configured channel, then stops the motor.

Modules:
- `Outcomes` (outcomes.dfy): `Option`, `Result`, `Outcome`.
- `Numeric` (numeric.dfy): `Abs` and `Trunc`. `Trunc` is Python's `int()` on a float, which truncates toward zero.
- `RoboclawConfig` (config.dfy): constants, configuration validation, address normalisation, adapter state.
- `Commands` (commands.dfy): channels, distances, commands, PWM readings, errors, channel dispatch.
- `SpeedPolicy` (speed.dfy): `check_speed`, the RPM clamp, `go_for_math`.
- `RoboclawMotor` (motor.dfy): the motor operations.
- `RoboclawProperties` (properties.dfy): lemmas relating the operations, and worked examples.

Behaviour of the code worth noting; the model follows the code:
- Duty conversion truncates toward zero (`int(power * 32767)`). It does not round.
- The mode test is `ticks_per_rotation == 0`. A negative value is refused at validation.
- Channel and address are compared as floats. A channel of 1.5 passes validation, but
  channel dispatch only fires on exactly 1 or 2, so no operation ever drives that motor
  (`FractionalChannelIsSilent`). An address such as 128.5 passes and is truncated to 128.
- `go_for` without an encoder at exactly 0 rpm divides by zero in `go_for_math`, which
  raises before any command. This is `Err(RpmDivisionByZero)`. A speed that is merely near
  zero only draws a warning.
- In the near-zero case `check_speed` returns a (message, error) pair rather than a
  string. The pair is only logged, so it is modelled as the `NearlyZero` warning.
- With an encoder, `set_rpm` sends the speed unclamped and not truncated. `go_for`
  truncates both the speed and the distance.

## Model

| member | source | states |
|---|---|---|
| Numeric.Trunc | src/roboclaw.py:170 | `int()` on a float: the result lies within 1 of the argument and does not move away from zero |
| RoboclawConfig.ValidateConfig | src/roboclaw.py:74-88 | accepted iff channel in [1,2], serial path non-empty, address 0 or in [128,135], ticks per rotation ≥ 0 and baud rate supported; otherwise the error of the first check that fails, in source order |
| RoboclawConfig.ValidateBaudRates | src/roboclaw.py:298-303 | the scan over the whole rate set returns true iff the rate equals one of the eight supported rates |
| RoboclawConfig.NormalizeAddress | src/roboclaw.py:106-108 | 0 becomes 128; an address in [128,135] is truncated; every accepted address ends in [128,135] |
| RoboclawConfig.Reconfigure | src/roboclaw.py:102-108 | attributes copied unchanged, address normalised; an acceptable configuration gives an address in [128,135] and ticks ≥ 0 |
| RoboclawConfig.New | src/roboclaw.py:56-61 | succeeds iff the configuration is acceptable, and then yields exactly the `reconfigure` state; a refusal carries the validation error; the state's address is in [128,135] |
| SpeedPolicy.CheckSpeed | src/roboclaw.py:305-312 | near-zero warning iff abs(rpm) < 0.1; near-max warning iff not near zero, max > 0 and abs(rpm) > max − 0.1; no warning keeps the speed within those bands |
| SpeedPolicy.ClampRpm | src/roboclaw.py:157-159 | result in [−250, 250]; unchanged when abs(rpm) ≤ 250; otherwise magnitude 250 with the sign of rpm |
| SpeedPolicy.GoForMath | src/roboclaw.py:314-321 | power negative iff rpm·rev < 0; abs(power) = abs(rpm)/250; wait ≥ 0 with wait·abs(rpm) = abs(rev)·60000 |
| RoboclawMotor.ClampPower | src/roboclaw.py:246-249 | the power applied lies in [−1, 1], equals the request inside that range and saturates outside it |
| RoboclawMotor.SetPower | src/roboclaw.py:246-254 | exactly one duty command on the configured channel (none on any other channel value); the duty lies in [−32767, 32767], has the sign of the clamped power, and is power·32767 truncated |
| RoboclawMotor.Stop | src/roboclaw.py:296 | exactly `Duty(channel, 0)` on a dispatching channel |
| RoboclawMotor.EndlessIn | src/roboclaw.py:280-282 | the open-ended target is +∞ iff rpm ≥ 0 and −∞ iff rpm < 0 |
| RoboclawMotor.SetRpm | src/roboclaw.py:264-287 | without an encoder, one duty on the configured channel for clamped rpm / 250; with one, one speed-distance command at rpm·tpr/60 ticks/s toward the infinity of the speed's sign, buffer flag 1 |
| RoboclawMotor.IsPowered | src/roboclaw.py:213-218 | powered iff the fraction is nonzero; the fraction times 32767 is the configured channel's duty; other channel values give (false, 0) |
| RoboclawMotor.IsMoving | src/roboclaw.py:203-204 | moving iff the channel dispatches and its duty reading is nonzero |
| RoboclawMotor.FirstIdle | src/roboclaw.py:175-176 | the poll stops at an idle reading before which every reading was moving; none is found only if every reading is moving |
| RoboclawMotor.GoFor | src/roboclaw.py:148-178 | zero revolutions fails in both modes; without an encoder it fails iff rpm = 0; with one it succeeds iff some reading is idle; a successful trace ends in a stop; with an encoder it starts with the truncated speed/distance command |
| RoboclawMotor.GetPosition | src/roboclaw.py:120-125 | position × ticks per rotation equals the encoder count; 0 on a non-dispatching channel |
| RoboclawMotor.GoTo | src/roboclaw.py:189-194 | fails without an encoder; a move to the current position fails as a zero move; otherwise succeeds iff some reading shows the motor idle, first commands abs(rpm) and the ticks remaining to the target (target·tpr − count, truncated), and ends in a stop |
| RoboclawMotor.GoToAsWritten | src/roboclaw.py:189-194 | as written: fails without an encoder, and otherwise always raises on the call to `go_for` |
| RoboclawMotor.ResetZeroPosition | src/roboclaw.py:229-236 | fails iff no encoder; otherwise one encoder write whose value divided by tpr is −offset |
| RoboclawMotor.GetProperties | src/roboclaw.py:134-137 | position reporting is set when an encoder is fitted, otherwise the shared flag keeps its prior value |
| RoboclawProperties.BaudRateExamples | src/roboclaw.py:26 | 38400 is supported and 31250 is not |
| RoboclawProperties.AddressExamples | src/roboclaw.py:80-82 | address 0 yields state address 128; 136 is refused with the address error |
| RoboclawProperties.FractionalChannelIsSilent | src/roboclaw.py:251-254 | channel 1.5 passes validation, yet `set_power` and `set_rpm` send nothing and `go_for` sends no motor command |
| RoboclawProperties.ClampRpmIdempotent | src/roboclaw.py:272-274 | clamping twice equals clamping once |
| RoboclawProperties.UnwarnedSpeedIsNotClamped | src/roboclaw.py:305-312 | a speed `check_speed` does not warn about is left unchanged by the clamp |
| RoboclawProperties.ClampedMovePowerInRange | src/roboclaw.py:157-160 | after the clamp the estimated power fraction lies in [−1, 1] |
| RoboclawProperties.GoForMathExample | src/roboclaw.py:314-321 | (100 rpm, 10 rev) gives power 0.4 and a 6000 ms wait |
| RoboclawProperties.SetPowerSaturates | src/roboclaw.py:246-249 | any power above 1 gives the same trace as 1, any below −1 the same as −1 |
| RoboclawProperties.FullPowerIsFullScale | src/roboclaw.py:251-254 | power ±1 sends duty ±32767 |
| RoboclawProperties.PowerReadBack | src/roboclaw.py:213-217 | reading back the commanded duty gives the clamped power to within 1/32767, powered iff the duty is nonzero |
| RoboclawProperties.StoppedMotorIsIdle | src/roboclaw.py:203-204 | once the stop's duty is read back, `is_moving` is false |
| RoboclawProperties.SetRpmSaturates | src/roboclaw.py:272-276 | without an encoder, rpm ≥ 250 is full forward power and rpm ≤ −250 full reverse |
| RoboclawProperties.SetRpmEncoderUnclamped | src/roboclaw.py:279-287 | with an encoder, a speed above 250 rpm is sent as a tick rate above 250 rpm's |
| RoboclawProperties.SetRpmDirectionAgrees | src/roboclaw.py:279-287 | with an encoder, the tick rate is ≥ 0 iff the target is +∞, and < 0 iff it is −∞ |
| RoboclawProperties.FirstIdleIsFirst | src/roboclaw.py:175-176 | the poll stops at exactly the first idle reading |
| RoboclawProperties.FirstIdleIgnoresLaterReadings | src/roboclaw.py:175-176 | readings after the first idle one are never consumed |
| RoboclawProperties.TimedPowerDirection | src/roboclaw.py:314-319 | after the clamp the power lies in [−1, 1]; it is positive iff rpm·rev > 0 and negative iff rpm·rev < 0 |
| RoboclawProperties.DutySign | src/roboclaw.py:252 | a nonzero duty has the sign of the power it was converted from |
| RoboclawProperties.GoForTimedTrace | src/roboclaw.py:156-164 | without an encoder the trace is exactly: the duty `int(power·32767)` for go_for_math's power at the clamped speed, which points in the direction of travel, a sleep of abs(rev / clamped rpm) minutes in ms, then a stop |
| RoboclawProperties.GoForEncoderTrace | src/roboclaw.py:166-178 | with an encoder the trace is exactly: the speed/distance command, one poll per reading up to the first idle one, then a stop |
| RoboclawProperties.GoForEncoderExample | src/roboclaw.py:167-172 | tpr 490, 100 rpm, 10 rev: speed 816 (816.67 truncated), distance 4900, two polls, then a stop |
| RoboclawProperties.GoForTimedExample | src/roboclaw.py:156-164 | no encoder, 100 rpm, 10 rev: duty 13106, sleep 6000 ms, then a stop |
| RoboclawProperties.NearZeroSpeedStillMoves | src/roboclaw.py:151-153 | the near-zero warning does not block a 0.05 rpm move; exactly 0 rpm without an encoder fails on the division |
| RoboclawProperties.PositionRoundTrip | src/roboclaw.py:120-125 | reading back the tick count of r revolutions gives r |
| RoboclawProperties.ResetThenReadPosition | src/roboclaw.py:232-236 | after `reset_zero_position(offset)` the position reads −offset |
| RoboclawProperties.PositionReportingMatchesSupport | src/roboclaw.py:134-137 | from an unset flag, position reporting is advertised iff `go_to` and `reset_zero_position` do not refuse for lack of an encoder |
| RoboclawProperties.GoToCurrentPositionFails | src/roboclaw.py:192-194 | a `go_to` to the current position is refused as a zero-revolution move |
| RoboclawProperties.GoToAsWrittenDiscrepancy | src/roboclaw.py:194 | on a concrete input the code as written raises, while the intended delegation moves 4900 ticks at 816 ticks/s |

## Left out

- Module registration and startup (`main` in `src/roboclaw.py` and all of `src/main.py`): host-runtime plumbing.
- `src/test.py`: a hardware smoke-test script with no logic.
- The serial transport `OfficialRoboclaw` and `Open()`: `src/roboclaw_3` is not part of this model. Its commands appear only as trace events, and its readings only as parameters.
- Transport failures (device communication errors): these come from the transport. The core neither raises nor catches them.
- Logging: `check_speed`'s warning and the accuracy warnings are not recorded in traces. `CheckSpeed` is modelled as a classifier on its own.
- The real `time.sleep`: only its duration appears, as a `Sleep(ms)` event.
- The async/await machinery, and the `extra`/`timeout` keyword arguments, which no modelled operation reads.
- Floating point: exact `real` arithmetic is used, with no NaN, infinities (other than the tagged distance) or rounding.
- RoboclawMotor.GoFor: a controller that never reports zero duty makes the source spin forever. Given finitely many readings, the model returns `Err(NeverIdle)` instead. That error result drops the speed-and-distance command already sent and the polls already made.
- RoboclawMotor.GetPosition: `requires` a nonzero ticks-per-rotation, because the source divides by it unguarded. `go_to` reaches it only after its encoder guard.
- RoboclawMotor.GetProperties: returns only the `position_reporting` flag, not the shared properties class it mutates.

## Findings

| source | as written | input that shows it | evidently intended | confidence | as-written member | corrected member |
|---|---|---|---|---|---|---|
| src/roboclaw.py:194 | `go_to` passes `extra` as a third positional argument to `go_for`, whose only positional parameters are `rpm` and `revolutions`, so the call raises `TypeError` | any `go_to` with ticks_per_rotation ≠ 0, e.g. tpr 490, channel 1, encoder count 0, target 10 rev, −100 rpm | delegate to `go_for(abs(rpm), target − position)` with `extra` passed by keyword | high; not executed | RoboclawMotor.GoToAsWritten (shown by RoboclawProperties.GoToAsWrittenDiscrepancy) | RoboclawMotor.GoTo |
