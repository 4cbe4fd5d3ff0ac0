/** The abstract device interface: the commands the adapter sends to the controller and
    the readings it gets back. The serial encoding of these commands is not modelled. */
module Commands {
  import opened Outcomes

  /** The two motor outputs of one controller. */
  datatype MotorChannel = M1 | M2

  /** A distance target in encoder ticks; `set_rpm` sends an infinite one for open-ended motion. */
  datatype Distance = Finite(ticks: int) | PosInf | NegInf

  /** One event of an operation's trace. `ReadPwms` records one poll of the duty readings. */
  datatype Command =
    | Duty(motor: MotorChannel, duty: int)
    | SpeedDistance(motor: MotorChannel, speed: real, distance: Distance, buffer: int)
    | SetEnc(motor: MotorChannel, value: real)
    | Sleep(ms: real)
    | ReadPwms

  type Trace = seq<Command>

  /** One answer to `ReadPWMs`: the signed duty currently applied on each channel. */
  datatype PwmReading = PwmReading(pwm1: int, pwm2: int)

  /** Errors an operation raises before (or instead of) finishing its command sequence. */
  datatype MotorError =
    | ZeroRevolutions       // go_for asked to move 0 revolutions
    | RpmDivisionByZero     // go_for without encoder at exactly 0 rpm: go_for_math divides by rpm
    | GoToNeedsEncoder      // go_to without encoder
    | ResetNeedsEncoder     // reset_zero_position without encoder
    | NeverIdle             // the readings ran out before one showed the motor idle
    | GoForArgumentError    // go_for called with an extra positional argument

  /** The channel a configured (float) channel number dispatches to: only exactly 1 and 2 do. */
  function ChannelOf(channel: real): (c: Option<MotorChannel>)
    ensures c == Some(M1) <==> channel == 1.0
    ensures c == Some(M2) <==> channel == 2.0
  {
    if channel == 1.0 then Some(M1)
    else if channel == 2.0 then Some(M2)
    else None
  }

  /** The `if channel == 1 … elif channel == 2 …` pattern: issue `cmd` on the configured
      channel, or nothing at all when the channel is neither. */
  function Dispatch(channel: real, cmd: MotorChannel -> Command): (t: Trace)
    ensures ChannelOf(channel).None? ==> t == []
    ensures ChannelOf(channel).Some? ==> t == [cmd(ChannelOf(channel).value)]
  {
    match ChannelOf(channel)
    case None => []
    case Some(c) => [cmd(c)]
  }

  /** The duty reading of one channel. */
  function PwmOf(reading: PwmReading, c: MotorChannel): int {
    match c
    case M1 => reading.pwm1
    case M2 => reading.pwm2
  }

  /** `n` consecutive polls of the duty readings. */
  function Polls(n: nat): (t: Trace)
    ensures |t| == n
    ensures forall i :: 0 <= i < n ==> t[i] == ReadPwms
  {
    seq(n, _ => ReadPwms)
  }
}
