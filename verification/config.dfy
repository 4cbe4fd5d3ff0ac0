/** Configuration of one Roboclaw motor: the module-level constants, `validate_config`,
    `validate_baud_rates` and the address normalisation done by `reconfigure`. */
module RoboclawConfig {
  import opened Outcomes
  import opened Numeric

  /** Empirical ceiling on motor speed, used when no encoder is fitted. */
  const MaxRpm: real := 250.0
  /** Milliseconds per minute. */
  const MinutesToMs: real := 60000.0
  /** Full-scale signed duty value of the controller. */
  const PwmScale: real := 32767.0
  /** Serial baud rates the controller supports. */
  const ValidBaudRates: set<int> := {460800, 230400, 115200, 57600, 38400, 19200, 9600, 2400}

  /** The attributes the host hands to the adapter. Numbers arrive as floats. */
  datatype Config = Config(
    motorChannel: real,
    serialPath: string,
    address: real,
    ticksPerRotation: real,
    serialBaudRate: real)

  /** One `ValidationError` per check of `validate_config`, in the order they are made. */
  datatype ConfigError =
    | ChannelOutOfRange
    | MissingSerialPath
    | AddressOutOfRange
    | NegativeTicksPerRotation
    | UnsupportedBaudRate

  /** The baud rate equals one of the supported rates. */
  predicate SupportedBaud(baud: real) {
    exists v :: v in ValidBaudRates && v as real == baud
  }

  predicate ChannelAccepted(channel: real) {
    1.0 <= channel <= 2.0
  }

  predicate AddressAccepted(address: real) {
    address == 0.0 || 128.0 <= address <= 135.0
  }

  /** Reference definition: a configuration is acceptable when every attribute is in range. */
  predicate Acceptable(c: Config) {
    && ChannelAccepted(c.motorChannel)
    && c.serialPath != ""
    && AddressAccepted(c.address)
    && 0.0 <= c.ticksPerRotation
    && SupportedBaud(c.serialBaudRate)
  }

  /** `validate_baud_rates`: scans the whole rate set, remembering whether any rate matched. */
  method ValidateBaudRates(baud: real) returns (isValid: bool)
    ensures isValid <==> SupportedBaud(baud)
  {
    isValid := false;
    var pending := ValidBaudRates;
    while pending != {}
      invariant pending <= ValidBaudRates
      invariant isValid <==> exists v :: v in ValidBaudRates - pending && v as real == baud
      decreases pending
    {
      var v :| v in pending;
      if v as real == baud {
        isValid := true;
      }
      assert ValidBaudRates - (pending - {v}) == (ValidBaudRates - pending) + {v};
      pending := pending - {v};
    }
    assert ValidBaudRates - pending == ValidBaudRates;
  }

  /** `validate_config`: the checks run in order and the first one that fails is raised. */
  function ValidateConfig(c: Config): (r: Outcome<ConfigError>)
    ensures r.Pass? <==> Acceptable(c)
    ensures r == Fail(ChannelOutOfRange) <==> !ChannelAccepted(c.motorChannel)
    ensures r == Fail(MissingSerialPath) <==> ChannelAccepted(c.motorChannel) && c.serialPath == ""
    ensures r == Fail(AddressOutOfRange) <==>
      ChannelAccepted(c.motorChannel) && c.serialPath != "" && !AddressAccepted(c.address)
    ensures r == Fail(NegativeTicksPerRotation) <==>
      ChannelAccepted(c.motorChannel) && c.serialPath != "" && AddressAccepted(c.address)
      && c.ticksPerRotation < 0.0
    ensures r == Fail(UnsupportedBaudRate) <==>
      ChannelAccepted(c.motorChannel) && c.serialPath != "" && AddressAccepted(c.address)
      && 0.0 <= c.ticksPerRotation && !SupportedBaud(c.serialBaudRate)
  {
    if c.motorChannel < 1.0 || c.motorChannel > 2.0 then Fail(ChannelOutOfRange)
    else if c.serialPath == "" then Fail(MissingSerialPath)
    else if c.address != 0.0 && (c.address < 128.0 || c.address > 135.0) then Fail(AddressOutOfRange)
    else if c.ticksPerRotation < 0.0 then Fail(NegativeTicksPerRotation)
    else if !SupportedBaud(c.serialBaudRate) then Fail(UnsupportedBaudRate)
    else Pass
  }

  /** The address `reconfigure` stores: `int(address)`, with 0 standing for the default 128. */
  function NormalizeAddress(address: real): (a: int)
    ensures address == 0.0 ==> a == 128
    ensures 128.0 <= address <= 135.0 ==> a as real <= address < a as real + 1.0
    ensures AddressAccepted(address) ==> 128 <= a <= 135
    ensures -1.0 < address < 1.0 ==> a == 128
  {
    var truncated := Trunc(address);
    if truncated == 0 then 128 else truncated
  }

  /** The adapter's state after `reconfigure`. The serial connection itself is not modelled. */
  datatype Motor = Motor(
    serialPath: string,
    ticksPerRotation: real,
    baudRate: real,
    channel: real,
    address: int)
  {
    /** A ticks-per-rotation of 0 is the sentinel for "no encoder fitted". */
    predicate HasEncoder() {
      ticksPerRotation != 0.0
    }
  }

  /** `reconfigure`: copies the attributes and normalises the address. */
  function Reconfigure(c: Config): (m: Motor)
    ensures m.serialPath == c.serialPath && m.baudRate == c.serialBaudRate
    ensures m.channel == c.motorChannel && m.ticksPerRotation == c.ticksPerRotation
    ensures m.address == NormalizeAddress(c.address)
    ensures Acceptable(c) ==> 128 <= m.address <= 135 && 0.0 <= m.ticksPerRotation
  {
    Motor(c.serialPath, c.ticksPerRotation, c.serialBaudRate, c.motorChannel, NormalizeAddress(c.address))
  }

  /** `new`: validation first, so a bad configuration raises before any connection is made. */
  function New(c: Config): (r: Result<Motor, ConfigError>)
    ensures r.Ok? <==> Acceptable(c)
    ensures r.Err? ==> ValidateConfig(c) == Fail(r.error)
    ensures r.Ok? ==> r.value == Reconfigure(c)
    ensures r.Ok? ==> r.value.channel == c.motorChannel && 128 <= r.value.address <= 135
  {
    match ValidateConfig(c)
    case Fail(e) => Err(e)
    case Pass => Ok(Reconfigure(c))
  }
}
