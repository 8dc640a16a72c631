/** From slot tags to indicator colours, and from LED numbers to PWM driver boards and channels.
    Each PCA9685 board drives five RGB LEDs, three consecutive channels per LED. */
module Display {
  import opened Classifier

  newtype uint8 = x: int | 0 <= x < 256

  /** Only the first `MaxLeds` indicators are wired; requests for the others are ignored. */
  const MaxLeds: uint8 := 2
  const LedsPerDriver: nat := 5
  /** Seven boards, `pwm` to `pwm7`, at I2C addresses 0x40 to 0x46. */
  const NumDrivers: nat := 7
  const ChannelsPerDriver: nat := 16

  datatype Rgb = Rgb(red: uint8, green: uint8, blue: uint8)

  const Off: Rgb := Rgb(0, 0, 0)

  /** The colour shown for each tag; an empty slot is dark. */
  function Color(c: Classification): Rgb {
    match c
    case NoTrain => Off
    case CermakRun => Rgb(0, 80, 0)
    case OHareBound => Rgb(0, 0, 255)
    case FPBound => Rgb(255, 0, 0)
    case JPBound => Rgb(0, 80, 255)
    case UICBound => Rgb(255, 20, 0)
    case BothDirections => Rgb(255, 0, 255)
  }

  /** Every tag has its own colour, and only an empty slot is dark. */
  lemma ColorsDistinguishTags(a: Classification, b: Classification)
    ensures Color(a) == Color(b) <==> a == b
    ensures Color(a) == Off <==> a == NoTrain
  {
  }

  /** First channel of `ledNum` on its board: the firmware's chain of five-LED bands, with the
      result narrowed to a byte as the `uint8_t` return type does. */
  function LedForDriver(ledNum: uint8): uint8 {
    var n := ledNum as int;
    var first :=
      if n < 5 then n * 3
      else if n < 10 then (n - 5) * 3
      else if n < 15 then (n - 10) * 3
      else if n < 20 then (n - 15) * 3
      else if n < 25 then (n - 20) * 3
      else if n < 30 then (n - 25) * 3
      else (n - 30) * 3;
    (first % 256) as uint8
  }

  /** Which board (0 for `pwm` up to 6 for `pwm7`) drives `ledNum`. */
  function DriverForLed(ledNum: uint8): nat {
    if ledNum < 5 then 0
    else if ledNum < 10 then 1
    else if ledNum < 15 then 2
    else if ledNum < 20 then 3
    else if ledNum < 25 then 4
    else if ledNum < 30 then 5
    else 6
  }

  /** For the 35 LEDs the seven boards can hold, the first channel is three times the LED's
      place on its board, and the three channels of the LED fit on one board. */
  lemma LedChannelClosedForm(ledNum: uint8)
    requires (ledNum as int) < NumDrivers * LedsPerDriver
    ensures LedForDriver(ledNum) as int == (ledNum as int % LedsPerDriver) * 3
    ensures LedForDriver(ledNum) as int + 2 < ChannelsPerDriver
  {
  }

  /** Board choice is the LED's band of five, with every LED past the sixth band on the last board. */
  lemma DriverClosedForm(ledNum: uint8)
    ensures DriverForLed(ledNum) < NumDrivers
    ensures DriverForLed(ledNum) == if ledNum as int / LedsPerDriver < 6 then ledNum as int / LedsPerDriver else 6
  {
  }

  /** Board and first channel together give back the LED number: no two of the 35 LEDs
      share a channel. */
  lemma LedAddressRoundTrip(ledNum: uint8)
    requires (ledNum as int) < NumDrivers * LedsPerDriver
    ensures DriverForLed(ledNum) * LedsPerDriver + LedForDriver(ledNum) as int / 3 == ledNum as int
  {
    LedChannelClosedForm(ledNum);
    DriverClosedForm(ledNum);
  }

  /** What the firmware asks of the hardware for one LED. */
  datatype LedCommand =
    | Ignored                                          // beyond `MaxLeds`
    | TurnOff(driver: nat, channel: uint8)             // all three legs to zero
    | SetColor(driver: nat, channel: uint8, rgb: Rgb)  // legs scaled from `rgb`

  /** The request made for LED `led` showing tag `c`. */
  function Command(led: uint8, c: Classification): (cmd: LedCommand)
    ensures led >= MaxLeds <==> cmd == Ignored
    ensures cmd.TurnOff? <==> led < MaxLeds && c == NoTrain
    ensures cmd.SetColor? ==> cmd.rgb == Color(c) && cmd.rgb != Off
    ensures !cmd.Ignored? ==> cmd.driver == DriverForLed(led) && cmd.channel == LedForDriver(led)
  {
    if led >= MaxLeds then Ignored
    else if c == NoTrain then TurnOff(DriverForLed(led), LedForDriver(led))
    else SetColor(DriverForLed(led), LedForDriver(led), Color(c))
  }
}
