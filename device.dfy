/**
 * The device registry and the hardware-side producers (main/device.c):
 * the cached LED and pump states, their actuation, the button toggle, the
 * sensor timer, and the integer rescaler `map_range`.
 */
module Device {
  import opened Packet
  import opened Globals
  import Mailbox

  // Colour of the lit LED and the relay's active level (main/device.h)
  const DefaultRed := 0
  const DefaultGreen := 25
  const DefaultBlue := 0
  const RelayActiveLevel := 1

  // ADC range and the sensor's domain range (main/device.h)
  const AdcRawMax := 4095
  const SensorRange := 100

  /** The LED driver call `set_onBoard_led` makes for a state. */
  function LedOutput(on: bool): Actuation
  {
    if on then LedSetRgb(DefaultRed, DefaultGreen, DefaultBlue) else LedClear
  }

  /** The relay GPIO call `set_pump` makes for a state. */
  function RelayOutput(on: bool): Actuation
  {
    RelaySetLevel(if on then RelayActiveLevel else 1 - RelayActiveLevel)
  }

  /** `set_onBoard_led`: cache the new state, then drive the LED. */
  function SetOnBoardLed(s: GlobalState, on: bool): GlobalState
  {
    s.(led := on, actuations := s.actuations + [LedOutput(on)])
  }

  /** `set_pump`: cache the new state, then drive the relay. */
  function SetPump(s: GlobalState, on: bool): GlobalState
  {
    s.(pump := on, actuations := s.actuations + [RelayOutput(on)])
  }

  /** `hardware_update`: apply a packet to the device it names. */
  function HardwareUpdate(s: GlobalState, p: EventPacket): GlobalState
  {
    if p.device == DeviceLed then SetOnBoardLed(s, ByteToBool(p.dataOnOff))
    else if p.device == DevicePump then SetPump(s, ByteToBool(p.dataOnOff))
    else if p.device == DeviceSensor then s
    else s.(errorsLogged := s.errorsLogged + 1)
  }

  /** The report the button handler enqueues after a toggle to `on`. */
  function ButtonPacket(on: bool): EventPacket
  {
    Blank(EspToApp, DeviceLed).(dataOnOff := BoolToByte(on))
  }

  /** `push_btn_callback`: toggle the LED directly, then try to tell the cloud side. */
  function ButtonPress(s: GlobalState): GlobalState
  {
    var t := SetOnBoardLed(s, !s.led);
    Post(t, ButtonPacket(t.led))
  }

  /** The packet the sensor timer enqueues for a reading. */
  function SensorPacket(reading: Float32): EventPacket
  {
    Blank(EspToApp, DeviceSensor).(dataSensor := reading)
  }

  /** `sensor_update`: try to enqueue the reading; the cached temperature is not touched. */
  function SensorUpdate(s: GlobalState, reading: Float32): GlobalState
  {
    Post(s, SensorPacket(reading))
  }

  /**
   * The static initialisers of main/device.c, together with an empty event
   * queue.  The model assumes the queue exists before any producer runs.
   */
  function PowerOn(): GlobalState
  {
    GlobalState(false, false, FloatZero, [], [], [], 0)
  }

  /**
   * `hardware_init`, under the assumption that the queue already exists: the LED is set to the
   * initial state; the pump's GPIO is configured but its cached state keeps
   * its static value; when the sensor is enabled in the build, `sensor_init`
   * caches the initial reading.
   */
  function HardwareInit(initialOnOff: bool, initialReading: Float32, sensorEnabled: bool): GlobalState
  {
    var s := SetOnBoardLed(PowerOn(), initialOnOff);
    if sensorEnabled then s.(temperature := initialReading) else s
  }

  lemma {:induction false} HardwareInitState(initialOnOff: bool, initialReading: Float32, sensorEnabled: bool)
    ensures var s := HardwareInit(initialOnOff, initialReading, sensorEnabled);
      && Valid(s) && s.queue == [] && s.reports == [] && s.errorsLogged == 0
      && s.led == initialOnOff && !s.pump
      && s.temperature == (if sensorEnabled then initialReading else FloatZero)
      && s.actuations == [LedOutput(initialOnOff)]
  {
  }

  /** An LED packet sets the cached LED state to its on-off byte read as a bool, and touches nothing but the LED. */
  lemma {:induction false} HardwareUpdateLed(s: GlobalState, p: EventPacket)
    requires p.device == DeviceLed
    ensures var t := HardwareUpdate(s, p);
      && t.led == (p.dataOnOff != 0)
      && t.actuations == s.actuations + [LedOutput(p.dataOnOff != 0)]
      && t == s.(led := t.led, actuations := t.actuations)
  {
  }

  /** A pump packet sets the cached pump state to its on-off byte read as a bool, and touches nothing but the pump. */
  lemma {:induction false} HardwareUpdatePump(s: GlobalState, p: EventPacket)
    requires p.device == DevicePump
    ensures var t := HardwareUpdate(s, p);
      && t.pump == (p.dataOnOff != 0)
      && t.actuations == s.actuations + [RelayOutput(p.dataOnOff != 0)]
      && t == s.(pump := t.pump, actuations := t.actuations)
  {
  }

  /** A sensor packet changes nothing; an unnamed device tag changes nothing but writes one error line. */
  lemma {:induction false} HardwareUpdateOther(s: GlobalState, p: EventPacket)
    requires p.device != DeviceLed && p.device != DevicePump
    ensures var t := HardwareUpdate(s, p);
      && t.errorsLogged == s.errorsLogged + (if p.device == DeviceSensor then 0 else 1)
      && t == s.(errorsLogged := t.errorsLogged)
  {
  }

  /** Setting the LED twice to the same state caches the same state and repeats the same driver call. */
  lemma {:induction false} SetOnBoardLedIdempotent(s: GlobalState, on: bool)
    ensures var once := SetOnBoardLed(s, on);
      var twice := SetOnBoardLed(once, on);
      && twice.(actuations := once.actuations) == once
      && twice.actuations == once.actuations + [once.actuations[|once.actuations| - 1]]
  {
  }

  /** Setting the pump twice to the same state caches the same state and repeats the same relay call. */
  lemma {:induction false} SetPumpIdempotent(s: GlobalState, on: bool)
    ensures var once := SetPump(s, on);
      var twice := SetPump(once, on);
      && twice.(actuations := once.actuations) == once
      && twice.actuations == once.actuations + [once.actuations[|once.actuations| - 1]]
  {
  }

  /** The relay is driven to the active level (1) when on and to the other level (0) when off. */
  lemma RelayLevels()
    ensures RelayOutput(true) == RelaySetLevel(1)
    ensures RelayOutput(false) == RelaySetLevel(0)
    ensures RelayOutput(true) != RelayOutput(false)
  {
  }

  /**
   * A press inverts the LED, drives it, and attempts exactly one send of an
   * `ESP_TO_APP`/`DEVICE_LED` packet carrying the new state; a full queue drops
   * it and is left as it was.  Nothing else changes.
   */
  lemma {:induction false} ButtonPressToggles(s: GlobalState)
    ensures var t := ButtonPress(s);
      var p := ButtonPacket(!s.led);
      && t.led == !s.led
      && t.actuations == s.actuations + [LedOutput(!s.led)]
      && p.direction == EspToApp && p.device == DeviceLed && ByteToBool(p.dataOnOff) == t.led
      && t.queue == (if |s.queue| < Mailbox.QueueCapacity then s.queue + [p] else s.queue)
      && t == s.(led := t.led, actuations := t.actuations, queue := t.queue)
  {
  }

  /** Two presses restore the LED state. */
  lemma {:induction false} ButtonPressTwiceRestores(s: GlobalState)
    ensures ButtonPress(ButtonPress(s)).led == s.led
    ensures ButtonPress(ButtonPress(s)).pump == s.pump
  {
  }

  /**
   * The timer attempts exactly one send of an `ESP_TO_APP`/`DEVICE_SENSOR`
   * packet carrying the reading, and changes nothing else (not even the cached
   * temperature).
   */
  lemma {:induction false} SensorUpdateSends(s: GlobalState, reading: Float32)
    ensures var t := SensorUpdate(s, reading);
      var p := SensorPacket(reading);
      && p.direction == EspToApp && p.device == DeviceSensor && p.dataSensor == reading
      && t.queue == (if |s.queue| < Mailbox.QueueCapacity then s.queue + [p] else s.queue)
      && t == s.(queue := t.queue)
  {
  }

  // ------------------------------------------------------------------
  // map_range, in 32-bit C int arithmetic
  // ------------------------------------------------------------------

  const IntMin := -0x8000_0000
  const IntMax := 0x7fff_ffff

  predicate IsInt32(v: int)
  {
    IntMin <= v <= IntMax
  }

  function Abs(v: int): nat
  {
    if v < 0 then -v else v
  }

  /**
   * C's `/` on `int`: the quotient truncated toward zero.  Its magnitude is
   * the floor of the magnitudes' quotient and its sign is the product of the
   * operands' signs (Dafny's own `/` is Euclidean instead).
   */
  function CDiv(a: int, b: int): (q: int)
    requires b != 0
    ensures Abs(q) == Abs(a) / Abs(b)
    ensures q != 0 ==> (q > 0 <==> (a > 0) == (b > 0))
    ensures a >= 0 && b > 0 ==> q == a / b
  {
    var m := Abs(a) / Abs(b);
    assert 0 <= m by {
      assert Abs(a) == m * Abs(b) + Abs(a) % Abs(b);
      if m < 0 {
        MulLe(m, -1, Abs(b));
      }
    }
    if (a >= 0) == (b > 0) then m else -m
  }

  /** `m * n / n == m` on naturals. */
  lemma {:induction false} DivMulCancel(m: nat, n: nat)
    requires n > 0
    ensures m * n / n == m
  {
    var q, r := m * n / n, m * n % n;
    assert m * n == q * n + r && 0 <= r < n;
    assert (m - q) * n == r;
    if m - q >= 1 {
      MulLe(1, m - q, n);
    } else if m - q <= -1 {
      MulLe(m - q, -1, n);
    }
  }

  lemma {:induction false} MulLe(a: int, b: int, c: nat)
    requires a <= b
    ensures a * c <= b * c
  {
    assert b * c - a * c == (b - a) * c;
  }

  /** A quotient of naturals is at most `w` when the dividend is at most `w` divisors. */
  lemma {:induction false} DivAtMost(n: nat, d: nat, w: nat)
    requires d > 0 && n <= w * d
    ensures n / d <= w
  {
    var q := n / d;
    assert q * d <= n by {
      assert n == q * d + n % d;
    }
    if q > w {
      MulLe(w + 1, q, d);
    }
  }

  /**
   * The arguments for which `map_range` has defined behaviour in C: all
   * operands and every intermediate value fit in an `int`, and the input range
   * is not empty (a zero divisor and a signed overflow are both undefined).
   */
  predicate MapRangeDefined(x: int, inMin: int, inMax: int, outMin: int, outMax: int)
  {
    && IsInt32(x) && IsInt32(inMin) && IsInt32(inMax) && IsInt32(outMin) && IsInt32(outMax)
    && inMax != inMin
    && IsInt32(x - inMin) && IsInt32(outMax - outMin) && IsInt32(inMax - inMin)
    && IsInt32((x - inMin) * (outMax - outMin))
    && IsInt32(CDiv((x - inMin) * (outMax - outMin), inMax - inMin))
    && IsInt32(CDiv((x - inMin) * (outMax - outMin), inMax - inMin) + outMin)
  }

  /** `map_range`: linear rescaling of `x` from `[inMin, inMax]` to `[outMin, outMax]`. */
  function MapRange(x: int, inMin: int, inMax: int, outMin: int, outMax: int): (r: int)
    requires MapRangeDefined(x, inMin, inMax, outMin, outMax)
    ensures IsInt32(r)
  {
    CDiv((x - inMin) * (outMax - outMin), inMax - inMin) + outMin
  }

  /** Truncating division of an exact multiple gives the factor back. */
  lemma {:induction false} CDivExact(w: int, d: int)
    requires d != 0
    ensures CDiv(w * d, d) == w
  {
    assert Abs(w * d) == Abs(w) * Abs(d) by {
      if w < 0 && d < 0 { assert w * d == (-w) * (-d); }
      else if w < 0 { assert -(w * d) == (-w) * d; }
      else if d < 0 { assert -(w * d) == w * (-d); }
    }
    DivMulCancel(Abs(w), Abs(d));
  }

  /** The lower end of the input range maps to the lower end of the output range. */
  lemma {:induction false} MapRangeAtInMin(inMin: int, inMax: int, outMin: int, outMax: int)
    requires MapRangeDefined(inMin, inMin, inMax, outMin, outMax)
    ensures MapRange(inMin, inMin, inMax, outMin, outMax) == outMin
  {
    CDivExact(0, inMax - inMin);
  }

  /** The upper end of the input range maps to the upper end of the output range. */
  lemma {:induction false} MapRangeAtInMax(inMin: int, inMax: int, outMin: int, outMax: int)
    requires MapRangeDefined(inMax, inMin, inMax, outMin, outMax)
    ensures MapRange(inMax, inMin, inMax, outMin, outMax) == outMax
  {
    assert (inMax - inMin) * (outMax - outMin) == (outMax - outMin) * (inMax - inMin);
    CDivExact(outMax - outMin, inMax - inMin);
  }

  /**
   * For an increasing input range and a non-decreasing output range, an input
   * inside the input range maps inside the output range.
   */
  lemma {:induction false} MapRangeWithin(x: int, inMin: int, inMax: int, outMin: int, outMax: int)
    requires MapRangeDefined(x, inMin, inMax, outMin, outMax)
    requires inMin <= x <= inMax && inMin < inMax && outMin <= outMax
    ensures outMin <= MapRange(x, inMin, inMax, outMin, outMax)
    ensures MapRange(x, inMin, inMax, outMin, outMax) <= outMax
  {
    var k: nat, d: nat, w: nat := x - inMin, inMax - inMin, outMax - outMin;
    ScaledAtMost(k, d, w);
    var n: nat := k * w;
    assert MapRange(x, inMin, inMax, outMin, outMax) == CDiv(n, d) + outMin;
    assert CDiv(n, d) == n / d;
  }

  /** Scaling `k <= d` by `w / d` stays within `0..w`. */
  lemma {:induction false} ScaledAtMost(k: nat, d: nat, w: nat)
    requires 0 < d && k <= d
    ensures 0 <= k * w && 0 <= k * w / d <= w
  {
    MulLe(0, k, w);
    MulLe(k, d, w);
    assert d * w == w * d;
    DivAtMost(k * w, d, w);
  }

  /** Every raw ADC value rescales to the sensor's range 0..100 without undefined behaviour. */
  lemma {:induction false} AdcRescaleWithin(raw: int)
    requires 0 <= raw <= AdcRawMax
    ensures MapRangeDefined(raw, 0, AdcRawMax, 0, SensorRange)
    ensures 0 <= MapRange(raw, 0, AdcRawMax, 0, SensorRange) <= SensorRange
  {
    MapRangeWithin(raw, 0, AdcRawMax, 0, SensorRange);
  }

  /**
   * When the ADC read fails, `raw_value` keeps its initial -1; C's truncating
   * division then rescales it to 0, where a floor division would give -1.
   */
  lemma AdcReadFailureRescalesToZero()
    ensures MapRangeDefined(-1, 0, AdcRawMax, 0, SensorRange)
    ensures MapRange(-1, 0, AdcRawMax, 0, SensorRange) == 0
    ensures (-1 * SensorRange) / AdcRawMax == -1
  {
    assert CDiv(-100, 4095) == 0;
  }

  /** The mid-scale reading 2048 maps to 50 (204800 / 4095 truncates to 50). */
  lemma AdcMidScale()
    ensures MapRangeDefined(2048, 0, AdcRawMax, 0, SensorRange)
    ensures MapRange(2048, 0, AdcRawMax, 0, SensorRange) == 50
  {
    assert CDiv(204800, 4095) == 204800 / 4095 == 50;
  }
}
