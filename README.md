# ESP32 event-routing core, modelled in Dafny

This project models the event-routing core of an ESP32 RainMaker controller. The controller has an on-board LED, a relay-driven water pump and a soil sensor. Three producers each build an `event_packet_t` and hand it to the FreeRTOS queue `event_queue` with `xQueueSend(..., 0)`:

- the button tap callback;
- the periodic sensor timer;
- the two RainMaker write callbacks.

That call never blocks, and it drops the packet when the queue is full. One consumer loop, `queue_processing`, takes at most one packet per iteration and routes it by direction:

- `ESP_TO_APP` packets go to the cloud mirror (`rainMaker_update`), which reports a parameter value;
- `APP_TO_ESP` packets go to the device registry (`hardware_update`), which drives the LED or the relay and caches its state;
- packets with any other direction are dropped.

Modules, one per source file or component:

- `Packet` (main/packet.h): the direction and device tags, and the packet itself. The direction, the device and the three `data_*` byte members are bytes (`0..255`), so unnamed tags such as 99 can occur. `data_sensor` is an opaque `float` and `is_on_off` a `bool`. The C conversions between `bool` and `uint8_t` are written out.
- `Mailbox` (main/main.c:104): the queue as a bounded FIFO of 50 packets. `Send` has the zero-timeout drop-when-full behaviour. `Receive` returns the oldest packet, or `None` on a timeout.
- `Globals`: the firmware's static state in one record:
  - the cached LED, pump and temperature values;
  - the queue;
  - logs of driver calls, of cloud reports and of error lines.
- `Device` (main/device.c): the registry, the button and sensor producers, initialisation, and `map_range`. `map_range` uses 32-bit C `int` arithmetic with C's truncating division, `CDiv`.
- `RainMaker` (main/rainMaker.c): the mirror's per-device report choice, and the two parameter-write callbacks.
- `Dispatcher` (main/main.c): one loop iteration, and a fixed number of iterations.
- `System`: any sequential interleaving of producer calls and dispatcher iterations. It proves the queue bound and FIFO order over whole traces.
- `Firmware`: class `Controller` updates the same globals in place, as the C code does. Each method's postcondition equates its new state with a pure function of the old state: `TrySend` and `Receive` with `Mailbox.Send` and `Mailbox.Receive`, the constructor with `Device.HardwareInit`, and every other method with the function of the same name in `Device`, `RainMaker` or `Dispatcher`.

The model keeps these behaviours of the code as written:

- A pump packet sent toward the cloud produces no report (`rainMaker.c:94-97`).
- A cloud-to-device sensor packet is dropped without an error line (`device.c:63-65`).
- An unnamed device tag reaching the mirror is dropped silently (`rainMaker.c:105-106`).
- `sensor_update` never updates the cached temperature. Only `sensor_init` writes it (`device.c:226`).
- The overflow policy is drop-newest, which is what `xQueueSend` with timeout 0 does.

## Model

| member | source | states |
|---|---|---|
| `Packet.NamedTagsDistinct` | main/packet.h:8-19 | `ESP_TO_APP = 0` and `APP_TO_ESP = 1` are distinct. `DEVICE_LED = 0`, `DEVICE_PUMP = 1` and `DEVICE_SENSOR = 2` are pairwise distinct. |
| `Packet.BoolToByte` | main/packet.h:22-30 | Storing a C `bool` into a `uint8_t` member yields 0 or 1, and reading that byte back as a `bool` gives the original value. |
| `Packet.ByteRoundTrip` | main/packet.h:22-27 | Any byte read as a `bool` and stored again becomes 1 if it was non-zero and 0 otherwise. Bytes 0 and 1 are unchanged. |
| `Mailbox.Send` | main/device.c:92 | A zero-timeout send succeeds exactly when fewer than 50 packets are queued. On success the packet is appended; otherwise the queue is unchanged. A queue within its bound stays within it. |
| `Mailbox.Receive` | main/main.c:32 | A receive times out exactly when the queue is empty. Otherwise it returns the oldest packet, and the rest of the queue is what was behind it. |
| `Mailbox.SendThenReceive` | main/main.c:104 | A packet sent to the empty queue is the next one received, and the queue is empty again. |
| `Device.HardwareInitState` | main/device.c:26-52 | After initialisation: the LED is in the initial state and has been driven once; the pump is off; the temperature is the initial reading when the sensor is built in and 0.0 otherwise; the queue, the reports and the error log are empty. |
| `Device.HardwareUpdateLed` | main/device.c:57-58 | An LED packet sets the cached LED state to its on-off byte read as a bool and drives the LED to match. Nothing else changes, the pump included. |
| `Device.HardwareUpdatePump` | main/device.c:60-61 | A pump packet sets the cached pump state to its on-off byte read as a bool and drives the relay to match. Nothing else changes, the LED included. |
| `Device.HardwareUpdateOther` | main/device.c:63-68 | A sensor packet changes nothing. A packet with an unnamed device tag changes nothing except adding one error line. |
| `Device.SetOnBoardLedIdempotent` | main/device.c:95-104 | Setting the LED twice to the same value leaves the same cached state as setting it once. The second driver call repeats the first. |
| `Device.SetPumpIdempotent` | main/device.c:110-119 | Setting the pump twice to the same value leaves the same cached state as setting it once. The second relay call repeats the first. |
| `Device.RelayLevels` | main/device.c:114-118 | The relay is driven to level 1 (`RELAY_ACTIVE_LEVEL`) when on and to level 0 when off. The two levels differ. |
| `Device.ButtonPressToggles` | main/device.c:81-93 | A press inverts the LED state and drives the LED. It then tries to send one `ESP_TO_APP`/`DEVICE_LED` packet carrying the new state, which is dropped when the queue is full. Nothing else changes. |
| `Device.ButtonPressTwiceRestores` | main/device.c:84 | Two presses restore the LED state, and the pump state is not touched. |
| `Device.SensorUpdateSends` | main/device.c:164-175 | The timer tries to send exactly one `ESP_TO_APP`/`DEVICE_SENSOR` packet carrying the reading. Nothing else changes, the cached temperature included. |
| `Device.CDiv` | main/device.c:141 | C's `/` on `int`: the quotient's magnitude is the floor of the magnitudes' quotient, and a non-zero quotient's sign is the product of the operands' signs. It agrees with `/` on non-negative dividends and positive divisors. |
| `Device.MapRange` | main/device.c:139-142 | The requires is the domain on which `map_range` has defined behaviour in C: a non-empty input range and no 32-bit overflow. The ensures (a 32-bit result) only restates the last conjunct of that domain; the properties are in `MapRangeAtInMin`, `MapRangeAtInMax` and `MapRangeWithin`. |
| `Device.MapRangeAtInMin` | main/device.c:139-142 | `map_range(in_min, ...) == out_min`. |
| `Device.MapRangeAtInMax` | main/device.c:139-142 | `map_range(in_max, ...) == out_max`. |
| `Device.MapRangeWithin` | main/device.c:139-142 | For `in_min < in_max` and `out_min <= out_max`, an input inside the input range maps inside the output range. |
| `Device.AdcRescaleWithin` | main/device.c:157 | Every raw reading in `0..ADC_RAW_MAX` rescales into `0..SENSOR_RANGE` (0..100) without overflow. |
| `Device.AdcMidScale` | main/device.c:157 | `map_range(2048, 0, 4095, 0, 100) == 50`. |
| `Device.AdcReadFailureRescalesToZero` | main/device.c:155-157 | If the ADC read fails, `raw_value` stays -1, which rescales to 0 under truncating division. Floor division would give -1. |
| `RainMaker.RainMakerUpdateLed` | main/rainMaker.c:87-93 | An LED packet produces exactly one report: the light device's Power parameter, set to the on-off byte read as a bool. |
| `RainMaker.RainMakerUpdateSensor` | main/rainMaker.c:98-104 | A sensor packet produces exactly one report: the sensor device's Temperature parameter, set to the packet's reading. |
| `RainMaker.RainMakerUpdateOther` | main/rainMaker.c:94-106 | A pump packet, or one with an unnamed device tag, produces no report and changes nothing. |
| `RainMaker.RainMakerUpdateFrame` | main/rainMaker.c:84-109 | The mirror touches only the report log and adds at most one report. |
| `RainMaker.LightSwitchWritePower` | main/rainMaker.c:139-160 | A Power write to the light tries to send one `APP_TO_ESP`/`DEVICE_LED` packet carrying the written value. It then echoes the write once and returns `ESP_OK`. Device state is not touched. |
| `RainMaker.LightSwitchWriteBrightness` | main/rainMaker.c:149-160 | A Brightness write to the light sends nothing but is echoed once, and returns `ESP_OK`. |
| `RainMaker.WaterPumpWritePower` | main/rainMaker.c:198-217 | A Power write to the pump tries to send one `APP_TO_ESP`/`DEVICE_PUMP` packet carrying the written value. It then echoes the write once and returns `ESP_OK`. |
| `RainMaker.WaterPumpWriteSpeed` | main/rainMaker.c:207-217 | A Speed write to the pump sends nothing but is echoed once, and returns `ESP_OK`. |
| `RainMaker.UnknownParamIgnored` | main/rainMaker.c:154-157 | In both callbacks, a write of any other name sends nothing and echoes nothing. It adds one error line and returns `ESP_OK`. |
| `RainMaker.LevelNamesAreDeviceSpecific` | main/rainMaker.c:207-214 | The light does not accept Speed and the pump does not accept Brightness: each is handled as an unknown name. |
| `Dispatcher.RouteOf` | main/main.c:35-39 | Direction 0 goes to the mirror and direction 1 to the registry. Every other byte is ignored. Each condition holds in both directions (if and only if). |
| `Dispatcher.DeliverIgnoresUnusedPayload` | main/main.c:35-39 | Two packets with equal direction, device, on-off byte and reading are delivered identically. The brightness, speed and `is_on_off` members never matter. |
| `Dispatcher.StepOnTimeout` | main/main.c:32 | An iteration on an empty queue times out and changes nothing. |
| `Dispatcher.StepConsumesOne` | main/main.c:32 | An iteration on a non-empty queue removes exactly the oldest packet and keeps the bound. |
| `Dispatcher.StepEspToApp` | main/main.c:35-36 | An `ESP_TO_APP` packet is handled only by the mirror. Cached device state, driver calls and the error log are unchanged. |
| `Dispatcher.StepAppToEsp` | main/main.c:37-38 | An `APP_TO_ESP` packet is handled only by the registry and produces no report. |
| `Dispatcher.StepIgnored` | main/main.c:33-39 | A packet of any other direction is consumed, and nothing else changes. |
| `Dispatcher.QueueProcessingDrains` | main/main.c:29-41 | With no producer running, n iterations remove the first n queued packets (or all of them). The bound and the cached temperature are kept. |
| `Dispatcher.LedOnScenario` | main/main.c:32-38 | With the LED off, dispatching one `APP_TO_ESP`/LED/on packet turns the LED on and drives it lit. It produces no report and leaves the queue empty. |
| `Dispatcher.UnknownDeviceScenario` | main/device.c:66-68 | An `APP_TO_ESP` packet for device 99 is consumed with one error line and no other change. The next iteration delivers the following packet. |
| `System.StepMovesQueue` | main/main.c:104 | For any single producer call or dispatcher iteration: the old queue plus what the event accepted equals what it delivered plus the new queue. The bound is kept. A send to a full queue leaves the queue unchanged. |
| `System.RunKeepsQueueBound` | main/main.c:104 | Under any interleaving of producers and dispatcher iterations, the queue never holds more than 50 packets. |
| `System.RunIsFifo` | main/main.c:32 | Over any trace, the initial queue followed by every accepted packet equals every delivered packet followed by what is left. |
| `System.RunDeliversInOrder` | main/main.c:32 | Delivered packets are a prefix of the queued-then-accepted packets, in order. None is lost or duplicated. |
| `System.RunKeepsTemperature` | main/device.c:164-175 | No producer and no dispatcher iteration writes the cached temperature. |
| `System.ProducerKeepsPump` | main/device.c:110-112 | No producer changes the pump's cached state or makes a relay call. |
| `System.PumpChangesOnlyByDispatch` | main/device.c:110-112 | Over any trace with no dispatcher iteration, the pump state and the relay calls stay as they were. |
| `System.CloudPowerWriteReachesLed` | main/rainMaker.c:139-147 | Start with an empty queue. A Power write to the light followed by one dispatcher iteration leaves the LED in the written state and driven accordingly, with one echo report. |
| `System.ButtonPressReachesCloud` | main/device.c:81-93 | Start with an empty queue. A button press followed by one dispatcher iteration reports the new LED state to the light's Power parameter. |
| `Firmware.Controller.constructor` | main/device.c:26-52 | Builds the initialised state of `HardwareInit`, with an empty queue. |
| `Firmware.Controller.TrySend` | main/device.c:174 | The queue changes exactly as `Mailbox.Send` says, the result flag says whether the packet was accepted, and nothing else changes. |
| `Firmware.Controller.Receive` | main/main.c:32 | The queue and the returned packet are as `Mailbox.Receive` says. Nothing else changes. |
| `Firmware.Controller.SetOnBoardLed` | main/device.c:95-104 | Updates the cached LED state in place and logs the LED driver call, as `Device.SetOnBoardLed`. |
| `Firmware.Controller.SetPump` | main/device.c:110-119 | Updates the cached pump state in place and logs the relay call, as `Device.SetPump`. |
| `Firmware.Controller.HardwareUpdate` | main/device.c:54-71 | In-place `hardware_update`. The new state is `Device.HardwareUpdate` of the old one, and the queue bound is kept. |
| `Firmware.Controller.ButtonPress` | main/device.c:81-93 | In-place `push_btn_callback`. The new state is `Device.ButtonPress` of the old one. |
| `Firmware.Controller.SensorUpdate` | main/device.c:164-175 | In-place `sensor_update` for a given reading. The new state is `Device.SensorUpdate` of the old one. |
| `Firmware.Controller.RainMakerUpdate` | main/rainMaker.c:84-109 | In-place `rainMaker_update`. The new state is `RainMaker.RainMakerUpdate` of the old one. |
| `Firmware.Controller.ParamWrite` | main/rainMaker.c:138-160 | The branch on the parameter name shared by both callbacks. The new state and return code are `RainMaker.ParamWrite` of the old state. |
| `Firmware.Controller.LightSwitchWrite` | main/rainMaker.c:127-161 | In-place `light_sw_callback`. The new state and return code are `RainMaker.LightSwitchWrite` of the old state. |
| `Firmware.Controller.WaterPumpWrite` | main/rainMaker.c:186-218 | In-place `water_p_callback`. The new state and return code are `RainMaker.WaterPumpWrite` of the old state. |
| `Firmware.Controller.QueueProcessingStep` | main/main.c:29-41 | One iteration of `queue_processing` in place. The new state is `Dispatcher.QueueProcessingStep` of the old one. |
| `Firmware.Controller.QueueProcessing` | main/main.c:25-42 | A given number of loop iterations. The new state is `Dispatcher.QueueProcessing` of the old one. |

## Left out

- Concurrency: producers run in interrupt, timer and cloud-stack contexts. Here each runs to completion between dispatcher iterations, and the queue is treated as a sequential bounded FIFO.
- Timing: `DELAY(1000)` in the loop, the 100-tick receive timeout, the 20-second sensor timer period and the sensor settle delay are not modelled. A receive simply times out when the queue is empty.
- `flash_led` (main/main.c:15-23): an infinite blink loop in the workshop's first stage.
- Start-up order: `hardware_init` registers `push_btn_callback` (main/device.c:33) and, with the sensor built in, starts the sensor timer (main/device.c:228-231) before `event_queue` is created (main/main.c:104). A tap or timer tick in that window calls `xQueueSend` on a NULL handle, and as written `app_main` never gets past `flash_led()` (main/main.c:52), so every producer call happens in that window. The model assumes the queue exists, empty, before any producer runs (`Device.HardwareInit`, `Firmware.Controller.constructor`) and does not model sends to a missing queue.
- `queue_processing` runs `while (true)`. The model covers one iteration and any finite number of them.
- `get_sensor_reading` (main/device.c:144-162) returns `rand() % 20 + 60`, which makes the ADC sequence after it unreachable. Randomness and the ADC are external, so the reading enters `SensorUpdate` as an opaque value. `map_range` and its use on the ADC range are modelled and proved on their own (`AdcRescaleWithin`, `AdcMidScale`, `AdcReadFailureRescalesToZero`).
- Floating point: `data_sensor` and `current_temperature` are carried as opaque 32-bit patterns (`Float32`), and no float arithmetic is modelled. Converting the rescaled `int` to `float` is therefore not modelled.
- Peripheral configuration is not modelled: button registration, `ws2812_led_init`, `water_pump_init`'s GPIO setup, and `sensor_init`'s GPIO, ADC, calibration and timer creation. `sensor_init`'s `ESP_FAIL` return when the timer cannot be created is also left out. Only the cached state these functions set and the "driven to level L" effect are recorded.
- Wi-Fi, NVS and RainMaker bring-up are not modelled: `wifi_init`, `wifi_start`, `rainMaker_init`, `rainMaker_start`, and the `rm_add_*` device creation and attributes (main/rainMaker.c:16-82, 114-122, 163-177, 220-247). Their abort paths are fail-fast I/O.
- Cloud parameter handles: reports name a device and a parameter. A handle lookup that fails because a device was never registered is not modelled.
- Parameter names: rainMaker.h is not part of this model. `PARAM_NAME_ON_OFF`, `PARAM_NAME_LED` and `PARAM_NAME_PUMP` are taken to be RainMaker's default names "Power", "Brightness" and "Speed", and the sensor's temperature parameter is "Temperature".
- RainMaker.ParamWrite: requires that a Power write carry a boolean value. The callbacks read `value.val.b` without checking the type, relying on the RainMaker SDK to deliver a boolean for the power parameter.
- `sensor_set_led` and `sensor_set_pump` (main/device.c:177-189) are empty stubs with no behaviour.
- Logging: `ESP_LOGI` is not modelled. `ESP_LOGE` lines are counted in `errorsLogged`, which is a ghost field in the `Controller` class.
