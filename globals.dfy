/**
 * The firmware's global state: the static variables of main/device.c, the
 * global `event_queue` of main/main.c, and the effects the core has on its
 * collaborators, recorded as logs (calls to the LED driver and the relay GPIO,
 * values reported to the RainMaker parameter store, error log lines).
 */
module Globals {
  import opened Packet
  import Mailbox

  /** One call into a hardware driver: the LED pixel set to a colour or cleared, or the relay line driven to a level. */
  datatype Actuation =
    | LedSetRgb(red: int, green: int, blue: int)
    | LedClear
    | RelaySetLevel(level: int)

  /** The RainMaker devices the node registers. */
  datatype CloudDevice = LightDevice | WaterPumpDevice | SensorDevice

  /** A RainMaker parameter, named within its device. */
  datatype CloudParam = CloudParam(device: CloudDevice, name: string)

  /** `esp_rmaker_param_val_t`: a tagged value of one of the kinds the core uses. */
  datatype ParamVal =
    | BoolVal(b: bool)
    | IntVal(i: int)
    | FloatVal(f: Float32)

  /** One `esp_rmaker_param_update_and_report` call. */
  datatype Report = Report(param: CloudParam, value: ParamVal)

  datatype GlobalState = GlobalState(
    led: bool,                     // current_led_state
    pump: bool,                    // current_pump_state
    temperature: Float32,          // current_temperature
    actuations: seq<Actuation>,    // driver calls, oldest first
    queue: seq<EventPacket>,       // event_queue, oldest first
    reports: seq<Report>,          // cloud reports, oldest first
    errorsLogged: nat)             // ESP_LOGE lines written by the core

  /** The queue never holds more packets than it was created for. */
  predicate Valid(s: GlobalState)
  {
    |s.queue| <= Mailbox.QueueCapacity
  }

  /** A producer's `xQueueSend(event_queue, &p, 0)`, whose result every producer ignores. */
  function Post(s: GlobalState, p: EventPacket): GlobalState
  {
    s.(queue := Mailbox.Send(s.queue, p).0)
  }
}
