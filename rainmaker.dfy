/**
 * The cloud side (main/rainMaker.c): the mirror that reports device-side
 * packets to the RainMaker parameter store, and the write callbacks that turn
 * parameter writes from the cloud into packets for the device side.
 */
module RainMaker {
  import opened Wrappers
  import opened Packet
  import opened Globals
  import Mailbox

  // RainMaker's default parameter names for the power, brightness, speed and
  // temperature parameters (the macros PARAM_NAME_ON_OFF, PARAM_NAME_LED and
  // PARAM_NAME_PUMP stand for the first three)
  const ParamPower := "Power"
  const ParamBrightness := "Brightness"
  const ParamSpeed := "Speed"
  const ParamTemperature := "Temperature"

  /** `ESP_OK`, the only code the write callbacks return. */
  const EspOk := 0

  /**
   * The report `rainMaker_update` makes for a packet: the light's power
   * parameter for an LED packet, the sensor's temperature parameter for a
   * sensor packet, and nothing for the pump or an unnamed device tag.
   */
  function MirrorReport(p: EventPacket): Option<Report>
  {
    if p.device == DeviceLed then
      Some(Report(CloudParam(LightDevice, ParamPower), BoolVal(ByteToBool(p.dataOnOff))))
    else if p.device == DeviceSensor then
      Some(Report(CloudParam(SensorDevice, ParamTemperature), FloatVal(p.dataSensor)))
    else
      None
  }

  /** `rainMaker_update`: make the packet's report, if it has one. */
  function RainMakerUpdate(s: GlobalState, p: EventPacket): GlobalState
  {
    match MirrorReport(p)
    case None => s
    case Some(r) => s.(reports := s.reports + [r])
  }

  /** An LED packet produces exactly one report: the light's power, set to the packet's on-off byte read as a bool. */
  lemma {:induction false} RainMakerUpdateLed(s: GlobalState, p: EventPacket)
    requires p.device == DeviceLed
    ensures RainMakerUpdate(s, p)
      == s.(reports := s.reports + [Report(CloudParam(LightDevice, ParamPower), BoolVal(p.dataOnOff != 0))])
  {
  }

  /** A sensor packet produces exactly one report: the sensor's temperature, set to the packet's reading. */
  lemma {:induction false} RainMakerUpdateSensor(s: GlobalState, p: EventPacket)
    requires p.device == DeviceSensor
    ensures RainMakerUpdate(s, p)
      == s.(reports := s.reports + [Report(CloudParam(SensorDevice, ParamTemperature), FloatVal(p.dataSensor))])
  {
  }

  /** A pump packet or one with an unnamed device tag produces no report and changes nothing. */
  lemma {:induction false} RainMakerUpdateOther(s: GlobalState, p: EventPacket)
    requires p.device != DeviceLed && p.device != DeviceSensor
    ensures RainMakerUpdate(s, p) == s
  {
  }

  /** The mirror never touches device state, the queue or the error log, and adds at most one report. */
  lemma {:induction false} RainMakerUpdateFrame(s: GlobalState, p: EventPacket)
    ensures var t := RainMakerUpdate(s, p);
      && t == s.(reports := t.reports)
      && s.reports <= t.reports && |t.reports| <= |s.reports| + 1
  {
  }

  /** A power write carries a boolean value: the callbacks read its boolean member. */
  predicate ValueFits(name: string, value: ParamVal)
  {
    name == ParamPower ==> value.BoolVal?
  }

  /** The `APP_TO_ESP` packet a power write asks the device side to apply. */
  function OnOffPacket(deviceTag: byte, on: bool): EventPacket
  {
    Blank(AppToEsp, deviceTag).(dataOnOff := BoolToByte(on))
  }

  /** `esp_rmaker_param_update_and_report(param_label, value)`: acknowledge a write by echoing it. */
  function Echo(s: GlobalState, device: CloudDevice, name: string, value: ParamVal): GlobalState
  {
    s.(reports := s.reports + [Report(CloudParam(device, name), value)])
  }

  /**
   * The shape shared by `light_sw_callback` and `water_p_callback`: a power
   * write is forwarded to the device side and echoed; a write of the device's
   * level parameter is only echoed; any other name writes an error line and is
   * ignored.  Every path returns `ESP_OK`.
   */
  function ParamWrite(s: GlobalState, device: CloudDevice, deviceTag: byte, levelName: string,
                      name: string, value: ParamVal): (GlobalState, int)
    requires ValueFits(name, value)
  {
    if name == ParamPower then
      (Echo(Post(s, OnOffPacket(deviceTag, value.b)), device, name, value), EspOk)
    else if name == levelName then
      (Echo(s, device, name, value), EspOk)
    else
      (s.(errorsLogged := s.errorsLogged + 1), EspOk)
  }

  /** `light_sw_callback`. */
  function LightSwitchWrite(s: GlobalState, name: string, value: ParamVal): (GlobalState, int)
    requires ValueFits(name, value)
  {
    ParamWrite(s, LightDevice, DeviceLed, ParamBrightness, name, value)
  }

  /** `water_p_callback`. */
  function WaterPumpWrite(s: GlobalState, name: string, value: ParamVal): (GlobalState, int)
    requires ValueFits(name, value)
  {
    ParamWrite(s, WaterPumpDevice, DevicePump, ParamSpeed, name, value)
  }

  /**
   * A power write to the light attempts exactly one send of an
   * `APP_TO_ESP`/`DEVICE_LED` packet whose on-off byte reads back as the
   * written value, then echoes the write once.  Device state is not touched.
   */
  lemma {:induction false} LightSwitchWritePower(s: GlobalState, on: bool)
    ensures var (t, rc) := LightSwitchWrite(s, ParamPower, BoolVal(on));
      var p := OnOffPacket(DeviceLed, on);
      && rc == EspOk
      && p.direction == AppToEsp && p.device == DeviceLed && ByteToBool(p.dataOnOff) == on
      && t.queue == Mailbox.Send(s.queue, p).0
      && t.reports == s.reports + [Report(CloudParam(LightDevice, ParamPower), BoolVal(on))]
      && t == s.(queue := t.queue, reports := t.reports)
  {
  }

  /** A brightness write to the light enqueues nothing but is still echoed once. */
  lemma {:induction false} LightSwitchWriteBrightness(s: GlobalState, value: ParamVal)
    ensures var (t, rc) := LightSwitchWrite(s, ParamBrightness, value);
      && rc == EspOk
      && t == s.(reports := s.reports + [Report(CloudParam(LightDevice, ParamBrightness), value)])
  {
  }

  /** A power write to the pump attempts exactly one send of an `APP_TO_ESP`/`DEVICE_PUMP` packet, then echoes once. */
  lemma {:induction false} WaterPumpWritePower(s: GlobalState, on: bool)
    ensures var (t, rc) := WaterPumpWrite(s, ParamPower, BoolVal(on));
      var p := OnOffPacket(DevicePump, on);
      && rc == EspOk
      && p.direction == AppToEsp && p.device == DevicePump && ByteToBool(p.dataOnOff) == on
      && t.queue == Mailbox.Send(s.queue, p).0
      && t.reports == s.reports + [Report(CloudParam(WaterPumpDevice, ParamPower), BoolVal(on))]
      && t == s.(queue := t.queue, reports := t.reports)
  {
  }

  /** A speed write to the pump enqueues nothing but is still echoed once. */
  lemma {:induction false} WaterPumpWriteSpeed(s: GlobalState, value: ParamVal)
    ensures var (t, rc) := WaterPumpWrite(s, ParamSpeed, value);
      && rc == EspOk
      && t == s.(reports := s.reports + [Report(CloudParam(WaterPumpDevice, ParamSpeed), value)])
  {
  }

  /** A write of a name the device does not know is neither forwarded nor echoed; it writes one error line and returns `ESP_OK`. */
  lemma {:induction false} UnknownParamIgnored(s: GlobalState, name: string, value: ParamVal)
    requires name != ParamPower && name != ParamBrightness && name != ParamSpeed
    ensures LightSwitchWrite(s, name, value) == (s.(errorsLogged := s.errorsLogged + 1), EspOk)
    ensures WaterPumpWrite(s, name, value) == (s.(errorsLogged := s.errorsLogged + 1), EspOk)
  {
  }

  /** The speed name is unknown to the light and the brightness name to the pump. */
  lemma {:induction false} LevelNamesAreDeviceSpecific(s: GlobalState, value: ParamVal)
    ensures LightSwitchWrite(s, ParamSpeed, value) == (s.(errorsLogged := s.errorsLogged + 1), EspOk)
    ensures WaterPumpWrite(s, ParamBrightness, value) == (s.(errorsLogged := s.errorsLogged + 1), EspOk)
  {
  }
}
