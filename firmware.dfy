/**
 * The firmware's globals updated in place, as the C code does: one object
 * holds the static variables of main/device.c, the global `event_queue` and
 * the logs of driver calls, cloud reports and error lines.  Each method does
 * what its C function does to them, and its postcondition ties the new state
 * to the pure model of that function.
 */
module Firmware {
  import opened Wrappers
  import opened Packet
  import opened Globals
  import Mailbox
  import Device
  import RainMaker
  import Dispatcher

  class Controller {
    var led: bool                   // current_led_state
    var pump: bool                  // current_pump_state
    var temperature: Float32        // current_temperature
    var actuations: seq<Actuation>  // calls into the LED driver and the relay GPIO
    var queue: seq<EventPacket>     // event_queue
    var reports: seq<Report>        // esp_rmaker_param_update_and_report calls
    ghost var errorsLogged: nat     // ESP_LOGE lines

    ghost function State(): GlobalState
      reads this
    {
      GlobalState(led, pump, temperature, actuations, queue, reports, errorsLogged)
    }

    ghost predicate Valid()
      reads this
    {
      Globals.Valid(State())
    }

    /** Static initialisation, `hardware_init`, and the creation of the empty queue. */
    constructor (initialOnOff: bool, initialReading: Float32, sensorEnabled: bool)
      ensures Valid()
      ensures State() == Device.HardwareInit(initialOnOff, initialReading, sensorEnabled)
    {
      led, pump, temperature := false, false, FloatZero;
      actuations, queue, reports := [], [], [];
      errorsLogged := 0;
      new;
      SetOnBoardLed(initialOnOff);
      if sensorEnabled {
        temperature := initialReading;
      }
    }

    /** `xQueueSend(event_queue, &p, 0)`. */
    method TrySend(p: EventPacket) returns (sent: bool)
      requires Valid()
      modifies this
      ensures Valid()
      ensures (queue, sent) == Mailbox.Send(old(queue), p)
      ensures State() == old(State()).(queue := queue)
    {
      sent := |queue| < Mailbox.QueueCapacity;
      if sent {
        queue := queue + [p];
      }
    }

    /** `xQueueReceive(event_queue, &event, 100)`. */
    method Receive() returns (got: Option<EventPacket>)
      requires Valid()
      modifies this
      ensures Valid()
      ensures (got, queue) == Mailbox.Receive(old(queue))
      ensures State() == old(State()).(queue := queue)
    {
      if queue == [] {
        got := None;
      } else {
        got := Some(queue[0]);
        queue := queue[1..];
      }
    }

    /** `set_onBoard_led`. */
    method SetOnBoardLed(on: bool)
      modifies this
      ensures State() == Device.SetOnBoardLed(old(State()), on)
    {
      led := on;
      actuations := actuations + [Device.LedOutput(on)];
    }

    /** `set_pump`. */
    method SetPump(on: bool)
      modifies this
      ensures State() == Device.SetPump(old(State()), on)
    {
      pump := on;
      actuations := actuations + [Device.RelayOutput(on)];
    }

    /** `hardware_update`. */
    method HardwareUpdate(p: EventPacket)
      requires Valid()
      modifies this
      ensures Valid()
      ensures State() == Device.HardwareUpdate(old(State()), p)
    {
      if p.device == DeviceLed {
        SetOnBoardLed(ByteToBool(p.dataOnOff));
      } else if p.device == DevicePump {
        SetPump(ByteToBool(p.dataOnOff));
      } else if p.device == DeviceSensor {
        // Do nothing
      } else {
        errorsLogged := errorsLogged + 1;
      }
    }

    /** `push_btn_callback`. */
    method ButtonPress()
      requires Valid()
      modifies this
      ensures Valid()
      ensures State() == Device.ButtonPress(old(State()))
    {
      SetOnBoardLed(!led);
      var _ := TrySend(Device.ButtonPacket(led));
    }

    /** `sensor_update`, given the reading `get_sensor_reading` returned. */
    method SensorUpdate(reading: Float32)
      requires Valid()
      modifies this
      ensures Valid()
      ensures State() == Device.SensorUpdate(old(State()), reading)
    {
      var _ := TrySend(Device.SensorPacket(reading));
    }

    /** `rainMaker_update`. */
    method RainMakerUpdate(p: EventPacket)
      requires Valid()
      modifies this
      ensures Valid()
      ensures State() == RainMaker.RainMakerUpdate(old(State()), p)
    {
      if p.device == DeviceLed {
        reports := reports + [Report(CloudParam(LightDevice, RainMaker.ParamPower), BoolVal(ByteToBool(p.dataOnOff)))];
      } else if p.device == DevicePump {
        // fallthrough for now
      } else if p.device == DeviceSensor {
        reports := reports + [Report(CloudParam(SensorDevice, RainMaker.ParamTemperature), FloatVal(p.dataSensor))];
      }
    }

    /** The body shared by the two write callbacks. */
    method ParamWrite(device: CloudDevice, deviceTag: byte, levelName: string, name: string, value: ParamVal)
      returns (rc: int)
      requires Valid() && RainMaker.ValueFits(name, value)
      modifies this
      ensures Valid()
      ensures (State(), rc) == RainMaker.ParamWrite(old(State()), device, deviceTag, levelName, name, value)
    {
      if name == RainMaker.ParamPower {
        var _ := TrySend(RainMaker.OnOffPacket(deviceTag, value.b));
      } else if name == levelName {
        // the level is echoed but not forwarded
      } else {
        errorsLogged := errorsLogged + 1;
        return RainMaker.EspOk;
      }
      reports := reports + [Report(CloudParam(device, name), value)];
      rc := RainMaker.EspOk;
    }

    /** `light_sw_callback`. */
    method LightSwitchWrite(name: string, value: ParamVal) returns (rc: int)
      requires Valid() && RainMaker.ValueFits(name, value)
      modifies this
      ensures Valid()
      ensures (State(), rc) == RainMaker.LightSwitchWrite(old(State()), name, value)
    {
      rc := ParamWrite(LightDevice, DeviceLed, RainMaker.ParamBrightness, name, value);
    }

    /** `water_p_callback`. */
    method WaterPumpWrite(name: string, value: ParamVal) returns (rc: int)
      requires Valid() && RainMaker.ValueFits(name, value)
      modifies this
      ensures Valid()
      ensures (State(), rc) == RainMaker.WaterPumpWrite(old(State()), name, value)
    {
      rc := ParamWrite(WaterPumpDevice, DevicePump, RainMaker.ParamSpeed, name, value);
    }

    /** One iteration of `queue_processing`. */
    method QueueProcessingStep()
      requires Valid()
      modifies this
      ensures Valid()
      ensures State() == Dispatcher.QueueProcessingStep(old(State()))
    {
      var got := Receive();
      if got.Some? {
        var event := got.value;
        if event.direction == EspToApp {
          RainMakerUpdate(event);
        } else if event.direction == AppToEsp {
          HardwareUpdate(event);
        }
      }
    }

    /** `queue_processing`, run for a given number of iterations. */
    method QueueProcessing(iterations: nat)
      requires Valid()
      modifies this
      ensures Valid()
      ensures State() == Dispatcher.QueueProcessing(old(State()), iterations)
    {
      var i := 0;
      while i < iterations
        invariant 0 <= i <= iterations
        invariant Valid()
        invariant Dispatcher.QueueProcessing(State(), iterations - i) == Dispatcher.QueueProcessing(old(State()), iterations)
      {
        QueueProcessingStep();
        i := i + 1;
      }
    }
  }
}
