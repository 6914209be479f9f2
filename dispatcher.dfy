/**
 * The consumer loop `queue_processing` (main/main.c): each iteration waits a
 * bounded time for one packet and routes it by direction, device-to-cloud
 * packets to the mirror and cloud-to-device packets to the registry.
 */
module Dispatcher {
  import opened Wrappers
  import opened Packet
  import opened Globals
  import Mailbox
  import Device
  import RainMaker

  /** Where a packet goes: it depends on the packet's direction alone. */
  datatype Route = ToCloud | ToHardware | Ignored

  /** Exactly the two named directions have a handler; every other byte is ignored. */
  function RouteOf(direction: byte): (r: Route)
    ensures r == ToCloud <==> direction == EspToApp
    ensures r == ToHardware <==> direction == AppToEsp
    ensures r == Ignored <==> direction != EspToApp && direction != AppToEsp
  {
    if direction == EspToApp then ToCloud
    else if direction == AppToEsp then ToHardware
    else Ignored
  }

  /** The body of the `if` on a received packet. */
  function Deliver(s: GlobalState, p: EventPacket): GlobalState
  {
    match RouteOf(p.direction)
    case ToCloud => RainMaker.RainMakerUpdate(s, p)
    case ToHardware => Device.HardwareUpdate(s, p)
    case Ignored => s
  }

  /**
   * Every packet carries all payload members, but delivery reads only the
   * direction, the device, the on-off byte and the sensor reading: the
   * brightness, speed and `is_on_off` members never change the outcome.
   */
  lemma {:induction false} DeliverIgnoresUnusedPayload(s: GlobalState, p: EventPacket, q: EventPacket)
    requires p.direction == q.direction && p.device == q.device
    requires p.dataOnOff == q.dataOnOff && p.dataSensor == q.dataSensor
    ensures Deliver(s, p) == Deliver(s, q)
  {
    match RouteOf(p.direction)
    case ToCloud =>
      assert RainMaker.MirrorReport(p) == RainMaker.MirrorReport(q);
    case ToHardware =>
    case Ignored =>
  }

  /** One iteration of the loop: receive at most one packet and route it; on a timeout nothing happens. */
  function QueueProcessingStep(s: GlobalState): GlobalState
  {
    var (got, rest) := Mailbox.Receive(s.queue);
    match got
    case None => s
    case Some(p) => Deliver(s.(queue := rest), p)
  }

  /** `iterations` turns of the loop with no producer running in between. */
  function QueueProcessing(s: GlobalState, iterations: nat): GlobalState
    decreases iterations
  {
    if iterations == 0 then s else QueueProcessing(QueueProcessingStep(s), iterations - 1)
  }

  /** A timeout on an empty queue changes nothing, and the loop goes on. */
  lemma {:induction false} StepOnTimeout(s: GlobalState)
    requires s.queue == []
    ensures QueueProcessingStep(s) == s
  {
  }

  /** An iteration on a non-empty queue removes exactly its oldest packet. */
  lemma {:induction false} StepConsumesOne(s: GlobalState)
    requires s.queue != []
    ensures QueueProcessingStep(s).queue == s.queue[1..]
    ensures Valid(s) ==> Valid(QueueProcessingStep(s))
  {
  }

  /** An `ESP_TO_APP` packet goes only to the mirror: device state, the actuations and the error log are untouched. */
  lemma {:induction false} StepEspToApp(s: GlobalState)
    requires s.queue != [] && s.queue[0].direction == EspToApp
    ensures QueueProcessingStep(s) == RainMaker.RainMakerUpdate(s.(queue := s.queue[1..]), s.queue[0])
    ensures var t := QueueProcessingStep(s);
      && t.led == s.led && t.pump == s.pump && t.temperature == s.temperature
      && t.actuations == s.actuations && t.errorsLogged == s.errorsLogged
  {
    RainMaker.RainMakerUpdateFrame(s.(queue := s.queue[1..]), s.queue[0]);
  }

  /** An `APP_TO_ESP` packet goes only to the registry and produces no cloud report. */
  lemma {:induction false} StepAppToEsp(s: GlobalState)
    requires s.queue != [] && s.queue[0].direction == AppToEsp
    ensures QueueProcessingStep(s) == Device.HardwareUpdate(s.(queue := s.queue[1..]), s.queue[0])
    ensures QueueProcessingStep(s).reports == s.reports
  {
  }

  /** A packet of any other direction is consumed and nothing else happens. */
  lemma {:induction false} StepIgnored(s: GlobalState)
    requires s.queue != [] && s.queue[0].direction != EspToApp && s.queue[0].direction != AppToEsp
    ensures QueueProcessingStep(s) == s.(queue := s.queue[1..])
  {
  }

  /** Left to itself, the loop consumes the queue from the front, one packet per iteration, and keeps the bound. */
  lemma {:induction false} QueueProcessingDrains(s: GlobalState, iterations: nat)
    ensures var t := QueueProcessing(s, iterations);
      && t.queue == s.queue[if iterations < |s.queue| then iterations else |s.queue|..]
      && (Valid(s) ==> Valid(t))
      && t.temperature == s.temperature
    decreases iterations
  {
    if iterations > 0 {
      var t := QueueProcessingStep(s);
      if s.queue == [] {
        StepOnTimeout(s);
      } else {
        StepConsumesOne(s);
      }
      QueueProcessingDrains(t, iterations - 1);
      if s.queue != [] {
        assert s.queue[1..][if iterations - 1 < |t.queue| then iterations - 1 else |t.queue|..]
          == s.queue[if iterations < |s.queue| then iterations else |s.queue|..];
      }
    }
  }

  /**
   * Starting with the LED off, a cloud-to-device packet turning the LED on
   * is dispatched in one iteration, after which the LED is on and driven lit.
   */
  lemma LedOnScenario(s: GlobalState)
    requires !s.led && s.queue == [RainMaker.OnOffPacket(DeviceLed, true)]
    ensures var t := QueueProcessingStep(s);
      && t.led && t.queue == [] && t.reports == s.reports
      && t.actuations == s.actuations + [Device.LedOutput(true)]
  {
  }

  /**
   * A cloud-to-device packet for device 99 is consumed with no change of
   * device state and one error line, and the next packet is processed by the
   * following iteration.
   */
  lemma UnknownDeviceScenario(s: GlobalState, next: EventPacket)
    requires s.queue == [Blank(AppToEsp, 99), next]
    ensures var t := QueueProcessingStep(s);
      && t == s.(queue := [next], errorsLogged := s.errorsLogged + 1)
      && QueueProcessingStep(t) == Deliver(t.(queue := []), next)
  {
  }
}
