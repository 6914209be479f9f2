/**
 * The whole node as one sequential trace: the button callback, the sensor
 * timer, the two cloud write callbacks and the dispatcher's iterations, in
 * any order.  The real producers run in interrupt, timer and cloud-stack
 * contexts; here each runs to completion before the next begins, and the
 * queue is the only state they share with the consumer.
 */
module System {
  import opened Wrappers
  import opened Packet
  import opened Globals
  import Mailbox
  import Device
  import RainMaker
  import Dispatcher

  datatype Event =
    | ButtonTap
    | SensorTimer(reading: Float32)
    | LightParamWrite(name: string, value: ParamVal)
    | PumpParamWrite(name: string, value: ParamVal)
    | DispatchTick

  /** What the cloud layer guarantees its callbacks: a power write carries a boolean. */
  predicate WellFormed(e: Event)
  {
    (e.LightParamWrite? || e.PumpParamWrite?) ==> RainMaker.ValueFits(e.name, e.value)
  }

  predicate AllWellFormed(es: seq<Event>)
  {
    forall i | 0 <= i < |es| :: WellFormed(es[i])
  }

  function Step(s: GlobalState, e: Event): GlobalState
    requires WellFormed(e)
  {
    match e
    case ButtonTap => Device.ButtonPress(s)
    case SensorTimer(reading) => Device.SensorUpdate(s, reading)
    case LightParamWrite(name, value) => RainMaker.LightSwitchWrite(s, name, value).0
    case PumpParamWrite(name, value) => RainMaker.WaterPumpWrite(s, name, value).0
    case DispatchTick => Dispatcher.QueueProcessingStep(s)
  }

  function Run(s: GlobalState, es: seq<Event>): GlobalState
    requires AllWellFormed(es)
    decreases |es|
  {
    if es == [] then s else Run(Step(s, es[0]), es[1..])
  }

  /** The packet an event's producer hands to `xQueueSend`, if it sends one. */
  function Offered(s: GlobalState, e: Event): Option<EventPacket>
    requires WellFormed(e)
  {
    match e
    case ButtonTap => Some(Device.ButtonPacket(!s.led))
    case SensorTimer(reading) => Some(Device.SensorPacket(reading))
    case LightParamWrite(name, value) =>
      if name == RainMaker.ParamPower then Some(RainMaker.OnOffPacket(DeviceLed, value.b)) else None
    case PumpParamWrite(name, value) =>
      if name == RainMaker.ParamPower then Some(RainMaker.OnOffPacket(DevicePump, value.b)) else None
    case DispatchTick => None
  }

  /** The packet an event puts on the queue: the offered one, unless the queue is full. */
  function Accepted(s: GlobalState, e: Event): seq<EventPacket>
    requires WellFormed(e)
  {
    match Offered(s, e)
    case None => []
    case Some(p) => if |s.queue| < Mailbox.QueueCapacity then [p] else []
  }

  /** The packet an event takes off the queue. */
  function Delivered(s: GlobalState, e: Event): seq<EventPacket>
  {
    if e.DispatchTick? && s.queue != [] then [s.queue[0]] else []
  }

  function AcceptedRun(s: GlobalState, es: seq<Event>): seq<EventPacket>
    requires AllWellFormed(es)
    decreases |es|
  {
    if es == [] then [] else Accepted(s, es[0]) + AcceptedRun(Step(s, es[0]), es[1..])
  }

  function DeliveredRun(s: GlobalState, es: seq<Event>): seq<EventPacket>
    requires AllWellFormed(es)
    decreases |es|
  {
    if es == [] then [] else Delivered(s, es[0]) + DeliveredRun(Step(s, es[0]), es[1..])
  }

  /**
   * One event moves the queue as a FIFO: what was queued plus what the event
   * accepted equals what it delivered plus what is queued now.  The bound on
   * the queue is kept, and a refused send leaves the queue as it was.
   */
  lemma {:induction false} StepMovesQueue(s: GlobalState, e: Event)
    requires WellFormed(e)
    ensures s.queue + Accepted(s, e) == Delivered(s, e) + Step(s, e).queue
    ensures Valid(s) ==> Valid(Step(s, e))
    ensures Offered(s, e).Some? && |s.queue| >= Mailbox.QueueCapacity ==> Step(s, e).queue == s.queue
  {
    match e
    case DispatchTick =>
      if s.queue == [] {
        Dispatcher.StepOnTimeout(s);
      } else {
        Dispatcher.StepConsumesOne(s);
        assert s.queue == [s.queue[0]] + s.queue[1..];
      }
    case _ =>
  }

  lemma {:induction false} TailWellFormed(es: seq<Event>)
    requires es != [] && AllWellFormed(es)
    ensures WellFormed(es[0]) && AllWellFormed(es[1..])
  {
    forall i | 0 <= i < |es[1..]| ensures WellFormed(es[1..][i]) {
      assert es[1..][i] == es[i + 1];
    }
  }

  /** Whatever the interleaving, the queue never holds more than 50 packets. */
  lemma {:induction false} RunKeepsQueueBound(s: GlobalState, es: seq<Event>)
    requires AllWellFormed(es) && Valid(s)
    ensures Valid(Run(s, es))
    decreases |es|
  {
    if es != [] {
      TailWellFormed(es);
      StepMovesQueue(s, es[0]);
      RunKeepsQueueBound(Step(s, es[0]), es[1..]);
    }
  }

  /**
   * FIFO over a whole trace: the packets queued at the start followed by every
   * packet accepted equal every packet delivered followed by what is left.
   */
  lemma {:induction false} RunIsFifo(s: GlobalState, es: seq<Event>)
    requires AllWellFormed(es)
    ensures s.queue + AcceptedRun(s, es) == DeliveredRun(s, es) + Run(s, es).queue
    decreases |es|
  {
    if es != [] {
      TailWellFormed(es);
      var e, rest := es[0], es[1..];
      var t := Step(s, e);
      StepMovesQueue(s, e);
      RunIsFifo(t, rest);
      assert AcceptedRun(s, es) == Accepted(s, e) + AcceptedRun(t, rest);
      assert DeliveredRun(s, es) == Delivered(s, e) + DeliveredRun(t, rest);
      assert Run(s, es) == Run(t, rest);
      Regroup(s.queue, Accepted(s, e), Delivered(s, e), t.queue,
              AcceptedRun(t, rest), DeliveredRun(t, rest), Run(t, rest).queue);
    }
  }

  /** Two FIFO steps compose into one. */
  lemma Regroup<T>(q0: seq<T>, a0: seq<T>, d0: seq<T>, q1: seq<T>, a1: seq<T>, d1: seq<T>, q2: seq<T>)
    requires q0 + a0 == d0 + q1 && q1 + a1 == d1 + q2
    ensures q0 + (a0 + a1) == (d0 + d1) + q2
  {
    calc {
      q0 + (a0 + a1);
      (q0 + a0) + a1;
      (d0 + q1) + a1;
      d0 + (q1 + a1);
      d0 + (d1 + q2);
    }
  }

  /** Packets are delivered in the order they were queued and accepted: the delivered ones are a prefix. */
  lemma {:induction false} RunDeliversInOrder(s: GlobalState, es: seq<Event>)
    requires AllWellFormed(es)
    ensures DeliveredRun(s, es) <= s.queue + AcceptedRun(s, es)
    ensures |DeliveredRun(s, es)| + |Run(s, es).queue| == |s.queue| + |AcceptedRun(s, es)|
  {
    RunIsFifo(s, es);
    var d, rest := DeliveredRun(s, es), Run(s, es).queue;
    assert (d + rest)[..|d|] == d;
  }

  /** The cached temperature keeps the value `sensor_init` gave it: no event ever writes it. */
  lemma {:induction false} RunKeepsTemperature(s: GlobalState, es: seq<Event>)
    requires AllWellFormed(es)
    ensures Run(s, es).temperature == s.temperature
    decreases |es|
  {
    if es != [] {
      TailWellFormed(es);
      var e := es[0];
      RunKeepsTemperature(Step(s, e), es[1..]);
    }
  }

  /** A producer event changes neither the pump's cached state nor the relay calls made so far. */
  lemma {:induction false} ProducerKeepsPump(s: GlobalState, e: Event)
    requires WellFormed(e) && !e.DispatchTick?
    ensures Step(s, e).pump == s.pump
    ensures RelaySets(Step(s, e).actuations) == RelaySets(s.actuations)
  {
    if e.ButtonTap? {
      RelaySetsAppend(s.actuations, [Device.LedOutput(!s.led)]);
      assert RelaySets([Device.LedOutput(!s.led)]) == [];
    }
  }

  /** Until the dispatcher runs, producers change neither the pump's cached state nor its relay. */
  lemma {:induction false} PumpChangesOnlyByDispatch(s: GlobalState, es: seq<Event>)
    requires AllWellFormed(es)
    requires forall i | 0 <= i < |es| :: !es[i].DispatchTick?
    ensures Run(s, es).pump == s.pump
    ensures RelaySets(Run(s, es).actuations) == RelaySets(s.actuations)
    decreases |es|
  {
    if es != [] {
      TailWellFormed(es);
      ProducerKeepsPump(s, es[0]);
      forall i | 0 <= i < |es[1..]| ensures !es[1..][i].DispatchTick? {
        assert es[1..][i] == es[i + 1];
      }
      PumpChangesOnlyByDispatch(Step(s, es[0]), es[1..]);
    }
  }

  /** The relay calls in an actuation log, oldest first. */
  function RelaySets(log: seq<Actuation>): seq<Actuation>
    decreases |log|
  {
    if log == [] then []
    else (if log[0].RelaySetLevel? then [log[0]] else []) + RelaySets(log[1..])
  }

  lemma {:induction false} RelaySetsAppend(a: seq<Actuation>, b: seq<Actuation>)
    ensures RelaySets(a + b) == RelaySets(a) + RelaySets(b)
    decreases |a|
  {
    if a != [] {
      assert (a + b)[1..] == a[1..] + b;
      RelaySetsAppend(a[1..], b);
    } else {
      assert a + b == b;
    }
  }

  /**
   * End to end: with room in an empty queue, a power write from the cloud
   * followed by one dispatcher iteration leaves the LED in the written state
   * and driven accordingly, with the write echoed once.
   */
  lemma {:induction false} CloudPowerWriteReachesLed(s: GlobalState, on: bool)
    requires s.queue == []
    ensures var t := Run(s, [LightParamWrite(RainMaker.ParamPower, BoolVal(on)), DispatchTick]);
      && t.led == on && t.pump == s.pump && t.queue == []
      && t.actuations == s.actuations + [Device.LedOutput(on)]
      && t.reports == s.reports + [Report(CloudParam(LightDevice, RainMaker.ParamPower), BoolVal(on))]
  {
    var es := [LightParamWrite(RainMaker.ParamPower, BoolVal(on)), DispatchTick];
    assert AllWellFormed(es);
    var a := Step(s, es[0]);
    RainMaker.LightSwitchWritePower(s, on);
    assert a.queue == [RainMaker.OnOffPacket(DeviceLed, on)];
    Dispatcher.StepAppToEsp(a);
    Device.HardwareUpdateLed(a.(queue := []), RainMaker.OnOffPacket(DeviceLed, on));
    assert es[1..] == [DispatchTick] && es[1..][1..] == [];
    assert Run(s, es) == Run(a, [DispatchTick]) == Step(a, DispatchTick);
  }

  /**
   * End to end: with room in an empty queue, a button press followed by one
   * dispatcher iteration reports the new LED state to the light's power parameter.
   */
  lemma {:induction false} ButtonPressReachesCloud(s: GlobalState)
    requires s.queue == []
    ensures var t := Run(s, [ButtonTap, DispatchTick]);
      && t.led == !s.led && t.queue == []
      && t.reports == s.reports + [Report(CloudParam(LightDevice, RainMaker.ParamPower), BoolVal(!s.led))]
  {
    var es := [ButtonTap, DispatchTick];
    var a := Step(s, es[0]);
    Device.ButtonPressToggles(s);
    assert a.queue == [Device.ButtonPacket(!s.led)];
    Dispatcher.StepEspToApp(a);
    RainMaker.RainMakerUpdateLed(a.(queue := []), Device.ButtonPacket(!s.led));
    assert es[1..][1..] == [];
  }
}
