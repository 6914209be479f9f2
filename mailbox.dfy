/**
 * The FreeRTOS queue `event_queue`, created with room for 50 packets
 * (main/main.c:104), seen as a bounded FIFO of packet values.
 */
module Mailbox {
  import opened Wrappers
  import opened Packet

  /** The length given to `xQueueCreate`. */
  const QueueCapacity: nat := 50

  /**
   * `xQueueSend(event_queue, &p, 0)`: with a zero timeout the call never
   * waits; it appends `p` when there is room and otherwise returns at once,
   * leaving the queue as it was.  The flag is the call's `pdTRUE` result.
   */
  function Send(q: seq<EventPacket>, p: EventPacket): (r: (seq<EventPacket>, bool))
    ensures r.1 <==> |q| < QueueCapacity
    ensures r.0 == (if r.1 then q + [p] else q)
    ensures |q| <= QueueCapacity ==> |r.0| <= QueueCapacity
  {
    if |q| < QueueCapacity then (q + [p], true) else (q, false)
  }

  /**
   * `xQueueReceive`: the oldest packet and the queue without it, or `None`
   * when the bounded wait ends with the queue still empty.
   */
  function Receive(q: seq<EventPacket>): (r: (Option<EventPacket>, seq<EventPacket>))
    ensures r.0.None? <==> q == []
    ensures r.0.Some? ==> q == [r.0.value] + r.1
    ensures r.0.None? ==> r.1 == q
  {
    if q == [] then (None, q) else (Some(q[0]), q[1..])
  }

  /** A packet sent to an empty queue is the next one received, and the queue is empty again. */
  lemma SendThenReceive(p: EventPacket)
    ensures Receive(Send([], p).0) == (Some(p), [])
  {
  }
}
