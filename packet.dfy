/**
 * The event packet that producers place on the event queue and the
 * dispatcher routes (main/packet.h).
 */
module Packet {

  /** A C `uint8_t`: every value 0..255 can occur, named or not. */
  type byte = x: int | 0 <= x < 256

  // Direction of packet flow
  const EspToApp: byte := 0
  const AppToEsp: byte := 1

  // Device target
  const DeviceLed: byte := 0
  const DevicePump: byte := 1
  const DeviceSensor: byte := 2

  /** A C `float`, carried unchanged as its bit pattern; no floating-point arithmetic is modelled. */
  datatype Float32 = Float32(bits: bv32)

  /** The float `0.0`, which is what a designated initialiser leaves in an unnamed float member. */
  const FloatZero := Float32(0)

  /** `event_packet_t`: every payload member is present in every packet, whatever the device. */
  datatype EventPacket = EventPacket(
    direction: byte,
    device: byte,
    dataOnOff: byte,
    dataLightBrightness: byte,
    dataPumpSpeed: byte,
    dataSensor: Float32,
    isOnOff: bool)

  /**
   * A designated initialiser that names only `direction` and `device`:
   * every member it does not name is zero.
   */
  function Blank(direction: byte, device: byte): EventPacket
  {
    EventPacket(direction, device, 0, 0, 0, FloatZero, false)
  }

  /** C's conversion of a `bool` into a `uint8_t` member: 1 for true, 0 for false. */
  function BoolToByte(b: bool): (x: byte)
    ensures x <= 1
    ensures ByteToBool(x) == b
  {
    if b then 1 else 0
  }

  /** C's conversion of a `uint8_t` into a `bool` argument: any non-zero value is true. */
  function ByteToBool(x: byte): bool
  {
    x != 0
  }

  /** The two directions are distinct, and so are the three device tags. */
  lemma NamedTagsDistinct()
    ensures EspToApp == 0 && AppToEsp == 1 && EspToApp != AppToEsp
    ensures DeviceLed == 0 && DevicePump == 1 && DeviceSensor == 2
    ensures DeviceLed != DevicePump && DevicePump != DeviceSensor && DeviceLed != DeviceSensor
  {
  }

  /** A byte read back as a bool and written again keeps only whether it was non-zero. */
  lemma {:induction false} ByteRoundTrip(x: byte)
    ensures BoolToByte(ByteToBool(x)) == (if x == 0 then 0 else 1)
    ensures x <= 1 ==> BoolToByte(ByteToBool(x)) == x
  {
  }
}
