/**
 * One typed, register-backed value of a device (device/src/channel/mod.rs).
 *
 * The `Channel` record here carries the union of the fields the device crate, the relay and the
 * desktop client use: the revision of mod.rs that defines `new`, `Default` and `read_value` has
 * only id, value type, access type, value and index. A channel is a `Clone` value copied freely
 * between threads, so the `&mut self` operation `read_value` is modelled as a function that
 * returns the updated channel.
 */
module Channels {
  import opened Common
  import opened Float32
  import opened Alarms

  datatype ValueType = Int16 | Real32 | BoolType

  datatype AccessType = Read | Write

  /** The low and the high threshold alarm of a channel. */
  datatype ChannelAlarm = ChannelAlarm(low: Alarm, high: Alarm)

  datatype Channel = Channel(
    id: nat,
    deviceId: nat,
    tag: string,
    valueType: ValueType,
    accessType: AccessType,
    enabled: bool,
    index: u16,
    value: F32,
    status: string,
    alarm: ChannelAlarm)

  /** `Default for Channel`; the fields missing from that revision take their zero values. */
  function DefaultChannel(): (c: Channel)
    ensures c.id == 0 && c.valueType == BoolType && c.accessType == Read
    ensures c.value == Finite(0.0) && c.index == 0
    ensures c.deviceId == 0 && c.tag == "" && !c.enabled && c.status == ""
    ensures c.alarm == ChannelAlarm(DefaultAlarm(), DefaultAlarm())
  {
    Channel(0, 0, "", BoolType, Read, false, 0, Finite(0.0), "", ChannelAlarm(DefaultAlarm(), DefaultAlarm()))
  }

  /** `Channel::new`: the given id, types and index, value 0.0, everything else as `Default`. */
  function NewChannel(id: nat, valueType: ValueType, accessType: AccessType, index: u16): (c: Channel)
    ensures c.id == id && c.valueType == valueType && c.accessType == accessType && c.index == index
    ensures c.value == Finite(0.0)
    ensures c == DefaultChannel().(id := id, valueType := valueType, accessType := accessType, index := index)
  {
    DefaultChannel().(id := id, valueType := valueType, accessType := accessType, index := index)
  }

  /** The one read `read_value` issues on the device. */
  datatype ReadRequest = ReadInputRegisters(address: u16, count: nat) | ReadCoils(address: u16, count: nat)

  /** One input register for Int16, two for Real32, one coil for BoolType, at the channel's index. */
  function RequestFor(c: Channel): (q: ReadRequest)
    ensures q.address == c.index
    ensures q.ReadInputRegisters? <==> c.valueType != BoolType
    ensures q.count == (if c.valueType == Real32 then 2 else 1)
  {
    match c.valueType
    case Int16 => ReadInputRegisters(c.index, 1)
    case Real32 => ReadInputRegisters(c.index, 2)
    case BoolType => ReadCoils(c.index, 1)
  }

  /** What the device answered: a failed read, or the words or coil states asked for. */
  datatype Reply = ReadFailed | Registers(words: seq<u16>) | Coils(states: seq<bool>)

  /** The protocol client returns exactly the number of items requested, of the kind requested. */
  predicate Answers(reply: Reply, q: ReadRequest) {
    match reply
    case ReadFailed => true
    case Registers(words) => q.ReadInputRegisters? && |words| == q.count
    case Coils(states) => q.ReadCoils? && |states| == q.count
  }

  /**
   * `read_value` with the device's reply as input: Int16 takes the word as an unsigned magnitude,
   * Real32 reinterprets high word and low word as one binary32 pattern, and a coil decodes
   * INVERTED (asserted gives 0.0, clear gives 1.0). A failed read leaves the channel as it was.
   */
  function ReadValue(c: Channel, reply: Reply): (r: Channel)
    requires Answers(reply, RequestFor(c))
    ensures r == c.(value := r.value)
    ensures reply.ReadFailed? ==> r == c
    ensures c.valueType == Int16 && reply.Registers? ==> r.value == FromWord(reply.words[0])
    ensures c.valueType == Real32 && reply.Registers? ==>
              r.value == F32FromBits(Combine(reply.words[0], reply.words[1]))
    ensures c.valueType == BoolType && reply.Coils? ==>
              r.value == Finite(if reply.states[0] then 0.0 else 1.0)
  {
    match reply
    case ReadFailed => c
    case Registers(words) =>
      if c.valueType == Int16 then c.(value := FromWord(words[0]))
      else c.(value := F32FromBits(Combine(words[0], words[1])))
    case Coils(states) => c.(value := Finite(if states[0] then 0.0 else 1.0))
  }

  /** Reading the same reply again changes nothing more. */
  lemma ReadValueIdempotent(c: Channel, reply: Reply)
    requires Answers(reply, RequestFor(c))
    ensures ReadValue(ReadValue(c, reply), reply) == ReadValue(c, reply)
  {
  }

  /** An asserted coil reads as 0.0 and a clear one as 1.0, from any previous value. */
  lemma CoilInversion(c: Channel)
    requires c.valueType == BoolType
    ensures ReadValue(c, Coils([true])).value == Finite(0.0)
    ensures ReadValue(c, Coils([false])).value == Finite(1.0)
  {
  }
}
