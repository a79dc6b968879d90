/**
 * What a logging job records (device/src/calculation/mod.rs, device/src/logger_channel.rs):
 * a device channel or a computed value.
 */
module LoggerChannels {
  import opened Float32
  import opened Channels

  datatype Calculation = Calculation(id: nat, value: F32, tag: string)

  /** The derived `Default for Calculation`. */
  function DefaultCalculation(): (c: Calculation)
    ensures c.id == 0 && c.value == Finite(0.0) && c.tag == ""
  {
    Calculation(0, Finite(0.0), "")
  }

  /** `LoggerChannel::Channel` and `LoggerChannel::Calculation`. */
  datatype LoggerChannel = ChannelEntry(channel: Channel) | CalculationEntry(calculation: Calculation)

  /** The id an entry carries, whichever namespace it belongs to. */
  function EntryId(e: LoggerChannel): (id: nat)
    ensures e.ChannelEntry? ==> id == e.channel.id
    ensures e.CalculationEntry? ==> id == e.calculation.id
  {
    match e
    case ChannelEntry(c) => c.id
    case CalculationEntry(c) => c.id
  }

  function EntryIds(es: seq<LoggerChannel>): (ids: seq<nat>)
    ensures |ids| == |es| && forall k :: 0 <= k < |es| ==> ids[k] == EntryId(es[k])
  {
    seq(|es|, k requires 0 <= k < |es| => EntryId(es[k]))
  }

  lemma EntryIdsAppend(a: seq<LoggerChannel>, b: seq<LoggerChannel>)
    ensures EntryIds(a + b) == EntryIds(a) + EntryIds(b)
  {
    assert forall k :: 0 <= k < |a + b| ==> EntryIds(a + b)[k] == (EntryIds(a) + EntryIds(b))[k];
  }
}
