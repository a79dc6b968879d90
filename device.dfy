/**
 * A field device and its register window (device/src/lib.rs): which addresses one bulk read
 * covers, and how the reply words are mapped back onto the device's channels.
 */
module Devices {
  import opened Common
  import opened Float32
  import opened Channels
  import opened Config

  const DEVICE_NUM_CHANNELS: nat := 20

  datatype DeviceType = Modbus | OpcServer | WebSocketServer

  datatype DataBlock = DataBlock(holdingRegs: seq<int>)

  datatype Device = Device(
    id: nat,
    name: string,
    deviceType: DeviceType,
    config: DeviceConfig,
    channels: seq<Channel>,
    dataBlock: DataBlock,
    scanRate: nat,
    status: string)

  /** Channel ids equal their storage position. */
  predicate IdsArePositions(chs: seq<Channel>) {
    forall k :: 0 <= k < |chs| ==> chs[k].id == k
  }

  // ---------------------------------------------------------------------------------------------
  // Construction

  /** `Device::initialize(id, name)`: twenty default channels owned by device `id`, ids 0..19. */
  method Initialize(id: nat, name: string) returns (d: Device)
    ensures d.id == id && d.name == name && d.deviceType == Modbus
    ensures d.config == DefaultDeviceConfig() && d.dataBlock == DataBlock([])
    ensures d.status == "Initialized" && d.scanRate == 1
    ensures |d.channels| == DEVICE_NUM_CHANNELS && IdsArePositions(d.channels)
    ensures forall k :: 0 <= k < |d.channels| ==> d.channels[k] == DefaultChannel().(id := k, deviceId := id)
  {
    var channels: seq<Channel> := [];
    for i := 0 to DEVICE_NUM_CHANNELS
      invariant |channels| == i
      invariant forall k :: 0 <= k < i ==> channels[k] == DefaultChannel().(id := k, deviceId := id)
    {
      channels := channels + [DefaultChannel().(id := i, deviceId := id)];
    }
    d := Device(id, name, Modbus, Tcp(TcpConfig("127.0.0.1", 502)), channels, DataBlock([]), 1, "Initialized");
  }

  /** `Default for Device`: device 0 with an empty name and twenty default channels, ids 0..19. */
  method DefaultDevice() returns (d: Device)
    ensures d.id == 0 && d.name == "" && d.deviceType == Modbus
    ensures d.config == DefaultDeviceConfig() && d.dataBlock == DataBlock([])
    ensures d.status == "Initialized" && d.scanRate == 1
    ensures |d.channels| == DEVICE_NUM_CHANNELS && IdsArePositions(d.channels)
    ensures forall k :: 0 <= k < |d.channels| ==> d.channels[k] == DefaultChannel().(id := k)
  {
    var channels: seq<Channel> := [];
    for i := 0 to DEVICE_NUM_CHANNELS
      invariant |channels| == i
      invariant forall k :: 0 <= k < i ==> channels[k] == DefaultChannel().(id := k)
    {
      channels := channels + [DefaultChannel().(id := i)];
    }
    d := Device(0, "", Modbus, Tcp(TcpConfig("127.0.0.1", 502)), channels, DataBlock([]), 1, "Initialized");
  }

  // ---------------------------------------------------------------------------------------------
  // Register window

  /** `channel.index + 1` on `u16`, wrapping at 2^16 as a release build does. */
  function NextAddress(a: u16): (b: u16)
    ensures a < 0xFFFF ==> b == a + 1
  {
    (a + 1) % 0x1_0000
  }

  /** The addresses one channel pushes: enabled Int16 one, enabled Real32 two, others none. */
  function Contribution(c: Channel): (pushed: seq<u16>)
    ensures pushed == [] <==> !c.enabled || c.valueType == BoolType
    ensures |pushed| <= 2 && (pushed != [] ==> pushed[0] == c.index)
  {
    if !c.enabled then []
    else match c.valueType
      case Int16 => [c.index]
      case Real32 => [c.index, NextAddress(c.index)]
      case BoolType => []
  }

  /** All pushed addresses, in channel order. */
  function Contributed(chs: seq<Channel>): seq<u16> {
    if chs == [] then [] else Contributed(chs[..|chs| - 1]) + Contribution(chs[|chs| - 1])
  }

  function MinOf(s: seq<u16>): (m: u16)
    requires |s| > 0
    ensures m in s && forall k :: 0 <= k < |s| ==> m <= s[k]
  {
    if |s| == 1 then s[0]
    else var m := MinOf(s[..|s| - 1]); if s[|s| - 1] < m then s[|s| - 1] else m
  }

  function MaxOf(s: seq<u16>): (m: u16)
    requires |s| > 0
    ensures m in s && forall k :: 0 <= k < |s| ==> s[k] <= m
  {
    if |s| == 1 then s[0]
    else var m := MaxOf(s[..|s| - 1]); if s[|s| - 1] > m then s[|s| - 1] else m
  }

  /** The whole run `min..=max` of the pushed addresses; empty when nothing was pushed. */
  function RegisterWindow(chs: seq<Channel>): (w: seq<u16>)
    ensures w == [] <==> Contributed(chs) == []
    ensures w != [] ==> w[0] in Contributed(chs) && w[|w| - 1] in Contributed(chs)
  {
    Window(Contributed(chs))
  }

  function Window(pushed: seq<u16>): seq<u16> {
    if pushed == [] then [] else WordRange(MinOf(pushed), MaxOf(pushed))
  }

  function WordRange(lo: u16, hi: u16): (r: seq<u16>)
    requires lo <= hi
    ensures |r| == hi - lo + 1 && forall k :: 0 <= k < |r| ==> r[k] == lo + k
  {
    seq(hi - lo + 1, k requires 0 <= k < hi - lo + 1 => lo + k)
  }

  /** `get_register_list`: collect the pushed addresses, then their inclusive min..=max run. */
  method GetRegisterList(device: Device) returns (registerVec: seq<u16>)
    ensures registerVec == RegisterWindow(device.channels)
  {
    var chs := device.channels;
    var registerList: seq<u16> := [];
    for i := 0 to |chs|
      invariant registerList == Contributed(chs[..i])
    {
      assert chs[..i + 1][..i] == chs[..i];
      var channel := chs[i];
      assert Contributed(chs[..i + 1]) == registerList + Contribution(channel);
      if channel.enabled {
        match channel.valueType
        case Int16 =>
          registerList := registerList + [channel.index];
        case Real32 =>
          registerList := registerList + [channel.index];
          registerList := registerList + [NextAddress(channel.index)];
        case BoolType =>
      }
    }
    assert chs[..|chs|] == chs;
    // `iter().min()`, `iter().max()` and `(min..=max).collect()`
    registerVec := [];
    if |registerList| > 0 {
      var min, max := MinOf(registerList), MaxOf(registerList);
      registerVec := WordRange(min, max);
    }
  }

  /** An address is pushed exactly when an enabled Int16/Real32 channel sits at it, or an enabled Real32 channel sits just below it. */
  predicate PushedBy(c: Channel, x: u16) {
    c.enabled &&
    ((c.valueType != BoolType && x == c.index) || (c.valueType == Real32 && x == NextAddress(c.index)))
  }

  lemma {:induction false} ContributedMembership(chs: seq<Channel>, x: u16)
    ensures x in Contributed(chs) <==> exists k :: 0 <= k < |chs| && PushedBy(chs[k], x)
  {
    if chs != [] {
      var init := chs[..|chs| - 1];
      ContributedMembership(init, x);
      assert forall k :: 0 <= k < |init| ==> init[k] == chs[k];
      if PushedBy(chs[|chs| - 1], x) {
        assert x in Contribution(chs[|chs| - 1]);
      }
    }
  }

  lemma {:induction false} ContributedEmptyIff(chs: seq<Channel>)
    ensures Contributed(chs) == [] <==> forall k :: 0 <= k < |chs| ==> Contribution(chs[k]) == []
  {
    if chs != [] {
      var init := chs[..|chs| - 1];
      ContributedEmptyIff(init);
      assert forall k :: 0 <= k < |init| ==> init[k] == chs[k];
    }
  }

  /** No enabled Int16/Real32 channel: no window and no read. Otherwise a non-empty window. */
  lemma WindowEmptyIff(chs: seq<Channel>)
    ensures RegisterWindow(chs) == [] <==>
            forall k :: 0 <= k < |chs| && chs[k].enabled ==> chs[k].valueType == BoolType
  {
    ContributedEmptyIff(chs);
    assert forall k :: 0 <= k < |chs| ==> (Contribution(chs[k]) == [] <==> !chs[k].enabled || chs[k].valueType == BoolType);
  }

  /**
   * A non-empty window is ascending and gap-free, starts at the least pushed address, ends at the
   * greatest, and so covers every pushed address.
   */
  lemma WindowShape(pushed: seq<u16>)
    ensures var r := Window(pushed);
            r != [] ==>
              && (forall k :: 0 <= k < |r| ==> r[k] == r[0] + k)
              && r[0] in pushed && r[|r| - 1] in pushed
              && (forall j :: 0 <= j < |pushed| ==> r[0] <= pushed[j] <= r[|r| - 1])
  {
    if pushed != [] {
      var r := WordRange(MinOf(pushed), MaxOf(pushed));
      assert r[0] == MinOf(pushed) && r[|r| - 1] == MaxOf(pushed);
    }
  }

  /** Every address a channel pushes lies in the window. */
  lemma PushedInWindow(chs: seq<Channel>, k: nat, x: u16)
    requires k < |chs| && PushedBy(chs[k], x)
    ensures x in RegisterWindow(chs)
  {
    ContributedMembership(chs, x);
    WindowShape(Contributed(chs));
    var r := RegisterWindow(chs);
    var pushed := Contributed(chs);
    assert r != [];
    var j :| 0 <= j < |pushed| && pushed[j] == x;
    assert r[0] <= x <= r[|r| - 1];
    assert r[x - r[0]] == x;
  }

  /** An enabled Real32 channel below the top address has both its words in the window. */
  lemma Real32InWindow(chs: seq<Channel>, k: nat)
    requires k < |chs| && chs[k].enabled && chs[k].valueType == Real32 && chs[k].index < 0xFFFF
    ensures chs[k].index in RegisterWindow(chs) && chs[k].index + 1 in RegisterWindow(chs)
  {
    PushedInWindow(chs, k, chs[k].index);
    PushedInWindow(chs, k, chs[k].index + 1);
  }

  lemma {:induction false} ContributedUnchanged(chs: seq<Channel>, k: nat, c: Channel)
    requires k < |chs| && Contribution(chs[k]) == [] && Contribution(c) == []
    ensures Contributed(chs[k := c]) == Contributed(chs)
  {
    var chs' := chs[k := c];
    if k < |chs| - 1 {
      assert chs'[..|chs'| - 1] == chs[..|chs| - 1][k := c];
      ContributedUnchanged(chs[..|chs| - 1], k, c);
    } else {
      assert chs'[..|chs'| - 1] == chs[..|chs| - 1];
    }
  }

  /** Disabled and Bool channels never affect the window: replacing one by another changes nothing. */
  lemma WindowIgnoresIdleChannels(chs: seq<Channel>, k: nat, c: Channel)
    requires k < |chs| && (!chs[k].enabled || chs[k].valueType == BoolType)
    requires !c.enabled || c.valueType == BoolType
    ensures RegisterWindow(chs[k := c]) == RegisterWindow(chs)
  {
    ContributedUnchanged(chs, k, c);
  }

  /** Three enabled Int16 channels at 10, 11 and 12: one read of three words starting at 10. */
  lemma ThreeWordWindow(chs: seq<Channel>)
    requires |chs| == 3
    requires forall k :: 0 <= k < 3 ==> chs[k].enabled && chs[k].valueType == Int16 && chs[k].index == 10 + k
    ensures RegisterWindow(chs) == [10, 11, 12]
  {
    ThreeWordsPushed(chs);
    ThreeWordRun();
  }

  lemma ThreeWordsPushed(chs: seq<Channel>)
    requires |chs| == 3
    requires forall k :: 0 <= k < 3 ==> chs[k].enabled && chs[k].valueType == Int16 && chs[k].index == 10 + k
    ensures Contributed(chs) == [10, 11, 12]
  {
    assert Contributed(chs[..1]) == [10] by {
      assert chs[..1][..0] == [];
      assert Contribution(chs[0]) == [10];
    }
    assert Contributed(chs[..2]) == [10, 11] by {
      assert chs[..2][..1] == chs[..1];
      assert Contribution(chs[1]) == [11];
    }
    assert chs[..2] == chs[..|chs| - 1];
    assert Contribution(chs[2]) == [12];
  }

  lemma ThreeWordRun()
    ensures Window([10, 11, 12]) == [10, 11, 12]
  {
    assert MinOf([10, 11, 12]) == 10 && MaxOf([10, 11, 12]) == 12;
  }

  // ---------------------------------------------------------------------------------------------
  // Mapping the reply buffer back onto the channels

  /** Whether the buffer words a channel at list position `i` reads exist. */
  predicate Fits(t: ValueType, i: nat, n: nat) {
    match t
    case Int16 => i < n
    case Real32 => i + 1 < n
    case BoolType => true
  }

  /** The decoded value of the buffer words at position `i`. */
  function WordsValue(t: ValueType, buf: seq<u16>, i: nat): F32
    requires t != BoolType && Fits(t, i, |buf|)
  {
    if t == Int16 then FromWord(buf[i]) else F32FromBits(Combine(buf[i], buf[i + 1]))
  }

  /** The last position of `a` in `list`, if any. */
  function LastPosition(list: seq<u16>, a: u16): (p: Option<nat>)
    ensures p.Some? ==> p.value < |list| && list[p.value] == a &&
                         forall j :: p.value < j < |list| ==> list[j] != a
    ensures p.None? <==> a !in list
  {
    if list == [] then None
    else if list[|list| - 1] == a then Some(|list| - 1)
    else LastPosition(list[..|list| - 1], a)
  }

  /** A position in the register list that names the channel's index but whose words are missing. */
  predicate Overruns(c: Channel, list: seq<u16>, n: nat) {
    exists i :: 0 <= i < |list| && list[i] == c.index && !Fits(c.valueType, i, n)
  }

  /**
   * One channel after the inner loop of `channel_values_from_buffer`: None when some matching
   * position indexes past the buffer (the slice-index panic); otherwise the value decoded at the
   * last matching position, or the channel unchanged when it is disabled, a coil, or unmatched.
   */
  function Decoded(c: Channel, list: seq<u16>, buf: seq<u16>): (r: Option<Channel>)
    ensures r.None? <==> c.enabled && c.valueType != BoolType && Overruns(c, list, |buf|)
    ensures r.Some? ==> r.value == c.(value := r.value.value)
  {
    if !c.enabled || c.valueType == BoolType then Some(c)
    else if Overruns(c, list, |buf|) then None
    else match LastPosition(list, c.index)
      case None => Some(c)
      case Some(i) => Some(c.(value := WordsValue(c.valueType, buf, i)))
  }

  /** Every channel decoded, in order; None if any of them panics. */
  function DecodedAll(chs: seq<Channel>, list: seq<u16>, buf: seq<u16>): (r: Option<seq<Channel>>)
    ensures r.Some? ==> |r.value| == |chs|
  {
    if chs == [] then Some([])
    else match DecodedAll(chs[..|chs| - 1], list, buf)
      case None => None
      case Some(done) =>
        match Decoded(chs[|chs| - 1], list, buf)
        case None => None
        case Some(c) => Some(done + [c])
  }

  /** `channel_values_from_buffer`; an empty buffer returns the device as it is. */
  function DecodeDevice(device: Device, list: seq<u16>, buf: seq<u16>): (r: Option<Device>)
    ensures r.Some? ==> r.value.(channels := device.channels) == device && |r.value.channels| == |device.channels|
  {
    if buf == [] then Some(device)
    else match DecodedAll(device.channels, list, buf)
      case None => None
      case Some(chs) => Some(device.(channels := chs))
  }

  /** Decoding all channels panics exactly when one of them does, and otherwise decodes each in place. */
  lemma {:induction false} DecodedAllSpec(chs: seq<Channel>, list: seq<u16>, buf: seq<u16>)
    ensures DecodedAll(chs, list, buf).None? <==> exists k :: 0 <= k < |chs| && Decoded(chs[k], list, buf).None?
    ensures DecodedAll(chs, list, buf).Some? ==>
              var r := DecodedAll(chs, list, buf).value;
              |r| == |chs| && forall k :: 0 <= k < |chs| ==> Decoded(chs[k], list, buf) == Some(r[k])
  {
    if chs != [] {
      var init := chs[..|chs| - 1];
      DecodedAllSpec(init, list, buf);
      assert forall k :: 0 <= k < |init| ==> init[k] == chs[k];
    }
  }

  /** `channel_values_from_buffer`: two nested loops; None stands for the index-out-of-bounds panic. */
  method ChannelValuesFromBuffer(device: Device, registerList: seq<u16>, dataBuffer: seq<u16>)
    returns (r: Option<Device>)
    ensures r == DecodeDevice(device, registerList, dataBuffer)
  {
    if dataBuffer == [] {
      return Some(device);
    }
    var channelsToSend: seq<Channel> := [];
    for k := 0 to |device.channels|
      invariant DecodedAll(device.channels[..k], registerList, dataBuffer) == Some(channelsToSend)
    {
      assert device.channels[..k + 1][..k] == device.channels[..k];
      var channel := device.channels[k];
      var edited := channel;
      for i := 0 to |registerList|
        invariant edited == channel.(value := edited.value)
        invariant channel.enabled && channel.valueType != BoolType ==>
                    !Overruns(channel, registerList[..i], |dataBuffer|) &&
                    Decoded(channel, registerList[..i], dataBuffer) == Some(edited)
        invariant !channel.enabled || channel.valueType == BoolType ==> edited == channel
      {
        assert registerList[..i + 1][..i] == registerList[..i];
        if edited.enabled && edited.index == registerList[i] {
          match edited.valueType
          case Int16 =>
            if i >= |dataBuffer| {
              assert registerList[i] == channel.index && !Fits(Int16, i, |dataBuffer|);
              assert Decoded(device.channels[k], registerList, dataBuffer).None?;
              DecodedAllSpec(device.channels, registerList, dataBuffer);
              return None;
            }
            edited := edited.(value := FromWord(dataBuffer[i]));
          case Real32 =>
            if i + 1 >= |dataBuffer| {
              assert registerList[i] == channel.index && !Fits(Real32, i, |dataBuffer|);
              assert Decoded(device.channels[k], registerList, dataBuffer).None?;
              DecodedAllSpec(device.channels, registerList, dataBuffer);
              return None;
            }
            edited := edited.(value := F32FromBits(Combine(dataBuffer[i], dataBuffer[i + 1])));
          case BoolType =>
        }
        assert channel.enabled && channel.valueType != BoolType ==>
                 !Overruns(channel, registerList[..i + 1], |dataBuffer|);
      }
      assert registerList[..|registerList|] == registerList;
      channelsToSend := channelsToSend + [edited];
    }
    assert device.channels[..|device.channels|] == device.channels;
    r := Some(device.(channels := channelsToSend));
  }

  /** Only channel values change: same device fields, same channels in the same order. */
  lemma DecodeKeepsShape(d: Device, list: seq<u16>, buf: seq<u16>)
    requires DecodeDevice(d, list, buf).Some?
    ensures var d' := DecodeDevice(d, list, buf).value;
            && d' == d.(channels := d'.channels)
            && |d'.channels| == |d.channels|
            && (forall k :: 0 <= k < |d.channels| ==> d'.channels[k] == d.channels[k].(value := d'.channels[k].value))
            && (IdsArePositions(d.channels) ==> IdsArePositions(d'.channels))
    ensures var d' := DecodeDevice(d, list, buf).value;
            forall k :: 0 <= k < |d.channels| &&
                        (!d.channels[k].enabled || d.channels[k].valueType == BoolType || d.channels[k].index !in list)
                        ==> d'.channels[k] == d.channels[k]
  {
    DecodedAllSpec(d.channels, list, buf);
  }

  /**
   * An enabled Int16 channel takes the word at the last list position naming its index; a Real32
   * channel takes that word as high half and the next one as low half.
   */
  lemma DecodedValue(d: Device, list: seq<u16>, buf: seq<u16>, k: nat)
    requires DecodeDevice(d, list, buf).Some? && buf != []
    requires k < |d.channels| && d.channels[k].enabled && d.channels[k].index in list
    ensures |DecodeDevice(d, list, buf).value.channels| == |d.channels|
    ensures var c := d.channels[k];
            var i := LastPosition(list, c.index).value;
            var v := DecodeDevice(d, list, buf).value.channels[k].value;
            && (c.valueType == Int16 ==> i < |buf| && v == FromWord(buf[i]))
            && (c.valueType == Real32 ==> i + 1 < |buf| && v == F32FromBits(Combine(buf[i], buf[i + 1])))
  {
    DecodedAllSpec(d.channels, list, buf);
  }

  /** The bulk decoder agrees with the single-channel `read_value` given the same words. */
  lemma BulkDecodeAgreesWithReadValue(c: Channel, list: seq<u16>, buf: seq<u16>)
    requires c.enabled && c.valueType != BoolType
    requires Decoded(c, list, buf).Some? && c.index in list
    ensures var i := LastPosition(list, c.index).value;
            var n := RequestFor(c).count;
            && i + n <= |buf|
            && Decoded(c, list, buf) == Some(ReadValue(c, Registers(buf[i..i + n])))
  {
  }

  /** Every enabled Real32 channel sits below the top address, so `index + 1` does not wrap. */
  predicate Real32BelowTop(chs: seq<Channel>) {
    forall k :: 0 <= k < |chs| && chs[k].enabled && chs[k].valueType == Real32 ==> chs[k].index < 0xFFFF
  }

  lemma ChannelFitsWindow(chs: seq<Channel>, k: nat, n: nat)
    requires Real32BelowTop(chs) && n == |RegisterWindow(chs)| && k < |chs|
    ensures !Overruns(chs[k], RegisterWindow(chs), n) || !chs[k].enabled || chs[k].valueType == BoolType
  {
    var c := chs[k];
    var w := RegisterWindow(chs);
    if c.enabled && c.valueType != BoolType {
      WindowShape(Contributed(chs));
      PushedInWindow(chs, k, c.index);
      forall i | 0 <= i < |w| && w[i] == c.index ensures Fits(c.valueType, i, n) {
        if c.valueType == Real32 {
          PushedInWindow(chs, k, c.index + 1);
          var j :| 0 <= j < |w| && w[j] == c.index + 1;
          assert w[j] == w[0] + j;
        }
      }
    }
  }

  /**
   * Safety: decoding a reply as long as the device's own register window never indexes past the
   * reply buffer, provided no enabled Real32 channel sits at the top address 0xFFFF.
   */
  lemma WindowDecodeNeverOverruns(d: Device, buf: seq<u16>)
    requires Real32BelowTop(d.channels) && |buf| == |RegisterWindow(d.channels)|
    ensures DecodeDevice(d, RegisterWindow(d.channels), buf).Some?
  {
    var w := RegisterWindow(d.channels);
    if buf != [] {
      DecodedAllSpec(d.channels, w, buf);
      forall k | 0 <= k < |d.channels| ensures Decoded(d.channels[k], w, buf).Some? {
        ChannelFitsWindow(d.channels, k, |buf|);
      }
    }
  }

  /**
   * Within its own window, an enabled channel at address `a` reads the reply word at offset
   * `a - window[0]` (and the next one for Real32).
   */
  lemma WindowDecodedValue(d: Device, buf: seq<u16>, k: nat)
    requires Real32BelowTop(d.channels) && |buf| == |RegisterWindow(d.channels)|
    requires k < |d.channels| && d.channels[k].enabled && d.channels[k].valueType != BoolType
    ensures RegisterWindow(d.channels) != [] && DecodeDevice(d, RegisterWindow(d.channels), buf).Some?
    ensures |DecodeDevice(d, RegisterWindow(d.channels), buf).value.channels| == |d.channels|
    ensures var w := RegisterWindow(d.channels);
            var c := d.channels[k];
            var v := DecodeDevice(d, w, buf).value.channels[k].value;
            var j := c.index - w[0];
            && 0 <= j < |buf|
            && (c.valueType == Int16 ==> v == FromWord(buf[j]))
            && (c.valueType == Real32 ==> j + 1 < |buf| && v == F32FromBits(Combine(buf[j], buf[j + 1])))
  {
    var w := RegisterWindow(d.channels);
    var c := d.channels[k];
    WindowDecodeNeverOverruns(d, buf);
    DecodeKeepsShape(d, w, buf);
    PushedInWindow(d.channels, k, c.index);
    WindowShape(Contributed(d.channels));
    DecodedValue(d, w, buf, k);
    var i := LastPosition(w, c.index).value;
    assert w[i] == w[0] + i;
  }

  /**
   * Without the top-address bound the decoder does overrun: an enabled Real32 channel at 0xFFFF
   * pushes 0xFFFF and the wrapped 0, the window becomes all 65536 addresses, and the channel's
   * second word lies one past the end of a reply of that length.
   */
  lemma TopAddressReal32Overruns(d: Device, buf: seq<u16>)
    requires |d.channels| == 1 && d.channels[0].enabled && d.channels[0].valueType == Real32
    requires d.channels[0].index == 0xFFFF
    requires |buf| == |RegisterWindow(d.channels)|
    ensures |RegisterWindow(d.channels)| == 0x1_0000
    ensures DecodeDevice(d, RegisterWindow(d.channels), buf).None?
  {
    var c := d.channels[0];
    TopAddressPushed(d.channels);
    TopAddressWindow();
    var w := RegisterWindow(d.channels);
    assert w[0xFFFF] == 0xFFFF && !Fits(Real32, 0xFFFF, |buf|);
    assert Overruns(c, w, |buf|);
    DecodedAllSpec(d.channels, w, buf);
  }

  lemma TopAddressPushed(chs: seq<Channel>)
    requires |chs| == 1 && chs[0].enabled && chs[0].valueType == Real32 && chs[0].index == 0xFFFF
    ensures Contributed(chs) == [0xFFFF, 0]
  {
    assert chs[..0] == [];
  }

  lemma TopAddressWindow()
    ensures Window([0xFFFF, 0]) == WordRange(0, 0xFFFF)
  {
    assert MinOf([0xFFFF, 0]) == 0 && MaxOf([0xFFFF, 0]) == 0xFFFF;
  }
}
