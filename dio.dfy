/** The AUTOSAR R4.3.1 DIO driver of the Tiva C port (Dio.c).

    Each of the six GPIO ports A..F is a pair of 8-bit registers: the data
    register and the direction register (a 1 bit is an output pin). The
    driver resolves symbolic channel, port and channel-group identifiers
    through a static configuration table and applies mask formulas to the
    data register. With development error detection on, every invalid
    identifier is reported once to the error tracer and the call then either
    returns 0 (reads) or touches no register (writes). */
module Dio {
  import opened Common

  // ---------------------------------------------------------------------
  // Constants of Dio.h
  // ---------------------------------------------------------------------

  const DIO_VENDOR_ID: nat := 0x40
  const DIO_MODULE_ID: nat := 120
  const DIO_INSTANCE_ID: nat := 0
  const DIO_SW_MAJOR_VERSION: nat := 1
  const DIO_SW_MINOR_VERSION: nat := 0
  const DIO_SW_PATCH_VERSION: nat := 0

  // Service IDs
  const DIO_READCHANNEL_SID: nat := 0x00
  const DIO_WRITECHANNEL_SID: nat := 0x01
  const DIO_READPORT_SID: nat := 0x02
  const DIO_WRITEPORT_SID: nat := 0x03
  const DIO_READCHANNELGROUP_SID: nat := 0x04
  const DIO_WRITECHANNELGROUP_SID: nat := 0x05
  const DIO_FLIPCHANNEL_SID: nat := 0x11
  const DIO_GETVERSIONINFO_SID: nat := 0x12

  // Development error codes
  const DIO_E_PARAM_INVALID_CHANNEL_ID: nat := 0x0A
  const DIO_E_PARAM_INVALID_PORT_ID: nat := 0x14
  const DIO_E_PARAM_INVALID_GROUP: nat := 0x1F
  const DIO_E_PARAM_POINTER: nat := 0x20

  /** Largest channel ID of the Tiva C. */
  const DIO_MAX_CHANNEL_ID: bv8 := 0x53
  /** Largest port ID of the Tiva C (ports A..F are 0..5). */
  const DIO_MAX_PORT_ID: bv8 := 5
  /** Number of entries of the port address table (ports A..F). */
  const DIO_NUM_PORTS: nat := 6

  /** Value of a direction bit for an input pin. */
  const DIO_PIN_INPUT: bv8 := 0

  // ---------------------------------------------------------------------
  // Configuration (Dio_PortChannelConfig, Dio_ChannelGroupType)
  // ---------------------------------------------------------------------

  /** One entry of the channel table: a channel ID and the port it is on. */
  datatype ChannelCfg = ChannelCfg(channelId: bv8, portId: bv8)

  /** A channel group: a 32-bit mask, the position of its lowest bit and
      its port. */
  datatype GroupCfg = GroupCfg(mask: bv32, offset: bv8, port: bv8)

  /** The pointer a caller passes for a channel group: NULL, the address of
      an element of the configured group table (possibly past its end), or
      the address of some other structure, whatever it holds. */
  datatype GroupRef = NullPtr | TableEntry(index: nat) | Elsewhere(group: GroupCfg)

  /** What the link-time configuration must satisfy for the driver to stay
      inside its tables and registers: the port-ID scan reads only existing
      channel entries, every configured port has an address, every
      configured channel names a pin of an 8-bit port, and every group
      offset is a pin position. The driver itself checks none of this. */
  predicate ConfigWellFormed(channels: seq<ChannelCfg>, usedPorts: nat, groups: seq<GroupCfg>)
  {
    usedPorts <= |channels| &&
    (forall k :: 0 <= k < |channels| ==>
       channels[k].portId <= DIO_MAX_PORT_ID && PinNumber(channels[k].channelId) < 8) &&
    (forall k :: 0 <= k < |groups| ==> groups[k].port <= DIO_MAX_PORT_ID && groups[k].offset < 8)
  }

  // ---------------------------------------------------------------------
  // Register-level transforms
  // ---------------------------------------------------------------------

  /** DioGetChannelPinNumber: the pin position is the low nibble of the
      channel ID; the high nibble is left to the port lookup. */
  function PinNumber(channelId: bv8): (pin: bv8)
    ensures pin < 16
    ensures (channelId & 0xF0) | pin == channelId
  {
    channelId & 0x0F
  }

  /** The one-bit mask of a pin. */
  function PinMask(pin: bv8): bv8
    requires pin < 8
  {
    1 << pin
  }

  /** GET_BIT on an 8-bit register, as DioReadPin and DioGetPinDirection
      use it: the pin's bit moved down to bit 0. */
  function GetBit(reg: bv8, pin: bv8): bv8
    requires pin < 8
  {
    (reg >> pin) & 1
  }

  /** DioWritePin: SET_BIT for any level other than STD_LOW, CLEAR_BIT for
      STD_LOW. */
  function WritePin(reg: bv8, pin: bv8, level: bv8): bv8
    requires pin < 8
  {
    if level != STD_LOW then reg | PinMask(pin) else reg & !PinMask(pin)
  }

  /** The data register of a valid channel's port after Dio_WriteChannel:
      STD_HIGH drives an output pin high, every other level drives it low,
      and an input pin is left alone. */
  function WriteChannelValue(data: bv8, dir: bv8, pin: bv8, level: bv8): bv8
    requires pin < 8
  {
    if GetBit(dir, pin) == DIO_PIN_INPUT then data
    else if level == STD_HIGH then WritePin(data, pin, STD_HIGH)
    else WritePin(data, pin, STD_LOW)
  }

  /** The data register after Dio_WritePort: one masked value. */
  function WritePortValue(prev: bv8, dir: bv8, level: bv8): bv8
  {
    (!dir & prev) | (level & dir)
  }

  /** What an 8-bit register keeps of a 32-bit store. */
  function Low8(x: bv32): bv8
  {
    (x & 0xFF) as bv8
  }

  /** Dio_ReadChannelGroup on a valid group whose mask, as the 8-bit port
      sees it, is m: the port value masked, then shifted down by the offset.
      The source evaluates the mask in promoted 32-bit arithmetic and casts
      to 8 bits; ReadGroupPromoted shows that this is the same value. */
  function ReadGroupValue(data: bv8, m: bv8, offset: bv8): bv8
    requires offset < 8
  {
    (data & m) >> offset
  }

  /** Dio_WriteChannelGroup on a valid group whose mask, as the 8-bit port
      sees it, is m: input bits and bits outside the mask keep the old
      value, output bits inside the mask take the level shifted up by the
      offset. The source evaluates this in promoted 32-bit arithmetic;
      WriteGroupPromoted shows that the 32-bit value has no bit above bit 7
      and equals this one. */
  function WriteGroupValue(prev: bv8, dir: bv8, m: bv8, offset: bv8, level: bv8): bv8
    requires offset < 8
  {
    (!dir & prev) | (!m & prev) | (dir & m & (level << offset))
  }

  /** The data register after Dio_FlipChannel on a valid channel: TOGGLE_BIT
      on an output pin, nothing on an input pin. */
  function FlipValue(data: bv8, dir: bv8, pin: bv8): bv8
    requires pin < 8
  {
    if GetBit(dir, pin) == DIO_PIN_INPUT then data else data ^ PinMask(pin)
  }

  // ---------------------------------------------------------------------
  // Laws of the transforms
  // ---------------------------------------------------------------------

  /** GET_BIT yields 0 or 1, and 1 exactly when the pin's bit is set. */
  lemma GetBitLaw(reg: bv8, pin: bv8)
    requires pin < 8
    ensures GetBit(reg, pin) == 0 || GetBit(reg, pin) == 1
    ensures GetBit(reg, pin) == 1 <==> reg & PinMask(pin) != 0
  {
  }

  /** DioWritePin changes only the pin's bit, which becomes 1 for every
      level but STD_LOW. */
  lemma WritePinLaw(reg: bv8, pin: bv8, level: bv8)
    requires pin < 8
    ensures var r := WritePin(reg, pin, level);
      r & !PinMask(pin) == reg & !PinMask(pin) &&
      GetBit(r, pin) == if level != STD_LOW then 1 else 0
  {
  }

  /** Dio_WriteChannel: an input pin's port is unchanged; on an output pin
      only the pin's bit changes, and it is set exactly when the level is
      STD_HIGH. */
  lemma WriteChannelLaw(data: bv8, dir: bv8, pin: bv8, level: bv8)
    requires pin < 8
    ensures GetBit(dir, pin) == 0 ==> WriteChannelValue(data, dir, pin, level) == data
    ensures GetBit(dir, pin) == 1 ==>
      var r := WriteChannelValue(data, dir, pin, level);
      r & !PinMask(pin) == data & !PinMask(pin) &&
      GetBit(r, pin) == if level == STD_HIGH then 1 else 0
  {
  }

  /** Dio_WritePort, bit by bit: every input bit keeps its old value and
      every output bit takes the bit of the written level. */
  lemma WritePortBits(prev: bv8, dir: bv8, level: bv8)
    ensures forall i: bv8 :: i < 8 ==>
      GetBit(WritePortValue(prev, dir, level), i)
        == if GetBit(dir, i) == 1 then GetBit(level, i) else GetBit(prev, i)
  {
  }

  /** The C expression of Dio_ReadChannelGroup, with the register promoted
      to 32 bits, the mask applied, the value cast to 8 bits and then
      shifted, is ReadGroupValue of the mask's low byte. */
  lemma ReadGroupPromoted(data: bv8, g: GroupCfg)
    requires g.offset < 8
    ensures Low8(data as bv32 & g.mask) >> g.offset == ReadGroupValue(data, Low8(g.mask), g.offset)
  {
  }

  /** The bits of a group read: bit i of the result is bit i + offset of
      the port when the mask selects it, and 0 when the mask does not or
      when i + offset is past the port, so the group is aligned to bit 0. */
  lemma ReadGroupBits(data: bv8, m: bv8, offset: bv8)
    requires offset < 8
    ensures forall i: bv8 :: i < 8 ==>
      GetBit(ReadGroupValue(data, m, offset), i)
        == if i < 8 - offset then GetBit(data & m, i + offset) else 0
  {
  }

  /** The 32-bit value that Dio_WriteChannelGroup computes and stores
      never has a bit above bit 7 (every term is ANDed with a promoted 8-bit
      register), and it is WriteGroupValue of the mask's low byte. */
  lemma WriteGroupPromoted(prev: bv8, dir: bv8, g: GroupCfg, level: bv8)
    requires g.offset < 8
    ensures (!(dir as bv32) & prev as bv32) | (!g.mask & prev as bv32)
            | (dir as bv32 & g.mask & (level as bv32 << g.offset))
         == WriteGroupValue(prev, dir, Low8(g.mask), g.offset, level) as bv32
  {
  }

  /** The group write law: the selected bits are the output pins inside the
      mask; they take the level shifted up by the offset, and every other
      bit of the port keeps its value. */
  lemma WriteGroupMaskLaw(prev: bv8, dir: bv8, m: bv8, offset: bv8, level: bv8)
    requires offset < 8
    ensures var r, selected := WriteGroupValue(prev, dir, m, offset, level), dir & m;
      r & !selected == prev & !selected && r & selected == (level << offset) & selected
  {
  }

  /** Dio_FlipChannel: an input pin's port is unchanged; on an output pin
      only the pin's bit changes, and it is inverted. */
  lemma FlipLaw(data: bv8, dir: bv8, pin: bv8)
    requires pin < 8
    ensures GetBit(dir, pin) == 0 ==> FlipValue(data, dir, pin) == data
    ensures GetBit(dir, pin) == 1 ==>
      var r := FlipValue(data, dir, pin);
      r & !PinMask(pin) == data & !PinMask(pin) && GetBit(r, pin) == 1 - GetBit(data, pin)
  {
  }

  /** Two flips of the same channel restore the register. */
  lemma FlipTwiceRestores(data: bv8, dir: bv8, pin: bv8)
    requires pin < 8
    ensures FlipValue(FlipValue(data, dir, pin), dir, pin) == data
  {
  }

  /** Writing a channel is writing the whole port with every pin but that
      one treated as an input. */
  lemma WriteChannelIsMaskedWritePort(data: bv8, dir: bv8, pin: bv8, level: bv8)
    requires pin < 8
    ensures WriteChannelValue(data, dir, pin, level)
         == WritePortValue(data, dir & PinMask(pin), if level == STD_HIGH then 0xFF else 0x00)
  {
  }

  /** A group that covers the whole port at offset 0 writes exactly what
      Dio_WritePort writes. */
  lemma WholePortGroupIsWritePort(prev: bv8, dir: bv8, level: bv8)
    ensures WriteGroupValue(prev, dir, 0xFF, 0, level) == WritePortValue(prev, dir, level)
  {
  }

  /** Writing the same level to a group twice is the same as writing it once. */
  lemma WriteGroupIdempotent(prev: bv8, dir: bv8, m: bv8, offset: bv8, level: bv8)
    requires offset < 8
    ensures WriteGroupValue(WriteGroupValue(prev, dir, m, offset, level), dir, m, offset, level)
         == WriteGroupValue(prev, dir, m, offset, level)
  {
  }

  /** The group round trip: reading a group back after writing a level to
      it gives the level on every bit whose pin is an output inside the
      mask (the selected bits, shifted down to the group's alignment). */
  lemma GroupReadAfterWrite(prev: bv8, dir: bv8, m: bv8, offset: bv8, level: bv8)
    requires offset < 8
    ensures var selected := (dir & m) >> offset;
      ReadGroupValue(WriteGroupValue(prev, dir, m, offset, level), m, offset) & selected
        == level & selected
  {
    if offset == 0 {
    } else if offset == 1 {
    } else if offset == 2 {
    } else if offset == 3 {
    } else if offset == 4 {
    } else if offset == 5 {
    } else if offset == 6 {
    } else {
    }
  }

  /** A group read has no bit outside the mask shifted down by the offset. */
  lemma ReadGroupWithinMask(data: bv8, m: bv8, offset: bv8)
    requires offset < 8
    ensures ReadGroupValue(data, m, offset) & !(m >> offset) == 0
  {
  }

  /** When every pin of the group is an output, the read gives back the
      written level cut to the group's width. */
  lemma GroupReadAfterWriteOutputs(prev: bv8, dir: bv8, m: bv8, offset: bv8, level: bv8)
    requires offset < 8
    requires dir & m == m
    ensures ReadGroupValue(WriteGroupValue(prev, dir, m, offset, level), m, offset)
         == level & (m >> offset)
  {
    var r := ReadGroupValue(WriteGroupValue(prev, dir, m, offset, level), m, offset);
    var s := m >> offset;
    GroupReadAfterWrite(prev, dir, m, offset, level);
    ReadGroupWithinMask(WriteGroupValue(prev, dir, m, offset, level), m, offset);
    JoinByMask(r, level, s);
  }

  /** A value that agrees with l on the bits of s and is zero elsewhere is
      l restricted to s. */
  lemma JoinByMask(x: bv8, l: bv8, s: bv8)
    requires x & s == l & s && x & !s == 0
    ensures x == l & s
  {
  }

  // ---------------------------------------------------------------------
  // Validation (DioCheckChannelID, DioCheckPortID, DioCheckGroupID) and
  // the channel-to-port lookup (DioGetChannelPortNumber)
  // ---------------------------------------------------------------------

  /** A channel ID is valid when it is at most DIO_MAX_CHANNEL_ID and some
      entry of the channel table has it. */
  predicate ChannelIdValid(channels: seq<ChannelCfg>, channelId: bv8)
  {
    channelId <= DIO_MAX_CHANNEL_ID &&
    exists k :: 0 <= k < |channels| && channels[k].channelId == channelId
  }

  /** A port ID is valid when it is at most DIO_MAX_PORT_ID and it is the
      port of one of the first usedPorts entries of the CHANNEL table (there
      is no port table). */
  predicate PortIdValid(channels: seq<ChannelCfg>, usedPorts: nat, portId: bv8)
    requires usedPorts <= |channels|
  {
    portId <= DIO_MAX_PORT_ID &&
    exists k :: 0 <= k < usedPorts && channels[k].portId == portId
  }

  /** A group pointer is valid when it is the address of one of the
      configured group entries; equal contents elsewhere do not count. */
  predicate GroupRefValid(groups: seq<GroupCfg>, ref: GroupRef)
  {
    ref.TableEntry? && ref.index < |groups|
  }

  /** Entry k is the last entry of the channel table with this ID. */
  predicate IsLastMatch(channels: seq<ChannelCfg>, channelId: bv8, k: int)
  {
    0 <= k < |channels| && channels[k].channelId == channelId &&
    forall j :: k < j < |channels| ==> channels[j].channelId != channelId
  }

  /** The port that the scan of DioGetChannelPortNumber settles on for an ID
      the table has: the port of the last matching entry. */
  function LastMatchPort(channels: seq<ChannelCfg>, channelId: bv8): (port: bv8)
    requires exists k :: 0 <= k < |channels| && channels[k].channelId == channelId
    ensures exists k :: IsLastMatch(channels, channelId, k) && port == channels[k].portId
    decreases |channels|
  {
    var last := |channels| - 1;
    if channels[last].channelId == channelId then
      assert IsLastMatch(channels, channelId, last);
      channels[last].portId
    else
      var prefix := channels[..last];
      assert exists k :: 0 <= k < |prefix| && prefix[k].channelId == channelId by {
        var k :| 0 <= k < |channels| && channels[k].channelId == channelId;
        assert prefix[k].channelId == channelId;
      }
      var port := LastMatchPort(prefix, channelId);
      var k :| IsLastMatch(prefix, channelId, k) && port == prefix[k].portId;
      assert IsLastMatch(channels, channelId, k);
      port
  }

  /** DioCheckChannelID: the range check, then a scan of the channel table
      that stops at the first match. */
  method CheckChannelId(channels: seq<ChannelCfg>, channelId: bv8) returns (ok: bool)
    ensures ok <==> ChannelIdValid(channels, channelId)
  {
    ok := true;
    var config := 0;
    if channelId > DIO_MAX_CHANNEL_ID {
      ok := false;
    } else {
      var index := 0;
      while index < |channels|
        invariant 0 <= index <= |channels|
        invariant config == 0
        invariant forall k :: 0 <= k < index ==> channels[k].channelId != channelId
      {
        if channels[index].channelId == channelId {
          config := config + 1;
          break;
        }
        index := index + 1;
      }
    }
    if config == 0 {
      ok := false;
    }
  }

  /** DioCheckPortID: the range check, then a scan of the port fields of the
      first usedPorts entries of the channel table, stopping at the first
      match. */
  method CheckPortId(channels: seq<ChannelCfg>, usedPorts: nat, portId: bv8) returns (ok: bool)
    requires usedPorts <= |channels|
    ensures ok <==> PortIdValid(channels, usedPorts, portId)
  {
    ok := true;
    var config := 0;
    if portId > DIO_MAX_PORT_ID {
      ok := false;
    } else {
      var index := 0;
      while index < usedPorts
        invariant 0 <= index <= usedPorts
        invariant config == 0
        invariant forall k :: 0 <= k < index ==> channels[k].portId != portId
      {
        if channels[index].portId == portId {
          config := config + 1;
          break;
        }
        index := index + 1;
      }
    }
    if config == 0 {
      ok := false;
    }
  }

  /** DioCheckGroupID: a non-NULL pointer is compared by address with every
      configured group entry; the scan does not stop at a match. */
  method CheckGroupId(groups: seq<GroupCfg>, ref: GroupRef) returns (ok: bool)
    ensures ok <==> GroupRefValid(groups, ref)
  {
    ok := false;
    if ref != NullPtr {
      var index := 0;
      while index < |groups|
        invariant 0 <= index <= |groups|
        invariant ok <==> ref.TableEntry? && ref.index < index
      {
        if ref == TableEntry(index) {
          ok := true;
        }
        index := index + 1;
      }
    }
  }

  /** DioGetChannelPortNumber: a scan of the whole channel table without a
      break, so the last matching entry wins. When no entry matches, the
      result variable is never assigned and the value returned is
      unspecified. */
  method GetChannelPortNumber(channels: seq<ChannelCfg>, channelId: bv8) returns (port: bv8)
    ensures (exists k :: 0 <= k < |channels| && channels[k].channelId == channelId) ==>
      port == LastMatchPort(channels, channelId)
  {
    port := *;
    var index := 0;
    while index < |channels|
      invariant 0 <= index <= |channels|
      invariant (exists k :: 0 <= k < index && channels[k].channelId == channelId) ==>
        port == LastMatchPort(channels[..index], channelId)
    {
      var prefix := channels[..index + 1];
      assert prefix[..index] == channels[..index];
      if channels[index].channelId == channelId {
        port := channels[index].portId;
      } else if exists k :: 0 <= k < index && channels[k].channelId == channelId {
        var k :| 0 <= k < index && channels[k].channelId == channelId;
        assert prefix[k].channelId == channelId;
      }
      index := index + 1;
    }
    assert channels[..index] == channels;
  }

  // ---------------------------------------------------------------------
  // Version information
  // ---------------------------------------------------------------------

  /** Std_VersionInfoType. */
  datatype VersionInfo = VersionInfo(vendorId: nat, moduleId: nat, swMajor: nat, swMinor: nat, swPatch: nat)

  /** The structure a caller passes to Dio_GetVersionInfo. */
  class VersionInfoSlot {
    var info: VersionInfo

    constructor ()
    {
      info := VersionInfo(0, 0, 0, 0, 0);
    }
  }

  // ---------------------------------------------------------------------
  // The driver
  // ---------------------------------------------------------------------

  /** The DIO driver with its configuration and the registers it drives.
      The configuration is read-only; the data registers are written in
      place, one store per call; the direction registers belong to the
      port driver and are only read here. Calls of Det_ReportError are
      appended to detLog. */
  class DioDriver {
    /** Dio_PortChannel: NUM_OF_USED_PINS entries. */
    const channels: seq<ChannelCfg>
    /** NUM_OF_USED_PORTS. */
    const usedPorts: nat
    /** Dio_ChannelGroup: NUM_OF_USED_GROUPS entries. */
    const groups: seq<GroupCfg>
    /** The data register of each port, indexed by port number. */
    const data: array<bv8>
    /** The direction register of each port, indexed by port number. */
    const dir: array<bv8>
    ghost var detLog: seq<DetEvent>

    ghost predicate Valid()
    {
      data.Length == DIO_NUM_PORTS && dir.Length == DIO_NUM_PORTS && data != dir &&
      ConfigWellFormed(channels, usedPorts, groups)
    }

    /** Stands for the link-time configuration and the register contents
        that the port driver left behind. */
    constructor (channels: seq<ChannelCfg>, usedPorts: nat, groups: seq<GroupCfg>,
                 data0: seq<bv8>, dir0: seq<bv8>)
      requires ConfigWellFormed(channels, usedPorts, groups)
      requires |data0| == DIO_NUM_PORTS && |dir0| == DIO_NUM_PORTS
      ensures Valid() && fresh(data) && fresh(dir)
      ensures this.channels == channels && this.usedPorts == usedPorts && this.groups == groups
      ensures data[..] == data0 && dir[..] == dir0 && detLog == []
    {
      this.channels, this.usedPorts, this.groups := channels, usedPorts, groups;
      data := new bv8[DIO_NUM_PORTS](i requires 0 <= i < DIO_NUM_PORTS => data0[i]);
      dir := new bv8[DIO_NUM_PORTS](i requires 0 <= i < DIO_NUM_PORTS => dir0[i]);
      detLog := [];
    }

    /** The port number of a valid channel. */
    function ChannelPort(channelId: bv8): (port: int)
      requires Valid() && ChannelIdValid(channels, channelId)
      ensures 0 <= port < DIO_NUM_PORTS
    {
      LastMatchPort(channels, channelId) as int
    }

    /** Dio_ReadChannel. On a valid channel whose pin reads high the result
        is STD_HIGH; on one whose pin reads low the local that holds the
        result is never assigned, so the value returned is unspecified. */
    method ReadChannel(channelId: bv8) returns (level: bv8)
      requires Valid()
      modifies this`detLog
      ensures Valid()
      ensures !ChannelIdValid(channels, channelId) ==>
        level == STD_LOW &&
        detLog == old(detLog) + [DetEvent(DIO_MODULE_ID, DIO_INSTANCE_ID, DIO_READCHANNEL_SID, DIO_E_PARAM_INVALID_CHANNEL_ID)]
      ensures ChannelIdValid(channels, channelId) ==>
        detLog == old(detLog) &&
        (GetBit(data[ChannelPort(channelId)], PinNumber(channelId)) == 1 ==> level == STD_HIGH)
    {
      level := *;
      var ok := CheckChannelId(channels, channelId);
      if !ok {
        detLog := detLog + [DetEvent(DIO_MODULE_ID, DIO_INSTANCE_ID, DIO_READCHANNEL_SID, DIO_E_PARAM_INVALID_CHANNEL_ID)];
        level := STD_LOW;
      } else {
        var port := GetChannelPortNumber(channels, channelId);
        var pin := PinNumber(channelId);
        if GetBit(data[port], pin) != STD_LOW {
          level := STD_HIGH;
        }
      }
    }

    /** Dio_WriteChannel. */
    method WriteChannel(channelId: bv8, level: bv8)
      requires Valid()
      modifies this`detLog, data
      ensures Valid()
      ensures !ChannelIdValid(channels, channelId) ==>
        data[..] == old(data[..]) &&
        detLog == old(detLog) + [DetEvent(DIO_MODULE_ID, DIO_INSTANCE_ID, DIO_WRITECHANNEL_SID, DIO_E_PARAM_INVALID_CHANNEL_ID)]
      ensures ChannelIdValid(channels, channelId) ==>
        var p := ChannelPort(channelId);
        detLog == old(detLog) &&
        data[..] == old(data[..])[p := WriteChannelValue(old(data[p]), dir[p], PinNumber(channelId), level)]
    {
      var ok := CheckChannelId(channels, channelId);
      if !ok {
        detLog := detLog + [DetEvent(DIO_MODULE_ID, DIO_INSTANCE_ID, DIO_WRITECHANNEL_SID, DIO_E_PARAM_INVALID_CHANNEL_ID)];
      } else {
        var port := GetChannelPortNumber(channels, channelId);
        var pin := PinNumber(channelId);
        var portValue := data[port];
        var direction := GetBit(dir[port], pin);
        if direction != DIO_PIN_INPUT {
          if level == STD_HIGH {
            data[port] := WritePin(portValue, pin, STD_HIGH);
          } else {
            data[port] := WritePin(portValue, pin, STD_LOW);
          }
        }
      }
    }

    /** Dio_ReadPort. */
    method ReadPort(portId: bv8) returns (level: bv8)
      requires Valid()
      modifies this`detLog
      ensures Valid()
      ensures !PortIdValid(channels, usedPorts, portId) ==>
        level == 0 &&
        detLog == old(detLog) + [DetEvent(DIO_MODULE_ID, DIO_INSTANCE_ID, DIO_READPORT_SID, DIO_E_PARAM_INVALID_PORT_ID)]
      ensures PortIdValid(channels, usedPorts, portId) ==>
        level == data[portId as int] && detLog == old(detLog)
    {
      var ok := CheckPortId(channels, usedPorts, portId);
      if !ok {
        detLog := detLog + [DetEvent(DIO_MODULE_ID, DIO_INSTANCE_ID, DIO_READPORT_SID, DIO_E_PARAM_INVALID_PORT_ID)];
        level := STD_LOW;
      } else {
        level := data[portId];
      }
    }

    /** Dio_WritePort: one store of the masked value. */
    method WritePort(portId: bv8, level: bv8)
      requires Valid()
      modifies this`detLog, data
      ensures Valid()
      ensures !PortIdValid(channels, usedPorts, portId) ==>
        data[..] == old(data[..]) &&
        detLog == old(detLog) + [DetEvent(DIO_MODULE_ID, DIO_INSTANCE_ID, DIO_WRITEPORT_SID, DIO_E_PARAM_INVALID_PORT_ID)]
      ensures PortIdValid(channels, usedPorts, portId) ==>
        var p := portId as int;
        detLog == old(detLog) &&
        data[..] == old(data[..])[p := WritePortValue(old(data[p]), dir[p], level)]
    {
      var ok := CheckPortId(channels, usedPorts, portId);
      if !ok {
        detLog := detLog + [DetEvent(DIO_MODULE_ID, DIO_INSTANCE_ID, DIO_WRITEPORT_SID, DIO_E_PARAM_INVALID_PORT_ID)];
      } else {
        var directions := dir[portId];
        var oldData := data[portId];
        data[portId] := WritePortValue(oldData, directions, level);
      }
    }

    /** Dio_ReadChannelGroup. */
    method ReadChannelGroup(ref: GroupRef) returns (level: bv8)
      requires Valid()
      modifies this`detLog
      ensures Valid()
      ensures !GroupRefValid(groups, ref) ==>
        level == 0 &&
        detLog == old(detLog) + [DetEvent(DIO_MODULE_ID, DIO_INSTANCE_ID, DIO_READCHANNELGROUP_SID, DIO_E_PARAM_INVALID_GROUP)]
      ensures GroupRefValid(groups, ref) ==>
        var g := groups[ref.index];
        level == ReadGroupValue(data[g.port], Low8(g.mask), g.offset) && detLog == old(detLog)
    {
      var ok := CheckGroupId(groups, ref);
      if !ok {
        detLog := detLog + [DetEvent(DIO_MODULE_ID, DIO_INSTANCE_ID, DIO_READCHANNELGROUP_SID, DIO_E_PARAM_INVALID_GROUP)];
        level := STD_LOW;
      } else {
        var g := groups[ref.index];
        var portValue := data[g.port];
        ReadGroupPromoted(portValue, g);
        level := Low8(portValue as bv32 & g.mask) >> g.offset;
      }
    }

    /** Dio_WriteChannelGroup: one store of the masked value. */
    method WriteChannelGroup(ref: GroupRef, level: bv8)
      requires Valid()
      modifies this`detLog, data
      ensures Valid()
      ensures !GroupRefValid(groups, ref) ==>
        data[..] == old(data[..]) &&
        detLog == old(detLog) + [DetEvent(DIO_MODULE_ID, DIO_INSTANCE_ID, DIO_WRITECHANNELGROUP_SID, DIO_E_PARAM_INVALID_GROUP)]
      ensures GroupRefValid(groups, ref) ==>
        var g := groups[ref.index];
        detLog == old(detLog) &&
        data[..] == old(data[..])[g.port := WriteGroupValue(old(data[g.port]), dir[g.port], Low8(g.mask), g.offset, level)]
    {
      var ok := CheckGroupId(groups, ref);
      if !ok {
        detLog := detLog + [DetEvent(DIO_MODULE_ID, DIO_INSTANCE_ID, DIO_WRITECHANNELGROUP_SID, DIO_E_PARAM_INVALID_GROUP)];
      } else {
        var g := groups[ref.index];
        var oldData := data[g.port];
        var directions := dir[g.port];
        var stored := (!(directions as bv32) & oldData as bv32) | (!g.mask & oldData as bv32)
                      | (directions as bv32 & g.mask & (level as bv32 << g.offset));
        WriteGroupPromoted(oldData, directions, g, level);
        data[g.port] := Low8(stored);
      }
    }

    /** Dio_FlipChannel. On a valid channel the result is the pin's level
        after the call: the inverted bit for an output pin, the unchanged
        bit for an input pin. On an invalid channel the result variable is
        never assigned, so the value returned is unspecified. */
    method FlipChannel(channelId: bv8) returns (level: bv8)
      requires Valid()
      modifies this`detLog, data
      ensures Valid()
      ensures !ChannelIdValid(channels, channelId) ==>
        data[..] == old(data[..]) &&
        detLog == old(detLog) + [DetEvent(DIO_MODULE_ID, DIO_INSTANCE_ID, DIO_FLIPCHANNEL_SID, DIO_E_PARAM_INVALID_CHANNEL_ID)]
      ensures ChannelIdValid(channels, channelId) ==>
        var p, pin := ChannelPort(channelId), PinNumber(channelId);
        detLog == old(detLog) &&
        data[..] == old(data[..])[p := FlipValue(old(data[p]), dir[p], pin)] &&
        level == GetBit(data[p], pin)
    {
      level := *;
      var ok := CheckChannelId(channels, channelId);
      if !ok {
        detLog := detLog + [DetEvent(DIO_MODULE_ID, DIO_INSTANCE_ID, DIO_FLIPCHANNEL_SID, DIO_E_PARAM_INVALID_CHANNEL_ID)];
      } else {
        var port := GetChannelPortNumber(channels, channelId);
        var pin := PinNumber(channelId);
        var portValue := data[port];
        var direction := GetBit(dir[port], pin);
        var current := GetBit(portValue, pin);
        if direction != DIO_PIN_INPUT {
          var toggled := portValue ^ PinMask(pin);
          data[port] := toggled;
          level := GetBit(toggled, pin);
        } else {
          level := current;
        }
      }
    }

    /** Dio_GetVersionInfo. */
    method GetVersionInfo(slot: VersionInfoSlot?)
      modifies this`detLog, slot
      ensures slot == null ==>
        detLog == old(detLog) + [DetEvent(DIO_MODULE_ID, DIO_INSTANCE_ID, DIO_GETVERSIONINFO_SID, DIO_E_PARAM_POINTER)]
      ensures slot != null ==>
        detLog == old(detLog) &&
        slot.info == VersionInfo(DIO_VENDOR_ID, DIO_MODULE_ID, DIO_SW_MAJOR_VERSION, DIO_SW_MINOR_VERSION, DIO_SW_PATCH_VERSION)
    {
      if slot == null {
        detLog := detLog + [DetEvent(DIO_MODULE_ID, DIO_INSTANCE_ID, DIO_GETVERSIONINFO_SID, DIO_E_PARAM_POINTER)];
      } else {
        slot.info := VersionInfo(DIO_VENDOR_ID, DIO_MODULE_ID, DIO_SW_MAJOR_VERSION, DIO_SW_MINOR_VERSION, DIO_SW_PATCH_VERSION);
      }
    }
  }

  /** The channel round trip: on every valid channel whose pin is an
      output, Dio_WriteChannel of STD_HIGH followed by Dio_ReadChannel reads
      STD_HIGH, and neither call reports an error. */
  method WriteHighThenRead(d: DioDriver, channelId: bv8) returns (level: bv8)
    requires d.Valid() && ChannelIdValid(d.channels, channelId)
    requires GetBit(d.dir[d.ChannelPort(channelId)], PinNumber(channelId)) == 1
    modifies d`detLog, d.data
    ensures level == STD_HIGH && d.detLog == old(d.detLog)
  {
    d.WriteChannel(channelId, STD_HIGH);
    level := d.ReadChannel(channelId);
  }
}
