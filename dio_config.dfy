/** The DIO configuration that the repository ships (Dio_Cfg.h, Dio_Lcfg.c):
    three LED channels on port B, NUM_OF_USED_PORTS = 3 and two channel
    groups on port B, and what the driver's checks and services do with it. */
module DioConfig {
  import opened Common
  import opened Dio

  /** DIO_PORT_B. */
  const DIO_PORT_B: bv8 := 1

  /** LED1..LED3 are DIO_CHANNEL_B_4..DIO_CHANNEL_B_6: the port number in
      the high nibble and the pin number in the low nibble. */
  const LED1: bv8 := 0x14
  const LED2: bv8 := 0x15
  const LED3: bv8 := 0x16

  const NUM_OF_USED_PORTS: nat := 3

  /** ChannelConfig[NUM_OF_USED_PINS]. */
  function ChannelConfig(): seq<ChannelCfg>
  {
    [ChannelCfg(LED1, DIO_PORT_B), ChannelCfg(LED2, DIO_PORT_B), ChannelCfg(LED3, DIO_PORT_B)]
  }

  /** ChannelGroup[NUM_OF_USED_GROUPS]. */
  function ChannelGroup(): seq<GroupCfg>
  {
    [GroupCfg(0xCE, 1, DIO_PORT_B), GroupCfg(0x8E, 1, DIO_PORT_B)]
  }

  /** The shipped tables meet the driver's invariant. */
  lemma ShippedConfigWellFormed()
    ensures ConfigWellFormed(ChannelConfig(), NUM_OF_USED_PORTS, ChannelGroup())
  {
    assert PinNumber(0x14) == 4 && PinNumber(0x15) == 5 && PinNumber(0x16) == 6;
  }

  /** Exactly the three LED channels pass DioCheckChannelID. */
  lemma ShippedChannels(channelId: bv8)
    ensures ChannelIdValid(ChannelConfig(), channelId) <==>
      channelId == 0x14 || channelId == 0x15 || channelId == 0x16
  {
    var channels := ChannelConfig();
    if channelId == 0x14 || channelId == 0x15 || channelId == 0x16 {
      var k := channelId as int - 0x14;
      assert channels[k].channelId == channelId;
    }
  }

  /** Exactly port B passes DioCheckPortID: the scan reads the port of the
      three channel entries, which is port B for all of them. */
  lemma ShippedPorts(portId: bv8)
    ensures PortIdValid(ChannelConfig(), NUM_OF_USED_PORTS, portId) <==> portId == 1
  {
    if portId == 1 {
      assert ChannelConfig()[0].portId == portId;
    }
  }

  /** Every LED channel is looked up on port B. */
  lemma ShippedChannelPorts(channelId: bv8)
    requires ChannelIdValid(ChannelConfig(), channelId)
    ensures LastMatchPort(ChannelConfig(), channelId) == 1
  {
  }

  /** The group round trip on the two shipped groups: when every pin of
      the group is an output, the read returns the written value cut to the
      group's width, 0xCE >> 1 = 0x67 and 0x8E >> 1 = 0x47. */
  lemma ShippedGroupsReadAfterWrite(prev: bv8, dir: bv8, level: bv8)
    ensures dir & 0xCE == 0xCE ==>
      ReadGroupValue(WriteGroupValue(prev, dir, 0xCE, 1, level), 0xCE, 1) == level & 0x67
    ensures dir & 0x8E == 0x8E ==>
      ReadGroupValue(WriteGroupValue(prev, dir, 0x8E, 1, level), 0x8E, 1) == level & 0x47
  {
    if dir & 0xCE == 0xCE {
      GroupReadAfterWriteOutputs(prev, dir, 0xCE, 1, level);
    }
    if dir & 0x8E == 0x8E {
      GroupReadAfterWriteOutputs(prev, dir, 0x8E, 1, level);
    }
  }

  /** Writing 0b0100_0111 to group 0 (mask 0xCE, offset 1) and reading port
      B back: the output pins inside the mask show the level shifted up by
      one, which is 0x8E; every other bit of port B, input pins included,
      keeps its old value. */
  method GroupWriteThenReadPort(data0: seq<bv8>, dir0: seq<bv8>) returns (portB: bv8)
    requires |data0| == DIO_NUM_PORTS && |dir0| == DIO_NUM_PORTS
    ensures var selected := dir0[1] & 0xCE;
      portB & selected == 0x8E & selected && portB & !selected == data0[1] & !selected
  {
    ShippedConfigWellFormed();
    var driver := new DioDriver(ChannelConfig(), NUM_OF_USED_PORTS, ChannelGroup(), data0, dir0);
    driver.WriteChannelGroup(TableEntry(0), 0x47);
    ShippedPorts(DIO_PORT_B);
    portB := driver.ReadPort(DIO_PORT_B);
    WriteGroupMaskLaw(data0[1], dir0[1], 0xCE, 1, 0x47);
  }

  /** The channel round trip on LED1 (pin 4 of port B): writing STD_HIGH
      and reading it back gives STD_HIGH when the pin is an output. */
  method WriteHighThenReadChannel(data0: seq<bv8>, dir0: seq<bv8>) returns (level: bv8)
    requires |data0| == DIO_NUM_PORTS && |dir0| == DIO_NUM_PORTS
    requires GetBit(dir0[1], 4) == 1
    ensures level == STD_HIGH
  {
    ShippedConfigWellFormed();
    var driver := new DioDriver(ChannelConfig(), NUM_OF_USED_PORTS, ChannelGroup(), data0, dir0);
    ShippedChannels(LED1);
    ShippedChannelPorts(LED1);
    level := WriteHighThenRead(driver, LED1);
  }
}
