# AUTOSAR DIO driver and CanIf notification / dynamic-ID services in Dafny

This project models two parts of an AUTOSAR R4.3.1 basic-software stack for the
Tiva C microcontroller:

- **DIO driver** (`Dio.c`). Each of the six GPIO ports A..F is modelled as an 8-bit data
  register and an 8-bit direction register (a 1 bit marks an output pin). The driver
  resolves channel IDs, port IDs and channel-group pointers against a static
  configuration. It reads and writes the data register through the mask formulas of
  Dio_ReadChannel, Dio_WriteChannel, Dio_ReadPort, Dio_WritePort, Dio_ReadChannelGroup,
  Dio_WriteChannelGroup and Dio_FlipChannel. Dio_GetVersionInfo fills in the version
  record. With development error detection on:
  - every invalid identifier or NULL pointer is reported once to the Default Error Tracer;
  - a read then returns 0 and a write touches no register.
- **CanIf services** (`CanIf.c`):
  - CanIf_ReadTxNotifStatus reads and clears the transmit notification flag of a Tx L-PDU;
  - CanIf_SetDynamicTxId overwrites the CAN identifier of a Tx L-PDU's configuration entry;
  - both first check the module state, then the PDU ID, then the per-PDU setting or the
    CAN-ID bits.

Layout:

- `common.dfy` (module `Common`): the Det_ReportError record and the standard levels.
- `dio.dfy` (module `Dio`):
  - the register transforms as functions over `bv8`, with their laws as lemmas;
  - the validation scans and the port lookup as methods with loops, proved against
    predicates on the configuration;
  - the driver as a class whose data registers are an `array<bv8>` written in place.
- `dio_config.dfy` (module `DioConfig`): the configuration the repository ships (three LEDs
  on port B, two groups on port B) and what the driver does with it.
- `canif.dfy` (module `CanIf`):
  - the CAN-ID and PDU-ID checks;
  - the read-and-clear and the identifier store as functions on sequences;
  - the module state as a class whose flag table and configuration table are arrays
    written in place.

The C code promotes the group operations to 32-bit `int` arithmetic.
- The driver methods compute them that way, in `bv32`.
- The laws are stated over the 8-bit value.
- `Dio.ReadGroupPromoted` and `Dio.WriteGroupPromoted` prove that the 32-bit and 8-bit
  forms agree.

Each call of Det_ReportError is one entry of a ghost log, `detLog`.

## Model

| member | source | states |
|---|---|---|
| `Dio.PinNumber` | AUTOSAR/BSW/MCAL/DIO/src/Dio.c:996-1004 | The pin position is below 16 and is the low nibble of the channel ID: it and the high nibble together give back the ID. |
| `Dio.GetBit` | AUTOSAR/BSW/MCAL/DIO/src/Dio.c:1290-1301 | No contract of its own: GET_BIT as DioReadPin (and DioGetPinDirection, Dio.c:1334-1345) applies it, the pin's bit moved down to bit 0; what it yields is proved in `Dio.GetBitLaw`. |
| `Dio.WritePin` | AUTOSAR/BSW/MCAL/DIO/src/Dio.c:1245-1260 | No contract of its own: SET_BIT for every level other than STD_LOW and CLEAR_BIT for STD_LOW; its effect is proved in `Dio.WritePinLaw`. |
| `Dio.WriteChannelValue` | AUTOSAR/BSW/MCAL/DIO/src/Dio.c:333-347 | No contract of its own: an input pin leaves the register alone, STD_HIGH writes the pin high and every other level writes it low; its effect is proved in `Dio.WriteChannelLaw`. |
| `Dio.WritePortValue` | AUTOSAR/BSW/MCAL/DIO/src/Dio.c:525 | No contract of its own: the old value on the input bits combined with the level on the output bits, `(~direction & old)` or-ed with `(level & direction)`; its bits are proved in `Dio.WritePortBits`. |
| `Dio.ReadGroupValue` | AUTOSAR/BSW/MCAL/DIO/src/Dio.c:612-618 | No contract of its own: the port masked, then shifted down by the offset, over the mask's low byte; tied to the C expression by `Dio.ReadGroupPromoted`, its bits proved in `Dio.ReadGroupBits`. |
| `Dio.WriteGroupValue` | AUTOSAR/BSW/MCAL/DIO/src/Dio.c:722-725 | No contract of its own: the three-term merge of the C expression over the mask's low byte; tied to the C expression by `Dio.WriteGroupPromoted`, its effect proved in `Dio.WriteGroupMaskLaw`. |
| `Dio.FlipValue` | AUTOSAR/BSW/MCAL/DIO/src/Dio.c:901-913 | No contract of its own: TOGGLE_BIT on an output pin and no change on an input pin; its effect is proved in `Dio.FlipLaw`. |
| `Dio.GetBitLaw` | AUTOSAR/BSW/MCAL/DIO/src/Dio.c:1290-1301 | Reading a pin (and, by the same macro, a direction bit) yields 0 or 1, and 1 exactly when that pin's bit of the register is set. |
| `Dio.WritePinLaw` | AUTOSAR/BSW/MCAL/DIO/src/Dio.c:1245-1260 | DioWritePin changes only the pin's bit; the bit becomes 1 for every level other than STD_LOW and 0 for STD_LOW. |
| `Dio.WriteChannelLaw` | AUTOSAR/BSW/MCAL/DIO/src/Dio.c:318-347 | Dio_WriteChannel leaves the port of an input pin unchanged; on an output pin only that pin's bit changes, and it is set exactly when the level is STD_HIGH. |
| `Dio.WriteChannelIsMaskedWritePort` | AUTOSAR/BSW/MCAL/DIO/src/Dio.c:274-350 | Writing one channel equals the port write formula with every other pin treated as an input and the level spread to 0xFF or 0x00. |
| `Dio.WritePortBits` | AUTOSAR/BSW/MCAL/DIO/src/Dio.c:512-531 | After Dio_WritePort every input bit of the port keeps its old value and every output bit equals the corresponding bit of the written level. |
| `Dio.ReadGroupPromoted` | AUTOSAR/BSW/MCAL/DIO/src/Dio.c:607-618 | The C read of a group (register promoted to 32 bits, masked, cast to 8 bits, shifted) equals the 8-bit masked and shifted value. |
| `Dio.ReadGroupBits` | AUTOSAR/BSW/MCAL/DIO/src/Dio.c:607-618 | A group read is aligned to bit 0: bit i of the result is bit i + offset of the masked port, and 0 past the top of the port. |
| `Dio.WriteGroupPromoted` | AUTOSAR/BSW/MCAL/DIO/src/Dio.c:722-725 | The 32-bit value Dio_WriteChannelGroup stores has no bit above bit 7 and equals the 8-bit group write. |
| `Dio.WriteGroupMaskLaw` | AUTOSAR/BSW/MCAL/DIO/src/Dio.c:702-731 | After a group write, bits that are inputs or outside the mask keep their old value; output bits inside the mask equal the level shifted up by the offset. |
| `Dio.WholePortGroupIsWritePort` | AUTOSAR/BSW/MCAL/DIO/src/Dio.c:722-725 | A group with mask 0xFF at offset 0 writes exactly what Dio_WritePort writes. |
| `Dio.WriteGroupIdempotent` | AUTOSAR/BSW/MCAL/DIO/src/Dio.c:722-725 | Writing the same level to a group twice leaves the port as one write does. |
| `Dio.ReadGroupWithinMask` | AUTOSAR/BSW/MCAL/DIO/src/Dio.c:612-618 | A group read has no bit outside the mask shifted down by the offset. |
| `Dio.GroupReadAfterWrite` | AUTOSAR/BSW/MCAL/DIO/src/Dio.c:612-725 | For every mask, offset below 8, direction and level: the group write of Dio.c:722-725 followed by the group read of Dio.c:612-618 returns the written level on every bit whose pin is an output inside the mask. |
| `Dio.GroupReadAfterWriteOutputs` | AUTOSAR/BSW/MCAL/DIO/src/Dio.c:612-725 | When every pin of the group is an output, reading a group back after writing a level returns exactly the level cut to the group's width, `level & (mask >> offset)`. |
| `Dio.FlipLaw` | AUTOSAR/BSW/MCAL/DIO/src/Dio.c:883-913 | Dio_FlipChannel leaves the port of an input pin unchanged; on an output pin only that pin's bit changes, and it is inverted. |
| `Dio.FlipTwiceRestores` | AUTOSAR/BSW/MCAL/DIO/src/Dio.c:883-913 | Two flips of the same channel restore the data register. |
| `Dio.LastMatchPort` | AUTOSAR/BSW/MCAL/DIO/src/Dio.c:958-964 | For an ID the channel table has, the port found is the port of the last entry with that ID (no later entry has it). |
| `Dio.CheckChannelId` | AUTOSAR/BSW/MCAL/DIO/src/Dio.c:1073-1102 | The check passes exactly when the ID is at most 0x53 and some channel-table entry has it. |
| `Dio.CheckPortId` | AUTOSAR/BSW/MCAL/DIO/src/Dio.c:1134-1163 | The check passes exactly when the port ID is at most 5 and is the port field of one of the first NUM_OF_USED_PORTS channel-table entries. |
| `Dio.CheckGroupId` | AUTOSAR/BSW/MCAL/DIO/src/Dio.c:1194-1211 | The check passes exactly when the pointer is the address of one of the configured group entries; NULL and copies elsewhere fail. |
| `Dio.GetChannelPortNumber` | AUTOSAR/BSW/MCAL/DIO/src/Dio.c:953-967 | For an ID the table has, the scan returns the port of the last matching entry. |
| `Dio.DioDriver.ReadChannel` | AUTOSAR/BSW/MCAL/DIO/src/Dio.c:177-242 | An invalid channel reports DIO_E_PARAM_INVALID_CHANNEL_ID once and returns STD_LOW; a valid channel whose pin reads 1 returns STD_HIGH; nothing is written. |
| `Dio.DioDriver.WriteChannel` | AUTOSAR/BSW/MCAL/DIO/src/Dio.c:274-350 | An invalid channel reports once and changes no register; a valid one changes only its own port, to the `Dio.WriteChannelValue` value. |
| `Dio.DioDriver.ReadPort` | AUTOSAR/BSW/MCAL/DIO/src/Dio.c:378-431 | An invalid port reports DIO_E_PARAM_INVALID_PORT_ID once and returns 0; a valid one returns the whole data register of the port. |
| `Dio.DioDriver.WritePort` | AUTOSAR/BSW/MCAL/DIO/src/Dio.c:463-534 | An invalid port reports once and changes no register; a valid one stores the masked value in its own data register and nowhere else. |
| `Dio.DioDriver.ReadChannelGroup` | AUTOSAR/BSW/MCAL/DIO/src/Dio.c:562-623 | An invalid group pointer reports DIO_E_PARAM_INVALID_GROUP once and returns 0; a valid one returns the masked port shifted down by the offset. |
| `Dio.DioDriver.WriteChannelGroup` | AUTOSAR/BSW/MCAL/DIO/src/Dio.c:656-734 | An invalid group pointer reports once and changes no register; a valid one stores the group write value in the group's port only. |
| `Dio.DioDriver.FlipChannel` | AUTOSAR/BSW/MCAL/DIO/src/Dio.c:839-918 | An invalid channel reports once and changes no register; a valid one stores the flip value in its port only and returns the pin's level afterwards. |
| `Dio.DioDriver.GetVersionInfo` | AUTOSAR/BSW/MCAL/DIO/src/Dio.c:765-803 | A NULL pointer reports DIO_E_PARAM_POINTER once; otherwise the record receives vendor 0x40, module 120 and version 1.0.0. |
| `Dio.WriteHighThenRead` | AUTOSAR/BSW/MCAL/DIO/src/Dio.c:177-350 | On every valid channel whose pin is an output, Dio_WriteChannel of STD_HIGH followed by Dio_ReadChannel returns STD_HIGH, and neither call reports an error. |
| `DioConfig.ShippedConfigWellFormed` | AUTOSAR/BSW/MCAL/DIO/gen/Dio_Lcfg.c:34-63 | The shipped channel and group tables satisfy the driver's configuration invariant. |
| `DioConfig.ShippedChannels` | AUTOSAR/BSW/MCAL/DIO/gen/Dio_Lcfg.c:34-49 | Exactly the three LED channels pass the channel check. |
| `DioConfig.ShippedPorts` | AUTOSAR/BSW/MCAL/DIO/gen/Dio_Cfg.h:58-68 | Exactly port B passes the port check, because the scan reads the port field of the three LED entries. |
| `DioConfig.ShippedChannelPorts` | AUTOSAR/BSW/MCAL/DIO/gen/Dio_Cfg.h:62-68 | Every LED channel is looked up on port B. |
| `DioConfig.ShippedGroupsReadAfterWrite` | AUTOSAR/BSW/MCAL/DIO/gen/Dio_Lcfg.c:51-63 | The group round trip `Dio.GroupReadAfterWriteOutputs` on the two shipped groups: when every pin of the group is an output, reading after writing V returns V & 0x67 (mask 0xCE) or V & 0x47 (mask 0x8E). |
| `DioConfig.GroupWriteThenReadPort` | AUTOSAR/BSW/MCAL/DIO/gen/Dio_Lcfg.c:51-63 | Writing 0b0100_0111 to group 0 (mask 0xCE, offset 1) and reading port B: the output bits inside the mask read 0x8E, every other bit (inputs included) is unchanged. |
| `DioConfig.WriteHighThenReadChannel` | AUTOSAR/BSW/MCAL/DIO/src/Dio.c:318-347 | The channel round trip `Dio.WriteHighThenRead` on LED1: writing STD_HIGH and reading it back gives STD_HIGH when its pin is an output. |
| `CanIf.CheckTxId` | AUTOSAR/BSW/ECUAL/CanIf/src/CanIf.c:422-432 | The result is CANIF_OK or CANIF_ERROR, and CANIF_OK exactly when the PDU ID is below the number of Tx L-PDUs. |
| `CanIf.CheckCanId` | AUTOSAR/BSW/ECUAL/CanIf/src/CanIf.c:463-474 | The verdict is CANIF_OK or CANIF_ERROR; which identifiers it accepts is proved in `CanIf.CheckCanIdRange`. |
| `CanIf.CheckCanIdRange` | AUTOSAR/BSW/ECUAL/CanIf/src/CanIf.c:463-474 | CanIfCheckCanId accepts exactly the standard identifiers of 11 bits (bit 31 clear) and the extended identifiers of 29 bits (bit 31 set). |
| `CanIf.CheckCanIdIgnoresBit30` | AUTOSAR/BSW/ECUAL/CanIf/src/CanIf.c:469-470 | Two identifiers that differ only in bit 30 get the same verdict. |
| `CanIf.ReadAndClear` | AUTOSAR/BSW/ECUAL/CanIf/src/CanIf.c:239-249 | The read reports a notification exactly when the PDU's flag holds one; afterwards that flag holds none and every other flag is unchanged. |
| `CanIf.ReadAndClearTwice` | AUTOSAR/BSW/ECUAL/CanIf/src/CanIf.c:249 | A second read of the same PDU with no confirmation in between reports no notification and changes nothing. |
| `CanIf.ReadAndClearCommutes` | AUTOSAR/BSW/ECUAL/CanIf/src/CanIf.c:239-249 | Reads of two different PDUs give the same statuses and flags in either order. |
| `CanIf.SetCanId` | AUTOSAR/BSW/ECUAL/CanIf/src/CanIf.c:506-513 | The PDU's entry gets the new identifier and keeps its notification setting; every other entry is unchanged. |
| `CanIf.SetCanIdLastWins` | AUTOSAR/BSW/ECUAL/CanIf/src/CanIf.c:376-385 | Two identifier changes of one PDU leave the table as the second alone would. |
| `CanIf.SetCanIdSame` | AUTOSAR/BSW/ECUAL/CanIf/src/CanIf.c:376-385 | Setting the identifier a PDU already has leaves the table unchanged. |
| `CanIf.CanIfState.ReadTxNotifStatus` | AUTOSAR/BSW/ECUAL/CanIf/src/CanIf.c:165-257 | The first failing check (uninitialised, PDU out of range, PDU without notification status) reports its one error and returns no notification with the flags untouched; otherwise the result and the new flags are the read-and-clear. |
| `CanIf.CanIfState.SetDynamicTxId` | AUTOSAR/BSW/ECUAL/CanIf/src/CanIf.c:296-388 | The first failing check (uninitialised, PDU out of range, CAN ID refused) reports its one error and leaves the configuration untouched; otherwise only the PDU's identifier changes, to the new one. |

## Left out

- Dio.DioDriver.ReadChannel: on a valid channel whose pin reads 0, the result is left unspecified. Dio.c:186 declares the result variable and only Dio.c:234-237 assigns it (when the pin is not low), so the C function returns an uninitialised value. For the same reason, reading back a channel written STD_LOW is not proved to give STD_LOW.
- Dio.DioDriver.FlipChannel: on an invalid channel the result is left unspecified. RetVal (Dio.c:850) is never assigned on the error path.
- Dio.GetChannelPortNumber: when no entry has the ID, the result is left unspecified. RetVal (Dio.c:955) is never assigned then. The driver calls the lookup only after the channel check has passed.
- Register access: GET_BIT, SET_BIT, CLEAR_BIT, TOGGLE_BIT, GET_PORT and SET_PORT come from a header that is not part of this model, as do the GPIO base addresses.
  - Each port is a pair of 8-bit registers, and DioGetPortAddress is indexing by port number.
  - GET_BIT is taken to yield the bit moved down to bit 0.
- Configuration invariant: every method of `Dio.DioDriver` but GetVersionInfo requires it and keeps it (`Valid`, through `ConfigWellFormed`), although the driver never checks it:
  - configured ports are at most 5;
  - configured channels name pins 0..7;
  - group offsets are below 8;
  - NUM_OF_USED_PORTS is at most the channel-table length.
  A configuration that breaks it would make the C code index past its port table or address bits beyond the 8-bit port.
- Loop counters: the C scans use `uint8` or `uint32` counters. The model uses unbounded indices, which is the same for tables of fewer than 256 entries.
- Channel-ID values: DIO_CHANNEL_B_4..B_6 and DIO_PORT_B are defined in a header that is not part of this model. `DioConfig` assumes port number times 16 plus pin (0x14..0x16) and port B = 1. This matches DioGetChannelPinNumber taking the low nibble.
- CanIf values from headers that are not part of this model:
  - CANIF_NO_NOTIFICATION is taken as the stored value 0;
  - TX_CAN_L_PDU_NUM is the length of the flag table;
  - the configuration table has the same length;
  - PduIdType is an unbounded natural number.
- CanIf_Init and CanIf_TxConfirmation are not in the modelled source. The initialisation state and the flags are therefore given to the `CanIf.CanIfState` constructor.
- Det_ReportError is an external service; each call is one entry of a ghost log.
- Critical sections (irq_Disable / irq_Enable): interrupt concurrency is not modelled, and each service is one atomic step.
- Preprocessor switches and version checks: the configuration is fixed with development error detection, Dio_FlipChannel and Dio_GetVersionInfo all enabled.
- The demo application (app/DioTest/main.c) calls the vendor's clock and GPIO library and is not modelled. The DCM headers declare types only and are not modelled.
