/** The CAN interface (CanIf) services that read and clear the transmit
    notification status of a Tx L-PDU and that change the CAN identifier of a
    Tx L-PDU at run time, with their development-error checks.

    The module state of CanIf.c is a class: the initialisation state
    (CanInitState), the per-PDU notification flags (TxLPdu[].TxConfirmationStatus)
    and the Tx L-PDU configuration table that CanIf_ConfigPtr points to. The
    interrupt lock around each update is left out: every service is one atomic
    step. */
module CanIf {
  import opened Common

  // ---------------------------------------------------------------------
  // Identifiers and error codes (CanIf.h, CanIf.c)
  // ---------------------------------------------------------------------

  const CANIF_MODULE_ID: nat := 60
  const CANIF_INSTANCE_ID: nat := 0

  const CANIF_READTXNOTIFSTATUS_SID: nat := 0x07
  const CANIF_SETDYNAMICTXID_SID: nat := 0x0C

  const CANIF_E_PARAM_CANID: nat := 10
  const CANIF_E_UNINIT: nat := 30
  const CANIF_E_INVALID_TXPDUID: nat := 50

  /** The results of the local checks CanIfCheckTxId and CanIfCheckCanId. */
  const CANIF_OK: bv8 := 1
  const CANIF_ERROR: bv8 := 0

  /** Bit 31 of a Can_IdType tells an extended identifier from a standard one. */
  const CANIF_CANID_TYPE_MASK: bv32 := 0x8000_0000

  /** The stored value of a notification flag that holds no notification
      (CANIF_NO_NOTIFICATION, the first value of CanIf_NotifStatusType). */
  const CANIF_NO_NOTIFICATION: bv8 := 0

  /** CanIf_NotifStatusType, the result of CanIf_ReadTxNotifStatus. */
  datatype NotifStatus = NoNotification | TxRxNotification

  /** The fields of one Tx L-PDU configuration entry that the services use:
      whether its notification status may be read, and its CAN identifier. */
  datatype TxPduCfg = TxPduCfg(readNotifyStatus: bool, canId: bv32)

  // ---------------------------------------------------------------------
  // Local checks
  // ---------------------------------------------------------------------

  /** CanIfCheckTxId: a Tx PDU ID is valid when it is below the number of
      Tx L-PDUs (TX_CAN_L_PDU_NUM, here pduCount). */
  function CheckTxId(id: nat, pduCount: nat): (r: bv8)
    ensures r == CANIF_OK || r == CANIF_ERROR
    ensures r == CANIF_OK <==> id < pduCount
  {
    if id >= pduCount then CANIF_ERROR else CANIF_OK
  }

  /** The identifier bits without the type bit 31 and without bit 30, which
      CanIfCheckCanId does not inspect. */
  function IdBits(canId: bv32): bv32
  {
    canId & 0x3FFF_FFFF
  }

  /** CanIfCheckCanId, the bit tests as written: a standard identifier (bit
      31 clear) is refused when any of bits 11..29 is set, an extended one
      (bit 31 set) when bit 29 is set. */
  function CheckCanId(canId: bv32): (r: bv8)
    ensures r == CANIF_OK || r == CANIF_ERROR
  {
    if (canId & CANIF_CANID_TYPE_MASK == 0 && canId & 0x3FFF_F800 != 0) ||
       (canId & CANIF_CANID_TYPE_MASK != 0 && canId & 0x2000_0000 != 0)
    then CANIF_ERROR
    else CANIF_OK
  }

  /** What CanIfCheckCanId accepts: a standard identifier of 11 bits or an
      extended identifier of 29 bits. Bit 30 is never looked at. */
  lemma CheckCanIdRange(canId: bv32)
    ensures CheckCanId(canId) == CANIF_OK <==>
      if canId & CANIF_CANID_TYPE_MASK == 0 then IdBits(canId) < 0x800
      else IdBits(canId) < 0x2000_0000
  {
  }

  /** The three masks of CanIfCheckCanId see nothing of bit 30. */
  lemma MasksIgnoreBit30(x: bv32, y: bv32)
    requires x & 0xBFFF_FFFF == y & 0xBFFF_FFFF
    ensures x & 0x8000_0000 == y & 0x8000_0000
    ensures x & 0x3FFF_F800 == y & 0x3FFF_F800
    ensures x & 0x2000_0000 == y & 0x2000_0000
  {
  }

  /** Two identifiers that differ at most in bit 30 get the same verdict
      from CanIfCheckCanId. */
  lemma CheckCanIdIgnoresBit30(x: bv32, y: bv32)
    requires x & 0xBFFF_FFFF == y & 0xBFFF_FFFF
    ensures CheckCanId(x) == CheckCanId(y)
  {
    MasksIgnoreBit30(x, y);
  }

  // ---------------------------------------------------------------------
  // The two state changes, on values
  // ---------------------------------------------------------------------

  /** The read-and-clear of CanIf_ReadTxNotifStatus on the flag table: it
      reports a notification exactly when the PDU's flag holds one, and
      leaves that flag empty and every other flag as it was. */
  function ReadAndClear(flags: seq<bv8>, id: nat): (r: (NotifStatus, seq<bv8>))
    requires id < |flags|
    ensures r.0 == TxRxNotification <==> flags[id] != CANIF_NO_NOTIFICATION
    ensures |r.1| == |flags| && r.1[id] == CANIF_NO_NOTIFICATION
    ensures forall j :: 0 <= j < |flags| && j != id ==> r.1[j] == flags[j]
  {
    var status := if flags[id] != CANIF_NO_NOTIFICATION then TxRxNotification else NoNotification;
    (status, flags[id := CANIF_NO_NOTIFICATION])
  }

  /** A second read of the same PDU, with no confirmation in between,
      reports no notification and changes nothing more. */
  lemma ReadAndClearTwice(flags: seq<bv8>, id: nat)
    requires id < |flags|
    ensures var once := ReadAndClear(flags, id).1;
      ReadAndClear(once, id) == (NoNotification, once)
  {
    var once := ReadAndClear(flags, id).1;
    assert once[id := CANIF_NO_NOTIFICATION] == once;
  }

  /** Reads of two different PDUs do not interfere: in either order they
      report the same statuses and leave the same flags. */
  lemma ReadAndClearCommutes(flags: seq<bv8>, a: nat, b: nat)
    requires a < |flags| && b < |flags| && a != b
    ensures var (sa, fa) := ReadAndClear(flags, a);
            var (sb, fb) := ReadAndClear(flags, b);
      ReadAndClear(fa, b) == (sb, ReadAndClear(fb, a).1) &&
      ReadAndClear(fb, a).0 == sa
  {
    var fa := ReadAndClear(flags, a).1;
    var fb := ReadAndClear(flags, b).1;
    assert ReadAndClear(fa, b).1 == ReadAndClear(fb, a).1;
  }

  /** CanIfGetTxPduCfg followed by the store of CanIf_SetDynamicTxId: the
      entry of the PDU gets the new identifier and keeps its other fields;
      every other entry is unchanged. */
  function SetCanId(cfgs: seq<TxPduCfg>, id: nat, canId: bv32): (r: seq<TxPduCfg>)
    requires id < |cfgs|
    ensures |r| == |cfgs|
    ensures r[id].canId == canId && r[id].readNotifyStatus == cfgs[id].readNotifyStatus
    ensures forall j :: 0 <= j < |cfgs| && j != id ==> r[j] == cfgs[j]
  {
    cfgs[id := cfgs[id].(canId := canId)]
  }

  /** Setting an identifier twice keeps only the second. */
  lemma SetCanIdLastWins(cfgs: seq<TxPduCfg>, id: nat, first: bv32, second: bv32)
    requires id < |cfgs|
    ensures SetCanId(SetCanId(cfgs, id, first), id, second) == SetCanId(cfgs, id, second)
  {
    var once := SetCanId(cfgs, id, first);
    assert once[id := once[id].(canId := second)] == cfgs[id := cfgs[id].(canId := second)];
  }

  /** Setting the identifier a PDU already has changes nothing. */
  lemma SetCanIdSame(cfgs: seq<TxPduCfg>, id: nat)
    requires id < |cfgs|
    ensures SetCanId(cfgs, id, cfgs[id].canId) == cfgs
  {
    assert cfgs[id].(canId := cfgs[id].canId) == cfgs[id];
  }

  // ---------------------------------------------------------------------
  // The module state and the services
  // ---------------------------------------------------------------------

  class CanIfState {
    /** CanInitState != CANIF_UNINITIALIZED. CanIf_Init is not part of
        this model, so the state is given to the constructor. */
    var initialized: bool
    /** TxLPdu[].TxConfirmationStatus, one flag per Tx L-PDU. The writer,
        CanIf_TxConfirmation, is not part of this model. */
    const notif: array<bv8>
    /** The Tx L-PDU configuration table. */
    const txCfg: array<TxPduCfg>
    /** The calls of Det_ReportError so far. */
    ghost var detLog: seq<DetEvent>

    /** Both tables have one entry per Tx L-PDU, and they are two tables. */
    predicate Valid()
      reads this
    {
      notif.Length == txCfg.Length && notif as object != txCfg
    }

    /** The number of Tx L-PDUs (TX_CAN_L_PDU_NUM). */
    function PduCount(): nat
      reads this
    {
      notif.Length
    }

    constructor (initialized: bool, flags: seq<bv8>, cfgs: seq<TxPduCfg>)
      requires |flags| == |cfgs|
      ensures Valid() && fresh(notif) && fresh(txCfg)
      ensures this.initialized == initialized && notif[..] == flags && txCfg[..] == cfgs && detLog == []
    {
      this.initialized := initialized;
      notif := new bv8[|flags|](i requires 0 <= i < |flags| => flags[i]);
      txCfg := new TxPduCfg[|cfgs|](i requires 0 <= i < |cfgs| => cfgs[i]);
      detLog := [];
    }

    /** CanIf_ReadTxNotifStatus. The checks run in the order: not
        initialised, PDU out of range, PDU without notification status; each
        failure reports one error, returns no notification and leaves the
        flags alone. */
    method ReadTxNotifStatus(id: nat) returns (status: NotifStatus)
      requires Valid()
      modifies this`detLog, notif
      ensures Valid()
      ensures !initialized ==>
        status == NoNotification && notif[..] == old(notif[..]) &&
        detLog == old(detLog) + [DetEvent(CANIF_MODULE_ID, CANIF_INSTANCE_ID, CANIF_READTXNOTIFSTATUS_SID, CANIF_E_UNINIT)]
      ensures initialized && id >= PduCount() ==>
        status == NoNotification && notif[..] == old(notif[..]) &&
        detLog == old(detLog) + [DetEvent(CANIF_MODULE_ID, CANIF_INSTANCE_ID, CANIF_READTXNOTIFSTATUS_SID, CANIF_E_INVALID_TXPDUID)]
      ensures initialized && id < PduCount() && !txCfg[id].readNotifyStatus ==>
        status == NoNotification && notif[..] == old(notif[..]) &&
        detLog == old(detLog) + [DetEvent(CANIF_MODULE_ID, CANIF_INSTANCE_ID, CANIF_READTXNOTIFSTATUS_SID, CANIF_E_INVALID_TXPDUID)]
      ensures initialized && id < PduCount() && txCfg[id].readNotifyStatus ==>
        status == ReadAndClear(old(notif[..]), id).0 &&
        notif[..] == ReadAndClear(old(notif[..]), id).1 && detLog == old(detLog)
    {
      status := NoNotification;
      var errorFree := true;
      if !initialized {
        detLog := detLog + [DetEvent(CANIF_MODULE_ID, CANIF_INSTANCE_ID, CANIF_READTXNOTIFSTATUS_SID, CANIF_E_UNINIT)];
        errorFree := false;
      } else if CheckTxId(id, notif.Length) != CANIF_OK {
        detLog := detLog + [DetEvent(CANIF_MODULE_ID, CANIF_INSTANCE_ID, CANIF_READTXNOTIFSTATUS_SID, CANIF_E_INVALID_TXPDUID)];
        errorFree := false;
      } else if !txCfg[id].readNotifyStatus {
        detLog := detLog + [DetEvent(CANIF_MODULE_ID, CANIF_INSTANCE_ID, CANIF_READTXNOTIFSTATUS_SID, CANIF_E_INVALID_TXPDUID)];
        errorFree := false;
      }
      if errorFree {
        if notif[id] != CANIF_NO_NOTIFICATION {
          status := TxRxNotification;
        }
        notif[id] := CANIF_NO_NOTIFICATION;
      }
    }

    /** CanIf_SetDynamicTxId. The checks run in the order: not initialised,
        PDU out of range, CAN identifier refused by CanIfCheckCanId; each
        failure reports one error and leaves the configuration alone. */
    method SetDynamicTxId(id: nat, canId: bv32)
      requires Valid()
      modifies this`detLog, txCfg
      ensures Valid()
      ensures !initialized ==>
        txCfg[..] == old(txCfg[..]) &&
        detLog == old(detLog) + [DetEvent(CANIF_MODULE_ID, CANIF_INSTANCE_ID, CANIF_SETDYNAMICTXID_SID, CANIF_E_UNINIT)]
      ensures initialized && id >= PduCount() ==>
        txCfg[..] == old(txCfg[..]) &&
        detLog == old(detLog) + [DetEvent(CANIF_MODULE_ID, CANIF_INSTANCE_ID, CANIF_SETDYNAMICTXID_SID, CANIF_E_INVALID_TXPDUID)]
      ensures initialized && id < PduCount() && CheckCanId(canId) != CANIF_OK ==>
        txCfg[..] == old(txCfg[..]) &&
        detLog == old(detLog) + [DetEvent(CANIF_MODULE_ID, CANIF_INSTANCE_ID, CANIF_SETDYNAMICTXID_SID, CANIF_E_PARAM_CANID)]
      ensures initialized && id < PduCount() && CheckCanId(canId) == CANIF_OK ==>
        txCfg[..] == SetCanId(old(txCfg[..]), id, canId) && detLog == old(detLog)
    {
      var errorFree := true;
      if !initialized {
        detLog := detLog + [DetEvent(CANIF_MODULE_ID, CANIF_INSTANCE_ID, CANIF_SETDYNAMICTXID_SID, CANIF_E_UNINIT)];
        errorFree := false;
      } else if CheckTxId(id, notif.Length) != CANIF_OK {
        detLog := detLog + [DetEvent(CANIF_MODULE_ID, CANIF_INSTANCE_ID, CANIF_SETDYNAMICTXID_SID, CANIF_E_INVALID_TXPDUID)];
        errorFree := false;
      } else if CheckCanId(canId) != CANIF_OK {
        detLog := detLog + [DetEvent(CANIF_MODULE_ID, CANIF_INSTANCE_ID, CANIF_SETDYNAMICTXID_SID, CANIF_E_PARAM_CANID)];
        errorFree := false;
      }
      if errorFree {
        // CanIfGetTxPduCfg: the entry of the PDU in the configuration table.
        var entry := txCfg[id];
        txCfg[id] := entry.(canId := canId);
      }
    }
  }
}
