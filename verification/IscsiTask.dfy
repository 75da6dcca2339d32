/** Setup of iSCSI read/write tasks: the SQE and the task context are computed separately and must agree
    (drv_e4_iscsi_fw_funcs.c:25-129, 239-286, 399-477). Lengths are 32-bit values; a packed word is a
    number, and SET_FIELD replaces one of its digits. */
module IscsiTask {
  const SLOW_SGL_THR := 8
  const NUM_SGES_SLOWIO := 0xf
  const AHS_CNTL_SIZE := 4
  const U32 := 0x1_0000_0000

  datatype TaskType = InitiatorWrite | InitiatorRead | TargetRead | TargetWrite

  datatype Sgl = Sgl(numSges: nat, smallMidSge: bool, totalBufferSize: nat)

  /** DIF parameters, if there are any. */
  datatype Dif = NoDif | Dif(onNetwork: bool)

  /** Connection parameters as negotiated at login. */
  datatype Conn = Conn(initialR2t: bool, immediateData: bool, firstBurst: nat, maxBurst: nat, maxSendPdu: nat)

  /** One task: `ahs` is the AHS length of the command header, `cdbLen` the length of an extended CDB. */
  datatype Task = Task(kind: TaskType, txSize: nat, rxSize: nat, sgl: Sgl, dif: Dif, ahs: nat, cdbLen: nat)

  ghost predicate Wide(t: Task, c: Conn) {
    && t.txSize < U32 && t.rxSize < U32 && t.sgl.totalBufferSize < U32 && t.sgl.numSges < 0x10000
    && t.ahs < 256 && t.cdbLen < U32 && c.firstBurst < U32 && c.maxBurst < U32 && c.maxSendPdu < U32
  }

  // ---- Packed fields: SET_FIELD clears the field and inserts the value within its mask

  /** ISCSI_WQE_CONT_LEN: the low 24 bits of contlen_cdbsize. */
  function SetContLen(w: nat, x: nat): (w': nat)
    ensures w' % 0x1000000 == x % 0x1000000 && w' / 0x1000000 == w / 0x1000000
  {
    w - w % 0x1000000 + x % 0x1000000
  }

  /** ISCSI_WQE_CDB_SIZE: the high 8 bits of contlen_cdbsize. */
  function SetCdbSize(w: nat, x: nat): (w': nat)
    requires w < U32
    ensures w' < U32 && w' % 0x1000000 == w % 0x1000000 && w' / 0x1000000 == x % 256
  {
    w % 0x1000000 + (x % 256) * 0x1000000
  }

  /** ISCSI_WQE_NUM_SGES: bits 3 to 6 of the SQE flags. */
  function SetWqeSges(w: nat, x: nat): (w': nat)
    requires w < 256
    ensures w' < 256 && w' / 8 % 16 == x % 16 && w' % 8 == w % 8 && w' / 128 == w / 128
  {
    w - (w / 8 % 16) * 8 + (x % 16) * 8
  }

  /** ISCSI_REG1_NUM_SGES: the low 4 bits of the Ustorm register. */
  function SetReg1Sges(w: nat, x: nat): (w': nat)
    ensures w' % 16 == x % 16 && w' / 16 == w / 16
  {
    w - w % 16 + x % 16
  }

  // ---- Sizes

  function Min(a: nat, b: nat): (m: nat) { if a < b then a else b }

  predicate IsSlow(s: Sgl) { s.numSges > SLOW_SGL_THR && s.smallMidSge }

  /** The data that the task moves in its own direction. */
  function IoSize(t: Task): (n: nat) { if t.kind.InitiatorWrite? || t.kind.TargetRead? then t.txSize else t.rxSize }

  /** calc_rw_task_size: the data of the task, which differs only for DIF on the network, and then is what the
      list holds. */
  function TaskSize(t: Task): (n: nat)
    ensures n != IoSize(t) ==> IoSize(t) > 0 && t.dif.Dif? && t.dif.onNetwork && n == t.sgl.totalBufferSize
    ensures IoSize(t) > 0 && t.dif.Dif? && t.dif.onNetwork ==> n == t.sgl.totalBufferSize
  {
    var ioSize := IoSize(t);
    if ioSize == 0 then 0
    else if t.dif.NoDif? || !t.dif.onNetwork then ioSize
    else t.sgl.totalBufferSize
  }

  /** The hint about the list: its length, cut at the threshold, or the mark of a slow list. */
  function SgesHint(s: Sgl): (n: nat)
    ensures s.numSges > 8 && s.smallMidSge ==> n == 15
    ensures s.numSges <= 8 ==> n == s.numSges
    ensures s.numSges > 8 && !s.smallMidSge ==> n == 8
  {
    if IsSlow(s) then NUM_SGES_SLOWIO else Min(s.numSges, SLOW_SGL_THR)
  }

  /** How much data may go out before the target asks for it: sections 13.10, 13.11 and 13.14 of
      RFC 7143. */
  function MaxUnsolicited(c: Conn): (n: nat)
    ensures n <= c.firstBurst
    ensures c.initialR2t && !c.immediateData ==> n == 0
    ensures c.initialR2t ==> n <= c.maxSendPdu
  {
    if !c.initialR2t then c.firstBurst
    else if c.immediateData then Min(c.firstBurst, c.maxSendPdu)
    else 0
  }

  /** `n` is the hint about the list: 15 for a slow one, otherwise its length but at most 8. */
  ghost predicate HintOf(n: nat, s: Sgl) {
    n == if s.numSges > 8 && s.smallMidSge then 15 else if s.numSges < 8 then s.numSges else 8
  }

  /** The data that a task moves when no DIF goes over the network. */
  ghost predicate Moves(n: nat, t: Task) {
    match t.kind
    case InitiatorWrite => n == t.txSize
    case TargetRead => n == t.txSize
    case InitiatorRead => n == t.rxSize
    case TargetWrite => n == t.rxSize
  }

  // ---- The two structures

  class Sqe {
    var flags: nat
    var contLenCdbSize: nat

    function NumSges(): (n: nat)
      reads this
    {
      flags / 8 % 16
    }

    function ContLen(): (n: nat)
      reads this
    {
      contLenCdbSize % 0x1000000
    }

    /** init_sqe for a read/write task that is not a cleanup. */
    method Init(t: Task)
      requires t.txSize < U32
      modifies this
      ensures flags < 256 && contLenCdbSize < U32
      ensures (t.kind.InitiatorWrite? || t.kind.TargetRead?) && t.txSize > 0 ==>
                HintOf(NumSges(), t.sgl) && ContLen() == TaskSize(t) % 0x1000000
      ensures !((t.kind.InitiatorWrite? || t.kind.TargetRead?) && t.txSize > 0) ==> NumSges() == 0 && ContLen() == 0
      ensures contLenCdbSize / 0x1000000 ==
                if (t.kind.InitiatorWrite? || t.kind.InitiatorRead?) && t.ahs > 0 then t.cdbLen % 256 else 0
    {
      flags, contLenCdbSize := 0, 0;
      if t.kind.InitiatorWrite? || t.kind.TargetRead? {
        var bufSize, numSges := 0, 0;
        if t.txSize > 0 {
          bufSize := TaskSize(t);
          numSges := if IsSlow(t.sgl) then NUM_SGES_SLOWIO else Min(t.sgl.numSges, SLOW_SGL_THR);
        }
        PutLength(numSges, bufSize);
      }
      if (t.kind.InitiatorWrite? || t.kind.InitiatorRead?) && t.ahs > 0 { PutCdbSize(t.cdbLen); }
    }

    method PutLength(numSges: nat, bufSize: nat)
      requires flags == 0 && contLenCdbSize == 0 && numSges < 16
      modifies this
      ensures flags < 256 && contLenCdbSize < 0x1000000 && NumSges() == numSges && ContLen() == bufSize % 0x1000000
    {
      flags := SetWqeSges(flags, numSges);
      contLenCdbSize := SetContLen(contLenCdbSize, bufSize);
    }

    method PutCdbSize(cdbLen: nat)
      requires contLenCdbSize < U32
      modifies this`contLenCdbSize
      ensures contLenCdbSize < U32 && ContLen() == old(ContLen()) && contLenCdbSize / 0x1000000 == cdbLen % 256
    {
      contLenCdbSize := SetCdbSize(contLenCdbSize, cdbLen);
    }
  }

  class Context {
    var validation: nat
    var expectedTransferLength: nat
    var remRcvLen: nat
    var expDataTransferLen: nat
    var expDataAcked: nat
    var expContLen: nat
    var reg1: nat
    var slowIo: bool
    var remTaskSize: nat

    function NumSges(): (n: nat)
      reads this
    {
      reg1 % 16
    }

    /** init_default_iscsi_task: everything but the validation byte is cleared. */
    method Clear()
      modifies this
      ensures validation == old(validation) && !slowIo && reg1 == 0 && remTaskSize == 0
      ensures expectedTransferLength == remRcvLen == expDataTransferLen == expDataAcked == expContLen == 0
    {
      expectedTransferLength, remRcvLen, expDataTransferLen, expDataAcked := 0, 0, 0, 0;
      expContLen, reg1, slowIo, remTaskSize := 0, 0, false, 0;
    }

    /** set_rw_exp_data_acked_and_cont_len. */
    method SetExpDataAcked(t: Task, c: Conn, expLen: nat)
      modifies this`expDataAcked, this`expContLen
      ensures t.kind.InitiatorWrite? && t.ahs == 0 ==>
                expDataAcked == Min(expLen, MaxUnsolicited(c))
      ensures t.kind.InitiatorWrite? && t.ahs > 0 ==> expDataAcked == t.ahs + AHS_CNTL_SIZE
      ensures t.kind.InitiatorRead? ==> expDataAcked == if t.ahs == 0 then 0 else t.ahs + AHS_CNTL_SIZE
      ensures t.kind.TargetRead? ==> expDataAcked == expLen
      ensures t.kind.TargetWrite? ==> expContLen == TaskSize(t) && expDataAcked == old(expDataAcked)
      ensures !t.kind.TargetWrite? ==> expContLen == old(expContLen)
    {
      match t.kind {
        case InitiatorWrite =>
          var unsolicited := 0;
          if !c.initialR2t {
            unsolicited := c.firstBurst;
          } else if c.immediateData {
            unsolicited := Min(c.firstBurst, c.maxSendPdu);
          }
          expDataAcked := if t.ahs == 0 then Min(expLen, unsolicited) else t.ahs + AHS_CNTL_SIZE;
        case TargetRead => expDataAcked := expLen;
        case InitiatorRead => expDataAcked := if t.ahs == 0 then 0 else t.ahs + AHS_CNTL_SIZE;
        case TargetWrite => expContLen := TaskSize(t);
      }
    }

    /** The list hint and the slow mark of init_rw_iscsi_task. */
    method SetList(t: Task, taskSize: nat) returns (numSges: nat)
      requires !slowIo
      modifies this`slowIo, this`remTaskSize
      ensures if t.txSize > 0 || t.rxSize > 0 then HintOf(numSges, t.sgl) else numSges == 0
      ensures slowIo <==> t.txSize > 0 && t.sgl.numSges > 8 && t.sgl.smallMidSge
      ensures remTaskSize == if t.txSize == 0 && t.rxSize > 0 then taskSize else old(remTaskSize)
    {
      numSges := 0;
      if t.txSize > 0 {
        slowIo := IsSlow(t.sgl);
        numSges := if !slowIo then Min(t.sgl.numSges, SLOW_SGL_THR) else NUM_SGES_SLOWIO;
      } else if t.rxSize > 0 {
        numSges := if !IsSlow(t.sgl) then Min(t.sgl.numSges, SLOW_SGL_THR) else NUM_SGES_SLOWIO;
        remTaskSize := taskSize;
      }
    }

    /** init_rw_iscsi_task, context and SQE. */
    method InitRw(t: Task, c: Conn, sqe: Sqe)
      requires Wide(t, c)
      modifies this, sqe
      ensures validation == old(validation) && remRcvLen == TaskSize(t)
      ensures expDataTransferLen == if t.kind.TargetWrite? then Min(c.maxBurst, TaskSize(t)) else TaskSize(t)
      ensures !t.kind.TargetRead? && !t.kind.TargetWrite? ==> expectedTransferLength == TaskSize(t)
      ensures t.kind.TargetRead? || t.kind.TargetWrite? ==> expectedTransferLength == 0
      ensures t.dif.NoDif? || !t.dif.onNetwork ==> Moves(remRcvLen, t)
      ensures if t.txSize > 0 || t.rxSize > 0 then HintOf(NumSges(), t.sgl) else NumSges() == 0
      ensures slowIo <==> t.txSize > 0 && t.sgl.numSges > 8 && t.sgl.smallMidSge
      ensures remTaskSize == if t.txSize == 0 && t.rxSize > 0 then TaskSize(t) else 0
      ensures t.kind.InitiatorWrite? && t.ahs == 0 ==> expDataAcked == Min(TaskSize(t), MaxUnsolicited(c))
      ensures (t.kind.InitiatorWrite? || t.kind.InitiatorRead?) && t.ahs > 0 ==> expDataAcked == t.ahs + 4
      ensures t.kind.InitiatorRead? && t.ahs == 0 ==> expDataAcked == 0
      ensures t.kind.TargetRead? ==> expDataAcked == TaskSize(t)
      ensures t.kind.TargetWrite? ==> expDataAcked == Min(c.maxBurst, TaskSize(t)) && expContLen == TaskSize(t)
      ensures !t.kind.TargetWrite? ==> expContLen == 0
      ensures (t.kind.InitiatorWrite? || t.kind.TargetRead?) && t.txSize > 0 ==>
                HintOf(sqe.NumSges(), t.sgl) && sqe.ContLen() == TaskSize(t) % 0x1000000
      ensures !((t.kind.InitiatorWrite? || t.kind.TargetRead?) && t.txSize > 0) ==>
                sqe.NumSges() == 0 && sqe.ContLen() == 0
      ensures sqe.contLenCdbSize / 0x1000000 ==
                if (t.kind.InitiatorWrite? || t.kind.InitiatorRead?) && t.ahs > 0 then t.cdbLen % 256 else 0
    {
      var taskSize := TaskSize(t);
      var expLen := c.maxBurst;
      Clear();
      if !t.kind.TargetRead? && !t.kind.TargetWrite? { expectedTransferLength := taskSize; }
      var numSges := SetList(t, taskSize);
      if expLen > taskSize || !t.kind.TargetWrite? { expLen := taskSize; }
      remRcvLen := taskSize;
      expDataAcked := expLen;
      expDataTransferLen := expLen;
      reg1 := SetReg1Sges(reg1, numSges);
      SetExpDataAcked(t, c, expLen);
      sqe.Init(t);
    }
  }

  /** An initiator write with data to send. The SQE and the context agree on the list, and both lengths
      are the task size; the SQE agrees with them if and only if the size fits its 24 bits. Without an AHS
      no more than the negotiated burst goes out unsolicited. */
  method WriteAgrees(t: Task, c: Conn, ctx: Context, sqe: Sqe)
    requires Wide(t, c) && t.kind.InitiatorWrite? && t.txSize > 0
    modifies ctx, sqe
    ensures ctx.expectedTransferLength == ctx.remRcvLen == TaskSize(t)
    ensures sqe.ContLen() == ctx.remRcvLen <==> TaskSize(t) < 0x1000000
    ensures sqe.NumSges() == ctx.NumSges() && (ctx.slowIo <==> sqe.NumSges() == NUM_SGES_SLOWIO)
    ensures t.ahs == 0 ==> ctx.expDataAcked <= TaskSize(t) && ctx.expDataAcked <= c.firstBurst
    ensures t.ahs == 0 && c.initialR2t && !c.immediateData ==> ctx.expDataAcked == 0
    ensures t.ahs == 0 && c.initialR2t ==> ctx.expDataAcked <= c.maxSendPdu
  {
    ctx.InitRw(t, c, sqe);
  }

  /** The two list hints of an initiator write agree if and only if there is data to send, or no data at
      all, or no list. */
  method HintsAgreeIff(t: Task, c: Conn, ctx: Context, sqe: Sqe)
    requires Wide(t, c) && t.kind.InitiatorWrite?
    modifies ctx, sqe
    ensures sqe.NumSges() == ctx.NumSges() <==> t.txSize > 0 || t.rxSize == 0 || t.sgl.numSges == 0
  {
    ctx.InitRw(t, c, sqe);
  }

  /** The bounds, for all connections and sizes. */
  lemma {:induction false} UnsolicitedBounds(size: nat, c: Conn)
    ensures var acked := Min(size, MaxUnsolicited(c));
            && acked <= size && acked <= c.firstBurst && (c.initialR2t ==> acked <= c.maxSendPdu)
            && (acked == size <==>
                  size == 0 || (size <= c.firstBurst && (!c.initialR2t || (c.immediateData && size <= c.maxSendPdu))))
  {}
}
