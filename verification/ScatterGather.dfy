/** From the scatter/gather list of a command to the task context: the BD table (qedf_io.c:482-558), the
    task parameters (qedf_io.c:675-688) and the context (drv_e4_fcoe_fw_funcs.c:33-114,
    drv_scsi_fw_funcs.c:19-47). */
module ScatterGather {
  const MAX_BDS_PER_CMD := 256
  const PAGE_SIZE := 4096
  const NUM_SGES_SLOW_SGL_THR := 8
  const NUM_SGES_IN_CACHE := 4
  const U32 := 0x1_0000_0000

  /** One element of the mapped list. */
  datatype Sg = Sg(addr: nat, len: nat)

  /** One buffer descriptor: the address in two halves. */
  datatype Sge = Sge(lo: nat, hi: nat, len: nat)

  datatype SgeType = Unknown | Slow | Fast

  function ToSge(g: Sg): (b: Sge) { Sge(g.addr % U32, g.addr / U32, g.len) }

  /** No address bit is lost. */
  lemma {:induction false} AddressKept(g: Sg)
    requires g.addr < U32 * U32
    ensures ToSge(g).hi < U32 && ToSge(g).lo < U32 && ToSge(g).hi * U32 + ToSge(g).lo == g.addr
  {}

  function Total(sg: seq<Sg>): (n: nat) { if |sg| == 0 then 0 else Total(sg[..|sg| - 1]) + sg[|sg| - 1].len }

  function TotalLen(bd: seq<Sge>): (n: nat) { if |bd| == 0 then 0 else TotalLen(bd[..|bd| - 1]) + bd[|bd| - 1].len }

  /** Some element that is neither first nor last is shorter than a page. */
  ghost predicate SmallInside(sg: seq<Sg>) { exists i :: 0 < i < |sg| - 1 && sg[i].len < 4096 }

  lemma {:induction false} SameTotal(sg: seq<Sg>, bd: seq<Sge>)
    requires |bd| == |sg| && forall i :: 0 <= i < |sg| ==> bd[i] == ToSge(sg[i])
    ensures TotalLen(bd) == Total(sg)
  {
    if |sg| > 0 { SameTotal(sg[..|sg| - 1], bd[..|bd| - 1]); }
  }

  /** qedf_map_sg for the mapped list `sg`. */
  method MapSg(bd: array<Sge>, sg: seq<Sg>, read: bool) returns (sgeType: SgeType, bytes: nat)
    requires |sg| <= bd.Length
    modifies bd
    ensures forall i :: 0 <= i < |sg| ==> bd[i] == ToSge(sg[i])
    ensures bd[|sg|..] == old(bd[|sg|..])
    ensures bytes == Total(sg) == TotalLen(bd[..|sg|])
    ensures sgeType == if !read && |sg| > 8 && SmallInside(sg) then Slow else Fast
  {
    sgeType := Unknown;
    if |sg| <= 8 || read { sgeType := Fast; }
    bytes := 0;
    var i := 0;
    while i < |sg|
      invariant 0 <= i <= |sg| && bytes == Total(sg[..i])
      invariant forall k :: 0 <= k < i ==> bd[k] == ToSge(sg[k])
      invariant bd[|sg|..] == old(bd[|sg|..])
      invariant sgeType.Fast? <==> |sg| <= 8 || read
      invariant sgeType.Slow? <==> |sg| > 8 && !read && exists k :: 0 < k < |sg| - 1 && k < i && sg[k].len < PAGE_SIZE
    {
      if sgeType.Unknown? && i != 0 && i != |sg| - 1 && sg[i].len < PAGE_SIZE { sgeType := Slow; }
      bd[i] := ToSge(sg[i]);
      assert sg[..i + 1][..i] == sg[..i];
      bytes := bytes + sg[i].len;
      i := i + 1;
    }
    assert sg[..i] == sg;
    SameTotal(sg, bd[..|sg|]);
    if sgeType.Unknown? { sgeType := Fast; }
  }

  /** scsi_is_slow_sgl. */
  predicate IsSlowSgl(numSges: nat, smallMidSge: bool) { numSges > NUM_SGES_SLOW_SGL_THR && smallMidSge }

  datatype SglParams = SglParams(totalLength: nat, numSges: nat)

  /** The fields of the task context that the read/write setup writes: send side (Ystorm), receive side
      (Mstorm), and the modes in which they use the list. */
  class TaskContext {
    var valByte: nat
    var ySlow: bool
    var mTxSlow: bool
    var tRxSlow: bool
    var ySgl: SglParams
    var mSgl: SglParams
    var yRem: nat
    var mRem: nat
    const yCache: array<Sge>
    const mCache: array<Sge>

    ghost predicate Valid()
      reads this
    {
      yCache != mCache && yCache.Length == mCache.Length == NUM_SGES_IN_CACHE
    }

    /** memset of the context, with the validation byte preserved. */
    method Clear()
      requires Valid()
      modifies this, yCache, mCache
      ensures Valid() && valByte == old(valByte) && !ySlow && !mTxSlow && !tRxSlow && yRem == mRem == 0
      ensures ySgl == mSgl == SglParams(0, 0)
      ensures forall i :: 0 <= i < NUM_SGES_IN_CACHE ==> yCache[i] == mCache[i] == Sge(0, 0, 0)
    {
      ySlow, mTxSlow, tRxSlow, yRem, mRem := false, false, false, 0, 0;
      ySgl, mSgl := SglParams(0, 0), SglParams(0, 0);
      for i := 0 to NUM_SGES_IN_CACHE
        invariant forall k :: 0 <= k < i ==> yCache[k] == mCache[k] == Sge(0, 0, 0)
        modifies yCache, mCache
      {
        yCache[i], mCache[i] := Sge(0, 0, 0), Sge(0, 0, 0);
      }
    }
  }

  /** The cache holds the beginning of the list, and nothing else. */
  ghost predicate Cached(cache: seq<Sge>, sgl: seq<Sge>, numSges: nat) {
    && |cache| == 4 && numSges <= |sgl|
    && forall i :: 0 <= i < 4 ==> cache[i] == if i < numSges then sgl[i] else Sge(0, 0, 0)
  }

  /** init_scsi_sgl_context on a cleared cache. */
  method InitSglContext(cache: array<Sge>, sgl: array<Sge>, numSges: nat)
    requires cache != sgl && cache.Length == NUM_SGES_IN_CACHE && numSges <= sgl.Length
    requires forall i :: 0 <= i < NUM_SGES_IN_CACHE ==> cache[i] == Sge(0, 0, 0)
    modifies cache
    ensures Cached(cache[..], sgl[..], numSges)
  {
    var n := if numSges > NUM_SGES_IN_CACHE then NUM_SGES_IN_CACHE else numSges;
    var i := 0;
    while i < n
      invariant 0 <= i <= n
      invariant forall k :: 0 <= k < NUM_SGES_IN_CACHE ==> cache[k] == if k < i then sgl[k] else Sge(0, 0, 0)
    {
      cache[i] := sgl[i];
      i := i + 1;
    }
  }

  /** init_initiator_rw_fcoe_task, as far as the list goes. */
  method InitRwTask(ctx: TaskContext, write: bool, ioSize: nat, sgl: array<Sge>, numSges: nat, total: nat,
                    smallMid: bool)
    requires ctx.Valid() && numSges <= sgl.Length && sgl != ctx.yCache && sgl != ctx.mCache
    modifies ctx, ctx.yCache, ctx.mCache
    ensures ctx.Valid() && ctx.valByte == old(ctx.valByte) && ctx.yRem == ioSize
    ensures var slow := IsSlowSgl(numSges, smallMid);
            if write then ctx.ySlow == ctx.mTxSlow == slow && !ctx.tRxSlow
            else ctx.tRxSlow == slow && !ctx.ySlow && !ctx.mTxSlow
    ensures write ==>
      && ctx.ySgl == SglParams(total, numSges) && Cached(ctx.yCache[..], sgl[..], numSges)
      && ctx.mSgl == SglParams(0, numSges) && ctx.mRem == 0 && Cached(ctx.mCache[..], sgl[..], 0)
    ensures !write ==>
      && ctx.mSgl == SglParams(total, numSges) && ctx.mRem == ioSize && Cached(ctx.mCache[..], sgl[..], numSges)
      && ctx.ySgl == SglParams(0, 0) && Cached(ctx.yCache[..], sgl[..], 0)
  {
    ctx.Clear();
    var slow := IsSlowSgl(numSges, smallMid);
    ctx.yRem := ioSize;
    if write {
      ctx.ySlow := slow;
      ctx.ySgl := SglParams(total, numSges);
      InitSglContext(ctx.yCache, sgl, numSges);
      ctx.mTxSlow := slow;
      ctx.mSgl := ctx.mSgl.(numSges := numSges);
    } else {
      ctx.tRxSlow := slow;
      ctx.mRem := ioSize;
      ctx.mSgl := SglParams(total, numSges);
      InitSglContext(ctx.mCache, sgl, numSges);
    }
  }

  /** sc_data_direction; anything but the first two counts as a control request and is set up as a read. */
  datatype Direction = FromDevice | ToDevice | Other

  /** A command with `sgCount` elements, of which `sg` came out of the DMA mapping: qedf_queuecommand,
      qedf_post_io_req, qedf_build_bd_list_from_sg and qedf_init_task. */
  method BuildTask(ctx: TaskContext, bd: array<Sge>, sgCount: nat, sg: seq<Sg>, dir: Direction, ioSize: nat)
    returns (ok: bool)
    requires ctx.Valid() && bd.Length == MAX_BDS_PER_CMD && bd != ctx.yCache && bd != ctx.mCache && |sg| <= sgCount
    modifies ctx, ctx.yCache, ctx.mCache, bd
    ensures ok <==> sgCount <= 256 && (sgCount == 0 || |sg| > 0)
    ensures ok ==> forall i :: 0 <= i < |sg| ==> bd[i] == ToSge(sg[i])
    ensures ok ==> TotalLen(bd[..|sg|]) == Total(sg) && (sgCount == 0 ==> bd[0] == Sge(0, 0, 0))
    ensures ok ==> ctx.valByte == old(ctx.valByte) && ctx.yRem == ioSize
    ensures ok && dir.ToDevice? ==> ctx.ySgl.totalLength == ioSize
    ensures ok && !dir.ToDevice? ==> ctx.mRem == ioSize && ctx.mSgl.totalLength == ioSize
    ensures ok && ioSize == Total(sg) ==> ctx.yRem == TotalLen(bd[..|sg|])
    ensures ok && dir.ToDevice? ==>
      && (ctx.ySlow <==> |sg| > 8 && SmallInside(sg)) && ctx.mTxSlow == ctx.ySlow && !ctx.tRxSlow
      && ctx.ySgl.numSges == ctx.mSgl.numSges == |sg| && Cached(ctx.yCache[..], bd[..], |sg|)
    ensures ok && !dir.ToDevice? ==>
      && (ctx.tRxSlow <==> dir.Other? && |sg| > 8 && SmallInside(sg)) && !ctx.ySlow && !ctx.mTxSlow
      && ctx.mSgl.numSges == |sg| && Cached(ctx.mCache[..], bd[..], |sg|)
  {
    if sgCount > MAX_BDS_PER_CMD { return false; }
    var sgeType := Fast;
    if sgCount > 0 {
      var bytes;
      sgeType, bytes := MapSg(bd, sg, dir.FromDevice?);
      if |sg| == 0 { return false; }
    } else {
      bd[0] := Sge(0, 0, 0);
    }
    InitRwTask(ctx, dir.ToDevice?, ioSize, bd, |sg|, ioSize, sgeType.Slow?);
    return true;
  }
}
