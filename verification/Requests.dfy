/** One I/O request of the qedf driver (`struct qedf_ioreq`) and what each handler does to it.

    Everything a handler consults outside the request pool (session and link state, room on the
    send queue, memory, pointer sanity, what the peer answered) is an `Env` value. It is
    unconstrained and may differ at every step. */
module Requests {
  datatype Option<+T> = None | Some(value: T)

  /** `cmd_type`: decides where a completion is dispatched. */
  datatype CmdType = ScsiCmd | Abts | Els | Cleanup

  /** Bits of `flags`. */
  datatype Flag = Outstanding | InAbort | InCleanup | ErrScsiDone | SrrSent

  /** Delayed work that can be pending on a request: `timeout_work` and `rrq_work`. */
  datatype Work = TimeoutWork | RrqWork

  /** `event`: why the request ended. It is written by handlers and never reset. */
  datatype Event = EvNone | EvAbortSuccess | EvAbortFailed | EvElsTmo | EvElsFlush | EvCleanupSuccess | EvCleanupFailed

  datatype ReqState = Inactive | IoActive | RrqActive | RrqWait

  datatype ElsOp = Adisc | Rrq | Rec | Srr

  /** `struct qedf_els_cb_arg`: the operation and the request it was sent for. */
  datatype CbArg = CbArg(op: ElsOp, aborted: Option<nat>)

  /** Where the flush walker is suspended on this request, waiting for its cleanup. */
  datatype FlushWait = NoFlush | FlushScsi | FlushAbts | FlushNullDevice | FlushEls

  /** Bookkeeping: the ABTS or ELS timeout handler waits for its cleanup; an ELS request was turned
      into an ABTS, so that its callback will never run; the firmware was told to abort the exchange in
      this use of the request, and has neither answered nor cleaned it up since. */
  datatype Mark = AbtsTmoWait | ElsTmoWait | ElsAborted | AbtsOut

  /** The last group of fields does not exist in the driver: it records handlers that are suspended
      on the request, and references that no code path will ever drop. No handler reads it. */
  datatype IoReq = IoReq(
    alloc: bool,
    fcport: Option<nat>,
    refs: int,
    cmdType: CmdType,
    scCmd: Option<nat>,
    cb: Option<CbArg>,
    flags: set<Flag>,
    event: Event,
    state: ReqState,
    returnOnAbts: bool,
    pending: set<Work>,
    // bookkeeping of the model
    life: nat,          // how often the request was released
    marks: set<Mark>,
    flushWait: FlushWait,
    eh: nat,            // error handlers that hold the request
    abandoned: nat)     // references nobody will drop

  datatype PtrCheck = GoodPtr | BadAddress | BadDevice

  /** What the peer answered to a REC or an SRR. */
  datatype ElsReply = CommandLost | ResponseLost | SrrRejected | OtherReply

  datatype AbtsReply = BaAcc | BaRjt | BaOther

  datatype Env = Env(
    ready: bool,       // QEDF_RPORT_SESSION_READY
    canAbort: bool,    // every other test that qedf_initiate_abts makes on port and link
    room: bool,        // free_sqes is not zero
    flushing: bool,    // the port is in a LUN or target reset that covers the request
    ptr: PtrCheck,
    elsReady: bool,    // the port and link tests of qedf_initiate_els
    memory: bool,      // cb_arg could be allocated
    mpOk: bool,        // qedf_init_mp_req succeeded
    postOk: bool,      // qedf_post_io_req reached the doorbell
    timedOut: bool,    // no cleanup completion arrived in time
    reply: ElsReply,
    wholeTarget: bool, // the flush was called with lun == -1
    lunMatches: bool,
    nullDevice: bool,  // sc_cmd->device is NULL
    recovery: bool)    // QEDF_IN_RECOVERY

  /** A request after a handler, and the SCSI command the handler gave back, if any. */
  datatype Outcome = Outcome(req: IoReq, done: Option<nat>)

  const FREE_REQ := IoReq(false, None, 0, ScsiCmd, None, None, {}, EvNone, Inactive, false, {}, 0, {}, NoFlush, 0, 0)

  // ---- Reference counting: qedf_io.c:444-480

  function Get(r: IoReq): (r': IoReq) { r.(refs := r.refs + 1) }

  /** qedf_release_cmd. */
  function Released(r: IoReq): (r': IoReq) {
    r.(refs := 0, alloc := false, fcport := None, state := Inactive, life := r.life + 1, marks := r.marks - {AbtsOut})
  }

  /** `kref_put(&io_req->refcount, qedf_release_cmd)`, done only if `drop`: the request goes back to
      the pool exactly when its count reaches zero. */
  function PutIf(r: IoReq, drop: bool): (r': IoReq) {
    if !drop then r
    else if r.refs == 1 then Released(r)
    else r.(refs := r.refs - 1)
  }

  function Put(r: IoReq): (r': IoReq) { PutIf(r, true) }

  /** The fields qedf_alloc_cmd writes (qedf_io.c:369-405). `event`, `cb` and both work items keep
      what the previous use of the request left in them. */
  function Fresh(r: IoReq, port: nat, t: CmdType): (r': IoReq) {
    r.(alloc := true, fcport := Some(port), refs := 1, cmdType := t, scCmd := None, state := IoActive, flags := {})
  }

  /** Binds a command to a fresh request, which becomes outstanding only once it is posted. */
  function Bind(r: IoReq, c: nat, posted: bool): (r': IoReq) {
    r.(scCmd := Some(c), flags := if posted then r.flags + {Outstanding} else r.flags)
  }

  function Unbind(r: IoReq): (r': IoReq) { r.(scCmd := None) }

  function StopTimer(r: IoReq): (r': IoReq) { r.(pending := r.pending - {TimeoutWork}) }

  function LeaveAbort(r: IoReq): (r': IoReq) { r.(flags := r.flags - {InAbort}) }

  function Quiesce(r: IoReq): (r': IoReq) { StopTimer(r).(flags := r.flags - {Outstanding}) }

  function WithEvent(r: IoReq, ev: Event): (r': IoReq) { r.(event := ev) }

  // ---- Giving a SCSI command back: qedf_io.c:1244-1605

  /** qedf_scsi_done. A bad pointer still drops the reference, but nothing is given back. */
  function ScsiDone(r: IoReq, token: bool, e: Env): (o: Outcome) {
    if ErrScsiDone in r.flags then Outcome(r, None)
    else
      var r1 := r.(flags := r.flags + {ErrScsiDone} - {Outstanding});
      if r.scCmd.None? || (!token && !e.ptr.BadAddress?) then Outcome(r1, None)
      else Outcome(Put(Unbind(r1)), if e.ptr.GoodPtr? then r.scCmd else None)
  }

  /** qedf_scsi_done, called only if `call`. */
  function ScsiDoneIf(r: IoReq, call: bool, token: bool, e: Env): (o: Outcome) {
    if call then ScsiDone(r, token, e) else Outcome(r, None)
  }

  function ScsiCompletion(r: IoReq, token: bool, e: Env): (o: Outcome) {
    if Outstanding !in r.flags || InCleanup in r.flags || InAbort in r.flags then Outcome(r, None)
    else if r.scCmd.None? || !token || !e.ptr.GoodPtr? || e.flushing then Outcome(r, None)
    else Outcome(Put(Unbind(r.(flags := r.flags - {Outstanding}))), r.scCmd)
  }

  // ---- Aborting: qedf_io.c:2064-2295

  predicate AbtsStarts(r: IoReq, e: Env) {
    e.ready && e.canAbort && e.room && Outstanding in r.flags && InCleanup !in r.flags && InAbort !in r.flags
  }

  function InitiateAbts(r: IoReq, returnCmd: bool, e: Env): (r': IoReq) {
    if AbtsStarts(r, e) then EnterAbort(r, returnCmd) else r
  }

  function EnterAbort(r: IoReq, returnCmd: bool): (r': IoReq) {
    r.(refs := r.refs + 1, cmdType := Abts, returnOnAbts := returnCmd, flags := r.flags + {InAbort},
       pending := r.pending + {TimeoutWork},
       marks := if r.cmdType.Els? then r.marks + {AbtsOut, ElsAborted} else r.marks + {AbtsOut})
  }

  /** An answer ends the abort. */
  function AbtsIn(r: IoReq): (r': IoReq) {
    r.(flags := r.flags - {InAbort}, pending := r.pending - {TimeoutWork}, marks := r.marks - {AbtsOut})
  }

  /** The answer decides the event; an accepted abort keeps the request for an RRQ. rrq_work cannot be
      queued twice: then the second reference has no owner. */
  function AbtsReplied(r: IoReq, reply: AbtsReply): (r': IoReq) {
    match reply
    case BaAcc =>
      Get(r).(event := EvAbortSuccess, state := RrqWait, pending := r.pending + {RrqWork},
              abandoned := r.abandoned + if RrqWork in r.pending then 1 else 0)
    case BaRjt => r.(event := EvAbortFailed)
    case BaOther => r
  }

  /** qedf_process_abts_compl does not ask whether the request is still in abort. */
  function AbtsCompl(r: IoReq, reply: AbtsReply, token: bool, e: Env): (o: Outcome) {
    if r.fcport.None? || e.flushing then Outcome(r, None)
    else if reply.BaAcc? && r.refs == 0 then Outcome(WithEvent(StopTimer(r), EvAbortSuccess), None)
    else AbtsGivesBack(AbtsReplied(AbtsIn(r), reply), token, e)
  }

  function AbtsGivesBack(r: IoReq, token: bool, e: Env): (o: Outcome) {
    var o := ScsiDoneIf(r, r.scCmd.Some? && r.returnOnAbts, token, e);
    Outcome(Put(o.req), o.done)
  }

  // ---- Cleaning up: qedf_io.c:2401-2551. The wait splits the function in two.

  predicate CleanupAdmitted(r: IoReq, e: Env) {
    r.fcport.Some? && e.ready && (r.cmdType.Els? || (Outstanding in r.flags && InCleanup !in r.flags))
  }

  predicate CleanupWaits(r: IoReq, e: Env) {
    CleanupAdmitted(r, e) && e.room && !r.cmdType.Cleanup?
  }

  /** An admitted cleanup that finds no room, or a cleanup already, clears its flag and returns. */
  function CleanupBegin(r: IoReq, returnCmd: bool, e: Env): (r': IoReq) {
    if !CleanupAdmitted(r, e) then r
    else if !CleanupWaits(r, e) then r.(flags := r.flags - {InCleanup})
    else r.(cmdType := Cleanup, returnOnAbts := returnCmd,
            flags := if r.cmdType.Els? then r.flags else r.flags + {InCleanup})
  }

  function CleanupEnd(r: IoReq, token: bool, e: Env): (o: Outcome) {
    var o := ScsiDoneIf(if e.timedOut then CleanupDone(r) else r, r.scCmd.Some? && r.returnOnAbts, token, e);
    Outcome(WithEvent(o.req, if e.timedOut then EvCleanupFailed else EvCleanupSuccess), o.done)
  }

  /** qedf_process_cleanup_compl (qedf_io.c:2541-2551) only wakes the waiter. */
  function CleanupDone(r: IoReq): (r': IoReq) { r.(flags := r.flags - {InCleanup}) }

  /** A cleanup that did not time out has also taken the ABTS of the exchange. */
  function Cleaned(r: IoReq, e: Env): (r': IoReq) {
    if e.timedOut then r else r.(marks := r.marks - {AbtsOut})
  }

  // ---- Timeouts: qedf_io.c:19-119

  function AbtsTimeout(r: IoReq, e: Env): (r': IoReq) {
    var r1 := CleanupBegin(StopTimer(r), true, e);
    if CleanupWaits(StopTimer(r), e) then r1.(marks := r1.marks + {AbtsTmoWait}) else Put(LeaveAbort(r1))
  }

  function AbtsTimeoutEnd(r: IoReq, token: bool, e: Env): (o: Outcome) {
    var o := CleanupEnd(r, token, e);
    Outcome(AbtsTmoLeaves(Cleaned(o.req, e)), o.done)
  }

  function AbtsTmoLeaves(r: IoReq): (r': IoReq) { Put(LeaveAbort(r.(marks := r.marks - {AbtsTmoWait}))) }

  // ---- Flushing: qedf_io.c:1732-2010

  function CancelRrq(r: IoReq): (r': IoReq) { PutIf(r.(pending := r.pending - {RrqWork}), RrqWork in r.pending) }

  function FlushNotOutstanding(r: IoReq): (r': IoReq) {
    if r.state.RrqWait? then CancelRrq(r) else r
  }

  function FlushAbtsVisit(r: IoReq, e: Env): (r': IoReq) {
    if r.refs == 0 || (!e.wholeTarget && !e.lunMatches) then r else FlushAbtsHeld(CancelRrq(Get(r)), e)
  }

  function FlushAbtsHeld(r: IoReq, e: Env): (r': IoReq) {
    if TimeoutWork !in r.pending then Put(r) else FlushAborting(StopTimer(r), e)
  }

  function FlushAborting(r: IoReq, e: Env): (r': IoReq) {
    if CleanupWaits(r, e) then CleanupBegin(r, true, e).(flushWait := FlushAbts)
    else Put(Put(LeaveAbort(CleanupBegin(r, true, e))))
  }

  function FlushScsiVisit(r: IoReq, token: bool, e: Env): (o: Outcome) {
    if r.scCmd.None? then Outcome(r, None)
    else if e.nullDevice then FlushCleanup(Unbind(r), false, FlushNullDevice, e)
    else if (!e.wholeTarget && !e.lunMatches) || r.refs == 0 then Outcome(r, None)
    else FlushCommand(r, token, e)
  }

  function FlushCommand(r: IoReq, token: bool, e: Env): (o: Outcome) { FlushHeld(Get(r), token, e) }

  /** During recovery the command is given back without a cleanup. */
  function FlushHeld(r: IoReq, token: bool, e: Env): (o: Outcome) {
    if e.recovery then
      var o := ScsiDone(r, token, e);
      Outcome(Put(o.req), o.done)
    else FlushCleanup(r, true, FlushScsi, e)
  }

  /** Starts the cleanup, and drops the walker's reference at once if there is nothing to wait for. */
  function FlushCleanup(r: IoReq, returnCmd: bool, w: FlushWait, e: Env): (o: Outcome) {
    var r1 := CleanupBegin(r, returnCmd, e);
    Outcome(if CleanupWaits(r, e) then r1.(flushWait := w) else Put(r1), None)
  }

  /** The flush walker resumes on a SCSI-type request. */
  function FlushScsiEnd(r: IoReq, token: bool, e: Env): (o: Outcome) {
    var o := CleanupEnd(r, token, e);
    Outcome(FlushLeaves(FlushCleaned(o.req, e)), o.done)
  }

  function FlushCleaned(r: IoReq, e: Env): (r': IoReq) { if r.flushWait.FlushAbts? then Cleaned(r, e) else r }

  function FlushLeaves(r: IoReq): (r': IoReq) {
    var r1 := r.(flushWait := NoFlush);
    if r.flushWait.FlushAbts? then Put(Put(LeaveAbort(r1))) else Put(r1)
  }

  // ---- RRQ and recovery ELSs, seen from the request they are sent for

  function RrqBegin(r: IoReq): (r': IoReq) { r.(pending := r.pending - {RrqWork}, state := RrqActive) }

  /** An error return that keeps a reference. */
  function Abandon(r: IoReq): (r': IoReq) { r.(abandoned := r.abandoned + 1) }

  function SrrBegin(r: IoReq): (r': IoReq) { r.(flags := r.flags + {SrrSent}) }

  function SrrEnd(r: IoReq): (r': IoReq) { r.(flags := r.flags - {SrrSent}) }

  /** qedf_srr_compl (qedf_els.c:577-663). */
  function SrrReturns(r: IoReq, ev: Event, e: Env): (r': IoReq) {
    if ev.EvElsTmo? then SrrEnd(r)
    else if e.reply.SrrRejected? then InitiateAbts(StopTimer(SrrEnd(r)), true, e)
    else StopTimer(SrrEnd(r))
  }

  // ---- Error handler: qedf_main.c:1040-1187

  function EhBegin(r: IoReq): (r': IoReq) { Get(r).(eh := r.eh + 1) }

  function EhAbort(r: IoReq, token: bool, e: Env): (o: Outcome) {
    if AbtsStarts(r, e) then Outcome(InitiateAbts(r, true, e), None) else EhGiveUp(r, token, e)
  }

  function EhGiveUp(r: IoReq, token: bool, e: Env): (o: Outcome) {
    var o := ScsiDone(r, token, e);
    Outcome(EhEnd(o.req), o.done)
  }

  function EhEnd(r: IoReq): (r': IoReq) { Put(r.(eh := if r.eh > 0 then r.eh - 1 else 0)) }
}
