/** The request pool as a transition system: one step per driver handler. Handlers that sleep in
    qedf_initiate_cleanup are two steps. */
module Exchange {
  import opened Requests

  const NUM_TASKS := 4096                  // FCOE_PARAMS_NUM_TASKS
  const RESERVED_TASKS := 16               // GBL_RSVD_TASKS
  const RW_TASKS_PER_CONNECTION := 512     // NUM_RW_TASKS_PER_CONNECTION

  /** Submissions the driver accepted, and SCSI commands it gave back: on which request, in which
      life of that request, and whether by the normal completion path. */
  datatype LogEntry =
    | Accepted(cmd: nat)
    | Returned(cmd: nat, req: nat, life: nat, normal: bool)

  /** `scp` is `SCp.ptr` of every command that has it set. `active` holds num_active_ios per port.
      Two fields do not exist in the driver: `running` is the ELS request whose timeout or flush
      handler is running on a reference of its own, between steps nobody; `log` is history. */
  datatype State = State(
    reqs: seq<IoReq>,
    idx: nat,
    freeCnt: int,
    active: seq<int>,
    scp: map<nat, nat>,
    running: Option<nat>,
    log: seq<LogEntry>)

  ghost predicate WellFormed(s: State) { |s.reqs| == NUM_TASKS && s.idx < NUM_TASKS }

  ghost function Initial(ports: nat): (s: State) {
    State(seq(NUM_TASKS, _ => FREE_REQ), 0, NUM_TASKS, seq(ports, _ => 0), map[], None, [])
  }

  // ---- Storing a request; the pool counters follow every release (qedf_io.c:463-479)

  function AfterRelease(active: seq<int>, port: Option<nat>): (a: seq<int>)
    ensures |a| == |active|
  {
    if port.Some? && port.value < |active| then active[port.value := active[port.value] - 1] else active
  }

  function Store(s: State, x: nat, r: IoReq): (s': State)
    requires x < |s.reqs|
    ensures |s'.reqs| == |s.reqs|
  {
    if r.life > s.reqs[x].life
    then s.(reqs := s.reqs[x := r], freeCnt := s.freeCnt + 1, active := AfterRelease(s.active, s.reqs[x].fcport))
    else s.(reqs := s.reqs[x := r])
  }

  /** Two stores come to one. */
  lemma {:induction false} StoreTwice(s: State, x: nat, r: IoReq, r2: IoReq)
    requires x < |s.reqs| && r.life == s.reqs[x].life && r.fcport == s.reqs[x].fcport
    ensures Store(Store(s, x, r), x, r2) == Store(s, x, r2)
  {
    assert s.reqs[x := r][x := r2] == s.reqs[x := r2];
  }

  /** Stores an ELS request as its handler ends. */
  function Settle(s: State, x: nat, r: IoReq): (s': State)
    requires x < |s.reqs|
    ensures |s'.reqs| == |s.reqs|
  {
    Store(s, x, r).(running := None)
  }

  predicate Token(s: State, x: nat)
    requires x < |s.reqs|
  {
    s.reqs[x].scCmd.Some? && s.reqs[x].scCmd.value in s.scp
  }

  /** Stores a handler's outcome. A returned command loses its SCp.ptr and is logged. */
  function Finish(s: State, x: nat, o: Outcome, normal: bool): (s': State)
    requires x < |s.reqs|
    ensures |s'.reqs| == |s.reqs|
  {
    var s1 := Store(s, x, o.req);
    if o.done.None? then s1
    else s1.(scp := s1.scp - {o.done.value}, log := s1.log + [Returned(o.done.value, x, s.reqs[x].life, normal)])
  }

  // ---- Allocation: qedf_io.c:311-413

  /** The request `k` places behind the cursor, wrapping around once. */
  function At(idx: nat, k: nat): (x: nat)
    requires idx < NUM_TASKS && k < NUM_TASKS
    ensures x < NUM_TASKS
  {
    if idx + k < NUM_TASKS then idx + k else idx + k - NUM_TASKS
  }

  /** Distance from `idx` to the first free request, or NUM_TASKS when every request is taken. */
  function ScanFrom(reqs: seq<IoReq>, idx: nat, tried: nat): (d: nat)
    requires |reqs| == NUM_TASKS && idx < NUM_TASKS && tried <= NUM_TASKS
    ensures tried <= d <= NUM_TASKS
    ensures d < NUM_TASKS ==> !reqs[At(idx, d)].alloc
    ensures forall k :: tried <= k < d ==> reqs[At(idx, k)].alloc
    decreases NUM_TASKS - tried
  {
    if tried == NUM_TASKS || !reqs[At(idx, tried)].alloc then tried
    else ScanFrom(reqs, idx, tried + 1)
  }

  predicate WithinLimits(s: State, port: nat, e: Env) {
    e.room && port < |s.active| && s.active[port] < RW_TASKS_PER_CONNECTION && s.freeCnt > RESERVED_TASKS
  }

  function FreeSlot(s: State, port: nat, e: Env): (n: Option<nat>)
    requires WellFormed(s)
    ensures n.Some? ==> n.value < NUM_TASKS && !s.reqs[n.value].alloc && port < |s.active|
  {
    if !WithinLimits(s, port, e) then None
    else
      var d := ScanFrom(s.reqs, s.idx, 0);
      if d == NUM_TASKS then None else Some(At(s.idx, d))
  }

  /** Takes request `n` for `port`: the counters move, the cursor stops behind it. */
  function Take(s: State, n: nat, port: nat, r: IoReq): (s': State)
    requires WellFormed(s) && n < NUM_TASKS && port < |s.active|
    ensures WellFormed(s')
  {
    s.(reqs := s.reqs[n := r], idx := if n + 1 == NUM_TASKS then 0 else n + 1, freeCnt := s.freeCnt - 1,
       active := s.active[port := s.active[port] + 1])
  }

  /** qedf_alloc_cmd once it has found request `n`. */
  function TakeFresh(s: State, n: nat, port: nat, t: CmdType): (s': State)
    requires WellFormed(s) && n < NUM_TASKS && port < |s.active|
    ensures WellFormed(s')
  {
    Take(s, n, port, Fresh(s.reqs[n], port, t))
  }

  /** Binds command `c` to the taken request `n` and posts it (qedf_io.c:947-1043). A failed post
      releases the request but leaves SCp.ptr behind. */
  function PostTaken(s: State, n: nat, c: nat, e: Env): (s': State)
    requires WellFormed(s) && n < NUM_TASKS
    ensures WellFormed(s')
  {
    var r := Bind(s.reqs[n], c, e.postOk);
    var s1 := s.(reqs := s.reqs[n := r], scp := s.scp[c := n]);
    if e.postOk then s1 else Store(s1, n, Put(Unbind(r)))
  }

  function PostOn(s: State, n: nat, port: nat, c: nat, e: Env): (s': State)
    requires WellFormed(s) && n < NUM_TASKS && port < |s.active|
    ensures WellFormed(s')
  {
    PostTaken(TakeFresh(s, n, port, ScsiCmd), n, c, e)
  }

  /** qedf_queuecommand; a busy return leaves the command with the mid-layer. */
  function QueueCmd(s: State, port: nat, c: nat, e: Env): (s': State)
    requires WellFormed(s)
    ensures WellFormed(s')
  {
    var n := FreeSlot(s, port, e);
    if n.None? then s
    else if e.postOk then PostOn(s.(log := s.log + [Accepted(c)]), n.value, port, c, e)
    else PostOn(s, n.value, port, c, e)
  }

  // ---- ELS requests: qedf_els.c

  predicate ElsStarts(s: State, port: nat, e: Env)
    requires WellFormed(s)
  {
    e.elsReady && e.ready && FreeSlot(s, port, e).Some? && e.mpOk
  }

  function ElsFresh(r: IoReq, port: nat, cb: CbArg): (r': IoReq) { Fresh(r, port, Els).(cb := Some(cb)) }

  function ElsPosted(r: IoReq): (r': IoReq) {
    r.(pending := r.pending + {TimeoutWork}, flags := r.flags + {Outstanding})
  }

  /** qedf_initiate_els (qedf_els.c:10-141). When the DMA buffers cannot be had, the request is
      released again, but the pool cursor has moved on. */
  function InitiateEls(s: State, port: nat, cb: CbArg, e: Env): (s': State)
    requires WellFormed(s)
    ensures WellFormed(s')
  {
    var n := FreeSlot(s, port, e);
    if !e.elsReady || !e.ready || n.None? then s
    else
      var r := ElsFresh(s.reqs[n.value], port, cb);
      if e.mpOk then Take(s, n.value, port, ElsPosted(r)) else Store(Take(s, n.value, port, r), n.value, Put(r))
  }

  /** qedf_requeue_io_req (qedf_els.c:814-874): the command moves to a second exchange and the first
      one is aborted without returning it. */
  function Requeue(s: State, x: nat, e: Env): (s': State)
    requires WellFormed(s) && x < NUM_TASKS
    ensures WellFormed(s')
  {
    var r := s.reqs[x];
    if r.fcport.None? || r.scCmd.None? then s
    else
      var n := FreeSlot(s, r.fcport.value, e);
      if n.None? then s
      else
        var s1 := TakeFresh(s, n.value, r.fcport.value, ScsiCmd);
        var s2 := PostTaken(Store(s1, x, Put(Unbind(s1.reqs[x]))), n.value, r.scCmd.value, e);
        if e.postOk then Store(s2, x, InitiateAbts(s2.reqs[x], false, e)) else s2
  }

  /** qedf_send_srr (qedf_els.c:666-738): an SRR that cannot be sent becomes an abort. */
  function SendSrr(s: State, x: nat, e: Env): (s': State)
    requires WellFormed(s) && x < NUM_TASKS
    ensures WellFormed(s')
  {
    var port := s.reqs[x].fcport;
    if port.None? || !e.ready then s
    else
      var s0 := Store(s, x, Get(s.reqs[x]));
      var s1 := if e.memory then InitiateEls(s0, port.value, CbArg(Srr, Some(x)), e) else s0;
      if e.memory && ElsStarts(s0, port.value, e) then Store(s1, x, SrrBegin(s1.reqs[x]))
      else Store(s1, x, Put(InitiateAbts(s1.reqs[x], true, e)))
  }

  /** qedf_send_rec (qedf_els.c:1044-1114), and the abort that replaces it when it cannot be sent
      (qedf_io.c:1661-1676). */
  function SendRec(s: State, x: nat, e: Env): (s': State)
    requires WellFormed(s) && x < NUM_TASKS
    ensures WellFormed(s')
  {
    var port := s.reqs[x].fcport;
    if port.None? || !e.ready then Store(s, x, InitiateAbts(s.reqs[x], true, e))
    else
      var s0 := Store(s, x, Get(s.reqs[x]));
      var s1 := if e.memory then InitiateEls(s0, port.value, CbArg(Rec, Some(x)), e) else s0;
      if e.memory && ElsStarts(s0, port.value, e) then s1
      else Store(s1, x, InitiateAbts(Put(s1.reqs[x]), true, e))
  }

  /** qedf_send_rrq, run from rrq_work (qedf_io.c:177-185, qedf_els.c:248-346). Two error returns
      keep the reference that was taken for the RRQ. */
  function SendRrq(s: State, x: nat, e: Env): (s': State)
    requires WellFormed(s) && x < NUM_TASKS
    ensures WellFormed(s')
  {
    var r := RrqBegin(s.reqs[x]);
    if r.fcport.None? then Store(s, x, Put(r))
    else if !e.ready || r.refs != 1 then Store(s, x, Abandon(r))
    else if !e.memory then Store(s, x, Put(r))
    else
      var s0 := Store(s, x, r);
      var s1 := InitiateEls(s0, r.fcport.value, CbArg(Rrq, Some(x)), e);
      if ElsStarts(s0, r.fcport.value, e) then s1 else Store(s1, x, Put(s1.reqs[x]))
  }

  // ---- ELS callbacks

  /** qedf_rec_compl with an answer (qedf_els.c:913-1036). */
  function RecAnswered(s: State, x: nat, e: Env): (s': State)
    requires WellFormed(s) && x < NUM_TASKS
    ensures WellFormed(s')
  {
    var s1 := Store(s, x, StopTimer(s.reqs[x]));
    if e.reply.CommandLost? then Requeue(s1, x, e)
    else if e.reply.ResponseLost? && s1.reqs[x].scCmd.Some? then SendSrr(s1, x, e)
    else s1
  }

  /** What the callback does for the original request `x` before it drops its reference. */
  function CallbackActs(s: State, op: ElsOp, x: nat, ev: Event, e: Env): (s': State)
    requires WellFormed(s) && x < NUM_TASKS
    ensures WellFormed(s')
  {
    match op
    case Adisc => s
    case Rrq => s
    case Rec => if ev.EvElsTmo? then s else RecAnswered(s, x, e)
    case Srr => Store(s, x, SrrReturns(s.reqs[x], ev, e))
  }

  /** `els_req->cb_func(els_req->cb_arg)`: qedf_rrq_compl, qedf_rec_compl, qedf_srr_compl or
      qedf_l2_els_compl, without the extra reference qedf_rrq_compl may drop on the ELS request. */
  function Callback(s: State, cb: Option<CbArg>, ev: Event, e: Env): (s': State)
    requires WellFormed(s)
    ensures WellFormed(s')
  {
    if cb.None? || cb.value.op.Adisc? || cb.value.aborted.None? || cb.value.aborted.value >= NUM_TASKS then s
    else
      var x := cb.value.aborted.value;
      var s1 := CallbackActs(s, cb.value.op, x, ev, e);
      if cb.value.op.Rrq? && s1.reqs[x].refs <= 0 then s1 else Store(s1, x, Put(s1.reqs[x]))
  }

  predicate IsRrq(r: IoReq) { r.cb.Some? && r.cb.value.op.Rrq? }

  /** The last lines of qedf_rrq_compl drop the RRQ's own reference when its event says timeout
      (qedf_els.c:242-243); the caller then clears cb_arg and drops one reference itself. */
  function ElsDrop(r: IoReq): (r': IoReq) {
    Put(PutIf(r, IsRrq(r) && r.event.EvElsTmo?).(cb := None))
  }

  /** Stores `r` for the ELS request `y` and runs its callback. */
  function RunCallback(s: State, y: nat, r: IoReq, e: Env): (s': State)
    requires WellFormed(s) && y < NUM_TASKS
    ensures WellFormed(s')
  {
    Callback(Store(s, y, r), r.cb, r.event, e)
  }

  /** qedf_process_els_compl (qedf_els.c:143-196). */
  predicate ElsComplIgnored(r: IoReq, e: Env) {
    r.event.EvElsFlush? || r.event.EvCleanupSuccess? || r.event.EvCleanupFailed? || e.flushing
  }

  function ElsCompl(s: State, y: nat, e: Env): (s': State)
    requires WellFormed(s) && y < NUM_TASKS
    ensures WellFormed(s')
  {
    var r := s.reqs[y];
    if ElsComplIgnored(r, e) then s
    else
      var s1 := RunCallback(s, y, Quiesce(r), e);
      Settle(s1, y, ElsDrop(s1.reqs[y]))
  }

  /** The end of the ELS timeout (qedf_io.c:98-105). Only an RRQ drops its first reference here; when
      the request has already become a cleanup, nobody will drop that of the others. */
  function ElsTimedOut(s: State, y: nat, r: IoReq, e: Env): (s': State)
    requires WellFormed(s) && y < NUM_TASKS
    ensures WellFormed(s')
  {
    var s1 := RunCallback(s, y, WithEvent(r, EvElsTmo), e);
    Settle(s1, y, ElsTmoDrop(s1.reqs[y]))
  }

  function ElsTmoDrop(r: IoReq): (r': IoReq) {
    ElsDrop(r.(marks := r.marks - {ElsTmoWait},
               abandoned := r.abandoned + if ElsTmoWait in r.marks && !IsRrq(r) then 1 else 0))
  }

  function ElsTmoSuspends(r: IoReq): (r': IoReq) { r.(marks := r.marks + {ElsTmoWait}) }

  function ElsTimeout(s: State, y: nat, e: Env): (s': State)
    requires WellFormed(s) && y < NUM_TASKS
    ensures WellFormed(s')
  {
    var r := Quiesce(Get(s.reqs[y]));
    if CleanupWaits(r, e) then Store(s, y, ElsTmoSuspends(CleanupBegin(r, true, e)))
    else ElsTimedOut(s.(running := Some(y)), y, CleanupBegin(r, true, e), e)
  }

  /** qedf_flush_els_req and the release of the flush reference (qedf_io.c:1732-1762, 2009). */
  function ElsFlushed(s: State, y: nat, r: IoReq, e: Env): (s': State)
    requires WellFormed(s) && y < NUM_TASKS
    ensures WellFormed(s')
  {
    var s1 := RunCallback(s, y, WithEvent(Quiesce(r), EvElsFlush), e);
    Settle(s1, y, ElsFlushDrop(s1.reqs[y]))
  }

  function ElsFlushDrop(r: IoReq): (r': IoReq) { Put(Put(r.(flushWait := NoFlush, cb := None))) }

  function FlushElsSuspends(r: IoReq): (r': IoReq) { r.(flushWait := FlushEls) }

  function FlushElsVisit(s: State, y: nat, e: Env): (s': State)
    requires WellFormed(s) && y < NUM_TASKS
    ensures WellFormed(s')
  {
    var r := Get(s.reqs[y]);
    if s.reqs[y].refs == 0 then s
    else if CleanupWaits(r, e) then Store(s, y, FlushElsSuspends(CleanupBegin(r, false, e)))
    else ElsFlushed(s.(running := Some(y)), y, CleanupBegin(r, false, e), e)
  }

  // ---- Steps

  datatype Step =
    | Queue(port: nat, cmd: nat, e: Env)
    | GoodCqe(x: nat, e: Env)
    | ErrorCqe(x: nat, e: Env)
    | WarningCqe(x: nat, recTov: bool, e: Env)
    | CleanupCqe(x: nat, e: Env)
    | AbtsCqe(x: nat, abtsReply: AbtsReply, e: Env)
    | TimerFires(x: nat, e: Env)
    | AbtsTmoResumes(x: nat, e: Env)
    | ElsTmoResumes(x: nat, e: Env)
    | RrqRuns(x: nat, e: Env)
    | FlushVisits(x: nat, port: nat, e: Env)
    | FlushResumes(x: nat, e: Env)
    | EhStarts(cmd: nat)
    | EhAborts(x: nat, e: Env)
    | EhLeaves(x: nat)
    | SendAdisc(port: nat, e: Env)

  /** Some exchange still has the command. */
  predicate Holds(s: State, c: nat) {
    c in s.scp && s.scp[c] < |s.reqs| && s.reqs[s.scp[c]].scCmd == Some(c)
  }

  /** The exchange was set up for an ELS, whatever has become of it. */
  predicate IsElsTask(r: IoReq) {
    r.cmdType.Els? || ElsTmoWait in r.marks || r.flushWait.FlushEls? || ElsAborted in r.marks
  }

  /** When a step may happen: a suspended handler resumes only where it is suspended, work runs only
      when it is pending, and the environment behaves:
      - the mid-layer does not submit a command that an exchange still holds;
      - an ABTS completion arrives only for an ABTS that was sent in this use of the request and neither
        answered nor cleaned up since, and while a flush waits on the request its port is marked as flushing;
      - the firmware runs its REC timer on FCP exchanges only, not on ELS tasks;
      - there is one flush at a time (flush_mutex). */
  predicate Enabled(s: State, t: Step)
    requires WellFormed(s)
  {
    match t
    case Queue(port, c, _) => !Holds(s, c)
    case GoodCqe(x, _) => x < NUM_TASKS
    case ErrorCqe(x, _) => x < NUM_TASKS
    case WarningCqe(x, recTov, _) => x < NUM_TASKS && (recTov ==> !IsElsTask(s.reqs[x]))
    case CleanupCqe(x, _) => x < NUM_TASKS
    case AbtsCqe(x, _, e) =>
      x < NUM_TASKS && AbtsOut in s.reqs[x].marks && (!s.reqs[x].flushWait.NoFlush? ==> e.flushing)
    case TimerFires(x, _) => x < NUM_TASKS && TimeoutWork in s.reqs[x].pending
    case AbtsTmoResumes(x, _) => x < NUM_TASKS && AbtsTmoWait in s.reqs[x].marks
    case ElsTmoResumes(x, _) => x < NUM_TASKS && ElsTmoWait in s.reqs[x].marks
    case RrqRuns(x, _) => x < NUM_TASKS && RrqWork in s.reqs[x].pending
    case FlushVisits(x, _, _) => x < NUM_TASKS && s.reqs[x].flushWait.NoFlush?
    case FlushResumes(x, _) => x < NUM_TASKS && !s.reqs[x].flushWait.NoFlush?
    case EhStarts(_) => true
    case EhAborts(x, _) => x < NUM_TASKS && s.reqs[x].eh > 0
    case EhLeaves(x) => x < NUM_TASKS && s.reqs[x].eh > 0
    case SendAdisc(_, _) => true
  }

  /** qedf_process_cqe ignores completions for requests without an offloaded port. */
  predicate CqeDispatched(r: IoReq, e: Env) { r.fcport.Some? && e.ready }

  function Good(s: State, x: nat, e: Env): (s': State)
    requires WellFormed(s) && x < NUM_TASKS
    ensures WellFormed(s')
  {
    var r := s.reqs[x];
    if !CqeDispatched(r, e) then s
    else match r.cmdType
      case ScsiCmd => Finish(s, x, ScsiCompletion(r, Token(s, x), e), true)
      case Els => ElsCompl(s, x, e)
      case _ => s
  }

  function Flush(s: State, x: nat, port: nat, e: Env): (s': State)
    requires WellFormed(s) && x < NUM_TASKS
    ensures WellFormed(s')
  {
    var r := s.reqs[x];
    if !r.alloc || r.fcport != Some(port) then s
    else if Outstanding !in r.flags then Store(s, x, FlushNotOutstanding(r))
    else if r.cmdType.Els? && e.wholeTarget then FlushElsVisit(s, x, e)
    else if r.cmdType.Abts? then Store(s, x, FlushAbtsVisit(r, e))
    else Finish(s, x, FlushScsiVisit(r, Token(s, x), e), false)
  }

  /** The walk of qedf_flush_active_ios over the requests from `from` up to `at`. */
  function FlushRange(s: State, port: nat, from: nat, at: nat, es: seq<Env>): (s': State)
    requires WellFormed(s) && from <= at <= NUM_TASKS && |es| == NUM_TASKS
    ensures WellFormed(s')
    decreases at
  {
    if from == at then s else Flush(FlushRange(s, port, from, at - 1, es), at - 1, port, es[at - 1])
  }

  /** The walk does not have to sleep on request `at - 1`. */
  ghost predicate Passes(s: State, port: nat, from: nat, at: nat, es: seq<Env>)
    requires WellFormed(s) && from < at <= NUM_TASKS && |es| == NUM_TASKS
  {
    FlushRange(s, port, from, at - 1, es).reqs[at - 1].flushWait.NoFlush? ==>
      FlushRange(s, port, from, at, es).reqs[at - 1].flushWait.NoFlush?
  }

  /** A warning: a REC when the exchange has been quiet for too long, otherwise an abort. */
  function Warned(s: State, x: nat, recTov: bool, e: Env): (s': State)
    requires WellFormed(s) && x < NUM_TASKS
    ensures WellFormed(s')
  {
    if !CqeDispatched(s.reqs[x], e) || (recTov && SrrSent in s.reqs[x].flags) then s
    else if recTov then SendRec(s, x, e)
    else Store(s, x, InitiateAbts(s.reqs[x], true, e))
  }

  function AbtsAnswered(s: State, x: nat, reply: AbtsReply, e: Env): (s': State)
    requires WellFormed(s) && x < NUM_TASKS
    ensures WellFormed(s')
  {
    if !CqeDispatched(s.reqs[x], e) then s else Finish(s, x, AbtsCompl(s.reqs[x], reply, Token(s, x), e), false)
  }

  /** The cleanup that a handler of the ELS request `y` waited for has ended. */
  function ElsCleaned(s: State, y: nat, e: Env): (s': State)
    requires WellFormed(s) && y < NUM_TASKS
    ensures WellFormed(s')
  {
    Finish(s, y, CleanupEnd(s.reqs[y], Token(s, y), e), false)
  }

  function ElsTmoResumed(s: State, y: nat, e: Env): (s': State)
    requires WellFormed(s) && y < NUM_TASKS
    ensures WellFormed(s')
  {
    var s1 := ElsCleaned(s, y, e); ElsTimedOut(s1, y, s1.reqs[y], e)
  }

  function FlushElsResumed(s: State, y: nat, e: Env): (s': State)
    requires WellFormed(s) && y < NUM_TASKS
    ensures WellFormed(s')
  {
    var s1 := ElsCleaned(s, y, e); ElsFlushed(s1, y, s1.reqs[y], e)
  }

  function Timer(s: State, x: nat, e: Env): (s': State)
    requires WellFormed(s) && x < NUM_TASKS
    ensures WellFormed(s')
  {
    var r := s.reqs[x];
    if r.fcport.Some? && r.cmdType.Abts? then Store(s, x, AbtsTimeout(r, e))
    else if r.fcport.Some? && r.cmdType.Els? then ElsTimeout(s, x, e)
    else Store(s, x, StopTimer(r))
  }

  function EhBegins(s: State, c: nat): (s': State)
    requires WellFormed(s)
    ensures WellFormed(s')
  {
    if c !in s.scp || s.scp[c] >= NUM_TASKS then s
    else
      var r := s.reqs[s.scp[c]];
      if r.refs == 0 || r.scCmd != Some(c) then s
      else Store(s, s.scp[c], EhBegin(r))
  }

  function Apply(s: State, t: Step): (s': State)
    requires WellFormed(s) && Enabled(s, t)
    ensures WellFormed(s')
  {
    match t
    case Queue(port, c, e) => QueueCmd(s, port, c, e)
    case GoodCqe(x, e) => Good(s, x, e)
    case ErrorCqe(x, e) =>
      if !CqeDispatched(s.reqs[x], e) || e.flushing then s
      else Store(s, x, InitiateAbts(s.reqs[x], true, e))
    case WarningCqe(x, recTov, e) => Warned(s, x, recTov, e)
    case CleanupCqe(x, e) =>
      if !CqeDispatched(s.reqs[x], e) then s else Store(s, x, CleanupDone(s.reqs[x]))
    case AbtsCqe(x, reply, e) => AbtsAnswered(s, x, reply, e)
    case TimerFires(x, e) => Timer(s, x, e)
    case AbtsTmoResumes(x, e) => Finish(s, x, AbtsTimeoutEnd(s.reqs[x], Token(s, x), e), false)
    case ElsTmoResumes(x, e) => ElsTmoResumed(s, x, e)
    case RrqRuns(x, e) => SendRrq(s, x, e)
    case FlushVisits(x, port, e) => Flush(s, x, port, e)
    case FlushResumes(x, e) =>
      if s.reqs[x].flushWait.FlushEls? then FlushElsResumed(s, x, e)
      else Finish(s, x, FlushScsiEnd(s.reqs[x], Token(s, x), e), false)
    case EhStarts(c) => EhBegins(s, c)
    case EhAborts(x, e) => Finish(s, x, EhAbort(s.reqs[x], Token(s, x), e), false)
    case EhLeaves(x) => Store(s, x, EhEnd(s.reqs[x]))
    case SendAdisc(port, e) => if e.memory then InitiateEls(s, port, CbArg(Adisc, None), e) else s
  }
}
