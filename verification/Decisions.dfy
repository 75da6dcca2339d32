/** What the handlers decide, said of the pool before and after a step in the driver's own fields: when a command
    completes, when an exchange is aborted, what an answer to an ABTS does, when a handler waits for a cleanup, and
    what the error handler reports in the end. */
module Decisions {
  import opened Requests
  import opened Exchange
  import opened Holders
  import opened Counting
  import opened ExchangeInvariant
  import opened ExchangeSteps
  import opened StepInvariant

  /** All requests but `x` are as before. */
  ghost predicate OnlyAt(s: State, s': State, x: nat) {
    |s'.reqs| == |s.reqs| && forall i :: 0 <= i < |s.reqs| && i != x ==> s'.reqs[i] == s.reqs[i]
  }

  /** The count fell by one, and the request was released if that was the last reference. */
  ghost predicate Dropped(r: IoReq, r': IoReq) {
    r'.refs == r.refs - 1 && (r.refs == 1 ==> !r'.alloc && r'.life == r.life + 1)
    && (r.refs != 1 ==> r'.alloc == r.alloc && r'.life == r.life)
  }

  // ---- Completions

  /** A completion finds its request: it belongs to a port whose session is ready. */
  predicate Arrives(r: IoReq, e: Env) { r.fcport.Some? && e.ready }

  /** qedf_scsi_completion: an outstanding command that is neither aborted nor cleaned up, with sound pointers and no
      reset under way. */
  predicate MayComplete(s: State, x: nat, e: Env)
    requires x < |s.reqs|
  {
    var r := s.reqs[x];
    && Arrives(r, e) && r.cmdType.ScsiCmd? && r.flags * {Outstanding, InCleanup, InAbort} == {Outstanding}
    && r.scCmd.Some? && r.scCmd.value in s.scp && e.ptr.GoodPtr? && !e.flushing
  }

  /** A good completion returns the command of a SCSI exchange normally exactly then, and otherwise does nothing. */
  lemma {:induction false} CompletesIff(s: State, x: nat, e: Env)
    requires WellFormed(s) && x < NUM_TASKS && !s.reqs[x].cmdType.Els?
    ensures var s', r := Apply(s, GoodCqe(x, e)), s.reqs[x];
            if MayComplete(s, x, e)
            then && s'.log == s.log + [Returned(r.scCmd.value, x, r.life, true)] && r.scCmd.value !in s'.scp
                 && OnlyAt(s, s', x) && Dropped(r, s'.reqs[x])
                 && s'.reqs[x].scCmd.None? && Outstanding !in s'.reqs[x].flags
            else s' == s
  {
    var f := s.reqs[x].flags;
    assert f * {Outstanding, InCleanup, InAbort} == {Outstanding} <==>
           Outstanding in f && InCleanup !in f && InAbort !in f by { Bits(f); }
  }

  lemma {:induction false} Bits(f: set<Flag>)
    ensures f * {Outstanding, InCleanup, InAbort} == {Outstanding} <==>
            Outstanding in f && InCleanup !in f && InAbort !in f
  {
    var g := f * {Outstanding, InCleanup, InAbort};
    if g == {Outstanding} { assert Outstanding in g && InCleanup !in g && InAbort !in g; }
  }

  // ---- Aborts

  /** The guards of qedf_initiate_abts. */
  predicate MayAbort(r: IoReq, e: Env) {
    e.ready && e.canAbort && e.room && r.flags * {Outstanding, InCleanup, InAbort} == {Outstanding}
  }

  /** `r'` is `r` with an ABTS on its way: the exchange has changed its type, a timer runs, and there is one more
      reference. */
  ghost predicate Aborting(r: IoReq, r': IoReq, returnCmd: bool) {
    && r'.cmdType.Abts? && r'.flags == r.flags + {InAbort} && r'.pending == r.pending + {TimeoutWork}
    && r'.refs == r.refs + 1 && r'.returnOnAbts == returnCmd && AbtsOut in r'.marks
    && SameHold(r, r') && r'.cb == r.cb && r'.event == r.event && r'.state == r.state && r'.eh == r.eh
  }

  lemma {:induction false} AbortIff(r: IoReq, returnCmd: bool, e: Env)
    ensures var r' := InitiateAbts(r, returnCmd, e); if MayAbort(r, e) then Aborting(r, r', returnCmd) else r' == r
  {
    Bits(r.flags);
  }

  /** Error detection aborts an exchange exactly if the guards allow it and no reset is under way. */
  lemma {:induction false} ErrorAbortsIff(s: State, x: nat, e: Env)
    requires WellFormed(s) && x < NUM_TASKS
    ensures var s', r := Apply(s, ErrorCqe(x, e)), s.reqs[x];
            if Arrives(r, e) && !e.flushing && MayAbort(r, e)
            then OnlyAt(s, s', x) && Aborting(r, s'.reqs[x], true) else s' == s
  {
    AbortIff(s.reqs[x], true, e);
    Unchanged(s, x);
  }

  /** Any warning but the REC timer aborts it too, also during a reset. */
  lemma {:induction false} WarningAbortsIff(s: State, x: nat, e: Env)
    requires WellFormed(s) && x < NUM_TASKS
    ensures var s', r := Apply(s, WarningCqe(x, false, e)), s.reqs[x];
            if Arrives(r, e) && MayAbort(r, e) then OnlyAt(s, s', x) && Aborting(r, s'.reqs[x], true) else s' == s
  {
    AbortIff(s.reqs[x], true, e);
    Unchanged(s, x);
  }

  lemma {:induction false} Unchanged(s: State, x: nat)
    requires x < |s.reqs|
    ensures Store(s, x, s.reqs[x]) == s
  {
    assert s.reqs[x := s.reqs[x]] == s.reqs;
  }

  /** The error handler aborts the exchange if the guards allow it. Otherwise it takes the command from it, gives it
      back unless the pointers are bad, and leaves. */
  lemma {:induction false} EhAbortsIff(s: State, x: nat, e: Env)
    requires Inv(s) && Enabled(s, EhAborts(x, e))
    ensures var s', r := Apply(s, EhAborts(x, e)), s.reqs[x];
            && OnlyAt(s, s', x)
            && (if MayAbort(r, e) then Aborting(r, s'.reqs[x], true)
                else s'.reqs[x].scCmd.None? && s'.reqs[x].eh == r.eh - 1 && Outstanding !in s'.reqs[x].flags)
            && s'.log == if !MayAbort(r, e) && r.scCmd.Some? && e.ptr.GoodPtr?
                         then s.log + [Returned(r.scCmd.value, x, r.life, false)] else s.log
  {
    ReqAt(s, x);
    AbortIff(s.reqs[x], true, e);
    EhGivesUp(s.reqs[x], Incoming(s, x), e);
  }

  lemma {:induction false} EhGivesUp(r: IoReq, inc: int, e: Env)
    requires ReqOk(r, inc) && r.eh > 0
    ensures var o := EhGiveUp(r, r.scCmd.Some?, e);
            && o.req.scCmd.None? && o.req.eh == r.eh - 1 && Outstanding !in o.req.flags
            && o.done == if r.scCmd.Some? && e.ptr.GoodPtr? then r.scCmd else None
  {}

  // ---- The answer to an ABTS

  /** qedf_process_abts_compl acts unless the completion is dropped or the request is already on its way back. */
  predicate AnswerCounts(r: IoReq, reply: AbtsReply, e: Env) {
    Arrives(r, e) && !e.flushing && !(reply.BaAcc? && r.refs == 0)
  }

  /** What an answer leaves: no abort, no timer, an RRQ if the abort was accepted, and the event that says so. */
  ghost predicate AnsweredBy(r: IoReq, r': IoReq, reply: AbtsReply) {
    && InAbort !in r'.flags && TimeoutWork !in r'.pending && AbtsOut !in r'.marks
    && (RrqWork in r'.pending <==> reply.BaAcc? || RrqWork in r.pending)
    && (r'.alloc && r'.life == r.life ==> r'.state == if reply.BaAcc? then RrqWait else r.state)
    && r'.event == (match reply case BaAcc => EvAbortSuccess case BaRjt => EvAbortFailed case BaOther => r.event)
  }

  lemma {:induction false} AnswerActs(r: IoReq, reply: AbtsReply, token: bool, e: Env)
    requires r.fcport.Some? && !e.flushing && !(reply.BaAcc? && r.refs == 0)
    ensures AnsweredBy(r, AbtsCompl(r, reply, token, e).req, reply)
  {
    var r1 := AbtsReplied(AbtsIn(r), reply);
    GivesBackLeaves(r1, token, e);
  }

  lemma {:induction false} GivesBackLeaves(r: IoReq, token: bool, e: Env)
    ensures var r' := AbtsGivesBack(r, token, e).req;
            && r'.pending == r.pending && r'.event == r.event && (InAbort in r'.flags <==> InAbort in r.flags)
            && (AbtsOut !in r.marks ==> AbtsOut !in r'.marks) && (r'.alloc && r'.life == r.life ==> r'.state == r.state)
  {}

  lemma {:induction false} AbtsAnswerActs(s: State, x: nat, reply: AbtsReply, e: Env)
    requires WellFormed(s) && Enabled(s, AbtsCqe(x, reply, e))
    ensures var s', r := Apply(s, AbtsCqe(x, reply, e)), s.reqs[x];
            && (!Arrives(r, e) || e.flushing ==> s' == s)
            && (AnswerCounts(r, reply, e) ==> OnlyAt(s, s', x) && AnsweredBy(r, s'.reqs[x], reply))
  {
    Unchanged(s, x);
    if AnswerCounts(s.reqs[x], reply, e) { AnswerActs(s.reqs[x], reply, Token(s, x), e); }
  }

  /** The command goes back with the answer exactly if the abort was to return it and it is still there. */
  lemma {:induction false} AbtsAnswerReturns(s: State, x: nat, reply: AbtsReply, e: Env)
    requires Inv(s) && Enabled(s, AbtsCqe(x, reply, e)) && AnswerCounts(s.reqs[x], reply, e)
    ensures var s', r := Apply(s, AbtsCqe(x, reply, e)), s.reqs[x];
            && s'.reqs[x].scCmd == (if r.returnOnAbts then None else r.scCmd)
            && s'.log == if r.returnOnAbts && r.scCmd.Some? && e.ptr.GoodPtr?
                         then s.log + [Returned(r.scCmd.value, x, r.life, false)] else s.log
  {
    ReqAt(s, x);
    AnswerReturns(s.reqs[x], Incoming(s, x), reply, e);
  }

  lemma {:induction false} AnswerReturns(r: IoReq, inc: int, reply: AbtsReply, e: Env)
    requires ReqOk(r, inc) && r.alloc && !e.flushing
    ensures var o := AbtsCompl(r, reply, r.scCmd.Some?, e);
            && o.req.scCmd == (if r.returnOnAbts then None else r.scCmd)
            && o.done == if r.returnOnAbts && r.scCmd.Some? && e.ptr.GoodPtr? then r.scCmd else None
  {}

  // ---- Waiting for a cleanup

  /** qedf_initiate_cleanup gets to its wait on an exchange that is neither an ELS nor a cleanup already. */
  predicate MayClean(r: IoReq, e: Env) {
    r.fcport.Some? && e.ready && e.room && r.flags * {Outstanding, InCleanup} == {Outstanding}
  }

  lemma {:induction false} CleanBits(f: set<Flag>)
    ensures f * {Outstanding, InCleanup} == {Outstanding} <==> Outstanding in f && InCleanup !in f
  {
    var g := f * {Outstanding, InCleanup};
    if g == {Outstanding} { assert Outstanding in g && InCleanup !in g; }
  }

  /** The timeout of an ABTS waits for a cleanup if one can be sent; otherwise it gives the abort up. */
  lemma {:induction false} AbtsTimerActs(s: State, x: nat, e: Env)
    requires WellFormed(s) && Enabled(s, TimerFires(x, e)) && s.reqs[x].fcport.Some? && s.reqs[x].cmdType.Abts?
    ensures var s', r := Apply(s, TimerFires(x, e)), s.reqs[x];
            && OnlyAt(s, s', x) && s'.log == s.log && s'.reqs[x].pending == r.pending - {TimeoutWork}
            && s'.reqs[x].event == r.event && s'.reqs[x].scCmd == r.scCmd
            && if MayClean(r, e)
               then && AbtsTmoWait in s'.reqs[x].marks && s'.reqs[x].cmdType.Cleanup? && s'.reqs[x].returnOnAbts
                    && s'.reqs[x].flags == r.flags + {InCleanup} && s'.reqs[x].refs == r.refs
               else && (AbtsTmoWait in s'.reqs[x].marks ==> AbtsTmoWait in r.marks)
                    && InAbort !in s'.reqs[x].flags && Dropped(r, s'.reqs[x])
  {
    CleanBits(s.reqs[x].flags);
  }

  /** A timer that fires on any other exchange does nothing. */
  lemma {:induction false} StrayTimer(s: State, x: nat, e: Env)
    requires WellFormed(s) && Enabled(s, TimerFires(x, e))
    requires s.reqs[x].fcport.None? || s.reqs[x].cmdType.ScsiCmd? || s.reqs[x].cmdType.Cleanup?
    ensures var s' := Apply(s, TimerFires(x, e));
            && OnlyAt(s, s', x) && s'.log == s.log
            && s'.reqs[x] == s.reqs[x].(pending := s.reqs[x].pending - {TimeoutWork})
  {}

  /** A cleanup completion ends the cleanup of its exchange, if it finds it. */
  lemma {:induction false} CleanupArrives(s: State, x: nat, e: Env)
    requires WellFormed(s) && x < NUM_TASKS
    ensures var s', r := Apply(s, CleanupCqe(x, e)), s.reqs[x];
            if Arrives(r, e) then OnlyAt(s, s', x) && s'.reqs[x] == r.(flags := r.flags - {InCleanup}) else s' == s
  {}

  // ---- What the error handler reports

  /** qedf_eh_abort reports success when its ABTS is done (qedf_main.c:1156-1168). */
  predicate ReportsSuccess(r: IoReq) {
    r.event.EvAbortSuccess? || r.event.EvAbortFailed? || r.event.EvCleanupSuccess?
  }

  /** An ABTS that was answered counts as a success, accepted or rejected; an unknown answer changes nothing. */
  lemma {:induction false} ReportAfterAnswer(s: State, x: nat, reply: AbtsReply, e: Env)
    requires WellFormed(s) && Enabled(s, AbtsCqe(x, reply, e)) && AnswerCounts(s.reqs[x], reply, e)
    ensures ReportsSuccess(Apply(s, AbtsCqe(x, reply, e)).reqs[x]) <==> !reply.BaOther? || ReportsSuccess(s.reqs[x])
  {
    AbtsAnswerActs(s, x, reply, e);
  }

  /** What the end of a cleanup leaves. */
  ghost predicate CleanedUp(r: IoReq, r': IoReq, e: Env) {
    && r'.event == (if e.timedOut then EvCleanupFailed else EvCleanupSuccess) && InAbort !in r'.flags
    && (e.timedOut ==> InCleanup !in r'.flags) && AbtsTmoWait !in r'.marks && (!e.timedOut ==> AbtsOut !in r'.marks)
  }

  lemma {:induction false} TimeoutEnds(r: IoReq, token: bool, e: Env)
    ensures CleanedUp(r, AbtsTimeoutEnd(r, token, e).req, e)
  {}

  /** An ABTS that was not answered counts as a success if and only if its cleanup was. */
  lemma {:induction false} ReportAfterTimeout(s: State, x: nat, e: Env)
    requires WellFormed(s) && Enabled(s, AbtsTmoResumes(x, e))
    ensures CleanedUp(s.reqs[x], Apply(s, AbtsTmoResumes(x, e)).reqs[x], e)
    ensures ReportsSuccess(Apply(s, AbtsTmoResumes(x, e)).reqs[x]) <==> !e.timedOut
  {
    TimeoutEnds(s.reqs[x], Token(s, x), e);
  }

  /** The same if the flush has cleaned up the aborted exchange. */
  lemma {:induction false} FlushEnds(r: IoReq, token: bool, e: Env)
    requires !r.flushWait.NoFlush? && !r.flushWait.FlushEls?
    ensures var r' := FlushScsiEnd(r, token, e).req;
            && r'.event == (if e.timedOut then EvCleanupFailed else EvCleanupSuccess)
            && r'.flushWait.NoFlush? && (r.flushWait.FlushAbts? ==> InAbort !in r'.flags)
  {
    var r1 := CleanupEnd(r, token, e).req;
    assert r1.event == (if e.timedOut then EvCleanupFailed else EvCleanupSuccess) && r1.flushWait == r.flushWait;
    LeavesQuietly(FlushCleaned(r1, e));
  }

  lemma {:induction false} LeavesQuietly(r: IoReq)
    ensures var r' := FlushLeaves(r);
            r'.event == r.event && r'.flushWait.NoFlush? && (r.flushWait.FlushAbts? ==> InAbort !in r'.flags)
  {}

  lemma {:induction false} ReportAfterFlush(s: State, x: nat, e: Env)
    requires WellFormed(s) && Enabled(s, FlushResumes(x, e)) && !s.reqs[x].flushWait.FlushEls?
    ensures var r' := Apply(s, FlushResumes(x, e)).reqs[x];
            && r'.flushWait.NoFlush? && (s.reqs[x].flushWait.FlushAbts? ==> InAbort !in r'.flags)
            && (ReportsSuccess(r') <==> !e.timedOut)
  {
    FlushEnds(s.reqs[x], Token(s, x), e);
  }

  // ---- The error handler takes and leaves a request

  /** It holds the request that SCp.ptr names, exactly if that still has the command. */
  lemma {:induction false} EhStartsIff(s: State, c: nat)
    requires Inv(s)
    ensures var s' := Apply(s, EhStarts(c));
            if Holds(s, c)
            then var x := s.scp[c];
                 OnlyAt(s, s', x) && s'.reqs[x] == s.reqs[x].(refs := s.reqs[x].refs + 1, eh := s.reqs[x].eh + 1)
            else s' == s
  {
    if Holds(s, c) { ReqAt(s, s.scp[c]); }
  }

  // ---- Allocation

  /** The limits of qedf_alloc_cmd: a free entry in the send queue, fewer than 512 requests on the port, and more than
      16 free requests. */
  predicate Roomy(s: State, port: nat, e: Env) {
    e.room && port < |s.active| && s.active[port] < 512 && s.freeCnt > 16
  }

  /** Request `n` is the first free one behind the cursor. */
  ghost predicate NextFree(s: State, n: nat)
    requires WellFormed(s)
  {
    n < NUM_TASKS && exists d | 0 <= d < NUM_TASKS ::
      n == At(s.idx, d) && !s.reqs[n].alloc && forall k :: 0 <= k < d ==> s.reqs[At(s.idx, k)].alloc
  }

  /** A request can be had if and only if the limits allow it, and it is the first free one behind the cursor. */
  lemma {:induction false} SlotIff(s: State, port: nat, e: Env)
    requires WellFormed(s) && FreeOk(s)
    ensures FreeSlot(s, port, e).Some? <==> Roomy(s, port, e)
    ensures Roomy(s, port, e) ==> NextFree(s, FreeSlot(s, port, e).value)
  {
    ScanFinds(s);
    var d := ScanFrom(s.reqs, s.idx, 0);
    if Roomy(s, port, e) {
      assert FreeSlot(s, port, e) == Some(At(s.idx, d));
      assert NextFree(s, At(s.idx, d));
    }
  }

  lemma {:induction false} ScanFinds(s: State)
    requires WellFormed(s) && FreeOk(s)
    ensures ScanFrom(s.reqs, s.idx, 0) < NUM_TASKS
  {
    CountZero(s.reqs, IsFree());
    var i :| 0 <= i < |s.reqs| && IsFree()(s.reqs[i]);
    var k := if i >= s.idx then i - s.idx else i + NUM_TASKS - s.idx;
    assert At(s.idx, k) == i;
  }

  /** The counters after a request was taken on `port`. */
  ghost predicate TookOne(s: State, s': State, n: nat, port: nat)
    requires port < |s.active|
  {
    && s'.idx == (if n == NUM_TASKS - 1 then 0 else n + 1) && s'.freeCnt == s.freeCnt - 1
    && s'.active == s.active[port := s.active[port] + 1]
  }

  /** A submitted command is refused if the limits forbid it. */
  lemma {:induction false} QueueRefuses(s: State, port: nat, c: nat, e: Env)
    requires Inv(s) && Enabled(s, Queue(port, c, e)) && !Roomy(s, port, e)
    ensures Apply(s, Queue(port, c, e)) == s
  {
    SlotIff(s, port, e);
  }

  /** Otherwise it is bound to the next free request and outstanding; if it cannot be posted the request is free again,
      but SCp.ptr names it. */
  lemma {:induction false} QueueActs(s: State, port: nat, c: nat, e: Env) returns (n: nat)
    requires Inv(s) && Enabled(s, Queue(port, c, e)) && Roomy(s, port, e)
    ensures var s' := Apply(s, Queue(port, c, e));
            && NextFree(s, n) && OnlyAt(s, s', n) && s'.scp == s.scp[c := n]
            && (if e.postOk
                then Posted(s'.reqs[n], port, c) && TookOne(s, s', n, port) && s'.log == s.log + [LogEntry.Accepted(c)]
                else !s'.reqs[n].alloc && s'.freeCnt == s.freeCnt && s'.active == s.active && s'.log == s.log)
  {
    SlotIff(s, port, e);
    n := FreeSlot(s, port, e).value;
    PostActs(s, n, port, c, e);
    PostActs(s.(log := s.log + [LogEntry.Accepted(c)]), n, port, c, e);
  }

  /** A request that was set up for command `c` and posted. */
  ghost predicate Posted(r: IoReq, port: nat, c: nat) {
    && r.alloc && r.refs == 1 && r.fcport == Some(port) && r.cmdType.ScsiCmd? && r.scCmd == Some(c)
    && r.flags == {Outstanding} && r.state.IoActive?
  }

  lemma {:induction false} PostActs(s: State, n: nat, port: nat, c: nat, e: Env)
    requires WellFormed(s) && MayTake(s, n, port)
    ensures var s' := PostOn(s, n, port, c, e);
            && OnlyAt(s, s', n) && s'.scp == s.scp[c := n] && s'.log == s.log
            && (if e.postOk then Posted(s'.reqs[n], port, c) && TookOne(s, s', n, port)
                else !s'.reqs[n].alloc && s'.freeCnt == s.freeCnt && s'.active == s.active)
  {
    PostedAs(s, n, port, c, e);
  }

  // ---- The flush

  /** The walk passes free requests and those of other ports. */
  lemma {:induction false} FlushPasses(s: State, x: nat, port: nat, e: Env)
    requires WellFormed(s) && x < NUM_TASKS && (!s.reqs[x].alloc || s.reqs[x].fcport != Some(port))
    ensures Flush(s, x, port, e) == s
  {}

  /** A request of the port that is not outstanding: a pending RRQ is cancelled and its reference dropped. */
  lemma {:induction false} FlushCancelsRrq(s: State, x: nat, port: nat, e: Env)
    requires Inv(s) && Enabled(s, FlushVisits(x, port, e)) && s.reqs[x].alloc && s.reqs[x].fcport == Some(port)
    requires Outstanding !in s.reqs[x].flags
    ensures var s', r := Apply(s, FlushVisits(x, port, e)), s.reqs[x];
            && OnlyAt(s, s', x) && s'.log == s.log && s'.reqs[x].pending == r.pending - {RrqWork}
            && s'.reqs[x].flags == r.flags && s'.reqs[x].scCmd == r.scCmd && s'.reqs[x].event == r.event
            && if RrqWork in r.pending then Dropped(r, s'.reqs[x]) else s'.reqs[x] == r
  {
    ReqAt(s, x);
    assert RrqWork !in s.reqs[x].pending ==> s.reqs[x].pending - {RrqWork} == s.reqs[x].pending;
  }

  /** An ABTS whose LUN is flushed: the same; then, if its timer runs, the abort is cleaned up or given up. */
  lemma {:induction false} FlushAbtsActs(s: State, x: nat, port: nat, e: Env)
    requires Inv(s) && Enabled(s, FlushVisits(x, port, e)) && s.reqs[x].alloc && s.reqs[x].fcport == Some(port)
    requires Outstanding in s.reqs[x].flags && s.reqs[x].cmdType.Abts?
    ensures var s', r := Apply(s, FlushVisits(x, port, e)), s.reqs[x];
            && OnlyAt(s, s', x) && s'.log == s.log && s'.reqs[x].scCmd == r.scCmd && s'.reqs[x].event == r.event
            && (if e.wholeTarget || e.lunMatches then s'.reqs[x].pending == {} else s'.reqs[x] == r)
            && (s'.reqs[x].flushWait.FlushAbts? <==>
                  (e.wholeTarget || e.lunMatches) && TimeoutWork in r.pending && MayClean(r, e))
            && ((e.wholeTarget || e.lunMatches) && TimeoutWork in r.pending && !MayClean(r, e) ==>
                  InAbort !in s'.reqs[x].flags)
  {
    var r := s.reqs[x];
    ReqAt(s, x);
    CleanBits(r.flags);
    FlushAbtsFields(r, Incoming(s, x), e);
    Unchanged(s, x);
  }

  lemma {:induction false} FlushAbtsFields(r: IoReq, inc: int, e: Env)
    requires ReqOk(r, inc) && r.alloc && r.cmdType.Abts? && r.flushWait.NoFlush?
    ensures var r', covered := FlushAbtsVisit(r, e), e.wholeTarget || e.lunMatches;
            && r'.scCmd == r.scCmd && r'.event == r.event && (if covered then r'.pending == {} else r' == r)
            && (r'.flushWait.FlushAbts? <==>
                  covered && TimeoutWork in r.pending && r.fcport.Some? && e.ready && e.room && Outstanding in r.flags
                  && InCleanup !in r.flags)
            && (covered && TimeoutWork in r.pending && !r'.flushWait.FlushAbts? ==> InAbort !in r'.flags)
  {
    var p := r.pending - {RrqWork} - {TimeoutWork};
    assert p == {} by { forall w | w in p ensures false { match w case TimeoutWork => case RrqWork => } }
    assert TimeoutWork !in r.pending ==> r.pending - {RrqWork} == p;
  }

  /** What a bad pointer or a missing SCp.ptr does in qedf_scsi_done: the command is taken from the request unless it
      was before, or SCp.ptr is gone while the address is sound; it is given back only if all pointers are. */
  lemma {:induction false} GiveBackIff(s: State, x: nat, e: Env)
    requires WellFormed(s) && Enabled(s, EhAborts(x, e)) && !MayAbort(s.reqs[x], e) && s.reqs[x].scCmd.Some?
    ensures var s', r := Apply(s, EhAborts(x, e)), s.reqs[x];
            var taken := ErrScsiDone !in r.flags && (r.scCmd.value in s.scp || e.ptr.BadAddress?);
            && s'.reqs[x].scCmd == (if taken then None else r.scCmd) && ErrScsiDone in s'.reqs[x].flags
            && s'.log == if taken && e.ptr.GoodPtr? then s.log + [Returned(r.scCmd.value, x, r.life, false)] else s.log
  {
    AbortIff(s.reqs[x], true, e);
    TakenIff(s.reqs[x], Token(s, x), e);
  }

  lemma {:induction false} TakenIff(r: IoReq, token: bool, e: Env)
    requires r.scCmd.Some?
    ensures var o, taken := EhGiveUp(r, token, e), ErrScsiDone !in r.flags && (token || e.ptr.BadAddress?);
            && o.req.scCmd == (if taken then None else r.scCmd) && ErrScsiDone in o.req.flags
            && o.done == if taken && e.ptr.GoodPtr? then r.scCmd else None
  {}

  /** In every state: it is the state RRQ_WAIT that makes the flush look for the work. */
  lemma {:induction false} FlushAsksState(s: State, x: nat, port: nat, e: Env)
    requires WellFormed(s) && Enabled(s, FlushVisits(x, port, e)) && s.reqs[x].alloc && s.reqs[x].fcport == Some(port)
    requires Outstanding !in s.reqs[x].flags
    ensures var s', r := Apply(s, FlushVisits(x, port, e)), s.reqs[x];
            if r.state.RrqWait? && RrqWork in r.pending
            then Dropped(r, s'.reqs[x]) && s'.reqs[x].pending == r.pending - {RrqWork} else s' == s
  {
    Unchanged(s, x);
    assert RrqWork !in s.reqs[x].pending ==> s.reqs[x].pending - {RrqWork} == s.reqs[x].pending;
  }

  /** A request outstanding for a command, or no longer so, of the SCSI or the cleanup type. Without its device the
      command is dropped. A command that the flush covers is given back at once during recovery, and otherwise waited
      for if a cleanup can be sent. Any other request is passed. */
  lemma {:induction false} FlushScsiActs(s: State, x: nat, port: nat, e: Env)
    requires Inv(s) && Enabled(s, FlushVisits(x, port, e)) && s.reqs[x].alloc && s.reqs[x].fcport == Some(port)
    requires Outstanding in s.reqs[x].flags && (s.reqs[x].cmdType.ScsiCmd? || s.reqs[x].cmdType.Cleanup?)
    ensures var s', r := Apply(s, FlushVisits(x, port, e)), s.reqs[x];
            var r', waits := s'.reqs[x], MayClean(r, e) && r.cmdType.ScsiCmd?;
            && OnlyAt(s, s', x)
            && if r.scCmd.None? then s' == s
               else if e.nullDevice then
                 && r'.scCmd.None? && s'.log == s.log
                 && if waits then r'.flushWait.FlushNullDevice? && !r'.returnOnAbts && r'.refs == r.refs
                    else Dropped(r, r') && r'.flushWait.NoFlush?
               else if !(e.wholeTarget || e.lunMatches) then s' == s
               else if e.recovery then
                 && r'.scCmd.None? && r'.flushWait.NoFlush? && Dropped(r, r')
                 && s'.log == if e.ptr.GoodPtr? then s.log + [Returned(r.scCmd.value, x, r.life, false)] else s.log
               else
                 && r'.scCmd == r.scCmd && s'.log == s.log
                 && if waits then r'.flushWait.FlushScsi? && r'.returnOnAbts && r'.refs == r.refs + 1 else s' == s
  {
    var r := s.reqs[x];
    ReqAt(s, x);
    CleanBits(r.flags);
    Unchanged(s, x);
    if r.scCmd.Some? { FlushScsiFields(r, Incoming(s, x), e); }
  }

  lemma {:induction false} FlushScsiFields(r: IoReq, inc: int, e: Env)
    requires ReqOk(r, inc) && r.alloc && r.flushWait.NoFlush? && Outstanding in r.flags && r.scCmd.Some?
    requires r.cmdType.ScsiCmd? || r.cmdType.Cleanup?
    ensures var o := FlushScsiVisit(r, true, e);
            var r', waits := o.req, r.fcport.Some? && e.ready && e.room && InCleanup !in r.flags && r.cmdType.ScsiCmd?;
            if e.nullDevice then
              && r'.scCmd.None? && o.done.None?
              && if waits then r'.flushWait.FlushNullDevice? && !r'.returnOnAbts && r'.refs == r.refs
                 else Dropped(r, r') && r'.flushWait.NoFlush?
            else if !(e.wholeTarget || e.lunMatches) then o == Outcome(r, None)
            else if e.recovery then
              && r'.scCmd.None? && r'.flushWait.NoFlush? && Dropped(r, r')
              && o.done == if e.ptr.GoodPtr? then r.scCmd else None
            else
              && r'.scCmd == r.scCmd && o.done.None?
              && if waits then r'.flushWait.FlushScsi? && r'.returnOnAbts && r'.refs == r.refs + 1 else r' == r
  {
    assert InCleanup !in r.flags ==> r.flags - {InCleanup} == r.flags;
  }
}
