/** Who holds a request, derived from the state, and the part of the invariant that concerns one
    request at a time. */
module Holders {
  import opened Requests
  import opened Exchange

  function One(b: bool): (n: nat) { if b then 1 else 0 }

  /** References held on behalf of the request itself: by its SCSI command or its pending ELS
      completion (001), by an ABTS in flight or the handler that cleans up after it (002), by a
      pending RRQ (003), by a suspended flush (004), by error handlers (005), by a suspended ELS
      timeout, and those nobody will drop any more. */
  function OwnRefs(r: IoReq): (n: nat) {
    One(r.scCmd.Some?) + One(r.alloc && r.cmdType.Els?)
    + One(AbtsTmoWait in r.marks || r.flushWait.FlushAbts? || InAbort in r.flags)
    + One(RrqWork in r.pending) + r.eh
    + (match r.flushWait case NoFlush => 0 case FlushEls => 2 case _ => 1)
    + (if ElsTmoWait in r.marks then 2 else 0)
    + One(ElsAborted in r.marks) + r.abandoned
  }

  /** The request on which this ELS request still holds a reference through its callback argument. */
  function Target(r: IoReq): (t: Option<nat>) {
    if r.cb.Some? && !r.cb.value.op.Adisc? && (ElsWaiting(r) || (r.alloc && ElsAborted in r.marks))
    then r.cb.value.aborted else None
  }

  /** An ELS whose own handler has yet to run or to finish. */
  predicate ElsWaiting(r: IoReq) {
    r.alloc && (r.cmdType.Els? || ElsTmoWait in r.marks || r.flushWait.FlushEls?)
  }

  /** Nothing but its pending completion holds the request. */
  ghost predicate SoleElsHolder(r: IoReq) {
    && r.scCmd.None? && InAbort !in r.flags && RrqWork !in r.pending && r.flushWait.NoFlush?
    && r.marks == {} && r.abandoned == 0 && r.eh == 0
  }

  /** `inc` ELS requests refer to this one. */
  ghost predicate ReqOk(r: IoReq, inc: int) {
    && inc >= 0
    && (r.alloc <==> r.fcport.Some?)
    && (r.alloc <==> r.refs > 0)
    && r.refs == OwnRefs(r) + inc
    && (r.alloc && r.cmdType.Els? ==> SoleElsHolder(r))
    && (r.alloc && ErrScsiDone in r.flags ==> r.scCmd.None? && Outstanding !in r.flags)
    && (ElsTmoWait in r.marks || r.flushWait.FlushEls? ==>
          r.scCmd.None? && ElsAborted !in r.marks && RrqWork !in r.pending)
    && (ElsTmoWait in r.marks ==> InAbort !in r.flags && Outstanding !in r.flags)
    && !(ElsTmoWait in r.marks && r.flushWait.FlushEls?)
    && (AbtsTmoWait in r.marks || r.flushWait.FlushAbts? ==> InAbort in r.flags && r.cmdType.Cleanup?)
    && !(AbtsTmoWait in r.marks && r.flushWait.FlushAbts?)
    && (r.alloc && TimeoutWork in r.pending && r.cmdType.Abts? ==> InAbort in r.flags)
    && (RrqWork in r.pending ==> r.state.RrqWait?)
    && AbortOk(r) && ScsiOk(r)
  }

  /** An abort is under way until its completion, or until the handler that cleans up after it is done.
      The ABTS itself may outlive it. */
  ghost predicate AbortOk(r: IoReq) {
    && (InAbort in r.flags ==> AbtsOut in r.marks)
    && (InAbort in r.flags && !r.cmdType.Abts? ==>
          r.cmdType.Cleanup? && (AbtsTmoWait in r.marks || r.flushWait.FlushAbts?))
    && (AbtsOut in r.marks ==> r.alloc && (r.cmdType.Abts? || r.cmdType.Cleanup?) && ElsTmoWait !in r.marks)
  }

  /** A command on a SCSI-type request can complete, and a command the flush waits for will be given back. */
  ghost predicate ScsiOk(r: IoReq) {
    && (r.alloc && r.scCmd.Some? && r.cmdType.ScsiCmd? ==> Outstanding in r.flags && InCleanup !in r.flags)
    && ((r.flushWait.FlushScsi? || r.flushWait.FlushAbts?) && r.scCmd.Some? ==> r.returnOnAbts)
    && (r.flushWait.FlushNullDevice? ==> r.scCmd.None?)
  }

  /** A request changes ports only by being released. */
  ghost predicate SameUse(r: IoReq, r': IoReq) {
    if r'.alloc then r.alloc && r'.fcport == r.fcport else r'.fcport.None?
  }

  /** What no handler may do to a request: hand it to another port, give it another command, put it
      back to the SCSI or ELS type, or revive it. */
  ghost predicate Follows(r: IoReq, r': IoReq) {
    && SameUse(r, r') && r'.life == r.life + One(r.alloc && !r'.alloc)
    && (r'.scCmd == r.scCmd || r'.scCmd.None?)
    && (r'.cmdType.ScsiCmd? ==> r.cmdType.ScsiCmd?)
    && (ElsWaiting(r') ==> ElsWaiting(r))
  }

  ghost predicate Keeps(r: IoReq, r': IoReq, inc: int) {
    ReqOk(r', inc) && Follows(r, r') && Target(r') == Target(r)
  }

  /** A handler takes away at most the request's own command, and gives back only that. */
  ghost predicate GivesUp(r: IoReq, o: Outcome) {
    && (o.req.scCmd == r.scCmd || o.req.scCmd.None?)
    && (o.done.Some? ==> r.scCmd == o.done && o.req.scCmd.None?)
  }

  ghost predicate Returns(r: IoReq, o: Outcome, inc: int) { Keeps(r, o.req, inc) && GivesUp(r, o) }

  // In the lemmas below a running handler that holds a reference of its own counts as one more
  // incoming reference.

  lemma {:induction false} SameKeeps(r: IoReq, inc: int)
    requires ReqOk(r, inc)
    ensures Keeps(r, r, inc)
  {}

  lemma {:induction false} KeepsTransitive(r: IoReq, r1: IoReq, r2: IoReq, i1: int, i2: int)
    requires Keeps(r, r1, i1) && r1.alloc && Keeps(r1, r2, i2)
    ensures Keeps(r, r2, i2)
  {}

  lemma {:induction false} ReturnsThenKeeps(r: IoReq, r1: IoReq, o: Outcome, r2: IoReq, i1: int, i2: int, inc: int)
    requires Keeps(r, r1, i1) && r1.alloc && r1.scCmd == r.scCmd
    requires Returns(r1, o, i2) && o.req.alloc && Keeps(o.req, r2, inc)
    ensures Returns(r, Outcome(r2, o.done), inc)
  {}

  lemma {:induction false} DropKeeps(r: IoReq, inc: int)
    requires ReqOk(r, inc) && inc > 0
    ensures r.alloc && Keeps(r, Put(r), inc - 1)
  {}

  lemma {:induction false} ScsiDoneKeeps(r: IoReq, inc: int, token: bool, e: Env)
    requires ReqOk(r, inc) && r.alloc && (r.scCmd.Some? ==> token)
    ensures Returns(r, ScsiDone(r, token, e), inc) && (inc > 0 || r.eh > 0 ==> ScsiDone(r, token, e).req.alloc)
    ensures ScsiDone(r, token, e).req.eh == r.eh
  {}

  lemma {:induction false} ScsiCompletionKeeps(r: IoReq, inc: int, token: bool, e: Env)
    requires ReqOk(r, inc)
    ensures Returns(r, ScsiCompletion(r, token, e), inc)
  {}

  lemma {:induction false} AbtsKeeps(r: IoReq, inc: int, returnCmd: bool, e: Env)
    requires ReqOk(r, inc) && r.alloc && (returnCmd || r.scCmd.None?)
    ensures Keeps(r, InitiateAbts(r, returnCmd, e), inc)
  {}

  /** The completion takes over the reference of the ABTS. */
  lemma {:induction false} AbtsRepliedKeeps(r: IoReq, inc: int, reply: AbtsReply)
    requires ReqOk(r, inc) && InAbort in r.flags && AbtsTmoWait !in r.marks && r.flushWait.NoFlush?
    ensures var r1 := AbtsReplied(AbtsIn(r), reply);
            Keeps(r, r1, inc + 1) && r1.alloc && r1.scCmd == r.scCmd
  {}

  lemma {:induction false} AbtsComplKeeps(r: IoReq, inc: int, reply: AbtsReply, token: bool, e: Env)
    requires ReqOk(r, inc) && (e.flushing || (InAbort in r.flags && AbtsTmoWait !in r.marks))
    requires (!r.flushWait.NoFlush? ==> e.flushing) && (r.scCmd.Some? ==> token)
    ensures Returns(r, AbtsCompl(r, reply, token, e), inc)
  {
    if e.flushing {
      SameKeeps(r, inc);
    } else {
      var r1 := AbtsReplied(AbtsIn(r), reply);
      AbtsRepliedKeeps(r, inc, reply);
      GivesBackKeeps(r1, inc, token, e);
      KeepsTransitive(r, r1, AbtsGivesBack(r1, token, e).req, inc + 1, inc);
    }
  }

  lemma {:induction false} GivesBackKeeps(r: IoReq, inc: int, token: bool, e: Env)
    requires ReqOk(r, inc + 1) && inc >= 0 && r.alloc && (r.scCmd.Some? ==> token)
    ensures Returns(r, AbtsGivesBack(r, token, e), inc)
  {
    var o := ScsiDoneIf(r, r.scCmd.Some? && r.returnOnAbts, token, e);
    SameKeeps(r, inc + 1);
    ScsiDoneKeeps(r, inc + 1, token, e);
    DropKeeps(o.req, inc + 1);
    ReturnsThenKeeps(r, r, o, Put(o.req), inc + 1, inc + 1, inc);
  }

  lemma {:induction false} AbtsTimeoutKeeps(r: IoReq, inc: int, e: Env)
    requires ReqOk(r, inc) && TimeoutWork in r.pending && r.cmdType.Abts? && r.alloc
    ensures Keeps(r, AbtsTimeout(r, e), inc)
  {}

  lemma {:induction false} AbtsTimeoutEndKeeps(r: IoReq, inc: int, token: bool, e: Env)
    requires ReqOk(r, inc) && AbtsTmoWait in r.marks && (r.scCmd.Some? ==> token)
    ensures Returns(r, AbtsTimeoutEnd(r, token, e), inc)
  {}

  lemma {:induction false} CancelRrqKeeps(r: IoReq, inc: int)
    requires ReqOk(r, inc)
    ensures Keeps(r, CancelRrq(r), inc)
  {}

  lemma {:induction false} FlushTakes(r: IoReq, inc: int)
    requires ReqOk(r, inc) && r.alloc && r.cmdType.Abts?
    ensures Keeps(r, CancelRrq(Get(r)), inc + 1) && CancelRrq(Get(r)).alloc
  {}

  lemma {:induction false} FlushAbortingKeeps(r: IoReq, inc: int, e: Env)
    requires ReqOk(r, inc + 1) && inc >= 0 && r.alloc && r.flushWait.NoFlush? && r.cmdType.Abts?
    requires InAbort in r.flags && TimeoutWork !in r.pending
    ensures Keeps(r, FlushAborting(r, e), inc)
  {}

  lemma {:induction false} FlushAbtsVisitKeeps(r: IoReq, inc: int, e: Env)
    requires ReqOk(r, inc) && r.alloc && r.flushWait.NoFlush? && r.cmdType.Abts?
    ensures Keeps(r, FlushAbtsVisit(r, e), inc)
  {
    var r1 := CancelRrq(Get(r));
    FlushTakes(r, inc);
    if TimeoutWork in r1.pending {
      StopTimerKeeps(r1, inc + 1);
      FlushAbortingKeeps(StopTimer(r1), inc, e);
      KeepsTransitive(r1, StopTimer(r1), FlushAborting(StopTimer(r1), e), inc + 1, inc);
      KeepsTransitive(r, r1, FlushAborting(StopTimer(r1), e), inc + 1, inc);
    } else {
      DropKeeps(r1, inc + 1);
      KeepsTransitive(r, r1, Put(r1), inc + 1, inc);
    }
  }

  lemma {:induction false} FlushCleanupKeeps(r: IoReq, inc: int, returnCmd: bool, w: FlushWait, e: Env)
    requires ReqOk(r, inc + 1) && inc >= 0 && !r.cmdType.Els? && !r.cmdType.Abts? && r.flushWait.NoFlush?
    requires (w.FlushScsi? && returnCmd) || (w.FlushNullDevice? && r.scCmd.None?)
    ensures Returns(r, FlushCleanup(r, returnCmd, w, e), inc)
  {}

  lemma {:induction false} FlushCommandKeeps(r: IoReq, inc: int, token: bool, e: Env)
    requires ReqOk(r, inc) && r.alloc && r.flushWait.NoFlush? && !r.cmdType.Abts? && r.scCmd.Some? && token
    ensures Returns(r, FlushCommand(r, token, e), inc)
  {
    GetKeeps(r, inc);
    if e.recovery {
      var o := ScsiDone(Get(r), token, e);
      ScsiDoneKeeps(Get(r), inc + 1, token, e);
      DropKeeps(o.req, inc + 1);
      ReturnsThenKeeps(r, Get(r), o, Put(o.req), inc + 1, inc + 1, inc);
    } else {
      FlushCleanupKeeps(Get(r), inc, true, FlushScsi, e);
      KeepsTransitive(r, Get(r), FlushCleanup(Get(r), true, FlushScsi, e).req, inc + 1, inc);
    }
  }

  lemma {:induction false} FlushScsiVisitKeeps(r: IoReq, inc: int, token: bool, e: Env)
    requires ReqOk(r, inc) && r.alloc && r.flushWait.NoFlush? && !r.cmdType.Abts? && (r.scCmd.Some? ==> token)
    ensures Returns(r, FlushScsiVisit(r, token, e), inc)
  {
    if r.scCmd.Some? {
      if e.nullDevice {
        UnbindClaims(r, inc);
        FlushCleanupKeeps(Unbind(r), inc, false, FlushNullDevice, e);
        KeepsTransitive(r, Unbind(r), FlushCleanup(Unbind(r), false, FlushNullDevice, e).req, inc + 1, inc);
      } else {
        FlushCommandKeeps(r, inc, token, e);
      }
    }
  }

  lemma {:induction false} FlushLeavesKeeps(r: IoReq, e: Env, inc: int)
    requires ReqOk(r, inc) && !r.flushWait.NoFlush? && !r.flushWait.FlushEls?
    ensures Keeps(r, FlushLeaves(FlushCleaned(r, e)), inc)
  {}

  lemma {:induction false} CleanupEndKeeps(r: IoReq, inc: int, token: bool, e: Env)
    requires ReqOk(r, inc) && !r.flushWait.NoFlush? && (r.scCmd.Some? ==> token)
    ensures var o := CleanupEnd(r, token, e); Returns(r, o, inc) && o.req.alloc && o.req.flushWait == r.flushWait
  {}

  lemma {:induction false} FlushScsiEndKeeps(r: IoReq, inc: int, token: bool, e: Env)
    requires ReqOk(r, inc) && !r.flushWait.NoFlush? && !r.flushWait.FlushEls? && (r.scCmd.Some? ==> token)
    ensures Returns(r, FlushScsiEnd(r, token, e), inc)
  {
    var o := CleanupEnd(r, token, e);
    CleanupEndKeeps(r, inc, token, e);
    FlushLeavesKeeps(o.req, e, inc);
    SameKeeps(r, inc);
    ReturnsThenKeeps(r, r, o, FlushScsiEnd(r, token, e).req, inc, inc, inc);
  }

  lemma {:induction false} EhBeginKeeps(r: IoReq, inc: int)
    requires ReqOk(r, inc) && r.alloc && !r.cmdType.Els?
    ensures Keeps(r, EhBegin(r), inc)
  {}

  lemma {:induction false} EhEndKeeps(r: IoReq, inc: int)
    requires ReqOk(r, inc) && r.eh > 0
    ensures Keeps(r, EhEnd(r), inc)
  {}

  lemma {:induction false} EhAbortKeeps(r: IoReq, inc: int, token: bool, e: Env)
    requires ReqOk(r, inc) && r.eh > 0 && (r.scCmd.Some? ==> token)
    ensures Returns(r, EhAbort(r, token, e), inc)
  {
    if AbtsStarts(r, e) {
      AbtsKeeps(r, inc, true, e);
    } else {
      var o := ScsiDone(r, token, e);
      ScsiDoneKeeps(r, inc, token, e);
      EhEndKeeps(o.req, inc);
      SameKeeps(r, inc);
      ReturnsThenKeeps(r, r, o, EhEnd(o.req), inc, inc, inc);
    }
  }

  // ---- Requests that an ELS is sent for

  lemma {:induction false} GetKeeps(r: IoReq, inc: int)
    requires ReqOk(r, inc) && r.alloc
    ensures Keeps(r, Get(r), inc + 1)
  {}

  lemma {:induction false} SrrBeginKeeps(r: IoReq, inc: int)
    requires ReqOk(r, inc)
    ensures Keeps(r, SrrBegin(r), inc)
  {}

  lemma {:induction false} RrqBeginKeeps(r: IoReq, inc: int)
    requires ReqOk(r, inc) && RrqWork in r.pending
    ensures r.alloc && !ElsWaiting(r) && Keeps(r, RrqBegin(r), inc + 1)
  {}

  lemma {:induction false} RrqAbandons(r: IoReq, inc: int)
    requires ReqOk(r, inc) && RrqWork in r.pending
    ensures Keeps(r, Abandon(RrqBegin(r)), inc)
  {}

  lemma {:induction false} UnbindClaims(r: IoReq, inc: int)
    requires ReqOk(r, inc) && r.scCmd.Some?
    ensures Keeps(r, Unbind(r), inc + 1)
  {}

  lemma {:induction false} UnbindKeeps(r: IoReq, inc: int)
    requires ReqOk(r, inc) && r.scCmd.Some? && inc > 0
    ensures Keeps(r, Put(Unbind(r)), inc) && Put(Unbind(r)).alloc
  {}

  lemma {:induction false} AbtsAndDrop(r: IoReq, inc: int, e: Env)
    requires ReqOk(r, inc + 1) && inc >= 0
    ensures Keeps(r, Put(InitiateAbts(r, true, e)), inc)
  {
    AbtsKeeps(r, inc + 1, true, e);
    DropKeeps(InitiateAbts(r, true, e), inc + 1);
    KeepsTransitive(r, InitiateAbts(r, true, e), Put(InitiateAbts(r, true, e)), inc + 1, inc);
  }

  lemma {:induction false} DropAndAbts(r: IoReq, inc: int, e: Env)
    requires ReqOk(r, inc + 1) && inc >= 0 && Put(r).alloc
    ensures Keeps(r, InitiateAbts(Put(r), true, e), inc)
  {
    DropKeeps(r, inc + 1);
    AbtsKeeps(Put(r), inc, true, e);
    KeepsTransitive(r, Put(r), InitiateAbts(Put(r), true, e), inc, inc);
  }

  lemma {:induction false} StopTimerKeeps(r: IoReq, inc: int)
    requires ReqOk(r, inc)
    ensures Keeps(r, StopTimer(r), inc)
  {}

  lemma {:induction false} CleanupDoneKeeps(r: IoReq, inc: int)
    requires ReqOk(r, inc)
    ensures Keeps(r, CleanupDone(r), inc)
  {}

  lemma {:induction false} SrrEndKeeps(r: IoReq, inc: int)
    requires ReqOk(r, inc)
    ensures Keeps(r, SrrEnd(r), inc) && Keeps(r, StopTimer(SrrEnd(r)), inc)
  {}

  lemma {:induction false} SrrReturnsKeeps(r: IoReq, inc: int, ev: Event, e: Env)
    requires ReqOk(r, inc) && r.alloc
    ensures Keeps(r, SrrReturns(r, ev, e), inc)
  {
    SrrEndKeeps(r, inc);
    AbtsKeeps(StopTimer(SrrEnd(r)), inc, true, e);
    KeepsTransitive(r, StopTimer(SrrEnd(r)), InitiateAbts(StopTimer(SrrEnd(r)), true, e), inc, inc);
  }

  // ---- ELS requests. Their timeout or flush handler runs on a reference of its own.

  lemma {:induction false} QuiesceKeeps(r: IoReq, inc: int)
    requires ReqOk(r, inc) && !r.cmdType.ScsiCmd?
    ensures Keeps(r, Quiesce(r), inc)
  {}

  lemma {:induction false} TimeoutSuspends(r: IoReq, e: Env)
    requires ReqOk(r, 0) && r.alloc && r.cmdType.Els? && CleanupWaits(Quiesce(Get(r)), e)
    ensures Keeps(r, ElsTmoSuspends(CleanupBegin(Quiesce(Get(r)), true, e)), 0)
  {}

  lemma {:induction false} FlushSuspends(r: IoReq, e: Env)
    requires ReqOk(r, 0) && r.alloc && r.cmdType.Els? && CleanupWaits(Get(r), e)
    ensures Keeps(r, FlushElsSuspends(CleanupBegin(Get(r), false, e)), 0)
  {}

  /** A finished ELS: it refers to nothing any more. */
  ghost predicate Ends(r: IoReq, r': IoReq) { ReqOk(r', 0) && Follows(r, r') && Target(r').None? }

  // What the five handlers of an ELS request pass to its callback, and what they leave of it.

  lemma {:induction false} CompletionEnds(r: IoReq)
    requires ReqOk(r, 0) && r.alloc && r.cmdType.Els? && !(IsRrq(r) && r.event.EvElsTmo?)
    ensures Keeps(r, Quiesce(r), 0) && Ends(Quiesce(r), ElsDrop(Quiesce(r)))
  {}

  lemma {:induction false} EarlyTimeout(r: IoReq, e: Env)
    requires ReqOk(r, 0) && r.alloc && r.cmdType.Els? && !CleanupWaits(Quiesce(Get(r)), e)
    ensures var r1 := WithEvent(CleanupBegin(Quiesce(Get(r)), true, e), EvElsTmo);
            Keeps(r, r1, 1) && ElsWaiting(r1) && Ends(r1, ElsTmoDrop(r1))
  {}

  lemma {:induction false} EarlyFlush(r: IoReq, e: Env)
    requires ReqOk(r, 0) && r.alloc && r.cmdType.Els? && !CleanupWaits(Get(r), e)
    ensures var r1 := WithEvent(Quiesce(CleanupBegin(Get(r), false, e)), EvElsFlush);
            Keeps(r, r1, 1) && ElsWaiting(r1) && Ends(r1, ElsFlushDrop(r1))
  {}

  lemma {:induction false} LateTimeout(r: IoReq, e: Env)
    requires ReqOk(r, 0) && ElsTmoWait in r.marks
    ensures var r1 := WithEvent(CleanupEnd(r, false, e).req, EvElsTmo);
            Keeps(r, r1, 0) && ElsWaiting(r1) && Ends(r1, ElsTmoDrop(r1))
  {
    ElsCleanupEnds(r, e);
    TimedOutEnds(WithEvent(CleanupEnd(r, false, e).req, EvElsTmo));
  }

  /** The cleanup of an ELS request ends without touching anything but its flag and its event. */
  lemma {:induction false} ElsCleanupEnds(r: IoReq, e: Env)
    requires ReqOk(r, 0) && ElsTmoWait in r.marks
    ensures var r1 := WithEvent(CleanupEnd(r, false, e).req, EvElsTmo);
            Keeps(r, r1, 0) && ElsWaiting(r1) && ElsTmoWait in r1.marks && r1.event == EvElsTmo
  {}

  lemma {:induction false} TimedOutEnds(r: IoReq)
    requires ReqOk(r, 0) && ElsTmoWait in r.marks && r.event == EvElsTmo
    ensures Ends(r, ElsTmoDrop(r))
  {}

  lemma {:induction false} LateFlush(r: IoReq, e: Env)
    requires ReqOk(r, 0) && r.flushWait.FlushEls?
    ensures var r1 := WithEvent(Quiesce(CleanupEnd(r, false, e).req), EvElsFlush);
            Keeps(r, r1, 0) && ElsWaiting(r1) && Ends(r1, ElsFlushDrop(r1))
  {}
}
