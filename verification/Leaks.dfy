/** References that are never dropped. They arise at four kinds of step and nowhere else, and each costs the
    pool a request for ever. */
module Leaks {
  import opened Requests
  import opened Exchange
  import opened Holders
  import opened Counting
  import opened ExchangeInvariant
  import opened StepInvariant
  import opened ElsCallbacks
  import opened Frame
  import opened ExchangeTheorems

  /** Steps that leave a reference without anyone to drop it:
      - an accepted ABTS queues rrq_work that is pending already (qedf_io.c:2254-2266);
      - an RRQ gives up because the session is not ready or somebody else holds the request
        (qedf_els.c:282-308);
      - an ELS other than an RRQ times out and becomes a cleanup, whose end drops the timeout's reference
        but not that of the completion that will not come any more (qedf_io.c:79-105);
      - an ELS request is aborted, so that its callback never runs (qedf_io.c:2139). */
  predicate Leak(s: State, t: Step)
    requires WellFormed(s) && Enabled(s, t)
  {
    match t
    case AbtsCqe(x, reply, e) =>
      CqeDispatched(s.reqs[x], e) && !e.flushing && reply.BaAcc? && s.reqs[x].refs != 0 && RrqWork in s.reqs[x].pending
    case RrqRuns(x, e) => s.reqs[x].fcport.Some? && (!e.ready || s.reqs[x].refs != 1)
    case TimerFires(x, e) =>
      s.reqs[x].fcport.Some? && s.reqs[x].cmdType.Els? && !IsRrq(s.reqs[x]) && e.ready && e.room
    case ErrorCqe(x, e) =>
      CqeDispatched(s.reqs[x], e) && !e.flushing && s.reqs[x].cmdType.Els? && AbtsStarts(s.reqs[x], e)
    case WarningCqe(x, recTov, e) =>
      CqeDispatched(s.reqs[x], e) && !recTov && s.reqs[x].cmdType.Els? && AbtsStarts(s.reqs[x], e)
    case _ => false
  }

  // ---- One request

  /** Nobody's reference is on the request, and none will be when its handlers are done. */
  ghost predicate Clean(r: IoReq) {
    r.abandoned == 0 && ElsAborted !in r.marks && !(ElsTmoWait in r.marks && !IsRrq(r))
  }

  /** What no step undoes: a running timer, a lost reference, an aborted ELS and its target. */
  ghost predicate Worsens(r: IoReq, r': IoReq) {
    && (Timed(r) ==> Timed(r')) && (!Clean(r) ==> !Clean(r'))
    && (ElsAborted in r.marks ==> ElsAborted in r'.marks && r'.cb == r.cb)
  }

  ghost predicate NoWorse(r: IoReq, r': IoReq) { Worsens(r, r') && (Clean(r) ==> Clean(r')) }

  /** The flush may start or stop waiting on the request. */
  ghost predicate CalmFlush(r: IoReq, r': IoReq) { Calm(r, r'.(flushWait := r.flushWait)) }

  lemma {:induction false} CalmIsNoWorse(r: IoReq, r': IoReq)
    requires Calm(r, r') || CalmFlush(r, r')
    ensures NoWorse(r, r')
  {}

  lemma {:induction false} CalmDone(r: IoReq, token: bool, e: Env)
    ensures Calm(r, ScsiDone(r, token, e).req)
  {}

  lemma {:induction false} CalmCompletion(r: IoReq, token: bool, e: Env)
    ensures Calm(r, ScsiCompletion(r, token, e).req)
  {}

  lemma {:induction false} CalmCleanupEnd(r: IoReq, token: bool, e: Env)
    requires !(r.alloc && r.cmdType.Els?)
    ensures Calm(r, CleanupEnd(r, token, e).req)
  {}

  /** One more reference is lost, and nothing else happens. */
  ghost predicate Loses(r: IoReq, r': IoReq) {
    r'.abandoned == r.abandoned + 1 && Calm(r, r'.(abandoned := r.abandoned))
  }

  lemma {:induction false} LosesWorsens(r: IoReq, r': IoReq)
    requires Loses(r, r')
    ensures Worsens(r, r') && !Clean(r') && r'.flushWait == r.flushWait
  {}

  /** rrq_work is pending when an accepted ABTS queues it. */
  predicate QueuedTwice(r: IoReq, reply: AbtsReply, e: Env) {
    r.fcport.Some? && !e.flushing && reply.BaAcc? && r.refs != 0 && RrqWork in r.pending
  }

  lemma {:induction false} CalmReply(r: IoReq, reply: AbtsReply)
    requires !(r.alloc && r.cmdType.Els?)
    ensures var r1 := AbtsReplied(AbtsIn(r), reply);
            if reply.BaAcc? && RrqWork in r.pending then Loses(r, r1) else Calm(r, r1)
  {}

  /** The answer to an ABTS, on a request that is not an ELS. */
  lemma {:induction false} AbtsAnswer(r: IoReq, reply: AbtsReply, token: bool, e: Env)
    requires !(r.alloc && r.cmdType.Els?)
    ensures var r' := AbtsCompl(r, reply, token, e).req; if QueuedTwice(r, reply, e) then Loses(r, r') else Calm(r, r')
  {
    if r.fcport.Some? && !e.flushing && !(reply.BaAcc? && r.refs == 0) {
      var r1 := AbtsReplied(AbtsIn(r), reply);
      CalmReply(r, reply);
      CalmGivesBack(r1, token, e);
      if reply.BaAcc? && RrqWork in r.pending {
        LosesThen(r, r1, AbtsGivesBack(r1, token, e).req);
      } else {
        CalmTwice(r, r1, AbtsGivesBack(r1, token, e).req);
      }
    }
  }

  lemma {:induction false} CalmGivesBack(r: IoReq, token: bool, e: Env)
    ensures Calm(r, AbtsGivesBack(r, token, e).req)
  {
    var r1 := ScsiDoneIf(r, r.scCmd.Some? && r.returnOnAbts, token, e).req;
    CalmDone(r, token, e);
    CalmPlain(r1);
    CalmTwice(r, r1, Put(r1));
  }

  lemma {:induction false} LosesThen(r: IoReq, r1: IoReq, r2: IoReq)
    requires Loses(r, r1) && Calm(r1, r2)
    ensures Loses(r, r2)
  {}

  lemma {:induction false} CalmTimeout(r: IoReq, e: Env)
    requires !r.cmdType.Els?
    ensures Calm(r, AbtsTimeout(r, e))
  {}

  lemma {:induction false} CalmTimeoutEnd(r: IoReq, token: bool, e: Env)
    requires !(r.alloc && r.cmdType.Els?)
    ensures Calm(r, AbtsTimeoutEnd(r, token, e).req)
  {
    CalmCleanupEnd(r, token, e);
  }

  lemma {:induction false} CalmNotOutstanding(r: IoReq)
    ensures Calm(r, FlushNotOutstanding(r)) && Calm(r, CancelRrq(Get(r)))
  {}

  lemma {:induction false} CalmFlushHeld(r: IoReq, e: Env)
    requires !r.cmdType.Els?
    ensures CalmFlush(r, FlushAbtsHeld(r, e))
  {}

  lemma {:induction false} CalmFlushAbts(r: IoReq, e: Env)
    requires !r.cmdType.Els?
    ensures CalmFlush(r, FlushAbtsVisit(r, e))
  {
    CalmNotOutstanding(r);
    CalmFlushHeld(CancelRrq(Get(r)), e);
  }

  lemma {:induction false} CalmFlushScsi(r: IoReq, token: bool, e: Env)
    ensures CalmFlush(r, FlushScsiVisit(r, token, e).req)
  {}

  lemma {:induction false} CalmFlushEnd(r: IoReq, token: bool, e: Env)
    requires !(r.alloc && r.cmdType.Els?)
    ensures CalmFlush(r, FlushScsiEnd(r, token, e).req)
  {
    CalmCleanupEnd(r, token, e);
    CalmFlushLeaves(CleanupEnd(r, token, e).req);
  }

  lemma {:induction false} CalmFlushLeaves(r: IoReq)
    ensures CalmFlush(r, FlushLeaves(r))
  {}

  lemma {:induction false} CalmEh(r: IoReq, token: bool, e: Env)
    requires !r.cmdType.Els?
    ensures Calm(r, EhAbort(r, token, e).req)
  {
    CalmDone(r, token, e);
    CalmAbort(r, true, e);
  }

  /** An ELS in flight has nothing to lose but what the abort takes from it. */
  lemma {:induction false} ElsAbort(r: IoReq, e: Env)
    requires ReqOk(r, 0) && r.alloc && r.cmdType.Els?
    ensures Clean(r) && Worsens(r, InitiateAbts(r, true, e)) && InitiateAbts(r, true, e).flushWait == r.flushWait
    ensures if AbtsStarts(r, e) then ElsAborted in InitiateAbts(r, true, e).marks else InitiateAbts(r, true, e) == r
  {}

  lemma {:induction false} ElsEnds(r: IoReq)
    requires ReqOk(r, 0) && r.alloc && r.cmdType.Els? && !(IsRrq(r) && r.event.EvElsTmo?)
    ensures NoWorse(r, ElsDrop(Quiesce(r))) && ElsDrop(Quiesce(r)).flushWait == r.flushWait
  {}

  lemma {:induction false} ElsEndsEarly(r: IoReq, e: Env)
    requires ReqOk(r, 0) && r.alloc && r.cmdType.Els?
    ensures var c := CleanupBegin(Quiesce(Get(r)), true, e);
            if CleanupWaits(Quiesce(Get(r)), e)
            then
              var r' := ElsTmoSuspends(c);
              Worsens(r, r') && (Clean(r') <==> IsRrq(r)) && r'.flushWait == r.flushWait
            else
              var r' := ElsTmoDrop(WithEvent(c, EvElsTmo));
              NoWorse(r, r') && r'.flushWait == r.flushWait
  {}

  lemma {:induction false} ElsEndsLate(r: IoReq, e: Env)
    requires ReqOk(r, 0) && ElsTmoWait in r.marks
    ensures var r' := ElsTmoDrop(WithEvent(CleanupEnd(r, false, e).req, EvElsTmo));
            NoWorse(r, r') && r'.flushWait == r.flushWait
  {}

  lemma {:induction false} FlushEndsEls(r: IoReq, e: Env)
    requires ReqOk(r, 0) && r.alloc && r.cmdType.Els?
    ensures var c := CleanupBegin(Get(r), false, e);
            NoWorse(r, FlushElsSuspends(c)) && NoWorse(r, ElsFlushDrop(WithEvent(Quiesce(c), EvElsFlush)))
  {}

  lemma {:induction false} FlushEndsElsLate(r: IoReq, e: Env)
    requires ReqOk(r, 0) && r.flushWait.FlushEls?
    ensures NoWorse(r, ElsFlushDrop(WithEvent(Quiesce(CleanupEnd(r, false, e).req), EvElsFlush)))
  {}

  // ---- Steps

  /** The handler of `x` leaves all other requests in order, and `x` no worse unless it leaks. Only the flush
      starts or stops waiting on `x`. */
  ghost predicate Fares(s: State, s': State, x: nat, leak: bool, flush: bool) {
    && TidyBut(s, s', x) && x < |s.reqs| && Worsens(s.reqs[x], s'.reqs[x])
    && (!leak ==> NoWorse(s.reqs[x], s'.reqs[x])) && (!flush ==> s'.reqs[x].flushWait == s.reqs[x].flushWait)
  }

  lemma {:induction false} FaresStore(s: State, x: nat, r: IoReq)
    requires x < |s.reqs| && Calm(s.reqs[x], r)
    ensures Fares(s, Store(s, x, r), x, false, false)
  {
    CalmIsNoWorse(s.reqs[x], r);
  }

  lemma {:induction false} FaresFinish(s: State, x: nat, o: Outcome, normal: bool)
    requires x < |s.reqs| && Calm(s.reqs[x], o.req)
    ensures Fares(s, Finish(s, x, o, normal), x, false, false)
  {
    FaresStore(s, x, o.req);
  }

  lemma {:induction false} FaresFlush(s: State, x: nat, r: IoReq, o: Outcome)
    requires x < |s.reqs| && CalmFlush(s.reqs[x], r) && o.req == r
    ensures Fares(s, Store(s, x, r), x, false, true) && Fares(s, Finish(s, x, o, false), x, false, true)
  {
    CalmIsNoWorse(s.reqs[x], r);
  }

  lemma {:induction false} FaresLoss(s: State, x: nat, r: IoReq, o: Outcome)
    requires x < |s.reqs| && Loses(s.reqs[x], r) && o.req == r
    ensures Fares(s, Store(s, x, r), x, true, false) && !Clean(Store(s, x, r).reqs[x])
    ensures Fares(s, Finish(s, x, o, false), x, true, false) && !Clean(Finish(s, x, o, false).reqs[x])
  {
    LosesWorsens(s.reqs[x], r);
  }

  /** A free request has nothing that could get worse. */
  lemma {:induction false} TidyIsNoWorse(r: IoReq, r': IoReq, inc: int)
    requires ReqOk(r, inc) && Tidy(r, r')
    ensures NoWorse(r, r') && r'.flushWait == r.flushWait
  {}

  lemma {:induction false} FaresTidy(s: State, s': State, x: nat)
    requires Inv(s) && AllTidy(s, s') && x < NUM_TASKS
    ensures Fares(s, s', x, false, false)
  {
    ReqAt(s, x);
    TidyIsNoWorse(s.reqs[x], s'.reqs[x], Incoming(s, x));
  }

  lemma {:induction false} FaresSame(s: State, x: nat, leak: bool, flush: bool)
    requires x < |s.reqs|
    ensures Fares(s, s, x, leak, flush)
  {}

  // The five ways an ELS request ends

  lemma {:induction false} FaresElsCompl(s: State, y: nat, e: Env)
    requires Inv(s) && y < NUM_TASKS && s.reqs[y].alloc && s.reqs[y].cmdType.Els?
    requires !ElsComplIgnored(s.reqs[y], e) && !(IsRrq(s.reqs[y]) && s.reqs[y].event.EvElsTmo?)
    ensures Fares(s, ElsCompl(s, y, e), y, false, false)
  {
    var r := Quiesce(s.reqs[y]);
    CompletionPoised(s, y, e);
    TidyRun(s, y, r, ElsDrop(r), e);
    ElsReqOk(s, y);
    ElsEnds(s.reqs[y]);
  }

  lemma {:induction false} FaresElsTimeout(s: State, y: nat, e: Env)
    requires Inv(s) && y < NUM_TASKS && s.reqs[y].alloc && s.reqs[y].cmdType.Els? && s.reqs[y].fcport.Some?
    ensures Fares(s, ElsTimeout(s, y, e), y, !IsRrq(s.reqs[y]) && e.ready && e.room, false)
    ensures !IsRrq(s.reqs[y]) && e.ready && e.room ==> !Clean(ElsTimeout(s, y, e).reqs[y])
  {
    ElsReqOk(s, y);
    ElsEndsEarly(s.reqs[y], e);
    if !CleanupWaits(Quiesce(Get(s.reqs[y])), e) {
      var r := WithEvent(CleanupBegin(Quiesce(Get(s.reqs[y])), true, e), EvElsTmo);
      TimeoutPoised(s, y, e);
      TidyRun(s.(running := Some(y)), y, r, ElsTmoDrop(r), e);
    }
  }

  lemma {:induction false} FaresElsTmoResume(s: State, y: nat, e: Env)
    requires Inv(s) && y < NUM_TASKS && ElsTmoWait in s.reqs[y].marks
    ensures Fares(s, ElsTmoResumed(s, y, e), y, false, false)
  {
    var r := WithEvent(CleanupEnd(s.reqs[y], false, e).req, EvElsTmo);
    LateTimeoutPoised(s, y, e);
    TidyRun(s, y, r, ElsTmoDrop(r), e);
    ReqAt(s, y);
    ElsReqOk(s, y);
    ElsEndsLate(s.reqs[y], e);
  }

  lemma {:induction false} FaresFlushEls(s: State, y: nat, e: Env)
    requires Inv(s) && y < NUM_TASKS && s.reqs[y].alloc && s.reqs[y].cmdType.Els?
    ensures Fares(s, FlushElsVisit(s, y, e), y, false, true)
  {
    ElsReqOk(s, y);
    FlushEndsEls(s.reqs[y], e);
    FaresSame(s, y, false, true);
    if !CleanupWaits(Get(s.reqs[y]), e) {
      var r := WithEvent(Quiesce(CleanupBegin(Get(s.reqs[y]), false, e)), EvElsFlush);
      FlushPoised(s, y, e);
      TidyRun(s.(running := Some(y)), y, r, ElsFlushDrop(r), e);
    }
  }

  lemma {:induction false} FaresFlushElsResume(s: State, y: nat, e: Env)
    requires Inv(s) && y < NUM_TASKS && s.reqs[y].flushWait.FlushEls?
    ensures Fares(s, FlushElsResumed(s, y, e), y, false, true)
  {
    var r := WithEvent(Quiesce(CleanupEnd(s.reqs[y], false, e).req), EvElsFlush);
    LateFlushPoised(s, y, e);
    TidyRun(s, y, r, ElsFlushDrop(r), e);
    ReqAt(s, y);
    ElsReqOk(s, y);
    FlushEndsElsLate(s.reqs[y], e);
  }

  // The steps of the transition system

  lemma {:induction false} FaresGood(s: State, x: nat, e: Env)
    requires Inv(s) && x < NUM_TASKS && !Hazard(s, GoodCqe(x, e))
    ensures Fares(s, Good(s, x, e), x, false, false)
  {
    var r := s.reqs[x];
    ReqAt(s, x);
    FaresSame(s, x, false, false);
    if CqeDispatched(r, e) {
      if r.cmdType.ScsiCmd? {
        CalmCompletion(r, Token(s, x), e);
        FaresFinish(s, x, ScsiCompletion(r, Token(s, x), e), true);
      } else if r.cmdType.Els? && !ElsComplIgnored(r, e) {
        FaresElsCompl(s, x, e);
      }
    }
  }

  /** An abort that is not asked for by the error handler. */
  lemma {:induction false} FaresAbort(s: State, x: nat, e: Env)
    requires Inv(s) && x < NUM_TASKS && s.reqs[x].fcport.Some?
    ensures var s' := Store(s, x, InitiateAbts(s.reqs[x], true, e));
            var leak := s.reqs[x].cmdType.Els? && AbtsStarts(s.reqs[x], e);
            Fares(s, s', x, leak, false) && (leak ==> !Clean(s'.reqs[x]))
  {
    var r := s.reqs[x];
    ReqAt(s, x);
    if r.cmdType.Els? {
      ElsReqOk(s, x);
      ElsAbort(r, e);
    } else {
      CalmAbort(r, true, e);
      FaresStore(s, x, InitiateAbts(r, true, e));
    }
  }

  lemma {:induction false} FaresWarning(s: State, x: nat, recTov: bool, e: Env)
    requires Inv(s) && Enabled(s, WarningCqe(x, recTov, e))
    ensures Fares(s, Warned(s, x, recTov, e), x, Leak(s, WarningCqe(x, recTov, e)), false)
    ensures Leak(s, WarningCqe(x, recTov, e)) ==> !Clean(Warned(s, x, recTov, e).reqs[x])
  {
    FaresSame(s, x, false, false);
    ReqAt(s, x);
    if CqeDispatched(s.reqs[x], e) {
      if recTov {
        StillRec(s, x, e);
        FaresTidy(s, SendRec(s, x, e), x);
      } else {
        FaresAbort(s, x, e);
      }
    }
  }

  lemma {:induction false} FaresAbts(s: State, x: nat, reply: AbtsReply, e: Env)
    requires Inv(s) && Enabled(s, AbtsCqe(x, reply, e))
    ensures Fares(s, AbtsAnswered(s, x, reply, e), x, Leak(s, AbtsCqe(x, reply, e)), false)
    ensures Leak(s, AbtsCqe(x, reply, e)) ==> !Clean(AbtsAnswered(s, x, reply, e).reqs[x])
  {
    var r := s.reqs[x];
    ReqAt(s, x);
    FaresSame(s, x, false, false);
    if CqeDispatched(r, e) {
      var o := AbtsCompl(r, reply, Token(s, x), e);
      AbtsAnswer(r, reply, Token(s, x), e);
      if QueuedTwice(r, reply, e) { FaresLoss(s, x, o.req, o); } else { FaresFinish(s, x, o, false); }
    }
  }

  lemma {:induction false} FaresTimer(s: State, x: nat, e: Env)
    requires Inv(s) && Enabled(s, TimerFires(x, e))
    ensures Fares(s, Timer(s, x, e), x, Leak(s, TimerFires(x, e)), false)
    ensures Leak(s, TimerFires(x, e)) ==> !Clean(Timer(s, x, e).reqs[x])
  {
    var r := s.reqs[x];
    ReqAt(s, x);
    if r.fcport.Some? && r.cmdType.Abts? {
      CalmTimeout(r, e);
      FaresStore(s, x, AbtsTimeout(r, e));
    } else if r.fcport.Some? && r.cmdType.Els? {
      FaresElsTimeout(s, x, e);
    } else {
      CalmTimer(r);
      FaresStore(s, x, StopTimer(r));
    }
  }

  lemma {:induction false} FaresRrq(s: State, x: nat, e: Env)
    requires Inv(s) && x < NUM_TASKS && RrqWork in s.reqs[x].pending
    ensures Fares(s, SendRrq(s, x, e), x, !e.ready || s.reqs[x].refs != 1, false)
    ensures !e.ready || s.reqs[x].refs != 1 ==> !Clean(SendRrq(s, x, e).reqs[x])
  {
    var r := s.reqs[x];
    ReqAt(s, x);
    if !e.ready || r.refs != 1 {
      FaresLoss(s, x, Abandon(RrqBegin(r)), Outcome(Abandon(RrqBegin(r)), None));
    } else {
      StillRrq(s, x, e);
      FaresTidy(s, SendRrq(s, x, e), x);
    }
  }

  lemma {:induction false} FaresFlushVisit(s: State, x: nat, port: nat, e: Env)
    requires Inv(s) && x < NUM_TASKS
    ensures Fares(s, Flush(s, x, port, e), x, false, true)
  {
    var r := s.reqs[x];
    FaresSame(s, x, false, true);
    if r.alloc {
      if Outstanding !in r.flags {
        CalmNotOutstanding(r);
        FaresStore(s, x, FlushNotOutstanding(r));
      } else if r.cmdType.Els? && e.wholeTarget {
        FaresFlushEls(s, x, e);
      } else if r.cmdType.Abts? {
        CalmFlushAbts(r, e);
        FaresFlush(s, x, FlushAbtsVisit(r, e), Outcome(FlushAbtsVisit(r, e), None));
      } else {
        var o := FlushScsiVisit(r, Token(s, x), e);
        CalmFlushScsi(r, Token(s, x), e);
        FaresFlush(s, x, o.req, o);
      }
    }
  }

  lemma {:induction false} FaresAbtsResume(s: State, x: nat, e: Env)
    requires Inv(s) && x < NUM_TASKS && AbtsTmoWait in s.reqs[x].marks
    ensures Fares(s, Finish(s, x, AbtsTimeoutEnd(s.reqs[x], Token(s, x), e), false), x, false, false)
  {
    ReqAt(s, x);
    CalmTimeoutEnd(s.reqs[x], Token(s, x), e);
    FaresFinish(s, x, AbtsTimeoutEnd(s.reqs[x], Token(s, x), e), false);
  }

  lemma {:induction false} FaresFlushResume(s: State, x: nat, e: Env)
    requires Inv(s) && Enabled(s, FlushResumes(x, e))
    ensures Fares(s, Apply(s, FlushResumes(x, e)), x, false, true)
  {
    ReqAt(s, x);
    if s.reqs[x].flushWait.FlushEls? {
      FaresFlushElsResume(s, x, e);
    } else {
      var o := FlushScsiEnd(s.reqs[x], Token(s, x), e);
      CalmFlushEnd(s.reqs[x], Token(s, x), e);
      FaresFlush(s, x, o.req, o);
    }
  }

  lemma {:induction false} FaresEh(s: State, x: nat, e: Env)
    requires Inv(s) && x < NUM_TASKS && s.reqs[x].eh > 0
    ensures Fares(s, Finish(s, x, EhAbort(s.reqs[x], Token(s, x), e), false), x, false, false)
  {
    ReqAt(s, x);
    CalmEh(s.reqs[x], Token(s, x), e);
    FaresFinish(s, x, EhAbort(s.reqs[x], Token(s, x), e), false);
  }

  lemma {:induction false} FaresPlain(s: State, x: nat)
    requires x < |s.reqs|
    ensures Fares(s, Store(s, x, EhEnd(s.reqs[x])), x, false, false)
    ensures Fares(s, Store(s, x, CleanupDone(s.reqs[x])), x, false, false)
  {
    CalmPlain(s.reqs[x]);
    FaresStore(s, x, EhEnd(s.reqs[x]));
    FaresStore(s, x, CleanupDone(s.reqs[x]));
  }

  lemma {:induction false} TidyEhBegins(s: State, c: nat)
    requires WellFormed(s)
    ensures AllTidy(s, EhBegins(s, c))
  {
    if c in s.scp && s.scp[c] < NUM_TASKS {
      CalmPlain(s.reqs[s.scp[c]]);
      TidyStore(s, s.scp[c], EhBegin(s.reqs[s.scp[c]]));
    }
  }

  /** The request whose handler a step runs; the other steps leave every request in order. */
  predicate HasSubject(t: Step) { !t.Queue? && !t.EhStarts? && !t.SendAdisc? }

  lemma {:induction false} FaresStep(s: State, t: Step)
    requires Inv(s) && Enabled(s, t) && !Hazard(s, t) && HasSubject(t)
    ensures Fares(s, Apply(s, t), t.x, Leak(s, t), t.FlushVisits? || t.FlushResumes?)
    ensures Leak(s, t) ==> !Clean(Apply(s, t).reqs[t.x])
  {
    match t
    case GoodCqe(x, e) => FaresGood(s, x, e);
    case ErrorCqe(x, e) => FaresSame(s, x, false, false); if s.reqs[x].fcport.Some? { FaresAbort(s, x, e); }
    case WarningCqe(x, recTov, e) => FaresWarning(s, x, recTov, e);
    case CleanupCqe(x, e) => FaresSame(s, x, false, false); FaresPlain(s, x);
    case AbtsCqe(x, reply, e) => FaresAbts(s, x, reply, e);
    case TimerFires(x, e) => FaresTimer(s, x, e);
    case AbtsTmoResumes(x, e) => FaresAbtsResume(s, x, e);
    case ElsTmoResumes(x, e) => FaresElsTmoResume(s, x, e);
    case RrqRuns(x, e) => ReqAt(s, x); FaresRrq(s, x, e);
    case FlushVisits(x, port, e) => FaresFlushVisit(s, x, port, e);
    case FlushResumes(x, e) => FaresFlushResume(s, x, e);
    case EhAborts(x, e) => FaresEh(s, x, e);
    case EhLeaves(x) => FaresPlain(s, x);
  }

  lemma {:induction false} TidyOther(s: State, t: Step)
    requires WellFormed(s) && Enabled(s, t) && !HasSubject(t)
    ensures AllTidy(s, Apply(s, t))
  {
    match t
    case Queue(port, c, e) => TidyQueue(s, port, c, e);
    case EhStarts(c) => TidyEhBegins(s, c);
    case SendAdisc(port, e) => StillEls(s, port, CbArg(Adisc, None), e);
  }

  /** What one step does to request `i`, whichever it is. */
  lemma {:induction false} StepWorsens(s: State, t: Step, i: nat)
    requires Inv(s) && Enabled(s, t) && !Hazard(s, t) && i < NUM_TASKS
    ensures Worsens(s.reqs[i], Apply(s, t).reqs[i]) && (!Leak(s, t) ==> NoWorse(s.reqs[i], Apply(s, t).reqs[i]))
    ensures !((t.FlushVisits? || t.FlushResumes?) && t.x == i) ==>
              Apply(s, t).reqs[i].flushWait == s.reqs[i].flushWait
  {
    ReqAt(s, i);
    if HasSubject(t) {
      FaresStep(s, t);
      if i != t.x { TidyIsNoWorse(s.reqs[i], Apply(s, t).reqs[i], Incoming(s, i)); }
    } else {
      TidyOther(s, t);
      TidyIsNoWorse(s.reqs[i], Apply(s, t).reqs[i], Incoming(s, i));
    }
  }

  // ---- Runs

  ghost predicate LeakFree(s: State, ts: seq<Step>)
    requires WellFormed(s) && Admissible(s, ts)
    decreases |ts|
  {
    |ts| == 0 || (!Leak(s, ts[0]) && LeakFree(Apply(s, ts[0]), ts[1..]))
  }

  ghost predicate AllClean(s: State) { forall i :: 0 <= i < |s.reqs| ==> Clean(s.reqs[i]) }

  ghost predicate AllTimed(s: State) { forall i :: 0 <= i < |s.reqs| ==> Timed(s.reqs[i]) }

  lemma {:induction false} TimedStep(s: State, t: Step)
    requires Inv(s) && AllTimed(s) && Enabled(s, t) && !Hazard(s, t)
    ensures AllTimed(Apply(s, t))
  {
    forall i | 0 <= i < |s.reqs| ensures Timed(Apply(s, t).reqs[i]) {
      StepWorsens(s, t, i);
      assert Timed(s.reqs[i]);
    }
  }

  lemma {:induction false} CleanStep(s: State, t: Step)
    requires Inv(s) && AllClean(s) && Enabled(s, t) && !Hazard(s, t) && !Leak(s, t)
    ensures AllClean(Apply(s, t))
  {
    forall i | 0 <= i < |s.reqs| ensures Clean(Apply(s, t).reqs[i]) {
      StepWorsens(s, t, i);
      assert Clean(s.reqs[i]);
    }
  }

  lemma {:induction false} TimedRun(s: State, ts: seq<Step>)
    requires Inv(s) && AllTimed(s) && Admissible(s, ts) && HazardFree(s, ts)
    ensures AllTimed(After(s, ts))
    decreases |ts|
  {
    if |ts| > 0 {
      StepKeeps(s, ts[0]);
      TimedStep(s, ts[0]);
      TimedRun(Apply(s, ts[0]), ts[1..]);
    }
  }

  lemma {:induction false} CleanRun(s: State, ts: seq<Step>)
    requires Inv(s) && AllClean(s) && Admissible(s, ts) && HazardFree(s, ts) && LeakFree(s, ts)
    ensures AllClean(After(s, ts))
    decreases |ts|
  {
    if |ts| > 0 {
      StepKeeps(s, ts[0]);
      CleanStep(s, ts[0]);
      CleanRun(Apply(s, ts[0]), ts[1..]);
    }
  }

  /** A lost reference is never found again: its request stays allocated in every run without a hazard. */
  lemma {:induction false} LostForever(s: State, ts: seq<Step>, x: nat)
    requires Inv(s) && Admissible(s, ts) && HazardFree(s, ts) && x < NUM_TASKS && !Clean(s.reqs[x])
    ensures After(s, ts).reqs[x].alloc && !Clean(After(s, ts).reqs[x])
    decreases |ts|
  {
    ReqAt(s, x);
    if |ts| > 0 {
      StepKeeps(s, ts[0]);
      StepWorsens(s, ts[0], x);
      LostForever(Apply(s, ts[0]), ts[1..], x);
    }
  }

  /** Nor is the reference that an aborted ELS has on the request it was sent for. */
  lemma {:induction false} TargetLost(s: State, ts: seq<Step>, y: nat, x: nat)
    requires Inv(s) && Admissible(s, ts) && HazardFree(s, ts) && y < NUM_TASKS
    requires ElsAborted in s.reqs[y].marks && Target(s.reqs[y]) == Some(x)
    ensures x < NUM_TASKS && After(s, ts).reqs[x].alloc
    decreases |ts|
  {
    Targeted(s, y, x);
    ReqAt(s, x);
    if |ts| > 0 {
      var s' := Apply(s, ts[0]);
      StepKeeps(s, ts[0]);
      StepWorsens(s, ts[0], y);
      ReqAt(s', y);
      TargetLost(s', ts[1..], y, x);
    }
  }

  /** Each leak costs the pool a request for ever: the one whose handler runs and, when an ELS is aborted,
      the one it was sent for as well. */
  lemma {:induction false} LeakCosts(s: State, t: Step, ts: seq<Step>)
    requires Inv(s) && Enabled(s, t) && !Hazard(s, t) && Leak(s, t)
    requires Admissible(Apply(s, t), ts) && HazardFree(Apply(s, t), ts)
    ensures After(Apply(s, t), ts).reqs[t.x].alloc
    ensures (t.ErrorCqe? || t.WarningCqe?) && Target(s.reqs[t.x]).Some? ==>
              Target(s.reqs[t.x]).value < NUM_TASKS && After(Apply(s, t), ts).reqs[Target(s.reqs[t.x]).value].alloc
  {
    StepKeeps(s, t);
    FaresStep(s, t);
    LostForever(Apply(s, t), ts, t.x);
    if (t.ErrorCqe? || t.WarningCqe?) && Target(s.reqs[t.x]).Some? {
      AbortedTarget(s, t.x, t.e);
      TargetLost(Apply(s, t), ts, t.x, Target(s.reqs[t.x]).value);
    }
  }

  lemma {:induction false} AbortedTarget(s: State, y: nat, e: Env)
    requires Inv(s) && y < NUM_TASKS && s.reqs[y].fcport.Some? && s.reqs[y].cmdType.Els? && AbtsStarts(s.reqs[y], e)
    ensures var r' := InitiateAbts(s.reqs[y], true, e); ElsAborted in r'.marks && Target(r') == Target(s.reqs[y])
  {
    ReqAt(s, y);
    AbtsKeeps(s.reqs[y], Incoming(s, y), true, e);
  }

  /** A run without hazards that leaks somewhere leaves a request that is lost. */
  lemma {:induction false} LeakRun(s: State, ts: seq<Step>) returns (x: nat)
    requires Inv(s) && Admissible(s, ts) && HazardFree(s, ts) && !LeakFree(s, ts)
    ensures x < NUM_TASKS && !Clean(After(s, ts).reqs[x])
    decreases |ts|
  {
    StepKeeps(s, ts[0]);
    if Leak(s, ts[0]) {
      x := ts[0].x;
      FaresStep(s, ts[0]);
      LostForever(Apply(s, ts[0]), ts[1..], x);
    } else {
      x := LeakRun(Apply(s, ts[0]), ts[1..]);
    }
  }

  // ---- Nothing else is lost

  /** Nothing is going on: no command, no ELS, no abort, no pending RRQ, no suspended handler. */
  ghost predicate Quiescent(s: State) {
    forall i :: 0 <= i < |s.reqs| ==> QuiescentReq(s.reqs[i])
  }

  ghost predicate QuiescentReq(r: IoReq) {
    && r.scCmd.None? && !(r.alloc && r.cmdType.Els?) && InAbort !in r.flags && RrqWork !in r.pending
    && AbtsTmoWait !in r.marks && ElsTmoWait !in r.marks && r.flushWait.NoFlush? && r.eh == 0
  }

  lemma {:induction false} QuiescentIsFree(s: State, i: nat)
    requires Inv(s) && AllClean(s) && Quiescent(s) && i < NUM_TASKS
    ensures !s.reqs[i].alloc
  {
    assert QuiescentReq(s.reqs[i]) && Clean(s.reqs[i]);
    ReqAt(s, i);
    forall j | 0 <= j < |s.reqs| ensures !Refers(i)(s.reqs[j]) {
      assert QuiescentReq(s.reqs[j]) && Clean(s.reqs[j]);
    }
    CountZero(s.reqs, Refers(i));
  }

  /** When every request is free, the counters say so. */
  lemma {:induction false} AllFree(s: State)
    requires Inv(s) && forall i :: 0 <= i < |s.reqs| ==> !s.reqs[i].alloc
    ensures s.freeCnt == NUM_TASKS && forall p :: 0 <= p < |s.active| ==> s.active[p] == 0
  {
    forall i | 0 <= i < |s.reqs| ensures IsFree()(s.reqs[i]) && s.reqs[i].fcport.None? { ReqAt(s, i); }
    CountAll(s.reqs, IsFree());
    forall p | 0 <= p < |s.active| ensures s.active[p] == 0 { CountZero(s.reqs, OnPort(p)); }
  }

  lemma {:induction false} InitialClean(ports: nat)
    ensures AllClean(Initial(ports)) && AllTimed(Initial(ports))
  {}

  /** Without hazards and leaks no request is lost: when nothing is going on, all 4096 are in the pool and
      every port counts zero. */
  lemma {:induction false} NothingLost(ports: nat, ts: seq<Step>)
    requires Admissible(Initial(ports), ts) && HazardFree(Initial(ports), ts) && LeakFree(Initial(ports), ts)
    requires Quiescent(After(Initial(ports), ts))
    ensures var s := After(Initial(ports), ts);
            s.freeCnt == NUM_TASKS && forall p :: 0 <= p < |s.active| ==> s.active[p] == 0
  {
    var s := After(Initial(ports), ts);
    InitialInv(ports);
    InitialClean(ports);
    RunInv(ports, ts);
    CleanRun(Initial(ports), ts);
    forall i | 0 <= i < |s.reqs| ensures !s.reqs[i].alloc { QuiescentIsFree(s, i); }
    AllFree(s);
  }
}
