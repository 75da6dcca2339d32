/** Every enabled step keeps the invariant, unless it is one of three hazards. */
module StepInvariant {
  import opened Requests
  import opened Exchange
  import opened Holders
  import opened Counting
  import opened ExchangeInvariant
  import opened ExchangeSteps
  import opened ElsSteps
  import opened ElsCallbacks

  /** Steps after which a reference count is too small:
      - an RRQ completes on a request whose `event` still says ELS timeout from an earlier use, so that
        qedf_rrq_compl and its caller both drop the request's only reference (qedf_els.c:195, 242-243);
      - an ABTS completes on a request that is in abort but has already become a cleanup, while no flush is
        active: the ABTS timeout handler waits for that cleanup, and both drop the reference of the ABTS
        (qedf_io.c:68, 2236-2240, 2294);
      - an ABTS completes after its abort was given up, while no flush is active: the ABTS timeout or the
        flush found no room on the send queue, no ready session or no answer to its cleanup, and has
        dropped the reference that the completion drops again (qedf_io.c:58-71, 1919-1939, 2446-2451). */
  predicate Hazard(s: State, t: Step)
    requires WellFormed(s) && Enabled(s, t)
  {
    match t
    case GoodCqe(x, e) =>
      var r := s.reqs[x];
      CqeDispatched(r, e) && r.cmdType.Els? && !ElsComplIgnored(r, e) && IsRrq(r) && r.event.EvElsTmo?
    case AbtsCqe(x, _, e) =>
      var r := s.reqs[x];
      CqeDispatched(r, e) && !e.flushing && (InAbort !in r.flags || r.cmdType.Cleanup?)
    case _ => false
  }

  lemma {:induction false} Stored(s: State, x: nat, r: IoReq)
    requires Inv(s) && x < NUM_TASKS && Keeps(s.reqs[x], r, Incoming(s, x))
    ensures Inv(Store(s, x, r))
  {
    StoreKeeps(s, x, r);
  }

  lemma {:induction false} Finished(s: State, x: nat, o: Outcome, normal: bool)
    requires Inv(s) && x < NUM_TASKS && Returns(s.reqs[x], o, Incoming(s, x))
    ensures Inv(Finish(s, x, o, normal))
  {
    FinishKeeps(s, x, o, normal);
  }

  lemma {:induction false} GoodKeeps(s: State, x: nat, e: Env)
    requires Inv(s) && x < NUM_TASKS && !Hazard(s, GoodCqe(x, e))
    ensures Inv(Good(s, x, e))
  {
    var r := s.reqs[x];
    ReqAt(s, x);
    if CqeDispatched(r, e) {
      if r.cmdType.ScsiCmd? {
        ScsiCompletionKeeps(r, Incoming(s, x), Token(s, x), e);
        Finished(s, x, ScsiCompletion(r, Token(s, x), e), true);
      } else if r.cmdType.Els? {
        ElsComplKeeps(s, x, e);
      }
    }
  }

  lemma {:induction false} AbortKeeps(s: State, x: nat, e: Env)
    requires Inv(s) && x < NUM_TASKS && s.reqs[x].fcport.Some?
    ensures Inv(Store(s, x, InitiateAbts(s.reqs[x], true, e)))
  {
    ReqAt(s, x);
    AbtsKeeps(s.reqs[x], Incoming(s, x), true, e);
    Stored(s, x, InitiateAbts(s.reqs[x], true, e));
  }

  lemma {:induction false} WarningKeeps(s: State, x: nat, recTov: bool, e: Env)
    requires Inv(s) && x < NUM_TASKS && (recTov ==> !IsElsTask(s.reqs[x]))
    ensures Inv(Warned(s, x, recTov, e))
  {
    if !CqeDispatched(s.reqs[x], e) {
    } else if recTov {
      ReqAt(s, x);
      RecKeeps(s, x, e);
      RecRunsNothing(s, x, e);
    } else {
      AbortKeeps(s, x, e);
    }
  }

  lemma {:induction false} RecRunsNothing(s: State, x: nat, e: Env)
    requires WellFormed(s) && x < NUM_TASKS
    ensures SendRec(s, x, e).running == s.running
  {
    if s.reqs[x].fcport.Some? {
      ElsLeaves(Store(s, x, Get(s.reqs[x])), s.reqs[x].fcport.value, CbArg(Rec, Some(x)), e, x);
    }
  }

  lemma {:induction false} CleanupCqeKeeps(s: State, x: nat)
    requires Inv(s) && x < NUM_TASKS
    ensures Inv(Store(s, x, CleanupDone(s.reqs[x])))
  {
    ReqAt(s, x);
    CleanupDoneKeeps(s.reqs[x], Incoming(s, x));
    Stored(s, x, CleanupDone(s.reqs[x]));
  }

  lemma {:induction false} AbtsCqeKeeps(s: State, x: nat, reply: AbtsReply, e: Env)
    requires Inv(s) && Enabled(s, AbtsCqe(x, reply, e)) && !Hazard(s, AbtsCqe(x, reply, e))
    ensures Inv(AbtsAnswered(s, x, reply, e))
  {
    ReqAt(s, x);
    if CqeDispatched(s.reqs[x], e) {
      AbtsComplKeeps(s.reqs[x], Incoming(s, x), reply, Token(s, x), e);
      Finished(s, x, AbtsCompl(s.reqs[x], reply, Token(s, x), e), false);
    }
  }

  lemma {:induction false} TimerKeeps(s: State, x: nat, e: Env)
    requires Inv(s) && x < NUM_TASKS && TimeoutWork in s.reqs[x].pending
    ensures Inv(Timer(s, x, e))
  {
    var r := s.reqs[x];
    ReqAt(s, x);
    if r.fcport.Some? && r.cmdType.Abts? {
      AbtsTimeoutKeeps(r, Incoming(s, x), e);
      Stored(s, x, AbtsTimeout(r, e));
    } else if r.fcport.Some? && r.cmdType.Els? {
      ElsTimeoutKeeps(s, x, e);
    } else {
      StopTimerKeeps(r, Incoming(s, x));
      Stored(s, x, StopTimer(r));
    }
  }

  lemma {:induction false} AbtsTmoResumeKeeps(s: State, x: nat, e: Env)
    requires Inv(s) && x < NUM_TASKS && AbtsTmoWait in s.reqs[x].marks
    ensures Inv(Finish(s, x, AbtsTimeoutEnd(s.reqs[x], Token(s, x), e), false))
  {
    ReqAt(s, x);
    AbtsTimeoutEndKeeps(s.reqs[x], Incoming(s, x), Token(s, x), e);
    Finished(s, x, AbtsTimeoutEnd(s.reqs[x], Token(s, x), e), false);
  }

  lemma {:induction false} FlushOneKeeps(s: State, x: nat, port: nat, e: Env)
    requires Inv(s) && x < NUM_TASKS && s.reqs[x].flushWait.NoFlush? && s.reqs[x].alloc
    ensures Inv(Store(s, x, FlushNotOutstanding(s.reqs[x])))
    ensures s.reqs[x].cmdType.Abts? ==> Inv(Store(s, x, FlushAbtsVisit(s.reqs[x], e)))
    ensures !s.reqs[x].cmdType.Abts? ==> Inv(Finish(s, x, FlushScsiVisit(s.reqs[x], Token(s, x), e), false))
  {
    var r := s.reqs[x];
    ReqAt(s, x);
    CancelRrqKeeps(r, Incoming(s, x));
    SameKeeps(r, Incoming(s, x));
    Stored(s, x, FlushNotOutstanding(r));
    if r.cmdType.Abts? {
      FlushAbtsVisitKeeps(r, Incoming(s, x), e);
      Stored(s, x, FlushAbtsVisit(r, e));
    } else {
      FlushScsiVisitKeeps(r, Incoming(s, x), Token(s, x), e);
      Finished(s, x, FlushScsiVisit(r, Token(s, x), e), false);
    }
  }

  lemma {:induction false} FlushKeeps(s: State, x: nat, port: nat, e: Env)
    requires Inv(s) && x < NUM_TASKS && s.reqs[x].flushWait.NoFlush?
    ensures Inv(Flush(s, x, port, e))
  {
    if s.reqs[x].alloc {
      if Outstanding in s.reqs[x].flags && s.reqs[x].cmdType.Els? && e.wholeTarget {
        FlushElsVisitKeeps(s, x, e);
      } else {
        FlushOneKeeps(s, x, port, e);
      }
    }
  }

  lemma {:induction false} FlushResumeKeeps(s: State, x: nat, e: Env)
    requires Inv(s) && x < NUM_TASKS && !s.reqs[x].flushWait.NoFlush? && !s.reqs[x].flushWait.FlushEls?
    ensures Inv(Finish(s, x, FlushScsiEnd(s.reqs[x], Token(s, x), e), false))
  {
    ReqAt(s, x);
    FlushScsiEndKeeps(s.reqs[x], Incoming(s, x), Token(s, x), e);
    Finished(s, x, FlushScsiEnd(s.reqs[x], Token(s, x), e), false);
  }

  lemma {:induction false} EhBeginsKeeps(s: State, c: nat)
    requires Inv(s)
    ensures Inv(EhBegins(s, c))
  {
    if c in s.scp && s.scp[c] < NUM_TASKS && s.reqs[s.scp[c]].refs != 0 && s.reqs[s.scp[c]].scCmd == Some(c) {
      var x := s.scp[c];
      ReqAt(s, x);
      EhBeginKeeps(s.reqs[x], Incoming(s, x));
      Stored(s, x, EhBegin(s.reqs[x]));
    }
  }

  lemma {:induction false} EhAbortsKeeps(s: State, x: nat, e: Env)
    requires Inv(s) && x < NUM_TASKS && s.reqs[x].eh > 0
    ensures Inv(Finish(s, x, EhAbort(s.reqs[x], Token(s, x), e), false))
  {
    ReqAt(s, x);
    EhAbortKeeps(s.reqs[x], Incoming(s, x), Token(s, x), e);
    Finished(s, x, EhAbort(s.reqs[x], Token(s, x), e), false);
  }

  lemma {:induction false} EhLeavesKeeps(s: State, x: nat)
    requires Inv(s) && x < NUM_TASKS && s.reqs[x].eh > 0
    ensures Inv(Store(s, x, EhEnd(s.reqs[x])))
  {
    ReqAt(s, x);
    EhEndKeeps(s.reqs[x], Incoming(s, x));
    Stored(s, x, EhEnd(s.reqs[x]));
  }

  lemma {:induction false} RrqRunsNothing(s: State, x: nat, e: Env)
    requires WellFormed(s) && x < NUM_TASKS
    ensures SendRrq(s, x, e).running == s.running
  {
    var r := RrqBegin(s.reqs[x]);
    if r.fcport.Some? { ElsLeaves(Store(s, x, r), r.fcport.value, CbArg(Rrq, Some(x)), e, x); }
  }

  lemma {:induction false} QueueRunsNothing(s: State, port: nat, c: nat, e: Env)
    requires WellFormed(s)
    ensures QueueCmd(s, port, c, e).running == s.running
  {}

  lemma {:induction false} StepKeeps(s: State, t: Step)
    requires Inv(s) && Enabled(s, t) && !Hazard(s, t)
    ensures Inv(Apply(s, t))
  {
    match t
    case Queue(port, c, e) => QueueKeeps(s, port, c, e); QueueRunsNothing(s, port, c, e);
    case GoodCqe(x, e) => GoodKeeps(s, x, e);
    case ErrorCqe(x, e) => if CqeDispatched(s.reqs[x], e) { AbortKeeps(s, x, e); }
    case WarningCqe(x, recTov, e) => WarningKeeps(s, x, recTov, e);
    case CleanupCqe(x, e) => CleanupCqeKeeps(s, x);
    case AbtsCqe(x, reply, e) => AbtsCqeKeeps(s, x, reply, e);
    case TimerFires(x, e) => TimerKeeps(s, x, e);
    case AbtsTmoResumes(x, e) => AbtsTmoResumeKeeps(s, x, e);
    case ElsTmoResumes(x, e) => LateTimeoutPoised(s, x, e);
    case RrqRuns(x, e) => RrqKeeps(s, x, e); RrqRunsNothing(s, x, e);
    case FlushVisits(x, port, e) => FlushKeeps(s, x, port, e);
    case FlushResumes(x, e) =>
      if s.reqs[x].flushWait.FlushEls? { LateFlushPoised(s, x, e); } else { FlushResumeKeeps(s, x, e); }
    case EhStarts(c) => EhBeginsKeeps(s, c);
    case EhAborts(x, e) => EhAbortsKeeps(s, x, e);
    case EhLeaves(x) => EhLeavesKeeps(s, x);
    case SendAdisc(port, e) => AdiscKeeps(s, port, e); ElsLeaves(s, port, CbArg(Adisc, None), e, 0);
  }
}
