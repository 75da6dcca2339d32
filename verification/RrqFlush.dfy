/** What becomes of the RRQ of a request that a flush finds no longer outstanding. */
module RrqFlush {
  import opened Requests
  import opened Exchange
  import opened Holders
  import opened ExchangeInvariant
  import opened StepInvariant
  import opened Decisions
  import opened Ledger
  import opened ExchangeTheorems

  // ---- Only the answer to an ABTS queues an RRQ

  ghost predicate NoNewRrq(s: State, s': State) {
    |s'.reqs| == |s.reqs| && forall i :: 0 <= i < |s.reqs| ==> NoneAt(s.reqs[i], s'.reqs[i])
  }

  ghost predicate NoneAt(r: IoReq, r': IoReq) { RrqWork in r'.pending ==> RrqWork in r.pending }

  lemma {:induction false} NoneInFlush(r: IoReq, token: bool, e: Env)
    ensures NoneAt(r, FlushNotOutstanding(r)) && NoneAt(r, FlushAbtsVisit(r, e))
    ensures NoneAt(r, FlushScsiVisit(r, token, e).req)
  {
    NoneInAbtsFlush(r, e);
    NoneInScsiFlush(r, token, e);
  }

  lemma {:induction false} NoneInAbtsFlush(r: IoReq, e: Env)
    ensures NoneAt(r, FlushAbtsVisit(r, e))
  {
    HeldKeepsNone(CancelRrq(Get(r)), e);
  }

  lemma {:induction false} HeldKeepsNone(r: IoReq, e: Env)
    ensures NoneAt(r, FlushAbtsHeld(r, e))
  {}

  lemma {:induction false} NoneInScsiFlush(r: IoReq, token: bool, e: Env)
    ensures NoneAt(r, FlushScsiVisit(r, token, e).req)
  {
    CleanupKeepsNone(Unbind(r), false, FlushNullDevice, e);
    CleanupKeepsNone(Get(r), true, FlushScsi, e);
    assert ScsiDone(Get(r), token, e).req.pending == r.pending;
  }

  lemma {:induction false} CleanupKeepsNone(r: IoReq, returnCmd: bool, w: FlushWait, e: Env)
    ensures FlushCleanup(r, returnCmd, w, e).req.pending == r.pending
  {}

  lemma {:induction false} NoneInEnds(r: IoReq, token: bool, e: Env)
    ensures NoneAt(r, AbtsTimeoutEnd(r, token, e).req) && NoneAt(r, FlushScsiEnd(r, token, e).req)
  {
    var r1 := CleanupEnd(r, token, e).req;
    assert r1.pending == r.pending;
    LeavingNone(Cleaned(r1, e));
    LeavingNone(FlushCleaned(r1, e));
  }

  lemma {:induction false} LeavingNone(r: IoReq)
    ensures AbtsTmoLeaves(r).pending == r.pending && FlushLeaves(r).pending == r.pending
  {}

  lemma {:induction false} NoneInAborts(r: IoReq, token: bool, e: Env)
    ensures NoneAt(r, EhAbort(r, token, e).req) && NoneAt(r, InitiateAbts(r, true, e)) && NoneAt(r, AbtsTimeout(r, e))
    ensures NoneAt(r, ScsiCompletion(r, token, e).req)
  {
    assert ScsiDone(r, token, e).req.pending == r.pending;
    NoneInTimeout(r, e);
    NoneInCompletion(r, token, e);
  }

  lemma {:induction false} NoneInTimeout(r: IoReq, e: Env)
    ensures NoneAt(r, AbtsTimeout(r, e))
  {}

  lemma {:induction false} NoneInCompletion(r: IoReq, token: bool, e: Env)
    ensures ScsiCompletion(r, token, e).req.pending == r.pending
  {}

  lemma {:induction false} NoneTwice(s: State, s1: State, s2: State)
    requires NoNewRrq(s, s1) && NoNewRrq(s1, s2)
    ensures NoNewRrq(s, s2)
  {}

  lemma {:induction false} NoneStored(s: State, x: nat, r: IoReq)
    requires x < |s.reqs| && NoneAt(s.reqs[x], r)
    ensures NoNewRrq(s, Store(s, x, r)) && NoNewRrq(s, Settle(s, x, r))
  {}

  lemma {:induction false} NoneFinished(s: State, x: nat, o: Outcome, normal: bool)
    requires x < |s.reqs| && NoneAt(s.reqs[x], o.req)
    ensures NoNewRrq(s, Finish(s, x, o, normal))
  {}

  lemma {:induction false} NoneSent(s: State, port: nat, cb: CbArg, e: Env)
    requires WellFormed(s)
    ensures NoNewRrq(s, InitiateEls(s, port, cb, e))
  {}

  lemma {:induction false} NoneRequeued(s: State, x: nat, e: Env)
    requires WellFormed(s) && x < NUM_TASKS
    ensures NoNewRrq(s, Requeue(s, x, e))
  {
    var r := s.reqs[x];
    NoneSame(s);
    if r.fcport.Some? && r.scCmd.Some? && FreeSlot(s, r.fcport.value, e).Some? {
      NoneMoved(s, x, FreeSlot(s, r.fcport.value, e).value, r.fcport.value, e);
    }
  }

  lemma {:induction false} NoneMoved(s: State, x: nat, n: nat, port: nat, e: Env)
    requires WellFormed(s) && x < NUM_TASKS && n < NUM_TASKS && port < |s.active| && s.reqs[x].scCmd.Some?
    ensures var s1 := TakeFresh(s, n, port, ScsiCmd);
            var s2 := PostTaken(Store(s1, x, Put(Unbind(s1.reqs[x]))), n, s.reqs[x].scCmd.value, e);
            NoNewRrq(s, s2) && NoNewRrq(s, Store(s2, x, InitiateAbts(s2.reqs[x], false, e)))
  {
    var s1 := TakeFresh(s, n, port, ScsiCmd);
    var s0 := Store(s1, x, Put(Unbind(s1.reqs[x])));
    var s2 := PostTaken(s0, n, s.reqs[x].scCmd.value, e);
    NoneTaken(s, n, port);
    NoneStored(s1, x, Put(Unbind(s1.reqs[x])));
    NoneTwice(s, s1, s0);
    NonePosted(s0, n, s.reqs[x].scCmd.value, e);
    NoneTwice(s, s0, s2);
    NoneStored(s2, x, InitiateAbts(s2.reqs[x], false, e));
    NoneTwice(s, s2, Store(s2, x, InitiateAbts(s2.reqs[x], false, e)));
  }

  lemma {:induction false} NoneTaken(s: State, n: nat, port: nat)
    requires WellFormed(s) && n < NUM_TASKS && port < |s.active|
    ensures NoNewRrq(s, TakeFresh(s, n, port, ScsiCmd))
  {}

  lemma {:induction false} NonePosted(s: State, n: nat, c: nat, e: Env)
    requires WellFormed(s) && n < NUM_TASKS
    ensures NoNewRrq(s, PostTaken(s, n, c, e))
  {}

  lemma {:induction false} NoneSame(s: State)
    ensures NoNewRrq(s, s)
  {}

  /** A request gets its reference, and an ELS is sent for it or not. */
  lemma {:induction false} NoneSentFor(s: State, x: nat, r: IoReq, port: nat, cb: CbArg, e: Env)
    requires WellFormed(s) && x < NUM_TASKS && NoneAt(s.reqs[x], r)
    ensures var s0 := Store(s, x, r); NoNewRrq(s, s0) && NoNewRrq(s, InitiateEls(s0, port, cb, e))
  {
    NoneStored(s, x, r);
    NoneSent(Store(s, x, r), port, cb, e);
    NoneTwice(s, Store(s, x, r), InitiateEls(Store(s, x, r), port, cb, e));
  }

  lemma {:induction false} NoneThen(s: State, s1: State, x: nat, r: IoReq)
    requires WellFormed(s1) && NoNewRrq(s, s1) && x < NUM_TASKS && NoneAt(s1.reqs[x], r)
    ensures NoNewRrq(s, Store(s1, x, r))
  {
    NoneStored(s1, x, r);
    NoneTwice(s, s1, Store(s1, x, r));
  }

  lemma {:induction false} NoneSrr(s: State, x: nat, e: Env)
    requires WellFormed(s) && x < NUM_TASKS
    ensures NoNewRrq(s, SendSrr(s, x, e))
  {
    var r, port := s.reqs[x], s.reqs[x].fcport;
    NoneSame(s);
    if port.Some? && e.ready {
      var s0 := Store(s, x, Get(r));
      var s1 := if e.memory then InitiateEls(s0, port.value, CbArg(Srr, Some(x)), e) else s0;
      NoneSentFor(s, x, Get(r), port.value, CbArg(Srr, Some(x)), e);
      NoneThen(s, s1, x, SrrBegin(s1.reqs[x]));
      NoneThen(s, s1, x, Put(InitiateAbts(s1.reqs[x], true, e)));
    }
  }

  lemma {:induction false} NoneRec(s: State, x: nat, e: Env)
    requires WellFormed(s) && x < NUM_TASKS
    ensures NoNewRrq(s, SendRec(s, x, e))
  {
    var r, port := s.reqs[x], s.reqs[x].fcport;
    if port.Some? && e.ready {
      var s0 := Store(s, x, Get(r));
      var s1 := if e.memory then InitiateEls(s0, port.value, CbArg(Rec, Some(x)), e) else s0;
      NoneSentFor(s, x, Get(r), port.value, CbArg(Rec, Some(x)), e);
      NoneInGivingUp(s1.reqs[x], e);
      NoneThen(s, s1, x, InitiateAbts(Put(s1.reqs[x]), true, e));
    } else {
      NoneInGivingUp(r, e);
      NoneStored(s, x, InitiateAbts(r, true, e));
    }
  }

  lemma {:induction false} NoneInGivingUp(r: IoReq, e: Env)
    ensures NoneAt(r, InitiateAbts(Put(r), true, e)) && NoneAt(r, InitiateAbts(r, true, e))
  {}

  lemma {:induction false} NoneRrq(s: State, x: nat, e: Env)
    requires WellFormed(s) && x < NUM_TASKS
    ensures NoNewRrq(s, SendRrq(s, x, e))
  {
    var r := RrqBegin(s.reqs[x]);
    NoneStored(s, x, Put(r));
    NoneStored(s, x, Abandon(r));
    if r.fcport.Some? {
      var s1 := InitiateEls(Store(s, x, r), r.fcport.value, CbArg(Rrq, Some(x)), e);
      NoneSentFor(s, x, r, r.fcport.value, CbArg(Rrq, Some(x)), e);
      NoneThen(s, s1, x, Put(s1.reqs[x]));
    }
  }

  lemma {:induction false} NoneActs(s: State, op: ElsOp, x: nat, ev: Event, e: Env)
    requires WellFormed(s) && x < NUM_TASKS
    ensures NoNewRrq(s, CallbackActs(s, op, x, ev, e))
  {
    var s1 := Store(s, x, StopTimer(s.reqs[x]));
    NoneStored(s, x, StopTimer(s.reqs[x]));
    NoneRequeued(s1, x, e);
    NoneSrr(s1, x, e);
  }

  lemma {:induction false} NoneCallback(s: State, cb: Option<CbArg>, ev: Event, e: Env)
    requires WellFormed(s)
    ensures NoNewRrq(s, Callback(s, cb, ev, e))
  {
    if cb.Some? && cb.value.aborted.Some? && cb.value.aborted.value < NUM_TASKS {
      var x := cb.value.aborted.value;
      NoneActs(s, cb.value.op, x, ev, e);
      var s1 := CallbackActs(s, cb.value.op, x, ev, e);
      NoneStored(s1, x, Put(s1.reqs[x]));
    }
  }

  lemma {:induction false} NoneEnded(s: State, y: nat, r: IoReq, e: Env)
    requires WellFormed(s) && y < NUM_TASKS && NoneAt(s.reqs[y], r)
    ensures var s1 := RunCallback(s, y, r, e);
            && NoNewRrq(s, Settle(s1, y, ElsDrop(s1.reqs[y]))) && NoNewRrq(s, Settle(s1, y, ElsTmoDrop(s1.reqs[y])))
            && NoNewRrq(s, Settle(s1, y, ElsFlushDrop(s1.reqs[y])))
  {
    var s1 := RunCallback(s, y, r, e);
    NoneStored(s, y, r);
    NoneCallback(Store(s, y, r), r.cb, r.event, e);
    NoneTwice(s, Store(s, y, r), s1);
    NoneStored(s1, y, ElsDrop(s1.reqs[y]));
    NoneStored(s1, y, ElsTmoDrop(s1.reqs[y]));
    NoneStored(s1, y, ElsFlushDrop(s1.reqs[y]));
  }

  lemma {:induction false} NoneTimeout(s: State, y: nat, e: Env)
    requires WellFormed(s) && y < NUM_TASKS
    ensures NoNewRrq(s, ElsTimeout(s, y, e))
  {
    NoneEnded(s.(running := Some(y)), y, WithEvent(CleanupBegin(Quiesce(Get(s.reqs[y])), true, e), EvElsTmo), e);
  }

  lemma {:induction false} NoneFlushEls(s: State, y: nat, e: Env)
    requires WellFormed(s) && y < NUM_TASKS
    ensures NoNewRrq(s, FlushElsVisit(s, y, e))
  {
    NoneEnded(s.(running := Some(y)), y, WithEvent(Quiesce(CleanupBegin(Get(s.reqs[y]), false, e)), EvElsFlush), e);
  }

  lemma {:induction false} NoneResumed(s: State, y: nat, e: Env)
    requires WellFormed(s) && y < NUM_TASKS
    ensures NoNewRrq(s, ElsTmoResumed(s, y, e)) && NoNewRrq(s, FlushElsResumed(s, y, e))
  {
    var s1 := ElsCleaned(s, y, e);
    NoneFinished(s, y, CleanupEnd(s.reqs[y], Token(s, y), e), false);
    NoneEnded(s1, y, WithEvent(s1.reqs[y], EvElsTmo), e);
    NoneEnded(s1, y, WithEvent(Quiesce(s1.reqs[y]), EvElsFlush), e);
  }

  lemma {:induction false} NoneFlush(s: State, x: nat, port: nat, e: Env)
    requires WellFormed(s) && x < NUM_TASKS
    ensures NoNewRrq(s, Flush(s, x, port, e))
  {
    var r := s.reqs[x];
    NoneInFlush(r, Token(s, x), e);
    NoneStored(s, x, r);
    if r.alloc && r.fcport == Some(port) {
      if Outstanding !in r.flags {
        NoneStored(s, x, FlushNotOutstanding(r));
      } else if r.cmdType.Els? && e.wholeTarget {
        NoneFlushEls(s, x, e);
      } else if r.cmdType.Abts? {
        NoneStored(s, x, FlushAbtsVisit(r, e));
      } else {
        NoneFinished(s, x, FlushScsiVisit(r, Token(s, x), e), false);
      }
    }
  }

  lemma {:induction false} NoneTimer(s: State, x: nat, e: Env)
    requires WellFormed(s) && x < NUM_TASKS
    ensures NoNewRrq(s, Timer(s, x, e))
  {
    var r := s.reqs[x];
    NoneInAborts(r, Token(s, x), e);
    if r.fcport.Some? && r.cmdType.Abts? {
      NoneStored(s, x, AbtsTimeout(r, e));
    } else if r.fcport.Some? && r.cmdType.Els? {
      NoneTimeout(s, x, e);
    } else {
      NoneStored(s, x, StopTimer(r));
    }
  }

  lemma {:induction false} NoneGood(s: State, x: nat, e: Env)
    requires WellFormed(s) && x < NUM_TASKS
    ensures NoNewRrq(s, Good(s, x, e))
  {
    var r := s.reqs[x];
    NoneInAborts(r, Token(s, x), e);
    NoneFinished(s, x, ScsiCompletion(r, Token(s, x), e), true);
    NoneEnded(s, x, Quiesce(r), e);
  }

  lemma {:induction false} NoneAborted(s: State, x: nat, e: Env)
    requires WellFormed(s) && x < NUM_TASKS
    ensures NoNewRrq(s, Store(s, x, InitiateAbts(s.reqs[x], true, e)))
    ensures NoNewRrq(s, Finish(s, x, EhAbort(s.reqs[x], Token(s, x), e), false))
  {
    NoneInAborts(s.reqs[x], Token(s, x), e);
    NoneStored(s, x, InitiateAbts(s.reqs[x], true, e));
    NoneFinished(s, x, EhAbort(s.reqs[x], Token(s, x), e), false);
  }

  lemma {:induction false} NoneEnds(s: State, x: nat, e: Env)
    requires WellFormed(s) && x < NUM_TASKS
    ensures NoNewRrq(s, Finish(s, x, AbtsTimeoutEnd(s.reqs[x], Token(s, x), e), false))
    ensures NoNewRrq(s, Finish(s, x, FlushScsiEnd(s.reqs[x], Token(s, x), e), false))
  {
    NoneInEnds(s.reqs[x], Token(s, x), e);
    NoneFinished(s, x, AbtsTimeoutEnd(s.reqs[x], Token(s, x), e), false);
    NoneFinished(s, x, FlushScsiEnd(s.reqs[x], Token(s, x), e), false);
  }

  lemma {:induction false} NoneQueued(s: State, port: nat, c: nat, e: Env)
    requires WellFormed(s)
    ensures NoNewRrq(s, QueueCmd(s, port, c, e))
  {}

  lemma {:induction false} NoneHeld(s: State, c: nat, x: nat)
    requires WellFormed(s) && x < NUM_TASKS
    ensures NoNewRrq(s, EhBegins(s, c)) && NoNewRrq(s, Store(s, x, EhEnd(s.reqs[x])))
    ensures NoNewRrq(s, Store(s, x, CleanupDone(s.reqs[x])))
  {}

  /** Only the answer to an ABTS queues an RRQ. */
  lemma {:induction false} RrqNeedsAnswer(s: State, t: Step)
    requires WellFormed(s) && Enabled(s, t) && !t.AbtsCqe?
    ensures NoNewRrq(s, Apply(s, t))
  {
    NoneSame(s);
    match t
    case Queue(port, c, e) => NoneQueued(s, port, c, e);
    case GoodCqe(x, e) => NoneGood(s, x, e);
    case ErrorCqe(x, e) => NoneAborted(s, x, e);
    case WarningCqe(x, recTov, e) => NoneRec(s, x, e); NoneAborted(s, x, e);
    case CleanupCqe(x, e) => NoneHeld(s, 0, x);
    case TimerFires(x, e) => NoneTimer(s, x, e);
    case AbtsTmoResumes(x, e) => NoneEnds(s, x, e);
    case ElsTmoResumes(x, e) => NoneResumed(s, x, e);
    case RrqRuns(x, e) => NoneRrq(s, x, e);
    case FlushVisits(x, port, e) => NoneFlush(s, x, port, e);
    case FlushResumes(x, e) => NoneResumed(s, x, e); NoneEnds(s, x, e);
    case EhStarts(c) => NoneHeld(s, c, 0);
    case EhAborts(x, e) => NoneAborted(s, x, e);
    case EhLeaves(x) => NoneHeld(s, 0, x);
    case SendAdisc(port, e) => NoneSent(s, port, CbArg(Adisc, None), e);
  }

  // ---- Requests without an RRQ to come

  /** Life `l` of the request is over, or it is neither outstanding nor in abort and has no RRQ pending. */
  ghost predicate Quiet(r: IoReq, l: nat) {
    r.life > l || (r.life == l && r.alloc && Outstanding !in r.flags && RrqWork !in r.pending && !InAbortOnly(r))
  }

  /** In abort, and no handler is cleaning up after it yet. */
  predicate InAbortOnly(r: IoReq) { InAbort in r.flags && r.cmdType.Abts? }

  lemma {:induction false} QuietStep(s: State, t: Step, x: nat, l: nat)
    requires Inv(s) && Enabled(s, t) && !Hazard(s, t) && x < NUM_TASKS && Quiet(s.reqs[x], l)
    ensures Quiet(Apply(s, t).reqs[x], l)
  {
    LawfulStep(s, t);
    assert Ages(s.reqs[x], Apply(s, t).reqs[x]);
    if t.AbtsCqe? {
      ReqAt(s, x);
      AbtsAnswerActs(s, t.x, t.abtsReply, t.e);
    } else {
      RrqNeedsAnswer(s, t);
    }
  }

  lemma {:induction false} QuietRun(s: State, ts: seq<Step>, x: nat, l: nat)
    requires Inv(s) && Admissible(s, ts) && HazardFree(s, ts) && x < NUM_TASKS && Quiet(s.reqs[x], l)
    ensures Quiet(After(s, ts).reqs[x], l)
    decreases |ts|
  {
    if |ts| > 0 {
      StepKeeps(s, ts[0]);
      QuietStep(s, ts[0], x, l);
      QuietRun(Apply(s, ts[0]), ts[1..], x, l);
    }
  }

  /** A visit of a request of the port that is not outstanding and not waiting for the answer to an ABTS. */
  lemma {:induction false} VisitQuiets(s: State, x: nat, port: nat, e: Env)
    requires Inv(s) && Enabled(s, FlushVisits(x, port, e)) && s.reqs[x].alloc && s.reqs[x].fcport == Some(port)
    requires Outstanding !in s.reqs[x].flags && !InAbortOnly(s.reqs[x])
    ensures Quiet(Apply(s, FlushVisits(x, port, e)).reqs[x], s.reqs[x].life)
  {
    FlushCancelsRrq(s, x, port, e);
    LawfulStep(s, FlushVisits(x, port, e));
    assert Ages(s.reqs[x], Apply(s, FlushVisits(x, port, e)).reqs[x]);
  }

  /** The run leads to a pending RRQ in life `l` of the request. */
  ghost predicate RrqIn(s: State, ts: seq<Step>, x: nat, l: nat) {
    && WellFormed(s) && x < NUM_TASKS && Admissible(s, ts) && HazardFree(s, ts)
    && After(s, ts).reqs[x].life == l && RrqWork in After(s, ts).reqs[x].pending
  }

  /** After the visit an RRQ can still come in this use of the request if and only if it was waiting for the answer to
      an ABTS. */
  lemma {:induction false} RrqComesIff(s: State, x: nat, port: nat, e: Env)
    requires Inv(s) && Enabled(s, FlushVisits(x, port, e)) && s.reqs[x].alloc && s.reqs[x].fcport == Some(port)
    requires Outstanding !in s.reqs[x].flags
    ensures (exists ts :: RrqIn(Apply(s, FlushVisits(x, port, e)), ts, x, s.reqs[x].life)) <==> InAbortOnly(s.reqs[x])
  {
    var s', l := Apply(s, FlushVisits(x, port, e)), s.reqs[x].life;
    StepKeeps(s, FlushVisits(x, port, e));
    if InAbortOnly(s.reqs[x]) {
      FlushCancelsRrq(s, x, port, e);
      StillAborting(s, x, port, e);
      var ts := AnswerBrings(s', x);
      assert RrqIn(s', ts, x, l);
    } else {
      VisitQuiets(s, x, port, e);
      forall ts | RrqIn(s', ts, x, l) ensures false { QuietRun(s', ts, x, l); }
    }
  }

  lemma {:induction false} StillAborting(s: State, x: nat, port: nat, e: Env)
    requires Inv(s) && Enabled(s, FlushVisits(x, port, e)) && s.reqs[x].alloc && s.reqs[x].fcport == Some(port)
    requires Outstanding !in s.reqs[x].flags && InAbortOnly(s.reqs[x])
    ensures var r' := Apply(s, FlushVisits(x, port, e)).reqs[x];
            r'.alloc && r'.life == s.reqs[x].life && InAbortOnly(r') && r'.flushWait.NoFlush?
  {
    ReqAt(s, x);
  }

  lemma {:induction false} AnswerBrings(s: State, x: nat) returns (ts: seq<Step>)
    requires Inv(s) && x < NUM_TASKS && s.reqs[x].alloc && InAbortOnly(s.reqs[x]) && s.reqs[x].flushWait.NoFlush?
    ensures RrqIn(s, ts, x, s.reqs[x].life)
  {
    var e := Env(true, false, false, false, GoodPtr, false, false, false, false, false, OtherReply,
                 false, false, false, false);
    var t := AbtsCqe(x, BaAcc, e);
    ReqAt(s, x);
    AbtsAnswerActs(s, x, BaAcc, e);
    AnswerKeepsLife(s.reqs[x], Incoming(s, x), Token(s, x), e);
    OneStep(s, t);
    ts := [t];
  }

  lemma {:induction false} AnswerKeepsLife(r: IoReq, inc: int, token: bool, e: Env)
    requires ReqOk(r, inc) && r.alloc && InAbortOnly(r) && r.flushWait.NoFlush? && !e.flushing
    requires r.scCmd.Some? ==> token
    ensures AbtsCompl(r, BaAcc, token, e).req.life == r.life
  {
    AbtsComplKeeps(r, inc, BaAcc, token, e);
    AnswerActs(r, BaAcc, token, e);
  }
}
