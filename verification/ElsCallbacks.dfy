/** ELS completions, timeouts and flushes: the callback runs for the request the ELS was sent for, then
    the ELS request gives up its references. */
module ElsCallbacks {
  import opened Requests
  import opened Exchange
  import opened Holders
  import opened Counting
  import opened ExchangeInvariant
  import opened ElsSteps

  // ---- What the callback does for the original request

  lemma {:induction false} Targeted(s: State, y: nat, x: nat)
    requires y < |s.reqs| && Target(s.reqs[y]) == Some(x)
    ensures Incoming(s, x) > 0
  {
    CountZero(s.reqs, Refers(x));
    assert Refers(x)(s.reqs[y]);
  }

  lemma {:induction false} TimerStopped(s: State, x: nat)
    requires Sound(s) && x < NUM_TASKS
    ensures Sound(Store(s, x, StopTimer(s.reqs[x])))
  {
    ReqAt(s, x);
    StopTimerKeeps(s.reqs[x], Incoming(s, x));
    StoreKeeps(s, x, StopTimer(s.reqs[x]));
  }

  lemma {:induction false} RecActsKeeps(s: State, x: nat, y: nat, e: Env)
    requires Sound(s) && x < NUM_TASKS && y < NUM_TASKS && x != y && Target(s.reqs[y]) == Some(x)
    requires s.reqs[x].alloc && !ElsWaiting(s.reqs[x])
    ensures Sound(RecAnswered(s, x, e))
  {
    var s1 := Store(s, x, StopTimer(s.reqs[x]));
    TimerStopped(s, x);
    assert s1.reqs[y] == s.reqs[y];
    Targeted(s1, y, x);
    RequeueKeeps(s1, x, e);
    SrrKeeps(s1, x, e);
  }

  lemma {:induction false} SrrActsKeeps(s: State, x: nat, ev: Event, e: Env)
    requires Sound(s) && x < NUM_TASKS && s.reqs[x].alloc
    ensures Sound(CallbackActs(s, Srr, x, ev, e))
  {
    ReqAt(s, x);
    SrrReturnsKeeps(s.reqs[x], Incoming(s, x), ev, e);
    StoreKeeps(s, x, SrrReturns(s.reqs[x], ev, e));
  }

  lemma {:induction false} ActsKeeps(s: State, op: ElsOp, x: nat, y: nat, ev: Event, e: Env)
    requires Sound(s) && x < NUM_TASKS && y < NUM_TASKS && x != y && Target(s.reqs[y]) == Some(x)
    requires s.reqs[x].alloc && !ElsWaiting(s.reqs[x])
    ensures Sound(CallbackActs(s, op, x, ev, e))
  {
    match op
    case Adisc =>
    case Rrq =>
    case Rec => RecActsKeeps(s, x, y, e);
    case Srr => SrrActsKeeps(s, x, ev, e);
  }

  lemma {:induction false} RecActsLeaves(s: State, x: nat, e: Env, y: nat)
    requires WellFormed(s) && x < NUM_TASKS && x != y
    ensures Leaves(s, RecAnswered(s, x, e), y)
  {
    var s1 := Store(s, x, StopTimer(s.reqs[x]));
    RequeueLeaves(s1, x, e, y);
    SrrLeaves(s1, x, e, y);
  }

  lemma {:induction false} ActsLeaves(s: State, op: ElsOp, x: nat, ev: Event, e: Env, y: nat)
    requires WellFormed(s) && x < NUM_TASKS && x != y
    ensures Leaves(s, CallbackActs(s, op, x, ev, e), y)
  {
    if op.Rec? { RecActsLeaves(s, x, e, y); }
  }

  // ---- The callback

  /** After the callback of `y`: `y` still counts as referring to its target, which has already been
      released from it. */
  ghost predicate CalledBack(s: State, s1: State, y: nat)
    requires y < |s.reqs|
  {
    && |s1.reqs| == |s.reqs| && s1.reqs[y] == s.reqs[y] && s1.running == s.running
    && (if Target(s.reqs[y]).Some? then InvExcept(s1, Target(s.reqs[y]).value, 1) else Sound(s1))
  }

  lemma {:induction false} TargetDropped(s: State, s1: State, x: nat, y: nat)
    requires Sound(s1) && Leaves(s, s1, y) && x < NUM_TASKS && y < NUM_TASKS && x != y && s.reqs[y].alloc
    requires Target(s.reqs[y]) == Some(x)
    ensures s1.reqs[x].refs > 0 && CalledBack(s, Store(s1, x, Put(s1.reqs[x])), y)
  {
    Targeted(s1, y, x);
    ReqAt(s1, x);
    Exempting(s1, 0, x);
    DropExempt(s1, x, 0);
  }

  lemma {:induction false} CallbackKeeps(s: State, y: nat, e: Env)
    requires Sound(s) && y < NUM_TASKS && ElsWaiting(s.reqs[y])
    ensures CalledBack(s, Callback(s, s.reqs[y].cb, s.reqs[y].event, e), y)
  {
    var r := s.reqs[y];
    if Target(r).Some? {
      var x := Target(r).value;
      Targeted(s, y, x);
      ReqAt(s, x);
      ActsKeeps(s, r.cb.value.op, x, y, r.event, e);
      ActsLeaves(s, r.cb.value.op, x, r.event, e, y);
      TargetDropped(s, CallbackActs(s, r.cb.value.op, x, r.event, e), x, y);
    }
  }

  // ---- The ELS request gives up its references

  lemma {:induction false} Unreferenced(s: State, y: nat)
    requires TargetsOk(s) && y < |s.reqs| && ElsWaiting(s.reqs[y])
    ensures Incoming(s, y) == One(s.running == Some(y))
  {
    forall i | 0 <= i < |s.reqs| ensures !Refers(y)(s.reqs[i]) {
      if Target(s.reqs[i]) == Some(y) { assert false; }
    }
    CountZero(s.reqs, Refers(y));
  }

  /** The callback runs and the request ends. */
  lemma {:induction false} CallbackEnds(s: State, y: nat, r': IoReq, e: Env)
    requires Sound(s) && y < NUM_TASKS && ElsWaiting(s.reqs[y]) && (s.running.None? || s.running == Some(y))
    requires Ends(s.reqs[y], r')
    ensures Inv(Settle(Callback(s, s.reqs[y].cb, s.reqs[y].event, e), y, r'))
  {
    CallbackKeeps(s, y, e);
    CalledBackEnds(s, Callback(s, s.reqs[y].cb, s.reqs[y].event, e), y, r');
  }

  lemma {:induction false} CalledBackEnds(s: State, s1: State, y: nat, r': IoReq)
    requires Sound(s) && y < NUM_TASKS && CalledBack(s, s1, y) && ElsWaiting(s.reqs[y])
    requires (s.running.None? || s.running == Some(y)) && Ends(s.reqs[y], r')
    ensures Inv(Settle(s1, y, r'))
  {
    Unreferenced(s1, y);
    if Target(s.reqs[y]).Some? {
      RunEnds(s1, y, r', Target(s.reqs[y]).value, 1);
    } else {
      RunEnds(s1, y, r', 0, 0);
    }
  }

  // ---- The five ways an ELS request ends

  /** The handler stores `r`, runs the callback, and leaves `r'` of the request. */
  lemma {:induction false} RunCallbackEnds(s: State, y: nat, r: IoReq, r': IoReq, e: Env)
    requires WellFormed(s) && y < NUM_TASKS && Sound(Store(s, y, r)) && ElsWaiting(r)
    requires (s.running.None? || s.running == Some(y)) && Ends(r, r')
    ensures Inv(Settle(RunCallback(s, y, r, e), y, r')) && RunCallback(s, y, r, e).reqs[y] == r
  {
    var s0 := Store(s, y, r);
    assert s0.reqs[y] == r;
    CallbackKeeps(s0, y, e);
    CallbackEnds(s0, y, r', e);
  }

  lemma {:induction false} ElsReqOk(s: State, y: nat)
    requires Sound(s) && y < NUM_TASKS && ElsWaiting(s.reqs[y])
    ensures Incoming(s, y) == One(s.running == Some(y)) && ReqOk(s.reqs[y], One(s.running == Some(y)))
  {
    Unreferenced(s, y);
    ReqAt(s, y);
  }

  /** The handler of the ELS request `y` passes it on as `r`, the callback leaves that alone, and the handler
      makes `r'` of it. */
  ghost predicate Poised(s: State, y: nat, r: IoReq, r': IoReq, e: Env) {
    && WellFormed(s) && y < NUM_TASKS && Sound(Store(s, y, r)) && ElsWaiting(r) && RunCallback(s, y, r, e).reqs[y] == r
    && SameHold(s.reqs[y], r) && r.cb == s.reqs[y].cb && Target(r) == Target(s.reqs[y])
    && r.scCmd.None? && r'.scCmd.None?
  }

  function Ended(s: State, y: nat, r: IoReq, r': IoReq, e: Env): (s': State)
    requires WellFormed(s) && y < NUM_TASKS
    ensures WellFormed(s')
  {
    Settle(RunCallback(s, y, r, e), y, r')
  }

  lemma {:induction false} CompletionPoised(s: State, y: nat, e: Env)
    requires Inv(s) && y < NUM_TASKS && s.reqs[y].alloc && s.reqs[y].cmdType.Els?
    requires !ElsComplIgnored(s.reqs[y], e) && !(IsRrq(s.reqs[y]) && s.reqs[y].event.EvElsTmo?)
    ensures var r := Quiesce(s.reqs[y]);
            Poised(s, y, r, ElsDrop(r), e) && ElsCompl(s, y, e) == Ended(s, y, r, ElsDrop(r), e)
    ensures Inv(ElsCompl(s, y, e))
  {
    var r := Quiesce(s.reqs[y]);
    ElsReqOk(s, y);
    CompletionEnds(s.reqs[y]);
    StoreKeeps(s, y, r);
    RunCallbackEnds(s, y, r, ElsDrop(r), e);
  }

  lemma {:induction false} ElsComplKeeps(s: State, y: nat, e: Env)
    requires Inv(s) && y < NUM_TASKS && s.reqs[y].alloc && s.reqs[y].cmdType.Els?
    requires !ElsComplIgnored(s.reqs[y], e) ==> !(IsRrq(s.reqs[y]) && s.reqs[y].event.EvElsTmo?)
    ensures Inv(ElsCompl(s, y, e))
  {
    if !ElsComplIgnored(s.reqs[y], e) { CompletionPoised(s, y, e); }
  }

  /** A handler that starts now on a reference of its own, and ends. */
  lemma {:induction false} EarlyEnds(s: State, y: nat, r1: IoReq, r': IoReq, e: Env)
    requires Inv(s) && y < NUM_TASKS && ElsWaiting(s.reqs[y])
    requires Keeps(s.reqs[y], r1, 1) && ElsWaiting(r1) && Ends(r1, r')
    ensures var s0 := s.(running := Some(y));
            && Sound(Store(s0, y, r1)) && RunCallback(s0, y, r1, e).reqs[y] == r1 && Inv(Ended(s0, y, r1, r', e))
  {
    Unreferenced(s, y);
    RunStarts(s, y, r1);
    RunCallbackEnds(s.(running := Some(y)), y, r1, r', e);
  }

  /** A suspended handler that resumes, and ends. */
  lemma {:induction false} LateEnds(s: State, y: nat, r1: IoReq, r': IoReq, e: Env)
    requires Inv(s) && y < NUM_TASKS && ElsWaiting(s.reqs[y])
    requires Keeps(s.reqs[y], r1, 0) && ElsWaiting(r1) && Ends(r1, r')
    ensures Sound(Store(s, y, r1)) && RunCallback(s, y, r1, e).reqs[y] == r1 && Inv(Ended(s, y, r1, r', e))
  {
    Unreferenced(s, y);
    StoreKeeps(s, y, r1);
    RunCallbackEnds(s, y, r1, r', e);
  }

  lemma {:induction false} TimeoutPoised(s: State, y: nat, e: Env)
    requires Inv(s) && y < NUM_TASKS && s.reqs[y].alloc && s.reqs[y].cmdType.Els?
    requires !CleanupWaits(Quiesce(Get(s.reqs[y])), e)
    ensures var s0, r := s.(running := Some(y)), WithEvent(CleanupBegin(Quiesce(Get(s.reqs[y])), true, e), EvElsTmo);
            Poised(s0, y, r, ElsTmoDrop(r), e) && ElsTimeout(s, y, e) == Ended(s0, y, r, ElsTmoDrop(r), e)
    ensures Inv(ElsTimeout(s, y, e))
  {
    var r := WithEvent(CleanupBegin(Quiesce(Get(s.reqs[y])), true, e), EvElsTmo);
    ElsReqOk(s, y);
    EarlyTimeout(s.reqs[y], e);
    EarlyEnds(s, y, r, ElsTmoDrop(r), e);
  }

  lemma {:induction false} ElsTimeoutKeeps(s: State, y: nat, e: Env)
    requires Inv(s) && y < NUM_TASKS && s.reqs[y].alloc && s.reqs[y].cmdType.Els?
    ensures Inv(ElsTimeout(s, y, e))
  {
    var r := s.reqs[y];
    ElsReqOk(s, y);
    if CleanupWaits(Quiesce(Get(r)), e) {
      TimeoutSuspends(r, e);
      StoreKeeps(s, y, ElsTmoSuspends(CleanupBegin(Quiesce(Get(r)), true, e)));
    } else {
      TimeoutPoised(s, y, e);
    }
  }

  /** An ELS request has no command, so its cleanup gives nothing back. */
  lemma {:induction false} ResumedAs(s: State, y: nat, e: Env)
    requires WellFormed(s) && y < NUM_TASKS && s.reqs[y].scCmd.None?
    ensures var c := CleanupEnd(s.reqs[y], false, e).req;
            && ElsCleaned(s, y, e) == Store(s, y, c) && SameHold(s.reqs[y], c)
            && ElsTmoResumed(s, y, e) == ElsTimedOut(s, y, c, e) && FlushElsResumed(s, y, e) == ElsFlushed(s, y, c, e)
  {
    var c := CleanupEnd(s.reqs[y], false, e).req;
    assert ElsCleaned(s, y, e) == Store(s, y, c);
    StoreTwice(s, y, c, WithEvent(c, EvElsTmo));
    StoreTwice(s, y, c, WithEvent(Quiesce(c), EvElsFlush));
  }

  lemma {:induction false} LateTimeoutPoised(s: State, y: nat, e: Env)
    requires Inv(s) && y < NUM_TASKS && ElsTmoWait in s.reqs[y].marks
    ensures var r := WithEvent(CleanupEnd(s.reqs[y], false, e).req, EvElsTmo);
            Poised(s, y, r, ElsTmoDrop(r), e) && ElsTmoResumed(s, y, e) == Ended(s, y, r, ElsTmoDrop(r), e)
    ensures Inv(ElsTmoResumed(s, y, e))
  {
    var r := WithEvent(CleanupEnd(s.reqs[y], false, e).req, EvElsTmo);
    ReqAt(s, y);
    ElsReqOk(s, y);
    LateTimeout(s.reqs[y], e);
    LateEnds(s, y, r, ElsTmoDrop(r), e);
    ResumedAs(s, y, e);
  }

  lemma {:induction false} FlushPoised(s: State, y: nat, e: Env)
    requires Inv(s) && y < NUM_TASKS && s.reqs[y].alloc && s.reqs[y].cmdType.Els? && !CleanupWaits(Get(s.reqs[y]), e)
    ensures var s0, r := s.(running := Some(y)), WithEvent(Quiesce(CleanupBegin(Get(s.reqs[y]), false, e)), EvElsFlush);
            Poised(s0, y, r, ElsFlushDrop(r), e) && FlushElsVisit(s, y, e) == Ended(s0, y, r, ElsFlushDrop(r), e)
    ensures Inv(FlushElsVisit(s, y, e))
  {
    var r := WithEvent(Quiesce(CleanupBegin(Get(s.reqs[y]), false, e)), EvElsFlush);
    ElsReqOk(s, y);
    EarlyFlush(s.reqs[y], e);
    EarlyEnds(s, y, r, ElsFlushDrop(r), e);
  }

  lemma {:induction false} FlushElsVisitKeeps(s: State, y: nat, e: Env)
    requires Inv(s) && y < NUM_TASKS && s.reqs[y].alloc && s.reqs[y].cmdType.Els?
    ensures Inv(FlushElsVisit(s, y, e))
  {
    var r := s.reqs[y];
    ElsReqOk(s, y);
    if CleanupWaits(Get(r), e) {
      FlushSuspends(r, e);
      StoreKeeps(s, y, FlushElsSuspends(CleanupBegin(Get(r), false, e)));
    } else {
      FlushPoised(s, y, e);
    }
  }

  lemma {:induction false} LateFlushPoised(s: State, y: nat, e: Env)
    requires Inv(s) && y < NUM_TASKS && s.reqs[y].flushWait.FlushEls?
    ensures var r := WithEvent(Quiesce(CleanupEnd(s.reqs[y], false, e).req), EvElsFlush);
            Poised(s, y, r, ElsFlushDrop(r), e) && FlushElsResumed(s, y, e) == Ended(s, y, r, ElsFlushDrop(r), e)
    ensures Inv(FlushElsResumed(s, y, e))
  {
    var r := WithEvent(Quiesce(CleanupEnd(s.reqs[y], false, e).req), EvElsFlush);
    ReqAt(s, y);
    ElsReqOk(s, y);
    LateFlush(s.reqs[y], e);
    LateEnds(s, y, r, ElsFlushDrop(r), e);
    ResumedAs(s, y, e);
  }
}
