/** From every state that hazards and leaks have not touched, the pool can be emptied: some run of handlers
    returns all 4096 requests. So the pool can be emptied after a run without hazards if and only if no step
    of it was a leak. */
module Drain {
  import opened Requests
  import opened Exchange
  import opened Holders
  import opened Counting
  import opened ExchangeInvariant
  import opened StepInvariant
  import opened ElsCallbacks
  import opened Frame
  import opened ExchangeTheorems
  import opened Leaks

  /** The session is up, but the send queue is full and there is no memory: handlers can only let go. */
  predicate Tight(e: Env) { e.ready && !e.room && !e.flushing && e.ptr.GoodPtr? && !e.memory && e.reply.OtherReply? }

  // ---- Runs without hazards and leaks

  ghost predicate Leads(s: State, s': State)
    requires WellFormed(s)
  {
    exists ts :: Admissible(s, ts) && HazardFree(s, ts) && LeakFree(s, ts) && After(s, ts) == s'
  }

  lemma {:induction false} LeakFreeJoined(s: State, ts: seq<Step>, us: seq<Step>)
    requires WellFormed(s) && Admissible(s, ts) && Admissible(After(s, ts), us)
    requires LeakFree(s, ts) && LeakFree(After(s, ts), us)
    ensures Admissible(s, ts + us) && LeakFree(s, ts + us)
    decreases |ts|
  {
    if |ts| == 0 {
      assert ts + us == us;
    } else {
      var s1, t := Apply(s, ts[0]), ts[0];
      LeakFreeJoined(s1, ts[1..], us);
      LeakFreeCons(s, t, ts[1..] + us);
      assert ts + us == [t] + (ts[1..] + us);
    }
  }

  lemma {:induction false} LeakFreeCons(s: State, t: Step, ts: seq<Step>)
    requires WellFormed(s) && Enabled(s, t) && Admissible(Apply(s, t), ts) && !Leak(s, t) && LeakFree(Apply(s, t), ts)
    ensures Admissible(s, [t] + ts) && LeakFree(s, [t] + ts)
  {
    assert ([t] + ts)[1..] == ts;
  }

  lemma {:induction false} LeadsOn(s: State, s1: State, s2: State)
    requires WellFormed(s) && WellFormed(s1) && Leads(s, s1) && Leads(s1, s2)
    ensures Leads(s, s2)
  {
    var ts :| Admissible(s, ts) && HazardFree(s, ts) && LeakFree(s, ts) && After(s, ts) == s1;
    var us :| Admissible(s1, us) && HazardFree(s1, us) && LeakFree(s1, us) && After(s1, us) == s2;
    Joined(s, ts, us);
    LeakFreeJoined(s, ts, us);
  }

  lemma {:induction false} LeadsNowhere(s: State)
    requires WellFormed(s)
    ensures Leads(s, s)
  {
    assert Admissible(s, []) && HazardFree(s, []) && LeakFree(s, []) && After(s, []) == s;
  }

  lemma {:induction false} LeadsNext(s: State, t: Step)
    requires WellFormed(s) && Enabled(s, t) && !Hazard(s, t) && !Leak(s, t)
    ensures Leads(s, Apply(s, t))
  {
    OneStep(s, t);
    LeakFreeCons(s, t, []);
    assert [t] + [] == [t];
  }

  // ---- One step that lets go

  ghost predicate Fit(s: State) { Inv(s) && AllClean(s) && AllTimed(s) }

  /** No request is taken. */
  ghost predicate Shrinks(s: State, s': State) {
    |s'.reqs| == |s.reqs| && forall i :: 0 <= i < |s.reqs| && s'.reqs[i].alloc ==> s.reqs[i].alloc
  }

  /** The step may happen, and takes a reference off `x`. */
  ghost predicate LetsGo(s: State, t: Step, x: nat)
    requires WellFormed(s) && x < NUM_TASKS
  {
    && Enabled(s, t) && !Hazard(s, t) && !Leak(s, t)
    && Shrinks(s, Apply(s, t)) && Apply(s, t).reqs[x].refs < s.reqs[x].refs
  }

  lemma {:induction false} ShrinksStore(s: State, x: nat, r: IoReq)
    requires x < |s.reqs| && s.reqs[x].alloc
    ensures Shrinks(s, Store(s, x, r))
  {}

  lemma {:induction false} FlushResumed(r: IoReq, inc: int, token: bool, e: Env)
    requires Tight(e) && ReqOk(r, inc) && !r.flushWait.NoFlush? && !r.flushWait.FlushEls? && (r.scCmd.Some? ==> token)
    ensures r.alloc && FlushScsiEnd(r, token, e).req.refs < r.refs
  {}

  lemma {:induction false} AbtsTimedOut(r: IoReq, inc: int, token: bool, e: Env)
    requires Tight(e) && ReqOk(r, inc) && AbtsTmoWait in r.marks && (r.scCmd.Some? ==> token)
    ensures r.alloc && AbtsTimeoutEnd(r, token, e).req.refs < r.refs
  {}

  lemma {:induction false} AbtsRejected(r: IoReq, inc: int, token: bool, e: Env)
    requires Tight(e) && ReqOk(r, inc) && InAbort in r.flags && (r.scCmd.Some? ==> token)
    ensures r.alloc && r.fcport.Some? && AbtsCompl(r, BaRjt, token, e).req.refs < r.refs
  {}

  /** The handlers that are suspended on a request, and the ABTS in flight, can end. */
  lemma {:induction false} FlushGoes(s: State, x: nat, e: Env)
    requires Tight(e) && Inv(s) && x < NUM_TASKS && !s.reqs[x].flushWait.NoFlush? && !s.reqs[x].flushWait.FlushEls?
    ensures LetsGo(s, FlushResumes(x, e), x)
  {
    ReqAt(s, x);
    FlushResumed(s.reqs[x], Incoming(s, x), Token(s, x), e);
    ShrinksStore(s, x, FlushScsiEnd(s.reqs[x], Token(s, x), e).req);
  }

  lemma {:induction false} AbtsTmoGoes(s: State, x: nat, e: Env)
    requires Tight(e) && Inv(s) && x < NUM_TASKS && AbtsTmoWait in s.reqs[x].marks
    ensures LetsGo(s, AbtsTmoResumes(x, e), x)
  {
    ReqAt(s, x);
    AbtsTimedOut(s.reqs[x], Incoming(s, x), Token(s, x), e);
    ShrinksStore(s, x, AbtsTimeoutEnd(s.reqs[x], Token(s, x), e).req);
  }

  lemma {:induction false} AbtsGoes(s: State, x: nat, e: Env)
    requires Tight(e) && Inv(s) && x < NUM_TASKS && InAbort in s.reqs[x].flags
    requires AbtsTmoWait !in s.reqs[x].marks && s.reqs[x].flushWait.NoFlush?
    ensures LetsGo(s, AbtsCqe(x, BaRjt, e), x)
  {
    ReqAt(s, x);
    AbtsRejected(s.reqs[x], Incoming(s, x), Token(s, x), e);
    ShrinksStore(s, x, AbtsCompl(s.reqs[x], BaRjt, Token(s, x), e).req);
  }

  /** An error handler that holds the request can leave. */
  lemma {:induction false} EhGoes(s: State, x: nat)
    requires Inv(s) && x < NUM_TASKS && s.reqs[x].eh > 0
    ensures LetsGo(s, EhLeaves(x), x)
  {
    ReqAt(s, x);
  }

  /** What else is left is a pending RRQ: out of memory, it is dropped. */
  lemma {:induction false} RrqGoes(s: State, x: nat, e: Env)
    requires Tight(e) && Inv(s) && x < NUM_TASKS && RrqWork in s.reqs[x].pending && s.reqs[x].refs == 1
    ensures LetsGo(s, RrqRuns(x, e), x)
  {
    ReqAt(s, x);
  }

  // ---- ELS requests

  /** With nothing to send, a callback only lets go of the request it was sent for. */
  lemma {:induction false} TightActs(s: State, op: ElsOp, x: nat, ev: Event, e: Env)
    requires Tight(e) && WellFormed(s) && x < NUM_TASKS
    ensures var s1 := CallbackActs(s, op, x, ev, e);
            && |s1.reqs| == |s.reqs| && s1.reqs[x].refs == s.reqs[x].refs && s1.reqs[x].alloc == s.reqs[x].alloc
            && forall i :: 0 <= i < |s.reqs| && i != x ==> s1.reqs[i] == s.reqs[i]
  {}

  lemma {:induction false} TightCallback(s: State, y: nat, e: Env)
    requires Tight(e) && Sound(s) && y < NUM_TASKS && ElsWaiting(s.reqs[y])
    ensures var s' := Callback(s, s.reqs[y].cb, s.reqs[y].event, e);
            && Shrinks(s, s') && s'.reqs[y] == s.reqs[y]
            && forall x :: Target(s.reqs[y]) == Some(x) ==> x < NUM_TASKS && s'.reqs[x].refs == s.reqs[x].refs - 1
  {
    CalledAs(s, y, e);
    if Target(s.reqs[y]).Some? {
      TightActs(s, s.reqs[y].cb.value.op, Target(s.reqs[y]).value, s.reqs[y].event, e);
    }
  }

  /** The handler of `y` ends: `y` is left as `r'`, and its target has lost a reference. */
  ghost predicate EndsAs(s: State, s': State, y: nat, r': IoReq)
    requires y < |s.reqs|
  {
    && Shrinks(s, s') && s'.reqs[y] == r'
    && forall x :: Target(s.reqs[y]) == Some(x) ==> x < |s.reqs| && x != y && s'.reqs[x].refs == s.reqs[x].refs - 1
  }

  lemma {:induction false} TightRun(s: State, y: nat, r: IoReq, r': IoReq, e: Env)
    requires Tight(e) && Poised(s, y, r, r', e) && TargetsOk(s)
    ensures EndsAs(s, Ended(s, y, r, r', e), y, r')
  {
    TightSettles(s, y, r, r', e);
  }

  lemma {:induction false} TightSettles(s: State, y: nat, r: IoReq, r': IoReq, e: Env)
    requires Tight(e) && WellFormed(s) && TargetsOk(s) && y < NUM_TASKS && s.reqs[y].alloc
    requires Sound(Store(s, y, r)) && ElsWaiting(r) && Target(r) == Target(s.reqs[y])
    ensures EndsAs(s, Settle(RunCallback(s, y, r, e), y, r'), y, r')
  {
    var s0 := Store(s, y, r);
    assert s0.reqs[y] == r;
    TightCallback(s0, y, e);
  }

  /** What the timer leaves of an ELS: nothing of an RRQ, and a request that waits for its completion of any
      other. */
  lemma {:induction false} TimedOutAs(r: IoReq, e: Env)
    requires Tight(e) && ReqOk(r, 0) && r.alloc && r.cmdType.Els?
    ensures var r' := ElsTmoDrop(WithEvent(CleanupBegin(Quiesce(Get(r)), true, e), EvElsTmo));
            if IsRrq(r) then r'.refs == 0
            else r'.refs == r.refs && r'.alloc && r'.cmdType.Els? && r'.event.EvElsTmo? && r'.cb.None?
  {}

  lemma {:induction false} TimerEnds(s: State, y: nat, e: Env)
    requires Tight(e) && Inv(s) && y < NUM_TASKS && s.reqs[y].alloc && s.reqs[y].cmdType.Els?
    requires TimeoutWork in s.reqs[y].pending
    ensures var t := TimerFires(y, e); Enabled(s, t) && !Hazard(s, t) && !Leak(s, t)
    ensures var r := WithEvent(CleanupBegin(Quiesce(Get(s.reqs[y])), true, e), EvElsTmo);
            EndsAs(s, Apply(s, TimerFires(y, e)), y, ElsTmoDrop(r))
  {
    var r := WithEvent(CleanupBegin(Quiesce(Get(s.reqs[y])), true, e), EvElsTmo);
    TimeoutPoised(s, y, e);
    TightRun(s.(running := Some(y)), y, r, ElsTmoDrop(r), e);
    ElsReqOk(s, y);
  }

  lemma {:induction false} ResumedRrq(r: IoReq, e: Env)
    requires Tight(e) && ReqOk(r, 0) && ElsTmoWait in r.marks && IsRrq(r)
    ensures ElsTmoDrop(WithEvent(CleanupEnd(r, false, e).req, EvElsTmo)).refs < r.refs
  {}

  lemma {:induction false} TmoResumeEnds(s: State, y: nat, e: Env)
    requires Tight(e) && Inv(s) && y < NUM_TASKS && ElsTmoWait in s.reqs[y].marks
    ensures var r := WithEvent(CleanupEnd(s.reqs[y], false, e).req, EvElsTmo);
            EndsAs(s, ElsTmoResumed(s, y, e), y, ElsTmoDrop(r))
  {
    var r := WithEvent(CleanupEnd(s.reqs[y], false, e).req, EvElsTmo);
    LateTimeoutPoised(s, y, e);
    TightRun(s, y, r, ElsTmoDrop(r), e);
  }

  lemma {:induction false} FlushedEls(r: IoReq, e: Env)
    requires Tight(e) && ReqOk(r, 0) && r.flushWait.FlushEls?
    ensures ElsFlushDrop(WithEvent(Quiesce(CleanupEnd(r, false, e).req), EvElsFlush)).refs < r.refs
  {}

  lemma {:induction false} FlushResumeEnds(s: State, y: nat, e: Env)
    requires Tight(e) && Inv(s) && y < NUM_TASKS && s.reqs[y].flushWait.FlushEls?
    ensures var r := WithEvent(Quiesce(CleanupEnd(s.reqs[y], false, e).req), EvElsFlush);
            EndsAs(s, FlushElsResumed(s, y, e), y, ElsFlushDrop(r))
  {
    var r := WithEvent(Quiesce(CleanupEnd(s.reqs[y], false, e).req), EvElsFlush);
    LateFlushPoised(s, y, e);
    TightRun(s, y, r, ElsFlushDrop(r), e);
  }

  lemma {:induction false} CompletionEndsAs(s: State, y: nat, e: Env)
    requires Tight(e) && Inv(s) && y < NUM_TASKS && s.reqs[y].alloc && s.reqs[y].cmdType.Els?
    requires s.reqs[y].event.EvElsTmo? && s.reqs[y].cb.None?
    ensures EndsAs(s, ElsCompl(s, y, e), y, ElsDrop(Quiesce(s.reqs[y])))
  {
    CompletionPoised(s, y, e);
    TightRun(s, y, Quiesce(s.reqs[y]), ElsDrop(Quiesce(s.reqs[y])), e);
  }

  lemma {:induction false} CompletionDrops(r: IoReq)
    requires ReqOk(r, 0) && r.alloc && r.cmdType.Els? && r.cb.None?
    ensures ElsDrop(Quiesce(r)).refs < r.refs
  {}

  /** An ELS that has timed out is released by its completion. */
  lemma {:induction false} CompletionGoes(s: State, y: nat, e: Env)
    requires Tight(e) && Inv(s) && y < NUM_TASKS && s.reqs[y].alloc && s.reqs[y].cmdType.Els?
    requires s.reqs[y].event.EvElsTmo? && s.reqs[y].cb.None?
    ensures LetsGo(s, GoodCqe(y, e), y)
  {
    var r' := ElsDrop(Quiesce(s.reqs[y]));
    ReqAt(s, y);
    CompletionEndsAs(s, y, e);
    ElsReqOk(s, y);
    CompletionDrops(s.reqs[y]);
    BothLetGo(s, GoodCqe(y, e), ElsCompl(s, y, e), y, r');
  }

  // ---- Every request can be released

  lemma {:induction false} Takes(s: State, t: Step)
    requires Fit(s) && Enabled(s, t) && !Hazard(s, t) && !Leak(s, t)
    ensures Leads(s, Apply(s, t)) && Fit(Apply(s, t))
  {
    LeadsNext(s, t);
    StepKeeps(s, t);
    CleanStep(s, t);
    TimedStep(s, t);
  }

  /** A run leads on to a state in which `x` has fewer references. */
  ghost predicate Better(s: State, s': State, x: nat)
    requires WellFormed(s) && x < NUM_TASKS
  {
    Leads(s, s') && Fit(s') && Shrinks(s, s') && s'.reqs[x].refs < s.reqs[x].refs
  }

  lemma {:induction false} Improves(s: State, t: Step, x: nat)
    requires Fit(s) && x < NUM_TASKS && LetsGo(s, t, x)
    ensures Better(s, Apply(s, t), x)
  {
    Takes(s, t);
  }

  lemma {:induction false} ShrinksOn(s: State, s1: State, s2: State)
    requires Shrinks(s, s1) && Shrinks(s1, s2)
    ensures Shrinks(s, s2)
  {}

  lemma {:induction false} ThenImproves(s: State, s1: State, t: Step, x: nat)
    requires Fit(s) && Leads(s, s1) && Fit(s1) && Shrinks(s, s1) && x < NUM_TASKS
    requires LetsGo(s1, t, x) && Apply(s1, t).reqs[x].refs < s.reqs[x].refs
    ensures Better(s, Apply(s1, t), x)
  {
    Takes(s1, t);
    LeadsOn(s, s1, Apply(s1, t));
    ShrinksOn(s, s1, Apply(s1, t));
  }

  lemma {:induction false} EhHolds(s: State, x: nat, c: nat)
    requires Inv(s) && x < NUM_TASKS && s.reqs[x].scCmd == Some(c)
    ensures s.reqs[x].alloc && EhBegins(s, c) == Store(s, x, EhBegin(s.reqs[x]))
  {
    ReqAt(s, x);
  }

  lemma {:induction false} EhGivesUp(r: IoReq, inc: int, token: bool, e: Env)
    requires Tight(e) && ReqOk(r, inc) && r.scCmd.Some? && token
    ensures EhAbort(EhBegin(r), token, e).req.refs < r.refs
  {}

  /** The error handler takes a command back from a request, whatever has become of that. */
  lemma {:induction false} CommandGoes(s: State, x: nat, e: Env) returns (s': State)
    requires Tight(e) && Fit(s) && x < NUM_TASKS && s.reqs[x].scCmd.Some?
    ensures Better(s, s', x)
  {
    var r := s.reqs[x];
    var s1 := EhBegins(s, r.scCmd.value);
    EhHolds(s, x, r.scCmd.value);
    Takes(s, EhStarts(r.scCmd.value));
    ShrinksStore(s, x, EhBegin(r));
    ReqAt(s, x);
    EhGivesUp(r, Incoming(s, x), Token(s, x), e);
    EhAbortGoes(s1, x, e);
    ThenImproves(s, s1, EhAborts(x, e), x);
    s' := Apply(s1, EhAborts(x, e));
  }

  lemma {:induction false} EhAbortGoes(s: State, x: nat, e: Env)
    requires Tight(e) && Inv(s) && x < NUM_TASKS && s.reqs[x].eh > 0
    ensures LetsGo(s, EhAborts(x, e), x) && Apply(s, EhAborts(x, e)).reqs[x] == EhAbort(s.reqs[x], Token(s, x), e).req
  {
    ReqAt(s, x);
    ShrinksStore(s, x, EhAbort(s.reqs[x], Token(s, x), e).req);
  }

  lemma {:induction false} BothLetGo(s: State, t: Step, s': State, y: nat, r': IoReq)
    requires WellFormed(s) && y < NUM_TASKS && Enabled(s, t) && !Hazard(s, t) && !Leak(s, t) && s' == Apply(s, t)
    requires EndsAs(s, s', y, r') && r'.refs < s.reqs[y].refs
    ensures LetsGo(s, t, y) && forall x :: Target(s.reqs[y]) == Some(x) ==> x < NUM_TASKS && LetsGo(s, t, x)
  {}

  /** The suspended flush of an ELS request goes on: both that and its target lose references. */
  lemma {:induction false} FlushElsGoes(s: State, y: nat, e: Env)
    requires Tight(e) && Inv(s) && y < NUM_TASKS && s.reqs[y].flushWait.FlushEls?
    ensures LetsGo(s, FlushResumes(y, e), y)
    ensures forall x :: Target(s.reqs[y]) == Some(x) ==> x < NUM_TASKS && LetsGo(s, FlushResumes(y, e), x)
  {
    var r' := FlushElsResumed(s, y, e).reqs[y];
    FlushResumeEnds(s, y, e);
    FlushedLess(s, y, e);
    BothLetGo(s, FlushResumes(y, e), FlushElsResumed(s, y, e), y, r');
  }

  lemma {:induction false} FlushedLess(s: State, y: nat, e: Env)
    requires Tight(e) && Inv(s) && y < NUM_TASKS && s.reqs[y].flushWait.FlushEls?
    ensures ElsFlushDrop(WithEvent(Quiesce(CleanupEnd(s.reqs[y], false, e).req), EvElsFlush)).refs < s.reqs[y].refs
  {
    ReqAt(s, y);
    ElsReqOk(s, y);
    FlushedEls(s.reqs[y], e);
  }

  lemma {:induction false} ElsTmoGoes(s: State, y: nat, e: Env)
    requires Tight(e) && Inv(s) && y < NUM_TASKS && ElsTmoWait in s.reqs[y].marks && IsRrq(s.reqs[y])
    ensures LetsGo(s, ElsTmoResumes(y, e), y)
    ensures forall x :: Target(s.reqs[y]) == Some(x) ==> x < NUM_TASKS && LetsGo(s, ElsTmoResumes(y, e), x)
  {
    var r' := ElsTmoResumed(s, y, e).reqs[y];
    TmoResumeEnds(s, y, e);
    TimedOutLess(s, y, e);
    BothLetGo(s, ElsTmoResumes(y, e), ElsTmoResumed(s, y, e), y, r');
  }

  lemma {:induction false} TimedOutLess(s: State, y: nat, e: Env)
    requires Tight(e) && Inv(s) && y < NUM_TASKS && ElsTmoWait in s.reqs[y].marks && IsRrq(s.reqs[y])
    ensures ElsTmoDrop(WithEvent(CleanupEnd(s.reqs[y], false, e).req, EvElsTmo)).refs < s.reqs[y].refs
  {
    ReqAt(s, y);
    ElsReqOk(s, y);
    ResumedRrq(s.reqs[y], e);
  }

  /** An ELS request that waits can be released. */
  lemma {:induction false} ElsGoes(s: State, y: nat, e: Env) returns (s': State)
    requires Tight(e) && Fit(s) && y < NUM_TASKS && ElsWaiting(s.reqs[y])
    ensures Better(s, s', y)
  {
    var r := s.reqs[y];
    assert Clean(r) && Timed(r);
    if r.flushWait.FlushEls? {
      FlushElsGoes(s, y, e);
      Improves(s, FlushResumes(y, e), y);
      s' := Apply(s, FlushResumes(y, e));
    } else if ElsTmoWait in r.marks {
      ElsTmoGoes(s, y, e);
      Improves(s, ElsTmoResumes(y, e), y);
      s' := Apply(s, ElsTmoResumes(y, e));
    } else if TimeoutWork in r.pending {
      s' := TimedElsGoes(s, y, e);
    } else {
      CompletionGoes(s, y, e);
      Improves(s, GoodCqe(y, e), y);
      s' := Apply(s, GoodCqe(y, e));
    }
  }

  lemma {:induction false} TimedElsGoes(s: State, y: nat, e: Env) returns (s': State)
    requires Tight(e) && Fit(s) && y < NUM_TASKS && s.reqs[y].alloc && s.reqs[y].cmdType.Els?
    requires TimeoutWork in s.reqs[y].pending
    ensures Better(s, s', y)
  {
    var s1 := Apply(s, TimerFires(y, e));
    ElsReqOk(s, y);
    TimerEnds(s, y, e);
    TimedOutAs(s.reqs[y], e);
    if IsRrq(s.reqs[y]) {
      Improves(s, TimerFires(y, e), y);
      s' := s1;
    } else {
      Takes(s, TimerFires(y, e));
      CompletionGoes(s1, y, e);
      ThenImproves(s, s1, GoodCqe(y, e), y);
      s' := Apply(s1, GoodCqe(y, e));
    }
  }

  /** An ELS request lets go of the request it was sent for. */
  lemma {:induction false} TargetGoes(s: State, y: nat, x: nat, e: Env) returns (t: Step)
    requires Tight(e) && Fit(s) && y < NUM_TASKS && x < NUM_TASKS && Target(s.reqs[y]) == Some(x)
    ensures LetsGo(s, t, x)
  {
    var r := s.reqs[y];
    assert Clean(r) && Timed(r);
    if r.flushWait.FlushEls? {
      t := FlushResumes(y, e);
      FlushElsGoes(s, y, e);
    } else if ElsTmoWait in r.marks {
      t := ElsTmoResumes(y, e);
      ElsTmoGoes(s, y, e);
    } else {
      t := TimerFires(y, e);
      TimerLetsGo(s, y, x, e);
    }
  }

  lemma {:induction false} TimerLetsGo(s: State, y: nat, x: nat, e: Env)
    requires Tight(e) && Inv(s) && y < NUM_TASKS && s.reqs[y].alloc && s.reqs[y].cmdType.Els?
    requires TimeoutWork in s.reqs[y].pending && Target(s.reqs[y]) == Some(x) && x < NUM_TASKS
    ensures LetsGo(s, TimerFires(y, e), x)
  {
    TimerEnds(s, y, e);
  }

  lemma {:induction false} Referrer(s: State, x: nat) returns (y: nat)
    requires Inv(s) && Incoming(s, x) > 0
    ensures y < NUM_TASKS && Target(s.reqs[y]) == Some(x)
  {
    CountZero(s.reqs, Refers(x));
    y :| 0 <= y < |s.reqs| && Refers(x)(s.reqs[y]);
  }

  /** Nothing but a pending RRQ holds the request. */
  lemma {:induction false} OnlyRrq(r: IoReq)
    requires ReqOk(r, 0) && Clean(r) && r.alloc && !ElsWaiting(r) && r.scCmd.None? && r.flushWait.NoFlush? && r.eh == 0
    requires AbtsTmoWait !in r.marks && InAbort !in r.flags
    ensures RrqWork in r.pending && r.refs == 1
  {}

  lemma {:induction false} Progress(s: State, x: nat, e: Env) returns (s': State)
    requires Tight(e) && Fit(s) && x < NUM_TASKS && s.reqs[x].alloc
    ensures Better(s, s', x)
  {
    var r := s.reqs[x];
    ReqAt(s, x);
    if Incoming(s, x) > 0 {
      var y := Referrer(s, x);
      var t := TargetGoes(s, y, x, e);
      Improves(s, t, x);
      s' := Apply(s, t);
    } else if ElsWaiting(r) {
      s' := ElsGoes(s, x, e);
    } else if r.scCmd.Some? {
      s' := CommandGoes(s, x, e);
    } else {
      s' := HolderGoes(s, x, e);
    }
  }

  lemma {:induction false} HolderGoes(s: State, x: nat, e: Env) returns (s': State)
    requires Tight(e) && Fit(s) && x < NUM_TASKS && s.reqs[x].alloc
    requires Incoming(s, x) == 0 && !ElsWaiting(s.reqs[x]) && s.reqs[x].scCmd.None?
    ensures Better(s, s', x)
  {
    var r := s.reqs[x];
    ReqAt(s, x);
    assert Clean(r);
    var t: Step;
    if !r.flushWait.NoFlush? {
      t := FlushResumes(x, e);
      FlushGoes(s, x, e);
    } else if AbtsTmoWait in r.marks {
      t := AbtsTmoResumes(x, e);
      AbtsTmoGoes(s, x, e);
    } else if InAbort in r.flags {
      t := AbtsCqe(x, BaRjt, e);
      AbtsGoes(s, x, e);
    } else if r.eh > 0 {
      t := EhLeaves(x);
      EhGoes(s, x);
    } else {
      t := RrqRuns(x, e);
      OnlyRrq(r);
      RrqGoes(s, x, e);
    }
    Improves(s, t, x);
    s' := Apply(s, t);
  }

  lemma {:induction false} Releases(s: State, x: nat, e: Env) returns (s': State)
    requires Tight(e) && Fit(s) && x < NUM_TASKS
    ensures Leads(s, s') && Fit(s') && Shrinks(s, s') && !s'.reqs[x].alloc
    decreases s.reqs[x].refs
  {
    if s.reqs[x].alloc {
      ReqAt(s, x);
      var s1 := Progress(s, x, e);
      s' := Releases(s1, x, e);
      LeadsOn(s, s1, s');
      ShrinksOn(s, s1, s');
    } else {
      LeadsNowhere(s);
      s' := s;
    }
  }

  /** The requests below `n` can all be released. */
  lemma {:induction false} ReleasesAll(s: State, n: nat, e: Env) returns (s': State)
    requires Tight(e) && Fit(s) && n <= NUM_TASKS
    ensures Leads(s, s') && Fit(s') && FreeBelow(s', n)
  {
    if n == 0 {
      LeadsNowhere(s);
      s' := s;
    } else {
      var s1 := ReleasesAll(s, n - 1, e);
      s' := Releases(s1, n - 1, e);
      LeadsOn(s, s1, s');
      StayFree(s1, s', n - 1);
    }
  }

  ghost predicate FreeBelow(s: State, n: nat) { n <= |s.reqs| && forall i :: 0 <= i < n ==> !s.reqs[i].alloc }

  lemma {:induction false} StayFree(s: State, s': State, n: nat)
    requires FreeBelow(s, n) && n < |s.reqs| && Shrinks(s, s') && !s'.reqs[n].alloc
    ensures FreeBelow(s', n + 1)
  {}

  // ---- Main results

  /** A run without hazards leads on to a completely free pool. */
  ghost predicate Emptiable(s: State)
    requires WellFormed(s)
  {
    exists us :: Admissible(s, us) && HazardFree(s, us) && After(s, us).freeCnt == NUM_TASKS
  }

  lemma {:induction false} FitIsEmptiable(s: State)
    requires Fit(s)
    ensures Emptiable(s)
  {
    var e := Env(true, false, false, false, GoodPtr, false, false, false, false, false, OtherReply,
                 false, false, false, false);
    var s' := ReleasesAll(s, NUM_TASKS, e);
    AllFree(s');
    var us :| Admissible(s, us) && HazardFree(s, us) && LeakFree(s, us) && After(s, us) == s';
  }

  lemma {:induction false} LostIsNot(s: State, x: nat)
    requires Inv(s) && x < NUM_TASKS && !Clean(s.reqs[x])
    ensures !Emptiable(s)
  {
    forall us | Admissible(s, us) && HazardFree(s, us) ensures After(s, us).freeCnt != NUM_TASKS {
      LostForever(s, us, x);
      RunInvFrom(s, us);
      NotAllFree(After(s, us), x);
    }
  }

  lemma {:induction false} NotAllFree(s: State, x: nat)
    requires Inv(s) && x < NUM_TASKS && s.reqs[x].alloc
    ensures s.freeCnt < NUM_TASKS
  {
    var r := s.reqs[x].(alloc := false);
    CountUpdate(s.reqs, IsFree(), x, r);
  }

  /** After a run without hazards the pool can be emptied again if and only if no step was a leak. */
  lemma {:induction false} EmptiableIff(ports: nat, ts: seq<Step>)
    requires Admissible(Initial(ports), ts) && HazardFree(Initial(ports), ts)
    ensures Emptiable(After(Initial(ports), ts)) <==> LeakFree(Initial(ports), ts)
  {
    var s0 := Initial(ports);
    InitialInv(ports);
    InitialClean(ports);
    RunInv(ports, ts);
    if LeakFree(s0, ts) {
      CleanRun(s0, ts);
      TimedRun(s0, ts);
      FitIsEmptiable(After(s0, ts));
    } else {
      var x := LeakRun(s0, ts);
      LostIsNot(After(s0, ts), x);
    }
  }
}
