/** The first hazard is real: a run from power-on that drives a reference count to -1. `event` survives
    the release of a request, so an RRQ that timed out leaves its mark for the next RRQ that is sent on
    the same request. */
module StaleEvent {
  import opened Requests
  import opened Exchange
  import opened Holders
  import opened ExchangeTheorems

  /** Everything works. */
  const FINE := Env(true, true, true, false, GoodPtr, true, true, true, true, false, OtherReply,
                    false, false, false, false)

  const NO_ROOM := FINE.(room := false)
  const NO_BUFFERS := FINE.(mpOk := false)

  /** Not held by any suspended handler, and `work` is pending. */
  ghost predicate Plain(r: IoReq, work: set<Work>) {
    r.pending == work && r.marks <= {AbtsOut} && r.flushWait.NoFlush? && r.eh == 0 && r.abandoned == 0
  }

  ghost predicate Idle(r: IoReq) { !r.alloc && r.refs == 0 && r.fcport.None? && Plain(r, {}) }

  ghost predicate InUse(r: IoReq, refs: int, t: CmdType, c: Option<nat>, work: set<Work>) {
    r.alloc && r.refs == refs && r.fcport == Some(0) && r.cmdType == t && r.scCmd == c && Plain(r, work)
  }

  /** The cursor stands at `idx`, `used` requests are in use and those from 2 on are not. */
  ghost predicate Pool(s: State, idx: nat, used: nat) {
    && WellFormed(s) && s.idx == idx && s.active == [used] && s.freeCnt == NUM_TASKS - used
    && forall i :: 2 <= i < NUM_TASKS ==> !s.reqs[i].alloc
  }

  // ---- A command is aborted on request 0, and its RRQ goes out on request 1

  lemma {:induction false} Queued(s: State) returns (s': State)
    requires Pool(s, 0, 0) && Idle(s.reqs[0]) && Idle(s.reqs[1]) && s.scp == map[]
    ensures Enabled(s, Queue(0, 0, FINE)) && s' == Apply(s, Queue(0, 0, FINE))
    ensures Pool(s', 1, 1) && s'.scp == map[0 := 0] && s'.reqs[1] == s.reqs[1]
    ensures InUse(s'.reqs[0], 1, ScsiCmd, Some(0), {}) && s'.reqs[0].flags == {Outstanding}
  {
    s' := Apply(s, Queue(0, 0, FINE));
    assert FreeSlot(s, 0, FINE) == Some(0);
  }

  lemma {:induction false} Failed(s: State) returns (s': State)
    requires Pool(s, 1, 1) && InUse(s.reqs[0], 1, ScsiCmd, Some(0), {}) && s.reqs[0].flags == {Outstanding}
    ensures Enabled(s, ErrorCqe(0, FINE)) && s' == Apply(s, ErrorCqe(0, FINE))
    ensures Pool(s', 1, 1) && s'.scp == s.scp && s'.reqs[1] == s.reqs[1]
    ensures InUse(s'.reqs[0], 2, Abts, Some(0), {TimeoutWork}) && s'.reqs[0].flags == {Outstanding, InAbort}
    ensures s'.reqs[0].returnOnAbts && AbtsOut in s'.reqs[0].marks
  {
    s' := Apply(s, ErrorCqe(0, FINE));
  }

  lemma {:induction false} Accepted(s: State) returns (s': State)
    requires Pool(s, 1, 1) && s.scp == map[0 := 0] && InUse(s.reqs[0], 2, Abts, Some(0), {TimeoutWork})
    requires s.reqs[0].flags == {Outstanding, InAbort} && s.reqs[0].returnOnAbts && AbtsOut in s.reqs[0].marks
    ensures Enabled(s, AbtsCqe(0, BaAcc, FINE)) && s' == Apply(s, AbtsCqe(0, BaAcc, FINE))
    ensures Pool(s', 1, 1) && s'.scp == map[] && s'.reqs[1] == s.reqs[1] && InUse(s'.reqs[0], 1, Abts, None, {RrqWork})
  {
    s' := Apply(s, AbtsCqe(0, BaAcc, FINE));
    assert s'.reqs[0].pending == {RrqWork};
  }

  lemma {:induction false} RrqSent(s: State) returns (s': State)
    requires Pool(s, 1, 1) && Idle(s.reqs[1]) && InUse(s.reqs[0], 1, Abts, None, {RrqWork})
    ensures Enabled(s, RrqRuns(0, FINE)) && s' == Apply(s, RrqRuns(0, FINE))
    ensures Pool(s', 2, 2) && s'.scp == s.scp && InUse(s'.reqs[0], 1, Abts, None, {})
    ensures InUse(s'.reqs[1], 1, Els, None, {TimeoutWork}) && s'.reqs[1].cb == Some(CbArg(Rrq, Some(0)))
    ensures s'.reqs[1].event == s.reqs[1].event
  {
    s' := Apply(s, RrqRuns(0, FINE));
    var s0 := Store(s, 0, RrqBegin(s.reqs[0]));
    assert FreeSlot(s0, 0, FINE) == Some(1);
    assert s'.reqs[0].pending == {};
  }

  /** The RRQ is on its way; request 1 has kept its event. */
  ghost predicate RrqOut(s: State, ev: Event) {
    && Pool(s, 2, 2) && s.scp == map[]
    && InUse(s.reqs[0], 1, Abts, None, {}) && InUse(s.reqs[1], 1, Els, None, {TimeoutWork})
    && s.reqs[1].cb == Some(CbArg(Rrq, Some(0))) && s.reqs[1].event == ev
  }

  lemma {:induction false} AbortRound(s0: State, s: State) returns (s': State)
    requires WellFormed(s0) && Reaches(s0, s) && Pool(s, 0, 0) && Idle(s.reqs[0]) && Idle(s.reqs[1]) && s.scp == map[]
    ensures Reaches(s0, s') && RrqOut(s', s.reqs[1].event)
  {
    var s1 := Queued(s);
    ReachesNext(s0, s, Queue(0, 0, FINE));
    var s2 := Failed(s1);
    ReachesNext(s0, s1, ErrorCqe(0, FINE));
    var s3 := Accepted(s2);
    ReachesNext(s0, s2, AbtsCqe(0, BaAcc, FINE));
    s' := RrqSent(s3);
    ReachesNext(s0, s3, RrqRuns(0, FINE));
  }

  // ---- The RRQ times out while the send queue is full

  /** The RRQ as its timeout handler passes it to the callback. */
  function TimedRrq(r: IoReq, e: Env): (r': IoReq) { WithEvent(CleanupBegin(Quiesce(Get(r)), true, e), EvElsTmo) }

  lemma {:induction false} RrqTimed(r: IoReq, e: Env)
    requires InUse(r, 1, Els, None, {TimeoutWork}) && r.cb == Some(CbArg(Rrq, Some(0))) && !e.room
    ensures var r' := TimedRrq(r, e);
            !CleanupWaits(Quiesce(Get(r)), e) && InUse(r', 2, Els, None, {}) && r'.cb == r.cb && r'.event == EvElsTmo
            && r'.life == r.life
  {
    assert Quiesce(Get(r)).pending == {};
  }

  /** The callback releases the aborted request. */
  lemma {:induction false} RrqReturns(s: State, r: IoReq, e: Env) returns (s': State)
    requires RrqOut(s, EvNone) && InUse(r, 2, Els, None, {}) && r.cb == s.reqs[1].cb && r.life == s.reqs[1].life
    ensures s' == RunCallback(s, 1, r, e) && Pool(s', 2, 1) && Idle(s'.reqs[0]) && s'.reqs[1] == r && s'.scp == map[]
  {
    s' := RunCallback(s, 1, r, e);
  }

  lemma {:induction false} RrqEnds(s: State) returns (s': State)
    requires Pool(s, 2, 1) && InUse(s.reqs[1], 2, Els, None, {}) && s.reqs[1].event == EvElsTmo && IsRrq(s.reqs[1])
    ensures s' == Settle(s, 1, ElsTmoDrop(s.reqs[1])) && Pool(s', 2, 0) && Idle(s'.reqs[1])
    ensures s'.reqs[0] == s.reqs[0] && s'.reqs[1].event == EvElsTmo && s'.scp == s.scp
  {
    s' := Settle(s, 1, ElsTmoDrop(s.reqs[1]));
  }

  lemma {:induction false} RrqTimesOut(s: State, e: Env) returns (s': State)
    requires RrqOut(s, EvNone) && !e.room
    ensures Enabled(s, TimerFires(1, e)) && s' == Apply(s, TimerFires(1, e))
    ensures Pool(s', 2, 0) && Idle(s'.reqs[0]) && Idle(s'.reqs[1]) && s'.reqs[1].event == EvElsTmo && s'.scp == map[]
  {
    var r := TimedRrq(s.reqs[1], e);
    RrqTimed(s.reqs[1], e);
    var s1 := RrqReturns(s.(running := Some(1)), r, e);
    s' := RrqEnds(s1);
  }

  // ---- Failed ADISCs move the cursor once around

  lemma {:induction false} CursorMoves(s: State) returns (s': State)
    requires s.idx >= 2 && Pool(s, s.idx, 0)
    ensures Enabled(s, SendAdisc(0, NO_BUFFERS)) && s' == Apply(s, SendAdisc(0, NO_BUFFERS))
    ensures Pool(s', if s.idx + 1 == NUM_TASKS then 0 else s.idx + 1, 0)
    ensures s'.reqs[0] == s.reqs[0] && s'.reqs[1] == s.reqs[1] && s'.scp == s.scp
  {
    s' := Apply(s, SendAdisc(0, NO_BUFFERS));
    assert FreeSlot(s, 0, NO_BUFFERS) == Some(s.idx);
  }

  lemma {:induction false} CursorWraps(s0: State, s: State) returns (s': State)
    requires WellFormed(s0) && Reaches(s0, s) && s.idx >= 2 && Pool(s, s.idx, 0)
    ensures Reaches(s0, s') && Pool(s', 0, 0)
    ensures s'.reqs[0] == s.reqs[0] && s'.reqs[1] == s.reqs[1] && s'.scp == s.scp
    decreases NUM_TASKS - s.idx
  {
    var s1 := CursorMoves(s);
    ReachesNext(s0, s, SendAdisc(0, NO_BUFFERS));
    if s1.idx == 0 { s' := s1; } else { s' := CursorWraps(s0, s1); }
  }

  // ---- The second RRQ completes normally

  lemma {:induction false} SecondRrqCompletes(s: State) returns (s': State)
    requires RrqOut(s, EvElsTmo)
    ensures Enabled(s, GoodCqe(1, FINE)) && s' == Apply(s, GoodCqe(1, FINE)) && s'.reqs[1].refs == -1
  {
    s' := Apply(s, GoodCqe(1, FINE));
  }

  /** One port and one command are enough. */
  lemma {:induction false} CountDropsBelowZero()
    ensures exists ts :: Admissible(Initial(1), ts) && After(Initial(1), ts).reqs[1].refs == -1
  {
    var s0 := Initial(1);
    assert Admissible(s0, []) && After(s0, []) == s0;
    var s1 := AbortRound(s0, s0);
    var s2 := RrqTimesOut(s1, NO_ROOM);
    ReachesNext(s0, s1, TimerFires(1, NO_ROOM));
    var s3 := CursorWraps(s0, s2);
    var s4 := AbortRound(s0, s3);
    var s5 := SecondRrqCompletes(s4);
    ReachesNext(s0, s4, GoodCqe(1, FINE));
    var ts :| Admissible(s0, ts) && After(s0, ts) == s5;
  }
}
