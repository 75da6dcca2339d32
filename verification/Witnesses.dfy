/** Runs from power-on, with one port and one command, that reach the cases the theorems single out: the
    second and the third hazard, each of the four leaks, an aborted command that completes normally, a command
    that completes after its SRR, and an abort whose RRQ comes after a flush. */
module Witnesses {
  import opened Requests
  import opened Exchange
  import opened Holders
  import opened Counting
  import opened ExchangeInvariant
  import opened StepInvariant
  import opened ExchangeTheorems
  import opened Leaks
  import opened Drain
  import opened Withdrawal
  import Decisions
  import Recovery
  import RrqFlush

  /** Everything works, and the peer answers a REC with "command lost". */
  predicate Fine(e: Env) {
    && e.ready && e.canAbort && e.room && !e.flushing && e.ptr.GoodPtr? && e.elsReady && e.memory && e.mpOk && e.postOk
    && !e.timedOut && e.reply.CommandLost?
  }

  lemma {:induction false} FineOne() returns (e: Env)
    ensures Fine(e)
  {
    e := Env(true, true, true, false, GoodPtr, true, true, true, true, false, CommandLost, false, false, false, false);
  }

  /** The marks of a request that is, or is not, in abort. */
  function AbortMarks(flags: set<Flag>): (marks: set<Mark>) { if InAbort in flags then {AbtsOut} else {} }

  /** The first life of a request on port 0 that no handler is suspended on. */
  ghost predicate Used(r: IoReq, refs: int, t: CmdType, c: Option<nat>, flags: set<Flag>, work: set<Work>, eh: nat) {
    && r.alloc && r.refs == refs && r.fcport == Some(0) && r.cmdType == t && r.scCmd == c && r.flags == flags
    && r.pending == work && r.eh == eh && r.life == 0 && r.marks == AbortMarks(flags) && r.flushWait.NoFlush?
    && r.abandoned == 0
  }

  /** `used` requests are in use, and those from `n` on have never been. */
  ghost predicate Pool(s: State, n: nat, used: nat) {
    && WellFormed(s) && s.idx == n && s.active == [used] && s.freeCnt == NUM_TASKS - used
    && forall i :: n <= i < NUM_TASKS ==> s.reqs[i] == FREE_REQ
  }

  // ---- Single steps

  lemma {:induction false} Queued(s: State, e: Env) returns (s': State)
    requires Fine(e) && s == Initial(1)
    ensures Enabled(s, Queue(0, 0, e)) && s' == Apply(s, Queue(0, 0, e))
    ensures Pool(s', 1, 1) && s'.scp == map[0 := 0] && s'.log == [LogEntry.Accepted(0)]
    ensures Used(s'.reqs[0], 1, ScsiCmd, Some(0), {Outstanding}, {}, 0)
  {
    s' := Apply(s, Queue(0, 0, e));
    assert FreeSlot(s, 0, e) == Some(0);
  }

  lemma {:induction false} Failed(s: State, e: Env, cmd: Option<nat>, work: set<Work>) returns (s': State)
    requires Fine(e) && WellFormed(s) && TimeoutWork !in work
    requires exists t :: Used(s.reqs[0], 1, t, cmd, {Outstanding}, work, 0) && !t.Els?
    ensures Enabled(s, ErrorCqe(0, e)) && s' == Apply(s, ErrorCqe(0, e))
    ensures s' == s.(reqs := s'.reqs) && s'.reqs == s.reqs[0 := s'.reqs[0]]
    ensures Used(s'.reqs[0], 2, Abts, cmd, {Outstanding, InAbort}, work + {TimeoutWork}, 0) && s'.reqs[0].returnOnAbts
  {
    s' := Apply(s, ErrorCqe(0, e));
  }

  /** The timeout of the ABTS sleeps in its cleanup. */
  ghost predicate Asleep(r: IoReq) {
    && r.alloc && r.refs == 2 && r.fcport == Some(0) && r.cmdType.Cleanup? && r.scCmd == Some(0) && r.returnOnAbts
    && r.flags == {Outstanding, InAbort, InCleanup} && {AbtsTmoWait, AbtsOut} <= r.marks && r.flushWait.NoFlush?
  }

  lemma {:induction false} TimedOut(s: State, e: Env) returns (s': State)
    requires Fine(e) && WellFormed(s) && Used(s.reqs[0], 2, Abts, Some(0), {Outstanding, InAbort}, {TimeoutWork}, 0)
    ensures Enabled(s, TimerFires(0, e)) && s' == Apply(s, TimerFires(0, e)) && s'.scp == s.scp && WellFormed(s')
    ensures Asleep(s'.reqs[0])
  {
    s' := Apply(s, TimerFires(0, e));
  }

  lemma {:induction false} RecSent(s: State, e: Env) returns (s': State)
    requires Fine(e) && Pool(s, 1, 1) && Used(s.reqs[0], 1, ScsiCmd, Some(0), {Outstanding}, {}, 0)
    ensures Enabled(s, WarningCqe(0, true, e)) && s' == Apply(s, WarningCqe(0, true, e))
    ensures Pool(s', 2, 2) && s'.scp == s.scp && s'.log == s.log
    ensures Used(s'.reqs[0], 2, ScsiCmd, Some(0), {Outstanding}, {}, 0)
    ensures Used(s'.reqs[1], 1, Els, None, {Outstanding}, {TimeoutWork}, 0)
    ensures s'.reqs[1].cb == Some(CbArg(Rec, Some(0))) && s'.reqs[1].event == EvNone
  {
    s' := Apply(s, WarningCqe(0, true, e));
    var s0 := Store(s, 0, Get(s.reqs[0]));
    assert FreeSlot(s0, 0, e) == Some(1);
  }

  /** The answer to the REC moves the command from request 0 to request 2. */
  ghost predicate Asked(s: State) {
    && Pool(s, 2, 2) && s.scp == map[0 := 0] && Used(s.reqs[1], 1, Els, None, {Outstanding}, {TimeoutWork}, 0)
    && s.reqs[1].cb == Some(CbArg(Rec, Some(0))) && s.reqs[1].event == EvNone
  }

  ghost predicate Moved(s: State) {
    && Pool(s, 3, 2) && s.scp == map[0 := 2] && !s.reqs[1].alloc
    && Used(s.reqs[2], 1, ScsiCmd, Some(0), {Outstanding}, {}, 0)
  }

  lemma {:induction false} Requeues(s: State, e: Env, t: CmdType, flags: set<Flag>, refs: int, work: set<Work>, eh: nat)
    returns (s': State)
    requires Fine(e) && Pool(s, 2, 2) && s.scp == map[0 := 0] && refs > 1
    requires Used(s.reqs[0], refs, t, Some(0), flags, work, eh) && Outstanding in flags && InCleanup !in flags
    requires InAbort in flags || (t.ScsiCmd? && flags == {Outstanding} && work == {})
    ensures s' == Requeue(s, 0, e) && Pool(s', 3, 3) && s'.scp == map[0 := 2] && s'.log == s.log
    ensures s'.reqs[1] == s.reqs[1] && Used(s'.reqs[2], 1, ScsiCmd, Some(0), {Outstanding}, {}, 0)
    ensures if InAbort in flags then Used(s'.reqs[0], refs - 1, t, None, flags, work, eh)
            else Used(s'.reqs[0], refs, Abts, None, {Outstanding, InAbort}, {TimeoutWork}, eh)
  {
    s' := Requeue(s, 0, e);
    assert FreeSlot(s, 0, e) == Some(2);
  }

  /** The completion of the REC before and after its callback. */
  lemma {:induction false} Ready(s: State) returns (s': State)
    requires Asked(s)
    ensures var s1 := Store(s, 1, Quiesce(s.reqs[1])); s' == Store(s1, 0, StopTimer(s.reqs[0]))
    ensures Pool(s', 2, 2) && s'.scp == s.scp && s'.log == s.log && s'.reqs[0] == StopTimer(s.reqs[0])
    ensures s'.reqs[1] == Quiesce(s.reqs[1])
  {
    s' := Store(Store(s, 1, Quiesce(s.reqs[1])), 0, StopTimer(s.reqs[0]));
  }

  lemma {:induction false} Done(s: State) returns (s': State)
    requires Pool(s, 3, 3) && s.scp == map[0 := 2] && Used(s.reqs[2], 1, ScsiCmd, Some(0), {Outstanding}, {}, 0)
    requires s.reqs[0].refs > 1
    requires s.reqs[1].alloc && s.reqs[1].refs == 1 && s.reqs[1].fcport == Some(0) && s.reqs[1].event == EvNone
    ensures s' == Settle(Store(s, 0, Put(s.reqs[0])), 1, ElsDrop(s.reqs[1]))
    ensures Moved(s') && s'.log == s.log && s'.reqs[0] == Put(s.reqs[0])
  {
    s' := Settle(Store(s, 0, Put(s.reqs[0])), 1, ElsDrop(s.reqs[1]));
  }

  lemma {:induction false} Answered(s: State, e: Env, t: CmdType, flags: set<Flag>, refs: int, work: set<Work>, eh: nat)
    returns (s': State)
    requires Fine(e) && Asked(s) && Used(s.reqs[0], refs, t, Some(0), flags, work, eh)
    requires Outstanding in flags && InCleanup !in flags
    requires if InAbort in flags then refs > 2 else refs > 1 && t.ScsiCmd? && flags == {Outstanding} && work == {}
    ensures Enabled(s, GoodCqe(1, e)) && s' == Apply(s, GoodCqe(1, e)) && Moved(s') && s'.log == s.log
    ensures if InAbort in flags then Used(s'.reqs[0], refs - 2, t, None, flags, work - {TimeoutWork}, eh)
            else Used(s'.reqs[0], refs - 1, Abts, None, {Outstanding, InAbort}, {TimeoutWork}, eh)
  {
    var s1 := Ready(s);
    var s2 := Requeues(s1, e, t, flags, refs, work - {TimeoutWork}, eh);
    s' := Done(s2);
    AnsweredAs(s, e, s2);
  }

  lemma {:induction false} AnsweredAs(s: State, e: Env, s2: State)
    requires Fine(e) && Asked(s) && WellFormed(s2) && s2.reqs[1] == Quiesce(s.reqs[1])
    requires s2 == Requeue(Store(Store(s, 1, Quiesce(s.reqs[1])), 0, StopTimer(s.reqs[0])), 0, e)
    ensures Apply(s, GoodCqe(1, e)) == Settle(Store(s2, 0, Put(s2.reqs[0])), 1, ElsDrop(s2.reqs[1]))
  {
    var s0 := Store(s, 1, Quiesce(s.reqs[1]));
    assert s0.reqs[0] == s.reqs[0];
    assert RecAnswered(s0, 0, e) == s2;
  }

  /** An accepted ABTS on a request without a command: the request stays outstanding and waits for its RRQ. */
  lemma {:induction false} AbtsAccepted(s: State, e: Env, refs: int, work: set<Work>, eh: nat) returns (s': State)
    requires Fine(e) && WellFormed(s) && refs > 0 && RrqWork !in work
    requires Used(s.reqs[0], refs, Abts, None, {Outstanding, InAbort}, work, eh)
    ensures Enabled(s, AbtsCqe(0, BaAcc, e)) && s' == Apply(s, AbtsCqe(0, BaAcc, e))
    ensures s' == s.(reqs := s'.reqs) && s'.reqs == s.reqs[0 := s'.reqs[0]] && s'.reqs[0].event == EvAbortSuccess
    ensures Used(s'.reqs[0], refs, Abts, None, {Outstanding}, {RrqWork}, eh)
  {
    s' := Apply(s, AbtsCqe(0, BaAcc, e));
    assert work - {TimeoutWork} + {RrqWork} == {RrqWork} by {
      forall w | w in work - {TimeoutWork} ensures false { match w case TimeoutWork => case RrqWork => }
    }
  }

  /** The same on a request whose command the abort returns. */
  lemma {:induction false} AbtsReturns(s: State, e: Env) returns (s': State)
    requires Fine(e) && WellFormed(s) && s.scp == map[0 := 0] && s.reqs[0].returnOnAbts
    requires Used(s.reqs[0], 2, Abts, Some(0), {Outstanding, InAbort}, {TimeoutWork}, 0)
    ensures Enabled(s, AbtsCqe(0, BaAcc, e)) && s' == Apply(s, AbtsCqe(0, BaAcc, e))
    ensures WellFormed(s') && Used(s'.reqs[0], 1, Abts, None, {ErrScsiDone}, {RrqWork}, 0)
  {
    s' := Apply(s, AbtsCqe(0, BaAcc, e));
    assert s'.reqs[0].pending == {RrqWork} && s'.reqs[0].flags == {ErrScsiDone};
  }

  lemma {:induction false} AdiscSent(s: State, e: Env) returns (s': State)
    requires Fine(e) && s == Initial(1)
    ensures Enabled(s, SendAdisc(0, e)) && s' == Apply(s, SendAdisc(0, e)) && WellFormed(s')
    ensures Used(s'.reqs[0], 1, Els, None, {Outstanding}, {TimeoutWork}, 0) && !IsRrq(s'.reqs[0])
  {
    s' := Apply(s, SendAdisc(0, e));
    assert FreeSlot(s, 0, e) == Some(0);
  }

  /** The error handler takes the request and aborts it. */
  lemma {:induction false} EhComes(s: State) returns (s': State)
    requires Asked(s) && Used(s.reqs[0], 2, ScsiCmd, Some(0), {Outstanding}, {}, 0)
    ensures s' == Apply(s, EhStarts(0)) && s'.log == s.log && Asked(s')
    ensures Used(s'.reqs[0], 3, ScsiCmd, Some(0), {Outstanding}, {}, 1)
  {
    s' := Apply(s, EhStarts(0));
  }

  lemma {:induction false} EhAborting(s: State, e: Env) returns (s': State)
    requires Fine(e) && Asked(s) && Used(s.reqs[0], 3, ScsiCmd, Some(0), {Outstanding}, {}, 1)
    ensures Enabled(s, EhAborts(0, e)) && s' == Apply(s, EhAborts(0, e)) && s'.log == s.log && Asked(s')
    ensures Used(s'.reqs[0], 4, Abts, Some(0), {Outstanding, InAbort}, {TimeoutWork}, 1)
  {
    s' := Apply(s, EhAborts(0, e));
  }

  lemma {:induction false} CompletesOnTwo(s: State, e: Env) returns (s': State)
    requires Fine(e) && Moved(s)
    ensures Enabled(s, GoodCqe(2, e)) && s' == Apply(s, GoodCqe(2, e)) && s'.log == s.log + [Returned(0, 2, 0, true)]
  {
    s' := Apply(s, GoodCqe(2, e));
  }

  // ---- The second hazard

  lemma {:induction false} GoesOn(s0: State, s: State, t: Step)
    requires WellFormed(s0) && WellFormed(s) && Leads(s0, s) && Enabled(s, t) && !Hazard(s, t) && !Leak(s, t)
    ensures Leads(s0, Apply(s, t))
  {
    LeadsNext(s, t);
    LeadsOn(s0, s, Apply(s, t));
  }

  lemma {:induction false} LateAbtsEnds(s: State, e: Env)
    requires Fine(e) && WellFormed(s) && s.scp == map[0 := 0]
    requires Asleep(s.reqs[0])
    ensures Enabled(s, AbtsCqe(0, BaRjt, e)) && Hazard(s, AbtsCqe(0, BaRjt, e))
    ensures var r := Apply(s, AbtsCqe(0, BaRjt, e)).reqs[0];
            !r.alloc && r.refs == 0 && AbtsTmoWait in r.marks && r.scCmd.None?
  {}

  /** The ABTS of a command times out, its cleanup is sent, and the ABTS is answered after all: the request
      is released while the timeout handler sleeps on it, and the handler drops it once more. */
  lemma {:induction false} LateAbtsHappens() returns (s: State, e: Env)
    ensures Leads(Initial(1), s) && Enabled(s, AbtsCqe(0, BaRjt, e)) && Hazard(s, AbtsCqe(0, BaRjt, e))
    ensures var s1 := Apply(s, AbtsCqe(0, BaRjt, e));
            && !s1.reqs[0].alloc && Enabled(s1, AbtsTmoResumes(0, e))
            && Apply(s1, AbtsTmoResumes(0, e)).reqs[0].refs == -1
  {
    var s0 := Initial(1);
    e := FineOne();
    LeadsNowhere(s0);
    var s1 := Queued(s0, e);
    GoesOn(s0, s0, Queue(0, 0, e));
    var s2 := Failed(s1, e, Some(0), {});
    GoesOn(s0, s1, ErrorCqe(0, e));
    s := TimedOut(s2, e);
    GoesOn(s0, s2, TimerFires(0, e));
    LateAbtsEnds(s, e);
    ResumesOnFree(Apply(s, AbtsCqe(0, BaRjt, e)), e);
  }

  lemma {:induction false} ResumesOnFree(s: State, e: Env)
    requires WellFormed(s) && s.reqs[0].refs == 0 && s.reqs[0].scCmd.None? && AbtsTmoWait in s.reqs[0].marks
    ensures Enabled(s, AbtsTmoResumes(0, e)) && Apply(s, AbtsTmoResumes(0, e)).reqs[0].refs == -1
  {}

  // ---- The third hazard

  /** The timeout of the ABTS has given up, and the ABTS is still out. */
  ghost predicate GivenUp(r: IoReq) {
    && r.alloc && r.refs == 1 && r.fcport == Some(0) && r.cmdType.Abts? && r.scCmd == Some(0) && r.returnOnAbts
    && r.flags == {Outstanding} && r.pending == {} && r.marks == {AbtsOut} && r.flushWait.NoFlush?
  }

  lemma {:induction false} GivesUpAbort(s: State, e: Env) returns (s': State)
    requires e.ready && !e.room && WellFormed(s) && s.reqs[0].returnOnAbts
    requires Used(s.reqs[0], 2, Abts, Some(0), {Outstanding, InAbort}, {TimeoutWork}, 0)
    ensures Enabled(s, TimerFires(0, e)) && s' == Apply(s, TimerFires(0, e)) && s'.scp == s.scp && WellFormed(s')
    ensures GivenUp(s'.reqs[0])
  {
    s' := Apply(s, TimerFires(0, e));
    assert s'.reqs[0].flags == {Outstanding};
  }

  lemma {:induction false} GivenUpEnds(s: State, e: Env)
    requires Fine(e) && WellFormed(s) && s.scp == map[0 := 0] && GivenUp(s.reqs[0])
    ensures Enabled(s, AbtsCqe(0, BaAcc, e)) && Hazard(s, AbtsCqe(0, BaAcc, e))
    ensures var r := Apply(s, AbtsCqe(0, BaAcc, e)).reqs[0];
            !r.alloc && r.refs == 0 && r.fcport.None? && RrqWork in r.pending
  {}

  /** The ABTS of a command times out while the send queue is full, and is accepted after all: the request is
      released with its RRQ pending, so that qedf_send_rrq finds no port and drops the request once more. */
  lemma {:induction false} LateAcceptHappens() returns (s: State, e: Env)
    ensures Leads(Initial(1), s) && Enabled(s, AbtsCqe(0, BaAcc, e)) && Hazard(s, AbtsCqe(0, BaAcc, e))
    ensures var s1 := Apply(s, AbtsCqe(0, BaAcc, e));
            && !s1.reqs[0].alloc && Enabled(s1, RrqRuns(0, e)) && s1.reqs[0].fcport.None?
            && Apply(s1, RrqRuns(0, e)).reqs[0].refs == -1
  {
    var s0 := Initial(1);
    e := FineOne();
    LeadsNowhere(s0);
    var s1 := Queued(s0, e);
    GoesOn(s0, s0, Queue(0, 0, e));
    var s2 := Failed(s1, e, Some(0), {});
    GoesOn(s0, s1, ErrorCqe(0, e));
    var full := e.(room := false);
    s := GivesUpAbort(s2, full);
    GoesOn(s0, s2, TimerFires(0, full));
    GivenUpEnds(s, e);
    RrqOnFree(Apply(s, AbtsCqe(0, BaAcc, e)), e);
  }

  lemma {:induction false} RrqOnFree(s: State, e: Env)
    requires WellFormed(s) && s.reqs[0].refs == 0 && s.reqs[0].fcport.None? && RrqWork in s.reqs[0].pending
    ensures Enabled(s, RrqRuns(0, e)) && Apply(s, RrqRuns(0, e)).reqs[0].refs == -1
  {}

  // ---- The four leaks

  lemma {:induction false} RrqLeakHappens() returns (s: State, t: Step)
    ensures Leads(Initial(1), s) && Enabled(s, t) && !Hazard(s, t) && Leak(s, t) && t.RrqRuns?
  {
    var s0 := Initial(1);
    var e := FineOne();
    LeadsNowhere(s0);
    var s1 := Queued(s0, e);
    GoesOn(s0, s0, Queue(0, 0, e));
    var s2 := Failed(s1, e, Some(0), {});
    GoesOn(s0, s1, ErrorCqe(0, e));
    s := AbtsReturns(s2, e);
    GoesOn(s0, s2, AbtsCqe(0, BaAcc, e));
    t := RrqRuns(0, e.(ready := false));
  }

  lemma {:induction false} ElsTimeoutLeakHappens() returns (s: State, t: Step)
    ensures Leads(Initial(1), s) && Enabled(s, t) && !Hazard(s, t) && Leak(s, t) && t.TimerFires?
  {
    var s0 := Initial(1);
    var e := FineOne();
    LeadsNowhere(s0);
    s := AdiscSent(s0, e);
    GoesOn(s0, s0, SendAdisc(0, e));
    t := TimerFires(0, e);
  }

  lemma {:induction false} ElsAbortLeakHappens() returns (s: State, t: Step)
    ensures Leads(Initial(1), s) && Enabled(s, t) && !Hazard(s, t) && Leak(s, t) && t.ErrorCqe?
  {
    var s0 := Initial(1);
    var e := FineOne();
    LeadsNowhere(s0);
    s := AdiscSent(s0, e);
    GoesOn(s0, s0, SendAdisc(0, e));
    t := ErrorCqe(0, e);
  }

  /** A REC is on its way for the command of request 0. */
  lemma {:induction false} RecOut(e: Env) returns (s: State)
    requires Fine(e)
    ensures Leads(Initial(1), s) && Asked(s) && Used(s.reqs[0], 2, ScsiCmd, Some(0), {Outstanding}, {}, 0)
    ensures s.log == [LogEntry.Accepted(0)]
  {
    var s0 := Initial(1);
    LeadsNowhere(s0);
    var s1 := Queued(s0, e);
    GoesOn(s0, s0, Queue(0, 0, e));
    s := RecSent(s1, e);
    GoesOn(s0, s1, WarningCqe(0, true, e));
  }

  /** A requeued command leaves its first exchange outstanding; that is aborted twice. */
  lemma {:induction false} DoubleRrqLeakHappens() returns (s: State, t: Step)
    ensures Leads(Initial(1), s) && Enabled(s, t) && !Hazard(s, t) && Leak(s, t) && t.AbtsCqe?
  {
    var s0 := Initial(1);
    var e := FineOne();
    var s1 := RecOut(e);
    var s2 := Answered(s1, e, ScsiCmd, {Outstanding}, 2, {}, 0);
    GoesOn(s0, s1, GoodCqe(1, e));
    var s3 := AbtsAccepted(s2, e, 1, {TimeoutWork}, 0);
    GoesOn(s0, s2, AbtsCqe(0, BaAcc, e));
    s := Failed(s3, e, None, {RrqWork});
    GoesOn(s0, s3, ErrorCqe(0, e));
    t := AbtsCqe(0, BaAcc, e);
  }

  // ---- An aborted command completes normally

  /** The error handler has aborted the exchange of a command while a REC is out for it. */
  ghost predicate AbortedUnderRec(s: State) {
    Asked(s) && Used(s.reqs[0], 4, Abts, Some(0), {Outstanding, InAbort}, {TimeoutWork}, 1)
  }

  lemma {:induction false} AbortUnderRec(e: Env) returns (s: State)
    requires Fine(e)
    ensures Leads(Initial(1), s) && AbortedUnderRec(s)
  {
    var s0 := Initial(1);
    var a := RecOut(e);
    var b := EhComes(a);
    GoesOn(s0, a, EhStarts(0));
    s := EhAborting(b, e);
    GoesOn(s0, b, EhAborts(0, e));
  }

  lemma {:induction false} IsWithdrawn(s: State)
    requires AbortedUnderRec(s)
    ensures Withdrawn(s, 0)
  {}

  lemma {:induction false} MovedAnyway(s: State, e: Env) returns (s1: State)
    requires Fine(e) && AbortedUnderRec(s)
    ensures Leads(s, s1) && Moved(s1) && s1.log == s.log && s1.reqs[0].eh > 0 && s1.reqs[0].event == EvAbortSuccess
  {
    var c := Answered(s, e, Abts, {Outstanding, InAbort}, 4, {TimeoutWork}, 1);
    LeadsNext(s, GoodCqe(1, e));
    s1 := AbtsAccepted(c, e, 2, {TimeoutWork} - {TimeoutWork}, 1);
    GoesOn(s, c, AbtsCqe(0, BaAcc, e));
  }

  /** The answer "command lost" moves the aborted command to a second exchange, whose abort nobody asks for.
      The error handler reports success although that exchange has the command, and then the command
      completes normally. */
  lemma {:induction false} AbortedCommandCompletes() returns (s: State, s1: State, s2: State)
    ensures Leads(Initial(1), s) && s.reqs[0].scCmd == Some(0) && InAbort in s.reqs[0].flags && Withdrawn(s, 0)
    ensures Leads(s, s1) && s1.reqs[0].eh > 0 && Decisions.ReportsSuccess(s1.reqs[0]) && Holds(s1, 0)
    ensures Leads(s1, s2) && s2.log == s.log + [Returned(0, 2, 0, true)]
  {
    var e := FineOne();
    s := AbortUnderRec(e);
    IsWithdrawn(s);
    s1 := MovedAnyway(s, e);
    s2 := CompletesOnTwo(s1, e);
    LeadsNext(s1, GoodCqe(2, e));
  }

  // ---- A command completes after its SRR

  /** The SRR for the command of request 0 is out on request 2. */
  ghost predicate SrrOut(s: State) {
    && Inv(s) && s.scp == map[0 := 0] && s.log == [LogEntry.Accepted(0)]
    && s.reqs[0].alloc && s.reqs[0].fcport == Some(0) && s.reqs[0].cmdType.ScsiCmd? && s.reqs[0].scCmd == Some(0)
    && s.reqs[0].flags == {Outstanding, SrrSent} && s.reqs[0].refs > 1
    && Recovery.InFlight(s.reqs[2], 0, CbArg(Srr, Some(0))) && s.reqs[2].event == EvNone
  }

  lemma {:induction false} NextIsTwo(s: State, n: nat)
    requires Pool(s, 2, 2) && Decisions.NextFree(s, n)
    ensures n == 2
  {
    assert At(s.idx, 0) == 2 && !s.reqs[2].alloc;
  }

  /** "Response lost" sends the SRR. */
  lemma {:induction false} SrrGoesOut(s: State, e: Env) returns (s': State)
    requires Inv(s) && Asked(s) && Used(s.reqs[0], 2, ScsiCmd, Some(0), {Outstanding}, {}, 0)
    requires s.log == [LogEntry.Accepted(0)] && Fine(e.(reply := CommandLost)) && e.reply.ResponseLost?
    ensures Enabled(s, GoodCqe(1, e)) && !Hazard(s, GoodCqe(1, e)) && s' == Apply(s, GoodCqe(1, e)) && SrrOut(s')
  {
    var t := GoodCqe(1, e);
    s' := Apply(s, t);
    StepKeeps(s, t);
    var n := Recovery.RecEnds(s, t, 1, EvNone, 0);
    NextIsTwo(s, n);
  }

  /** An accepted SRR leaves the exchange to complete. */
  lemma {:induction false} SrrComesBack(s: State, e: Env) returns (s': State)
    requires SrrOut(s) && Fine(e.(reply := CommandLost)) && e.reply.OtherReply?
    ensures Enabled(s, GoodCqe(2, e)) && !Hazard(s, GoodCqe(2, e)) && s' == Apply(s, GoodCqe(2, e)) && Inv(s')
    ensures s'.scp == s.scp && s'.log == s.log && Decisions.MayComplete(s', 0, e)
    ensures SrrSent !in s'.reqs[0].flags && s'.reqs[0].scCmd == Some(0) && s'.reqs[0].life == s.reqs[0].life
  {
    var t := GoodCqe(2, e);
    s' := Apply(s, t);
    StepKeeps(s, t);
    Recovery.SrrActs(s, t, 2, EvNone, 0);
    Decisions.Bits(s'.reqs[0].flags);
  }

  /** A REC is answered "response lost", the SRR is accepted, and the command completes normally. */
  lemma {:induction false} SrrRecovers() returns (s: State, s1: State, s2: State)
    ensures Leads(Initial(1), s) && SrrSent in s.reqs[0].flags && s.reqs[0].scCmd == Some(0)
    ensures Leads(s, s1) && SrrSent !in s1.reqs[0].flags && s1.reqs[0].scCmd == Some(0)
    ensures Leads(s1, s2) && s2.log == s.log + [Returned(0, 0, s.reqs[0].life, true)]
  {
    var e := FineOne();
    var s0 := RecOut(e);
    LeadsInv(Initial(1), s0);
    var e1, e2 := e.(reply := ResponseLost), e.(reply := OtherReply);
    assert e1.(reply := CommandLost) == e && e2.(reply := CommandLost) == e;
    s := SrrGoesOut(s0, e1);
    GoesOn(Initial(1), s0, GoodCqe(1, e1));
    s1 := SrrComesBack(s, e2);
    LeadsNowhere(s);
    GoesOn(s, s, GoodCqe(2, e2));
    Decisions.CompletesIff(s1, 0, e2);
    s2 := Apply(s1, GoodCqe(0, e2));
    LeadsNowhere(s1);
    GoesOn(s1, s1, GoodCqe(0, e2));
  }

  // ---- An RRQ after a flush

  lemma {:induction false} EhTakes(s: State, refs: int, t: CmdType, flags: set<Flag>, work: set<Work>, eh: nat)
    returns (s': State)
    requires WellFormed(s) && s.scp == map[0 := 0] && Used(s.reqs[0], refs, t, Some(0), flags, work, eh) && refs > 0
    ensures s' == Apply(s, EhStarts(0)) && s'.scp == s.scp && WellFormed(s')
    ensures Used(s'.reqs[0], refs + 1, t, Some(0), flags, work, eh + 1)
  {
    s' := Apply(s, EhStarts(0));
  }

  lemma {:induction false} EhFirst(s: State, e: Env) returns (s': State)
    requires Fine(e) && WellFormed(s) && s.scp == map[0 := 0]
    requires Used(s.reqs[0], 2, ScsiCmd, Some(0), {Outstanding}, {}, 1)
    ensures Enabled(s, EhAborts(0, e)) && s' == Apply(s, EhAborts(0, e)) && s'.scp == s.scp && WellFormed(s')
    ensures Used(s'.reqs[0], 3, Abts, Some(0), {Outstanding, InAbort}, {TimeoutWork}, 1)
  {
    s' := Apply(s, EhAborts(0, e));
  }

  lemma {:induction false} EhSecond(s: State, e: Env) returns (s': State)
    requires Fine(e) && WellFormed(s) && s.scp == map[0 := 0]
    requires Used(s.reqs[0], 4, Abts, Some(0), {Outstanding, InAbort}, {TimeoutWork}, 2)
    ensures Enabled(s, EhAborts(0, e)) && s' == Apply(s, EhAborts(0, e)) && WellFormed(s')
    ensures Used(s'.reqs[0], 2, Abts, None, {InAbort, ErrScsiDone}, {TimeoutWork}, 1)
  {
    s' := Apply(s, EhAborts(0, e));
    assert s'.reqs[0].flags == {InAbort, ErrScsiDone};
  }

  /** The error handler has aborted the exchange of the command. */
  lemma {:induction false} EhAbortedOnce(e: Env) returns (s: State)
    requires Fine(e)
    ensures Leads(Initial(1), s) && WellFormed(s) && s.scp == map[0 := 0]
    ensures Used(s.reqs[0], 3, Abts, Some(0), {Outstanding, InAbort}, {TimeoutWork}, 1)
  {
    var s0 := Initial(1);
    LeadsNowhere(s0);
    var s1 := Queued(s0, e);
    GoesOn(s0, s0, Queue(0, 0, e));
    var s2 := EhTakes(s1, 1, ScsiCmd, {Outstanding}, {}, 0);
    GoesOn(s0, s1, EhStarts(0));
    s := EhFirst(s2, e);
    GoesOn(s0, s2, EhAborts(0, e));
  }

  lemma {:induction false} EhAbortedTwice(e: Env) returns (s: State)
    requires Fine(e)
    ensures Leads(Initial(1), s) && WellFormed(s)
    ensures Used(s.reqs[0], 2, Abts, None, {InAbort, ErrScsiDone}, {TimeoutWork}, 1)
  {
    var s0 := Initial(1);
    var s1 := EhAbortedOnce(e);
    var s2 := EhTakes(s1, 3, Abts, {Outstanding, InAbort}, {TimeoutWork}, 1);
    GoesOn(s0, s1, EhStarts(0));
    s := EhSecond(s2, e);
    GoesOn(s0, s2, EhAborts(0, e));
  }

  /** A second error handler gives the command back while the ABTS of the first is out: the request is in abort and no
      longer outstanding. A flush then passes it, and the answer to the ABTS brings the RRQ. */
  lemma {:induction false} RrqAfterFlushHappens() returns (s: State, e: Env)
    ensures Leads(Initial(1), s) && Enabled(s, FlushVisits(0, 0, e)) && Outstanding !in s.reqs[0].flags
    ensures exists ts :: RrqFlush.RrqIn(Apply(s, FlushVisits(0, 0, e)), ts, 0, s.reqs[0].life)
  {
    e := FineOne();
    s := EhAbortedTwice(e);
    LeadsInv(Initial(1), s);
    RrqFlush.RrqComesIff(s, 0, 0, e);
  }

  lemma {:induction false} LeadsInv(s0: State, s: State)
    requires s0 == Initial(1) && WellFormed(s) && Leads(s0, s)
    ensures Inv(s)
  {
    InitialInv(1);
    var ts :| Admissible(s0, ts) && HazardFree(s0, ts) && After(s0, ts) == s;
    RunInvFrom(s0, ts);
  }
}
